/**
 * The text routines of the Arduino core and of avr-libc that the text-protocol
 * firmware relies on: String::trim, String::indexOf, String::toInt (atol),
 * String::toFloat (atof, decimal notation only) and String(unsigned char)
 * (decimal rendering), plus the '|'-joined field layout of a telemetry line and
 * its inverse.
 */
module ArduinoText {

  /** isspace() of the C library: blank, \t, \n, \v, \f and \r. */
  predicate IsSpace(c: char) {
    c == ' ' || c == '\t' || c == '\n' || c == '\r' || c as int == 11 || c as int == 12
  }

  predicate IsDigit(c: char) {
    '0' <= c <= '9'
  }

  predicate AllSpace(s: string) {
    forall i :: 0 <= i < |s| ==> IsSpace(s[i])
  }

  predicate AllDigits(s: string) {
    forall i :: 0 <= i < |s| ==> IsDigit(s[i])
  }

  function DigitValue(c: char): (d: nat)
    requires IsDigit(c)
    ensures d < 10
  {
    c as int - '0' as int
  }

  function DigitChar(d: nat): (c: char)
    requires d < 10
    ensures IsDigit(c) && DigitValue(c) == d
  {
    ('0' as int + d) as char
  }

  /** Length of the run of white space that starts s. */
  function LeadingSpaces(s: string): (n: nat)
    ensures n <= |s|
    ensures AllSpace(s[..n])
    ensures n < |s| ==> !IsSpace(s[n])
  {
    if |s| > 0 && IsSpace(s[0]) then
      var k := LeadingSpaces(s[1..]);
      assert s[..k + 1] == [s[0]] + s[1..][..k];
      k + 1
    else 0
  }

  /** Length of the run of white space that ends s. */
  function TrailingSpaces(s: string): (n: nat)
    ensures n <= |s|
    ensures AllSpace(s[|s| - n..])
    ensures n < |s| ==> !IsSpace(s[|s| - 1 - n])
  {
    if |s| > 0 && IsSpace(s[|s| - 1]) then
      var t := s[..|s| - 1];
      var k := TrailingSpaces(t);
      assert s[|s| - (k + 1)..] == t[|t| - k..] + [s[|s| - 1]];
      assert k < |t| ==> s[|s| - 2 - k] == t[|t| - 1 - k];
      k + 1
    else 0
  }

  /** String::trim(): the string without its leading and trailing white space. */
  function Trim(s: string): (r: string)
    ensures LeadingSpaces(s) + |r| <= |s|
    ensures s == s[..LeadingSpaces(s)] + r + s[LeadingSpaces(s) + |r|..]
    ensures AllSpace(s[LeadingSpaces(s) + |r|..])
    ensures r == [] <==> AllSpace(s)
    ensures r != [] ==> !IsSpace(r[0]) && !IsSpace(r[|r| - 1])
  {
    var n := LeadingSpaces(s);
    var t := s[n..];
    var r := t[..|t| - TrailingSpaces(t)];
    assert s == s[..n] + r + s[n + |r|..];
    assert s[n + |r|..] == t[|t| - TrailingSpaces(t)..];
    TrimEmptyOnlyIfBlank(s, n, r);
    r
  }

  lemma TrimEmptyOnlyIfBlank(s: string, n: nat, r: string)
    requires n <= |s| && n + |r| <= |s| && AllSpace(s[..n]) && (n < |s| ==> !IsSpace(s[n]))
    requires s == s[..n] + r + s[n + |r|..] && AllSpace(s[n + |r|..])
    ensures r == [] <==> AllSpace(s)
  {
    if r == [] {
      assert s == s[..n] + s[n..];
    }
  }

  lemma TrimUntouched(s: string)
    requires s != [] && !IsSpace(s[0]) && !IsSpace(s[|s| - 1])
    ensures Trim(s) == s
  {
    assert LeadingSpaces(s) == 0;
    assert TrailingSpaces(s) == 0;
  }

  /** String::indexOf(c): the position of the first c in s, or -1 if there is none. */
  function IndexOf(s: string, c: char): (r: int)
    ensures -1 <= r < |s|
    ensures r == -1 <==> c !in s
    ensures r >= 0 ==> s[r] == c && c !in s[..r]
  {
    if |s| == 0 then -1
    else if s[0] == c then 0
    else
      var k := IndexOf(s[1..], c);
      if k == -1 then
        assert s == [s[0]] + s[1..];
        -1
      else
        assert s[..k + 1] == [s[0]] + s[1..][..k];
        k + 1
  }

  /**
   * What String::substring keeps: the copy goes through a C string, so it ends
   * at the first NUL character of the source.
   */
  function UpToNul(s: string): (r: string)
    ensures '\0' !in r
    ensures |r| <= |s| && r == s[..|r|]
    ensures |r| < |s| ==> s[|r|] == '\0'
    ensures '\0' !in s ==> r == s
  {
    var k := IndexOf(s, '\0');
    if k == -1 then s else s[..k]
  }

  lemma IndexOfIsFirst(s: string, c: char, k: nat)
    requires k < |s| && s[k] == c && c !in s[..k]
    ensures IndexOf(s, c) == k
  {
    assert s[..k + 1][k] == c;
  }

  /** Length of the run of decimal digits that starts s. */
  function DigitRun(s: string): (n: nat)
    ensures n <= |s|
    ensures AllDigits(s[..n])
    ensures n < |s| ==> !IsDigit(s[n])
  {
    if |s| > 0 && IsDigit(s[0]) then
      var k := DigitRun(s[1..]);
      assert s[..k + 1] == [s[0]] + s[1..][..k];
      k + 1
    else 0
  }

  /** The number a string of decimal digits denotes, most significant digit first. */
  function DigitsValue(d: string): (r: nat)
    requires AllDigits(d)
    ensures r == 0 <==> forall i :: 0 <= i < |d| ==> d[i] == '0'
  {
    if |d| == 0 then 0 else DigitsValue(d[..|d| - 1]) * 10 + DigitValue(d[|d| - 1])
  }

  /** The digits after a decimal point, as a fraction. */
  function FractionValue(d: string): (r: real)
    requires AllDigits(d)
    ensures 0.0 <= r <= 1.0
  {
    if |d| == 0 then 0.0 else (DigitValue(d[0]) as real + FractionValue(d[1..])) / 10.0
  }

  /** What atol and atof skip before the digits: white space, then one optional sign. */
  function AfterSign(s: string): (r: string)
    ensures |r| <= |s| && r == s[|s| - |r|..]
    ensures LeadingSpaces(s) <= |s| - |r| <= LeadingSpaces(s) + 1
  {
    var t := s[LeadingSpaces(s)..];
    if |t| > 0 && (t[0] == '-' || t[0] == '+') then t[1..] else t
  }

  predicate IsNegative(s: string) {
    var t := s[LeadingSpaces(s)..];
    |t| > 0 && t[0] == '-'
  }

  /**
   * String::toInt(), which is atol(): the leading decimal integer, 0 when
   * there is none. Overflow of the 32-bit long is not modelled.
   */
  function ToInt(s: string): (r: int)
    ensures IsNegative(s) ==> r <= 0
    ensures !IsNegative(s) ==> r >= 0
    ensures DigitRun(AfterSign(s)) == 0 ==> r == 0
  {
    var u := AfterSign(s);
    var magnitude: int := DigitsValue(u[..DigitRun(u)]);
    if IsNegative(s) then -magnitude else magnitude
  }

  /**
   * String::toFloat(), which is atof(), for decimal notation: sign, integer
   * digits, and optionally '.' and fraction digits; 0.0 when there is no number.
   */
  function ToFloat(s: string): (r: real)
    ensures !IsNegative(s) ==> ToInt(s) as real <= r <= ToInt(s) as real + 1.0
    ensures IsNegative(s) ==> ToInt(s) as real - 1.0 <= r <= ToInt(s) as real
  {
    var u := AfterSign(s);
    var k := DigitRun(u);
    var rest := u[k..];
    var fraction := if |rest| > 0 && rest[0] == '.' then rest[1..][..DigitRun(rest[1..])] else "";
    var magnitude := DigitsValue(u[..k]) as real + FractionValue(fraction);
    if IsNegative(s) then -magnitude else magnitude
  }

  /** String(n) for an unsigned number: its decimal digits, without leading zeros. */
  function DecimalString(n: nat): (r: string)
    ensures r != [] && AllDigits(r)
    ensures r[0] == '0' <==> n == 0
  {
    if n < 10 then [DigitChar(n)] else DecimalString(n / 10) + [DigitChar(n % 10)]
  }

  lemma {:induction false} DigitsValueOfDecimalString(n: nat)
    ensures DigitsValue(DecimalString(n)) == n
  {
    if n >= 10 {
      var s := DecimalString(n);
      assert s[..|s| - 1] == DecimalString(n / 10);
      DigitsValueOfDecimalString(n / 10);
    }
  }

  lemma DigitRunOfDigits(s: string)
    requires AllDigits(s)
    ensures DigitRun(s) == |s|
  {

  }

  /** Reading back what String(n) writes: toInt inverts the decimal rendering. */
  lemma ToIntOfDecimalString(n: nat)
    ensures ToInt(DecimalString(n)) == n
  {
    var s := DecimalString(n);
    assert !IsSpace(s[0]);
    assert LeadingSpaces(s) == 0;
    assert s[0 ..] == s;
    DigitRunOfDigits(s);
    assert s[..|s|] == s;
    DigitsValueOfDecimalString(n);
  }

  /** toFloat reads a whole number written in decimal as that number. */
  lemma ToFloatOfDecimalString(n: nat)
    ensures ToFloat(DecimalString(n)) == n as real
  {
    var s := DecimalString(n);
    assert !IsSpace(s[0]);
    assert LeadingSpaces(s) == 0;
    assert s[0 ..] == s;
    DigitRunOfDigits(s);
    assert s[..|s|] == s;
    DigitsValueOfDecimalString(n);
  }

  /** Fields written one after another with sep between them. */
  function Join(fields: seq<string>, sep: char): (r: string)
    requires |fields| > 0
    ensures |fields[0]| <= |r| && r[..|fields[0]|] == fields[0]
    ensures |fields| > 1 ==> |fields[0]| < |r| && r[|fields[0]|] == sep
    ensures |fields| == 1 <==> r == fields[0]
  {
    if |fields| == 1 then fields[0] else fields[0] + [sep] + Join(fields[1..], sep)
  }

  /** The fields of s between occurrences of sep: the reader's side of Join. */
  function Split(s: string, sep: char): (r: seq<string>)
    ensures |r| > 0
    decreases |s|
  {
    var k := IndexOf(s, sep);
    if k == -1 then [s] else [s[..k]] + Split(s[k + 1..], sep)
  }

  /** Splitting a joined line gives back its fields when no field holds the separator. */
  lemma {:induction false} SplitJoin(fields: seq<string>, sep: char)
    requires |fields| > 0
    requires forall i :: 0 <= i < |fields| ==> sep !in fields[i]
    ensures Split(Join(fields, sep), sep) == fields
  {
    if |fields| > 1 {
      var s := Join(fields, sep);
      var k := |fields[0]|;
      assert s[k] == sep;
      assert s[..k] == fields[0];
      IndexOfIsFirst(s, sep, k);
      assert s[k + 1..] == Join(fields[1..], sep);
      SplitJoin(fields[1..], sep);
    }
  }
}
