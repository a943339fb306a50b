/**
 * The browser dashboard: one panel per breaker, panel 0 being the overall
 * panel. A child panel can be switched on only while the overall panel is on;
 * switching the overall panel off switches every child off; the overall
 * panel's load display shows the sum of the load displays of the children
 * that are on. Each display holds the number that parseFloat reads back from
 * its text.
 */
module NekuDashboard {

  /** Number.prototype.toFixed(2) read back by parseFloat: rounding to two decimals, halves away from zero. */
  function Fixed2(x: real): (r: real)
    ensures -0.005 <= r - x <= 0.005
  {
    if x < 0.0 then -Fixed2Magnitude(-x) else Fixed2Magnitude(x)
  }

  function Fixed2Magnitude(x: real): (r: real)
    requires x >= 0.0
    ensures -0.005 <= r - x <= 0.005
  {
    (x * 100.0 + 0.5).Floor as real / 100.0
  }

  lemma Fixed2Zero()
    ensures Fixed2(0.0) == 0.0
  {
    assert (0.0 * 100.0 + 0.5).Floor == 0;
  }

  /** What a panel shows: its status, its system voltage display and its load voltage display. */
  datatype Panel = Panel(isOn: bool, systemVoltage: real, loadVoltage: real)

  /** What a child adds to the overall load. */
  function Contribution(p: Panel): real {
    if p.isOn then p.loadVoltage else 0.0
  }

  /** The sum updateOverallLoad accumulates over panels 1 .. n-1. */
  function ChildLoad(v: seq<Panel>, n: nat): (r: real)
    requires n <= |v|
    ensures (forall i :: 1 <= i < n ==> v[i].loadVoltage >= 0.0) ==> r >= 0.0
  {
    if n <= 1 then 0.0 else ChildLoad(v, n - 1) + Contribution(v[n - 1])
  }

  function TotalLoad(v: seq<Panel>): (r: real)
    ensures (forall i :: 1 <= i < |v| ==> v[i].loadVoltage >= 0.0) ==> r >= 0.0
  {
    ChildLoad(v, |v|)
  }

  /** updateOverallLoad(): panel 0's load display becomes the rounded total. */
  function WithOverallLoad(v: seq<Panel>): (r: seq<Panel>)
    requires |v| > 0
    ensures |r| == |v| && forall i :: 0 < i < |v| ==> r[i] == v[i]
    ensures r[0].isOn == v[0].isOn && r[0].systemVoltage == v[0].systemVoltage
    ensures -0.005 <= r[0].loadVoltage - TotalLoad(v) <= 0.005
  {
    v[0 := v[0].(loadVoltage := Fixed2(TotalLoad(v)))]
  }

  /** setOn() on panel k. */
  function SetOnSpec(v: seq<Panel>, k: nat): (r: seq<Panel>)
    requires k < |v|
    ensures |r| == |v|
    ensures forall i :: 0 <= i < |v| && i != k ==> r[i].isOn == v[i].isOn
    ensures forall i :: 0 < i < |v| ==> r[i].loadVoltage == v[i].loadVoltage
  {
    if k == 0 then WithOverallLoad(v[0 := v[0].(isOn := true)])
    else if v[0].isOn then v[k := v[k].(isOn := true)]
    else v
  }

  /** Every panel off, every display cleared except the overall panel's system voltage. */
  function AllOff(v: seq<Panel>): seq<Panel>
    requires |v| > 0
  {
    seq(|v|, i requires 0 <= i < |v| => if i == 0 then Panel(false, v[0].systemVoltage, 0.0) else Panel(false, 0.0, 0.0))
  }

  /** setOff() on panel k: stopVoltageReadings clears the displays, the overall panel cascades. */
  function SetOffSpec(v: seq<Panel>, k: nat): (r: seq<Panel>)
    requires k < |v|
    ensures |r| == |v|
    ensures forall i :: 0 <= i < |v| && r[i].isOn ==> v[i].isOn
  {
    if k == 0 then AllOff(v) else WithOverallLoad(v[k := Panel(false, 0.0, 0.0)])
  }

  /** One run of panel k's one-second interval, given the two values Math.random() returns. */
  function TickSpec(v: seq<Panel>, k: nat, systemRandom: real, loadRandom: real): (r: seq<Panel>)
    requires k < |v|
    ensures |r| == |v| && forall i :: 0 <= i < |v| ==> r[i].isOn == v[i].isOn
    ensures forall i :: 0 < i < |v| && i != k ==> r[i] == v[i]
  {
    var system := Fixed2(12.0 + (systemRandom * 0.5 - 0.25));
    if k == 0 then v[0 := v[0].(systemVoltage := system)]
    else
      var load := if v[k].isOn then Fixed2(11.8 + (loadRandom * 0.5 - 0.25)) else 0.0;
      var w := v[k := v[k].(systemVoltage := if v[0].isOn then system else 0.0, loadVoltage := load)];
      if v[k].isOn then WithOverallLoad(w) else w
  }

  class Dashboard {
    const isOverall: bool
    var isOn: bool
    var systemVoltage: real
    var loadVoltage: real

    /** new Dashboard(el, isOverall): off, with the displays cleared by stopVoltageReadings. */
    constructor (isOverall: bool, markupSystemVoltage: real)
      ensures this.isOverall == isOverall && !isOn && loadVoltage == 0.0
      ensures systemVoltage == if isOverall then markupSystemVoltage else 0.0
    {
      this.isOverall := isOverall;
      isOn := false;
      systemVoltage := if isOverall then markupSystemVoltage else 0.0;
      loadVoltage := 0.0;
    }

    method SetOn(ds: seq<Dashboard>, ghost k: nat)
      requires Wired(ds) && k < |ds| && ds[k] == this
      modifies ds
      ensures View(ds) == SetOnSpec(old(View(ds)), k)
    {
      ghost var v := View(ds);
      if isOverall || ds[0].isOn {
        isOn := true;
        assert View(ds) == v[k := v[k].(isOn := true)];
        if isOverall {
          UpdateOverallLoad(ds);
        }
      }
    }

    method SetOff(ds: seq<Dashboard>, ghost k: nat)
      requires Wired(ds) && k < |ds| && ds[k] == this
      modifies ds
      ensures View(ds) == SetOffSpec(old(View(ds)), k)
      decreases if isOverall then 1 else 0
    {
      ghost var v := View(ds);
      isOn := false;
      if !isOverall {
        systemVoltage := 0.0;
      }
      loadVoltage := 0.0;
      if isOverall {
        for j := 1 to |ds|
          invariant !View(ds)[0].isOn && View(ds)[0].systemVoltage == v[0].systemVoltage
          invariant forall i :: 1 <= i < j ==> View(ds)[i] == Panel(false, 0.0, 0.0)
          invariant forall i :: j <= i < |ds| ==> View(ds)[i] == v[i]
        {
          ghost var before := View(ds);
          ds[j].SetOff(ds, j);
          ChildOffChangesOnlyItself(before, j);
        }
        NoChildOnNoLoad(View(ds), |ds|);
        Fixed2Zero();
        UpdateOverallLoad(ds);
        assert View(ds) == AllOff(v);
      } else {
        assert View(ds) == v[k := Panel(false, 0.0, 0.0)];
        UpdateOverallLoad(ds);
      }
    }

    /** The callback of the one-second interval. */
    method VoltageTick(ds: seq<Dashboard>, ghost k: nat, systemRandom: real, loadRandom: real)
      requires Wired(ds) && k < |ds| && ds[k] == this
      modifies ds
      ensures View(ds) == TickSpec(old(View(ds)), k, systemRandom, loadRandom)
    {
      ghost var v := View(ds);
      var system := 12.0 + (systemRandom * 0.5 - 0.25);
      var load := if isOn then 11.8 + (loadRandom * 0.5 - 0.25) else 0.0;
      if isOverall {
        systemVoltage := Fixed2(system);
        assert View(ds) == v[0 := v[0].(systemVoltage := Fixed2(system))];
      } else {
        systemVoltage := if ds[0].isOn then Fixed2(system) else 0.0;
        loadVoltage := if isOn then Fixed2(load) else 0.0;
        assert View(ds) == v[k := Panel(isOn, systemVoltage, loadVoltage)];
      }
      if isOn && !isOverall {
        UpdateOverallLoad(ds);
      }
    }
  }

  /** The dashboards array: the overall panel first, distinct panels. */
  predicate Wired(ds: seq<Dashboard>) {
    |ds| > 0 && ds[0].isOverall
    && (forall i :: 0 < i < |ds| ==> !ds[i].isOverall)
    && (forall i, j :: 0 <= i < j < |ds| ==> ds[i] != ds[j])
  }

  ghost function View(ds: seq<Dashboard>): (v: seq<Panel>)
    reads ds
    ensures |v| == |ds|
  {
    seq(|ds|, i reads ds requires 0 <= i < |ds| => Panel(ds[i].isOn, ds[i].systemVoltage, ds[i].loadVoltage))
  }

  /** The page's n containers, each given its Dashboard. */
  method CreateDashboards(n: nat, markupSystemVoltage: real) returns (ds: seq<Dashboard>)
    requires n > 0
    ensures Wired(ds) && |ds| == n
    ensures forall i :: 0 <= i < n ==> fresh(ds[i])
    ensures View(ds) == InitialView(n, markupSystemVoltage)
  {
    ds := [];
    for i := 0 to n
      invariant |ds| == i
      invariant forall j :: 0 <= j < i ==> fresh(ds[j]) && ds[j].isOverall == (j == 0)
      invariant forall a, b :: 0 <= a < b < i ==> ds[a] != ds[b]
      invariant View(ds) == InitialView(i, markupSystemVoltage)
    {
      var d := new Dashboard(i == 0, markupSystemVoltage);
      ghost var before := View(ds);
      ds := ds + [d];
      assert View(ds) == before + [Panel(false, if i == 0 then markupSystemVoltage else 0.0, 0.0)];
    }
  }

  function InitialView(n: nat, markupSystemVoltage: real): seq<Panel>
  {
    seq(n, i => Panel(false, if i == 0 then markupSystemVoltage else 0.0, 0.0))
  }

  method UpdateOverallLoad(ds: seq<Dashboard>)
    requires Wired(ds)
    modifies ds[0]
    ensures View(ds) == WithOverallLoad(old(View(ds)))
  {
    var totalLoad := 0.0;
    for i := 1 to |ds|
      invariant totalLoad == ChildLoad(View(ds), i)
    {
      if ds[i].isOn {
        totalLoad := totalLoad + ds[i].loadVoltage;
      }
    }
    ds[0].loadVoltage := Fixed2(totalLoad);
  }

  // ---------------------------------------------------------------------------
  // The switching rules

  /** The overall panel can always be switched on; nothing else changes status. */
  lemma OverallSwitchesOn(v: seq<Panel>)
    requires |v| > 0
    ensures SetOnSpec(v, 0)[0].isOn
    ensures forall i :: 0 < i < |v| ==> SetOnSpec(v, 0)[i] == v[i]
  {
  }

  /** A child switches on exactly when the overall panel is on, and nothing else changes. */
  lemma ChildSwitchesOnOnlyUnderOverall(v: seq<Panel>, k: nat)
    requires 0 < k < |v|
    ensures SetOnSpec(v, k)[k].isOn <==> v[0].isOn || v[k].isOn
    ensures forall i :: 0 <= i < |v| && i != k ==> SetOnSpec(v, k)[i] == v[i]
    ensures SetOnSpec(v, k)[k].loadVoltage == v[k].loadVoltage
    ensures !v[0].isOn ==> SetOnSpec(v, k) == v
  {
  }

  /** Switching a panel off leaves it off with a cleared load display. */
  lemma SwitchedOffPanelIsOff(v: seq<Panel>, k: nat)
    requires k < |v|
    ensures !SetOffSpec(v, k)[k].isOn && SetOffSpec(v, k)[k].loadVoltage == 0.0
  {
  }

  /** Switching a child off changes that child and the overall panel's load display, nothing else. */
  lemma ChildOffChangesOnlyItself(v: seq<Panel>, k: nat)
    requires 0 < k < |v|
    ensures var w := SetOffSpec(v, k);
      |w| == |v| && w[k] == Panel(false, 0.0, 0.0)
      && w[0].isOn == v[0].isOn && w[0].systemVoltage == v[0].systemVoltage
      && forall i :: 0 < i < |v| && i != k ==> w[i] == v[i]
  {
  }

  /** Switching the overall panel off switches every panel off. */
  lemma OverallOffCascades(v: seq<Panel>)
    requires |v| > 0
    ensures forall i :: 0 <= i < |v| ==> !SetOffSpec(v, 0)[i].isOn
  {
  }

  // ---------------------------------------------------------------------------
  // The overall load

  lemma {:induction false} NoChildOnNoLoad(v: seq<Panel>, n: nat)
    requires n <= |v|
    requires forall i :: 1 <= i < |v| ==> !v[i].isOn
    ensures ChildLoad(v, n) == 0.0
  {
    if n > 1 {
      NoChildOnNoLoad(v, n - 1);
    }
  }

  /** The total depends only on what the children contribute: not on panel 0, not on the loads of children that are off. */
  lemma {:induction false} SameContributionsSameLoad(v: seq<Panel>, w: seq<Panel>, n: nat)
    requires |v| == |w| && n <= |v|
    requires forall i :: 1 <= i < |v| ==> Contribution(v[i]) == Contribution(w[i])
    ensures ChildLoad(v, n) == ChildLoad(w, n)
  {
    if n > 1 {
      SameContributionsSameLoad(v, w, n - 1);
    }
  }

  /** A child's display and its contribution to the total: a child that is on adds its load. */
  lemma {:induction false} ChildLoadAddsOnChild(v: seq<Panel>, k: nat, load: real)
    requires 0 < k < |v| && v[k].isOn
    ensures TotalLoad(v[k := v[k].(loadVoltage := load)]) == TotalLoad(v) - v[k].loadVoltage + load
  {
    var w := v[k := v[k].(loadVoltage := load)];
    ChildLoadSplit(v, w, k, |v|);
  }

  lemma {:induction false} ChildLoadSplit(v: seq<Panel>, w: seq<Panel>, k: nat, n: nat)
    requires 0 < k < |v| && |w| == |v| && n <= |v|
    requires forall i :: 0 <= i < |v| && i != k ==> w[i] == v[i]
    ensures ChildLoad(w, n) == ChildLoad(v, n) + (if k < n then Contribution(w[k]) - Contribution(v[k]) else 0.0)
  {
    if n > 1 {
      ChildLoadSplit(v, w, k, n - 1);
    }
  }

  /** The overall panel shows the rounded sum of its children's contributions. */
  predicate OverallShowsTotal(v: seq<Panel>) {
    |v| > 0 && v[0].loadVoltage == Fixed2(TotalLoad(v))
  }

  lemma WithOverallLoadShowsTotal(v: seq<Panel>)
    requires |v| > 0
    ensures OverallShowsTotal(WithOverallLoad(v))
  {
    SameContributionsSameLoad(v, WithOverallLoad(v), |v|);
  }

  // ---------------------------------------------------------------------------
  // Sequences of clicks and interval runs

  datatype Event = ClickOn(k: nat) | ClickOff(k: nat) | Tick(k: nat, systemRandom: real, loadRandom: real)

  /** One event on the page; a click on a panel that does not exist changes nothing. */
  function Apply(v: seq<Panel>, e: Event): seq<Panel> {
    if e.k >= |v| then v
    else match e
      case ClickOn(k) => SetOnSpec(v, k)
      case ClickOff(k) => SetOffSpec(v, k)
      case Tick(k, s, l) => TickSpec(v, k, s, l)
  }

  function Run(v: seq<Panel>, events: seq<Event>): seq<Panel>
    decreases |events|
  {
    if events == [] then v else Run(Apply(v, events[0]), events[1..])
  }

  /**
   * What the dashboard keeps true: the overall panel gates the others, a
   * child that is off shows no load, and the overall panel shows the total.
   */
  predicate Consistent(v: seq<Panel>) {
    |v| > 0
    && (!v[0].isOn ==> forall i :: 0 <= i < |v| ==> !v[i].isOn)
    && (forall i :: 1 <= i < |v| ==> !v[i].isOn ==> v[i].loadVoltage == 0.0)
    && OverallShowsTotal(v)
  }

  lemma InitialConsistent(n: nat, markupSystemVoltage: real)
    requires n > 0
    ensures Consistent(InitialView(n, markupSystemVoltage))
  {
    var v := InitialView(n, markupSystemVoltage);
    NoChildOnNoLoad(v, n);
    Fixed2Zero();
  }

  lemma ApplyKeepsConsistent(v: seq<Panel>, e: Event)
    requires Consistent(v)
    ensures Consistent(Apply(v, e))
  {
    if e.k < |v| {
      var k := e.k;
      match e
      case ClickOn(_) =>
        if k == 0 {
          WithOverallLoadShowsTotal(v[0 := v[0].(isOn := true)]);
        } else if v[0].isOn {
          SameContributionsSameLoad(v, SetOnSpec(v, k), |v|);
        }
      case ClickOff(_) =>
        if k == 0 {
          NoChildOnNoLoad(AllOff(v), |v|);
          Fixed2Zero();
        } else {
          WithOverallLoadShowsTotal(v[k := Panel(false, 0.0, 0.0)]);
        }
      case Tick(_, s, l) =>
        var w := TickSpec(v, k, s, l);
        if k == 0 {
          SameContributionsSameLoad(v, w, |v|);
        } else if v[k].isOn {
          var system := Fixed2(12.0 + (s * 0.5 - 0.25));
          WithOverallLoadShowsTotal(v[k := v[k].(systemVoltage := if v[0].isOn then system else 0.0,
                                                 loadVoltage := Fixed2(11.8 + (l * 0.5 - 0.25)))]);
        } else {
          SameContributionsSameLoad(v, w, |v|);
        }
    }
  }

  lemma {:induction false} RunKeepsConsistent(v: seq<Panel>, events: seq<Event>)
    requires Consistent(v)
    ensures Consistent(Run(v, events))
    decreases |events|
  {
    if events != [] {
      ApplyKeepsConsistent(v, events[0]);
      RunKeepsConsistent(Apply(v, events[0]), events[1..]);
    }
  }

  /** From page load on, whatever is clicked and however the intervals fire, the invariant holds. */
  lemma AlwaysConsistent(n: nat, markupSystemVoltage: real, events: seq<Event>)
    requires n > 0
    ensures Consistent(Run(InitialView(n, markupSystemVoltage), events))
  {
    InitialConsistent(n, markupSystemVoltage);
    RunKeepsConsistent(InitialView(n, markupSystemVoltage), events);
  }
}
