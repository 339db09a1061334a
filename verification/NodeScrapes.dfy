/** Scrapes of the node counters. A scrape takes the lock once per node and resource, so informer
    events may land between any two of its sections. A trace interleaves the two freely. */
module NodeScrapes {
  import opened Kube
  import opened Sums
  import opened NodeMetrics
  import opened NodeRuns

  datatype Action =
    | Inform(event: Event)
    | Scrape(node: string, resource: string, total: real)

  datatype Emission = Emission(node: string, resource: string, section: Section)

  /** A scrape has sections for CPU, memory and GPU. */
  predicate WellFormedTrace(w: World, trace: seq<Action>)
    decreases trace
  {
    trace == [] ||
    match trace[0]
    case Inform(e) => WellFormed(w, e) && WellFormedTrace(Advance(w, e), trace[1..])
    case Scrape(_, r, _) => Kind(r) && WellFormedTrace(w, trace[1..])
  }

  function Emit(n: string, r: string, section: Option<Section>): seq<Emission> {
    if section.None? then [] else [Emission(n, r, section.value)]
  }

  /** What the collector emits; a crashed handler ends the trace. */
  function Emissions(t: NodeTable, trace: seq<Action>): seq<Emission>
    decreases trace
  {
    if trace == [] then []
    else match trace[0]
      case Inform(e) =>
        var t' := Step(t, e);
        if t'.None? then [] else Emissions(t'.value, trace[1..])
      case Scrape(n, r, total) => Emit(n, r, SectionOf(t, n, r, total)) + Emissions(t, trace[1..])
  }

  // ----- The observer's side -----

  /** A section told from the observer's side, in the given units: there is one for every node ever
      added, and what is available is the first-seen allocatable amount minus what is due on the node,
      at the moment of the section. */
  ghost function SectionDue(w: World, n: string, r: string, total: real, unit: (string, real) -> real): Option<Section>
  {
    if n !in w.nodes then None
    else
      var allocatable, taken := Get(w.nodes[n].allocatable, r), Due(w, n, r);
      Some(Section(total, if r == GPU then None else Some(total - unit(r, allocatable)),
                   unit(r, taken), unit(r, allocatable - taken)))
  }

  ghost function Observed(w: World, trace: seq<Action>, unit: (string, real) -> real): seq<Emission>
    requires WellFormedTrace(w, trace)
    decreases trace
  {
    if trace == [] then []
    else match trace[0]
      case Inform(e) => if Crashes(w.nodes.Keys, e) then [] else Observed(Advance(w, e), trace[1..], unit)
      case Scrape(n, r, total) => Emit(n, r, SectionDue(w, n, r, total, unit)) + Observed(w, trace[1..], unit)
  }

  lemma SectionMeetsExpectation(t: NodeTable, w: World, n: string, r: string, total: real)
    requires Agrees(t, w)
    ensures SectionOf(t, n, r, total) == SectionDue(w, n, r, total, Emitted)
  {
    assert n in t ==> Get(t[n].requested, r) == Due(w, n, r);
  }

  /** However events interleave with the sections, the emitted figures are the observer's, in the
      units of the code. */
  lemma {:induction false} EmissionsMeetExpectation(t: NodeTable, w: World, trace: seq<Action>)
    requires Agrees(t, w) && WellFormedTrace(w, trace)
    ensures Emissions(t, trace) == Observed(w, trace, Emitted)
    decreases trace
  {
    if trace != [] {
      match trace[0]
      case Inform(e) =>
        StepKeeps(t, w, e);
        if Step(t, e).Some? {
          EmissionsMeetExpectation(Step(t, e).value, Advance(w, e), trace[1..]);
        }
      case Scrape(n, r, total) =>
        EmissionsMeetExpectation(t, w, trace[1..]);
        SectionMeetsExpectation(t, w, n, r, total);
    }
  }

  // ----- Capacity -----

  /** The cluster-wide sum of one figure over the emissions for resource `r`. */
  function ClusterSum(es: seq<Emission>, r: string, figure: Section -> real): real {
    if es == [] then 0.0
    else (if es[0].resource == r then figure(es[0].section) else 0.0) + ClusterSum(es[1..], r, figure)
  }

  function SystemTaken(s: Section): real { if s.systemTaken.Some? then s.systemTaken.value else 0.0 }
  function Requested(s: Section): real { s.requested }
  function Available(s: Section): real { s.available }
  function Total(s: Section): real { s.total }

  /** The first-seen allocatable amounts behind the sections for `r`, as emitted. */
  ghost function AllocatableSum(w: World, trace: seq<Action>, r: string): real
    requires WellFormedTrace(w, trace)
    decreases trace
  {
    if trace == [] then 0.0
    else match trace[0]
      case Inform(e) => if Crashes(w.nodes.Keys, e) then 0.0 else AllocatableSum(Advance(w, e), trace[1..], r)
      case Scrape(n, q, _) =>
        (if q == r && n in w.nodes then Emitted(r, Get(w.nodes[n].allocatable, r)) else 0.0)
        + AllocatableSum(w, trace[1..], r)
  }

  lemma {:induction false} SumsBalance(w: World, trace: seq<Action>, r: string)
    requires WellFormedTrace(w, trace)
    ensures var es := Observed(w, trace, Emitted);
            && ClusterSum(es, r, Requested) + ClusterSum(es, r, Available) == AllocatableSum(w, trace, r)
            && (r != GPU ==> ClusterSum(es, r, SystemTaken) + AllocatableSum(w, trace, r) == ClusterSum(es, r, Total))
    decreases trace
  {
    if trace != [] {
      match trace[0]
      case Inform(e) =>
        if !Crashes(w.nodes.Keys, e) {
          SumsBalance(Advance(w, e), trace[1..], r);
        }
      case Scrape(n, q, total) =>
        SumsBalance(w, trace[1..], r);
        var first, rest := Emit(n, q, SectionDue(w, n, q, total, Emitted)), Observed(w, trace[1..], Emitted);
        assert Observed(w, trace, Emitted) == first + rest;
        SumSplit(first, rest, r);
    }
  }

  /** At most one emission in front of others. */
  lemma SumSplit(first: seq<Emission>, rest: seq<Emission>, r: string)
    requires |first| <= 1
    ensures forall f :: ClusterSum(first + rest, r, f) == ClusterSum(first, r, f) + ClusterSum(rest, r, f)
  {
    if first == [] {
      assert first + rest == rest;
    } else {
      assert (first + rest)[1..] == rest && first[1..] == [];
    }
  }

  /** Capacity is conserved: however events interleave with the sections of a scrape, the emitted
      figures are those of the observer; over the whole cluster what is requested and what is
      available add up to the allocatable amounts, and for CPU and memory, together with what the
      system takes, to the total. */
  lemma CapacityIsConserved(trace: seq<Action>, r: string)
    requires WellFormedTrace(EMPTY, trace)
    ensures var es := Emissions(map[], trace);
            && es == Observed(EMPTY, trace, Emitted)
            && ClusterSum(es, r, Requested) + ClusterSum(es, r, Available) == AllocatableSum(EMPTY, trace, r)
            && (r == CPU || r == MEMORY ==>
                  ClusterSum(es, r, SystemTaken) + ClusterSum(es, r, Requested) + ClusterSum(es, r, Available)
                  == ClusterSum(es, r, Total))
  {
    EmptyAgrees();
    EmissionsMeetExpectation(map[], EMPTY, trace);
    SumsBalance(EMPTY, trace, r);
  }

  // ----- The GPU section -----

  /** No GPU section of the trace has any card to report. */
  ghost predicate NoCardsToReport(w: World, trace: seq<Action>)
    requires WellFormedTrace(w, trace)
    decreases trace
  {
    trace == [] ||
    match trace[0]
    case Inform(e) => Crashes(w.nodes.Keys, e) || NoCardsToReport(Advance(w, e), trace[1..])
    case Scrape(n, r, _) =>
      && (r == GPU && n in w.nodes ==> Get(w.nodes[n].allocatable, GPU) == 0.0 && Due(w, n, GPU) == 0.0)
      && NoCardsToReport(w, trace[1..])
  }

  /** One section is in the right unit for CPU and memory, and for GPU only without any cards. */
  lemma SectionUnits(w: World, n: string, r: string, total: real)
    requires Kind(r)
    ensures SectionDue(w, n, r, total, Emitted) == SectionDue(w, n, r, total, Convert)
        <==> (r == GPU && n in w.nodes ==> Get(w.nodes[n].allocatable, GPU) == 0.0 && Due(w, n, GPU) == 0.0)
  {
  }

  lemma {:induction false} UnitsAgreeIff(w: World, trace: seq<Action>)
    requires WellFormedTrace(w, trace)
    ensures Observed(w, trace, Emitted) == Observed(w, trace, Convert) <==> NoCardsToReport(w, trace)
    decreases trace
  {
    if trace != [] {
      match trace[0]
      case Inform(e) =>
        if !Crashes(w.nodes.Keys, e) {
          UnitsAgreeIff(Advance(w, e), trace[1..]);
        }
      case Scrape(n, r, total) =>
        UnitsAgreeIff(w, trace[1..]);
        SectionUnits(w, n, r, total);
        var a, b := SectionDue(w, n, r, total, Emitted), SectionDue(w, n, r, total, Convert);
        SameConcat(Emit(n, r, a), Emit(n, r, b), Observed(w, trace[1..], Emitted), Observed(w, trace[1..], Convert));
    }
  }

  lemma SameConcat<T>(a: seq<T>, b: seq<T>, c: seq<T>, d: seq<T>)
    requires |a| == |b|
    ensures a + c == b + d <==> a == b && c == d
  {
    if a + c == b + d {
      assert (a + c)[..|a|] == a && (b + d)[..|b|] == b;
      assert (a + c)[|a|..] == c && (b + d)[|b|..] == d;
    }
  }

  /** The emitted figures are right, in cores, GiB and cards, if and only if no node has GPU cards,
      allocatable or requested, at the moment of its GPU section. */
  lemma FiguresAreRightIff(trace: seq<Action>)
    requires WellFormedTrace(EMPTY, trace)
    ensures Emissions(map[], trace) == Observed(EMPTY, trace, Convert) <==> NoCardsToReport(EMPTY, trace)
  {
    EmptyAgrees();
    EmissionsMeetExpectation(map[], EMPTY, trace);
    UnitsAgreeIff(EMPTY, trace);
  }

  /** A node with two free cards reports the billionth part of that as available. */
  lemma CardsAreDividedAsBytes()
    ensures var trace := [Inform(NodeAdded(Node("n", None, map[GPU := 2.0]))), Scrape("n", GPU, 2.0)];
            && WellFormedTrace(EMPTY, trace)
            && Emissions(map[], trace) == [Emission("n", GPU, Section(2.0, None, 0.0, 2.0 / GB_IN_BYTES))]
            && Observed(EMPTY, trace, Convert) != Emissions(map[], trace)
  {
    var e, scrape := NodeAdded(Node("n", None, map[GPU := 2.0])), Scrape("n", GPU, 2.0);
    var trace := [Inform(e), scrape];
    var t, w := Step(map[], e).value, Advance(EMPTY, e);
    assert trace[1..] == [scrape] && [scrape][1..] == [];
    assert WellFormedTrace(w, [scrape]);
    assert Emissions(t, [scrape]) == [Emission("n", GPU, Section(2.0, None, 0.0, 2.0 / GB_IN_BYTES))];
    FiguresAreRightIff(trace);
    assert !NoCardsToReport(w, [scrape]);
  }
}
