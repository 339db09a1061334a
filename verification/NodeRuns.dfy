/** Whole runs of informer events: the counters of the collector against the pods that are there. */
module NodeRuns {
  import opened Kube
  import opened Sums
  import opened NodeMetrics

  /** The allocatable resources a node was first seen with, and the resources that pods accounted
      on it since have requested. */
  datatype History = History(allocatable: ResourceList, counted: set<string>)

  /** A pod that was subtracted without ever having been added: its deletion was the first to report
      that it is bound. Only the resources counted on the node by then are affected. */
  datatype Revealed = Revealed(pod: Pod, counted: set<string>)

  /** What the cluster looks like to an observer of the same events: every node ever added, the last
      known state of every existing pod, the accounted pods whose deletion the handlers ignored, and
      the pods they subtracted without having added them. */
  datatype World = World(nodes: map<string, History>, pods: map<PodKey, Pod>, lost: seq<Pod>, revealed: seq<Revealed>)

  const EMPTY := World(map[], map[], [], [])

  // ----- From-scratch totals -----

  /** What one pod takes of resource `r` on node `n`. */
  function On(p: Pod, n: string, r: string): real {
    if p.Accounted() && p.nodeName == n then RequestTotal(p.containers, r) else 0.0
  }

  ghost function PerPod(pods: map<PodKey, Pod>, n: string, r: string): map<PodKey, real> {
    map k | k in pods :: On(pods[k], n, r)
  }

  ghost function Live(pods: map<PodKey, Pod>, n: string, r: string): real {
    MapSum(PerPod(pods, n, r))
  }

  function LostTotal(lost: seq<Pod>, n: string, r: string): real {
    if lost == [] then 0.0 else LostTotal(lost[..|lost| - 1], n, r) + On(lost[|lost| - 1], n, r)
  }

  function Subtracted(x: Revealed, n: string, r: string): real {
    if r in x.counted then On(x.pod, n, r) else 0.0
  }

  function RevealedTotal(xs: seq<Revealed>, n: string, r: string): real {
    if xs == [] then 0.0 else RevealedTotal(xs[..|xs| - 1], n, r) + Subtracted(xs[|xs| - 1], n, r)
  }

  /** What the counter of `r` on `n` should be. */
  ghost function Due(w: World, n: string, r: string): real {
    Live(w.pods, n, r) + LostTotal(w.lost, n, r) - RevealedTotal(w.revealed, n, r)
  }

  // ----- Well-formed histories -----

  /** Bindings and requests never change once set, and a finished pod stays finished. */
  predicate Evolves(p: Pod, q: Pod) {
    && q.key == p.key && q.containers == p.containers
    && (p.nodeName != "" ==> q.nodeName == p.nodeName)
    && (p.Terminal() ==> q.Terminal())
  }

  /** Nothing is assumed about the order of node and pod events. */
  predicate WellFormed(w: World, e: Event) {
    match e
    case PodAdded(p) => p.key !in w.pods && p.NonNegative()
    case PodUpdated(p, q) => p.key in w.pods && w.pods[p.key] == p && Evolves(p, q)
    case PodDeleted(q) => q.key in w.pods && Evolves(w.pods[q.key], q)
    case PodTombstone(k) => k in w.pods
    case _ => true
  }

  /** The two ways in which the deletion of an accounted pod fails a guard of the handlers: the
      notification carries no pod, or it is the first to report that the pod has finished. */
  predicate Dropped(w: World, e: Event)
    requires WellFormed(w, e)
  {
    match e
    case PodDeleted(q) => w.pods[q.key].Accounted() && q.Terminal()
    case PodTombstone(k) => w.pods[k].Accounted()
    case _ => false
  }

  /** A deletion that passes the guards for a pod that was never added. */
  predicate Reveals(w: World, e: Event)
    requires WellFormed(w, e)
  {
    e.PodDeleted? && w.pods[e.pod.key].nodeName == "" && e.pod.Accounted()
  }

  function CountedOn(nodes: map<string, History>, n: string): set<string> {
    if n in nodes then nodes[n].counted else {}
  }

  function CountIn(nodes: map<string, History>, p: Pod): map<string, History> {
    if p.nodeName !in nodes then nodes
    else
      var h := nodes[p.nodeName];
      nodes[p.nodeName := h.(counted := h.counted + RequestedNames(p.containers))]
  }

  /** The pod that an event makes the handlers add to the counters of its node. */
  function Started(e: Event): Option<Pod> {
    match e
    case PodAdded(p) => if p.Accounted() then Some(p) else None
    case PodUpdated(p, q) => if p.nodeName == "" && q.Accounted() then Some(q) else None
    case _ => None
  }

  function Advance(w: World, e: Event): World
    requires WellFormed(w, e)
  {
    match e
    case NodeAdded(node) =>
      if node.name in w.nodes then w else w.(nodes := w.nodes[node.name := History(node.allocatable, {})])
    case PodAdded(p) => Know(w, p, Started(e).Some?)
    case PodUpdated(_, q) => Know(w, q, Started(e).Some?)
    case PodDeleted(q) =>
      if Reveals(w, e) then
        var x := Revealed(q, CountedOn(w.nodes, q.nodeName));
        w.(pods := w.pods - {q.key}, revealed := w.revealed + [x])
      else Forget(w, q.key, Dropped(w, e))
    case PodTombstone(k) => Forget(w, k, Dropped(w, e))
    case _ => w
  }

  function Know(w: World, p: Pod, started: bool): World {
    w.(nodes := if started then CountIn(w.nodes, p) else w.nodes, pods := w.pods[p.key := p])
  }

  function Forget(w: World, k: PodKey, dropped: bool): World
    requires k in w.pods
  {
    w.(pods := w.pods - {k}, lost := if dropped then w.lost + [w.pods[k]] else w.lost)
  }

  predicate WellFormedRun(w: World, es: seq<Event>)
    decreases es
  {
    es == [] || (WellFormed(w, es[0]) && WellFormedRun(Advance(w, es[0]), es[1..]))
  }

  function Final(w: World, es: seq<Event>): World
    requires WellFormedRun(w, es)
    decreases es
  {
    if es == [] then w else Final(Advance(w, es[0]), es[1..])
  }

  predicate MissesNothing(w: World, es: seq<Event>)
    requires WellFormedRun(w, es)
    decreases es
  {
    es == [] || (!Dropped(w, es[0]) && !Reveals(w, es[0]) && MissesNothing(Advance(w, es[0]), es[1..]))
  }

  /** The collector's table after a run of events, None if a handler crashed on the way. */
  function Run(t: NodeTable, es: seq<Event>): Option<NodeTable>
    decreases es
  {
    if es == [] then Some(t)
    else match Step(t, es[0])
      case None => None
      case Some(t') => Run(t', es[1..])
  }

  // ----- Crashes -----

  function AddedNodes(es: seq<Event>): set<string> {
    set i | 0 <= i < |es| && es[i].NodeAdded? :: es[i].node.name
  }

  /** The event starts to account a pod with requests on a node that is not among the known ones. */
  predicate Crashes(known: set<string>, e: Event) {
    && Started(e).Some? && Started(e).value.nodeName !in known
    && RequestedNames(Started(e).value.containers) != {}
  }

  lemma StepCrashes(t: NodeTable, e: Event)
    ensures Step(t, e).None? <==> Crashes(t.Keys, e)
    ensures Step(t, e).Some? ==> Step(t, e).value.Keys == t.Keys + AddedNodes([e])
  {
    assert e.NodeAdded? ==> [e][0].node.name in AddedNodes([e]);
  }

  /** Whatever the events are, the collector crashes if and only if some event starts to account a
      pod with requests on a node that was neither there at first nor added before. */
  lemma {:induction false} CrashesExactly(t: NodeTable, es: seq<Event>)
    ensures Run(t, es).None? <==> exists i | 0 <= i < |es| :: Crashes(t.Keys + AddedNodes(es[..i]), es[i])
    ensures Run(t, es).Some? ==> Run(t, es).value.Keys == t.Keys + AddedNodes(es)
    decreases es
  {
    if es != [] {
      StepCrashes(t, es[0]);
      assert t.Keys + AddedNodes(es[..0]) == t.Keys;
      AddedNodesSplit(es, |es|);
      if Step(t, es[0]).Some? {
        var t' := Step(t, es[0]).value;
        CrashesExactly(t', es[1..]);
        forall i | 0 < i < |es|
          ensures Crashes(t.Keys + AddedNodes(es[..i]), es[i]) <==>
                  Crashes(t'.Keys + AddedNodes(es[1..][..i - 1]), es[1..][i - 1])
        {
          AddedNodesSplit(es, i);
          assert t'.Keys + AddedNodes(es[1..][..i - 1]) == t.Keys + AddedNodes(es[..i]);
        }
      }
    }
  }

  lemma AddedNodesSplit(es: seq<Event>, i: nat)
    requires 0 < i <= |es|
    ensures AddedNodes(es[..i]) == AddedNodes([es[0]]) + AddedNodes(es[1..][..i - 1])
    ensures es[..|es|] == es && es[1..][..|es| - 1] == es[1..]
  {
    forall n | n in AddedNodes(es[..i]) ensures n in AddedNodes([es[0]]) + AddedNodes(es[1..][..i - 1]) {
      var j :| 0 <= j < i && es[j].NodeAdded? && es[j].node.name == n;
      assert if j == 0 then [es[0]][0] == es[j] else es[1..][..i - 1][j - 1] == es[j];
    }
    forall n | n in AddedNodes([es[0]]) + AddedNodes(es[1..][..i - 1]) ensures n in AddedNodes(es[..i]) {
      if n in AddedNodes([es[0]]) {
        assert es[..i][0] == es[0];
      } else {
        var j :| 0 <= j < i - 1 && es[1..][..i - 1][j].NodeAdded? && es[1..][..i - 1][j].node.name == n;
        assert es[..i][j + 1] == es[1..][..i - 1][j];
      }
    }
  }

  // ----- The invariant -----

  ghost predicate Counts(t: NodeTable, w: World) {
    forall n, r | n in t :: Get(t[n].requested, r) == Due(w, n, r)
  }

  /** The requests of an accounted pod have counters on its node. A pod accounted before its node
      was added can only be one without requests. */
  predicate Covered(nodes: map<string, History>, p: Pod) {
    p.Accounted() ==> RequestedNames(p.containers) <= CountedOn(nodes, p.nodeName)
  }

  ghost predicate Tracked(w: World) {
    && (forall k | k in w.pods :: w.pods[k].key == k && w.pods[k].NonNegative() && Covered(w.nodes, w.pods[k]))
    && (forall i | 0 <= i < |w.lost| :: w.lost[i].NonNegative() && Covered(w.nodes, w.lost[i]))
    && forall i | 0 <= i < |w.revealed| ::
         w.revealed[i].pod.NonNegative() && w.revealed[i].counted <= CountedOn(w.nodes, w.revealed[i].pod.nodeName)
  }

  ghost predicate Agrees(t: NodeTable, w: World) {
    && t.Keys == w.nodes.Keys
    && (forall n | n in t ::
          t[n].allocatable == w.nodes[n].allocatable && t[n].requested.Keys == w.nodes[n].counted)
    && Tracked(w)
    && Counts(t, w)
  }

  lemma LiveUpdate(pods: map<PodKey, Pod>, p: Pod, n: string, r: string)
    ensures Live(pods[p.key := p], n, r)
         == Live(pods, n, r) - (if p.key in pods then On(pods[p.key], n, r) else 0.0) + On(p, n, r)
  {
    MapSumUpdate(PerPod(pods, n, r), p.key, On(p, n, r));
    assert PerPod(pods[p.key := p], n, r) == PerPod(pods, n, r)[p.key := On(p, n, r)];
  }

  lemma LiveRemove(pods: map<PodKey, Pod>, k: PodKey, n: string, r: string)
    requires k in pods
    ensures Live(pods - {k}, n, r) == Live(pods, n, r) - On(pods[k], n, r)
  {
    MapSumRemove(PerPod(pods, n, r), k);
    assert PerPod(pods - {k}, n, r) == PerPod(pods, n, r) - {k};
  }

  lemma AddIsExact(t: NodeTable, p: Pod)
    requires p.Accounted() && AddPod(t, p).Some?
    ensures var t' := AddPod(t, p).value;
            && t'.Keys == t.Keys
            && (forall n | n in t ::
                  && t'[n].allocatable == t[n].allocatable
                  && t'[n].requested.Keys ==
                       t[n].requested.Keys + (if n == p.nodeName then RequestedNames(p.containers) else {}))
            && (forall n, r | n in t :: Get(t'[n].requested, r) == Get(t[n].requested, r) + On(p, n, r))
  {
    if p.nodeName in t {
      AddContainersMeaning(t[p.nodeName].requested, p.containers);
    }
  }

  lemma CountInGrows(nodes: map<string, History>, p: Pod)
    ensures CountIn(nodes, p).Keys == nodes.Keys
    ensures forall n :: CountedOn(CountIn(nodes, p), n) ==
                        CountedOn(nodes, n)
                        + (if n == p.nodeName && n in nodes then RequestedNames(p.containers) else {})
  {
  }

  lemma AddTracks(w: World, p: Pod)
    requires Tracked(w) && p.NonNegative()
    requires p.nodeName in w.nodes || RequestedNames(p.containers) == {}
    ensures Tracked(Know(w, p, true))
  {
    CountInGrows(w.nodes, p);
    var w' := Know(w, p, true);
    hide CountIn, CountedOn, RequestedNames;
    forall k | k in w'.pods ensures w'.pods[k].key == k && w'.pods[k].NonNegative() && Covered(w'.nodes, w'.pods[k]) {
      if k != p.key {
        assert Covered(w.nodes, w.pods[k]);
      }
    }
    forall i | 0 <= i < |w'.lost| ensures w'.lost[i].NonNegative() && Covered(w'.nodes, w'.lost[i]) {
      assert Covered(w.nodes, w.lost[i]);
    }
  }

  lemma AddCounts(t: NodeTable, w: World, p: Pod)
    requires Counts(t, w) && p.Accounted() && AddPod(t, p).Some?
    requires p.key in w.pods ==> !w.pods[p.key].Accounted()
    ensures Counts(AddPod(t, p).value, Know(w, p, true))
  {
    AddIsExact(t, p);
    var t', w' := AddPod(t, p).value, Know(w, p, true);
    hide AddPod, CountIn;
    forall n, r | n in t' ensures Get(t'[n].requested, r) == Due(w', n, r) {
      LiveUpdate(w.pods, p, n, r);
      assert Get(t[n].requested, r) == Due(w, n, r);
    }
  }

  /** A pod starts to be accounted. */
  lemma AddKeeps(t: NodeTable, w: World, p: Pod)
    requires Agrees(t, w) && p.Accounted() && p.NonNegative() && AddPod(t, p).Some?
    requires p.key in w.pods ==> !w.pods[p.key].Accounted()
    ensures Agrees(AddPod(t, p).value, Know(w, p, true))
  {
    AddIsExact(t, p);
    AddCounts(t, w, p);
    AddTracks(w, p);
    hide Counts, Tracked, RequestedNames;
  }

  /** Subtracting an accounted pod is exact: every resource it requests has a counter. */
  lemma SubIsExact(t: NodeTable, w: World, p: Pod)
    requires Agrees(t, w) && p.key in w.pods && w.pods[p.key].Accounted()
    requires p.nodeName == w.pods[p.key].nodeName && p.containers == w.pods[p.key].containers
    ensures SubPod(t, p).Keys == t.Keys
    ensures forall n | n in t ::
              SubPod(t, p)[n].requested.Keys == t[n].requested.Keys &&
              SubPod(t, p)[n].allocatable == t[n].allocatable
    ensures forall n, r | n in t ::
              Get(SubPod(t, p)[n].requested, r) == Get(t[n].requested, r) - On(w.pods[p.key], n, r)
  {
    if p.nodeName in t {
      SubContainersMeaning(t[p.nodeName].requested, p.containers);
    }
    assert Covered(w.nodes, w.pods[p.key]);
    forall n, r | n in t
      ensures Get(SubPod(t, p)[n].requested, r) == Get(t[n].requested, r) - On(w.pods[p.key], n, r)
    {
      if r !in t[n].requested && n == p.nodeName {
        UnrequestedIsZero(p.containers, r);
      }
    }
  }

  /** A pod stops being accounted, either because it finished or because it is gone. */
  lemma SubKeeps(t: NodeTable, w: World, p: Pod, w': World)
    requires Agrees(t, w) && p.key in w.pods && w.pods[p.key].Accounted()
    requires p.nodeName == w.pods[p.key].nodeName && p.containers == w.pods[p.key].containers
    requires w' == w.(pods := w.pods - {p.key}) || (w' == w.(pods := w.pods[p.key := p]) && p.Terminal())
    ensures Agrees(SubPod(t, p), w')
  {
    SubIsExact(t, w, p);
    var t' := SubPod(t, p);
    assert w.pods[p.key].NonNegative();
    forall n, r | n in t' ensures Get(t'[n].requested, r) == Due(w', n, r) {
      LiveUpdate(w.pods, p, n, r);
      LiveRemove(w.pods, p.key, n, r);
      assert Get(t[n].requested, r) == Due(w, n, r);
    }
  }

  /** A pod appears or changes without starting or ceasing to be accounted. */
  lemma SameKeeps(t: NodeTable, w: World, q: Pod)
    requires Agrees(t, w) && q.NonNegative()
    requires if q.key in w.pods then Evolves(w.pods[q.key], q) && w.pods[q.key].Accounted() == q.Accounted()
             else !q.Accounted()
    ensures Agrees(t, Know(w, q, false))
  {
    var w' := Know(w, q, false);
    forall n, r | n in t ensures Get(t[n].requested, r) == Due(w', n, r) {
      LiveUpdate(w.pods, q, n, r);
      assert Get(t[n].requested, r) == Due(w, n, r);
    }
  }

  /** A deletion that no handler acts on moves an accounted pod from live to lost. */
  lemma ForgetKeeps(t: NodeTable, w: World, k: PodKey)
    requires Agrees(t, w) && k in w.pods
    ensures Agrees(t, Forget(w, k, w.pods[k].Accounted()))
  {
    var w' := Forget(w, k, w.pods[k].Accounted());
    assert w.pods[k].NonNegative() && Covered(w.nodes, w.pods[k]);
    forall n, r | n in t ensures Get(t[n].requested, r) == Due(w', n, r) {
      LiveRemove(w.pods, k, n, r);
      assert Get(t[n].requested, r) == Due(w, n, r);
      assert (w.lost + [w.pods[k]])[..|w.lost|] == w.lost;
    }
  }

  lemma RevealIsExact(t: NodeTable, w: World, q: Pod)
    requires Agrees(t, w) && q.Accounted()
    ensures SubPod(t, q).Keys == t.Keys
    ensures forall n | n in t ::
              SubPod(t, q)[n].requested.Keys == t[n].requested.Keys &&
              SubPod(t, q)[n].allocatable == t[n].allocatable
    ensures forall n, r | n in t ::
              Get(SubPod(t, q)[n].requested, r)
              == Get(t[n].requested, r) - Subtracted(Revealed(q, CountedOn(w.nodes, q.nodeName)), n, r)
  {
    if q.nodeName in t {
      SubContainersMeaning(t[q.nodeName].requested, q.containers);
    }
  }

  /** A deletion that reveals a binding lowers the existing counters of the node it names. */
  lemma RevealKeeps(t: NodeTable, w: World, q: Pod)
    requires Agrees(t, w) && WellFormed(w, PodDeleted(q)) && Reveals(w, PodDeleted(q))
    ensures Agrees(SubPod(t, q), Advance(w, PodDeleted(q)))
  {
    var t', w' := SubPod(t, q), Advance(w, PodDeleted(q));
    RevealIsExact(t, w, q);
    assert w.pods[q.key].NonNegative();
    hide SubPod, On, CountedOn;
    forall n, r | n in t' ensures Get(t'[n].requested, r) == Due(w', n, r) {
      RevealIsDue(w, q, n, r);
      assert Get(t[n].requested, r) == Due(w, n, r);
    }
  }

  lemma RevealIsDue(w: World, q: Pod, n: string, r: string)
    requires WellFormed(w, PodDeleted(q)) && Reveals(w, PodDeleted(q))
    ensures Due(Advance(w, PodDeleted(q)), n, r)
         == Due(w, n, r) - Subtracted(Revealed(q, CountedOn(w.nodes, q.nodeName)), n, r)
  {
    var x := Revealed(q, CountedOn(w.nodes, q.nodeName));
    LiveRemove(w.pods, q.key, n, r);
    assert (w.revealed + [x])[..|w.revealed|] == w.revealed;
  }

  /** Nothing is due on a node before it is added. */
  lemma NothingDue(w: World, n: string, r: string)
    requires Tracked(w) && n !in w.nodes
    ensures Due(w, n, r) == 0.0
  {
    forall k | k in w.pods ensures On(w.pods[k], n, r) == 0.0 {
      assert Covered(w.nodes, w.pods[k]);
      UncoveredIsZero(w, w.pods[k], n, r);
    }
    MapSumZero(PerPod(w.pods, n, r));
    forall i | 0 <= i < |w.lost| ensures On(w.lost[i], n, r) == 0.0 {
      UncoveredIsZero(w, w.lost[i], n, r);
    }
    NobodyLost(w.lost, n, r);
    NobodyRevealed(w.revealed, n, r);
  }

  lemma UncoveredIsZero(w: World, p: Pod, n: string, r: string)
    requires Covered(w.nodes, p) && n !in w.nodes
    ensures On(p, n, r) == 0.0
  {
    if p.Accounted() && p.nodeName == n {
      UnrequestedIsZero(p.containers, r);
    }
  }

  lemma {:induction false} NobodyLost(lost: seq<Pod>, n: string, r: string)
    requires forall i | 0 <= i < |lost| :: On(lost[i], n, r) == 0.0
    ensures LostTotal(lost, n, r) == 0.0
  {
    if lost != [] {
      NobodyLost(lost[..|lost| - 1], n, r);
    }
  }

  lemma {:induction false} NobodyRevealed(xs: seq<Revealed>, n: string, r: string)
    requires forall i | 0 <= i < |xs| :: Subtracted(xs[i], n, r) == 0.0
    ensures RevealedTotal(xs, n, r) == 0.0
  {
    if xs != [] {
      NobodyRevealed(xs[..|xs| - 1], n, r);
    }
  }

  lemma NodeKeeps(t: NodeTable, w: World, node: Node)
    requires Agrees(t, w)
    ensures Agrees(Step(t, NodeAdded(node)).value, Advance(w, NodeAdded(node)))
  {
    if node.name !in t {
      var t', w' := Step(t, NodeAdded(node)).value, Advance(w, NodeAdded(node));
      forall n, r | n in t' ensures Get(t'[n].requested, r) == Due(w', n, r) {
        assert Due(w', n, r) == Due(w, n, r);
        if n == node.name {
          NothingDue(w, n, r);
        } else {
          assert Get(t[n].requested, r) == Due(w, n, r);
        }
      }
    }
  }

  lemma UpdateKeeps(t: NodeTable, w: World, p: Pod, q: Pod)
    requires Agrees(t, w) && WellFormed(w, PodUpdated(p, q)) && Step(t, PodUpdated(p, q)).Some?
    ensures Agrees(Step(t, PodUpdated(p, q)).value, Advance(w, PodUpdated(p, q)))
  {
    assert w.pods[p.key].NonNegative();
    if p.Accounted() == q.Accounted() {
      SameKeeps(t, w, q);
    } else if q.Accounted() {
      AddKeeps(t, w, q);
    } else {
      SubKeeps(t, w, q, w.(pods := w.pods[q.key := q]));
    }
  }

  lemma DeletionKeeps(t: NodeTable, w: World, q: Pod)
    requires Agrees(t, w) && WellFormed(w, PodDeleted(q))
    ensures Agrees(Step(t, PodDeleted(q)).value, Advance(w, PodDeleted(q)))
  {
    if Reveals(w, PodDeleted(q)) {
      RevealKeeps(t, w, q);
    } else if q.Accounted() {
      SubKeeps(t, w, q, w.(pods := w.pods - {q.key}));
    } else {
      ForgetKeeps(t, w, q.key);
    }
  }

  /** A handler crashes exactly when the event accounts a pod with requests on an unknown node, and
      otherwise every event keeps the invariant. */
  lemma StepKeeps(t: NodeTable, w: World, e: Event)
    requires Agrees(t, w) && WellFormed(w, e)
    ensures Step(t, e).None? <==> Crashes(w.nodes.Keys, e)
    ensures Step(t, e).Some? ==> Agrees(Step(t, e).value, Advance(w, e))
  {
    StepCrashes(t, e);
    if Step(t, e).Some? {
      match e
      case NodeAdded(node) => NodeKeeps(t, w, node);
      case PodAdded(p) =>
        if p.Accounted() { AddKeeps(t, w, p); } else { SameKeeps(t, w, p); }
      case PodUpdated(p, q) => UpdateKeeps(t, w, p, q);
      case PodDeleted(q) => DeletionKeeps(t, w, q);
      case PodTombstone(k) => ForgetKeeps(t, w, k);
      case _ =>
    }
  }

  lemma {:induction false} RunKeeps(t: NodeTable, w: World, es: seq<Event>)
    requires Agrees(t, w) && WellFormedRun(w, es) && Run(t, es).Some?
    ensures Agrees(Run(t, es).value, Final(w, es))
    decreases es
  {
    if es != [] {
      StepKeeps(t, w, es[0]);
      RunKeeps(Step(t, es[0]).value, Advance(w, es[0]), es[1..]);
    }
  }

  // ----- Main results -----

  /** On every run: the collector crashes if and only if some event accounts a pod with requests on
      a node not added before. Until then it keeps exactly one entry per node ever added, with the
      allocatable resources of the first addition, and each counter is what the live pods request,
      plus what the pods with dropped deletions requested, minus what pods requested that were
      subtracted without having been added. Without such pods it is never negative. */
  lemma CountersTrackPods(es: seq<Event>, n: string, r: string)
    requires WellFormedRun(EMPTY, es)
    ensures Run(map[], es).None? <==> exists i | 0 <= i < |es| :: Crashes(AddedNodes(es[..i]), es[i])
    ensures Run(map[], es).Some? ==>
              var t, w := Run(map[], es).value, Final(EMPTY, es);
              && t.Keys == w.nodes.Keys == AddedNodes(es)
              && 0.0 <= Live(w.pods, n, r) && 0.0 <= LostTotal(w.lost, n, r) && 0.0 <= RevealedTotal(w.revealed, n, r)
              && (n in t ==>
                    && t[n].allocatable == w.nodes[n].allocatable
                    && Get(t[n].requested, r) ==
                         Live(w.pods, n, r) + LostTotal(w.lost, n, r) - RevealedTotal(w.revealed, n, r))
  {
    var none: NodeTable := map[];
    CrashesExactly(none, es);
    assert forall i | 0 <= i < |es| :: none.Keys + AddedNodes(es[..i]) == AddedNodes(es[..i]);
    EmptyAgrees();
    if Run(map[], es).Some? {
      RunKeeps(map[], EMPTY, es);
      var w := Final(EMPTY, es);
      LiveNonNegative(w.pods, n, r);
      LostNonNegative(w.lost, n, r);
      RevealedNonNegative(w.revealed, n, r);
      assert n in w.nodes ==> Get(Run(map[], es).value[n].requested, r) == Due(w, n, r);
    }
  }

  lemma EmptyAgrees()
    ensures Agrees(map[], EMPTY)
  {
  }

  lemma {:induction false} RequestNonNegative(cs: seq<Container>, r: string)
    requires forall i, q | 0 <= i < |cs| && q in cs[i].requests :: 0.0 <= cs[i].requests[q]
    ensures 0.0 <= RequestTotal(cs, r)
  {
    if cs != [] {
      RequestNonNegative(cs[..|cs| - 1], r);
    }
  }

  lemma LiveNonNegative(pods: map<PodKey, Pod>, n: string, r: string)
    requires forall k | k in pods :: pods[k].NonNegative()
    ensures 0.0 <= Live(pods, n, r)
  {
    var zeros := map k | k in pods :: 0.0;
    MapSumZero(zeros);
    forall k | k in pods ensures 0.0 <= On(pods[k], n, r) {
      RequestNonNegative(pods[k].containers, r);
    }
    MapSumMonotone(zeros, PerPod(pods, n, r));
  }

  /** The lost total is zero exactly when no lost pod took any of the resource on the node. */
  lemma {:induction false} LostNonNegative(lost: seq<Pod>, n: string, r: string)
    requires forall i | 0 <= i < |lost| :: lost[i].NonNegative()
    ensures 0.0 <= LostTotal(lost, n, r)
    ensures LostTotal(lost, n, r) == 0.0 <==> forall i | 0 <= i < |lost| :: On(lost[i], n, r) == 0.0
  {
    if lost != [] {
      var last := |lost| - 1;
      LostNonNegative(lost[..last], n, r);
      RequestNonNegative(lost[last].containers, r);
      assert forall i | 0 <= i < last :: lost[i] == lost[..last][i];
    }
  }

  lemma {:induction false} RevealedNonNegative(xs: seq<Revealed>, n: string, r: string)
    requires forall i | 0 <= i < |xs| :: xs[i].pod.NonNegative()
    ensures 0.0 <= RevealedTotal(xs, n, r)
    ensures RevealedTotal(xs, n, r) == 0.0 <==> forall i | 0 <= i < |xs| :: Subtracted(xs[i], n, r) == 0.0
  {
    if xs != [] {
      var last := |xs| - 1;
      RevealedNonNegative(xs[..last], n, r);
      RequestNonNegative(xs[last].pod.containers, r);
      assert forall i | 0 <= i < last :: xs[i] == xs[..last][i];
    }
  }

  /** The counter of a node equals the live requests if and only if the dropped deletions and the
      pods subtracted in error cancel out; when no binding was revealed by a deletion, if and only if
      no dropped deletion was that of a pod taking some of the resource on this node. */
  lemma CounterExactIffNothingLost(es: seq<Event>, n: string, r: string)
    requires WellFormedRun(EMPTY, es) && Run(map[], es).Some? && n in Run(map[], es).value
    ensures var w := Final(EMPTY, es);
            && (Get(Run(map[], es).value[n].requested, r) == Live(w.pods, n, r)
                <==> LostTotal(w.lost, n, r) == RevealedTotal(w.revealed, n, r))
            && (w.revealed == [] ==>
                  (Get(Run(map[], es).value[n].requested, r) == Live(w.pods, n, r)
                   <==> forall i | 0 <= i < |w.lost| :: On(w.lost[i], n, r) == 0.0))
  {
    CountersTrackPods(es, n, r);
    EmptyAgrees();
    RunKeeps(map[], EMPTY, es);
    LostNonNegative(Final(EMPTY, es).lost, n, r);
  }

  /** A counter is negative if and only if more was subtracted in error than is live or lost. */
  lemma CounterNegativeIff(es: seq<Event>, n: string, r: string)
    requires WellFormedRun(EMPTY, es) && Run(map[], es).Some? && n in Run(map[], es).value
    ensures var w := Final(EMPTY, es);
            && (Get(Run(map[], es).value[n].requested, r) < 0.0
                <==> RevealedTotal(w.revealed, n, r) > Live(w.pods, n, r) + LostTotal(w.lost, n, r))
            && (w.revealed == [] ==> 0.0 <= Live(w.pods, n, r) <= Get(Run(map[], es).value[n].requested, r))
  {
    CountersTrackPods(es, n, r);
  }

  /** Events that pass the guards with what was added before lose nothing. */
  lemma {:induction false} NothingMissedNothingLost(w: World, es: seq<Event>)
    requires WellFormedRun(w, es)
    ensures w.lost <= Final(w, es).lost && w.revealed <= Final(w, es).revealed
    ensures MissesNothing(w, es) <==> Final(w, es).lost == w.lost && Final(w, es).revealed == w.revealed
    decreases es
  {
    if es != [] {
      NothingMissedNothingLost(Advance(w, es[0]), es[1..]);
    }
  }

  /** When nothing is missed, every interleaving that leads to the same pods leads to the same
      counters: they are a function of the live pods. */
  lemma CountersForgetHistory(es: seq<Event>, fs: seq<Event>, n: string, r: string)
    requires WellFormedRun(EMPTY, es) && WellFormedRun(EMPTY, fs)
    requires MissesNothing(EMPTY, es) && MissesNothing(EMPTY, fs)
    requires Final(EMPTY, es).pods == Final(EMPTY, fs).pods
    requires Run(map[], es).Some? && n in Run(map[], es).value
    requires Run(map[], fs).Some? && n in Run(map[], fs).value
    ensures Get(Run(map[], es).value[n].requested, r) == Get(Run(map[], fs).value[n].requested, r)
  {
    CountersTrackPods(es, n, r);
    CountersTrackPods(fs, n, r);
    NothingMissedNothingLost(EMPTY, es);
    NothingMissedNothingLost(EMPTY, fs);
  }

  // ----- Runs that go wrong -----

  const ONE_CORE := [Container("c", map[CPU := 1.0])]
  const NODE := Node("n", None, map[])
  const BOUND := Pod(PodKey("ns", "a"), "n", Running, ONE_CORE)
  const UNBOUND := Pod(PodKey("ns", "b"), "", Pending, ONE_CORE)

  lemma OneCore()
    ensures RequestedNames(ONE_CORE) == {CPU} && RequestTotal(ONE_CORE, CPU) == 1.0
    ensures BOUND.NonNegative() && UNBOUND.NonNegative()
  {
    assert ONE_CORE[..0] == [];
    assert RequestedNames(ONE_CORE) == RequestedNames([]) + ONE_CORE[0].requests.Keys;
    assert RequestTotal(ONE_CORE, CPU) == RequestTotal([], CPU) + 1.0;
  }

  /** One event more at the front of a run. */
  lemma FrontEvent(w: World, e: Event, es: seq<Event>)
    requires WellFormed(w, e) && WellFormedRun(Advance(w, e), es)
    ensures WellFormedRun(w, [e] + es) && Final(w, [e] + es) == Final(Advance(w, e), es)
  {
    assert ([e] + es)[1..] == es;
  }

  /** The world after the addition of a node and of a pod on it, and after any further events. */
  lemma NodeThenPod(es: seq<Event>)
    requires var w := World(map["n" := History(map[], {CPU})], map[BOUND.key := BOUND], [], []);
             WellFormedRun(w, es)
    ensures var w := World(map["n" := History(map[], {CPU})], map[BOUND.key := BOUND], [], []);
            var all := [NodeAdded(NODE), PodAdded(BOUND)] + es;
            WellFormedRun(EMPTY, all) && Final(EMPTY, all) == Final(w, es) && "n" in AddedNodes(all)
  {
    OneCore();
    var w1 := Advance(EMPTY, NodeAdded(NODE));
    assert Advance(w1, PodAdded(BOUND)) == World(map["n" := History(map[], {CPU})], map[BOUND.key := BOUND], [], []);
    FrontEvent(w1, PodAdded(BOUND), es);
    FrontEvent(EMPTY, NodeAdded(NODE), [PodAdded(BOUND)] + es);
    var all := [NodeAdded(NODE), PodAdded(BOUND)] + es;
    assert [NodeAdded(NODE)] + ([PodAdded(BOUND)] + es) == all;
    assert all[0].NodeAdded? && all[0].node.name == "n";
  }

  /** Once its node is first in a run, nothing on that node crashes. */
  lemma SingleNodeSurvives(es: seq<Event>)
    requires es != [] && es[0] == NodeAdded(NODE)
    requires forall i | 0 <= i < |es| && Started(es[i]).Some? :: Started(es[i]).value.nodeName == "n"
    ensures Run(map[], es).Some?
  {
    var none: NodeTable := map[];
    CrashesExactly(none, es);
    forall i | 0 <= i < |es| ensures !Crashes(none.Keys + AddedNodes(es[..i]), es[i]) {
      if i > 0 {
        assert es[..i][0].NodeAdded?;
      }
    }
  }

  /** One pod and one tombstone: the counter stays up although no pod is left. */
  lemma LostDeleteLeaks()
    ensures var es := [NodeAdded(NODE), PodAdded(BOUND), PodTombstone(BOUND.key)];
            && WellFormedRun(EMPTY, es) && Run(map[], es).Some? && "n" in Run(map[], es).value
            && Final(EMPTY, es).pods == map[]
            && Get(Run(map[], es).value["n"].requested, CPU) == 1.0
            && Live(Final(EMPTY, es).pods, "n", CPU) == 0.0
  {
    var es := [NodeAdded(NODE), PodAdded(BOUND), PodTombstone(BOUND.key)];
    var w := World(map["n" := History(map[], {CPU})], map[BOUND.key := BOUND], [], []);
    FrontEvent(w, PodTombstone(BOUND.key), []);
    NodeThenPod([PodTombstone(BOUND.key)]);
    assert [NodeAdded(NODE), PodAdded(BOUND)] + [PodTombstone(BOUND.key)] == es;
    var end := Final(EMPTY, es);
    assert end.pods == map[] && end.lost == [BOUND] && end.revealed == [];
    SingleNodeSurvives(es);
    CountersTrackPods(es, "n", CPU);
    OneCore();
    MapSumZero(PerPod(end.pods, "n", CPU));
    assert LostTotal([BOUND], "n", CPU) == LostTotal([], "n", CPU) + 1.0;
  }

  /** The only pod ever counted is gone, and a pod last seen unbound is deleted as a bound one: the
      counter is negative. */
  lemma RevealedDeletionUnderflows()
    ensures var es := [NodeAdded(NODE), PodAdded(BOUND), PodDeleted(BOUND), PodAdded(UNBOUND),
                       PodDeleted(UNBOUND.(nodeName := "n"))];
            && WellFormedRun(EMPTY, es) && Run(map[], es).Some? && "n" in Run(map[], es).value
            && Final(EMPTY, es).pods == map[]
            && Get(Run(map[], es).value["n"].requested, CPU) == -1.0
  {
    var gone := UNBOUND.(nodeName := "n");
    var rest := [PodDeleted(BOUND), PodAdded(UNBOUND), PodDeleted(gone)];
    var es := [NodeAdded(NODE), PodAdded(BOUND)] + rest;
    assert es == [NodeAdded(NODE), PodAdded(BOUND), PodDeleted(BOUND), PodAdded(UNBOUND), PodDeleted(gone)];
    UnderflowEnds(gone);
    NodeThenPod(rest);
    SingleNodeSurvives(es);
    CountersTrackPods(es, "n", CPU);
    UnderflowDue(Final(EMPTY, es), gone);
    hide *;
  }

  lemma UnderflowDue(w: World, gone: Pod)
    requires gone == UNBOUND.(nodeName := "n")
    requires w.pods == map[] && w.lost == [] && w.revealed == [Revealed(gone, {CPU})]
    ensures Live(w.pods, "n", CPU) == 0.0 && LostTotal(w.lost, "n", CPU) == 0.0
    ensures RevealedTotal(w.revealed, "n", CPU) == 1.0
  {
    OneCore();
    MapSumZero(PerPod(map[], "n", CPU));
    assert RevealedTotal([Revealed(gone, {CPU})], "n", CPU) == RevealedTotal([], "n", CPU) + 1.0;
  }

  lemma UnderflowEnds(gone: Pod)
    requires gone == UNBOUND.(nodeName := "n")
    ensures var w := World(map["n" := History(map[], {CPU})], map[BOUND.key := BOUND], [], []);
            var rest := [PodDeleted(BOUND), PodAdded(UNBOUND), PodDeleted(gone)];
            WellFormedRun(w, rest) && Final(w, rest) == World(w.nodes, map[], [], [Revealed(gone, {CPU})])
  {
    OneCore();
    var w := World(map["n" := History(map[], {CPU})], map[BOUND.key := BOUND], [], []);
    var w2 := Advance(w, PodDeleted(BOUND));
    assert w2 == World(w.nodes, map[], [], []);
    var w3 := Advance(w2, PodAdded(UNBOUND));
    assert w3 == World(w.nodes, map[UNBOUND.key := UNBOUND], [], []);
    assert Advance(w3, PodDeleted(gone)) == World(w.nodes, map[], [], [Revealed(gone, {CPU})]);
    FrontEvent(w3, PodDeleted(gone), []);
    FrontEvent(w2, PodAdded(UNBOUND), [PodDeleted(gone)]);
    FrontEvent(w, PodDeleted(BOUND), [PodAdded(UNBOUND)] + [PodDeleted(gone)]);
    assert [PodDeleted(BOUND)] + ([PodAdded(UNBOUND)] + [PodDeleted(gone)])
        == [PodDeleted(BOUND), PodAdded(UNBOUND), PodDeleted(gone)];
  }

  /** The two informers are started together, so a pod may be seen before its node: then the
      collector crashes, and in the other order it does not. */
  lemma PodBeforeNodeCrashes()
    ensures WellFormedRun(EMPTY, [PodAdded(BOUND), NodeAdded(NODE)])
    ensures Run(map[], [PodAdded(BOUND), NodeAdded(NODE)]).None?
    ensures Run(map[], [NodeAdded(NODE), PodAdded(BOUND)]).Some?
  {
    OneCore();
    SingleNodeSurvives([NodeAdded(NODE), PodAdded(BOUND)]);
    FrontEvent(Advance(EMPTY, PodAdded(BOUND)), NodeAdded(NODE), []);
    FrontEvent(EMPTY, PodAdded(BOUND), [NodeAdded(NODE)]);
  }
}
