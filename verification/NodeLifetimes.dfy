/** Which nodes the collector knows, against the nodes that are there. */
module NodeLifetimes {
  import opened Kube
  import opened NodeMetrics
  import opened NodeRuns

  /** The existing nodes and their current allocatable resources after an event. */
  function PresentAfter(present: map<string, ResourceList>, e: Event): map<string, ResourceList> {
    match e
    case NodeAdded(node) => present[node.name := node.allocatable]
    case NodeUpdated(node) => present[node.name := node.allocatable]
    case NodeDeleted(node) => present - {node.name}
    case NodeTombstone(name) => present - {name}
    case _ => present
  }

  function Present(es: seq<Event>): map<string, ResourceList> {
    if es == [] then map[] else PresentAfter(Present(es[..|es| - 1]), es[|es| - 1])
  }

  function Allocatables(t: NodeTable): map<string, ResourceList> {
    map n | n in t :: t[n].allocatable
  }

  /** The node that an event is about. */
  function About(e: Event): Option<string> {
    match e
    case NodeAdded(node) => Some(node.name)
    case NodeUpdated(node) => Some(node.name)
    case NodeDeleted(node) => Some(node.name)
    case NodeTombstone(name) => Some(name)
    case _ => None
  }

  /** What the first addition of a node reports, None if it is never added. */
  function FirstSeen(es: seq<Event>, n: string): Option<ResourceList> {
    if es == [] then None
    else if es[0].NodeAdded? && es[0].node.name == n then Some(es[0].node.allocatable)
    else FirstSeen(es[1..], n)
  }

  /** What the last event about a node reports, None for a deletion or if there is no event. */
  function LastSeen(es: seq<Event>, n: string): Option<ResourceList> {
    if es == [] then None
    else
      var e := es[|es| - 1];
      if About(e) != Some(n) then LastSeen(es[..|es| - 1], n)
      else if e.NodeAdded? || e.NodeUpdated? then Some(e.node.allocatable)
      else None
  }

  function Entry(m: map<string, ResourceList>, n: string): Option<ResourceList> {
    if n in m then Some(m[n]) else None
  }

  /** The handlers never touch the allocatable resources of an entry, and never delete one. */
  lemma StepRemembers(t: NodeTable, e: Event, n: string)
    requires Step(t, e).Some?
    ensures Entry(Allocatables(Step(t, e).value), n)
         == if n in t then Some(t[n].allocatable) else FirstSeen([e], n)
  {
  }

  lemma {:induction false} RunRemembersFirst(t: NodeTable, es: seq<Event>, n: string)
    requires Run(t, es).Some?
    ensures Entry(Allocatables(Run(t, es).value), n) == if n in t then Some(t[n].allocatable) else FirstSeen(es, n)
    decreases es
  {
    if es != [] {
      var t' := Step(t, es[0]).value;
      StepRemembers(t, es[0], n);
      RunRemembersFirst(t', es[1..], n);
      assert n in t' <==> Entry(Allocatables(t'), n).Some?;
    }
  }

  lemma {:induction false} PresentIsLastSeen(es: seq<Event>, n: string)
    ensures Entry(Present(es), n) == LastSeen(es, n)
  {
    if es != [] {
      PresentIsLastSeen(es[..|es| - 1], n);
    }
  }

  lemma SameEntries(a: map<string, ResourceList>, b: map<string, ResourceList>)
    ensures a == b <==> forall n :: Entry(a, n) == Entry(b, n)
  {
    if forall n :: Entry(a, n) == Entry(b, n) {
      forall n ensures n in a <==> n in b
               ensures n in a ==> a[n] == b[n] {
        assert Entry(a, n) == Entry(b, n);
      }
    }
  }

  /** The last event about a node reports what its first addition reported. */
  predicate Current(es: seq<Event>, n: string) {
    FirstSeen(es, n) == LastSeen(es, n)
  }

  /** On every run that does not crash, the table lists exactly the existing nodes with their current
      allocatable resources if and only if the last event about every node reports what its first
      addition reported: a node that was deleted or resized since is wrong in the table. */
  lemma TableIsCurrentIff(es: seq<Event>)
    requires Run(map[], es).Some?
    ensures Allocatables(Run(map[], es).value) == Present(es) <==> forall n :: Current(es, n)
  {
    var table, present := Allocatables(Run(map[], es).value), Present(es);
    forall n ensures Current(es, n) <==> Entry(table, n) == Entry(present, n) {
      RunRemembersFirst(map[], es, n);
      PresentIsLastSeen(es, n);
    }
    SameEntries(table, present);
  }

  /** A deleted node stays in the table, and a node that comes back with another size keeps the old
      one. */
  lemma StaleNodes(small: Node, big: Node)
    requires small.name == big.name && small.allocatable != big.allocatable
    ensures var es := [NodeAdded(small), NodeDeleted(small)];
            && Run(map[], es).Some?
            && Allocatables(Run(map[], es).value) == map[small.name := small.allocatable] && Present(es) == map[]
    ensures var es := [NodeAdded(small), NodeDeleted(small), NodeAdded(big)];
            && Run(map[], es).Some?
            && Allocatables(Run(map[], es).value) == map[small.name := small.allocatable]
            && Present(es) == map[small.name := big.allocatable]
  {
    var es, fs := [NodeAdded(small), NodeDeleted(small)], [NodeAdded(small), NodeDeleted(small), NodeAdded(big)];
    var t := map[small.name := NodeResourceInfo(small.allocatable, map[])];
    assert Run(t, [NodeAdded(big)]) == Run(t, [NodeDeleted(small)]) == Some(t);
    assert [NodeDeleted(small), NodeAdded(big)][1..] == [NodeAdded(big)];
    assert Run(t, [NodeDeleted(small), NodeAdded(big)]) == Some(t);
    assert es[1..] == [NodeDeleted(small)] && fs[1..] == [NodeDeleted(small), NodeAdded(big)];
    assert es[..1] == [NodeAdded(small)] && es[..1][..0] == [] && fs[..2] == es;
    assert Present(es[..1]) == map[small.name := small.allocatable];
    assert Present(es) == Present(es[..1]) - {small.name};
  }
}
