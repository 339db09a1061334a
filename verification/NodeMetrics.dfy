/** The per-node request counters of the agent and the handlers that keep them up to date. */
module NodeMetrics {
  import opened Kube
  import opened Sums

  datatype NodeResourceInfo = NodeResourceInfo(allocatable: ResourceList, requested: ResourceList)

  type NodeTable = map<string, NodeResourceInfo>

  // ----- What a handler does to one node's counters -----

  /** Subtract one container's requests; a resource without a counter is skipped. */
  function SubRequests(acc: ResourceList, requests: ResourceList): ResourceList {
    map r | r in acc :: acc[r] - Get(requests, r)
  }

  function AddContainers(acc: ResourceList, cs: seq<Container>): ResourceList {
    if cs == [] then acc else Plus(AddContainers(acc, cs[..|cs| - 1]), cs[|cs| - 1].requests)
  }

  function SubContainers(acc: ResourceList, cs: seq<Container>): ResourceList {
    if cs == [] then acc else SubRequests(SubContainers(acc, cs[..|cs| - 1]), cs[|cs| - 1].requests)
  }

  function RequestedNames(cs: seq<Container>): set<string> {
    if cs == [] then {} else RequestedNames(cs[..|cs| - 1]) + cs[|cs| - 1].requests.Keys
  }

  /** What the containers request of `r` in total. */
  function RequestTotal(cs: seq<Container>, r: string): real {
    if cs == [] then 0.0 else RequestTotal(cs[..|cs| - 1], r) + Get(cs[|cs| - 1].requests, r)
  }

  lemma {:induction false} AddContainersMeaning(acc: ResourceList, cs: seq<Container>)
    ensures AddContainers(acc, cs).Keys == acc.Keys + RequestedNames(cs)
    ensures forall r :: Get(AddContainers(acc, cs), r) == Get(acc, r) + RequestTotal(cs, r)
  {
    if cs != [] {
      AddContainersMeaning(acc, cs[..|cs| - 1]);
    }
  }

  lemma {:induction false} SubContainersMeaning(acc: ResourceList, cs: seq<Container>)
    ensures SubContainers(acc, cs).Keys == acc.Keys
    ensures forall r :: r in acc ==> SubContainers(acc, cs)[r] == acc[r] - RequestTotal(cs, r)
  {
    if cs != [] {
      SubContainersMeaning(acc, cs[..|cs| - 1]);
    }
  }

  lemma {:induction false} UnrequestedIsZero(cs: seq<Container>, r: string)
    requires r !in RequestedNames(cs)
    ensures RequestTotal(cs, r) == 0.0
  {
    if cs != [] {
      UnrequestedIsZero(cs[..|cs| - 1], r);
    }
  }

  // ----- What an event does to the table -----

  /** Adding a pod writes through the node's entry. For a node without an entry the write goes to
      a nil map, which crashes the agent unless the pod requests nothing at all. */
  function AddPod(t: NodeTable, pod: Pod): Option<NodeTable> {
    if pod.nodeName in t then
      var info := t[pod.nodeName];
      Some(t[pod.nodeName := info.(requested := AddContainers(info.requested, pod.containers))])
    else if RequestedNames(pod.containers) == {} then Some(t)
    else None
  }

  function SubPod(t: NodeTable, pod: Pod): NodeTable {
    if pod.nodeName in t then
      var info := t[pod.nodeName];
      t[pod.nodeName := info.(requested := SubContainers(info.requested, pod.containers))]
    else t
  }

  /** Everything the informers deliver. Updates of nodes have no handler. A tombstone is a delete
      notification that does not carry the object itself. */
  datatype Event =
    | NodeAdded(node: Node)
    | NodeUpdated(node: Node)
    | NodeDeleted(node: Node)
    | NodeTombstone(nodeName: string)
    | PodAdded(pod: Pod)
    | PodUpdated(oldPod: Pod, newPod: Pod)
    | PodDeleted(pod: Pod)
    | PodTombstone(key: PodKey)

  /** The table after an event, or None when the handler crashes. */
  function Step(t: NodeTable, e: Event): Option<NodeTable> {
    match e
    case NodeAdded(node) =>
      Some(if node.name in t then t else t[node.name := NodeResourceInfo(node.allocatable, map[])])
    case NodeUpdated(_) => Some(t)
    case NodeDeleted(_) => Some(t)
    case NodeTombstone(_) => Some(t)
    case PodAdded(pod) => if pod.Accounted() then AddPod(t, pod) else Some(t)
    case PodUpdated(oldPod, newPod) =>
      if newPod.nodeName == "" then Some(t)
      else if oldPod.nodeName == "" then (if newPod.Terminal() then Some(t) else AddPod(t, newPod))
      else if !oldPod.Terminal() && newPod.Terminal() then Some(SubPod(t, newPod))
      else Some(t)
    case PodDeleted(pod) => Some(if pod.Accounted() then SubPod(t, pod) else t)
    case PodTombstone(_) => Some(t)
  }

  /** What one locked section of a scrape emits for one node and resource; the GPU section has no
      figure for the system. */
  datatype Section = Section(total: real, systemTaken: Option<real>, requested: real, available: real)

  /** A counter as a section emits it: GPU cards are divided as if they were bytes. */
  function Emitted(r: string, q: real): real { if r == CPU then q else q / GB_IN_BYTES }

  function SectionOf(t: NodeTable, name: string, r: string, total: real): Option<Section> {
    if name in t then
      var allocatable, requested := Get(t[name].allocatable, r), Get(t[name].requested, r);
      Some(Section(total, if r == GPU then None else Some(total - Emitted(r, allocatable)),
                   Emitted(r, requested), Emitted(r, allocatable - requested)))
    else None
  }

  // ----- The collector -----

  class NodeMetricsCollector {
    var nodeResource: NodeTable

    constructor ()
      ensures nodeResource == map[]
    {
      nodeResource := map[];
    }

    method HandleNodeAddition(node: Node)
      modifies this
      ensures Step(old(nodeResource), NodeAdded(node)) == Some(nodeResource)
    {
      if node.name !in nodeResource {
        nodeResource := nodeResource[node.name := NodeResourceInfo(map[], map[])];
        assert node.allocatable - node.allocatable.Keys == map[];
        var todo := node.allocatable.Keys;
        while todo != {}
          invariant todo <= node.allocatable.Keys
          invariant nodeResource == old(nodeResource)[node.name := NodeResourceInfo(node.allocatable - todo, map[])]
          decreases todo
        {
          var r :| r in todo;
          var info := nodeResource[node.name];
          assert (node.allocatable - todo)[r := node.allocatable[r]] == node.allocatable - (todo - {r});
          nodeResource := nodeResource[node.name := info.(allocatable := info.allocatable[r := node.allocatable[r]])];
          todo := todo - {r};
        }
        assert node.allocatable - {} == node.allocatable;
      }
    }

    /** The guard is the wrong way round: the entry is deleted only when there is none. */
    method HandleNodeDeletion(node: Node)
      modifies this
      ensures Step(old(nodeResource), NodeDeleted(node)) == Some(nodeResource)
    {
      if node.name !in nodeResource {
        nodeResource := nodeResource - {node.name};
        assert nodeResource == old(nodeResource);
      }
    }

    /** The loop over one container's requests. */
    method AddContainerRequests(nodeName: string, requests: ResourceList) returns (crashed: bool)
      modifies this
      ensures crashed <==> nodeName !in old(nodeResource) && requests != map[]
      ensures nodeName !in old(nodeResource) ==> nodeResource == old(nodeResource)
      ensures nodeName in old(nodeResource) ==>
                var info := old(nodeResource)[nodeName];
                nodeResource == old(nodeResource)[nodeName := info.(requested := Plus(info.requested, requests))]
    {
      crashed := false;
      ghost var before := nodeResource;
      ghost var acc := if nodeName in before then before[nodeName].requested else map[];
      assert requests - requests.Keys == map[] && Plus(acc, map[]) == acc;
      var todo := requests.Keys;
      while todo != {}
        invariant todo <= requests.Keys
        invariant nodeName in before ==>
                    nodeResource == before[nodeName := before[nodeName].(requested := Plus(acc, requests - todo))]
        invariant nodeName !in before ==> nodeResource == before && todo == requests.Keys
        decreases todo
      {
        var r :| r in todo;
        if nodeName !in nodeResource {
          crashed := true;
          return;
        }
        var info := nodeResource[nodeName];
        var requested := Get(info.requested, r) + requests[r];
        AddOneMore(acc, requests, todo, r);
        nodeResource := nodeResource[nodeName := info.(requested := info.requested[r := requested])];
        todo := todo - {r};
      }
      assert requests - {} == requests;
    }

    method AddPodResourceRequested(pod: Pod) returns (crashed: bool)
      modifies this
      ensures AddPod(old(nodeResource), pod) == if crashed then None else Some(nodeResource)
      ensures crashed ==> nodeResource == old(nodeResource)
    {
      crashed := false;
      var cs := pod.containers;
      ghost var t := nodeResource;
      assert pod.nodeName in t ==> t[pod.nodeName := t[pod.nodeName]] == t;
      for i := 0 to |cs|
        invariant AddPod(t, pod.(containers := cs[..i])) == Some(nodeResource)
      {
        AddPodPrefix(t, pod, i);
        crashed := AddContainerRequests(pod.nodeName, cs[i].requests);
        if crashed {
          return;
        }
      }
      assert cs[..|cs|] == cs;
    }

    /** The loop over one container's requests; a resource without a counter is skipped. */
    method DeleteContainerRequests(nodeName: string, requests: ResourceList)
      modifies this
      ensures nodeName !in old(nodeResource) ==> nodeResource == old(nodeResource)
      ensures nodeName in old(nodeResource) ==>
                var info := old(nodeResource)[nodeName];
                nodeResource == old(nodeResource)[nodeName := info.(requested := SubRequests(info.requested, requests))]
    {
      ghost var before := nodeResource;
      ghost var acc := if nodeName in before then before[nodeName].requested else map[];
      assert requests - requests.Keys == map[] && SubRequests(acc, map[]) == acc;
      var todo := requests.Keys;
      while todo != {}
        invariant todo <= requests.Keys
        invariant nodeName in before ==>
                    nodeResource ==
                      before[nodeName := before[nodeName].(requested := SubRequests(acc, requests - todo))]
        invariant nodeName !in before ==> nodeResource == before
        decreases todo
      {
        var r :| r in todo;
        SubOneMore(acc, requests, todo, r);
        todo := todo - {r};
        if nodeName in nodeResource && r in nodeResource[nodeName].requested {
          var info := nodeResource[nodeName];
          var requested := info.requested[r] - requests[r];
          nodeResource := nodeResource[nodeName := info.(requested := info.requested[r := requested])];
        }
      }
      assert requests - {} == requests;
    }

    method DeletePodResourceRequested(pod: Pod)
      modifies this
      ensures nodeResource == SubPod(old(nodeResource), pod)
    {
      var cs := pod.containers;
      ghost var t := nodeResource;
      assert pod.nodeName in t ==> t[pod.nodeName := t[pod.nodeName]] == t;
      for i := 0 to |cs|
        invariant nodeResource == SubPod(t, pod.(containers := cs[..i]))
      {
        assert cs[..i + 1][..i] == cs[..i];
        DeleteContainerRequests(pod.nodeName, cs[i].requests);
      }
      assert cs[..|cs|] == cs;
    }

    method HandlePodAddition(pod: Pod) returns (crashed: bool)
      modifies this
      ensures Step(old(nodeResource), PodAdded(pod)) == if crashed then None else Some(nodeResource)
      ensures pod.nodeName == "" || pod.phase == Failed || pod.phase == Succeeded ==>
                !crashed && nodeResource == old(nodeResource)
    {
      crashed := false;
      if pod.nodeName != "" {
        if pod.phase == Failed || pod.phase == Succeeded {
          return;
        }
        crashed := AddPodResourceRequested(pod);
      }
    }

    method HandlePodUpdate(oldPod: Pod, newPod: Pod) returns (crashed: bool)
      modifies this
      ensures Step(old(nodeResource), PodUpdated(oldPod, newPod)) == if crashed then None else Some(nodeResource)
      ensures newPod.nodeName == "" || (oldPod.nodeName == "" && (newPod.phase == Failed || newPod.phase == Succeeded))
              || (oldPod.nodeName != "" && (oldPod.phase == Failed || oldPod.phase == Succeeded
                                            || (newPod.phase != Failed && newPod.phase != Succeeded))) ==>
                !crashed && nodeResource == old(nodeResource)
    {
      crashed := false;
      if newPod.nodeName == "" {
        return;
      }
      if oldPod.nodeName == "" {
        if newPod.phase == Failed || newPod.phase == Succeeded {
          return;
        }
        crashed := AddPodResourceRequested(newPod);
        return;
      }
      if oldPod.phase != Failed && oldPod.phase != Succeeded &&
         (newPod.phase == Failed || newPod.phase == Succeeded) {
        DeletePodResourceRequested(newPod);
      }
    }

    method HandlePodDeletion(pod: Pod)
      modifies this
      ensures Step(old(nodeResource), PodDeleted(pod)) == Some(nodeResource)
      ensures pod.nodeName == "" || pod.phase == Failed || pod.phase == Succeeded ==>
                nodeResource == old(nodeResource)
    {
      if pod.nodeName != "" {
        if pod.phase == Failed || pod.phase == Succeeded {
          return;
        }
        DeletePodResourceRequested(pod);
      }
    }

    /** The body of one section of `collectNodeResourceMetrics`. */
    method CollectSection(name: string, r: string, total: real) returns (s: Option<Section>)
      ensures s == SectionOf(nodeResource, name, r, total)
    {
      s := None;
      if name in nodeResource {
        var allocatable := Get(nodeResource[name].allocatable, r);
        var requested := Get(nodeResource[name].requested, r);
        var systemTaken: Option<real> := None;
        if r != GPU {
          systemTaken := Some(total - Emitted(r, allocatable));
        }
        allocatable := allocatable - requested;
        s := Some(Section(total, systemTaken, Emitted(r, requested), Emitted(r, allocatable)));
      }
    }

    /** The informer callbacks: notifications that do not carry the object are dropped. */
    method Dispatch(e: Event) returns (crashed: bool)
      modifies this
      ensures Step(old(nodeResource), e) == if crashed then None else Some(nodeResource)
    {
      crashed := false;
      match e
      case NodeAdded(node) => HandleNodeAddition(node);
      case NodeUpdated(_) =>
      case NodeDeleted(node) => HandleNodeDeletion(node);
      case NodeTombstone(_) =>
      case PodAdded(pod) => crashed := HandlePodAddition(pod);
      case PodUpdated(oldPod, newPod) => crashed := HandlePodUpdate(oldPod, newPod);
      case PodDeleted(pod) => HandlePodDeletion(pod);
      case PodTombstone(_) =>
    }
  }

  lemma {:induction false} RequestedInPrefix(cs: seq<Container>, i: nat)
    requires i < |cs|
    ensures RequestedNames(cs[..i + 1]) == RequestedNames(cs[..i]) + cs[i].requests.Keys
    ensures RequestedNames(cs[..i + 1]) <= RequestedNames(cs)
  {
    assert cs[..i + 1][..i] == cs[..i];
    if i == |cs| - 1 {
      assert cs[..i + 1] == cs;
    } else {
      RequestedInPrefix(cs[..|cs| - 1], i);
      assert cs[..|cs| - 1][..i + 1] == cs[..i + 1];
      assert cs[..|cs| - 1][..i] == cs[..i];
    }
  }

  /** One container more, as long as the node has an entry or nothing is requested. */
  lemma AddPodPrefix(t: NodeTable, pod: Pod, i: nat)
    requires i < |pod.containers| && AddPod(t, pod.(containers := pod.containers[..i])).Some?
    ensures var cs := pod.containers;
            var before := AddPod(t, pod.(containers := cs[..i])).value;
            var after := AddPod(t, pod.(containers := cs[..i + 1]));
            if pod.nodeName in t then
              var info := before[pod.nodeName];
              after == Some(before[pod.nodeName := info.(requested := Plus(info.requested, cs[i].requests))])
            else
              && before == t
              && after == (if cs[i].requests == map[] then Some(t) else None)
              && (after.None? ==> AddPod(t, pod).None?)
  {
    RequestedInPrefix(pod.containers, i);
    var cs := pod.containers;
    assert cs[..i + 1][..i] == cs[..i];
    if pod.nodeName in t {
      var info := t[pod.nodeName];
      var acc := AddContainers(info.requested, cs[..i]);
      assert AddContainers(info.requested, cs[..i + 1]) == Plus(acc, cs[i].requests);
      var before := t[pod.nodeName := info.(requested := acc)];
      assert before[pod.nodeName := info.(requested := Plus(acc, cs[i].requests))]
          == t[pod.nodeName := info.(requested := Plus(acc, cs[i].requests))];
    }
  }

  lemma AddOneMore(acc: ResourceList, requests: ResourceList, todo: set<string>, r: string)
    requires r in todo && todo <= requests.Keys
    ensures var part := Plus(acc, requests - todo);
            Plus(acc, requests - (todo - {r})) == part[r := Get(part, r) + requests[r]]
  {
  }

  lemma SubOneMore(acc: ResourceList, requests: ResourceList, todo: set<string>, r: string)
    requires r in todo && todo <= requests.Keys
    ensures var part := SubRequests(acc, requests - todo);
            SubRequests(acc, requests - (todo - {r})) ==
            if r in part then part[r := part[r] - requests[r]] else part
  {
  }
}
