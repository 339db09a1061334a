/** The cache of the last usage snapshot, and the usage of a workload's containers. */
module UsageCache {
  import opened Kube
  import opened Sums
  import PodRequests

  datatype ResourceUsage = ResourceUsage(name: string, cpu: real, memory: real)

  datatype PodUsage = PodUsage(key: PodKey, containers: seq<ResourceUsage>)

  /** A `PodUsageMetric` as it is held and handed out: copies of it share the container figures. */
  datatype PodEntry = PodEntry(key: PodKey, containers: array<ResourceUsage>)

  function Arrays(entries: seq<PodEntry>): set<array<ResourceUsage>> {
    set i | 0 <= i < |entries| :: entries[i].containers
  }

  /** What entries say at present. */
  function Contents(entries: seq<PodEntry>): (usage: seq<PodUsage>)
    reads Arrays(entries)
    ensures |usage| == |entries|
  {
    seq(|entries|, i requires 0 <= i < |entries| reads Arrays(entries) =>
          PodUsage(entries[i].key, entries[i].containers[..]))
  }

  /** What the metrics API answers about a pod: quantities per container. */
  datatype PodMetrics = PodMetrics(key: PodKey, containers: seq<Container>)

  function UsageOf(c: Container): ResourceUsage {
    ResourceUsage(c.name, Convert(CPU, Get(c.requests, CPU)), Convert(MEMORY, Get(c.requests, MEMORY)))
  }

  function UsagesOf(cs: seq<Container>): seq<ResourceUsage> {
    seq(|cs|, i requires 0 <= i < |cs| => UsageOf(cs[i]))
  }

  function Snapshot(pods: seq<PodMetrics>): seq<PodUsage> {
    seq(|pods|, i requires 0 <= i < |pods| => PodUsage(pods[i].key, UsagesOf(pods[i].containers)))
  }

  /** The usage says what the metrics answer says: pod by pod and container by container, cores as they
      are and bytes in GiB. */
  predicate Reports(usage: seq<PodUsage>, answer: seq<PodMetrics>) {
    |usage| == |answer| && forall i | 0 <= i < |usage| :: ReportsPod(usage[i], answer[i])
  }

  predicate ReportsPod(u: PodUsage, p: PodMetrics) {
    && u.key == p.key && |u.containers| == |p.containers|
    && forall j | 0 <= j < |u.containers| ::
         && u.containers[j].name == p.containers[j].name
         && u.containers[j].cpu == Get(p.containers[j].requests, "cpu")
         && u.containers[j].memory == Get(p.containers[j].requests, "memory") / 1073741824.0
  }

  lemma SnapshotReports(answer: seq<PodMetrics>)
    ensures Reports(Snapshot(answer), answer)
  {
  }

  /** The first entry of a pod in a snapshot. */
  function FirstMatch(usage: seq<PodUsage>, key: PodKey): Option<PodUsage> {
    if usage == [] then None
    else if usage[0].key == key then Some(usage[0])
    else FirstMatch(usage[1..], key)
  }

  /** The lookups of a list of pods, in their order, without the pods that are not found. */
  function Lookups(usage: seq<PodUsage>, pods: seq<PodKey>): seq<PodUsage> {
    if pods == [] then []
    else
      Lookups(usage, pods[..|pods| - 1]) +
      match FirstMatch(usage, pods[|pods| - 1])
      case None => []
      case Some(u) => [u]
  }

  lemma ArraysOneMore(entries: seq<PodEntry>, e: PodEntry)
    ensures Arrays(entries + [e]) == Arrays(entries) + {e.containers}
  {
    var all := entries + [e];
    assert all[|entries|] == e;
    forall i | 0 <= i < |entries| ensures entries[i].containers in Arrays(all) {
      assert all[i] == entries[i];
    }
  }

  class ClusterResourceUsageMetricsCache {
    var podsUsage: seq<PodEntry>

    /** The last metrics answer. */
    ghost var last: seq<PodMetrics>

    ghost predicate Valid()
      reads this, Arrays(podsUsage)
    {
      Reports(Contents(podsUsage), last)
    }

    constructor ()
      ensures podsUsage == [] && last == [] && Valid()
    {
      podsUsage, last := [], [];
    }

    /** The inner loop: the figures of one pod, in a new slice. */
    method UsagesOfPod(cs: seq<Container>) returns (us: array<ResourceUsage>)
      ensures fresh(us) && us[..] == UsagesOf(cs)
    {
      us := new ResourceUsage[|cs|];
      for j := 0 to |cs|
        invariant us[..j] == UsagesOf(cs[..j])
      {
        us[j] := UsageOf(cs[j]);
      }
      assert cs[..|cs|] == cs;
    }

    /** A success replaces the snapshot by a new one in new memory, and a failure leaves the last one
        in place; memory that was handed out before is not written. */
    method CollectPodMetrics(answer: Option<seq<PodMetrics>>)
      requires Valid()
      modifies this
      ensures Valid() && last == LastOf(old(last), answer)
      ensures Contents(podsUsage) == After(old(Contents(podsUsage)), answer)
      ensures if answer.None? then podsUsage == old(podsUsage) else fresh(Arrays(podsUsage))
    {
      if answer.None? {
        return;
      }
      var pods := answer.value;
      var data: seq<PodEntry> := [];
      for i := 0 to |pods|
        invariant fresh(Arrays(data)) && podsUsage == old(podsUsage) && last == old(last)
        invariant Contents(data) == Snapshot(pods[..i])
      {
        ghost var before := Contents(data);
        var containersUsage := UsagesOfPod(pods[i].containers);
        assert Contents(data) == before;
        ArraysOneMore(data, PodEntry(pods[i].key, containersUsage));
        data := data + [PodEntry(pods[i].key, containersUsage)];
        assert Contents(data) == before + [PodUsage(pods[i].key, UsagesOf(pods[i].containers))];
      }
      assert pods[..|pods|] == pods;
      podsUsage, last := data, pods;
      SnapshotReports(pods);
    }

    /** The collection loop: one collection per tick. Whatever entries were handed out before, their
        contents stay what they were. */
    method Start(answers: seq<Option<seq<PodMetrics>>>, ghost earlier: seq<PodEntry>)
      requires Valid()
      modifies this
      ensures Valid() && last == LastOfAll(old(last), answers)
      ensures Contents(podsUsage) == AfterAll(old(Contents(podsUsage)), answers)
      ensures Contents(earlier) == old(Contents(earlier))
    {
      for i := 0 to |answers|
        invariant Valid() && last == LastOfAll(old(last), answers[..i])
        invariant Contents(podsUsage) == AfterAll(old(Contents(podsUsage)), answers[..i])
        invariant Contents(earlier) == old(Contents(earlier))
      {
        assert answers[..i + 1][..i] == answers[..i];
        CollectPodMetrics(answers[i]);
      }
      assert answers[..|answers|] == answers;
    }

    /** The answer shares its figures with the snapshot. */
    method QueryWorkloadsUsageByPods(pods: seq<PodKey>) returns (ret: seq<PodEntry>)
      requires Valid()
      ensures Contents(ret) == Lookups(Contents(podsUsage), pods)
      ensures Reports(Contents(ret), FoundPods(last, pods))
      ensures forall e | e in ret :: e in podsUsage
    {
      ret := [];
      ghost var usage := Contents(podsUsage);
      for i := 0 to |pods|
        invariant Contents(ret) == Lookups(usage, pods[..i])
        invariant forall e | e in ret :: e in podsUsage
      {
        assert pods[..i + 1][..i] == pods[..i];
        var j := 0;
        while j < |podsUsage|
          invariant 0 <= j <= |podsUsage|
          invariant FirstMatch(usage, pods[i]) == FirstMatch(usage[j..], pods[i])
        {
          if pods[i] == podsUsage[j].key {
            break;
          }
          j := j + 1;
        }
        if j < |podsUsage| {
          ghost var before := Contents(ret);
          ret := ret + [podsUsage[j]];
          assert Contents(ret) == before + [usage[j]];
        }
      }
      assert pods[..|pods|] == pods;
      LookupsReport(usage, last, pods);
    }
  }

  // ----- What the metrics answers say -----

  function LastOf(last: seq<PodMetrics>, answer: Option<seq<PodMetrics>>): seq<PodMetrics> {
    if answer.Some? then answer.value else last
  }

  /** The last successful answer, however many queries failed since. */
  function LastOfAll(last: seq<PodMetrics>, answers: seq<Option<seq<PodMetrics>>>): seq<PodMetrics> {
    if answers == [] then last
    else if answers[|answers| - 1].Some? then answers[|answers| - 1].value
    else LastOfAll(last, answers[..|answers| - 1])
  }

  /** Place `i` is the first that an answer has for pod `k`. */
  predicate IsFirst(answer: seq<PodMetrics>, k: PodKey, i: int) {
    0 <= i < |answer| && answer[i].key == k && forall j | 0 <= j < i :: answer[j].key != k
  }

  /** The metrics of the listed pods that the answer has, in the order of the list; a pod that the
      answer has twice is found at its first place. */
  ghost function FoundPods(answer: seq<PodMetrics>, pods: seq<PodKey>): seq<PodMetrics> {
    if pods == [] then []
    else
      var k := pods[|pods| - 1];
      FoundPods(answer, pods[..|pods| - 1]) +
      if exists i :: IsFirst(answer, k, i) then
        var i :| IsFirst(answer, k, i);
        [answer[i]]
      else []
  }

  lemma {:induction false} FirstMatchIsFirst(usage: seq<PodUsage>, answer: seq<PodMetrics>, k: PodKey)
    requires Reports(usage, answer)
    ensures FirstMatch(usage, k).None? ==> forall i :: !IsFirst(answer, k, i)
    ensures FirstMatch(usage, k).Some? ==>
              exists i :: IsFirst(answer, k, i) && ReportsPod(FirstMatch(usage, k).value, answer[i])
  {
    if usage != [] {
      assert ReportsPod(usage[0], answer[0]);
      if usage[0].key == k {
        assert IsFirst(answer, k, 0);
      } else {
        FirstMatchIsFirst(usage[1..], answer[1..], k);
        forall i | IsFirst(answer, k, i) ensures IsFirst(answer[1..], k, i - 1) {
        }
        if FirstMatch(usage, k).Some? {
          var i :| IsFirst(answer[1..], k, i) && ReportsPod(FirstMatch(usage, k).value, answer[1..][i]);
          forall j | 0 <= j < i + 1 ensures answer[j].key != k {
            assert j > 0 ==> answer[1..][j - 1] == answer[j];
          }
          assert answer[1..][i] == answer[i + 1];
          assert IsFirst(answer, k, i + 1);
        }
      }
    }
  }

  lemma FirstIsUnique(answer: seq<PodMetrics>, k: PodKey, i: int, j: int)
    requires IsFirst(answer, k, i) && IsFirst(answer, k, j)
    ensures i == j
  {
  }

  /** A query reports the pods that the answer has. */
  lemma {:induction false} LookupsReport(usage: seq<PodUsage>, answer: seq<PodMetrics>, pods: seq<PodKey>)
    requires Reports(usage, answer)
    ensures Reports(Lookups(usage, pods), FoundPods(answer, pods))
  {
    if pods != [] {
      var k := pods[|pods| - 1];
      LookupsReport(usage, answer, pods[..|pods| - 1]);
      FirstMatchIsFirst(usage, answer, k);
      if FirstMatch(usage, k).Some? {
        var i :| IsFirst(answer, k, i) && ReportsPod(FirstMatch(usage, k).value, answer[i]);
        forall j | IsFirst(answer, k, j) ensures j == i {
          FirstIsUnique(answer, k, i, j);
        }
      }
    }
  }

  /** What the containers of one name use of a resource, in cores or bytes as collected. */
  function NamedUse(cs: seq<Container>, name: string, r: string): real {
    if cs == [] then 0.0
    else NamedUse(cs[..|cs| - 1], name, r) + if cs[|cs| - 1].name == name then Get(cs[|cs| - 1].requests, r) else 0.0
  }

  function CollectedUse(found: seq<PodMetrics>, name: string, r: string): real {
    if found == [] then 0.0
    else CollectedUse(found[..|found| - 1], name, r) + NamedUse(found[|found| - 1].containers, name, r)
  }

  predicate HasContainer(found: seq<PodMetrics>, name: string) {
    exists i, j :: 0 <= i < |found| && 0 <= j < |found[i].containers| && found[i].containers[j].name == name
  }

  // ----- The cache as an index -----

  function After(usage: seq<PodUsage>, answer: Option<seq<PodMetrics>>): seq<PodUsage> {
    match answer
    case None => usage
    case Some(pods) => Snapshot(pods)
  }

  function AfterAll(usage: seq<PodUsage>, answers: seq<Option<seq<PodMetrics>>>): seq<PodUsage> {
    if answers == [] then usage else After(AfterAll(usage, answers[..|answers| - 1]), answers[|answers| - 1])
  }

  /** The snapshot is that of the last successful collection, however many failed since. */
  lemma {:induction false} LastSuccessStays(usage: seq<PodUsage>, answers: seq<Option<seq<PodMetrics>>>, last: nat)
    requires last < |answers| && answers[last].Some?
    requires forall i | last < i < |answers| :: answers[i].None?
    ensures AfterAll(usage, answers) == Snapshot(answers[last].value)
  {
    if last < |answers| - 1 {
      LastSuccessStays(usage, answers[..|answers| - 1], last);
    }
  }

  /** The index of a snapshot: the first entry of a pod wins. */
  function Index(usage: seq<PodUsage>): map<PodKey, PodUsage> {
    if usage == [] then map[] else Index(usage[1..])[usage[0].key := usage[0]]
  }

  lemma {:induction false} FirstMatchIsIndexed(usage: seq<PodUsage>, key: PodKey)
    ensures FirstMatch(usage, key) == if key in Index(usage) then Some(Index(usage)[key]) else None
    ensures key in Index(usage) <==> exists i :: 0 <= i < |usage| && usage[i].key == key
  {
    if usage != [] {
      FirstMatchIsIndexed(usage[1..], key);
      if i :| 0 <= i < |usage[1..]| && usage[1..][i].key == key {
        assert usage[i + 1].key == key;
      }
      if i :| 0 < i < |usage| && usage[i].key == key {
        assert usage[1..][i - 1].key == key;
      }
    }
  }

  function IndexAll(index: map<PodKey, PodUsage>, pods: seq<PodKey>): seq<PodUsage> {
    if pods == [] then []
    else IndexAll(index, pods[..|pods| - 1]) + if pods[|pods| - 1] in index then [index[pods[|pods| - 1]]] else []
  }

  lemma {:induction false} LookupsAreIndexed(usage: seq<PodUsage>, pods: seq<PodKey>)
    ensures Lookups(usage, pods) == IndexAll(Index(usage), pods)
  {
    if pods != [] {
      LookupsAreIndexed(usage, pods[..|pods| - 1]);
      FirstMatchIsIndexed(usage, pods[|pods| - 1]);
    }
  }

  /** After any collections, a query answers from the index of the last successful snapshot. */
  lemma QueriesUseLastSnapshot(answers: seq<Option<seq<PodMetrics>>>, last: nat, pods: seq<PodKey>)
    requires last < |answers| && answers[last].Some?
    requires forall i | last < i < |answers| :: answers[i].None?
    ensures Lookups(AfterAll([], answers), pods) == IndexAll(Index(Snapshot(answers[last].value)), pods)
  {
    LastSuccessStays([], answers, last);
    LookupsAreIndexed(Snapshot(answers[last].value), pods);
  }

  // ----- The usage of a workload -----

  function Containers(pods: seq<PodUsage>): seq<ResourceUsage> {
    if pods == [] then [] else Containers(pods[..|pods| - 1]) + pods[|pods| - 1].containers
  }

  function UsageName(u: ResourceUsage): string { u.name }

  function UsageByName(us: seq<ResourceUsage>, f: ResourceUsage -> real): map<string, real> {
    GroupSum(us, UsageName, f)
  }

  function CpuUsage(u: ResourceUsage): real { u.cpu }
  function MemoryUsage(u: ResourceUsage): real { u.memory }

  lemma OneMoreContainer(before: seq<ResourceUsage>, us: seq<ResourceUsage>, j: nat, f: ResourceUsage -> real)
    requires j < |us|
    ensures UsageByName(before + us[..j + 1], f) == AddTo(UsageByName(before + us[..j], f), us[j].name, f(us[j]))
  {
    assert (before + us[..j + 1])[..|before| + j] == before + us[..j];
  }

  /** The inner loop, over the containers of one pod. */
  method AddUsage(us: seq<ResourceUsage>, cpu: map<string, real>, memory: map<string, real>,
                  ghost before: seq<ResourceUsage>)
    returns (cpuTotal: map<string, real>, memoryTotal: map<string, real>)
    requires cpu == UsageByName(before, CpuUsage) && memory == UsageByName(before, MemoryUsage)
    ensures cpuTotal == UsageByName(before + us, CpuUsage) && memoryTotal == UsageByName(before + us, MemoryUsage)
  {
    cpuTotal, memoryTotal := cpu, memory;
    assert before + us[..0] == before;
    for j := 0 to |us|
      invariant cpuTotal == UsageByName(before + us[..j], CpuUsage)
      invariant memoryTotal == UsageByName(before + us[..j], MemoryUsage)
    {
      OneMoreContainer(before, us, j, CpuUsage);
      OneMoreContainer(before, us, j, MemoryUsage);
      cpuTotal := PodRequests.Accumulate(cpuTotal, us[j].name, CpuUsage(us[j]));
      memoryTotal := PodRequests.Accumulate(memoryTotal, us[j].name, MemoryUsage(us[j]));
    }
    assert us[..|us|] == us;
  }

  lemma {:induction false} GroupsJoin(a: seq<ResourceUsage>, b: seq<ResourceUsage>, f: ResourceUsage -> real,
                                       name: string)
    ensures Get(UsageByName(a + b, f), name) == Get(UsageByName(a, f), name) + Get(UsageByName(b, f), name)
  {
    if b == [] {
      assert a + b == a;
    } else {
      assert (a + b)[..|a + b| - 1] == a + b[..|b| - 1];
      GroupsJoin(a, b[..|b| - 1], f, name);
    }
  }

  lemma {:induction false} PodFigures(us: seq<ResourceUsage>, cs: seq<Container>, k: PodKey, name: string)
    requires ReportsPod(PodUsage(k, us), PodMetrics(k, cs))
    ensures Get(UsageByName(us, CpuUsage), name) == NamedUse(cs, name, "cpu")
    ensures Get(UsageByName(us, MemoryUsage), name) == NamedUse(cs, name, "memory") / 1073741824.0
  {
    if us != [] {
      PodFigures(us[..|us| - 1], cs[..|cs| - 1], k, name);
    }
  }

  predicate Named(us: seq<ResourceUsage>, name: string) {
    exists j :: 0 <= j < |us| && us[j].name == name
  }

  lemma NamedConcat(a: seq<ResourceUsage>, b: seq<ResourceUsage>, name: string)
    ensures Named(a + b, name) <==> Named(a, name) || Named(b, name)
  {
    if j :| 0 <= j < |a| && a[j].name == name {
      assert (a + b)[j] == a[j];
    }
    if j :| 0 <= j < |b| && b[j].name == name {
      assert (a + b)[|a| + j] == b[j];
    }
  }

  lemma NamedInPod(u: PodUsage, p: PodMetrics, name: string)
    requires ReportsPod(u, p)
    ensures Named(u.containers, name)
        <==> exists j :: 0 <= j < |p.containers| && p.containers[j].name == name
  {
    if j :| 0 <= j < |u.containers| && u.containers[j].name == name {
      assert p.containers[j].name == name;
    }
    if j :| 0 <= j < |p.containers| && p.containers[j].name == name {
      assert u.containers[j].name == name;
    }
  }

  lemma {:induction false} NamesGrouped(us: seq<ResourceUsage>, f: ResourceUsage -> real, name: string)
    ensures name in UsageByName(us, f) <==> Named(us, name)
  {
    if us != [] {
      var n := |us| - 1;
      NamesGrouped(us[..n], f, name);
      NamedConcat(us[..n], [us[n]], name);
      assert us[..n] + [us[n]] == us && [us[n]][0] == us[n];
    }
  }

  lemma {:induction false} ContainersOf(usage: seq<PodUsage>, found: seq<PodMetrics>, name: string)
    requires Reports(usage, found)
    ensures HasContainer(found, name) <==> Named(Containers(usage), name)
  {
    if usage != [] {
      var n := |usage| - 1;
      ContainersOf(usage[..n], found[..n], name);
      NamedConcat(Containers(usage[..n]), usage[n].containers, name);
      NamedInPod(usage[n], found[n], name);
      HasOneMore(found, name);
      hide Named, HasContainer, ReportsPod;
    }
  }

  lemma HasOneMore(found: seq<PodMetrics>, name: string)
    requires found != []
    ensures var n := |found| - 1;
            HasContainer(found, name) <==>
            (HasContainer(found[..n], name)
             || exists j :: 0 <= j < |found[n].containers| && found[n].containers[j].name == name)
  {
    var n := |found| - 1;
    if i, j :| 0 <= i < n && 0 <= j < |found[..n][i].containers| && found[..n][i].containers[j].name == name {
      assert found[i].containers[j].name == name;
    }
  }

  /** The emitted figures are the sums of what was collected, name by name. */
  lemma {:induction false} FiguresAreCollected(usage: seq<PodUsage>, found: seq<PodMetrics>, name: string)
    requires Reports(usage, found)
    ensures name in UsageByName(Containers(usage), CpuUsage) <==> HasContainer(found, name)
    ensures name in UsageByName(Containers(usage), MemoryUsage) <==> HasContainer(found, name)
    ensures Get(UsageByName(Containers(usage), CpuUsage), name) == CollectedUse(found, name, "cpu")
    ensures Get(UsageByName(Containers(usage), MemoryUsage), name) == CollectedUse(found, name, "memory") / 1073741824.0
  {
    ContainersOf(usage, found, name);
    NamesGrouped(Containers(usage), CpuUsage, name);
    NamesGrouped(Containers(usage), MemoryUsage, name);
    if usage != [] {
      var n := |usage| - 1;
      FiguresAreCollected(usage[..n], found[..n], name);
      GroupsJoin(Containers(usage[..n]), usage[n].containers, CpuUsage, name);
      GroupsJoin(Containers(usage[..n]), usage[n].containers, MemoryUsage, name);
      assert ReportsPod(usage[n], found[n]);
      PodFigures(usage[n].containers, found[n].containers, usage[n].key, name);
      hide UsageByName, HasContainer, ReportsPod;
    }
  }

  /** Looks up the pods of a workload and adds up the figures of their containers by name. */
  method CollectResourceUsageMetrics(cache: ClusterResourceUsageMetricsCache, pods: seq<PodKey>)
    returns (cpuTotal: map<string, real>, memoryTotal: map<string, real>)
    requires cache.Valid()
    ensures var found := Containers(Lookups(Contents(cache.podsUsage), pods));
            cpuTotal == UsageByName(found, CpuUsage) && memoryTotal == UsageByName(found, MemoryUsage)
    ensures var found := FoundPods(cache.last, pods);
            forall name ::
              && (name in cpuTotal <==> HasContainer(found, name))
              && (name in memoryTotal <==> HasContainer(found, name))
              && Get(cpuTotal, name) == CollectedUse(found, name, "cpu")
              && Get(memoryTotal, name) == CollectedUse(found, name, "memory") / 1073741824.0
  {
    ghost var usage := Contents(cache.podsUsage);
    var podsUsage := cache.QueryWorkloadsUsageByPods(pods);
    ghost var found := Contents(podsUsage);
    cpuTotal, memoryTotal := map[], map[];
    for i := 0 to |podsUsage|
      invariant found == Contents(podsUsage) && usage == Contents(cache.podsUsage)
      invariant cpuTotal == UsageByName(Containers(found[..i]), CpuUsage)
      invariant memoryTotal == UsageByName(Containers(found[..i]), MemoryUsage)
    {
      assert found[..i + 1][..i] == found[..i];
      cpuTotal, memoryTotal := AddUsage(podsUsage[i].containers[..], cpuTotal, memoryTotal, Containers(found[..i]));
    }
    assert found[..|podsUsage|] == found;
    ghost var pm := FoundPods(cache.last, pods);
    forall name
      ensures (name in cpuTotal <==> HasContainer(pm, name)) && (name in memoryTotal <==> HasContainer(pm, name))
      ensures Get(cpuTotal, name) == CollectedUse(pm, name, "cpu")
      ensures Get(memoryTotal, name) == CollectedUse(pm, name, "memory") / 1073741824.0
    {
      FiguresAreCollected(found, pm, name);
    }
  }

  /** The figures over all container names add up to the usage of all containers of all pods, and
      those of two lists of pods to those of the joined list. */
  lemma {:induction false} UsageInterchangesSums(a: seq<PodUsage>, b: seq<PodUsage>, f: ResourceUsage -> real)
    ensures MapSum(UsageByName(Containers(a), f)) == SeqSum(Images(Containers(a), f))
    ensures MapSum(UsageByName(Containers(a + b), f))
         == MapSum(UsageByName(Containers(a), f)) + MapSum(UsageByName(Containers(b), f))
  {
    ContainersConcat(a, b);
    GroupTotal(Containers(a), UsageName, f);
    GroupTotal(Containers(b), UsageName, f);
    GroupTotal(Containers(a + b), UsageName, f);
    assert Images(Containers(a) + Containers(b), f) == Images(Containers(a), f) + Images(Containers(b), f);
    SeqSumConcat(Images(Containers(a), f), Images(Containers(b), f));
  }

  lemma {:induction false} ContainersConcat(a: seq<PodUsage>, b: seq<PodUsage>)
    ensures Containers(a + b) == Containers(a) + Containers(b)
  {
    if b == [] {
      assert a + b == a;
    } else {
      assert (a + b)[..|a + b| - 1] == a + b[..|b| - 1];
      ContainersConcat(a, b[..|b| - 1]);
    }
  }
}
