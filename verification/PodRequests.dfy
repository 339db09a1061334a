/** What one pod requests, computed from scratch per container name, and its agreement with the
    counters of the node collector. */
module PodRequests {
  import opened Kube
  import opened Sums
  import NodeMetrics
  import opened NodeRuns

  // ----- Quantity conversions -----

  /** `Quantity.Value` and `MilliValue` round away from zero to a whole number. */
  function RoundUp(x: real): int {
    if x >= 0.0 then -((-x).Floor) else x.Floor
  }

  predicate Whole(x: real) { x.Floor as real == x }

  lemma RoundUpIsCeiling(x: real)
    ensures 0.0 <= x ==> x <= RoundUp(x) as real < x + 1.0
    ensures RoundUp(x) as real == x <==> Whole(x)
  {
  }

  function CpuOf(c: Container): real { RoundUp(Get(c.requests, CPU) * CORE_IN_MCORE) as real / CORE_IN_MCORE }
  function RamOf(c: Container): real { RoundUp(Get(c.requests, MEMORY)) as real / GB_IN_BYTES }
  function GpuOf(c: Container): real { RoundUp(Get(c.requests, GPU)) as real }

  /** A request in the smallest unit that is not rounded: milli-cores, bytes or cards. */
  function InSteps(r: string, q: real): real { if r == CPU then q * CORE_IN_MCORE else q }

  predicate WholeSteps(r: string, c: Container) { Whole(InSteps(r, Get(c.requests, r))) }

  function Parsed(r: string): Container -> real {
    if r == CPU then CpuOf else if r == MEMORY then RamOf else GpuOf
  }

  lemma ParsedRoundsUp(c: Container, r: string)
    requires Kind(r) && 0.0 <= Get(c.requests, r)
    ensures Convert(r, Get(c.requests, r)) <= Parsed(r)(c)
    ensures Convert(r, Get(c.requests, r)) == Parsed(r)(c) <==> WholeSteps(r, c)
  {
    RoundUpIsCeiling(InSteps(r, Get(c.requests, r)));
  }

  /** The amounts of a container in units of a milli-core, a byte and a card are the requests, rounded
      up to whole units. */
  lemma AmountsInUnits(c: Container)
    ensures CpuOf(c) * 1000.0 == RoundUp(Get(c.requests, "cpu") * 1000.0) as real
    ensures RamOf(c) * 1073741824.0 == RoundUp(Get(c.requests, "memory")) as real
    ensures GpuOf(c) == RoundUp(Get(c.requests, "nvidia.com/gpu")) as real
  {
  }

  // ----- Grouping by container name -----

  function NameOf(c: Container): string { c.name }

  /** Totals per container name; containers of the same name are added up. */
  function ByName(cs: seq<Container>, f: Container -> real): map<string, real> {
    GroupSum(cs, NameOf, f)
  }

  function Zeros(cs: seq<Container>): map<string, real> {
    map i | 0 <= i < |cs| :: cs[i].name := 0.0
  }

  datatype PodRequest = PodRequest(cpu: map<string, real>, ram: map<string, real>, gpu: map<string, real>)

  function RequestOf(pod: Pod, scheduled: bool): PodRequest {
    if pod.Terminal() || !scheduled then PodRequest(Zeros(pod.containers), Zeros(pod.containers), map[])
    else PodRequest(ByName(pod.containers, CpuOf), ByName(pod.containers, RamOf), ByName(pod.containers, GpuOf))
  }

  function ContainerNames(cs: seq<Container>): set<string> {
    set i | 0 <= i < |cs| :: cs[i].name
  }

  lemma {:induction false} NamesOfByName(cs: seq<Container>, f: Container -> real)
    ensures ByName(cs, f).Keys == ContainerNames(cs)
  {
    if cs != [] {
      var n := |cs| - 1;
      NamesOfByName(cs[..n], f);
      assert ContainerNames(cs) == ContainerNames(cs[..n]) + {cs[n].name} by {
        forall i | 0 <= i < n ensures cs[i].name in ContainerNames(cs[..n]) {
          assert cs[..n][i] == cs[i];
        }
      }
    }
  }

  /** Every container has its entries; finished and unscheduled pods have zeros and no GPU entries. */
  lemma NamesOfRequest(pod: Pod, scheduled: bool)
    ensures var q, names := RequestOf(pod, scheduled), ContainerNames(pod.containers);
            && q.cpu.Keys == q.ram.Keys == names
            && q.gpu.Keys == (if pod.Terminal() || !scheduled then {} else names)
            && (pod.Terminal() || !scheduled ==> forall name | name in q.cpu :: q.cpu[name] == q.ram[name] == 0.0)
  {
    NamesOfByName(pod.containers, CpuOf);
    NamesOfByName(pod.containers, RamOf);
    NamesOfByName(pod.containers, GpuOf);
  }

  method Accumulate(m: map<string, real>, name: string, v: real) returns (m': map<string, real>)
    ensures m' == AddTo(m, name, v)
  {
    m' := m;
    if name !in m' {
      m' := m'[name := 0.0];
    }
    m' := m'[name := m'[name] + v];
  }

  lemma ByNamePrefix(cs: seq<Container>, i: nat, f: Container -> real)
    requires i < |cs|
    ensures ByName(cs[..i + 1], f) == AddTo(ByName(cs[..i], f), cs[i].name, f(cs[i]))
  {
    assert cs[..i + 1][..i] == cs[..i];
  }

  method ParsePodResourceRequest(pod: Pod, scheduled: bool)
    returns (cpu: map<string, real>, ram: map<string, real>, gpu: map<string, real>)
    ensures PodRequest(cpu, ram, gpu) == RequestOf(pod, scheduled)
    ensures cpu.Keys == ram.Keys == ContainerNames(pod.containers)
    ensures var idle := pod.phase == Succeeded || pod.phase == Failed || !scheduled;
            gpu.Keys == if idle then {} else ContainerNames(pod.containers)
    ensures pod.phase == Succeeded || pod.phase == Failed || !scheduled ==>
              forall name | name in cpu :: cpu[name] == ram[name] == 0.0
  {
    NamesOfRequest(pod, scheduled);
    cpu, ram, gpu := map[], map[], map[];
    var cs := pod.containers;
    if pod.phase == Succeeded || pod.phase == Failed || !scheduled {
      for i := 0 to |cs|
        invariant cpu == Zeros(cs[..i]) && ram == Zeros(cs[..i]) && gpu == map[]
      {
        cpu := cpu[cs[i].name := 0.0];
        ram := ram[cs[i].name := 0.0];
        ZerosPrefix(cs, i);
      }
      assert cs[..|cs|] == cs;
      return;
    }
    for i := 0 to |cs|
      invariant cpu == ByName(cs[..i], CpuOf)
      invariant ram == ByName(cs[..i], RamOf)
      invariant gpu == ByName(cs[..i], GpuOf)
    {
      ByNamePrefix(cs, i, CpuOf);
      ByNamePrefix(cs, i, RamOf);
      ByNamePrefix(cs, i, GpuOf);
      cpu := Accumulate(cpu, cs[i].name, CpuOf(cs[i]));
      ram := Accumulate(ram, cs[i].name, RamOf(cs[i]));
      gpu := Accumulate(gpu, cs[i].name, GpuOf(cs[i]));
    }
    assert cs[..|cs|] == cs;
  }

  lemma ZerosPrefix(cs: seq<Container>, i: nat)
    requires i < |cs|
    ensures Zeros(cs[..i + 1]) == Zeros(cs[..i])[cs[i].name := 0.0]
  {
  }

  // ----- One pod's total -----

  function PartOf(q: PodRequest, r: string): map<string, real> {
    if r == CPU then q.cpu else if r == MEMORY then q.ram else q.gpu
  }

  /** The total a pod is charged for: the sum over its container names. */
  ghost function PodTotal(pod: Pod, r: string): real {
    MapSum(PartOf(RequestOf(pod, pod.nodeName != ""), r))
  }

  /** Finished and unscheduled pods count as zero; the others as the sum over their containers. */
  lemma PodTotalIsContainerSum(pod: Pod, r: string)
    requires Kind(r)
    ensures PodTotal(pod, r) == if pod.Accounted() then SeqSum(Images(pod.containers, Parsed(r))) else 0.0
  {
    if pod.Accounted() {
      GroupTotal(pod.containers, NameOf, Parsed(r));
    } else {
      MapSumZero(PartOf(RequestOf(pod, pod.nodeName != ""), r));
    }
  }

  predicate Granular(cs: seq<Container>, r: string) {
    forall i | 0 <= i < |cs| :: WholeSteps(r, cs[i])
  }

  function Exact(cs: seq<Container>, r: string): seq<real> {
    seq(|cs|, i requires 0 <= i < |cs| => Convert(r, Get(cs[i].requests, r)))
  }

  lemma {:induction false} ExactTotal(cs: seq<Container>, r: string)
    ensures SeqSum(Exact(cs, r)) == Convert(r, NodeMetrics.RequestTotal(cs, r))
  {
    if cs != [] {
      var n := |cs| - 1;
      ExactTotal(cs[..n], r);
      assert Exact(cs, r)[..n] == Exact(cs[..n], r);
    }
  }

  lemma ContainersRoundUp(cs: seq<Container>, r: string)
    requires Kind(r) && forall i | 0 <= i < |cs| :: 0.0 <= Get(cs[i].requests, r)
    ensures Convert(r, NodeMetrics.RequestTotal(cs, r)) <= SeqSum(Images(cs, Parsed(r)))
    ensures Convert(r, NodeMetrics.RequestTotal(cs, r)) == SeqSum(Images(cs, Parsed(r))) <==> Granular(cs, r)
  {
    var exact, parsed := Exact(cs, r), Images(cs, Parsed(r));
    forall i | 0 <= i < |cs|
      ensures exact[i] <= parsed[i]
      ensures exact[i] == parsed[i] <==> WholeSteps(r, cs[i])
    {
      ParsedRoundsUp(cs[i], r);
    }
    SeqSumMonotone(exact, parsed);
    ExactTotal(cs, r);
    assert exact == parsed <==> forall i | 0 <= i < |cs| :: exact[i] == parsed[i];
  }

  // ----- All pods on a node -----

  ghost function ParsedPerPod(pods: map<PodKey, Pod>, n: string, r: string): map<PodKey, real> {
    map k | k in pods :: if pods[k].nodeName == n then PodTotal(pods[k], r) else 0.0
  }

  /** The second way to account a node: `ParsePodResourceRequest` over every pod that names it. */
  ghost function ParsedLive(pods: map<PodKey, Pod>, n: string, r: string): real {
    MapSum(ParsedPerPod(pods, n, r))
  }

  ghost predicate GranularOn(pods: map<PodKey, Pod>, n: string, r: string) {
    forall k | k in pods && pods[k].Accounted() && pods[k].nodeName == n :: Granular(pods[k].containers, r)
  }

  lemma PodRoundsUp(p: Pod, n: string, r: string)
    requires Kind(r) && p.NonNegative() && p.nodeName == n
    ensures Convert(r, On(p, n, r)) <= PodTotal(p, r)
    ensures Convert(r, On(p, n, r)) == PodTotal(p, r) <==> (p.Accounted() ==> Granular(p.containers, r))
  {
    PodTotalIsContainerSum(p, r);
    if p.Accounted() {
      ContainersRoundUp(p.containers, r);
    }
  }

  ghost function ExactPerPod(pods: map<PodKey, Pod>, n: string, r: string): map<PodKey, real> {
    map k | k in pods :: Convert(r, On(pods[k], n, r))
  }

  lemma ConvertLive(pods: map<PodKey, Pod>, n: string, r: string)
    ensures MapSum(ExactPerPod(pods, n, r)) == Convert(r, Live(pods, n, r))
  {
    if r == MEMORY {
      MapSumScale(PerPod(pods, n, r), ExactPerPod(pods, n, r), 1.0 / GB_IN_BYTES);
    } else {
      assert ExactPerPod(pods, n, r) == PerPod(pods, n, r);
    }
  }

  lemma LiveRoundsUp(pods: map<PodKey, Pod>, n: string, r: string)
    requires Kind(r) && forall k | k in pods :: pods[k].NonNegative()
    ensures Convert(r, Live(pods, n, r)) <= ParsedLive(pods, n, r)
    ensures Convert(r, Live(pods, n, r)) == ParsedLive(pods, n, r) <==> GranularOn(pods, n, r)
  {
    var exact, parsed := ExactPerPod(pods, n, r), ParsedPerPod(pods, n, r);
    ConvertLive(pods, n, r);
    forall k | k in pods
      ensures exact[k] <= parsed[k]
      ensures exact[k] == parsed[k] <==>
              (pods[k].Accounted() && pods[k].nodeName == n ==> Granular(pods[k].containers, r))
    {
      if pods[k].nodeName == n {
        PodRoundsUp(pods[k], n, r);
      }
    }
    MapSumMonotone(exact, parsed);
    assert exact == parsed <==> forall k | k in pods :: exact[k] == parsed[k];
  }

  // ----- Main result -----

  /** Two accounting paths. After every run that misses nothing, the counter of a node and
      the from-scratch total over the pods on it: the from-scratch total is never smaller, and the
      two are equal if and only if every request on the node is a whole number of milli-cores
      (bytes, cards). */
  lemma CountersMatchParsedRequests(es: seq<NodeMetrics.Event>, n: string, r: string)
    requires WellFormedRun(EMPTY, es) && MissesNothing(EMPTY, es) && Kind(r)
    requires Run(map[], es).Some? && n in Run(map[], es).value
    ensures var counter := Get(Run(map[], es).value[n].requested, r);
            var pods := Final(EMPTY, es).pods;
            && Convert(r, counter) <= ParsedLive(pods, n, r)
            && (Convert(r, counter) == ParsedLive(pods, n, r) <==> GranularOn(pods, n, r))
  {
    CountersTrackPods(es, n, r);
    NothingMissedNothingLost(EMPTY, es);
    EmptyAgrees();
    RunKeeps(map[], EMPTY, es);
    LiveRoundsUp(Final(EMPTY, es).pods, n, r);
  }

  /** Half a milli-core is counted as one. */
  lemma SubMilliRequestDiffers()
    ensures var c := Container("c", map[CPU := 0.0005]);
            CpuOf(c) == 0.001 && !Granular([c], CPU)
  {
    var c := Container("c", map[CPU := 0.0005]);
    assert Get(c.requests, CPU) * CORE_IN_MCORE == 0.5;
    assert [c][0] == c;
  }
}
