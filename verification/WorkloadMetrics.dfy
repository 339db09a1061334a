/** Workload metrics: the requests and costs of a list of pods, added up. */
module WorkloadMetrics {
  import opened Kube
  import opened Sums
  import opened PodRequests
  import opened PodCosts

  function Part(pod: Pod, r: string): map<string, real> {
    PartOf(RequestOf(pod, pod.nodeName != ""), r)
  }

  /** The totals per container name over a list of pods. */
  function WorkloadRequest(pods: seq<Pod>, r: string): map<string, real> {
    if pods == [] then map[] else Plus(WorkloadRequest(pods[..|pods| - 1], r), Part(pods[|pods| - 1], r))
  }

  /** `for name, value := range part { total[name] += value }`, in any order. */
  method AddInto(total: map<string, real>, part: map<string, real>) returns (sum: map<string, real>)
    ensures sum == Plus(total, part)
  {
    sum := total;
    assert part - part.Keys == map[];
    var todo := part.Keys;
    while todo != {}
      invariant todo <= part.Keys
      invariant sum == Plus(total, part - todo)
      decreases todo
    {
      var name :| name in todo;
      PlusOneMore(total, part - (todo - {name}), name);
      assert part - (todo - {name}) - {name} == part - todo;
      sum := Accumulate(sum, name, part[name]);
      todo := todo - {name};
    }
    assert part - {} == part;
  }

  method CollectResourceRequestMetrics(pods: seq<Pod>)
    returns (cpuTotal: map<string, real>, ramTotal: map<string, real>, gpuTotal: map<string, real>)
    ensures cpuTotal == WorkloadRequest(pods, CPU)
    ensures ramTotal == WorkloadRequest(pods, MEMORY)
    ensures gpuTotal == WorkloadRequest(pods, GPU)
  {
    cpuTotal, ramTotal, gpuTotal := map[], map[], map[];
    for i := 0 to |pods|
      invariant cpuTotal == WorkloadRequest(pods[..i], CPU)
      invariant ramTotal == WorkloadRequest(pods[..i], MEMORY)
      invariant gpuTotal == WorkloadRequest(pods[..i], GPU)
    {
      var cpu, ram, gpu := ParsePodResourceRequest(pods[i], pods[i].nodeName != "");
      cpuTotal := AddInto(cpuTotal, cpu);
      ramTotal := AddInto(ramTotal, ram);
      gpuTotal := AddInto(gpuTotal, gpu);
      assert pods[..i + 1][..i] == pods[..i];
    }
    assert pods[..|pods|] == pods;
  }

  method CollectCostMetrics(pods: seq<Pod>, prices: PriceTable) returns (totalCost: real)
    ensures totalCost == Costs(pods, prices) == MapSum(NodeBills(pods, prices))
  {
    CostsAreNodeBills(pods, prices);
    totalCost := 0.0;
    for i := 0 to |pods|
      invariant totalCost == Costs(pods[..i], prices)
    {
      var cost := ParsePodResourceCost(pods[i], prices);
      totalCost := totalCost + cost;
      assert pods[..i + 1][..i] == pods[..i];
    }
    assert pods[..|pods|] == pods;
  }

  // ----- Interchanging the sums -----

  /** What all containers called `name` of all pods are charged for, pod by pod. */
  function NameTotal(pods: seq<Pod>, r: string, name: string): real {
    if pods == [] then 0.0
    else
      var pod := pods[|pods| - 1];
      NameTotal(pods[..|pods| - 1], r, name) +
      if pod.Accounted() then NamedAmount(pod.containers, Parsed(r), name) else 0.0
  }

  function NamedAmount(cs: seq<Container>, f: Container -> real, name: string): real {
    if cs == [] then 0.0
    else NamedAmount(cs[..|cs| - 1], f, name) + if cs[|cs| - 1].name == name then f(cs[|cs| - 1]) else 0.0
  }

  lemma {:induction false} ByNameAt(cs: seq<Container>, f: Container -> real, name: string)
    ensures Get(ByName(cs, f), name) == NamedAmount(cs, f, name)
  {
    if cs != [] {
      ByNameAt(cs[..|cs| - 1], f, name);
    }
  }

  /** The figure emitted for a container name is the sum over all its containers, and the figures
      over all names add up to the totals of the pods. */
  lemma {:induction false} AggregationInterchangesSums(pods: seq<Pod>, r: string, name: string)
    requires Kind(r)
    ensures Get(WorkloadRequest(pods, r), name) == NameTotal(pods, r, name)
    ensures MapSum(WorkloadRequest(pods, r)) == Totals(pods, r)
  {
    if pods != [] {
      var front, pod := pods[..|pods| - 1], pods[|pods| - 1];
      AggregationInterchangesSums(front, r, name);
      PlusTotal(WorkloadRequest(front, r), Part(pod, r));
      if pod.Accounted() {
        ByNameAt(pod.containers, Parsed(r), name);
      }
    }
  }

  // ----- Lists of pods may be split and reordered -----

  lemma PlusAssociative<K>(a: map<K, real>, b: map<K, real>, c: map<K, real>)
    ensures Plus(Plus(a, b), c) == Plus(a, Plus(b, c))
  {
  }

  lemma PlusEmpty<K>(a: map<K, real>)
    ensures Plus(a, map[]) == a
  {
  }

  lemma PlusSwap<K>(a: map<K, real>, b: map<K, real>, c: map<K, real>)
    ensures Plus(Plus(a, b), c) == Plus(Plus(a, c), b)
  {
  }

  lemma {:induction false} SplitListAdds(a: seq<Pod>, b: seq<Pod>, r: string, prices: PriceTable)
    ensures WorkloadRequest(a + b, r) == Plus(WorkloadRequest(a, r), WorkloadRequest(b, r))
    ensures Costs(a + b, prices) == Costs(a, prices) + Costs(b, prices)
  {
    hide Plus, Part, CostOf;
    if b == [] {
      assert a + b == a;
      PlusEmpty(WorkloadRequest(a, r));
    } else {
      var front, pod := b[..|b| - 1], b[|b| - 1];
      SplitListAdds(a, front, r, prices);
      assert (a + b)[..|a + b| - 1] == a + front;
      PlusAssociative(WorkloadRequest(a, r), WorkloadRequest(front, r), Part(pod, r));
    }
  }

  /** Moving one pod to the end changes nothing. */
  lemma MoveToEnd(a: seq<Pod>, pod: Pod, b: seq<Pod>, r: string, prices: PriceTable)
    ensures WorkloadRequest(a + [pod] + b, r) == WorkloadRequest(a + b + [pod], r)
    ensures Costs(a + [pod] + b, prices) == Costs(a + b + [pod], prices)
  {
    hide Plus, WorkloadRequest, Costs;
    SplitListAdds(a + [pod], b, r, prices);
    SplitListAdds(a, [pod], r, prices);
    SplitListAdds(a + b, [pod], r, prices);
    SplitListAdds(a, b, r, prices);
    PlusSwap(WorkloadRequest(a, r), WorkloadRequest([pod], r), WorkloadRequest(b, r));
  }

  lemma WithoutOne<T>(front: seq<T>, x: T, b: seq<T>, c: seq<T>)
    requires multiset(front + [x]) == multiset(b + [x] + c)
    ensures multiset(front) == multiset(b + c)
  {
    assert multiset(front + [x]) == multiset(front) + multiset{x};
    assert multiset(b + [x] + c) == multiset(b + c) + multiset{x};
    assert multiset(front) == multiset(front + [x]) - multiset{x};
  }

  /** The result does not depend on the order in which the lister returns the pods. */
  lemma {:induction false} OrderOfPodsIsIrrelevant(a: seq<Pod>, b: seq<Pod>, r: string, prices: PriceTable)
    requires multiset(a) == multiset(b)
    ensures WorkloadRequest(a, r) == WorkloadRequest(b, r)
    ensures Costs(a, prices) == Costs(b, prices)
    decreases |a|
  {
    if a == [] {
      assert |multiset(b)| == |b| && |multiset(a)| == |a|;
    } else {
      var front, pod := a[..|a| - 1], a[|a| - 1];
      assert a == front + [pod];
      assert pod in multiset(b);
      var j :| 0 <= j < |b| && b[j] == pod;
      var rest := b[..j] + b[j + 1..];
      assert b == b[..j] + [pod] + b[j + 1..];
      WithoutOne(front, pod, b[..j], b[j + 1..]);
      OrderOfPodsIsIrrelevant(front, rest, r, prices);
      MoveToEnd(b[..j], pod, b[j + 1..], r, prices);
      SplitListAdds(front, [pod], r, prices);
      SplitListAdds(rest, [pod], r, prices);
    }
  }
}
