/** What pods cost, and how the price of a node is shared out over the pods on it. */
module PodCosts {
  import opened Kube
  import opened Sums
  import opened Pricing
  import NodeMetrics
  import opened NodeRuns
  import opened PodRequests

  /** The unit prices of the nodes for which both the lister and the provider answer. */
  type PriceTable = map<string, Prices>

  function Charge(cpu: real, ram: real, gpu: real, p: Prices): real {
    Times(p.cpu, cpu) + Times(p.ram, ram) + Times(p.gpu, gpu)
  }

  /** A pod whose node has no known price costs nothing. */
  ghost function CostOf(pod: Pod, prices: PriceTable): real {
    if pod.nodeName in prices
    then Charge(PodTotal(pod, CPU), PodTotal(pod, MEMORY), PodTotal(pod, GPU), prices[pod.nodeName])
    else 0.0
  }

  method SumValues(m: map<string, real>) returns (total: real)
    ensures total == MapSum(m)
  {
    total := 0.0;
    assert m - m.Keys == map[];
    var todo := m.Keys;
    while todo != {}
      invariant todo <= m.Keys
      invariant total == MapSum(m - todo)
      decreases todo
    {
      var k :| k in todo;
      total := total + m[k];
      MapSumRemove(m - (todo - {k}), k);
      assert m - (todo - {k}) - {k} == m - todo;
      todo := todo - {k};
    }
    assert m - {} == m;
  }

  method ParsePodResourceCost(pod: Pod, prices: PriceTable) returns (cost: real)
    ensures cost == CostOf(pod, prices)
    ensures pod.nodeName !in prices ==> cost == 0.0
    ensures pod.nodeName in prices ==>
              var p := prices[pod.nodeName];
              cost == p.cpu * PodTotal(pod, CPU) + p.ram * PodTotal(pod, MEMORY) + p.gpu * PodTotal(pod, GPU)
  {
    var cpu, ram, gpu := ParsePodResourceRequest(pod, pod.nodeName != "");
    var cpuTotal := SumValues(cpu);
    var ramTotal := SumValues(ram);
    var gpuTotal := SumValues(gpu);
    if pod.nodeName !in prices {
      return 0.0;
    }
    var p := prices[pod.nodeName];
    ChargeIsProducts(cpuTotal, ramTotal, gpuTotal, p);
    hide Charge;
    cost := Charge(cpuTotal, ramTotal, gpuTotal, p);
  }

  // ----- A list of pods on one node -----

  ghost function Totals(pods: seq<Pod>, r: string): real {
    if pods == [] then 0.0 else Totals(pods[..|pods| - 1], r) + PodTotal(pods[|pods| - 1], r)
  }

  ghost function Costs(pods: seq<Pod>, prices: PriceTable): real {
    if pods == [] then 0.0 else Costs(pods[..|pods| - 1], prices) + CostOf(pods[|pods| - 1], prices)
  }

  lemma ChargeAdds(a: real, b: real, c: real, x: real, y: real, z: real, p: Prices)
    ensures Charge(a + x, b + y, c + z, p) == Charge(a, b, c, p) + Charge(x, y, z, p)
  {
    Distribute(p.cpu, a, x);
    Distribute(p.ram, b, y);
    Distribute(p.gpu, c, z);
  }

  lemma {:induction false} CostsAreChargedTotals(pods: seq<Pod>, n: string, prices: PriceTable)
    requires n in prices && forall i | 0 <= i < |pods| :: pods[i].nodeName == n
    ensures Costs(pods, prices) == Charge(Totals(pods, CPU), Totals(pods, MEMORY), Totals(pods, GPU), prices[n])
  {
    if pods == [] {
      assert Charge(0.0, 0.0, 0.0, prices[n]) == 0.0;
    } else {
      var last := pods[|pods| - 1];
      var front := pods[..|pods| - 1];
      CostsAreChargedTotals(front, n, prices);
      ChargeAdds(Totals(front, CPU), Totals(front, MEMORY), Totals(front, GPU),
                 PodTotal(last, CPU), PodTotal(last, MEMORY), PodTotal(last, GPU), prices[n]);
    }
  }

  /** What is charged for a part of the node and what is left over make up the node price. */
  lemma ChargeAndRemainder(spec: NodeSpec, k: Ratios, p: Prices, cpu: real, ram: real, gpu: real)
    requires Split(spec, k) == Some(p)
    ensures Charge(cpu, ram, gpu, p) + Charge(spec.cpu - cpu, spec.ram - ram, spec.gpu - gpu, p) == spec.price
    ensures Physical(spec, k) && 0.0 <= spec.price && cpu <= spec.cpu && ram <= spec.ram && gpu <= spec.gpu ==>
              Charge(cpu, ram, gpu, p) <= spec.price
  {
    SplitCharges(spec, k, p);
    ChargeAdds(cpu, ram, gpu, spec.cpu - cpu, spec.ram - ram, spec.gpu - gpu, p);
    hide Split;
    if Physical(spec, k) && 0.0 <= spec.price && cpu <= spec.cpu && ram <= spec.ram && gpu <= spec.gpu {
      NonNegativeProduct(p.cpu, spec.cpu - cpu);
      NonNegativeProduct(p.ram, spec.ram - ram);
      NonNegativeProduct(p.gpu, spec.gpu - gpu);
    }
  }

  lemma SplitCharges(spec: NodeSpec, k: Ratios, p: Prices)
    requires Split(spec, k) == Some(p)
    ensures Charge(spec.cpu, spec.ram, spec.gpu, p) == spec.price
    ensures Physical(spec, k) && 0.0 <= spec.price ==> 0.0 <= p.cpu && 0.0 <= p.ram && 0.0 <= p.gpu
  {
    hide Split;
    SplitConservesPrice(spec, k, p);
    if Physical(spec, k) && 0.0 <= spec.price {
      PhysicalSplit(spec, k);
    }
  }

  /** Any list of pods on a node: their costs and the unrequested rest, at the split prices, add up
      to the node price; pods that fit cost at most the node. */
  lemma PodsShareNodePrice(pods: seq<Pod>, n: string, prices: PriceTable, spec: NodeSpec, k: Ratios)
    requires n in prices && Split(spec, k) == Some(prices[n])
    requires forall i | 0 <= i < |pods| :: pods[i].nodeName == n
    ensures var cpu, ram, gpu := Totals(pods, CPU), Totals(pods, MEMORY), Totals(pods, GPU);
            && Costs(pods, prices) + Charge(spec.cpu - cpu, spec.ram - ram, spec.gpu - gpu, prices[n]) == spec.price
            && (Physical(spec, k) && 0.0 <= spec.price && cpu <= spec.cpu && ram <= spec.ram && gpu <= spec.gpu ==>
                  Costs(pods, prices) <= spec.price)
  {
    hide *;
    var cpu, ram, gpu := Totals(pods, CPU), Totals(pods, MEMORY), Totals(pods, GPU);
    var costs := Costs(pods, prices);
    assert costs == Charge(cpu, ram, gpu, prices[n]) by { CostsAreChargedTotals(pods, n, prices); }
    ChargeAndRemainder(spec, k, prices[n], cpu, ram, gpu);
  }

  // ----- Any list of pods -----

  /** The listed pods on one node. */
  function PodsOn(pods: seq<Pod>, n: string): seq<Pod> {
    if pods == [] then []
    else
      var last := pods[|pods| - 1];
      PodsOn(pods[..|pods| - 1], n) + if last.nodeName == n then [last] else []
  }

  /** What the listed pods on each node with known prices request, at the prices of that node. */
  ghost function NodeBills(pods: seq<Pod>, prices: PriceTable): map<string, real> {
    map n | n in prices :: NodeBill(PodsOn(pods, n), prices[n])
  }

  ghost function NodeBill(pods: seq<Pod>, p: Prices): real {
    p.cpu * Totals(pods, CPU) + p.ram * Totals(pods, MEMORY) + p.gpu * Totals(pods, GPU)
  }

  lemma TotalsOneMore(pods: seq<Pod>, n: string, r: string)
    requires pods != [] && pods[|pods| - 1].nodeName == n
    ensures Totals(PodsOn(pods, n), r)
         == Totals(PodsOn(pods[..|pods| - 1], n), r) + PodTotal(pods[|pods| - 1], r)
  {
    var front := PodsOn(pods[..|pods| - 1], n);
    assert (front + [pods[|pods| - 1]])[..|front|] == front;
  }

  lemma ChargeIsProducts(x: real, y: real, z: real, p: Prices)
    ensures Charge(x, y, z, p) == p.cpu * x + p.ram * y + p.gpu * z
  {
  }

  lemma BillIsCharge(pods: seq<Pod>, p: Prices)
    ensures NodeBill(pods, p) == Charge(Totals(pods, CPU), Totals(pods, MEMORY), Totals(pods, GPU), p)
  {
    hide Totals, Charge;
    var x, y, z := Totals(pods, CPU), Totals(pods, MEMORY), Totals(pods, GPU);
    ChargeIsProducts(x, y, z, p);
  }

  lemma BillOneMore(pods: seq<Pod>, prices: PriceTable, n: string)
    requires pods != [] && n in prices && pods[|pods| - 1].nodeName == n
    ensures NodeBill(PodsOn(pods, n), prices[n])
         == NodeBill(PodsOn(pods[..|pods| - 1], n), prices[n]) + CostOf(pods[|pods| - 1], prices)
  {
    hide *;
    var front, last, p := PodsOn(pods[..|pods| - 1], n), pods[|pods| - 1], prices[n];
    TotalsOneMore(pods, n, CPU);
    TotalsOneMore(pods, n, MEMORY);
    TotalsOneMore(pods, n, GPU);
    BillIsCharge(PodsOn(pods, n), p);
    BillIsCharge(front, p);
    CostIsCharge(last, prices);
    var a, b, c := Totals(front, CPU), Totals(front, MEMORY), Totals(front, GPU);
    ChargeAdds(a, b, c, PodTotal(last, CPU), PodTotal(last, MEMORY), PodTotal(last, GPU), p);
  }

  lemma CostIsCharge(pod: Pod, prices: PriceTable)
    requires pod.nodeName in prices
    ensures CostOf(pod, prices)
         == Charge(PodTotal(pod, CPU), PodTotal(pod, MEMORY), PodTotal(pod, GPU), prices[pod.nodeName])
  {
  }

  /** One pod more changes the bill of its node only. */
  lemma BillsOneMore(pods: seq<Pod>, prices: PriceTable)
    requires pods != []
    ensures var before, last := NodeBills(pods[..|pods| - 1], prices), pods[|pods| - 1];
            NodeBills(pods, prices) ==
            if last.nodeName in prices then before[last.nodeName := before[last.nodeName] + CostOf(last, prices)]
            else before
  {
    hide NodeBill, CostOf;
    var front, last := pods[..|pods| - 1], pods[|pods| - 1];
    forall n | n in prices && n != last.nodeName ensures PodsOn(pods, n) == PodsOn(front, n) {
      assert PodsOn(front, n) + [] == PodsOn(front, n);
    }
    if last.nodeName in prices {
      BillOneMore(pods, prices, last.nodeName);
    }
  }

  lemma BilledOneMore(pods: seq<Pod>, prices: PriceTable)
    requires pods != []
    ensures MapSum(NodeBills(pods, prices))
         == MapSum(NodeBills(pods[..|pods| - 1], prices)) + CostOf(pods[|pods| - 1], prices)
  {
    hide *;
    var last := pods[|pods| - 1];
    var before := NodeBills(pods[..|pods| - 1], prices);
    BillsOneMore(pods, prices);
    BillKeys(pods[..|pods| - 1], prices);
    UnpricedIsFree(last, prices);
    if last.nodeName in prices {
      BillAt(before, last.nodeName);
      MapSumUpdate(before, last.nodeName, before[last.nodeName] + CostOf(last, prices));
    }
  }

  /** Whatever pods are listed and whatever prices are known, the costs are the bills of the nodes with
      known prices; pods on other nodes, and unscheduled pods, add nothing. */
  lemma {:induction false} CostsAreNodeBills(pods: seq<Pod>, prices: PriceTable)
    ensures Costs(pods, prices) == MapSum(NodeBills(pods, prices))
  {
    hide NodeBills, MapSum, CostOf;
    if pods == [] {
      NoBills(prices);
    } else {
      CostsAreNodeBills(pods[..|pods| - 1], prices);
      BilledOneMore(pods, prices);
    }
  }

  lemma UnpricedIsFree(pod: Pod, prices: PriceTable)
    ensures pod.nodeName !in prices ==> CostOf(pod, prices) == 0.0
  {
  }

  lemma BillKeys(pods: seq<Pod>, prices: PriceTable)
    ensures NodeBills(pods, prices).Keys == prices.Keys
  {
  }

  lemma BillAt(bills: map<string, real>, n: string)
    requires n in bills
    ensures Get(bills, n) == bills[n]
  {
  }

  lemma NoBills(prices: PriceTable)
    ensures MapSum(NodeBills([], prices)) == 0.0
  {
    forall n | n in prices ensures NodeBill(PodsOn([], n), prices[n]) == 0.0 {
    }
    MapSumZero(NodeBills([], prices));
  }

  // ----- The pods of a run -----

  ghost function BillPerPod(pods: map<PodKey, Pod>, n: string, prices: PriceTable): map<PodKey, real> {
    map x | x in pods :: if pods[x].nodeName == n then CostOf(pods[x], prices) else 0.0
  }

  ghost function Scaled(pods: map<PodKey, Pod>, n: string, r: string, price: real): map<PodKey, real> {
    map x | x in pods :: Times(price, ParsedPerPod(pods, n, r)[x])
  }

  lemma BillIsChargedTotal(pods: map<PodKey, Pod>, n: string, prices: PriceTable)
    requires n in prices
    ensures MapSum(BillPerPod(pods, n, prices))
         == Charge(ParsedLive(pods, n, CPU), ParsedLive(pods, n, MEMORY), ParsedLive(pods, n, GPU), prices[n])
  {
    var p := prices[n];
    var cpu, ram, gpu := Scaled(pods, n, CPU, p.cpu), Scaled(pods, n, MEMORY, p.ram), Scaled(pods, n, GPU, p.gpu);
    MapSumScale(ParsedPerPod(pods, n, CPU), cpu, p.cpu);
    MapSumScale(ParsedPerPod(pods, n, MEMORY), ram, p.ram);
    MapSumScale(ParsedPerPod(pods, n, GPU), gpu, p.gpu);
    var two := map x | x in pods :: cpu[x] + ram[x];
    MapSumPlus(cpu, ram, two);
    forall x | x in pods ensures BillPerPod(pods, n, prices)[x] == two[x] + gpu[x] {
      assert Charge(0.0, 0.0, 0.0, p) == 0.0;
    }
    MapSumPlus(two, gpu, BillPerPod(pods, n, prices));
  }

  /** A counter after a run, in the unit of the prices. */
  function Counter(es: seq<NodeMetrics.Event>, n: string, r: string): real {
    var t := Run(map[], es);
    if t.Some? && n in t.value then Convert(r, Get(t.value[n].requested, r)) else 0.0
  }

  lemma CounterIsParsed(es: seq<NodeMetrics.Event>, n: string, r: string)
    requires WellFormedRun(EMPTY, es) && MissesNothing(EMPTY, es)
    requires Run(map[], es).Some? && n in Run(map[], es).value
    requires Kind(r) && GranularOn(Final(EMPTY, es).pods, n, r)
    ensures Counter(es, n, r) == ParsedLive(Final(EMPTY, es).pods, n, r)
  {
    CountersMatchParsedRequests(es, n, r);
  }

  lemma GranularEach(pods: map<PodKey, Pod>, n: string)
    requires forall r | Kind(r) :: GranularOn(pods, n, r)
    ensures Kind(CPU) && Kind(MEMORY) && Kind(GPU)
    ensures GranularOn(pods, n, CPU) && GranularOn(pods, n, MEMORY) && GranularOn(pods, n, GPU)
  {
    assert Kind(CPU) && Kind(MEMORY) && Kind(GPU);
  }

  /** After every run that misses nothing and in which the pods on a node request whole
      milli-cores, bytes and cards, the pods on the node are charged exactly the node's counters at
      the split prices, and the rest of the node price is that of what the counters leave. */
  lemma BillFollowsCounters(es: seq<NodeMetrics.Event>, n: string, prices: PriceTable, spec: NodeSpec, k: Ratios)
    requires WellFormedRun(EMPTY, es) && MissesNothing(EMPTY, es)
    requires Run(map[], es).Some? && n in Run(map[], es).value
    requires n in prices && Split(spec, k) == Some(prices[n])
    requires forall r | Kind(r) :: GranularOn(Final(EMPTY, es).pods, n, r)
    ensures var cpu, ram, gpu := Counter(es, n, CPU), Counter(es, n, MEMORY), Counter(es, n, GPU);
            var bill := MapSum(BillPerPod(Final(EMPTY, es).pods, n, prices));
            && bill == Charge(cpu, ram, gpu, prices[n])
            && bill + Charge(spec.cpu - cpu, spec.ram - ram, spec.gpu - gpu, prices[n]) == spec.price
  {
    hide *;
    GranularEach(Final(EMPTY, es).pods, n);
    CounterIsParsed(es, n, CPU);
    CounterIsParsed(es, n, MEMORY);
    CounterIsParsed(es, n, GPU);
    BillIsChargedTotal(Final(EMPTY, es).pods, n, prices);
    ChargeAndRemainder(spec, k, prices[n], Counter(es, n, CPU), Counter(es, n, MEMORY), Counter(es, n, GPU));
  }
}
