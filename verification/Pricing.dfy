/** How a node price is split into a price per core, per GiB and per GPU card. */
module Pricing {
  import opened Kube

  datatype NodeSpec = NodeSpec(cpu: real, ram: real, gpu: real, price: real)

  datatype Ratios = Ratios(cpuMemory: real, gpuCpu: real)

  datatype Prices = Prices(cpu: real, ram: real, gpu: real)

  datatype InstancePriceInfo = InstancePriceInfo(
    total: real, cpuCore: real, ramGiB: real, gpuCards: real, prices: Option<Prices>,
    instanceType: string, billingMode: string, billingPeriod: nat, region: string, cloudProvider: string)

  const BILLING_MODE_ON_DEMAND := "ondemand"

  /** The price divided by the size of the node in cores, in GiB and in cards. None stands for a
      division by zero, where the floating-point result is no longer a real number. */
  function Divide(price: real, cores: real, gibs: real, cards: real): Option<Prices> {
    if cores == 0.0 || gibs == 0.0 || cards == 0.0 then None
    else Some(Prices(price / cores, price / gibs, price / cards))
  }

  function Split(spec: NodeSpec, k: Ratios): Option<Prices> {
    if k.cpuMemory == 0.0 then None
    else if spec.gpu == 0.0 then
      (match Divide(spec.price, BareCores(spec, k), BareGibs(spec, k), 1.0)
       case None => None
       case Some(p) => Some(p.(gpu := 0.0)))
    else if k.gpuCpu == 0.0 || k.gpuCpu * k.cpuMemory == 0.0 then None
    else
      Divide(spec.price, InCores(spec, k), InGibs(spec, k), InCards(spec, k))
  }

  function BareCores(spec: NodeSpec, k: Ratios): real
    requires k.cpuMemory != 0.0
  {
    spec.cpu + spec.ram / k.cpuMemory
  }

  function BareGibs(spec: NodeSpec, k: Ratios): real {
    spec.ram + spec.cpu * k.cpuMemory
  }

  function InCores(spec: NodeSpec, k: Ratios): real
    requires k.cpuMemory != 0.0
  {
    spec.cpu + spec.ram / k.cpuMemory + spec.gpu * k.gpuCpu
  }

  function InGibs(spec: NodeSpec, k: Ratios): real {
    spec.ram + spec.cpu * k.cpuMemory + spec.gpu * k.gpuCpu * k.cpuMemory
  }

  function InCards(spec: NodeSpec, k: Ratios): real
    requires k.gpuCpu != 0.0 && k.gpuCpu * k.cpuMemory != 0.0
  {
    spec.gpu + spec.cpu / k.gpuCpu + spec.ram / (k.gpuCpu * k.cpuMemory)
  }

  function InfoOf(spec: NodeSpec, k: Ratios, nodeType: string, region: string, provider: string): InstancePriceInfo {
    InstancePriceInfo(spec.price, spec.cpu, spec.ram, spec.gpu, Split(spec, k),
                      nodeType, BILLING_MODE_ON_DEMAND, 0, region, provider)
  }

  /** The meaning of a split, without any division: one core costs `cpuMemory` GiB, one card costs
      `gpuCpu` cores, and the whole node costs its price. */
  ghost predicate IsSplit(spec: NodeSpec, k: Ratios, p: Prices) {
    && p.cpu == k.cpuMemory * p.ram
    && p.gpu == (if spec.gpu == 0.0 then 0.0 else k.gpuCpu * p.cpu)
    && p.cpu * spec.cpu + p.ram * spec.ram + p.gpu * spec.gpu == spec.price
  }

  /** The size of the node in cores, cleared of the division by the ratio. */
  function Size(spec: NodeSpec, k: Ratios): real {
    spec.ram + spec.cpu * k.cpuMemory + (if spec.gpu == 0.0 then 0.0 else spec.gpu * k.gpuCpu * k.cpuMemory)
  }

  predicate Usable(spec: NodeSpec, k: Ratios) {
    k.cpuMemory != 0.0 && (spec.gpu != 0.0 ==> k.gpuCpu != 0.0) && Size(spec, k) != 0.0
  }

  lemma Quotient(a: real, b: real)
    requires b != 0.0
    ensures a / b * b == a
  {
  }

  lemma NonZeroProduct(a: real, b: real)
    requires a != 0.0 && b != 0.0
    ensures a * b != 0.0
  {
  }

  /** The three equivalences are the size of the node in cores, GiB and cards. */
  lemma Equivalences(spec: NodeSpec, k: Ratios)
    requires k.cpuMemory != 0.0 && k.gpuCpu != 0.0
    ensures k.gpuCpu * k.cpuMemory != 0.0
    ensures InCores(spec, k) * k.cpuMemory == InGibs(spec, k)
    ensures InCards(spec, k) * k.gpuCpu == InCores(spec, k)
  {
    NonZeroProduct(k.gpuCpu, k.cpuMemory);
    Quotient(spec.ram, k.cpuMemory);
    Quotient(spec.cpu, k.gpuCpu);
    NestedQuotient(spec.ram, k.gpuCpu, k.cpuMemory);
    var x, y, z := spec.ram / k.cpuMemory, spec.cpu / k.gpuCpu, spec.ram / (k.gpuCpu * k.cpuMemory);
    assert (spec.cpu + x + spec.gpu * k.gpuCpu) * k.cpuMemory
        == spec.cpu * k.cpuMemory + x * k.cpuMemory + spec.gpu * k.gpuCpu * k.cpuMemory;
    assert (spec.gpu + y + z) * k.gpuCpu == spec.gpu * k.gpuCpu + y * k.gpuCpu + z * k.gpuCpu;
  }

  lemma NestedQuotient(a: real, b: real, c: real)
    requires b != 0.0 && c != 0.0 && b * c != 0.0
    ensures a / (b * c) * b == a / c
  {
    var q := a / (b * c);
    Quotient(a, b * c);
    Quotient(a, c);
    assert (q * b) * c == a;
    Cancel(q * b, a / c, c);
  }

  lemma Cancel(x: real, y: real, c: real)
    requires c != 0.0 && x * c == y * c
    ensures x == y
  {
  }

  lemma SplitWithoutGpu(spec: NodeSpec, k: Ratios)
    requires spec.gpu == 0.0
    ensures Split(spec, k).Some? <==> Usable(spec, k)
    ensures Split(spec, k).Some? ==>
              var p := Split(spec, k).value;
              p.ram * Size(spec, k) == spec.price && p.cpu == k.cpuMemory * p.ram && p.gpu == 0.0
  {
    if k.cpuMemory != 0.0 {
      var a, b := BareCores(spec, k), BareGibs(spec, k);
      Quotient(spec.ram, k.cpuMemory);
      assert a * k.cpuMemory == b;
      if b != 0.0 {
        Quotient(spec.price, a);
        Quotient(spec.price, b);
        InProportion(spec.price / a, spec.price / b, a, b, k.cpuMemory);
      } else {
        Cancel(a, 0.0, k.cpuMemory);
      }
    }
  }

  lemma InProportion(x: real, y: real, a: real, b: real, f: real)
    requires a != 0.0 && a * f == b && x * a == y * b
    ensures x == f * y
  {
    assert y * (a * f) == (f * y) * a;
    Cancel(x, f * y, a);
  }

  lemma DivideInProportion(price: real, cores: real, gibs: real, cards: real, f: real, g: real)
    requires f != 0.0 && g != 0.0 && cores * f == gibs && cards * g == cores
    ensures Divide(price, cores, gibs, cards).Some? <==> gibs != 0.0
    ensures gibs != 0.0 ==>
              var p := Divide(price, cores, gibs, cards).value;
              p.ram * gibs == price && p.cpu == f * p.ram && p.gpu == g * p.cpu
  {
    if gibs != 0.0 {
      Quotient(price, cores);
      Quotient(price, gibs);
      Quotient(price, cards);
      InProportion(price / cores, price / gibs, cores, gibs, f);
      InProportion(price / cards, price / cores, cards, cores, g);
    }
  }

  lemma SplitWithGpu(spec: NodeSpec, k: Ratios)
    requires spec.gpu != 0.0
    ensures Split(spec, k).Some? <==> Usable(spec, k)
    ensures Split(spec, k).Some? ==>
              var p := Split(spec, k).value;
              p.ram * Size(spec, k) == spec.price && p.cpu == k.cpuMemory * p.ram && p.gpu == k.gpuCpu * p.cpu
  {
    if k.cpuMemory != 0.0 && k.gpuCpu != 0.0 {
      Equivalences(spec, k);
      DivideInProportion(spec.price, InCores(spec, k), InGibs(spec, k), InCards(spec, k), k.cpuMemory, k.gpuCpu);
    }
  }

  /** Two ways to share out the price of a node of non-zero size are the same. */
  lemma SplitIsUnique(spec: NodeSpec, k: Ratios, p: Prices, q: Prices)
    requires Size(spec, k) != 0.0 && IsSplit(spec, k, p) && IsSplit(spec, k, q)
    ensures p == q
  {
    TotalIsSize(spec, k, p);
    TotalIsSize(spec, k, q);
    Cancel(p.ram, q.ram, Size(spec, k));
  }

  /** The split succeeds exactly for nodes of non-zero size, and then its prices are the one and
      only way to meet the ratios and to give back the price of the node; no sign is assumed. */
  lemma SplitConservesPrice(spec: NodeSpec, k: Ratios, p: Prices)
    ensures Split(spec, k).Some? <==> Usable(spec, k)
    ensures Usable(spec, k) ==> (Split(spec, k) == Some(p) <==> IsSplit(spec, k, p))
  {
    SplitMeaning(spec, k);
    if Usable(spec, k) && IsSplit(spec, k, p) {
      SplitIsUnique(spec, k, p, Split(spec, k).value);
    }
  }

  lemma SplitMeaning(spec: NodeSpec, k: Ratios)
    ensures Split(spec, k).Some? <==> Usable(spec, k)
    ensures Split(spec, k).Some? ==> IsSplit(spec, k, Split(spec, k).value)
  {
    if spec.gpu == 0.0 { SplitWithoutGpu(spec, k); } else { SplitWithGpu(spec, k); }
    if Usable(spec, k) {
      TotalIsSize(spec, k, Split(spec, k).value);
    }
  }

  /** The branch for nodes without GPU agrees with the general formulas. */
  lemma NoGpuIsGeneral(spec: NodeSpec, k: Ratios)
    requires spec.gpu == 0.0 && k.gpuCpu != 0.0 && Usable(spec, k)
    ensures k.gpuCpu * k.cpuMemory != 0.0
    ensures var general := Divide(spec.price, InCores(spec, k), InGibs(spec, k), InCards(spec, k));
            general.Some? && Split(spec, k) == Some(general.value.(gpu := 0.0))
  {
    Equivalences(spec, k);
    WithoutCards(spec, k);
    hide InCores, InGibs, InCards, BareCores, BareGibs, Size;
    DivideInProportion(spec.price, InCores(spec, k), InGibs(spec, k), InCards(spec, k), k.cpuMemory, k.gpuCpu);
  }

  lemma WithoutCards(spec: NodeSpec, k: Ratios)
    requires spec.gpu == 0.0 && k.cpuMemory != 0.0
    ensures InCores(spec, k) == BareCores(spec, k)
    ensures InGibs(spec, k) == BareGibs(spec, k) == Size(spec, k)
  {
  }

  lemma TotalIsSize(spec: NodeSpec, k: Ratios, p: Prices)
    requires p.cpu == k.cpuMemory * p.ram && p.gpu == (if spec.gpu == 0.0 then 0.0 else k.gpuCpu * p.cpu)
    ensures p.cpu * spec.cpu + p.ram * spec.ram + p.gpu * spec.gpu == p.ram * Size(spec, k)
  {
    var y := p.ram;
    assert (k.cpuMemory * y) * spec.cpu == y * (spec.cpu * k.cpuMemory);
    if spec.gpu != 0.0 {
      assert (k.gpuCpu * (k.cpuMemory * y)) * spec.gpu == y * (spec.gpu * k.gpuCpu * k.cpuMemory);
    }
  }

  predicate Physical(spec: NodeSpec, k: Ratios) {
    0.0 <= spec.cpu && 0.0 <= spec.ram && 0.0 <= spec.gpu && 0.0 < k.cpuMemory && 0.0 < k.gpuCpu
  }

  /** For positive ratios and non-negative counts the split fails only on a node without
      anything, and a non-negative price is split into non-negative prices. */
  lemma PhysicalSplit(spec: NodeSpec, k: Ratios)
    requires Physical(spec, k)
    ensures Split(spec, k).Some? <==> !(spec.cpu == spec.ram == spec.gpu == 0.0)
    ensures Split(spec, k).Some? && 0.0 <= spec.price ==>
              var p := Split(spec, k).value; 0.0 <= p.cpu && 0.0 <= p.ram && 0.0 <= p.gpu
  {
    var x, y := spec.cpu * k.cpuMemory, spec.gpu * k.gpuCpu * k.cpuMemory;
    NonNegativeProduct(spec.cpu, k.cpuMemory);
    NonNegativeProduct(spec.gpu, k.gpuCpu);
    NonNegativeProduct(spec.gpu * k.gpuCpu, k.cpuMemory);
    if spec.gpu == 0.0 { SplitWithoutGpu(spec, k); } else { SplitWithGpu(spec, k); }
    if Usable(spec, k) && 0.0 <= spec.price {
      var p := Split(spec, k).value;
      NonNegativeFactor(p.ram, Size(spec, k));
      NonNegativeProduct(k.cpuMemory, p.ram);
      NonNegativeProduct(k.gpuCpu, p.cpu);
    }
  }

  lemma NonNegativeProduct(a: real, b: real)
    requires 0.0 <= a && 0.0 <= b
    ensures 0.0 <= a * b
    ensures a * b == 0.0 <==> a == 0.0 || b == 0.0
  {
  }

  lemma NonNegativeFactor(a: real, b: real)
    requires 0.0 < b && 0.0 <= a * b
    ensures 0.0 <= a
  {
  }

  /** An answer shares out its total over its size, in the configured ratios, unless it has no size. */
  ghost predicate SharesOut(info: InstancePriceInfo, k: Ratios) {
    var spec := NodeSpec(info.cpuCore, info.ramGiB, info.gpuCards, info.total);
    && (info.prices.Some? <==> Usable(spec, k))
    && (info.prices.Some? ==> IsSplit(spec, k, info.prices.value))
  }

  lemma InfoSharesOut(spec: NodeSpec, k: Ratios, nodeType: string, region: string, provider: string)
    ensures SharesOut(InfoOf(spec, k, nodeType, region, provider), k)
  {
    hide Split, Usable, IsSplit;
    SplitMeaning(spec, k);
    assert NodeSpec(spec.cpu, spec.ram, spec.gpu, spec.price) == spec;
  }
}
