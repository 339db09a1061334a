/** The AWS price provider: no cache, the same split of the node price. */
module EksProvider {
  import opened Kube
  import opened Pricing
  import Ack = AckProvider

  const EKS_NODE_TYPE_LABEL := "node.kubernetes.io/instance-type"
  const CLOUD_PROVIDER_EKS := "eks"

  datatype PriceInfo = PriceInfo(vcpu: real, memory: real, gpu: real, usd: string, cny: string)

  datatype Error = NoLabels | NoTypeLabel | QueryFailed | BadPrice

  datatype Result<+T> = Ok(value: T) | Err(error: Error)

  // ----- How this provider splits a price -----

  function TotalCores(info: PriceInfo, k: Ratios): real
    requires k.cpuMemory != 0.0
  {
    if info.gpu == 0.0 then info.vcpu + info.memory / k.cpuMemory
    else info.vcpu + info.memory / k.cpuMemory + info.gpu * k.gpuCpu
  }

  function TotalGibs(info: PriceInfo, k: Ratios): real {
    if info.gpu == 0.0 then info.memory + info.vcpu * k.cpuMemory
    else info.memory + info.vcpu * k.cpuMemory + info.gpu * k.gpuCpu * k.cpuMemory
  }

  function TotalCards(info: PriceInfo, k: Ratios): real
    requires k.gpuCpu != 0.0 && k.gpuCpu * k.cpuMemory != 0.0
  {
    info.gpu + info.vcpu / k.gpuCpu + info.memory / (k.gpuCpu * k.cpuMemory)
  }

  /** None stands for a division by zero. */
  function SharePrice(info: PriceInfo, price: real, k: Ratios): Option<Prices> {
    if k.cpuMemory == 0.0 || TotalCores(info, k) == 0.0 || TotalGibs(info, k) == 0.0 then None
    else if info.gpu == 0.0 then Some(Prices(price / TotalCores(info, k), price / TotalGibs(info, k), 0.0))
    else if k.gpuCpu == 0.0 || k.gpuCpu * k.cpuMemory == 0.0 || TotalCards(info, k) == 0.0 then None
    else
      Some(Prices(price / TotalCores(info, k), price / TotalGibs(info, k), price / TotalCards(info, k)))
  }

  /** `query` is the answer of the pricing client for each instance type. */
  function GetNodeHourlyPrice(node: Node, query: map<string, PriceInfo>, c: Ack.Config): Result<InstancePriceInfo> {
    match node.labels
    case None => Err(NoLabels)
    case Some(labels) =>
      if EKS_NODE_TYPE_LABEL !in labels then Err(NoTypeLabel)
      else
        var nodeType := labels[EKS_NODE_TYPE_LABEL];
        if nodeType !in query then Err(QueryFailed)
        else
          var info := query[nodeType];
          match c.parse(if info.usd != "" then info.usd else info.cny)
          case None => Err(BadPrice)
          case Some(price) =>
            Ok(InstancePriceInfo(price, info.vcpu, info.memory, info.gpu, SharePrice(info, price, c.ratios),
                                 nodeType, BILLING_MODE_ON_DEMAND, 0, c.region, CLOUD_PROVIDER_EKS))
  }

  lemma TotalsAreEqual(info: PriceInfo, price: real, k: Ratios)
    requires k.cpuMemory != 0.0
    ensures var spec := NodeSpec(info.vcpu, info.memory, info.gpu, price);
            && TotalCores(info, k) == (if info.gpu == 0.0 then BareCores(spec, k) else InCores(spec, k))
            && TotalGibs(info, k) == (if info.gpu == 0.0 then BareGibs(spec, k) else InGibs(spec, k))
            && (k.gpuCpu != 0.0 && k.gpuCpu * k.cpuMemory != 0.0 ==> TotalCards(info, k) == InCards(spec, k))
  {
  }

  /** The two providers split a price alike, whatever the size, the price and the ratios. */
  lemma SplitsAreEqual(info: PriceInfo, price: real, k: Ratios)
    ensures SharePrice(info, price, k) == Split(NodeSpec(info.vcpu, info.memory, info.gpu, price), k)
  {
    hide TotalCores, TotalGibs, TotalCards, BareCores, BareGibs, InCores, InGibs, InCards;
    if k.cpuMemory != 0.0 {
      TotalsAreEqual(info, price, k);
    }
  }

  /** The price text that counts: that in USD, or that in CNY when there is none in USD. */
  function PriceText(info: PriceInfo): string { if info.usd != "" then info.usd else info.cny }

  predicate HasType(node: Node, k: string) {
    node.labels.Some? && EKS_NODE_TYPE_LABEL in node.labels.value && node.labels.value[EKS_NODE_TYPE_LABEL] == k
  }

  /** When there is an answer, and why there is none. */
  lemma AnswersExactly(node: Node, query: map<string, PriceInfo>, c: Ack.Config)
    ensures var r := GetNodeHourlyPrice(node, query, c);
            && (r == Err(NoLabels) <==> node.labels.None?)
            && (r == Err(NoTypeLabel) <==> node.labels.Some? && EKS_NODE_TYPE_LABEL !in node.labels.value)
            && (r == Err(QueryFailed) <==> exists k :: HasType(node, k) && k !in query)
            && (r == Err(BadPrice) <==>
                exists k :: HasType(node, k) && k in query && c.parse(PriceText(query[k])).None?)
            && (r.Ok? <==> exists k :: HasType(node, k) && k in query && c.parse(PriceText(query[k])).Some?)
  {
    if node.labels.Some? && EKS_NODE_TYPE_LABEL in node.labels.value {
      var k := node.labels.value[EKS_NODE_TYPE_LABEL];
      assert HasType(node, k);
    }
  }

  /** An answer in terms of the query: the type in the labels of the node, the size the query states
      for it, its price, and unit prices that share this price out over that size. */
  ghost predicate IsAnswerFor(info: InstancePriceInfo, node: Node, query: map<string, PriceInfo>, c: Ack.Config) {
    var k := info.instanceType;
    && HasType(node, k) && k in query
    && info.cpuCore == query[k].vcpu && info.ramGiB == query[k].memory && info.gpuCards == query[k].gpu
    && Some(info.total) == c.parse(PriceText(query[k]))
    && info.billingMode == "ondemand" && info.billingPeriod == 0
    && info.region == c.region && info.cloudProvider == "eks"
    && SharesOut(info, c.ratios)
  }

  /** Every answer is right, and an Alibaba Cloud node whose type has there the size and the price
      that the query states gets the same answer up to the name of the provider. */
  lemma AnswerSharesOutPrice(node: Node, query: map<string, PriceInfo>, c: Ack.Config, k: string, truth: Ack.Truth)
    requires HasType(node, k) && k in query && c.parse(PriceText(query[k])).Some?
    ensures GetNodeHourlyPrice(node, query, c).Ok?
    ensures IsAnswerFor(GetNodeHourlyPrice(node, query, c).value, node, query, c)
    ensures k in truth.sizes && truth.sizes[k] == Ack.Size(query[k].vcpu, query[k].memory, query[k].gpu) &&
            k in truth.prices && Some(truth.prices[k]) == c.parse(PriceText(query[k])) ==>
              var info := GetNodeHourlyPrice(node, query, c).value;
              Ack.Uncached(node, truth, c) == Ack.Ok(info.(cloudProvider := "ack"))
  {
    var q, price := query[k], c.parse(PriceText(query[k])).value;
    var spec := NodeSpec(q.vcpu, q.memory, q.gpu, price);
    hide Split, SharePrice, Usable, IsSplit;
    SplitsAreEqual(q, price, c.ratios);
    SplitMeaning(spec, c.ratios);
  }
}
