/** The Alibaba Cloud price provider: a cache of node specs and prices in front of the cloud. */
module AckProvider {
  import opened Kube
  import opened Pricing

  const NODE_TYPE_LABEL := "node.kubernetes.io/instance-type"
  const CLOUD_PROVIDER_ACK := "ack"

  datatype Error = NoLabels | NoTypeLabel | SpecQueryFailed | TypeNotFound | PriceQueryFailed

  datatype Result<+T> = Ok(value: T) | Err(error: Error)

  // ----- The spec query -----

  datatype Instance = Instance(id: string, cpu: string, memory: string, gpu: string)

  type ParseFloat = string -> Option<real>

  /** The numbers of one instance, None if one of them cannot be parsed. A fresh spec has no price. */
  function SpecOf(i: Instance, parse: ParseFloat): Option<NodeSpec> {
    match (parse(i.cpu), parse(i.memory), parse(i.gpu))
    case (Some(c), Some(m), Some(g)) => Some(NodeSpec(c, m, g, 0.0))
    case _ => None
  }

  /** One entry per type, taken from its first instance; later instances are not even parsed. */
  function SpecMap(instances: seq<Instance>, parse: ParseFloat): Option<map<string, NodeSpec>> {
    if instances == [] then Some(map[])
    else
      var last := instances[|instances| - 1];
      match SpecMap(instances[..|instances| - 1], parse)
      case None => None
      case Some(m) =>
        if last.id in m then Some(m)
        else match SpecOf(last, parse)
          case None => None
          case Some(spec) => Some(m[last.id := spec])
  }

  /** The first instance of a type. */
  predicate First(instances: seq<Instance>, i: nat)
    requires i < |instances|
  {
    forall j | 0 <= j < i :: instances[j].id != instances[i].id
  }

  function Types(instances: seq<Instance>): set<string> {
    set i | 0 <= i < |instances| :: instances[i].id
  }

  lemma TypesOfPrefix(instances: seq<Instance>, n: nat)
    requires n < |instances|
    ensures Types(instances[..n + 1]) == Types(instances[..n]) + {instances[n].id}
    ensures First(instances, n) <==> instances[n].id !in Types(instances[..n])
  {
  }

  predicate Readable(i: Instance, parse: ParseFloat) {
    parse(i.cpu).Some? && parse(i.memory).Some? && parse(i.gpu).Some?
  }

  ghost predicate FirstsReadable(instances: seq<Instance>, parse: ParseFloat) {
    forall i | 0 <= i < |instances| && First(instances, i) :: Readable(instances[i], parse)
  }

  /** The spec has the cores, GiB and cards that the instance states, and no price yet. */
  predicate Describes(spec: NodeSpec, i: Instance, parse: ParseFloat) {
    && Some(spec.cpu) == parse(i.cpu) && Some(spec.ram) == parse(i.memory) && Some(spec.gpu) == parse(i.gpu)
    && spec.price == 0.0
  }

  ghost predicate HoldsFirsts(instances: seq<Instance>, parse: ParseFloat, m: map<string, NodeSpec>) {
    forall i | 0 <= i < |instances| && First(instances, i) ::
      instances[i].id in m && Describes(m[instances[i].id], instances[i], parse)
  }

  lemma FirstInPrefix(instances: seq<Instance>, n: nat, i: nat)
    requires i < n <= |instances|
    ensures First(instances[..n], i) <==> First(instances, i)
  {
  }

  lemma FirstsOfPrefix(instances: seq<Instance>, parse: ParseFloat, n: nat)
    requires |instances| == n + 1
    ensures FirstsReadable(instances, parse) <==>
            FirstsReadable(instances[..n], parse) && (First(instances, n) ==> Readable(instances[n], parse))
  {
  }

  lemma HoldsOneMore(instances: seq<Instance>, parse: ParseFloat, m: map<string, NodeSpec>, m': map<string, NodeSpec>)
    requires instances != []
    requires var n := |instances| - 1;
             && HoldsFirsts(instances[..n], parse, m) && m.Keys == Types(instances[..n])
             && (if First(instances, n) then
                   SpecOf(instances[n], parse).Some? && m' == m[instances[n].id := SpecOf(instances[n], parse).value]
                 else m' == m)
    ensures HoldsFirsts(instances, parse, m')
  {
    var n := |instances| - 1;
    TypesOfPrefix(instances, n);
    forall i | 0 <= i < |instances| && First(instances, i)
      ensures instances[i].id in m' && Describes(m'[instances[i].id], instances[i], parse)
    {
      if i < n {
        FirstInPrefix(instances, n, i);
        assert instances[..n][i] == instances[i];
      }
    }
  }

  /** The query succeeds exactly when the first instance of every type has readable numbers, and
      its answer has, for exactly the listed types, the cores, GiB and cards stated there and no
      prices. */
  lemma {:induction false} SpecMapMeaning(instances: seq<Instance>, parse: ParseFloat)
    ensures SpecMap(instances, parse).Some? <==> FirstsReadable(instances, parse)
    ensures SpecMap(instances, parse).Some? ==>
              var m := SpecMap(instances, parse).value;
              m.Keys == Types(instances) && HoldsFirsts(instances, parse, m)
  {
    if instances != [] {
      var n := |instances| - 1;
      SpecMapMeaning(instances[..n], parse);
      FirstsOfPrefix(instances, parse, n);
      TypesOfPrefix(instances, n);
      assert instances[..n + 1] == instances;
      if SpecMap(instances, parse).Some? {
        HoldsOneMore(instances, parse, SpecMap(instances[..n], parse).value, SpecMap(instances, parse).value);
      }
    }
  }

  function SpecQuery(response: Option<seq<Instance>>, parse: ParseFloat): Option<map<string, NodeSpec>> {
    match response
    case None => None
    case Some(instances) => SpecMap(instances, parse)
  }

  lemma {:induction false} SpecMapPrefixFails(instances: seq<Instance>, parse: ParseFloat, n: nat)
    requires n <= |instances| && SpecMap(instances[..n], parse).None?
    ensures SpecMap(instances, parse).None?
  {
    if n < |instances| {
      assert instances[..|instances| - 1][..n] == instances[..n];
      SpecMapPrefixFails(instances[..|instances| - 1], parse, n);
    } else {
      assert instances[..n] == instances;
    }
  }

  method QueryNodeSpecFromCloud(response: Option<seq<Instance>>, parse: ParseFloat)
    returns (specs: Option<map<string, NodeSpec>>)
    ensures specs == SpecQuery(response, parse)
    ensures specs.Some? <==> response.Some? && FirstsReadable(response.value, parse)
    ensures specs.Some? ==> specs.value.Keys == Types(response.value) && HoldsFirsts(response.value, parse, specs.value)
  {
    if response.None? {
      return None;
    }
    var instances := response.value;
    SpecMapMeaning(instances, parse);
    hide FirstsReadable, HoldsFirsts, Types;
    var ret: map<string, NodeSpec> := map[];
    for i := 0 to |instances|
      invariant SpecMap(instances[..i], parse) == Some(ret)
    {
      var nodeType := instances[i].id;
      assert instances[..i + 1][..i] == instances[..i];
      if nodeType !in ret {
        var spec := SpecOf(instances[i], parse);
        if spec.None? {
          SpecMapPrefixFails(instances, parse, i + 1);
          return None;
        }
        ret := ret[nodeType := spec.value];
      }
    }
    assert instances[..|instances|] == instances;
    return Some(ret);
  }

  // ----- The cache -----

  /** A Go map that is nil can be read, but a write to it crashes. */
  datatype Table = Nil | Entries(entries: map<string, NodeSpec>) {
    function Lookup(t: string): Option<NodeSpec> {
      if Entries? && t in entries then Some(entries[t]) else None
    }
  }

  /** How the cloud answers during one call; a type without a price is a failed price query. */
  datatype Cloud = Cloud(response: Option<seq<Instance>>, prices: map<string, real>)

  datatype Config = Config(region: string, ratios: Ratios, parse: ParseFloat)

  function TypeOf(node: Node): Result<string> {
    match node.labels
    case None => Err(NoLabels)
    case Some(labels) => if NODE_TYPE_LABEL in labels then Ok(labels[NODE_TYPE_LABEL]) else Err(NoTypeLabel)
  }

  /** The table after a call and the answer of the call. */
  function Serve(t: Table, node: Node, cloud: Cloud, c: Config): (Table, Result<InstancePriceInfo>) {
    match TypeOf(node)
    case Err(e) => (t, Err(e))
    case Ok(nodeType) =>
      if t.Lookup(nodeType).Some? then Price(t, t.Lookup(nodeType).value, nodeType, cloud, c)
      else
        match SpecQuery(cloud.response, c.parse)
        case None => (Nil, Err(SpecQueryFailed))
        case Some(specs) =>
          if nodeType in specs then Price(Entries(specs), specs[nodeType], nodeType, cloud, c)
          else (Entries(specs), Err(TypeNotFound))
  }

  function Price(t: Table, spec: NodeSpec, nodeType: string, cloud: Cloud, c: Config)
    : (Table, Result<InstancePriceInfo>)
    requires t.Lookup(nodeType) == Some(spec)
  {
    if spec.price > 0.0 then (t, Ok(InfoOf(spec, c.ratios, nodeType, c.region, CLOUD_PROVIDER_ACK)))
    else if nodeType !in cloud.prices then (t, Err(PriceQueryFailed))
    else
      var priced := spec.(price := cloud.prices[nodeType]);
      (Entries(t.entries[nodeType := priced]), Ok(InfoOf(priced, c.ratios, nodeType, c.region, CLOUD_PROVIDER_ACK)))
  }

  class ACKCloudProvider {
    const config: Config
    var nodeSpecMap: Table

    constructor (config: Config)
      ensures this.config == config && nodeSpecMap == Entries(map[])
    {
      this.config := config;
      nodeSpecMap := Entries(map[]);
    }

    method GetNodeHourlyPrice(node: Node, cloud: Cloud) returns (r: Result<InstancePriceInfo>)
      modifies this
      ensures (nodeSpecMap, r) == Serve(old(nodeSpecMap), node, cloud, config)
    {
      if node.labels.None? {
        return Err(NoLabels);
      }
      if NODE_TYPE_LABEL !in node.labels.value {
        return Err(NoTypeLabel);
      }
      var nodeType := node.labels.value[NODE_TYPE_LABEL];

      var cached := nodeSpecMap.Lookup(nodeType);
      if cached.None? {
        var specs := QueryNodeSpecFromCloud(cloud.response, config.parse);
        if specs.None? {
          nodeSpecMap := Nil;
          return Err(SpecQueryFailed);
        }
        nodeSpecMap := Entries(specs.value);
        cached := nodeSpecMap.Lookup(nodeType);
        if cached.None? {
          return Err(TypeNotFound);
        }
      }

      var nodeSpec := cached.value;
      if nodeSpec.price <= 0.0 {
        if nodeType !in cloud.prices {
          return Err(PriceQueryFailed);
        }
        nodeSpec := nodeSpec.(price := cloud.prices[nodeType]);
        nodeSpecMap := Entries(nodeSpecMap.entries[nodeType := nodeSpec]);
      }
      return Ok(InfoOf(nodeSpec, config.ratios, nodeType, config.region, CLOUD_PROVIDER_ACK));
    }
  }

  // ----- The cache against a stable cloud -----

  datatype Size = Size(cpu: real, ram: real, gpu: real)

  /** What the cloud knows: the size and the price of each type. */
  datatype Truth = Truth(sizes: map<string, Size>, prices: map<string, real>)

  /** A list of instances states the true sizes: exactly those types, and each first instance has the
      cores, GiB and cards of its type. */
  ghost predicate States(instances: seq<Instance>, parse: ParseFloat, sizes: map<string, Size>) {
    && sizes.Keys == Types(instances)
    && forall i | 0 <= i < |instances| && First(instances, i) ::
         && parse(instances[i].cpu) == Some(sizes[instances[i].id].cpu)
         && parse(instances[i].memory) == Some(sizes[instances[i].id].ram)
         && parse(instances[i].gpu) == Some(sizes[instances[i].id].gpu)
  }

  /** The cloud answers truthfully or not at all, or with a list that cannot be read. */
  ghost predicate Truthful(cloud: Cloud, truth: Truth, c: Config) {
    && (cloud.response.Some? && FirstsReadable(cloud.response.value, c.parse) ==>
          States(cloud.response.value, c.parse, truth.sizes))
    && cloud.prices.Keys <= truth.prices.Keys
    && forall t | t in cloud.prices :: cloud.prices[t] == truth.prices[t]
  }

  function SpecIn(truth: Truth, t: string, price: real): NodeSpec
    requires t in truth.sizes
  {
    NodeSpec(truth.sizes[t].cpu, truth.sizes[t].ram, truth.sizes[t].gpu, price)
  }

  lemma {:induction false} FirstOfType(instances: seq<Instance>, t: string) returns (i: nat)
    requires t in Types(instances)
    ensures i < |instances| && First(instances, i) && instances[i].id == t
  {
    var n := |instances| - 1;
    if t in Types(instances[..n]) {
      i := FirstOfType(instances[..n], t);
      FirstInPrefix(instances, n, i);
    } else {
      i := n;
      var j :| 0 <= j < |instances| && instances[j].id == t;
      assert forall k | 0 <= k < n :: instances[..n][k] == instances[k];
    }
  }

  /** A truthful cloud that is read gives each type its true size and no price. */
  lemma TruthfulSpecs(cloud: Cloud, truth: Truth, c: Config)
    requires Truthful(cloud, truth, c) && SpecQuery(cloud.response, c.parse).Some?
    ensures var specs := SpecQuery(cloud.response, c.parse).value;
            specs.Keys == truth.sizes.Keys && forall t | t in specs :: specs[t] == SpecIn(truth, t, 0.0)
  {
    var instances, specs := cloud.response.value, SpecQuery(cloud.response, c.parse).value;
    SpecMapMeaning(instances, c.parse);
    forall t | t in specs ensures t in truth.sizes && specs[t] == SpecIn(truth, t, 0.0) {
      var i := FirstOfType(instances, t);
    }
  }

  /** The answer that needs no cache. */
  function Uncached(node: Node, truth: Truth, c: Config): Result<InstancePriceInfo> {
    match TypeOf(node)
    case Err(e) => Err(e)
    case Ok(t) =>
      if t !in truth.sizes then Err(TypeNotFound)
      else if t !in truth.prices then Err(PriceQueryFailed)
      else Ok(InfoOf(SpecIn(truth, t, truth.prices[t]), c.ratios, t, c.region, CLOUD_PROVIDER_ACK))
  }

  /** Every entry has the size that the cloud states, and either no price or the cloud's. */
  ghost predicate CacheAgrees(t: Table, truth: Truth) {
    t.Entries? ==> forall k | k in t.entries ::
      && k in truth.sizes
      && (t.entries[k] == SpecIn(truth, k, 0.0) ||
          (k in truth.prices && t.entries[k] == SpecIn(truth, k, truth.prices[k])))
  }

  /** One call: the cache stays in agreement and a successful answer is the uncached one. */
  lemma ServeRefinesUncached(t: Table, node: Node, cloud: Cloud, truth: Truth, c: Config)
    requires CacheAgrees(t, truth) && Truthful(cloud, truth, c)
    ensures var (t', r) := Serve(t, node, cloud, c);
            CacheAgrees(t', truth) && (r.Ok? ==> r == Uncached(node, truth, c))
  {
    if SpecQuery(cloud.response, c.parse).Some? {
      TruthfulSpecs(cloud, truth, c);
    }
    hide SpecQuery, InfoOf, Truthful;
  }

  /** The type of a node, as its labels state it. */
  predicate HasType(node: Node, k: string) {
    node.labels.Some? && NODE_TYPE_LABEL in node.labels.value && node.labels.value[NODE_TYPE_LABEL] == k
  }

  /** When a call succeeds, and why it fails: the cache never costs an answer. A node without a type
      is refused; otherwise the size must be at hand, in the cache or in a readable list of the cloud,
      and then the price, in the cache or in the cloud. */
  lemma ServeSucceedsExactly(t: Table, node: Node, cloud: Cloud, truth: Truth, c: Config)
    requires CacheAgrees(t, truth) && Truthful(cloud, truth, c)
    ensures var (_, r) := Serve(t, node, cloud, c);
            && (r == Err(NoLabels) <==> node.labels.None?)
            && (r == Err(NoTypeLabel) <==> node.labels.Some? && NODE_TYPE_LABEL !in node.labels.value)
            && (Serve(Nil, node, cloud, c).1.Ok? ==> r == Serve(Nil, node, cloud, c).1)
            && forall k | HasType(node, k) ::
                 var cached := t.Entries? && k in t.entries;
                 var readable := cloud.response.Some? && FirstsReadable(cloud.response.value, c.parse);
                 var priced := (cached && t.entries[k].price > 0.0) || k in cloud.prices;
                 && (r == Err(SpecQueryFailed) <==> !cached && !readable)
                 && (r == Err(TypeNotFound) <==> !cached && readable && k !in truth.sizes)
                 && (r == Err(PriceQueryFailed) <==> (cached || (readable && k in truth.sizes)) && !priced)
                 && (r.Ok? <==> (cached || (readable && k in truth.sizes)) && priced)
  {
    if cloud.response.Some? {
      SpecMapMeaning(cloud.response.value, c.parse);
    }
    if SpecQuery(cloud.response, c.parse).Some? {
      TruthfulSpecs(cloud, truth, c);
    }
    hide InfoOf, Truthful, FirstsReadable, HoldsFirsts, SpecMap;
  }

  datatype Call = Call(node: Node, cloud: Cloud)

  /** The answers to a sequence of calls. */
  function Answers(t: Table, calls: seq<Call>, c: Config): seq<Result<InstancePriceInfo>>
    decreases calls
  {
    if calls == [] then []
    else
      var (t', r) := Serve(t, calls[0].node, calls[0].cloud, c);
      [r] + Answers(t', calls[1..], c)
  }

  function TableAfter(t: Table, calls: seq<Call>, c: Config): Table
    decreases calls
  {
    if calls == [] then t else TableAfter(Serve(t, calls[0].node, calls[0].cloud, c).0, calls[1..], c)
  }

  lemma {:induction false} CallsRefine(t: Table, calls: seq<Call>, truth: Truth, c: Config)
    requires CacheAgrees(t, truth)
    requires forall i | 0 <= i < |calls| :: Truthful(calls[i].cloud, truth, c)
    ensures CacheAgrees(TableAfter(t, calls, c), truth)
    ensures |Answers(t, calls, c)| == |calls|
    ensures forall i | 0 <= i < |calls| && Answers(t, calls, c)[i].Ok? ::
              Answers(t, calls, c)[i] == Uncached(calls[i].node, truth, c)
    decreases calls
  {
    if calls != [] {
      var t' := Serve(t, calls[0].node, calls[0].cloud, c).0;
      ServeRefinesUncached(t, calls[0].node, calls[0].cloud, truth, c);
      CallsRefine(t', calls[1..], truth, c);
    }
  }

  /** The cache refines the uncached provider on every sequence of calls, whichever queries fail. */
  lemma CachedProviderRefinesCloud(calls: seq<Call>, truth: Truth, c: Config)
    requires forall i | 0 <= i < |calls| :: Truthful(calls[i].cloud, truth, c)
    ensures var answers := Answers(Entries(map[]), calls, c);
            && CacheAgrees(TableAfter(Entries(map[]), calls, c), truth)
            && |answers| == |calls|
            && forall i | 0 <= i < |calls| && answers[i].Ok? :: answers[i] == Uncached(calls[i].node, truth, c)
  {
    CallsRefine(Entries(map[]), calls, truth, c);
  }

  /** What an answer is about, in terms of the cloud: the type in the labels of the node, the size the
      cloud states for it, its price, and unit prices that share this price out over that size. */
  ghost predicate IsAnswerFor(info: InstancePriceInfo, node: Node, truth: Truth, c: Config) {
    var k := info.instanceType;
    && HasType(node, k) && k in truth.sizes && k in truth.prices
    && info.cpuCore == truth.sizes[k].cpu && info.ramGiB == truth.sizes[k].ram && info.gpuCards == truth.sizes[k].gpu
    && info.total == truth.prices[k]
    && info.billingMode == "ondemand" && info.billingPeriod == 0
    && info.region == c.region && info.cloudProvider == "ack"
    && SharesOut(info, c.ratios)
  }

  /** Over any sequence of calls from an empty cache, every successful answer is right. */
  lemma AnswersAreTheClouds(calls: seq<Call>, truth: Truth, c: Config, i: nat)
    requires forall i | 0 <= i < |calls| :: Truthful(calls[i].cloud, truth, c)
    requires i < |calls|
    ensures var answers := Answers(Entries(map[]), calls, c);
            |answers| == |calls| && (answers[i].Ok? ==> IsAnswerFor(answers[i].value, calls[i].node, truth, c))
  {
    CachedProviderRefinesCloud(calls, truth, c);
    if Answers(Entries(map[]), calls, c)[i].Ok? {
      UncachedIsAnswer(calls[i].node, truth, c);
    }
  }

  lemma UncachedIsAnswer(node: Node, truth: Truth, c: Config)
    requires Uncached(node, truth, c).Ok?
    ensures IsAnswerFor(Uncached(node, truth, c).value, node, truth, c)
  {
    var k := TypeOf(node).value;
    hide Split, Usable, IsSplit;
    InfoSharesOut(SpecIn(truth, k, truth.prices[k]), c.ratios, k, c.region, CLOUD_PROVIDER_ACK);
  }

  /** A positive price, once answered, is answered again without any query. */
  lemma PositivePriceIsRemembered(t: Table, node: Node, cloud: Cloud, later: Cloud, c: Config)
    requires Serve(t, node, cloud, c).1.Ok? && Serve(t, node, cloud, c).1.value.total > 0.0
    ensures var (t', r) := Serve(t, node, cloud, c);
            Serve(t', node, later, c) == (t', r)
  {
  }

  /** A refresh forgets every price except the one asked for. */
  lemma RefreshForgetsPrices(t: Table, node: Node, cloud: Cloud, truth: Truth, c: Config, k: string)
    requires Truthful(cloud, truth, c)
    requires TypeOf(node).Ok? && TypeOf(node).value != k && t.Lookup(TypeOf(node).value).None?
    ensures Serve(t, node, cloud, c).0.Lookup(k) ==
            if SpecQuery(cloud.response, c.parse).Some? && k in truth.sizes then Some(SpecIn(truth, k, 0.0)) else None
  {
    if SpecQuery(cloud.response, c.parse).Some? {
      TruthfulSpecs(cloud, truth, c);
    }
    hide SpecQuery, InfoOf, Truthful;
  }
}
