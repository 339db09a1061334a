/** The summary of current resources, for all clusters at once and for one cluster. */
module ClusterMetrics {
  import opened Sums
  import opened CostMerge

  // ----- Counts -----

  ghost function Total(m: map<string, int>): int
    decreases |m|
  {
    if m == map[] then 0
    else
      var k :| k in m;
      m[k] + Total(m - {k})
  }

  function Count(m: map<string, int>, k: string): int { if k in m then m[k] else 0 }

  lemma {:induction false} TotalRemove(m: map<string, int>, k: string)
    requires k in m
    ensures Total(m) == m[k] + Total(m - {k})
    decreases |m|
  {
    var j :| j in m && Total(m) == m[j] + Total(m - {j});
    if j != k {
      TotalRemove(m - {j}, k);
      TotalRemove(m - {k}, j);
      assert m - {j} - {k} == m - {k} - {j};
    }
  }

  lemma TotalOneMore(m: map<string, int>, todo: set<string>, k: string)
    requires k in todo && todo <= m.Keys
    ensures Total(m - (todo - {k})) == Total(m - todo) + m[k]
  {
    TotalRemove(m - (todo - {k}), k);
    assert m - (todo - {k}) - {k} == m - todo;
  }

  /** The sum of all counts, and the counts of two distinguished labels. */
  method CountLabels(m: map<string, int>, a: string, b: string) returns (total: int, first: int, second: int)
    requires a != b
    ensures total == Total(m) && first == Count(m, a) && second == Count(m, b)
  {
    total, first, second := 0, 0, 0;
    assert m - m.Keys == map[];
    var todo := m.Keys;
    while todo != {}
      invariant todo <= m.Keys
      invariant total == Total(m - todo)
      invariant first == Count(m - todo, a) && second == Count(m - todo, b)
      decreases todo
    {
      var k := NextKey(todo);
      TotalOneMore(m, todo, k);
      total := total + m[k];
      if k == a {
        first := first + m[k];
      } else if k == b {
        second := second + m[k];
      }
      todo := todo - {k};
    }
    assert m - {} == m;
  }

  /** The values of "cpu" and "memory"; other resources are skipped. */
  method PickResources(m: map<string, real>) returns (cpu: real, ram: real)
    ensures cpu == Get(m, "cpu") && ram == Get(m, "memory")
  {
    cpu, ram := 0.0, 0.0;
    var todo := m.Keys;
    while todo != {}
      invariant todo <= m.Keys
      invariant cpu == Get(m - todo, "cpu") && ram == Get(m - todo, "memory")
      decreases todo
    {
      var k := NextKey(todo);
      if k == "cpu" {
        cpu := cpu + m[k];
      } else if k == "memory" {
        ram := ram + m[k];
      }
      todo := todo - {k};
    }
    assert m - {} == m;
  }

  // ----- Summaries -----

  datatype Amount = Amount(cpu: real, ram: real)

  datatype Kind = ResourceTotal | Usage | Request | Available | SystemTaken

  datatype Summary = Summary(nodes: int, onDemandNodes: int, spotNodes: int,
                             pods: int, scheduledPods: int, unscheduledPods: int,
                             total: Amount, usage: Amount, request: Amount, available: Amount, systemTaken: Amount)

  const ZERO := Amount(0.0, 0.0)
  const NOTHING := Summary(0, 0, 0, 0, 0, 0, ZERO, ZERO, ZERO, ZERO, ZERO)

  function Read(s: Summary, k: Kind): Amount {
    match k
    case ResourceTotal => s.total
    case Usage => s.usage
    case Request => s.request
    case Available => s.available
    case SystemTaken => s.systemTaken
  }

  function Set(s: Summary, k: Kind, a: Amount): Summary {
    match k
    case ResourceTotal => s.(total := a)
    case Usage => s.(usage := a)
    case Request => s.(request := a)
    case Available => s.(available := a)
    case SystemTaken => s.(systemTaken := a)
  }

  /** The query results for one cluster. */
  datatype Slice = Slice(nodes: map<string, int>, pods: map<string, int>, total: map<string, real>,
                         usage: map<string, real>, request: map<string, real>, available: map<string, real>,
                         systemTaken: map<string, real>)

  function AmountOf(m: map<string, real>): Amount { Amount(Get(m, "cpu"), Get(m, "memory")) }

  /** What a summary should say about a cluster. */
  ghost function SummaryOf(s: Slice): Summary {
    Summary(Total(s.nodes), Count(s.nodes, "ondemand"), Count(s.nodes, "spot"),
            Total(s.pods), Count(s.pods, "true"), Count(s.pods, "false"),
            AmountOf(s.total), AmountOf(s.usage), AmountOf(s.request), AmountOf(s.available), AmountOf(s.systemTaken))
  }

  // ----- One cluster: the passes accumulate into a fresh summary -----

  class ClusterSummary {
    var data: Summary

    constructor ()
      ensures data == NOTHING
    {
      data := NOTHING;
    }

    method ParseClusterNodesNumber(nodes: map<string, int>)
      modifies this
      ensures data == old(data).(nodes := old(data).nodes + Total(nodes),
                                 onDemandNodes := old(data).onDemandNodes + Count(nodes, "ondemand"),
                                 spotNodes := old(data).spotNodes + Count(nodes, "spot"))
    {
      assert nodes - nodes.Keys == map[];
      var todo := nodes.Keys;
      while todo != {}
        invariant todo <= nodes.Keys
        invariant data == old(data).(nodes := old(data).nodes + Total(nodes - todo),
                                     onDemandNodes := old(data).onDemandNodes + Count(nodes - todo, "ondemand"),
                                     spotNodes := old(data).spotNodes + Count(nodes - todo, "spot"))
        decreases todo
      {
        var mode := NextKey(todo);
        TotalOneMore(nodes, todo, mode);
        data := data.(nodes := data.nodes + nodes[mode]);
        if mode == "ondemand" {
          data := data.(onDemandNodes := data.onDemandNodes + nodes[mode]);
        } else if mode == "spot" {
          data := data.(spotNodes := data.spotNodes + nodes[mode]);
        }
        todo := todo - {mode};
      }
      assert nodes - {} == nodes;
    }

    method ParseClusterPodsNumber(pods: map<string, int>)
      modifies this
      ensures data == old(data).(pods := old(data).pods + Total(pods),
                                 scheduledPods := old(data).scheduledPods + Count(pods, "true"),
                                 unscheduledPods := old(data).unscheduledPods + Count(pods, "false"))
    {
      assert pods - pods.Keys == map[];
      var todo := pods.Keys;
      while todo != {}
        invariant todo <= pods.Keys
        invariant data == old(data).(pods := old(data).pods + Total(pods - todo),
                                     scheduledPods := old(data).scheduledPods + Count(pods - todo, "true"),
                                     unscheduledPods := old(data).unscheduledPods + Count(pods - todo, "false"))
        decreases todo
      {
        var scheduled := NextKey(todo);
        TotalOneMore(pods, todo, scheduled);
        data := data.(pods := data.pods + pods[scheduled]);
        if scheduled == "true" {
          data := data.(scheduledPods := data.scheduledPods + pods[scheduled]);
        } else if scheduled == "false" {
          data := data.(unscheduledPods := data.unscheduledPods + pods[scheduled]);
        }
        todo := todo - {scheduled};
      }
      assert pods - {} == pods;
    }

    method ParseClusterResource(kind: Kind, resource: map<string, real>)
      modifies this
      ensures var a := Read(old(data), kind);
              data == Set(old(data), kind, Amount(a.cpu + Get(resource, "cpu"), a.ram + Get(resource, "memory")))
    {
      ghost var a := Read(data, kind);
      var todo := resource.Keys;
      while todo != {}
        invariant todo <= resource.Keys
        invariant data == Set(old(data), kind,
                               Amount(a.cpu + Get(resource - todo, "cpu"), a.ram + Get(resource - todo, "memory")))
        decreases todo
      {
        var resourceType := NextKey(todo);
        var x := Read(data, kind);
        if resourceType == "cpu" {
          data := Set(data, kind, x.(cpu := x.cpu + resource[resourceType]));
        } else if resourceType == "memory" {
          data := Set(data, kind, x.(ram := x.ram + resource[resourceType]));
        }
        todo := todo - {resourceType};
      }
      assert resource - {} == resource;
    }
  }

  /** The seven passes over the results for one cluster. */
  method QueryClusterCurrentResources(s: Slice) returns (summary: ClusterSummary)
    ensures fresh(summary) && summary.data == SummaryOf(s)
  {
    summary := new ClusterSummary();
    hide Total, Count, Get;
    summary.ParseClusterNodesNumber(s.nodes);
    summary.ParseClusterPodsNumber(s.pods);
    summary.ParseClusterResource(ResourceTotal, s.total);
    summary.ParseClusterResource(Usage, s.usage);
    summary.ParseClusterResource(Request, s.request);
    summary.ParseClusterResource(Available, s.available);
    summary.ParseClusterResource(SystemTaken, s.systemTaken);
  }

  // ----- All clusters: the first pass creates summaries, the others find or create them -----

  type Nested<V> = map<string, map<string, V>>

  datatype Tables = Tables(nodes: Nested<int>, pods: Nested<int>, total: Nested<real>, usage: Nested<real>,
                           request: Nested<real>, available: Nested<real>, systemTaken: Nested<real>)

  function RowOf<V>(m: Nested<V>, c: string): map<string, V> { if c in m then m[c] else map[] }

  /** The slices of the nested maps that belong to one cluster. */
  function SliceOf(t: Tables, c: string): Slice {
    Slice(RowOf(t.nodes, c), RowOf(t.pods, c), RowOf(t.total, c), RowOf(t.usage, c), RowOf(t.request, c),
          RowOf(t.available, c), RowOf(t.systemTaken, c))
  }

  function Clusters(t: Tables): set<string> {
    t.nodes.Keys + t.pods.Keys + t.total.Keys + t.usage.Keys + t.request.Keys + t.available.Keys + t.systemTaken.Keys
  }

  type Summaries = map<string, Summary>

  function SummaryAt(d: Summaries, c: string): Summary { if c in d then d[c] else NOTHING }

  /** The effect of a pass: the clusters of `m` get a new summary, the others keep theirs. */
  ghost function With<V>(d: Summaries, m: Nested<V>, f: (Summary, map<string, V>) -> Summary): Summaries {
    map c | c in d.Keys + m.Keys :: if c in m then f(SummaryAt(d, c), m[c]) else d[c]
  }

  lemma WithOneMore<V>(d: Summaries, m: Nested<V>, f: (Summary, map<string, V>) -> Summary, todo: set<string>,
                       c: string)
    requires c in todo && todo <= m.Keys
    ensures var part := With(d, m - todo, f);
            SummaryAt(part, c) == SummaryAt(d, c) && With(d, m - (todo - {c}), f) == part[c := f(SummaryAt(d, c), m[c])]
  {
  }

  lemma WithNone<V>(d: Summaries, m: Nested<V>, f: (Summary, map<string, V>) -> Summary)
    ensures With(d, m - m.Keys, f) == d && m - {} == m
  {
  }

  /** The first pass replaces the summary. */
  ghost function NodesPart(s: Summary, m: map<string, int>): Summary {
    NOTHING.(nodes := Total(m), onDemandNodes := Count(m, "ondemand"), spotNodes := Count(m, "spot"))
  }

  ghost function PodsPart(s: Summary, m: map<string, int>): Summary {
    s.(pods := Total(m), scheduledPods := Count(m, "true"), unscheduledPods := Count(m, "false"))
  }

  ghost function ResourcePart(k: Kind): (Summary, map<string, real>) -> Summary {
    (s, m) => Set(s, k, AmountOf(m))
  }

  class AllClusters {
    var data: Summaries

    constructor ()
      ensures data == map[]
    {
      data := map[];
    }

    method ParseAllClustersNodesNumber(m: Nested<int>)
      modifies this
      ensures data == With(old(data), m, NodesPart)
    {
      hide With;
      WithNone(data, m, NodesPart);
      var todo := m.Keys;
      while todo != {}
        invariant todo <= m.Keys
        invariant data == With(old(data), m - todo, NodesPart)
        decreases todo
      {
        var c := NextKey(todo);
        WithOneMore(old(data), m, NodesPart, todo, c);
        var total, onDemand, spot := CountLabels(m[c], "ondemand", "spot");
        data := data[c := NOTHING.(nodes := total, onDemandNodes := onDemand, spotNodes := spot)];
        todo := todo - {c};
      }
    }

    method ParseAllClustersPodsNumber(m: Nested<int>)
      modifies this
      ensures data == With(old(data), m, PodsPart)
    {
      hide With;
      WithNone(data, m, PodsPart);
      var todo := m.Keys;
      while todo != {}
        invariant todo <= m.Keys
        invariant data == With(old(data), m - todo, PodsPart)
        decreases todo
      {
        var c := NextKey(todo);
        WithOneMore(old(data), m, PodsPart, todo, c);
        ghost var part := data;
        var total, scheduled, unscheduled := CountLabels(m[c], "true", "false");
        if c !in data {
          data := data[c := NOTHING];
        }
        data := data[c := data[c].(pods := total, scheduledPods := scheduled, unscheduledPods := unscheduled)];
        assert data == part[c := PodsPart(SummaryAt(part, c), m[c])];
        todo := todo - {c};
      }
    }

    method ParseAllClustersResource(kind: Kind, m: Nested<real>)
      modifies this
      ensures data == With(old(data), m, ResourcePart(kind))
    {
      hide With;
      WithNone(data, m, ResourcePart(kind));
      var todo := m.Keys;
      while todo != {}
        invariant todo <= m.Keys
        invariant data == With(old(data), m - todo, ResourcePart(kind))
        decreases todo
      {
        var c := NextKey(todo);
        WithOneMore(old(data), m, ResourcePart(kind), todo, c);
        ghost var part := data;
        var cpu, ram := PickResources(m[c]);
        if c !in data {
          data := data[c := NOTHING];
        }
        data := data[c := Set(data[c], kind, Amount(cpu, ram))];
        assert data == part[c := ResourcePart(kind)(SummaryAt(part, c), m[c])];
        todo := todo - {c};
      }
    }
  }

  /** The seven passes over the results for all clusters. */
  method QueryAllClustersCurrentResources(t: Tables) returns (all: AllClusters)
    ensures fresh(all) && all.data == AllSummaries(t)
  {
    all := new AllClusters();
    hide With;
    all.ParseAllClustersNodesNumber(t.nodes);
    all.ParseAllClustersPodsNumber(t.pods);
    all.ParseAllClustersResource(ResourceTotal, t.total);
    all.ParseAllClustersResource(Usage, t.usage);
    all.ParseAllClustersResource(Request, t.request);
    all.ParseAllClustersResource(Available, t.available);
    all.ParseAllClustersResource(SystemTaken, t.systemTaken);
  }

  ghost function AllSummaries(t: Tables): Summaries {
    var d2 := With(With(map[], t.nodes, NodesPart), t.pods, PodsPart);
    var d4 := With(With(d2, t.total, ResourcePart(ResourceTotal)), t.usage, ResourcePart(Usage));
    var d6 := With(With(d4, t.request, ResourcePart(Request)), t.available, ResourcePart(Available));
    With(d6, t.systemTaken, ResourcePart(SystemTaken))
  }

  // ----- Main results -----

  /** What a pass does to one cluster. */
  ghost function Apply<V>(s: Summary, m: Nested<V>, f: (Summary, map<string, V>) -> Summary, c: string): Summary {
    if c in m then f(s, m[c]) else s
  }

  lemma WithAt<V>(d: Summaries, m: Nested<V>, f: (Summary, map<string, V>) -> Summary, c: string)
    ensures SummaryAt(With(d, m, f), c) == Apply(SummaryAt(d, c), m, f, c)
  {
  }

  ghost function PassesAt(t: Tables, c: string): Summary {
    var s2 := Apply(Apply(NOTHING, t.nodes, NodesPart, c), t.pods, PodsPart, c);
    var s4 := Apply(Apply(s2, t.total, ResourcePart(ResourceTotal), c), t.usage, ResourcePart(Usage), c);
    var s6 := Apply(Apply(s4, t.request, ResourcePart(Request), c), t.available, ResourcePart(Available), c);
    Apply(s6, t.systemTaken, ResourcePart(SystemTaken), c)
  }

  lemma SummaryKeys(t: Tables)
    ensures AllSummaries(t).Keys == Clusters(t)
  {
    hide NodesPart, PodsPart, ResourcePart;
  }

  lemma NoSummary(c: string)
    ensures SummaryAt(map[], c) == NOTHING
  {
  }

  lemma SummaryIsPasses(t: Tables, c: string)
    ensures SummaryAt(AllSummaries(t), c) == PassesAt(t, c)
  {
    hide With, NodesPart, PodsPart, ResourcePart, Apply, SummaryAt;
    NoSummary(c);
    var d1 := With(map[], t.nodes, NodesPart);
    var d2 := With(d1, t.pods, PodsPart);
    var d3 := With(d2, t.total, ResourcePart(ResourceTotal));
    var d4 := With(d3, t.usage, ResourcePart(Usage));
    var d5 := With(d4, t.request, ResourcePart(Request));
    var d6 := With(d5, t.available, ResourcePart(Available));
    WithAt(map[], t.nodes, NodesPart, c);
    WithAt(d1, t.pods, PodsPart, c);
    WithAt(d2, t.total, ResourcePart(ResourceTotal), c);
    WithAt(d3, t.usage, ResourcePart(Usage), c);
    WithAt(d4, t.request, ResourcePart(Request), c);
    WithAt(d5, t.available, ResourcePart(Available), c);
    WithAt(d6, t.systemTaken, ResourcePart(SystemTaken), c);
  }

  /** An absent series leaves the zero that an empty one would give. */
  lemma ApplyResource(s: Summary, m: Nested<real>, k: Kind, c: string)
    requires Read(s, k) == ZERO
    ensures Apply(s, m, ResourcePart(k), c) == Set(s, k, AmountOf(RowOf(m, c)))
  {
  }

  lemma ApplyCounts(t: Tables, c: string)
    ensures Apply(Apply(NOTHING, t.nodes, NodesPart, c), t.pods, PodsPart, c) ==
              var s := SliceOf(t, c);
              NOTHING.(nodes := Total(s.nodes), onDemandNodes := Count(s.nodes, "ondemand"),
                       spotNodes := Count(s.nodes, "spot"),
                       pods := Total(s.pods), scheduledPods := Count(s.pods, "true"),
                       unscheduledPods := Count(s.pods, "false"))
  {
  }

  /** The folds over all clusters agree with the folds over one: there is a summary for each cluster
      that some query mentions, and it is what the passes for that cluster alone compute from its
      slices. */
  lemma AllClustersAgreeWithEach(t: Tables, c: string)
    ensures AllSummaries(t).Keys == Clusters(t)
    ensures SummaryAt(AllSummaries(t), c) == SummaryOf(SliceOf(t, c))
  {
    hide AllSummaries, SummaryAt, Total, Count, AmountOf, Apply, ResourcePart, RowOf;
    SummaryKeys(t);
    SummaryIsPasses(t, c);
    ApplyCounts(t, c);
    var s2 := Apply(Apply(NOTHING, t.nodes, NodesPart, c), t.pods, PodsPart, c);
    ApplyResource(s2, t.total, ResourceTotal, c);
    var s3 := Apply(s2, t.total, ResourcePart(ResourceTotal), c);
    ApplyResource(s3, t.usage, Usage, c);
    var s4 := Apply(s3, t.usage, ResourcePart(Usage), c);
    ApplyResource(s4, t.request, Request, c);
    var s5 := Apply(s4, t.request, ResourcePart(Request), c);
    ApplyResource(s5, t.available, Available, c);
    var s6 := Apply(s5, t.available, ResourcePart(Available), c);
    ApplyResource(s6, t.systemTaken, SystemTaken, c);
  }

  lemma {:induction false} TotalNonNegative(m: map<string, int>)
    requires forall k | k in m :: 0 <= m[k]
    ensures 0 <= Total(m)
    ensures Total(m) == 0 <==> forall k | k in m :: m[k] == 0
    decreases |m|
  {
    if m != map[] {
      var k :| k in m;
      TotalRemove(m, k);
      TotalNonNegative(m - {k});
      assert forall j | j in m && j != k :: j in m - {k} && (m - {k})[j] == m[j];
    }
  }

  /** On-demand and spot nodes are at most all nodes, and exactly all of them when no node is
      billed in another way. */
  lemma BillingModesBound(m: map<string, int>)
    requires forall k | k in m :: 0 <= m[k]
    ensures Count(m, "ondemand") + Count(m, "spot") <= Total(m)
    ensures Count(m, "ondemand") + Count(m, "spot") == Total(m)
            <==> forall k | k in m && k != "ondemand" && k != "spot" :: m[k] == 0
  {
    var rest := m - {"ondemand"} - {"spot"};
    if "ondemand" in m {
      TotalRemove(m, "ondemand");
    } else {
      assert m - {"ondemand"} == m;
    }
    if "spot" in m {
      TotalRemove(m - {"ondemand"}, "spot");
    } else {
      assert rest == m - {"ondemand"};
    }
    TotalNonNegative(rest);
    assert forall k | k in rest :: rest[k] == m[k];
  }
}
