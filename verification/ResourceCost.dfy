/** The passes over the cluster resource costs as the analyzer runs them, on mutable records. */
module ResourceCosts {
  import opened Kube
  import opened CostMerge
  import opened ResourceMerge
  import opened TimedLists
  import Averages

  /** One `ClusterResourceCost`, with the timestamp it was created for. */
  class CostRecord {
    ghost const ts: int
    var cost: ResourceCost

    constructor (ts: int)
      ensures this.ts == ts && cost == New(ts)
    {
      this.ts := ts;
      cost := New(ts);
    }
  }

  type Rows = map<int, CostRecord>
  type Store = map<CostRecord, ResourceCost>

  ghost predicate Placed(rows: Rows, store: Store) {
    forall ts | ts in rows :: rows[ts] in store && rows[ts].ts == ts
  }

  ghost function ViewOf(rows: Rows, store: Store): Table
    requires Placed(rows, store)
  {
    map ts | ts in rows :: store[rows[ts]]
  }

  /** Storing a value in one record changes the row of that record only. */
  lemma StoreOne(rows: Rows, store: Store, ts: int, r: CostRecord, c: ResourceCost)
    requires Placed(rows, store) && r.ts == ts
    ensures Placed(rows[ts := r], store[r := c])
    ensures ViewOf(rows[ts := r], store[r := c]) == ViewOf(rows, store)[ts := c]
  {
    forall t | t in rows && t != ts ensures rows[t] != r {
    }
  }

  class ResourceCostTable {
    var rows: Rows
    ghost var Repr: set<CostRecord>

    ghost function Stored(): Store
      reads this, Repr
    {
      map r | r in Repr :: r.cost
    }

    ghost predicate Valid()
      reads this, Repr
    {
      Placed(rows, Stored())
    }

    ghost function View(): Table
      requires Valid()
      reads this, Repr
    {
      ViewOf(rows, Stored())
    }

    constructor ()
      ensures Valid() && Repr == {} && View() == map[]
    {
      rows, Repr := map[], {};
    }

    /** A new record at a timestamp, in place of the old one if there is one. */
    method NewRecord(ts: int, c: ResourceCost)
      requires Valid()
      modifies this
      ensures Valid() && old(Repr) <= Repr && fresh(Repr - old(Repr)) && ts in rows
      ensures View() == old(View())[ts := c]
    {
      ghost var stored := Stored();
      var r := new CostRecord(ts);
      r.cost := c;
      StoreOne(rows, stored, ts, r, c);
      rows := rows[ts := r];
      Repr := Repr + {r};
      assert Stored() == stored[r := c];
    }

    /** Find or create the record of a timestamp and write one slot of it in place. */
    method WriteSlot(ts: int, slot: Slot, v: real)
      requires Valid()
      modifies this, Repr
      ensures Valid() && old(Repr) <= Repr && fresh(Repr - old(Repr))
      ensures View() == old(View())[ts := Put(if ts in old(View()) then old(View())[ts] else New(ts), slot, v)]
    {
      ghost var t := View();
      if ts !in rows {
        NewRecord(ts, New(ts));
      }
      var r := rows[ts];
      ghost var stored := Stored();
      StoreOne(rows, stored, ts, r, Put(r.cost, slot, v));
      assert rows[ts := r] == rows;
      r.cost := Put(r.cost, slot, v);
      assert Stored() == stored[r := r.cost];
    }

    /** One loop over a series. */
    method MergeSeries(slot: Slot, samples: Samples, scale: real -> real)
      requires Valid()
      modifies this, Repr
      ensures Valid() && old(Repr) <= Repr && fresh(Repr - old(Repr))
      ensures View() == FeedTable(old(View()), Feed(slot, map ts | ts in samples :: scale(samples[ts])))
    {
      ghost var t := View();
      ghost var scaled := map ts | ts in samples :: scale(samples[ts]);
      hide View, Valid, FeedTable, Put;
      NothingFed(t, slot, scaled);
      var todo := samples.Keys;
      while todo != {}
        invariant todo <= samples.Keys
        invariant Valid() && old(Repr) <= Repr && fresh(Repr - old(Repr))
        invariant View() == FeedTable(t, Feed(slot, scaled - todo))
        decreases todo
      {
        var ts := NextKey(todo);
        FeedOneSample(t, slot, scaled, todo, ts);
        WriteSlot(ts, slot, scale(samples[ts]));
        todo := todo - {ts};
      }
    }

    /** One loop over a series of costs, which are not scaled. */
    method MergeCosts(slot: Slot, costs: Samples)
      requires Valid()
      modifies this, Repr
      ensures Valid() && old(Repr) <= Repr && fresh(Repr - old(Repr))
      ensures View() == FeedTable(old(View()), Feed(slot, costs))
    {
      hide *;
      Unscaled(costs);
      MergeSeries(slot, costs, v => v);
    }

    method ParseResourceTotalCost(totalCosts: Samples)
      requires Valid()
      modifies this
      ensures Valid() && old(Repr) <= Repr && fresh(Repr - old(Repr))
      ensures View() == TotalTable(old(View()), totalCosts)
    {
      ghost var t := View();
      hide View, Valid, TotalTable;
      NoTotals(t, totalCosts);
      var todo := totalCosts.Keys;
      while todo != {}
        invariant todo <= totalCosts.Keys
        invariant Valid() && old(Repr) <= Repr && fresh(Repr - old(Repr))
        invariant View() == TotalTable(t, totalCosts - todo)
        decreases todo
      {
        var ts := NextKey(todo);
        OneMoreTotal(t, totalCosts, todo, ts);
        NewRecord(ts, New(ts).(totalCost := totalCosts[ts]));
        todo := todo - {ts};
      }
    }

    /** The billing-mode pass, mode by mode in any order. */
    method ParseResourceBillingModeCost(billing: map<string, Samples>) returns (ghost fs: seq<Feed>)
      requires Valid()
      modifies this, Repr
      ensures Valid() && old(Repr) <= Repr && fresh(Repr - old(Repr))
      ensures View() == FeedAll(old(View()), fs)
      ensures forall f :: f in fs <==> f in BillingFeeds(billing)
    {
      ghost var t := View();
      assert billing - billing.Keys == map[];
      assert BillingFeeds(billing - billing.Keys) == {} && FeedAll(t, []) == t;
      hide View, Valid, FeedTable, FeedAll, BillingFeeds;
      fs := [];
      var todo := billing.Keys;
      while todo != {}
        invariant todo <= billing.Keys
        invariant Valid() && old(Repr) <= Repr && fresh(Repr - old(Repr))
        invariant View() == FeedAll(t, fs)
        invariant forall f :: f in fs <==> f in BillingFeeds(billing - todo)
        decreases todo
      {
        var mode := NextKey(todo);
        MergeCosts(SlotOfMode(mode), billing[mode]);
        ghost var f := Feed(SlotOfMode(mode), billing[mode]);
        FeedSnoc(t, fs, f);
        fs := fs + [f];
        OneMoreMode(billing, todo, mode);
        todo := todo - {mode};
      }
      assert billing - {} == billing;
    }

    /** The CPU and memory cost pass, series by series in any order. */
    method ParseNodeResourceTotalCost(costs: map<string, Samples>) returns (ghost fs: seq<Feed>)
      requires Valid()
      modifies this, Repr
      ensures Valid() && old(Repr) <= Repr && fresh(Repr - old(Repr))
      ensures View() == FeedAll(old(View()), fs)
      ensures forall f :: f in fs <==> f in ResourceFeeds(costs)
    {
      ghost var t := View();
      assert costs - costs.Keys == map[];
      assert ResourceFeeds(costs - costs.Keys) == {} && FeedAll(t, []) == t;
      hide View, Valid, FeedTable, FeedAll, ResourceFeeds;
      fs := [];
      var todo := costs.Keys;
      while todo != {}
        invariant todo <= costs.Keys
        invariant Valid() && old(Repr) <= Repr && fresh(Repr - old(Repr))
        invariant View() == FeedAll(t, fs)
        invariant forall f :: f in fs <==> f in ResourceFeeds(costs - todo)
        decreases todo
      {
        var resourceType := NextKey(todo);
        if resourceType == "cpu" || resourceType == "memory" {
          var slot := if resourceType == "cpu" then CpuCost else RamCost;
          MergeCosts(slot, costs[resourceType]);
          ghost var f := Feed(slot, costs[resourceType]);
          FeedSnoc(t, fs, f);
          fs := fs + [f];
        }
        OneMoreResource(costs, todo, resourceType);
        todo := todo - {resourceType};
      }
      assert costs - {} == costs;
    }

    /** The records in the order of time; the iteration order of the map does not matter. The list
        shares the records of the table. */
    method ConvertToList() returns (items: seq<CostRecord>, ghost values: seq<ResourceCost>)
      requires Valid() && Stamped(View(), RecordTime)
      ensures Lists(values, View(), RecordTime) && |items| == |values|
      ensures forall j | 0 <= j < |items| :: values[j].timestamp in rows && items[j] == rows[values[j].timestamp]
      ensures forall j | 0 <= j < |items| :: items[j].cost == values[j]
    {
      var costs := map ts | ts in rows :: rows[ts].cost;
      assert costs == View();
      var sorted := CollectDetails(costs, RecordTime);
      forall j | 0 <= j < |sorted| ensures sorted[j].timestamp in rows && costs[sorted[j].timestamp] == sorted[j] {
        assert sorted[j] in sorted;
      }
      var records := rows;
      items := seq(|sorted|, j requires 0 <= j < |sorted| => records[sorted[j].timestamp]);
      values := sorted;
    }
  }

  function RecordTime(c: ResourceCost): int { c.timestamp }

  lemma NothingFed(t: Table, slot: Slot, samples: Samples)
    ensures FeedTable(t, Feed(slot, samples - samples.Keys)) == t
    ensures samples - {} == samples
  {
  }

  lemma FeedOneSample(t: Table, slot: Slot, samples: Samples, todo: set<int>, ts: int)
    requires ts in todo && todo <= samples.Keys
    ensures var part := FeedTable(t, Feed(slot, samples - todo));
            FeedTable(t, Feed(slot, samples - (todo - {ts}))) ==
            part[ts := Put(if ts in part then part[ts] else New(ts), slot, samples[ts])]
  {
  }

  lemma NoTotals(t: Table, totalCosts: Samples)
    ensures TotalTable(t, totalCosts - totalCosts.Keys) == t
    ensures totalCosts - {} == totalCosts
  {
  }

  lemma OneMoreTotal(t: Table, totalCosts: Samples, todo: set<int>, ts: int)
    requires ts in todo && todo <= totalCosts.Keys
    ensures TotalTable(t, totalCosts - (todo - {ts}))
         == TotalTable(t, totalCosts - todo)[ts := New(ts).(totalCost := totalCosts[ts])]
  {
  }

  lemma Unscaled(samples: Samples)
    ensures (map ts | ts in samples :: (v => v)(samples[ts])) == samples
  {
  }

  lemma OneMoreMode(billing: map<string, Samples>, todo: set<string>, mode: string)
    requires mode in todo && todo <= billing.Keys
    ensures BillingFeeds(billing - (todo - {mode}))
         == BillingFeeds(billing - todo) + {Feed(SlotOfMode(mode), billing[mode])}
  {
  }

  lemma OneMoreResource(costs: map<string, Samples>, todo: set<string>, r: string)
    requires r in todo && todo <= costs.Keys
    ensures ResourceFeeds(costs - (todo - {r})) == ResourceFeeds(costs - todo)
            + (if r == "cpu" then {Feed(CpuCost, costs[r])}
               else if r == "memory" then {Feed(RamCost, costs[r])} else {})
  {
  }

  lemma FeedSnoc(t: Table, fs: seq<Feed>, f: Feed)
    ensures FeedAll(t, fs + [f]) == FeedTable(FeedAll(t, fs), f)
  {
    assert (fs + [f])[..|fs|] == fs;
  }

  lemma {:induction false} FeedConcat(t: Table, fs: seq<Feed>, gs: seq<Feed>)
    ensures FeedAll(t, fs + gs) == FeedAll(FeedAll(t, fs), gs)
  {
    if gs == [] {
      assert fs + gs == fs;
    } else {
      assert (fs + gs)[..|fs + gs| - 1] == fs + gs[..|gs| - 1];
      FeedConcat(t, fs, gs[..|gs| - 1]);
    }
  }

  lemma FeedFour(t: Table, a: Feed, b: Feed, c: Feed, d: Feed)
    ensures FeedAll(t, [a, b, c, d]) == FeedTable(FeedTable(FeedTable(FeedTable(t, a), b), c), d)
  {
    hide FeedTable;
    assert [a, b, c, d][..3] == [a, b, c] && [a, b, c][..2] == [a, b] && [a, b][..1] == [a] && [a][..0] == [];
    assert FeedAll(t, [a]) == FeedTable(t, a);
    assert FeedAll(t, [a, b]) == FeedTable(FeedTable(t, a), b);
    assert FeedAll(t, [a, b, c]) == FeedTable(FeedTable(FeedTable(t, a), b), c);
  }

  /** The seven passes in the order of the source. */
  method MergeClusterResourceCost(i: ResourceMerge.Inputs, stepSeconds: int) returns (table: ResourceCostTable)
    requires stepSeconds != 0
    ensures table.Valid() && table.View() == Joined(i, stepSeconds)
    ensures HoldsInputs(table.View(), i, stepSeconds)
  {
    table := new ResourceCostTable();
    hide FeedTable, TotalTable, Joined, ResourceFeeds, BillingFeeds, HoldsInputs;
    var scale := PerStepTimesHour(stepSeconds);
    table.ParseResourceTotalCost(i.totalCosts);
    ghost var t := table.View();
    ghost var fs := table.ParseResourceBillingModeCost(i.billing);
    ghost var gs := table.ParseNodeResourceTotalCost(i.resourceCosts);
    table.MergeSeries(CpuCount, i.cpuTotal, scale);
    table.MergeSeries(RamCount, i.ramTotal, scale);
    table.MergeSeries(CpuUse, i.cpuUsage, scale);
    table.MergeSeries(RamUse, i.ramUsage, scale);
    ghost var a, b := Feed(CpuCount, Scaled(i.cpuTotal, stepSeconds)), Feed(RamCount, Scaled(i.ramTotal, stepSeconds));
    ghost var c, d := Feed(CpuUse, Scaled(i.cpuUsage, stepSeconds)), Feed(RamUse, Scaled(i.ramUsage, stepSeconds));
    FeedFour(FeedAll(FeedAll(t, fs), gs), a, b, c, d);
    FeedConcat(t, fs, gs);
    FeedConcat(t, fs + gs, [a, b, c, d]);
    OrderOfPassesIsIrrelevant(fs + gs + [a, b, c, d], i, stepSeconds);
    JoinedHoldsInputs(i, stepSeconds);
  }

  lemma JoinedIsStamped(i: ResourceMerge.Inputs, step: int)
    requires step != 0
    ensures Stamped(Joined(i, step), RecordTime)
  {
  }

  /** The whole query, from the seven series to the list of records. */
  method QueryClusterResourceCosts(i: ResourceMerge.Inputs, stepSeconds: int)
    returns (items: seq<CostRecord>, ghost values: seq<ResourceCost>)
    requires stepSeconds != 0
    ensures Lists(values, Joined(i, stepSeconds), RecordTime) && HoldsInputs(Joined(i, stepSeconds), i, stepSeconds)
    ensures |items| == |values| && forall j | 0 <= j < |items| :: items[j].cost == values[j]
  {
    var table := MergeClusterResourceCost(i, stepSeconds);
    hide HoldsInputs, Joined, Stamped, Lists;
    JoinedIsStamped(i, stepSeconds);
    items, values := table.ConvertToList();
  }

  /** The list of a merged table is unique and gives the table back. */
  lemma ResourceListLosesNothing(items: seq<ResourceCost>, other: seq<ResourceCost>, i: ResourceMerge.Inputs, step: int)
    requires step != 0 && Lists(items, Joined(i, step), RecordTime)
    ensures ToRow(items, RecordTime) == Joined(i, step)
    ensures Lists(other, Joined(i, step), RecordTime) ==> other == items
  {
    ListedRow(items, Joined(i, step), RecordTime);
    if Lists(other, Joined(i, step), RecordTime) {
      ListIsUnique(items, other, Joined(i, step), RecordTime);
    }
  }

  // ----- The joined records, told from the seven series alone -----

  /** There is a record for every timestamp of any series. */
  predicate Sampled(i: ResourceMerge.Inputs, ts: int) {
    || ts in i.totalCosts || ts in i.cpuTotal || ts in i.ramTotal || ts in i.cpuUsage || ts in i.ramUsage
    || (exists mode :: mode in i.billing && ts in i.billing[mode])
    || ("cpu" in i.resourceCosts && ts in i.resourceCosts["cpu"])
    || ("memory" in i.resourceCosts && ts in i.resourceCosts["memory"])
  }

  ghost predicate Costs(v: real, series: map<string, Samples>, name: string, ts: int) {
    v == if name in series && ts in series[name] then series[name][ts] else 0.0
  }

  /** A count of resource hours becomes a count of resources. */
  ghost predicate Hours(v: real, series: Samples, ts: int, step: int)
    requires step != 0
  {
    v == if ts in series then series[ts] / (step as real) * 3600.0 else 0.0
  }

  ghost predicate HoldsSamples(c: ResourceCost, i: ResourceMerge.Inputs, step: int, ts: int)
    requires step != 0
  {
    && c.timestamp == ts && c.totalCost == (if ts in i.totalCosts then i.totalCosts[ts] else 0.0)
    && Costs(c.onDemand, i.billing, "ondemand", ts) && Costs(c.spot, i.billing, "spot", ts)
    && Costs(c.fallback, i.billing, "fallback", ts)
    && Costs(c.cpuCost, i.resourceCosts, "cpu", ts) && Costs(c.ramCost, i.resourceCosts, "memory", ts)
    && Hours(c.cpuCount, i.cpuTotal, ts, step) && Hours(c.cpuUsage, i.cpuUsage, ts, step)
    && Hours(c.ramCount, i.ramTotal, ts, step) && Hours(c.ramUsage, i.ramUsage, ts, step)
  }

  ghost predicate HoldsInputs(t: Table, i: ResourceMerge.Inputs, step: int)
    requires step != 0
  {
    && (forall ts :: ts in t <==> Sampled(i, ts))
    && forall ts | ts in t :: HoldsSamples(t[ts], i, step, ts)
  }

  lemma FedBy(i: ResourceMerge.Inputs, step: int, f: Feed, ts: int)
    requires step != 0 && f in Feeds(i, step) && ts in f.samples
    ensures ts in Joined(i, step) && Sampled(i, ts)
  {
    if m :| m in i.billing && f == Feed(SlotOfMode(m), i.billing[m]) {
      assert ts in i.billing[m];
    }
  }

  lemma JoinedIsSampled(i: ResourceMerge.Inputs, step: int, ts: int)
    requires step != 0
    ensures ts in Joined(i, step) <==> Sampled(i, ts)
  {
    forall f | f in Feeds(i, step) && ts in f.samples ensures ts in Joined(i, step) && Sampled(i, ts) {
      FedBy(i, step, f, ts);
    }
    if mode :| mode in i.billing && ts in i.billing[mode] {
      FedBy(i, step, Feed(SlotOfMode(mode), i.billing[mode]), ts);
    }
    if "cpu" in i.resourceCosts && ts in i.resourceCosts["cpu"] {
      FedBy(i, step, Feed(CpuCost, i.resourceCosts["cpu"]), ts);
    }
    if "memory" in i.resourceCosts && ts in i.resourceCosts["memory"] {
      FedBy(i, step, Feed(RamCost, i.resourceCosts["memory"]), ts);
    }
    if ts in i.cpuTotal { FedBy(i, step, Feed(CpuCount, Scaled(i.cpuTotal, step)), ts); }
    if ts in i.ramTotal { FedBy(i, step, Feed(RamCount, Scaled(i.ramTotal, step)), ts); }
    if ts in i.cpuUsage { FedBy(i, step, Feed(CpuUse, Scaled(i.cpuUsage, step)), ts); }
    if ts in i.ramUsage { FedBy(i, step, Feed(RamUse, Scaled(i.ramUsage, step)), ts); }
  }

  lemma ScaledHours(series: Samples, ts: int, step: int)
    requires step != 0
    ensures Hours(if ts in Scaled(series, step) then Scaled(series, step)[ts] else 0.0, series, ts, step)
  {
  }

  lemma RecordHoldsSamples(i: ResourceMerge.Inputs, step: int, ts: int)
    requires step != 0
    ensures HoldsSamples(JoinedRecord(i, step, ts), i, step, ts)
  {
    ScaledHours(i.cpuTotal, ts, step);
    ScaledHours(i.cpuUsage, ts, step);
    ScaledHours(i.ramTotal, ts, step);
    ScaledHours(i.ramUsage, ts, step);
    hide Hours, Scaled;
  }

  /** The joined table is the full outer join of the seven series. */
  lemma JoinedHoldsInputs(i: ResourceMerge.Inputs, step: int)
    requires step != 0
    ensures HoldsInputs(Joined(i, step), i, step)
  {
    hide Sampled, HoldsSamples, JoinedRecord, Feeds;
    forall ts ensures ts in Joined(i, step) <==> Sampled(i, ts) {
      JoinedIsSampled(i, step, ts);
    }
    forall ts | ts in Joined(i, step) ensures HoldsSamples(Joined(i, step)[ts], i, step, ts) {
      RecordHoldsSamples(i, step, ts);
    }
  }

  lemma HoursAreMeans(v: real, series: Samples, ts: int, step: int, shown: seq<Averages.Slots>, n: nat)
    requires n > 0 && step == 15 * n && Averages.Aligned(shown, n)
    requires ts in series && series[ts] == Averages.GroupHourQuery(shown) && Hours(v, series, ts, step)
    ensures v == Averages.Mean(Averages.SlotSums(shown, n))
  {
    Averages.QueriesAverage(shown, n, step);
    hide Averages.GroupHourQuery, Averages.Mean, Averages.SlotSums;
  }

  /** When the samples are answers to the hour query, over series with a sample slot every 15 seconds,
      the counts and usages in the records are means over the slots of the sums over the series. */
  lemma RecordsHoldMeans(t: Table, i: ResourceMerge.Inputs, step: int, ts: int, shown: seq<Averages.Slots>, n: nat)
    requires n > 0 && step == 15 * n && Averages.Aligned(shown, n) && HoldsInputs(t, i, step)
    ensures var q, mean := Averages.GroupHourQuery(shown), Averages.Mean(Averages.SlotSums(shown, n));
            && (ts in i.cpuTotal && i.cpuTotal[ts] == q ==> ts in t && t[ts].cpuCount == mean)
            && (ts in i.cpuUsage && i.cpuUsage[ts] == q ==> ts in t && t[ts].cpuUsage == mean)
            && (ts in i.ramTotal && i.ramTotal[ts] == q ==> ts in t && t[ts].ramCount == mean)
            && (ts in i.ramUsage && i.ramUsage[ts] == q ==> ts in t && t[ts].ramUsage == mean)
  {
    hide Averages.GroupHourQuery, Averages.Mean, Averages.SlotSums, Hours, Costs;
    var q := Averages.GroupHourQuery(shown);
    assert ts in i.cpuTotal || ts in i.cpuUsage || ts in i.ramTotal || ts in i.ramUsage ==> Sampled(i, ts);
    if ts in i.cpuTotal && i.cpuTotal[ts] == q { HoursAreMeans(t[ts].cpuCount, i.cpuTotal, ts, step, shown, n); }
    if ts in i.cpuUsage && i.cpuUsage[ts] == q { HoursAreMeans(t[ts].cpuUsage, i.cpuUsage, ts, step, shown, n); }
    if ts in i.ramTotal && i.ramTotal[ts] == q { HoursAreMeans(t[ts].ramCount, i.ramTotal, ts, step, shown, n); }
    if ts in i.ramUsage && i.ramUsage[ts] == q { HoursAreMeans(t[ts].ramUsage, i.ramUsage, ts, step, shown, n); }
  }
}
