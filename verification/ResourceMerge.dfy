/** What the passes over the cluster resource costs compute, on values: one record per timestamp. */
module ResourceMerge {
  import opened Kube
  import opened CostMerge

  datatype ResourceCost = ResourceCost(
    timestamp: int, totalCost: real, onDemand: real, spot: real, fallback: real,
    cpuCount: real, cpuUsage: real, cpuCost: real, ramCount: real, ramUsage: real, ramCost: real)

  type Table = map<int, ResourceCost>

  datatype Slot = OnDemand | Spot | Fallback | CpuCost | RamCost | CpuCount | RamCount | CpuUse | RamUse | NoSlot

  function New(ts: int): ResourceCost {
    ResourceCost(ts, 0.0, 0.0, 0.0, 0.0, 0.0, 0.0, 0.0, 0.0, 0.0, 0.0)
  }

  function Put(c: ResourceCost, slot: Slot, v: real): ResourceCost {
    match slot
    case OnDemand => c.(onDemand := v)
    case Spot => c.(spot := v)
    case Fallback => c.(fallback := v)
    case CpuCost => c.(cpuCost := v)
    case RamCost => c.(ramCost := v)
    case CpuCount => c.(cpuCount := v)
    case RamCount => c.(ramCount := v)
    case CpuUse => c.(cpuUsage := v)
    case RamUse => c.(ramUsage := v)
    case NoSlot => c
  }

  /** One series and the slot it is written to. Samples of an unsupported billing mode create
      their records but are not written anywhere. */
  datatype Feed = Feed(slot: Slot, samples: Samples)

  function Cell(t: Table, ts: int): Option<ResourceCost> {
    if ts in t then Some(t[ts]) else None
  }

  /** What one feed does to one cell. */
  function FeedCell(c: Option<ResourceCost>, f: Feed, ts: int): Option<ResourceCost> {
    if ts !in f.samples then c
    else Some(Put(if c.Some? then c.value else New(ts), f.slot, f.samples[ts]))
  }

  function FeedTable(t: Table, f: Feed): Table {
    map ts | ts in t.Keys + f.samples.Keys :: FeedCell(Cell(t, ts), f, ts).value
  }

  function FeedAll(t: Table, fs: seq<Feed>): Table {
    if fs == [] then t else FeedTable(FeedAll(t, fs[..|fs| - 1]), fs[|fs| - 1])
  }

  lemma FeedTableCell(t: Table, f: Feed, ts: int)
    ensures Cell(FeedTable(t, f), ts) == FeedCell(Cell(t, ts), f, ts)
  {
  }

  lemma SameCells(a: Table, b: Table)
    requires forall ts :: Cell(a, ts) == Cell(b, ts)
    ensures a == b
  {
    forall ts ensures ts in a <==> ts in b
              ensures ts in a ==> a[ts] == b[ts] {
      assert Cell(a, ts) == Cell(b, ts);
    }
  }

  // ----- Order does not matter -----

  /** Series for the same slot must be one series; series for different slots are independent. */
  ghost predicate OneFeedPerSlot(fs: seq<Feed>) {
    forall i, j | 0 <= i < |fs| && 0 <= j < |fs| && fs[i].slot == fs[j].slot && fs[i].slot != NoSlot ::
      fs[i] == fs[j]
  }

  /** The value of a slot after a list of feeds, without running them: that of its feed, if it has
      a sample, otherwise that of the record before, if there is one, otherwise zero. */
  ghost predicate HasSample(fs: seq<Feed>, slot: Slot, ts: int) {
    exists i :: 0 <= i < |fs| && fs[i].slot == slot && ts in fs[i].samples
  }

  ghost predicate Touched(fs: seq<Feed>, ts: int) {
    exists i :: 0 <= i < |fs| && ts in fs[i].samples
  }

  ghost function SampleOf(fs: seq<Feed>, slot: Slot, ts: int): real
    requires HasSample(fs, slot, ts)
  {
    var i :| 0 <= i < |fs| && fs[i].slot == slot && ts in fs[i].samples;
    fs[i].samples[ts]
  }

  function Value(c: ResourceCost, slot: Slot): real {
    match slot
    case OnDemand => c.onDemand
    case Spot => c.spot
    case Fallback => c.fallback
    case CpuCost => c.cpuCost
    case RamCost => c.ramCost
    case CpuCount => c.cpuCount
    case RamCount => c.ramCount
    case CpuUse => c.cpuUsage
    case RamUse => c.ramUsage
    case NoSlot => 0.0
  }

  lemma PutValue(c: ResourceCost, slot: Slot, v: real, other: Slot)
    ensures Value(Put(c, slot, v), other) == if slot == other && slot != NoSlot then v else Value(c, other)
    ensures Put(c, slot, v).timestamp == c.timestamp && Put(c, slot, v).totalCost == c.totalCost
  {
  }

  lemma SameValues(a: ResourceCost, b: ResourceCost)
    requires a.timestamp == b.timestamp && a.totalCost == b.totalCost
    requires forall slot :: Value(a, slot) == Value(b, slot)
    ensures a == b
  {
    assert Value(a, OnDemand) == Value(b, OnDemand) && Value(a, Spot) == Value(b, Spot);
    assert Value(a, Fallback) == Value(b, Fallback) && Value(a, CpuCost) == Value(b, CpuCost);
    assert Value(a, RamCost) == Value(b, RamCost) && Value(a, CpuCount) == Value(b, CpuCount);
    assert Value(a, RamCount) == Value(b, RamCount) && Value(a, CpuUse) == Value(b, CpuUse);
    assert Value(a, RamUse) == Value(b, RamUse);
  }

  /** What a cell holds after a list of feeds, slot by slot. */
  ghost predicate FedCell(t: Table, fs: seq<Feed>, ts: int, c: Option<ResourceCost>) {
    && (c.Some? <==> ts in t || Touched(fs, ts))
    && (c.Some? ==>
          var before := if ts in t then t[ts] else New(ts);
          && c.value.timestamp == before.timestamp && c.value.totalCost == before.totalCost
          && forall slot | slot != NoSlot :: Value(c.value, slot) ==
               if HasSample(fs, slot, ts) then SampleOf(fs, slot, ts) else Value(before, slot))
  }

  lemma FeedsOneMore(fs: seq<Feed>, ts: int)
    requires fs != [] && OneFeedPerSlot(fs)
    ensures var n := |fs| - 1;
            && OneFeedPerSlot(fs[..n])
            && (Touched(fs, ts) <==> Touched(fs[..n], ts) || ts in fs[n].samples)
            && forall slot | slot != NoSlot ::
                 && (HasSample(fs, slot, ts) <==>
                       HasSample(fs[..n], slot, ts) || (fs[n].slot == slot && ts in fs[n].samples))
                 && (HasSample(fs[..n], slot, ts) ==> SampleOf(fs[..n], slot, ts) == SampleOf(fs, slot, ts))
                 && (fs[n].slot == slot && ts in fs[n].samples ==> SampleOf(fs, slot, ts) == fs[n].samples[ts])
  {
  }

  lemma FeedOneMore(t: Table, fs: seq<Feed>, ts: int, c: Option<ResourceCost>)
    requires fs != [] && OneFeedPerSlot(fs) && FedCell(t, fs[..|fs| - 1], ts, c)
    ensures FedCell(t, fs, ts, FeedCell(c, fs[|fs| - 1], ts))
  {
    FeedsOneMore(fs, ts);
    var last := fs[|fs| - 1];
    if ts in last.samples {
      var r := if c.Some? then c.value else New(ts);
      forall slot ensures Value(Put(r, last.slot, last.samples[ts]), slot) ==
                          if last.slot == slot && slot != NoSlot then last.samples[ts] else Value(r, slot) {
        PutValue(r, last.slot, last.samples[ts], slot);
      }
      hide Put, Value, SampleOf, HasSample, Touched, OneFeedPerSlot;
    }
  }

  lemma {:induction false} FeedAllCell(t: Table, fs: seq<Feed>, ts: int)
    requires OneFeedPerSlot(fs)
    ensures FedCell(t, fs, ts, Cell(FeedAll(t, fs), ts))
  {
    if fs != [] {
      var n := |fs| - 1;
      FeedsOneMore(fs, ts);
      FeedAllCell(t, fs[..n], ts);
      FeedTableCell(FeedAll(t, fs[..n]), fs[n], ts);
      FeedOneMore(t, fs, ts, Cell(FeedAll(t, fs[..n]), ts));
    }
  }

  lemma FedCellIsUnique(t: Table, fs: seq<Feed>, ts: int, c: Option<ResourceCost>, d: Option<ResourceCost>)
    requires FedCell(t, fs, ts, c) && FedCell(t, fs, ts, d)
    ensures c == d
  {
    if c.Some? && d.Some? {
      forall slot ensures Value(c.value, slot) == Value(d.value, slot) {
        if slot == NoSlot {
        }
      }
      SameValues(c.value, d.value);
    }
  }

  // ----- The passes of the analyzer -----

  datatype Inputs = Inputs(totalCosts: Samples, billing: map<string, Samples>, resourceCosts: map<string, Samples>,
                           cpuTotal: Samples, ramTotal: Samples, cpuUsage: Samples, ramUsage: Samples)

  function SlotOfMode(mode: string): Slot {
    if mode == "ondemand" then OnDemand else if mode == "spot" then Spot
    else if mode == "fallback" then Fallback else NoSlot
  }

  function Scaled(s: Samples, step: int): Samples
    requires step != 0
  {
    map ts | ts in s :: PerStepTimesHour(step)(s[ts])
  }

  /** All feeds of the six passes after the total-cost pass. */
  function Feeds(i: Inputs, step: int): set<Feed>
    requires step != 0
  {
    BillingFeeds(i.billing) + ResourceFeeds(i.resourceCosts)
    + {Feed(CpuCount, Scaled(i.cpuTotal, step)), Feed(RamCount, Scaled(i.ramTotal, step)),
       Feed(CpuUse, Scaled(i.cpuUsage, step)), Feed(RamUse, Scaled(i.ramUsage, step))}
  }

  function BillingFeeds(billing: map<string, Samples>): set<Feed> {
    set m | m in billing :: Feed(SlotOfMode(m), billing[m])
  }

  /** Series other than "cpu" and "memory" are ignored. */
  function ResourceFeeds(costs: map<string, Samples>): set<Feed> {
    (if "cpu" in costs then {Feed(CpuCost, costs["cpu"])} else {})
    + (if "memory" in costs then {Feed(RamCost, costs["memory"])} else {})
  }

  /** The total-cost pass replaces the record of every timestamp it has a sample for. */
  function TotalTable(t: Table, totalCosts: Samples): Table {
    map ts | ts in t.Keys + totalCosts.Keys ::
      if ts in totalCosts then New(ts).(totalCost := totalCosts[ts]) else t[ts]
  }

  function Source(i: Inputs, step: int, slot: Slot): Option<Samples>
    requires step != 0
  {
    match slot
    case OnDemand => Lookup(i.billing, "ondemand")
    case Spot => Lookup(i.billing, "spot")
    case Fallback => Lookup(i.billing, "fallback")
    case CpuCost => Lookup(i.resourceCosts, "cpu")
    case RamCost => Lookup(i.resourceCosts, "memory")
    case CpuCount => Some(Scaled(i.cpuTotal, step))
    case RamCount => Some(Scaled(i.ramTotal, step))
    case CpuUse => Some(Scaled(i.cpuUsage, step))
    case RamUse => Some(Scaled(i.ramUsage, step))
    case NoSlot => None
  }

  function Lookup(m: map<string, Samples>, k: string): Option<Samples> {
    if k in m then Some(m[k]) else None
  }

  function SlotValue(i: Inputs, step: int, slot: Slot, ts: int): real
    requires step != 0
  {
    var s := Source(i, step, slot);
    if s.Some? && ts in s.value then s.value[ts] else 0.0
  }

  /** All timestamps of the feeds. */
  function FedAt(i: Inputs, step: int): set<int>
    requires step != 0
  {
    set f, ts | f in Feeds(i, step) && ts in f.samples :: ts
  }

  function JoinedRecord(i: Inputs, step: int, ts: int): ResourceCost
    requires step != 0
  {
    ResourceCost(ts, if ts in i.totalCosts then i.totalCosts[ts] else 0.0,
                 SlotValue(i, step, OnDemand, ts), SlotValue(i, step, Spot, ts), SlotValue(i, step, Fallback, ts),
                 SlotValue(i, step, CpuCount, ts), SlotValue(i, step, CpuUse, ts), SlotValue(i, step, CpuCost, ts),
                 SlotValue(i, step, RamCount, ts), SlotValue(i, step, RamUse, ts), SlotValue(i, step, RamCost, ts))
  }

  /** The merged table as one function of the seven inputs. */
  function Joined(i: Inputs, step: int): Table
    requires step != 0
  {
    map ts | ts in i.totalCosts.Keys + FedAt(i, step) :: JoinedRecord(i, step, ts)
  }

  lemma JoinedValue(i: Inputs, step: int, slot: Slot, ts: int)
    requires step != 0 && slot != NoSlot
    ensures Value(JoinedRecord(i, step, ts), slot) == SlotValue(i, step, slot, ts)
  {
  }

  /** A slot other than none has at most the one feed of its source. */
  lemma FeedOfSlot(i: Inputs, step: int, f: Feed)
    requires step != 0 && f.slot != NoSlot
    ensures f in Feeds(i, step) <==> Source(i, step, f.slot) == Some(f.samples)
  {
    hide Scaled;
    match f.slot
    case OnDemand =>
      assert "ondemand" in i.billing ==> Feed(SlotOfMode("ondemand"), i.billing["ondemand"]) in BillingFeeds(i.billing);
    case Spot =>
      assert "spot" in i.billing ==> Feed(SlotOfMode("spot"), i.billing["spot"]) in BillingFeeds(i.billing);
    case Fallback =>
      assert "fallback" in i.billing ==> Feed(SlotOfMode("fallback"), i.billing["fallback"]) in BillingFeeds(i.billing);
    case _ =>
  }

  ghost predicate AllFeeds(fs: seq<Feed>, i: Inputs, step: int)
    requires step != 0
  {
    forall f :: f in fs <==> f in Feeds(i, step)
  }

  lemma FeedsBySource(fs: seq<Feed>, i: Inputs, step: int, ts: int)
    requires step != 0 && AllFeeds(fs, i, step)
    ensures OneFeedPerSlot(fs)
    ensures forall slot | slot != NoSlot ::
              && (HasSample(fs, slot, ts) <==> Source(i, step, slot).Some? && ts in Source(i, step, slot).value)
              && (HasSample(fs, slot, ts) ==> SampleOf(fs, slot, ts) == SlotValue(i, step, slot, ts))
  {
    hide Source, Feeds;
    forall x, y | 0 <= x < |fs| && 0 <= y < |fs| && fs[x].slot == fs[y].slot && fs[x].slot != NoSlot
      ensures fs[x] == fs[y]
    {
      assert fs[x] in fs && fs[y] in fs;
      FeedOfSlot(i, step, fs[x]);
      FeedOfSlot(i, step, fs[y]);
    }
    forall slot | slot != NoSlot
      ensures HasSample(fs, slot, ts) <==> Source(i, step, slot).Some? && ts in Source(i, step, slot).value
      ensures HasSample(fs, slot, ts) ==> SampleOf(fs, slot, ts) == SlotValue(i, step, slot, ts)
    {
      if HasSample(fs, slot, ts) {
        var x :| && 0 <= x < |fs| && fs[x].slot == slot && ts in fs[x].samples
                 && SampleOf(fs, slot, ts) == fs[x].samples[ts];
        assert fs[x] in fs;
        FeedOfSlot(i, step, fs[x]);
      }
      if Source(i, step, slot).Some? && ts in Source(i, step, slot).value {
        var f := Feed(slot, Source(i, step, slot).value);
        FeedOfSlot(i, step, f);
        var x :| 0 <= x < |fs| && fs[x] == f;
      }
    }
  }

  lemma JoinedSlots(fs: seq<Feed>, i: Inputs, step: int, ts: int)
    requires step != 0 && AllFeeds(fs, i, step)
    ensures forall slot | slot != NoSlot :: Value(JoinedRecord(i, step, ts), slot) ==
              if HasSample(fs, slot, ts) then SampleOf(fs, slot, ts) else 0.0
  {
    hide JoinedRecord, Value, Feeds, AllFeeds, HasSample, SampleOf, Source, OneFeedPerSlot;
    FeedsBySource(fs, i, step, ts);
    forall slot | slot != NoSlot
      ensures Value(JoinedRecord(i, step, ts), slot) ==
              if HasSample(fs, slot, ts) then SampleOf(fs, slot, ts) else 0.0
    {
      JoinedValue(i, step, slot, ts);
    }
  }

  lemma JoinedCellIsFed(fs: seq<Feed>, i: Inputs, step: int, ts: int)
    requires step != 0 && AllFeeds(fs, i, step)
    ensures FedCell(TotalTable(map[], i.totalCosts), fs, ts, Cell(Joined(i, step), ts))
  {
    hide Feeds, AllFeeds, HasSample, SampleOf, Value, Touched, FedAt, SlotValue;
    JoinedSlots(fs, i, step, ts);
    TouchedByFeeds(fs, i, step, ts);
    var before := if ts in i.totalCosts then New(ts).(totalCost := i.totalCosts[ts]) else New(ts);
    forall slot ensures Value(before, slot) == 0.0 {
      NewValue(before, slot);
    }
  }

  lemma NewValue(c: ResourceCost, slot: Slot)
    requires c.(totalCost := 0.0) == New(c.timestamp)
    ensures Value(c, slot) == 0.0
  {
  }

  lemma TouchedByFeeds(fs: seq<Feed>, i: Inputs, step: int, ts: int)
    requires step != 0 && AllFeeds(fs, i, step)
    ensures Touched(fs, ts) <==> ts in FedAt(i, step)
  {
  }

  /** The passes after the total-cost pass may run in any order, over maps in any iteration order,
      and even repeatedly: the merged table is one function of the seven inputs. */
  lemma OrderOfPassesIsIrrelevant(fs: seq<Feed>, i: Inputs, step: int)
    requires step != 0 && AllFeeds(fs, i, step)
    ensures FeedAll(TotalTable(map[], i.totalCosts), fs) == Joined(i, step)
  {
    hide *;
    var t := TotalTable(map[], i.totalCosts);
    forall ts ensures Cell(FeedAll(t, fs), ts) == Cell(Joined(i, step), ts) {
      FeedsBySource(fs, i, step, ts);
      FeedAllCell(t, fs, ts);
      JoinedCellIsFed(fs, i, step, ts);
      FedCellIsUnique(t, fs, ts, Cell(FeedAll(t, fs), ts), Cell(Joined(i, step), ts));
    }
    SameCells(FeedAll(t, fs), Joined(i, step));
  }

  /** The total-cost pass must come first: behind another pass it gives the same table if and only
      if that pass has nothing but zeros at the timestamps of the total costs. */
  lemma TotalCostsMustComeFirst(t: Table, totalCosts: Samples, f: Feed)
    requires f.slot != NoSlot
    ensures TotalTable(FeedTable(t, f), totalCosts) == FeedTable(TotalTable(t, totalCosts), f)
            <==> forall ts | ts in totalCosts && ts in f.samples :: f.samples[ts] == 0.0
  {
    var a, b := TotalTable(FeedTable(t, f), totalCosts), FeedTable(TotalTable(t, totalCosts), f);
    forall ts ensures Cell(a, ts) == Cell(b, ts) <==> !(ts in totalCosts && ts in f.samples && f.samples[ts] != 0.0) {
      TotalCellOrder(t, totalCosts, f, ts);
    }
    hide TotalTable, FeedTable;
    if forall ts | ts in totalCosts && ts in f.samples :: f.samples[ts] == 0.0 {
      SameCells(a, b);
    }
  }

  lemma TotalCellOrder(t: Table, totalCosts: Samples, f: Feed, ts: int)
    requires f.slot != NoSlot
    ensures Cell(TotalTable(FeedTable(t, f), totalCosts), ts) == Cell(FeedTable(TotalTable(t, totalCosts), f), ts)
            <==> !(ts in totalCosts && ts in f.samples && f.samples[ts] != 0.0)
  {
    FeedTableCell(TotalTable(t, totalCosts), f, ts);
    FeedTableCell(t, f, ts);
    hide FeedTable;
    if ts in totalCosts && ts in f.samples {
      var total := New(ts).(totalCost := totalCosts[ts]);
      PutValue(total, f.slot, f.samples[ts], f.slot);
      PutZero(total, f.slot);
    }
  }

  lemma PutZero(c: ResourceCost, slot: Slot)
    requires Value(c, slot) == 0.0
    ensures Put(c, slot, 0.0) == c
  {
  }
}
