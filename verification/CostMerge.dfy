/** What the merge passes of the analyzer compute, on values: the series of one workload are keyed
    by its text key and by timestamp. */
module CostMerge {
  import opened Kube

  const HOUR_IN_SECONDS := 3600.0
  const METRICS_PERIOD_IN_SECONDS := 15.0

  datatype Detail = Detail(timestamp: int, podCount: real, cpuRequest: real, cpuUsage: real,
                           ramRequest: real, ramUsage: real, totalCost: real)

  datatype Field = PodCount | CpuRequest | CpuUsage | RamRequest | RamUsage

  type Row = map<int, Detail>
  type Rows = map<string, Row>
  type Samples = map<int, real>
  type Series = map<string, Samples>

  /** Which field a pass writes, how it scales a sample, and the pod count of a new record. */
  datatype Pass = Pass(field: Field, scale: real -> real, newPodCount: real)

  /** A range loop visits the remaining keys in any order. */
  method NextKey<K>(todo: set<K>) returns (k: K)
    requires todo != {}
    ensures k in todo
  {
    k :| k in todo;
  }

  function Fresh(ts: int, podCount: real): Detail {
    Detail(ts, podCount, 0.0, 0.0, 0.0, 0.0, 0.0)
  }

  function Write(d: Detail, f: Field, v: real): Detail {
    match f
    case PodCount => d.(podCount := v)
    case CpuRequest => d.(cpuRequest := v)
    case CpuUsage => d.(cpuUsage := v)
    case RamRequest => d.(ramRequest := v)
    case RamUsage => d.(ramUsage := v)
  }

  function Cell(row: Row, ts: int, podCount: real): Detail {
    if ts in row then row[ts] else Fresh(ts, podCount)
  }

  function MergeRow(row: Row, samples: Samples, pass: Pass): Row {
    map ts | ts in row.Keys + samples.Keys ::
      if ts in samples then Write(Cell(row, ts, pass.newPodCount), pass.field, pass.scale(samples[ts])) else row[ts]
  }

  function RowAt(rows: Rows, k: string): Row { if k in rows then rows[k] else map[] }

  function SamplesAt(series: Series, k: string): Samples { if k in series then series[k] else map[] }

  function Merge(rows: Rows, series: Series, pass: Pass): Rows {
    map k | k in rows.Keys + series.Keys :: MergeRow(RowAt(rows, k), SamplesAt(series, k), pass)
  }

  /** The first pass replaces the row of every workload it has costs for. */
  function CostRow(samples: Samples, podCount: real): Row {
    map ts | ts in samples :: Fresh(ts, podCount).(totalCost := samples[ts])
  }

  function MergeTotalCost(rows: Rows, totalCosts: Series, podCount: real): Rows {
    map k | k in rows.Keys + totalCosts.Keys ::
      if k in totalCosts then CostRow(totalCosts[k], podCount) else rows[k]
  }

  /** The two ways in which the analyzer scales a sum of samples to an average. */
  function PerStepTimesHour(step: int): real -> real
    requires step != 0
  {
    v => v / (step as real) * HOUR_IN_SECONDS
  }

  function PerStepHours(step: int): real -> real
    requires step != 0
  {
    v => v / (step as real / HOUR_IN_SECONDS)
  }

  function PerStepSamples(step: int): real -> real
    requires step != 0
  {
    v => v / (step as real / METRICS_PERIOD_IN_SECONDS)
  }

  // ----- The merged table -----

  datatype Inputs = Inputs(totalCosts: Series, podCount: Series, cpuRequest: Series, ramRequest: Series,
                           cpuUsage: Series, ramUsage: Series)

  function PodPass(f: Field, step: int): Pass
    requires step != 0
  {
    Pass(f, PerStepTimesHour(step), 1.0)
  }

  function WorkloadPass(f: Field, step: int): Pass
    requires step != 0
  {
    Pass(f, if f == PodCount then PerStepSamples(step) else PerStepHours(step), 0.0)
  }

  function PodTable(i: Inputs, step: int): Rows
    requires step != 0
  {
    var t0 := MergeTotalCost(map[], i.totalCosts, 1.0);
    var t1 := Merge(t0, i.cpuRequest, PodPass(CpuRequest, step));
    var t2 := Merge(t1, i.ramRequest, PodPass(RamRequest, step));
    var t3 := Merge(t2, i.cpuUsage, PodPass(CpuUsage, step));
    Merge(t3, i.ramUsage, PodPass(RamUsage, step))
  }

  function WorkloadTable(i: Inputs, step: int): Rows
    requires step != 0
  {
    var t0 := MergeTotalCost(map[], i.totalCosts, 0.0);
    var t1 := Merge(t0, i.podCount, WorkloadPass(PodCount, step));
    var t2 := Merge(t1, i.cpuRequest, WorkloadPass(CpuRequest, step));
    var t3 := Merge(t2, i.ramRequest, WorkloadPass(RamRequest, step));
    var t4 := Merge(t3, i.cpuUsage, WorkloadPass(CpuUsage, step));
    Merge(t4, i.ramUsage, WorkloadPass(RamUsage, step))
  }

  // ----- The full outer join, defined without passes -----

  function Sample(s: Series, k: string, ts: int, scale: real -> real): real {
    if k in s && ts in s[k] then scale(s[k][ts]) else 0.0
  }

  function Keys(i: Inputs): set<string> {
    i.totalCosts.Keys + i.podCount.Keys + i.cpuRequest.Keys + i.ramRequest.Keys + i.cpuUsage.Keys + i.ramUsage.Keys
  }

  function Timestamps(i: Inputs, k: string): set<int> {
    SamplesAt(i.totalCosts, k).Keys + SamplesAt(i.podCount, k).Keys + SamplesAt(i.cpuRequest, k).Keys
    + SamplesAt(i.ramRequest, k).Keys + SamplesAt(i.cpuUsage, k).Keys + SamplesAt(i.ramUsage, k).Keys
  }

  function JoinedDetail(i: Inputs, k: string, ts: int, podCount: real, scale: real -> real): Detail {
    Detail(ts, podCount, Sample(i.cpuRequest, k, ts, scale), Sample(i.cpuUsage, k, ts, scale),
           Sample(i.ramRequest, k, ts, scale), Sample(i.ramUsage, k, ts, scale), Sample(i.totalCosts, k, ts, x => x))
  }

  function PodJoin(i: Inputs, step: int): Rows
    requires step != 0
  {
    map k | k in Keys(i) :: map ts | ts in Timestamps(i, k) :: JoinedDetail(i, k, ts, 1.0, PerStepTimesHour(step))
  }

  function WorkloadJoin(i: Inputs, step: int): Rows
    requires step != 0
  {
    map k | k in Keys(i) :: map ts | ts in Timestamps(i, k) ::
      JoinedDetail(i, k, ts, Sample(i.podCount, k, ts, PerStepSamples(step)), PerStepHours(step))
  }

  // ----- Tables cell by cell -----

  function At(rows: Rows, k: string, ts: int): Option<Detail> {
    if k in rows && ts in rows[k] then Some(rows[k][ts]) else None
  }

  function SampleAt(s: Series, k: string, ts: int): Option<real> {
    if k in s && ts in s[k] then Some(s[k][ts]) else None
  }

  /** What a pass does to one cell: nothing without a sample, otherwise find or create and write. */
  function MergeCell(cell: Option<Detail>, sample: Option<real>, pass: Pass, ts: int): Option<Detail> {
    if sample.None? then cell
    else
      var d := if cell.Some? then cell.value else Fresh(ts, pass.newPodCount);
      Some(Write(d, pass.field, pass.scale(sample.value)))
  }

  function CostCell(sample: Option<real>, podCount: real, ts: int): Option<Detail> {
    if sample.None? then None else Some(Fresh(ts, podCount).(totalCost := sample.value))
  }

  lemma MergeAt(rows: Rows, s: Series, pass: Pass, k: string, ts: int)
    ensures At(Merge(rows, s, pass), k, ts) == MergeCell(At(rows, k, ts), SampleAt(s, k, ts), pass, ts)
  {
  }

  lemma CostAt(totalCosts: Series, podCount: real, k: string, ts: int)
    ensures At(MergeTotalCost(map[], totalCosts, podCount), k, ts)
         == CostCell(SampleAt(totalCosts, k, ts), podCount, ts)
  {
  }

  lemma SameCellsSameTable(a: Rows, b: Rows)
    requires a.Keys == b.Keys && forall k, ts :: At(a, k, ts) == At(b, k, ts)
    ensures a == b
  {
    forall k | k in a ensures a[k] == b[k] {
      forall ts ensures ts in a[k] <==> ts in b[k]
                ensures ts in a[k] ==> a[k][ts] == b[k][ts] {
        assert At(a, k, ts) == At(b, k, ts);
      }
    }
  }

  /** One cell of the pod table, pass by pass. */
  function PodCell(i: Inputs, step: int, k: string, ts: int): Option<Detail>
    requires step != 0
  {
    var c0 := CostCell(SampleAt(i.totalCosts, k, ts), 1.0, ts);
    var c1 := MergeCell(c0, SampleAt(i.cpuRequest, k, ts), PodPass(CpuRequest, step), ts);
    var c2 := MergeCell(c1, SampleAt(i.ramRequest, k, ts), PodPass(RamRequest, step), ts);
    var c3 := MergeCell(c2, SampleAt(i.cpuUsage, k, ts), PodPass(CpuUsage, step), ts);
    MergeCell(c3, SampleAt(i.ramUsage, k, ts), PodPass(RamUsage, step), ts)
  }

  /** One cell of the workload table, pass by pass. */
  function WorkloadCell(i: Inputs, step: int, k: string, ts: int): Option<Detail>
    requires step != 0
  {
    var c0 := CostCell(SampleAt(i.totalCosts, k, ts), 0.0, ts);
    var c1 := MergeCell(c0, SampleAt(i.podCount, k, ts), WorkloadPass(PodCount, step), ts);
    var c2 := MergeCell(c1, SampleAt(i.cpuRequest, k, ts), WorkloadPass(CpuRequest, step), ts);
    var c3 := MergeCell(c2, SampleAt(i.ramRequest, k, ts), WorkloadPass(RamRequest, step), ts);
    var c4 := MergeCell(c3, SampleAt(i.cpuUsage, k, ts), WorkloadPass(CpuUsage, step), ts);
    MergeCell(c4, SampleAt(i.ramUsage, k, ts), WorkloadPass(RamUsage, step), ts)
  }

  lemma PodTableCell(i: Inputs, step: int, k: string, ts: int)
    requires step != 0
    ensures At(PodTable(i, step), k, ts) == PodCell(i, step, k, ts)
  {
    hide Merge, MergeTotalCost, At, MergeCell, CostCell, SampleAt, PodPass;
    var t0 := MergeTotalCost(map[], i.totalCosts, 1.0);
    var t1 := Merge(t0, i.cpuRequest, PodPass(CpuRequest, step));
    var t2 := Merge(t1, i.ramRequest, PodPass(RamRequest, step));
    var t3 := Merge(t2, i.cpuUsage, PodPass(CpuUsage, step));
    CostAt(i.totalCosts, 1.0, k, ts);
    MergeAt(t0, i.cpuRequest, PodPass(CpuRequest, step), k, ts);
    MergeAt(t1, i.ramRequest, PodPass(RamRequest, step), k, ts);
    MergeAt(t2, i.cpuUsage, PodPass(CpuUsage, step), k, ts);
    MergeAt(t3, i.ramUsage, PodPass(RamUsage, step), k, ts);
  }

  function OrZero(o: Option<real>, scale: real -> real): real {
    if o.Some? then scale(o.value) else 0.0
  }

  /** The chain of find-or-create steps, told at once. */
  lemma ChainIsDetail(ts: int, init: real, sc: real -> real,
                      c: Option<real>, a: Option<real>, b: Option<real>, u: Option<real>, m: Option<real>)
    ensures var c1 := MergeCell(CostCell(c, init, ts), a, Pass(CpuRequest, sc, init), ts);
            var c2 := MergeCell(c1, b, Pass(RamRequest, sc, init), ts);
            var c3 := MergeCell(c2, u, Pass(CpuUsage, sc, init), ts);
            MergeCell(c3, m, Pass(RamUsage, sc, init), ts) ==
            if c == a == b == u == m == None then None
            else Some(Detail(ts, init, OrZero(a, sc), OrZero(u, sc), OrZero(b, sc), OrZero(m, sc), OrZero(c, x => x)))
  {
  }

  lemma PodJoinCell(i: Inputs, step: int, k: string, ts: int)
    requires step != 0 && i.podCount == map[]
    ensures At(PodJoin(i, step), k, ts) == PodCell(i, step, k, ts)
  {
    JoinCell(i, k, ts);
    assert At(PodJoin(i, step), k, ts) ==
      if ts in Timestamps(i, k) then Some(JoinedDetail(i, k, ts, 1.0, PerStepTimesHour(step))) else None;
    hide MergeCell, CostCell, SampleAt, Timestamps, PodJoin, At, PerStepTimesHour;
    ChainIsDetail(ts, 1.0, PerStepTimesHour(step), SampleAt(i.totalCosts, k, ts), SampleAt(i.cpuRequest, k, ts),
                  SampleAt(i.ramRequest, k, ts), SampleAt(i.cpuUsage, k, ts), SampleAt(i.ramUsage, k, ts));
    SampleOrZero(i, k, ts, PerStepTimesHour(step));
  }

  lemma JoinCell(i: Inputs, k: string, ts: int)
    ensures ts in Timestamps(i, k) <==>
            || SampleAt(i.totalCosts, k, ts).Some? || SampleAt(i.podCount, k, ts).Some?
            || SampleAt(i.cpuRequest, k, ts).Some? || SampleAt(i.ramRequest, k, ts).Some?
            || SampleAt(i.cpuUsage, k, ts).Some? || SampleAt(i.ramUsage, k, ts).Some?
    ensures ts in Timestamps(i, k) ==> k in Keys(i)
    ensures i.podCount == map[] ==> SampleAt(i.podCount, k, ts).None?
  {
  }

  lemma SampleOrZero(i: Inputs, k: string, ts: int, sc: real -> real)
    ensures Sample(i.cpuRequest, k, ts, sc) == OrZero(SampleAt(i.cpuRequest, k, ts), sc)
    ensures Sample(i.ramRequest, k, ts, sc) == OrZero(SampleAt(i.ramRequest, k, ts), sc)
    ensures Sample(i.cpuUsage, k, ts, sc) == OrZero(SampleAt(i.cpuUsage, k, ts), sc)
    ensures Sample(i.ramUsage, k, ts, sc) == OrZero(SampleAt(i.ramUsage, k, ts), sc)
    ensures Sample(i.totalCosts, k, ts, x => x) == OrZero(SampleAt(i.totalCosts, k, ts), x => x)
  {
  }

  lemma WorkloadTableCell(i: Inputs, step: int, k: string, ts: int)
    requires step != 0
    ensures At(WorkloadTable(i, step), k, ts) == WorkloadCell(i, step, k, ts)
  {
    hide Merge, MergeTotalCost, At, MergeCell, CostCell, SampleAt, WorkloadPass;
    var t0 := MergeTotalCost(map[], i.totalCosts, 0.0);
    var t1 := Merge(t0, i.podCount, WorkloadPass(PodCount, step));
    var t2 := Merge(t1, i.cpuRequest, WorkloadPass(CpuRequest, step));
    var t3 := Merge(t2, i.ramRequest, WorkloadPass(RamRequest, step));
    var t4 := Merge(t3, i.cpuUsage, WorkloadPass(CpuUsage, step));
    CostAt(i.totalCosts, 0.0, k, ts);
    MergeAt(t0, i.podCount, WorkloadPass(PodCount, step), k, ts);
    MergeAt(t1, i.cpuRequest, WorkloadPass(CpuRequest, step), k, ts);
    MergeAt(t2, i.ramRequest, WorkloadPass(RamRequest, step), k, ts);
    MergeAt(t3, i.cpuUsage, WorkloadPass(CpuUsage, step), k, ts);
    MergeAt(t4, i.ramUsage, WorkloadPass(RamUsage, step), k, ts);
  }

  lemma WorkloadChainIsDetail(ts: int, count: real -> real, sc: real -> real, c: Option<real>, p: Option<real>,
                              a: Option<real>, b: Option<real>, u: Option<real>, m: Option<real>)
    ensures var c1 := MergeCell(CostCell(c, 0.0, ts), p, Pass(PodCount, count, 0.0), ts);
            var c2 := MergeCell(c1, a, Pass(CpuRequest, sc, 0.0), ts);
            var c3 := MergeCell(c2, b, Pass(RamRequest, sc, 0.0), ts);
            var c4 := MergeCell(c3, u, Pass(CpuUsage, sc, 0.0), ts);
            MergeCell(c4, m, Pass(RamUsage, sc, 0.0), ts) ==
            if c == p == a == b == u == m == None then None
            else Some(Detail(ts, OrZero(p, count), OrZero(a, sc), OrZero(u, sc), OrZero(b, sc), OrZero(m, sc),
                             OrZero(c, x => x)))
  {
  }

  lemma WorkloadJoinCell(i: Inputs, step: int, k: string, ts: int)
    requires step != 0
    ensures At(WorkloadJoin(i, step), k, ts) == WorkloadCell(i, step, k, ts)
  {
    WorkloadJoinAt(i, step, k, ts);
    JoinCell(i, k, ts);
    SampleOrZero(i, k, ts, PerStepHours(step));
    hide MergeCell, CostCell, SampleAt, Timestamps, WorkloadJoin, At, PerStepHours, PerStepSamples, Sample;
    WorkloadChainIsDetail(ts, PerStepSamples(step), PerStepHours(step),
                          SampleAt(i.totalCosts, k, ts), SampleAt(i.podCount, k, ts), SampleAt(i.cpuRequest, k, ts),
                          SampleAt(i.ramRequest, k, ts), SampleAt(i.cpuUsage, k, ts), SampleAt(i.ramUsage, k, ts));
  }

  lemma WorkloadJoinAt(i: Inputs, step: int, k: string, ts: int)
    requires step != 0
    ensures At(WorkloadJoin(i, step), k, ts) ==
            if ts !in Timestamps(i, k) then None
            else
              var podCount := OrZero(SampleAt(i.podCount, k, ts), PerStepSamples(step));
              Some(JoinedDetail(i, k, ts, podCount, PerStepHours(step)))
  {
  }

  lemma MergeKeys(rows: Rows, s: Series, pass: Pass)
    ensures Merge(rows, s, pass).Keys == rows.Keys + s.Keys
  {
  }

  lemma PodKeys(i: Inputs, step: int)
    requires step != 0
    ensures PodTable(i, step).Keys
         == i.totalCosts.Keys + i.cpuRequest.Keys + i.ramRequest.Keys + i.cpuUsage.Keys + i.ramUsage.Keys
  {
    var t0 := MergeTotalCost(map[], i.totalCosts, 1.0);
    assert t0.Keys == i.totalCosts.Keys;
    hide Merge, MergeTotalCost, PodPass;
    var t1 := Merge(t0, i.cpuRequest, PodPass(CpuRequest, step));
    var t2 := Merge(t1, i.ramRequest, PodPass(RamRequest, step));
    var t3 := Merge(t2, i.cpuUsage, PodPass(CpuUsage, step));
    MergeKeys(t0, i.cpuRequest, PodPass(CpuRequest, step));
    MergeKeys(t1, i.ramRequest, PodPass(RamRequest, step));
    MergeKeys(t2, i.cpuUsage, PodPass(CpuUsage, step));
    MergeKeys(t3, i.ramUsage, PodPass(RamUsage, step));
  }

  lemma WorkloadKeys(i: Inputs, step: int)
    requires step != 0
    ensures WorkloadTable(i, step).Keys == Keys(i)
  {
    var t0 := MergeTotalCost(map[], i.totalCosts, 0.0);
    assert t0.Keys == i.totalCosts.Keys;
    hide Merge, MergeTotalCost, WorkloadPass;
    var t1 := Merge(t0, i.podCount, WorkloadPass(PodCount, step));
    var t2 := Merge(t1, i.cpuRequest, WorkloadPass(CpuRequest, step));
    var t3 := Merge(t2, i.ramRequest, WorkloadPass(RamRequest, step));
    var t4 := Merge(t3, i.cpuUsage, WorkloadPass(CpuUsage, step));
    MergeKeys(t0, i.podCount, WorkloadPass(PodCount, step));
    MergeKeys(t1, i.cpuRequest, WorkloadPass(CpuRequest, step));
    MergeKeys(t2, i.ramRequest, WorkloadPass(RamRequest, step));
    MergeKeys(t3, i.cpuUsage, WorkloadPass(CpuUsage, step));
    MergeKeys(t4, i.ramUsage, WorkloadPass(RamUsage, step));
  }

  lemma JoinKeys(i: Inputs, step: int)
    requires step != 0
    ensures PodJoin(i, step).Keys == Keys(i) && WorkloadJoin(i, step).Keys == Keys(i)
  {
  }

  lemma KeysWithoutPodCount(i: Inputs)
    requires i.podCount == map[]
    ensures Keys(i) == i.totalCosts.Keys + i.cpuRequest.Keys + i.ramRequest.Keys + i.cpuUsage.Keys + i.ramUsage.Keys
  {
  }

  // ----- Main results -----

  /** The pod passes build the full outer join of their inputs. */
  lemma PodPassesJoin(i: Inputs, step: int)
    requires step != 0 && i.podCount == map[]
    ensures PodTable(i, step) == PodJoin(i, step)
  {
    hide *;
    PodKeys(i, step);
    JoinKeys(i, step);
    KeysWithoutPodCount(i);
    forall k, ts ensures At(PodTable(i, step), k, ts) == At(PodJoin(i, step), k, ts) {
      PodTableCell(i, step, k, ts);
      PodJoinCell(i, step, k, ts);
    }
    SameCellsSameTable(PodTable(i, step), PodJoin(i, step));
  }

  /** The passes over high-level workloads build the full outer join of their inputs. */
  lemma WorkloadPassesJoin(i: Inputs, step: int)
    requires step != 0
    ensures WorkloadTable(i, step) == WorkloadJoin(i, step)
  {
    hide *;
    WorkloadKeys(i, step);
    JoinKeys(i, step);
    forall k, ts ensures At(WorkloadTable(i, step), k, ts) == At(WorkloadJoin(i, step), k, ts) {
      WorkloadTableCell(i, step, k, ts);
      WorkloadJoinCell(i, step, k, ts);
    }
    SameCellsSameTable(WorkloadTable(i, step), WorkloadJoin(i, step));
  }

  lemma CellWritesCommute(c: Option<Detail>, a: Option<real>, p: Pass, b: Option<real>, q: Pass, ts: int)
    requires p.field != q.field && p.newPodCount == q.newPodCount
    ensures MergeCell(MergeCell(c, a, p, ts), b, q, ts) == MergeCell(MergeCell(c, b, q, ts), a, p, ts)
  {
  }

  /** Passes that write different fields commute: the merged table does not depend on their order. */
  lemma PassesCommute(rows: Rows, a: Series, p: Pass, b: Series, q: Pass)
    requires p.field != q.field && p.newPodCount == q.newPodCount
    ensures Merge(Merge(rows, a, p), b, q) == Merge(Merge(rows, b, q), a, p)
  {
    var x, y := Merge(Merge(rows, a, p), b, q), Merge(Merge(rows, b, q), a, p);
    assert x.Keys == y.Keys;
    hide *;
    forall k, ts ensures At(x, k, ts) == At(y, k, ts) {
      MergeAt(rows, a, p, k, ts);
      MergeAt(Merge(rows, a, p), b, q, k, ts);
      MergeAt(rows, b, q, k, ts);
      MergeAt(Merge(rows, b, q), a, p, k, ts);
      CellWritesCommute(At(rows, k, ts), SampleAt(a, k, ts), p, SampleAt(b, k, ts), q, ts);
    }
    SameCellsSameTable(x, y);
  }

  /** For a positive step the two ways of scaling are the same. */
  lemma ScalingsAgree(step: int, v: real)
    requires step != 0
    ensures PerStepTimesHour(step)(v) == PerStepHours(step)(v)
  {
  }

  // ----- The joins, told from the series alone -----

  predicate HasKey(i: Inputs, k: string) {
    || k in i.totalCosts || k in i.podCount || k in i.cpuRequest || k in i.ramRequest
    || k in i.cpuUsage || k in i.ramUsage
  }

  predicate Has(s: Series, k: string, ts: int) { k in s && ts in s[k] }

  predicate HasSample(i: Inputs, k: string, ts: int) {
    || Has(i.totalCosts, k, ts) || Has(i.podCount, k, ts) || Has(i.cpuRequest, k, ts) || Has(i.ramRequest, k, ts)
    || Has(i.cpuUsage, k, ts) || Has(i.ramUsage, k, ts)
  }

  /** A sum of resource hours becomes a number of resources. */
  ghost predicate Hours(v: real, s: Series, k: string, ts: int, step: int)
    requires step != 0
  {
    v == if Has(s, k, ts) then s[k][ts] / (step as real) * 3600.0 else 0.0
  }

  ghost predicate HoldsSamples(d: Detail, i: Inputs, k: string, ts: int, step: int)
    requires step != 0
  {
    && d.timestamp == ts
    && Hours(d.cpuRequest, i.cpuRequest, k, ts, step) && Hours(d.ramRequest, i.ramRequest, k, ts, step)
    && Hours(d.cpuUsage, i.cpuUsage, k, ts, step) && Hours(d.ramUsage, i.ramUsage, k, ts, step)
    && d.totalCost == if Has(i.totalCosts, k, ts) then i.totalCosts[k][ts] else 0.0
  }

  /** There is a row for every key and a record for every sample, and it holds the samples. */
  ghost predicate HoldsInputs(t: Rows, i: Inputs, step: int)
    requires step != 0
  {
    && (forall k :: k in t <==> HasKey(i, k))
    && (forall k, ts | k in t :: ts in t[k] <==> HasSample(i, k, ts))
    && forall k, ts | k in t && ts in t[k] :: HoldsSamples(t[k][ts], i, k, ts, step)
  }

  /** A pod counts as one; for other workloads, a sum of counts becomes a number of pods. */
  ghost predicate CountsPods(t: Rows, i: Inputs, step: int, pods: bool)
    requires step != 0
  {
    forall k, ts | k in t && ts in t[k] ::
      t[k][ts].podCount ==
      if pods then 1.0
      else if Has(i.podCount, k, ts) then i.podCount[k][ts] / (step as real / 15.0)
      else 0.0
  }

  lemma HoursScaled(s: Series, k: string, ts: int, step: int)
    requires step != 0
    ensures Hours(Sample(s, k, ts, PerStepTimesHour(step)), s, k, ts, step)
    ensures Hours(Sample(s, k, ts, PerStepHours(step)), s, k, ts, step)
  {
    if Has(s, k, ts) {
      ScalingsAgree(step, s[k][ts]);
    }
  }

  lemma JoinedHoldsSamples(i: Inputs, k: string, ts: int, podCount: real, step: int)
    requires step != 0
    ensures HoldsSamples(JoinedDetail(i, k, ts, podCount, PerStepTimesHour(step)), i, k, ts, step)
    ensures HoldsSamples(JoinedDetail(i, k, ts, podCount, PerStepHours(step)), i, k, ts, step)
  {
    HoursScaled(i.cpuRequest, k, ts, step);
    HoursScaled(i.ramRequest, k, ts, step);
    HoursScaled(i.cpuUsage, k, ts, step);
    HoursScaled(i.ramUsage, k, ts, step);
    hide Hours, PerStepTimesHour, PerStepHours;
  }

  /** The three clauses, cell by cell. */
  ghost predicate HoldsCell(t: Rows, i: Inputs, k: string, ts: int, step: int)
    requires step != 0
  {
    && (k in t <==> HasKey(i, k))
    && (k in t ==> (ts in t[k] <==> HasSample(i, k, ts)))
    && (k in t && ts in t[k] ==> HoldsSamples(t[k][ts], i, k, ts, step))
  }

  lemma CellsHoldInputs(t: Rows, i: Inputs, step: int)
    requires step != 0 && forall k, ts :: HoldsCell(t, i, k, ts, step)
    ensures HoldsInputs(t, i, step)
  {
    hide HasKey, HasSample, HoldsSamples;
    forall k ensures k in t <==> HasKey(i, k) {
      assert HoldsCell(t, i, k, 0, step);
    }
    forall k, ts | k in t ensures ts in t[k] <==> HasSample(i, k, ts) {
      assert HoldsCell(t, i, k, ts, step);
    }
    forall k, ts | k in t && ts in t[k] ensures HoldsSamples(t[k][ts], i, k, ts, step) {
      assert HoldsCell(t, i, k, ts, step);
    }
  }

  lemma TimestampsOfSamples(i: Inputs, k: string, ts: int)
    ensures k in Keys(i) <==> HasKey(i, k)
    ensures ts in Timestamps(i, k) <==> HasSample(i, k, ts)
  {
  }

  lemma PodCellHolds(i: Inputs, step: int, k: string, ts: int)
    requires step != 0
    ensures HoldsCell(PodJoin(i, step), i, k, ts, step)
    ensures k in PodJoin(i, step) && ts in PodJoin(i, step)[k] ==> PodJoin(i, step)[k][ts].podCount == 1.0
  {
    TimestampsOfSamples(i, k, ts);
    JoinedHoldsSamples(i, k, ts, 1.0, step);
    hide HasKey, HasSample, Keys, Timestamps, HoldsSamples, PerStepTimesHour, Sample;
  }

  lemma WorkloadCellHolds(i: Inputs, step: int, k: string, ts: int)
    requires step != 0
    ensures HoldsCell(WorkloadJoin(i, step), i, k, ts, step)
    ensures k in WorkloadJoin(i, step) && ts in WorkloadJoin(i, step)[k] ==>
              WorkloadJoin(i, step)[k][ts].podCount ==
              if Has(i.podCount, k, ts) then i.podCount[k][ts] / (step as real / 15.0) else 0.0
  {
    TimestampsOfSamples(i, k, ts);
    JoinedHoldsSamples(i, k, ts, Sample(i.podCount, k, ts, PerStepSamples(step)), step);
    hide HasKey, HasSample, Keys, Timestamps, HoldsSamples, PerStepHours;
  }

  /** The join of the pod series, in terms of the series. */
  lemma PodJoinHoldsInputs(i: Inputs, step: int)
    requires step != 0
    ensures HoldsInputs(PodJoin(i, step), i, step) && CountsPods(PodJoin(i, step), i, step, true)
  {
    hide HoldsCell, PodJoin;
    forall k, ts
      ensures HoldsCell(PodJoin(i, step), i, k, ts, step)
      ensures k in PodJoin(i, step) && ts in PodJoin(i, step)[k] ==> PodJoin(i, step)[k][ts].podCount == 1.0
    {
      PodCellHolds(i, step, k, ts);
    }
    CellsHoldInputs(PodJoin(i, step), i, step);
    hide HoldsInputs;
  }

  /** The join of the series of other workloads, in terms of the series. */
  lemma WorkloadJoinHoldsInputs(i: Inputs, step: int)
    requires step != 0
    ensures HoldsInputs(WorkloadJoin(i, step), i, step) && CountsPods(WorkloadJoin(i, step), i, step, false)
  {
    hide HoldsCell, WorkloadJoin;
    forall k, ts
      ensures HoldsCell(WorkloadJoin(i, step), i, k, ts, step)
      ensures k in WorkloadJoin(i, step) && ts in WorkloadJoin(i, step)[k] ==>
                WorkloadJoin(i, step)[k][ts].podCount ==
                if Has(i.podCount, k, ts) then i.podCount[k][ts] / (step as real / 15.0) else 0.0
    {
      WorkloadCellHolds(i, step, k, ts);
    }
    CellsHoldInputs(WorkloadJoin(i, step), i, step);
    hide HoldsInputs;
  }
}
