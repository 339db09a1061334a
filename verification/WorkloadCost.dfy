/** The merge passes as the analyzer runs them: over a map of maps to shared, mutable records. */
module WorkloadCost {
  import opened Kube
  import opened CostMerge

  /** One `ClusterWorkloadCostDetail`, with the cell it was created for. */
  class CostDetail {
    ghost const key: string
    ghost const ts: int
    var detail: Detail

    constructor (ghost key: string, ts: int, detail: Detail)
      ensures this.key == key && this.ts == ts && this.detail == detail
    {
      this.key, this.ts, this.detail := key, ts, detail;
    }
  }

  type Cells = map<string, map<int, CostDetail>>

  type Store = map<CostDetail, Detail>

  ghost predicate Placed(cells: Cells, store: Store) {
    forall k, ts | k in cells && ts in cells[k] ::
      cells[k][ts] in store && cells[k][ts].key == k && cells[k][ts].ts == ts
  }

  ghost function ViewRow(row: map<int, CostDetail>, store: Store): Row
    requires forall ts | ts in row :: row[ts] in store
  {
    map ts | ts in row :: store[row[ts]]
  }

  /** What the records in the cells hold. */
  ghost function ViewOf(cells: Cells, store: Store): (rows: Rows)
    requires Placed(cells, store)
    ensures rows.Keys == cells.Keys
  {
    map k | k in cells :: ViewRow(cells[k], store)
  }

  lemma StoreElsewhere(row: map<int, CostDetail>, store: Store, d: CostDetail, v: Detail)
    requires forall ts | ts in row :: row[ts] in store && row[ts] != d
    ensures ViewRow(row, store[d := v]) == ViewRow(row, store)
  {
    var a, b := ViewRow(row, store[d := v]), ViewRow(row, store);
    assert a.Keys == b.Keys;
    forall ts | ts in row ensures a[ts] == b[ts] {
      assert row[ts] != d;
    }
  }

  lemma StoreInRow(row: map<int, CostDetail>, store: Store, ts: int, d: CostDetail, v: Detail)
    requires forall ts' | ts' in row :: row[ts'] in store && (ts' != ts ==> row[ts'] != d)
    ensures ViewRow(row[ts := d], store[d := v]) == ViewRow(row, store)[ts := v]
  {
    var a, b := ViewRow(row[ts := d], store[d := v]), ViewRow(row, store)[ts := v];
    assert a.Keys == b.Keys;
    forall ts' | ts' in row && ts' != ts ensures a[ts'] == b[ts'] {
      assert row[ts'] != d;
    }
  }

  lemma PlaceOne(cells: Cells, store: Store, k: string, ts: int, d: CostDetail, v: Detail)
    requires Placed(cells, store) && k in cells && d.key == k && d.ts == ts
    ensures Placed(cells[k := cells[k][ts := d]], store[d := v])
  {
  }

  lemma StoreOneRow(cells: Cells, store: Store, k: string, ts: int, d: CostDetail, v: Detail, k': string)
    requires Placed(cells, store) && k in cells && k' in cells && d.key == k && d.ts == ts
    requires Placed(cells[k := cells[k][ts := d]], store[d := v])
    ensures ViewOf(cells[k := cells[k][ts := d]], store[d := v])[k']
         == if k' == k then ViewOf(cells, store)[k][ts := v] else ViewOf(cells, store)[k']
  {
    if k' == k {
      StoreInRow(cells[k], store, ts, d, v);
    } else {
      StoreElsewhere(cells[k'], store, d, v);
    }
  }

  /** Storing a value in the record of one cell changes that cell only. */
  lemma StoreOne(cells: Cells, store: Store, k: string, ts: int, d: CostDetail, v: Detail)
    requires Placed(cells, store) && k in cells && d.key == k && d.ts == ts
    ensures var cells' := cells[k := cells[k][ts := d]];
            Placed(cells', store[d := v]) &&
            ViewOf(cells', store[d := v]) == ViewOf(cells, store)[k := ViewOf(cells, store)[k][ts := v]]
  {
    hide *;
    var cells', store' := cells[k := cells[k][ts := d]], store[d := v];
    PlaceOne(cells, store, k, ts, d, v);
    var rows, rows' := ViewOf(cells, store), ViewOf(cells', store');
    forall k' | k' in cells ensures rows'[k'] == if k' == k then rows[k][ts := v] else rows[k'] {
      StoreOneRow(cells, store, k, ts, d, v, k');
    }
  }

  lemma EmptyRow(cells: Cells, store: Store, k: string)
    requires Placed(cells, store)
    ensures Placed(cells[k := map[]], store)
    ensures ViewOf(cells[k := map[]], store) == ViewOf(cells, store)[k := map[]]
  {
  }

  /** In-place writes cannot leak: different cells have different records. */
  lemma RecordsUnshared(cells: Cells, store: Store, k: string, ts: int, k': string, ts': int)
    requires Placed(cells, store)
    requires k in cells && ts in cells[k] && k' in cells && ts' in cells[k']
    ensures cells[k][ts] == cells[k'][ts'] <==> k == k' && ts == ts'
  {
  }

  ghost predicate SameCells(cells: Cells, rows: Rows) {
    cells.Keys == rows.Keys && forall k | k in cells :: cells[k].Keys == rows[k].Keys
  }

  class CostTable {
    var cells: Cells
    ghost var Repr: set<CostDetail>

    ghost function Stored(): Store
      reads this, Repr
    {
      map d | d in Repr :: d.detail
    }

    /** A record sits in the cell it was created for, so no two cells share one. */
    ghost predicate Valid()
      reads this, Repr
    {
      Placed(cells, Stored())
    }

    ghost function View(): (rows: Rows)
      requires Valid()
      reads this, Repr
      ensures rows.Keys == cells.Keys
    {
      ViewOf(cells, Stored())
    }

    constructor ()
      ensures Valid() && Repr == {} && View() == map[]
    {
      cells, Repr := map[], {};
    }

    /** The contents of all records. */
    method Contents() returns (rows: Rows)
      requires Valid()
      ensures rows == View() && SameCells(cells, rows)
    {
      rows := map k | k in cells :: map ts | ts in cells[k] :: cells[k][ts].detail;
      assert forall k | k in cells :: rows[k] == ViewRow(cells[k], Stored());
    }

    /** `cells[k][ts] = &detail`: a cell gets a new record. */
    method NewCell(k: string, ts: int, detail: Detail)
      requires Valid() && k in cells
      modifies this
      ensures Valid() && old(Repr) <= Repr && fresh(Repr - old(Repr)) && k in cells && ts in cells[k]
      ensures cells == old(cells)[k := old(cells)[k][ts := cells[k][ts]]]
      ensures View() == old(View())[k := old(View())[k][ts := detail]]
    {
      hide ViewOf, Placed;
      ghost var stored := Stored();
      var d := new CostDetail(k, ts, detail);
      StoreOne(cells, stored, k, ts, d, detail);
      cells := cells[k := cells[k][ts := d]];
      Repr := Repr + {d};
      assert Stored() == stored[d := detail];
    }

    /** `cells[k][ts].field = v`: the record is written in place. */
    method WriteInPlace(k: string, ts: int, f: Field, v: real)
      requires Valid() && k in cells && ts in cells[k]
      modifies cells[k][ts]
      ensures Valid()
      ensures View() == old(View())[k := old(View())[k][ts := Write(old(View())[k][ts], f, v)]]
    {
      ghost var stored := Stored();
      var d := cells[k][ts];
      assert d in Repr && d.key == k && d.ts == ts;
      assert View()[k][ts] == d.detail;
      hide ViewOf, Placed, Write;
      StoreOne(cells, stored, k, ts, d, Write(d.detail, f, v));
      assert cells[k][ts := d] == cells[k];
      assert cells[k := cells[k]] == cells;
      d.detail := Write(d.detail, f, v);
      assert Stored() == stored[d := d.detail];
    }

    /** Find or create the record of a cell and write one of its fields; no other cell changes, and
        no existing cell changes its record. */
    method WriteCell(k: string, ts: int, f: Field, v: real, newPodCount: real)
      requires Valid() && k in cells
      modifies this, Repr
      ensures Valid() && old(Repr) <= Repr && fresh(Repr - old(Repr)) && Keeps(old(cells), cells) && k in cells
      ensures View() == old(View())[k := old(View())[k][ts := Write(Cell(old(View())[k], ts, newPodCount), f, v)]]
    {
      ghost var rows := View();
      assert ts in cells[k] <==> ts in rows[k];
      hide View, Valid, Write;
      if ts !in cells[k] {
        NewCell(k, ts, Fresh(ts, newPodCount));
      }
      WriteInPlace(k, ts, f, v);
      RewriteCell(rows, k, ts, Cell(rows[k], ts, newPodCount), Write(Cell(rows[k], ts, newPodCount), f, v));
    }

    /** `cells[k] = make(...)`: an empty row, new or in place of the old one. */
    method NewRow(k: string)
      requires Valid()
      modifies this
      ensures Valid() && Repr == old(Repr) && cells == old(cells)[k := map[]]
      ensures View() == old(View())[k := map[]]
    {
      ghost var stored := Stored();
      EmptyRow(cells, stored, k);
      cells := cells[k := map[]];
      assert Stored() == stored;
    }

    /** The inner loop of a pass: all samples of one workload. */
    method MergeSamples(k: string, samples: Samples, pass: Pass)
      requires Valid()
      modifies this, Repr
      ensures Valid() && old(Repr) <= Repr && fresh(Repr - old(Repr)) && Keeps(old(cells), cells)
      ensures View() == old(View())[k := MergeRow(RowAt(old(View()), k), samples, pass)]
    {
      ghost var rows := View();
      ghost var row := RowAt(rows, k);
      assert k in cells <==> k in rows;
      hide View, Valid, MergeRow, Write, Cell, Keeps;
      KeepsWithRow(cells, k);
      if k !in cells {
        NewRow(k);
      }
      NothingMerged(rows, k, samples, pass);
      var todo := samples.Keys;
      while todo != {}
        invariant todo <= samples.Keys
        invariant Valid() && k in cells && Keeps(old(cells), cells)
        invariant old(Repr) <= Repr && fresh(Repr - old(Repr))
        invariant View() == rows[k := MergeRow(row, samples - todo, pass)]
        decreases todo
      {
        var ts := NextKey(todo);
        ghost var before, part := cells, MergeRow(row, samples - todo, pass);
        MergeOneMore(row, samples, pass, todo, ts);
        WriteCell(k, ts, pass.field, pass.scale(samples[ts]), pass.newPodCount);
        Overwrite(rows, k, part, MergeRow(row, samples - (todo - {ts}), pass));
        KeepsTransitive(old(cells), before, cells);
        todo := todo - {ts};
      }
    }

    /** One pass: all workloads, in any order. */
    method MergeSeries(series: Series, pass: Pass)
      requires Valid()
      modifies this, Repr
      ensures Valid() && old(Repr) <= Repr && fresh(Repr - old(Repr)) && Keeps(old(cells), cells)
      ensures View() == Merge(old(View()), series, pass)
    {
      ghost var rows := View();
      hide View, Valid, Merge, MergeRow;
      NoSeriesMerged(rows, series, pass);
      var todo := series.Keys;
      while todo != {}
        invariant todo <= series.Keys
        invariant Valid() && Keeps(old(cells), cells)
        invariant old(Repr) <= Repr && fresh(Repr - old(Repr))
        invariant View() == Merge(rows, series - todo, pass)
        decreases todo
      {
        var k :| k in todo;
        MergeSeriesOneMore(rows, series, pass, todo, k);
        MergeSamples(k, series[k], pass);
        todo := todo - {k};
      }
    }

    /** The inner loop of the cost pass: a new row of new records. */
    method ReplaceRow(k: string, samples: Samples, podCount: real)
      requires Valid()
      modifies this
      ensures Valid() && old(Repr) <= Repr && fresh(Repr - old(Repr))
      ensures View() == old(View())[k := CostRow(samples, podCount)]
    {
      ghost var rows := View();
      hide View, Valid, CostRow;
      NoCosts(samples, podCount);
      NewRow(k);
      var todo := samples.Keys;
      while todo != {}
        invariant todo <= samples.Keys
        invariant Valid() && k in cells && old(Repr) <= Repr && fresh(Repr - old(Repr))
        invariant View() == rows[k := CostRow(samples - todo, podCount)]
        decreases todo
      {
        var ts := NextKey(todo);
        ghost var part := CostRow(samples - todo, podCount);
        CostRowOneMore(samples, podCount, todo, ts);
        NewCell(k, ts, Fresh(ts, podCount).(totalCost := samples[ts]));
        Overwrite(rows, k, part, CostRow(samples - (todo - {ts}), podCount));
        todo := todo - {ts};
      }
    }

    method MergeTotalCosts(totalCosts: Series, podCount: real)
      requires Valid()
      modifies this
      ensures Valid() && old(Repr) <= Repr && fresh(Repr - old(Repr))
      ensures View() == MergeTotalCost(old(View()), totalCosts, podCount)
    {
      ghost var rows := View();
      hide View, Valid, MergeTotalCost, CostRow;
      NoTotalCosts(rows, totalCosts, podCount);
      var todo := totalCosts.Keys;
      while todo != {}
        invariant todo <= totalCosts.Keys
        invariant Valid() && old(Repr) <= Repr && fresh(Repr - old(Repr))
        invariant View() == MergeTotalCost(rows, totalCosts - todo, podCount)
        decreases todo
      {
        var k :| k in todo;
        TotalCostOneMore(rows, totalCosts, podCount, todo, k);
        ReplaceRow(k, totalCosts[k], podCount);
        todo := todo - {k};
      }
    }
  }

  lemma RewriteCell(rows: Rows, k: string, ts: int, a: Detail, b: Detail)
    requires k in rows
    ensures rows[k := rows[k][ts := a]][k := rows[k][ts := a][ts := b]] == rows[k := rows[k][ts := b]]
    ensures ts in rows[k] && rows[k][ts] == a ==> rows[k := rows[k][ts := a]] == rows
  {
    assert rows[k][ts := a][ts := b] == rows[k][ts := b];
    if ts in rows[k] && rows[k][ts] == a {
      assert rows[k][ts := a] == rows[k];
    }
  }

  /** Every cell keeps its record. */
  ghost predicate Keeps(before: Cells, after: Cells) {
    forall k, ts | k in before && ts in before[k] :: k in after && ts in after[k] && after[k][ts] == before[k][ts]
  }

  lemma KeepsWithRow(cells: Cells, k: string)
    ensures Keeps(cells, if k in cells then cells else cells[k := map[]])
  {
  }

  lemma KeepsTransitive(a: Cells, b: Cells, c: Cells)
    requires Keeps(a, b) && Keeps(b, c)
    ensures Keeps(a, c)
  {
  }

  lemma NothingMerged(rows: Rows, k: string, samples: Samples, pass: Pass)
    ensures MergeRow(RowAt(rows, k), samples - samples.Keys, pass) == RowAt(rows, k)
    ensures k in rows ==> rows[k := RowAt(rows, k)] == rows
    ensures samples - {} == samples
  {
  }

  lemma MergeOneMore(row: Row, samples: Samples, pass: Pass, todo: set<int>, ts: int)
    requires ts in todo && todo <= samples.Keys
    ensures var part := MergeRow(row, samples - todo, pass);
            MergeRow(row, samples - (todo - {ts}), pass) ==
            part[ts := Write(Cell(part, ts, pass.newPodCount), pass.field, pass.scale(samples[ts]))]
  {
  }

  lemma NoSeriesMerged(rows: Rows, series: Series, pass: Pass)
    ensures Merge(rows, series - series.Keys, pass) == rows
    ensures series - {} == series
  {
    forall k | k in rows ensures MergeRow(rows[k], map[], pass) == rows[k] {
    }
  }

  lemma MergeSeriesOneMore(rows: Rows, series: Series, pass: Pass, todo: set<string>, k: string)
    requires k in todo && todo <= series.Keys
    ensures var part := Merge(rows, series - todo, pass);
            Merge(rows, series - (todo - {k}), pass) == part[k := MergeRow(RowAt(part, k), series[k], pass)]
  {
    MergedRowOf(rows, series - todo, pass, k);
    hide MergeRow;
  }

  /** A workload without samples keeps its row. */
  lemma MergedRowOf(rows: Rows, series: Series, pass: Pass, k: string)
    requires k !in series
    ensures RowAt(Merge(rows, series, pass), k) == RowAt(rows, k)
  {
    if k in rows {
      assert MergeRow(rows[k], map[], pass) == rows[k];
    }
  }

  lemma Overwrite(rows: Rows, k: string, a: Row, b: Row)
    ensures rows[k := a][k := b] == rows[k := b]
  {
  }

  lemma NoCosts(samples: Samples, podCount: real)
    ensures CostRow(samples - samples.Keys, podCount) == map[]
    ensures samples - {} == samples
  {
  }

  lemma NoTotalCosts(rows: Rows, totalCosts: Series, podCount: real)
    ensures MergeTotalCost(rows, totalCosts - totalCosts.Keys, podCount) == rows
    ensures totalCosts - {} == totalCosts
  {
  }

  lemma CostRowOneMore(samples: Samples, podCount: real, todo: set<int>, ts: int)
    requires ts in todo && todo <= samples.Keys
    ensures CostRow(samples - (todo - {ts}), podCount)
         == CostRow(samples - todo, podCount)[ts := Fresh(ts, podCount).(totalCost := samples[ts])]
  {
  }

  lemma TotalCostOneMore(rows: Rows, totalCosts: Series, podCount: real, todo: set<string>, k: string)
    requires k in todo && todo <= totalCosts.Keys
    ensures MergeTotalCost(rows, totalCosts - (todo - {k}), podCount)
         == MergeTotalCost(rows, totalCosts - todo, podCount)[k := CostRow(totalCosts[k], podCount)]
  {
  }

  // ----- The two complete merges -----

  method MergePodCosts(i: Inputs, stepSeconds: int) returns (table: CostTable)
    requires stepSeconds != 0 && i.podCount == map[]
    ensures table.Valid() && table.View() == PodJoin(i, stepSeconds)
    ensures HoldsInputs(table.View(), i, stepSeconds) && CountsPods(table.View(), i, stepSeconds, true)
  {
    table := new CostTable();
    hide Merge, MergeTotalCost, PodJoin, PodPass, HoldsInputs, CountsPods;
    table.MergeTotalCosts(i.totalCosts, 1.0);
    table.MergeSeries(i.cpuRequest, PodPass(CpuRequest, stepSeconds));
    table.MergeSeries(i.ramRequest, PodPass(RamRequest, stepSeconds));
    table.MergeSeries(i.cpuUsage, PodPass(CpuUsage, stepSeconds));
    table.MergeSeries(i.ramUsage, PodPass(RamUsage, stepSeconds));
    PodPassesJoin(i, stepSeconds);
    PodJoinHoldsInputs(i, stepSeconds);
  }

  method MergeHighLevelWorkloadCosts(i: Inputs, stepSeconds: int) returns (table: CostTable)
    requires stepSeconds != 0
    ensures table.Valid() && table.View() == WorkloadJoin(i, stepSeconds)
    ensures HoldsInputs(table.View(), i, stepSeconds) && CountsPods(table.View(), i, stepSeconds, false)
  {
    table := new CostTable();
    hide Merge, MergeTotalCost, WorkloadJoin, WorkloadPass, HoldsInputs, CountsPods;
    table.MergeTotalCosts(i.totalCosts, 0.0);
    table.MergeSeries(i.podCount, WorkloadPass(PodCount, stepSeconds));
    table.MergeSeries(i.cpuRequest, WorkloadPass(CpuRequest, stepSeconds));
    table.MergeSeries(i.ramRequest, WorkloadPass(RamRequest, stepSeconds));
    table.MergeSeries(i.cpuUsage, WorkloadPass(CpuUsage, stepSeconds));
    table.MergeSeries(i.ramUsage, WorkloadPass(RamUsage, stepSeconds));
    WorkloadPassesJoin(i, stepSeconds);
    WorkloadJoinHoldsInputs(i, stepSeconds);
  }
}
