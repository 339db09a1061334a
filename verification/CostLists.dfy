/** Turning a merged table into the list that the analyzer returns. */
module CostLists {
  import opened Kube
  import opened CostMerge
  import opened TimedLists
  import opened WorkloadCost
  import opened WorkloadKeys

  datatype ClusterWorkloadCost = ClusterWorkloadCost(workload: Workload, costList: seq<Detail>)

  function TimeOf(d: Detail): int { d.timestamp }

  // ----- The whole list -----

  /** One item per key, in some order, with the workload of the key and the list of its row. */
  ghost predicate IsConversion(items: seq<ClusterWorkloadCost>, keys: seq<string>, table: Rows) {
    && |items| == |keys|
    && (forall i, j | 0 <= i < j < |keys| :: keys[i] != keys[j])
    && (forall k :: k in keys <==> k in table)
    && forall i | 0 <= i < |keys| ::
         keys[i] in table && ParseKey(keys[i]) == Some(items[i].workload)
         && Lists(items[i].costList, table[keys[i]], TimeOf)
  }

  /** One item of the list as the analyzer returns it: it shares the records of the table. */
  datatype Item = Item(workload: Workload, costList: seq<CostDetail>)

  /** The item lists the records of a row in the order of the value. */
  ghost predicate Shares(item: Item, value: ClusterWorkloadCost, row: map<int, CostDetail>) {
    && item.workload == value.workload && |item.costList| == |value.costList|
    && forall j | 0 <= j < |item.costList| ::
         value.costList[j].timestamp in row && item.costList[j] == row[value.costList[j].timestamp]
  }

  ghost predicate SharesAll(items: seq<Item>, values: seq<ClusterWorkloadCost>, keys: seq<string>, cells: Cells) {
    && |items| == |values| == |keys|
    && forall i | 0 <= i < |keys| :: keys[i] in cells && Shares(items[i], values[i], cells[keys[i]])
  }

  ghost predicate AllStamped(rows: Rows) {
    forall k | k in rows :: Stamped(rows[k], TimeOf)
  }

  /** Some key has fewer than three parts. */
  ghost predicate HasShortKey(rows: Rows) {
    exists k :: k in rows && ParseKey(k).None?
  }

  /** The records of a row in the order of time. */
  method ListRecords(row: map<int, CostDetail>, details: Row)
    returns (records: seq<CostDetail>, ghost values: seq<Detail>)
    requires row.Keys == details.Keys && Stamped(details, TimeOf)
    ensures Lists(values, details, TimeOf)
    ensures forall w :: Shares(Item(w, records), ClusterWorkloadCost(w, values), row)
  {
    var sorted := CollectDetails(details, TimeOf);
    forall j | 0 <= j < |sorted| ensures sorted[j].timestamp in row {
      assert sorted[j] in sorted && TimeOf(sorted[j]) in details;
    }
    records := seq(|sorted|, j requires 0 <= j < |sorted| => row[sorted[j].timestamp]);
    values := sorted;
  }

  /** The loop over the keys, in any order; `rows` holds the contents of the records in `cells`. */
  method ConvertRows(cells: Cells, rows: Rows)
    returns (items: Option<seq<Item>>, ghost values: seq<ClusterWorkloadCost>, ghost keys: seq<string>)
    requires SameCells(cells, rows) && AllStamped(rows)
    ensures items.None? <==> HasShortKey(rows)
    ensures items.Some? ==> IsConversion(values, keys, rows) && SharesAll(items.value, values, keys, cells)
  {
    var ret: seq<Item> := [];
    values, keys := [], [];
    hide Lists, ParseKey, SharesAll, IsConversion, Stamped, Shares;
    NothingConverted(rows, cells);
    var todo := rows.Keys;
    while todo != {}
      invariant todo <= rows.Keys
      invariant forall k | k in rows && k !in todo :: ParseKey(k).Some?
      invariant IsConversion(values, keys, rows - todo)
      invariant SharesAll(ret, values, keys, cells)
      decreases todo
    {
      var k := NextKey(todo);
      var workload := ParseKey(k);
      if workload.None? {
        return None, values, keys;
      }
      ghost var details;
      var records;
      records, details := ListRecords(cells[k], rows[k]);
      ghost var value := ClusterWorkloadCost(workload.value, details);
      ConvertOneMore(values, keys, rows, todo, k, value);
      SharesOneMore(ret, values, keys, cells, Item(workload.value, records), value, k);
      ret, values, keys := ret + [Item(workload.value, records)], values + [value], keys + [k];
      todo := todo - {k};
    }
    assert rows - {} == rows;
    items := Some(ret);
  }

  /** The conversion crashes exactly when some key has fewer than three parts; the values are what the
      listed records hold. */
  method ConvertClusterWorkloadCostToList(table: CostTable)
    returns (items: Option<seq<Item>>, ghost values: seq<ClusterWorkloadCost>, ghost keys: seq<string>)
    requires table.Valid() && AllStamped(table.View())
    ensures items.None? <==> HasShortKey(table.View())
    ensures items.Some? ==> IsConversion(values, keys, table.View())
    ensures items.Some? ==> SharesAll(items.value, values, keys, table.cells)
  {
    hide *;
    var rows := table.Contents();
    items, values, keys := ConvertRows(table.cells, rows);
  }

  /** The records of the list hold the values of the list. */
  lemma ListedRecordsHoldValues(table: CostTable, items: seq<Item>, values: seq<ClusterWorkloadCost>,
                                keys: seq<string>, i: nat, j: nat)
    requires table.Valid() && IsConversion(values, keys, table.View()) && SharesAll(items, values, keys, table.cells)
    requires i < |items| && j < |items[i].costList|
    ensures items[i].costList[j].detail == values[i].costList[j]
  {
    var d := values[i].costList[j];
    assert d in values[i].costList && Lists(values[i].costList, table.View()[keys[i]], TimeOf);
    assert table.View()[keys[i]] == ViewRow(table.cells[keys[i]], table.Stored());
    assert table.cells[keys[i]][d.timestamp] in table.Stored();
  }

  lemma NothingConverted(table: Rows, cells: Cells)
    ensures IsConversion([], [], table - table.Keys) && SharesAll([], [], [], cells)
  {
  }

  lemma SharesOneMore(items: seq<Item>, values: seq<ClusterWorkloadCost>, keys: seq<string>, cells: Cells,
                      item: Item, value: ClusterWorkloadCost, k: string)
    requires SharesAll(items, values, keys, cells) && k in cells && Shares(item, value, cells[k])
    ensures SharesAll(items + [item], values + [value], keys + [k], cells)
  {
    hide Shares;
  }

  lemma ConvertOneMore(items: seq<ClusterWorkloadCost>, keys: seq<string>, table: Rows, todo: set<string>, k: string,
                       item: ClusterWorkloadCost)
    requires k in todo && todo <= table.Keys && IsConversion(items, keys, table - todo)
    requires ParseKey(k) == Some(item.workload) && Lists(item.costList, table[k], TimeOf)
    ensures IsConversion(items + [item], keys + [k], table - (todo - {k}))
  {
    hide Lists, ParseKey;
    var n, rest, rest' := |keys|, table - todo, table - (todo - {k});
    assert k !in rest;
    forall i | 0 <= i < n + 1
      ensures (keys + [k])[i] in rest' && ParseKey((keys + [k])[i]) == Some((items + [item])[i].workload)
      ensures Lists((items + [item])[i].costList, rest'[(keys + [k])[i]], TimeOf)
    {
      if i < n {
        assert keys[i] in rest && rest[keys[i]] == rest'[keys[i]];
      }
    }
  }

  /** Reading a list back into a table. */
  function Flatten(items: seq<ClusterWorkloadCost>): Rows {
    if items == [] then map[]
    else
      var last := items[|items| - 1];
      Flatten(items[..|items| - 1])[GenerateKey(last.workload) := ToRow(last.costList, TimeOf)]
  }

  lemma ConversionFront(items: seq<ClusterWorkloadCost>, keys: seq<string>, table: Rows)
    requires items != [] && IsConversion(items, keys, table)
    ensures var n := |items| - 1; IsConversion(items[..n], keys[..n], table - {keys[n]})
  {
    hide Lists, ParseKey;
    var n := |items| - 1;
    forall k ensures k in keys[..n] <==> k in table - {keys[n]} {
      if k in keys && k != keys[n] {
        var i :| 0 <= i < |keys| && keys[i] == k;
        assert keys[..n][i] == k;
      }
    }
  }

  /** Every flattened key has three parts without slashes. */
  lemma {:induction false} FlattenedKeys(items: seq<ClusterWorkloadCost>, keys: seq<string>, table: Rows, k: string)
    requires IsConversion(items, keys, table) && k in Flatten(items)
    ensures HasThreeParts(k)
    decreases |items|
  {
    var n := |items| - 1;
    if k == GenerateKey(items[n].workload) {
      ParsedIsSlashFree(keys[n]);
      GeneratedHasThreeParts(items[n].workload);
    } else {
      ConversionFront(items, keys, table);
      FlattenedKeys(items[..n], keys[..n], table - {keys[n]}, k);
    }
  }

  lemma {:induction false} FlattenThreeParts(items: seq<ClusterWorkloadCost>, keys: seq<string>, table: Rows)
    requires IsConversion(items, keys, table) && forall k | k in table :: HasThreeParts(k)
    ensures Flatten(items) == table
    decreases |items|
  {
    hide Lists, ParseKey, ToRow, HasThreeParts;
    if items == [] {
      assert forall k :: k in table ==> k in keys;
      assert table.Keys == {};
    } else {
      var n := |items| - 1;
      ConversionFront(items, keys, table);
      FlattenThreeParts(items[..n], keys[..n], table - {keys[n]});
      ListedRow(items[n].costList, table[keys[n]], TimeOf);
      ThreePartsRegenerate(keys[n]);
      assert (table - {keys[n]})[keys[n] := table[keys[n]]] == table;
    }
  }

  /** Flattening the list recovers the merged table if and only if every key has exactly three
      parts, as all keys made of slash-free labels have. */
  lemma ConversionLosesNothing(items: seq<ClusterWorkloadCost>, keys: seq<string>, table: Rows)
    requires IsConversion(items, keys, table)
    ensures Flatten(items) == table <==> forall k | k in table :: HasThreeParts(k)
  {
    if Flatten(items) == table {
      forall k | k in table ensures HasThreeParts(k) {
        FlattenedKeys(items, keys, table, k);
      }
    }
    if forall k | k in table :: HasThreeParts(k) {
      FlattenThreeParts(items, keys, table);
    }
  }

  /** The merged tables meet the precondition of the conversion: every record carries the timestamp
      of its cell. */
  lemma PodRowsAreStamped(i: Inputs, step: int)
    requires step != 0
    ensures PodJoin(i, step).Keys == Keys(i)
    ensures AllStamped(PodJoin(i, step))
  {
  }

  lemma WorkloadRowsAreStamped(i: Inputs, step: int)
    requires step != 0
    ensures WorkloadJoin(i, step).Keys == Keys(i)
    ensures AllStamped(WorkloadJoin(i, step))
  {
  }

  // ----- The two queries, from the series to the list -----

  /** Every series has a key generated from labels without slashes. */
  ghost predicate Generated(i: Inputs) {
    forall k | k in Keys(i) :: exists w :: SlashFree(w) && k == GenerateKey(w)
  }

  lemma GeneratedIff(i: Inputs)
    ensures Generated(i) <==> forall k | k in Keys(i) :: HasThreeParts(k)
  {
    forall k | k in Keys(i) ensures HasThreeParts(k) <==> exists w :: SlashFree(w) && k == GenerateKey(w) {
      if HasThreeParts(k) {
        ThreePartsRegenerate(k);
        ParsedIsSlashFree(k);
      }
      if w :| SlashFree(w) && k == GenerateKey(w) {
        GeneratedHasThreeParts(w);
      }
    }
  }

  /** The answer to a query with the joined table `join`: it crashes exactly on a key of fewer than
      three parts, and gives the table back if and only if all keys come from slash-free labels. */
  ghost predicate Answers(i: Inputs, join: Rows, crashed: bool, values: seq<ClusterWorkloadCost>, keys: seq<string>) {
    && (crashed <==> HasShortKey(join))
    && (Generated(i) ==> !crashed)
    && (!crashed ==> IsConversion(values, keys, join) && (Flatten(values) == join <==> Generated(i)))
  }

  lemma ConversionAnswers(i: Inputs, join: Rows, crashed: bool, values: seq<ClusterWorkloadCost>, keys: seq<string>)
    requires join.Keys == Keys(i)
    requires crashed <==> HasShortKey(join)
    requires !crashed ==> IsConversion(values, keys, join)
    ensures Answers(i, join, crashed, values, keys)
  {
    GeneratedIff(i);
    if !crashed {
      ConversionLosesNothing(values, keys, join);
    }
  }

  /** The pod query, from the series to the list. */
  method QueryPodCosts(i: Inputs, stepSeconds: int)
    returns (items: Option<seq<Item>>, ghost values: seq<ClusterWorkloadCost>, ghost keys: seq<string>,
             ghost table: CostTable)
    requires stepSeconds != 0 && i.podCount == map[]
    ensures items.None? <==> HasShortKey(PodJoin(i, stepSeconds))
    ensures Answers(i, PodJoin(i, stepSeconds), items.None?, values, keys)
    ensures table.Valid() && table.View() == PodJoin(i, stepSeconds)
    ensures items.Some? ==> SharesAll(items.value, values, keys, table.cells)
  {
    hide PodJoin, AllStamped, HasShortKey, IsConversion, SharesAll, Answers, CostTable.View, CostTable.Valid;
    var merged := MergePodCosts(i, stepSeconds);
    ghost var join := PodJoin(i, stepSeconds);
    PodRowsAreStamped(i, stepSeconds);
    items, values, keys := ConvertClusterWorkloadCostToList(merged);
    ConversionAnswers(i, join, items.None?, values, keys);
    table := merged;
  }

  /** The query for all other workloads, from the series to the list. */
  method QueryHighLevelWorkloadCosts(i: Inputs, stepSeconds: int)
    returns (items: Option<seq<Item>>, ghost values: seq<ClusterWorkloadCost>, ghost keys: seq<string>,
             ghost table: CostTable)
    requires stepSeconds != 0
    ensures items.None? <==> HasShortKey(WorkloadJoin(i, stepSeconds))
    ensures Answers(i, WorkloadJoin(i, stepSeconds), items.None?, values, keys)
    ensures table.Valid() && table.View() == WorkloadJoin(i, stepSeconds)
    ensures items.Some? ==> SharesAll(items.value, values, keys, table.cells)
  {
    hide WorkloadJoin, AllStamped, HasShortKey, IsConversion, SharesAll, Answers, CostTable.View, CostTable.Valid;
    var merged := MergeHighLevelWorkloadCosts(i, stepSeconds);
    ghost var join := WorkloadJoin(i, stepSeconds);
    WorkloadRowsAreStamped(i, stepSeconds);
    items, values, keys := ConvertClusterWorkloadCostToList(merged);
    ConversionAnswers(i, join, items.None?, values, keys);
    table := merged;
  }
}
