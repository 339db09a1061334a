/** Rows of records by timestamp, turned into lists in the order of time. */
module TimedLists {
  import opened CostMerge

  // ----- Sorting by timestamp -----

  predicate Sorted<T>(s: seq<T>, time: T -> int) {
    forall i, j | 0 <= i < j < |s| :: time(s[i]) <= time(s[j])
  }

  predicate Increasing<T>(s: seq<T>, time: T -> int) {
    forall i, j | 0 <= i < j < |s| :: time(s[i]) < time(s[j])
  }

  function Insert<T>(d: T, s: seq<T>, time: T -> int): (r: seq<T>)
    ensures multiset(r) == multiset(s) + multiset{d}
  {
    if s == [] then [d]
    else if time(d) <= time(s[0]) then [d] + s
    else
      assert s == [s[0]] + s[1..];
      [s[0]] + Insert(d, s[1..], time)
  }

  /** Stands for `sort.Slice`; any other sort gives the same list when the timestamps differ. */
  function SortByTimestamp<T>(s: seq<T>, time: T -> int): (r: seq<T>)
    ensures multiset(r) == multiset(s)
  {
    if s == [] then []
    else
      assert s == [s[0]] + s[1..];
      Insert(s[0], SortByTimestamp(s[1..], time), time)
  }

  lemma SameElements<T>(a: seq<T>, b: seq<T>)
    requires multiset(a) == multiset(b)
    ensures |a| == |b|
    ensures forall d :: d in a <==> d in b
  {
    assert |multiset(a)| == |multiset(b)|;
    forall d ensures d in a <==> d in b {
      assert d in a <==> d in multiset(a);
      assert d in b <==> d in multiset(b);
    }
  }

  lemma {:induction false} InsertSorts<T>(d: T, s: seq<T>, time: T -> int)
    requires Sorted(s, time)
    ensures Sorted(Insert(d, s, time), time)
  {
    if s != [] && time(s[0]) < time(d) {
      InsertSorts(d, s[1..], time);
      var r := Insert(d, s[1..], time);
      forall i | 0 <= i < |r| ensures time(s[0]) <= time(r[i]) {
        assert r[i] in multiset(r);
        assert r[i] == d || r[i] in s[1..];
      }
    }
  }

  lemma {:induction false} SortSorts<T>(s: seq<T>, time: T -> int)
    ensures Sorted(SortByTimestamp(s, time), time)
  {
    if s != [] {
      SortSorts(s[1..], time);
      InsertSorts(s[0], SortByTimestamp(s[1..], time), time);
    }
  }

  // ----- Lists and rows -----

  predicate Stamped<T>(row: map<int, T>, time: T -> int) {
    forall ts | ts in row :: time(row[ts]) == ts
  }

  function ToRow<T>(s: seq<T>, time: T -> int): map<int, T> {
    if s == [] then map[] else ToRow(s[..|s| - 1], time)[time(s[|s| - 1]) := s[|s| - 1]]
  }

  /** `s` is the list of the details of a row: all of them, in strictly increasing order. */
  ghost predicate Lists<T(!new)>(s: seq<T>, row: map<int, T>, time: T -> int) {
    && |s| == |row| && Increasing(s, time)
    && forall d :: d in s <==> time(d) in row && row[time(d)] == d
  }

  /** Without its last detail, the list is that of the rest of the row. */
  lemma FrontLists<T(!new)>(s: seq<T>, row: map<int, T>, time: T -> int)
    requires s != [] && Lists(s, row, time)
    ensures var last := s[|s| - 1];
            time(last) in row && row[time(last)] == last && Lists(s[..|s| - 1], row - {time(last)}, time)
  {
  }

  lemma RemoveOne<T>(row: map<int, T>, ts: int)
    requires ts in row
    ensures |row - {ts}| == |row| - 1 && (row - {ts})[ts := row[ts]] == row
  {
  }

  /** The list holds the row. */
  lemma {:induction false} ListedRow<T(!new)>(s: seq<T>, row: map<int, T>, time: T -> int)
    requires Lists(s, row, time)
    ensures ToRow(s, time) == row
    decreases |s|
  {
    if s == [] {
      assert |row| == 0;
    } else {
      var last := s[|s| - 1];
      FrontLists(s, row, time);
      ListedRow(s[..|s| - 1], row - {time(last)}, time);
      RemoveOne(row, time(last));
    }
  }

  lemma LatestIsLast<T(!new)>(s: seq<T>, row: map<int, T>, time: T -> int, d: T)
    requires s != [] && Lists(s, row, time) && d in s
    ensures time(d) <= time(s[|s| - 1])
  {
  }

  /** There is only one such list, whatever the order of the map and whatever the sort. */
  lemma {:induction false} ListIsUnique<T(!new)>(s: seq<T>, t: seq<T>, row: map<int, T>, time: T -> int)
    requires Lists(s, row, time) && Lists(t, row, time)
    ensures s == t
    decreases |s|
  {
    if s != [] {
      var n := |s| - 1;
      assert s[n] in s && t[n] in t;
      assert s[n] in t && t[n] in s;
      LatestIsLast(s, row, time, t[n]);
      LatestIsLast(t, row, time, s[n]);
      FrontLists(s, row, time);
      FrontLists(t, row, time);
      assert s[n] == t[n];
      ListIsUnique(s[..n], t[..n], row - {time(s[n])}, time);
      assert s == s[..n] + [s[n]] && t == t[..n] + [t[n]];
    }
  }

  method CollectDetails<T(!new)>(row: map<int, T>, time: T -> int) returns (costList: seq<T>)
    requires Stamped(row, time)
    ensures Lists(costList, row, time)
  {
    costList := [];
    var todo := row.Keys;
    while todo != {}
      invariant todo <= row.Keys
      invariant |costList| + |todo| == |row|
      invariant forall d :: d in costList <==> time(d) in row && time(d) !in todo && row[time(d)] == d
      invariant Distinct(costList, time)
      decreases todo
    {
      var ts := NextKey(todo);
      assert forall i | 0 <= i < |costList| :: costList[i] in costList;
      costList := costList + [row[ts]];
      todo := todo - {ts};
    }
    ghost var unsorted := costList;
    costList := SortByTimestamp(costList, time);
    SortSorts(unsorted, time);
    SameElements(costList, unsorted);
    DistinctSorted(costList, unsorted, time);
  }

  predicate Distinct<T>(s: seq<T>, time: T -> int) {
    forall i, j | 0 <= i < j < |s| :: time(s[i]) != time(s[j])
  }

  lemma {:induction false} DistinctCounts<T>(s: seq<T>, time: T -> int, d: T)
    requires Distinct(s, time)
    ensures multiset(s)[d] <= 1
  {
    if s != [] {
      assert s == [s[0]] + s[1..];
      DistinctCounts(s[1..], time, d);
      if d == s[0] {
        assert d !in s[1..];
        assert d !in multiset(s[1..]);
      }
    }
  }

  lemma TwiceCounts<T>(s: seq<T>, i: nat, j: nat)
    requires i < j < |s| && s[i] == s[j]
    ensures multiset(s)[s[i]] >= 2
  {
    assert s == s[..j] + [s[j]] + s[j + 1..];
    assert s[..j][i] == s[i];
    assert s[i] in multiset(s[..j]);
  }

  /** A sorted permutation of details with distinct timestamps is strictly increasing. */
  lemma DistinctSorted<T>(s: seq<T>, unsorted: seq<T>, time: T -> int)
    requires Sorted(s, time) && multiset(s) == multiset(unsorted) && Distinct(unsorted, time)
    ensures Increasing(s, time)
  {
    SameElements(s, unsorted);
    forall i, j | 0 <= i < j < |s| ensures time(s[i]) < time(s[j]) {
      if time(s[i]) == time(s[j]) {
        assert s[i] in unsorted && s[j] in unsorted;
        SameTimestamp(unsorted, time, s[i], s[j]);
        TwiceCounts(s, i, j);
        DistinctCounts(unsorted, time, s[i]);
      }
    }
  }

  lemma SameTimestamp<T>(s: seq<T>, time: T -> int, d: T, e: T)
    requires Distinct(s, time) && d in s && e in s && time(d) == time(e)
    ensures d == e
  {
  }
}
