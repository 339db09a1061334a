/** What the numbers of the range queries mean: sums of samples, scaled twice, are averages. */
module Averages {
  import opened Kube
  import opened Sums
  import opened CostMerge

  /** `sum(sum_over_time(metric[step]))/240`: 240 samples of 15 seconds make an hour. */
  function HourQuery(samples: seq<real>): real { SeqSum(samples) / 240.0 }

  function Mean(samples: seq<real>): real
    requires samples != []
  {
    SeqSum(samples) / (|samples| as real)
  }

  /** A missing sample adds nothing to `sum_over_time`. */
  function Present(samples: seq<Option<real>>): seq<real> {
    if samples == [] then []
    else
      var last := samples[|samples| - 1];
      Present(samples[..|samples| - 1]) + (if last.Some? then [last.value] else [])
  }

  function Filled(samples: seq<Option<real>>): (r: seq<real>)
    ensures |r| == |samples|
  {
    seq(|samples|, i requires 0 <= i < |samples| => if samples[i].Some? then samples[i].value else 0.0)
  }

  lemma {:induction false} MissingIsZero(samples: seq<Option<real>>)
    ensures SeqSum(Present(samples)) == SeqSum(Filled(samples))
  {
    if samples != [] {
      var n := |samples| - 1;
      MissingIsZero(samples[..n]);
      assert Filled(samples)[..n] == Filled(samples[..n]);
      SeqSumConcat(Present(samples[..n]), if samples[n].Some? then [samples[n].value] else []);
      assert samples[n].Some? ==> [samples[n].value][..0] == [];
    }
  }

  /** One series per container, or per node: the values of each in the same sample slots. */
  type Slots = seq<Option<real>>

  predicate Aligned(series: seq<Slots>, n: nat) {
    forall i | 0 <= i < |series| :: |series[i]| == n
  }

  /** `sum(sum_over_time(metric[step])) by (...)` over the series of one group. */
  function GroupQuery(series: seq<Slots>): real {
    if series == [] then 0.0
    else GroupQuery(series[..|series| - 1]) + SeqSum(Present(series[|series| - 1]))
  }

  /** `sum(sum_over_time(metric[step])/240) by (...)`. */
  function GroupHourQuery(series: seq<Slots>): real {
    if series == [] then 0.0
    else GroupHourQuery(series[..|series| - 1]) + HourQuery(Present(series[|series| - 1]))
  }

  /** Slot by slot, the sum over the series, where a missing sample counts as zero. */
  function SlotSums(series: seq<Slots>, n: nat): (r: seq<real>)
    requires Aligned(series, n)
    ensures |r| == n
  {
    seq(n, j requires 0 <= j < n => SlotSum(series, j))
  }

  function SlotSum(series: seq<Slots>, j: nat): real
    requires forall i | 0 <= i < |series| :: j < |series[i]|
  {
    if series == [] then 0.0
    else SlotSum(series[..|series| - 1], j) + Filled(series[|series| - 1])[j]
  }

  lemma {:induction false} SumOfPairs(a: seq<real>, b: seq<real>, c: seq<real>)
    requires |a| == |b| == |c| && forall i | 0 <= i < |a| :: c[i] == a[i] + b[i]
    ensures SeqSum(c) == SeqSum(a) + SeqSum(b)
  {
    if a != [] {
      var m := |a| - 1;
      SumOfPairs(a[..m], b[..m], c[..m]);
    }
  }

  lemma {:induction false} SeqSumZeros(s: seq<real>)
    requires forall i | 0 <= i < |s| :: s[i] == 0.0
    ensures SeqSum(s) == 0.0
  {
    if s != [] {
      SeqSumZeros(s[..|s| - 1]);
    }
  }

  /** Summing over time and then over series is summing over series and then over time. */
  lemma {:induction false} QueryIsSlotSum(series: seq<Slots>, n: nat)
    requires Aligned(series, n)
    ensures GroupQuery(series) == SeqSum(SlotSums(series, n))
  {
    if series == [] {
      SeqSumZeros(SlotSums(series, n));
    } else {
      var m := |series| - 1;
      QueryIsSlotSum(series[..m], n);
      MissingIsZero(series[m]);
      SumOfPairs(SlotSums(series[..m], n), Filled(series[m]), SlotSums(series, n));
    }
  }

  /** Dividing each series by 240 or their sum makes no difference. */
  lemma {:induction false} HourQueriesAgree(series: seq<Slots>)
    ensures GroupHourQuery(series) == GroupQuery(series) / 240.0
  {
    if series != [] {
      HourQueriesAgree(series[..|series| - 1]);
    }
  }

  /** With one sample slot every 15 seconds in a step of a whole number of slots, both scalings of
      both forms of the hour query and the scaling of the pod count give the mean over the slots of
      the sum over the series of a group, where a missing sample counts as zero. */
  lemma QueriesAverage(series: seq<Slots>, n: nat, step: int)
    requires n > 0 && step == 15 * n && Aligned(series, n)
    ensures PerStepHours(step)(GroupHourQuery(series)) == Mean(SlotSums(series, n))
    ensures PerStepTimesHour(step)(GroupHourQuery(series)) == Mean(SlotSums(series, n))
    ensures PerStepHours(step)(GroupQuery(series) / 240.0) == Mean(SlotSums(series, n))
    ensures PerStepTimesHour(step)(GroupQuery(series) / 240.0) == Mean(SlotSums(series, n))
    ensures PerStepSamples(step)(GroupQuery(series)) == Mean(SlotSums(series, n))
  {
    hide *;
    QueryIsSlotSum(series, n);
    HourQueriesAgree(series);
    ScaledMean(GroupQuery(series), n, step);
    MeanOf(SlotSums(series, n));
    ScalingsAgree(step, GroupHourQuery(series));
  }

  lemma HoursAreMeans(v: real, s: Series, k: string, ts: int, step: int, series: seq<Slots>, n: nat)
    requires n > 0 && step == 15 * n && Aligned(series, n)
    requires Has(s, k, ts) && s[k][ts] == GroupHourQuery(series) && Hours(v, s, k, ts, step)
    ensures v == Mean(SlotSums(series, n))
  {
    QueriesAverage(series, n, step);
    hide GroupHourQuery, Mean, SlotSums;
  }

  lemma CountsAreMeans(v: real, step: int, series: seq<Slots>, n: nat)
    requires n > 0 && step == 15 * n && Aligned(series, n)
    requires v == GroupQuery(series) / (step as real / 15.0)
    ensures v == Mean(SlotSums(series, n))
  {
    QueriesAverage(series, n, step);
    hide GroupQuery, Mean, SlotSums;
  }

  /** When the samples are answers to the hour query, the requests and usages in a merged table are
      means over the slots of the sums over the series; and so is the number of pods of a workload that
      is not a pod, when its sample is the answer to the count query. */
  lemma DetailsHoldMeans(t: Rows, i: Inputs, step: int, k: string, ts: int, series: seq<Slots>, n: nat)
    requires n > 0 && step == 15 * n && Aligned(series, n)
    requires HoldsInputs(t, i, step)
    ensures var q, mean := GroupHourQuery(series), Mean(SlotSums(series, n));
            && (HasSample(i, k, ts) ==> k in t && ts in t[k])
            && (Has(i.cpuRequest, k, ts) && i.cpuRequest[k][ts] == q ==> t[k][ts].cpuRequest == mean)
            && (Has(i.ramRequest, k, ts) && i.ramRequest[k][ts] == q ==> t[k][ts].ramRequest == mean)
            && (Has(i.cpuUsage, k, ts) && i.cpuUsage[k][ts] == q ==> t[k][ts].cpuUsage == mean)
            && (Has(i.ramUsage, k, ts) && i.ramUsage[k][ts] == q ==> t[k][ts].ramUsage == mean)
            && (CountsPods(t, i, step, false) && Has(i.podCount, k, ts) && i.podCount[k][ts] == GroupQuery(series) ==>
                  t[k][ts].podCount == mean)
  {
    hide GroupHourQuery, GroupQuery, Mean, SlotSums, Hours, Aligned;
    if HasSample(i, k, ts) {
      assert HasKey(i, k);
      var d, q := t[k][ts], GroupHourQuery(series);
      assert HoldsSamples(d, i, k, ts, step);
      hide HoldsInputs, HasKey, HasSample;
      if Has(i.cpuRequest, k, ts) && i.cpuRequest[k][ts] == q {
        HoursAreMeans(d.cpuRequest, i.cpuRequest, k, ts, step, series, n);
      }
      if Has(i.ramRequest, k, ts) && i.ramRequest[k][ts] == q {
        HoursAreMeans(d.ramRequest, i.ramRequest, k, ts, step, series, n);
      }
      if Has(i.cpuUsage, k, ts) && i.cpuUsage[k][ts] == q {
        HoursAreMeans(d.cpuUsage, i.cpuUsage, k, ts, step, series, n);
      }
      if Has(i.ramUsage, k, ts) && i.ramUsage[k][ts] == q {
        HoursAreMeans(d.ramUsage, i.ramUsage, k, ts, step, series, n);
      }
      if CountsPods(t, i, step, false) && Has(i.podCount, k, ts) && i.podCount[k][ts] == GroupQuery(series) {
        CountsAreMeans(d.podCount, step, series, n);
      }
    }
  }

  lemma MeanOf(samples: seq<real>)
    requires samples != []
    ensures Mean(samples) == SeqSum(samples) / (|samples| as real)
  {
  }

  lemma ScaledMean(sum: real, n: nat, step: int)
    requires n > 0 && step == 15 * n
    ensures PerStepHours(step)(sum / 240.0) == sum / (n as real)
    ensures PerStepSamples(step)(sum) == sum / (n as real)
  {
    assert step as real == 15.0 * (n as real);
    Scale(sum, n as real);
  }

  lemma Scale(sum: real, n: real)
    requires n > 0.0
    ensures (sum / 240.0) / ((15.0 * n) / 3600.0) == sum / n
    ensures sum / ((15.0 * n) / 15.0) == sum / n
  {
    var x := (15.0 * n) / 3600.0;
    assert x == n / 240.0;
    var q := (sum / 240.0) / x;
    assert q * x == sum / 240.0;
    assert q * n == sum;
  }

  function Flatten(windows: seq<seq<real>>): seq<real> {
    if windows == [] then [] else Flatten(windows[..|windows| - 1]) + windows[|windows| - 1]
  }

  function Means(windows: seq<seq<real>>): (r: seq<real>)
    requires forall i | 0 <= i < |windows| :: windows[i] != []
    ensures |r| == |windows|
  {
    seq(|windows|, i requires 0 <= i < |windows| => Mean(windows[i]))
  }

  lemma {:induction false} FlattenLength(windows: seq<seq<real>>, n: nat)
    requires forall i | 0 <= i < |windows| :: |windows[i]| == n
    ensures |Flatten(windows)| == n * |windows|
  {
    if windows != [] {
      FlattenLength(windows[..|windows| - 1], n);
      assert n * |windows| == n * (|windows| - 1) + n;
    }
  }

  lemma {:induction false} SumOfMeans(windows: seq<seq<real>>, n: nat)
    requires n > 0 && forall i | 0 <= i < |windows| :: |windows[i]| == n
    ensures SeqSum(Flatten(windows)) == Times(n as real, SeqSum(Means(windows)))
  {
    if windows == [] {
      assert Times(n as real, 0.0) == 0.0;
    } else {
      hide Times, Mean;
      var m := |windows| - 1;
      SumOfMeans(windows[..m], n);
      SeqSumConcat(Flatten(windows[..m]), windows[m]);
      assert Means(windows)[..m] == Means(windows[..m]);
      TimesMean(windows[m]);
      Distribute(n as real, SeqSum(Means(windows[..m])), Mean(windows[m]));
    }
  }

  lemma TimesMean(samples: seq<real>)
    requires samples != []
    ensures Times(|samples| as real, Mean(samples)) == SeqSum(samples)
  {
  }

  lemma MeanOfWindows(windows: seq<seq<real>>, n: nat)
    requires n > 0 && windows != [] && forall i | 0 <= i < |windows| :: |windows[i]| == n
    ensures Flatten(windows) != [] && Mean(Flatten(windows)) == Mean(Means(windows))
  {
    hide Times, Mean, Means;
    FlattenLength(windows, n);
    SumOfMeans(windows, n);
    var m := |windows|;
    NonEmptyProduct(n, m);
    Shorten(n, m, SeqSum(Means(windows)));
    MeanOf(Flatten(windows));
    MeanOf(Means(windows));
  }

  // ----- Windows of a query -----

  lemma WindowFits(n: nat, m: nat, w: nat)
    requires w < m
    ensures w * n + n == (w + 1) * n <= n * m
  {
  }

  /** What the series show in the `n` slots from slot `a`. */
  function Part(series: seq<Slots>, a: nat, n: nat): (r: seq<Slots>)
    requires forall i | 0 <= i < |series| :: a + n <= |series[i]|
    ensures |r| == |series| && Aligned(r, n)
  {
    seq(|series|, i requires 0 <= i < |series| => series[i][a..a + n])
  }

  /** What the series show in the `w`-th of `m` windows of `n` slots. */
  function Window(series: seq<Slots>, n: nat, m: nat, w: nat): (r: seq<Slots>)
    requires w < m && Aligned(series, n * m)
    ensures |r| == |series| && Aligned(r, n)
  {
    WindowFits(n, m, w);
    Part(series, w * n, n)
  }

  /** The scaled query of each of the `m` windows. */
  function FineValues(series: seq<Slots>, n: nat, m: nat): (r: seq<real>)
    requires n > 0 && Aligned(series, n * m)
    ensures |r| == m
  {
    seq(m, w requires 0 <= w < m => PerStepHours(15 * n)(GroupHourQuery(Window(series, n, m, w))))
  }

  function SumsPerWindow(series: seq<Slots>, n: nat, m: nat): (r: seq<seq<real>>)
    requires Aligned(series, n * m)
    ensures |r| == m && forall w | 0 <= w < m :: |r[w]| == n
  {
    seq(m, w requires 0 <= w < m => SlotSums(Window(series, n, m, w), n))
  }

  lemma {:induction false} SlotInPart(series: seq<Slots>, a: nat, n: nat, j: nat)
    requires j < n && forall i | 0 <= i < |series| :: a + n <= |series[i]|
    ensures SlotSum(Part(series, a, n), j) == SlotSum(series, a + j)
  {
    if series != [] {
      var last := |series| - 1;
      SlotInPart(series[..last], a, n, j);
      assert Part(series, a, n)[..last] == Part(series[..last], a, n);
      assert Filled(series[last][a..a + n])[j] == Filled(series[last])[a + j];
    }
  }

  lemma SumsInWindow(series: seq<Slots>, n: nat, m: nat, w: nat)
    requires w < m && Aligned(series, n * m)
    ensures w * n + n <= n * m
    ensures SlotSums(Window(series, n, m, w), n) == SlotSums(series, n * m)[w * n..w * n + n]
  {
    hide SlotSum, Part;
    WindowFits(n, m, w);
    var part, whole := SlotSums(Window(series, n, m, w), n), SlotSums(series, n * m);
    forall j | 0 <= j < n ensures part[j] == whole[w * n + j] {
      SlotInPart(series, w * n, n, j);
    }
  }

  /** Pieces side by side show the whole. */
  lemma {:induction false} FlattenPieces(pieces: seq<seq<real>>, whole: seq<real>, n: nat)
    requires |whole| == |pieces| * n
    requires forall w | 0 <= w < |pieces| :: 0 <= w * n <= w * n + n <= |whole| && pieces[w] == whole[w * n..w * n + n]
    ensures Flatten(pieces) == whole
  {
    if pieces != [] {
      var m := |pieces| - 1;
      assert m * n + n == |whole|;
      var front := whole[..m * n];
      forall w | 0 <= w < m ensures 0 <= w * n <= w * n + n <= |front| && pieces[..m][w] == front[w * n..w * n + n] {
        WindowFits(n, m, w);
      }
      FlattenPieces(pieces[..m], front, n);
      assert front + whole[m * n..m * n + n] == whole;
    }
  }

  lemma WindowsShowAll(series: seq<Slots>, n: nat, m: nat)
    requires Aligned(series, n * m)
    ensures Flatten(SumsPerWindow(series, n, m)) == SlotSums(series, n * m)
  {
    hide Flatten, SlotSums, Window, Aligned;
    var pieces, whole := SumsPerWindow(series, n, m), SlotSums(series, n * m);
    forall w | 0 <= w < m ensures 0 <= w * n <= w * n + n <= |whole| && pieces[w] == whole[w * n..w * n + n] {
      SumsInWindow(series, n, m, w);
    }
    FlattenPieces(pieces, whole, n);
  }

  /** The scaled query of a coarse window of `n * m` slots is the mean of the scaled queries of its `m`
      sub-windows of `n` slots, for any number of series with any samples missing. */
  lemma CoarseWindowIsMeanOfFine(series: seq<Slots>, n: nat, m: nat)
    requires n > 0 && m > 0 && Aligned(series, n * m)
    ensures PerStepHours(15 * (n * m))(GroupHourQuery(series)) == Mean(FineValues(series, n, m))
  {
    hide *;
    NonEmptyProduct(n, m);
    WindowsShowAll(series, n, m);
    MeanOfWindows(SumsPerWindow(series, n, m), n);
    QueriesAverage(series, n * m, 15 * (n * m));
    FineValuesAreMeans(series, n, m);
  }

  lemma FineValuesAreMeans(series: seq<Slots>, n: nat, m: nat)
    requires n > 0 && Aligned(series, n * m)
    ensures FineValues(series, n, m) == Means(SumsPerWindow(series, n, m))
  {
    hide GroupHourQuery, PerStepHours, Mean, SlotSums;
    forall w | 0 <= w < m ensures FineValues(series, n, m)[w] == Mean(SlotSums(Window(series, n, m, w), n)) {
      QueriesAverage(Window(series, n, m, w), n, 15 * n);
    }
  }

  lemma NonEmptyProduct(n: nat, m: nat)
    requires n > 0 && m > 0
    ensures n * m > 0
  {
  }

  lemma Shorten(n: nat, m: nat, s: real)
    requires n > 0 && m > 0 && n * m > 0
    ensures Times(n as real, s) / ((n * m) as real) == s / (m as real)
  {
    assert (n * m) as real == (n as real) * (m as real);
    ShortenReal(n as real, m as real, s);
  }

  lemma ShortenReal(n: real, m: real, s: real)
    requires n > 0.0 && m > 0.0
    ensures Times(n, s) / (n * m) == s / m
  {
    var q := s / m;
    assert q * m == s;
    assert q * (n * m) == n * s;
    assert n * m > 0.0;
  }
}
