/** What `run_dto_query` computes: one Cost Explorer query per window of
    `get_dto_month_ranges()`, months already in `dto_cache_df` reused in resume mode,
    each queried month appended to the cache and written through, and the summary of
    the collected months. The class in module Analysis runs the loop; this module states
    its meaning and proves its properties. */
module Dto {
  import opened Basics
  import opened Months
  import opened Units
  import opened Cache
  import opened Text

  /** What `get_cost_and_usage` did for one `(start, end)` period: raised (the call, or
      digging `ResultsByTime[0].Total.UsageQuantity` out of the response, or `float()` of
      the amount), or answered with an `Amount`, which may be missing. */
  datatype UsageReply = UsageRaised | UsageAnswer(amount: Option<real>)

  /** Cost Explorer as it answers during one run, keyed by the period's date strings. */
  datatype CostExplorer = CostExplorer(usage: ((string, string)) -> UsageReply)

  /** `dto_monthly` (in insertion order), `dto_cache_df`, the DTO cache file, the queries
      so far, and whether an exception has ended the loop. */
  datatype DtoProgress = DtoProgress(
    monthly: seq<DtoRow>, cache: Frame<DtoRow>, file: Stored<DtoRow>,
    queries: nat, raised: bool)

  /** Every period's start has a `YYYY-MM` prefix. */
  predicate Ranged(ranges: seq<(string, string)>)
  {
    forall j :: 0 <= j < |ranges| ==> |ranges[j].0| >= 7
  }

  /** `month_label = start[:7]`. */
  function LabelOf(range: (string, string)): string
    requires |range.0| >= 7
  {
    range.0[..7]
  }

  /** One period. In resume mode the first cached row of its month supplies the value
      and no query is made (selecting `Month` on a frame without columns raises);
      otherwise Cost Explorer is asked, a missing `Amount` counts as 0, and the value is
      recorded in `dto_monthly`, appended to the cache and written through. */
  function VisitDto(ce: CostExplorer, resume: bool, pr: DtoProgress, range: (string, string)): DtoProgress
    requires |range.0| >= 7
  {
    if pr.raised then pr
    else
      var monthLabel := LabelOf(range);
      var cached := if resume then DtoCached(pr.cache, monthLabel) else Returned(None);
      match cached
      case Raised => pr.(raised := true)
      case Returned(hit) =>
        if hit.Some? then pr.(monthly := pr.monthly + [DtoRow(monthLabel, hit.value)])
        else
          match ce.usage(range)
          case UsageRaised => pr.(queries := pr.queries + 1, raised := true)
          case UsageAnswer(amount) =>
            var row := DtoRow(monthLabel, amount.GetOr(0.0));
            var cache := Concat(pr.cache, row);
            pr.(monthly := pr.monthly + [row], cache := cache, file := SaveToCache(cache), queries := pr.queries + 1)
  }

  function VisitDtoRanges(ce: CostExplorer, resume: bool, pr: DtoProgress, ranges: seq<(string, string)>): DtoProgress
    requires Ranged(ranges)
    decreases |ranges|
  {
    if ranges == [] then pr
    else VisitDtoRanges(ce, resume, VisitDto(ce, resume, pr, ranges[0]), ranges[1..])
  }

  lemma PlannedRanges(now: Instant)
    requires SupportedNow(now)
    ensures Ranged(DtoMonthRanges(now))
    ensures forall j :: 0 <= j < 13 ==> LabelOf(DtoMonthRanges(now)[j]) == MonthLabel(now.month - 12 + j)
  {
  }

  /** The loop of `run_dto_query` over the thirteen periods of `get_dto_month_ranges()`. */
  function DtoRun(ce: CostExplorer, resume: bool, start: DtoProgress, now: Instant): DtoProgress
    requires SupportedNow(now)
  {
    PlannedRanges(now);
    VisitDtoRanges(ce, resume, start, DtoMonthRanges(now))
  }

  function DtoStart(cache: Frame<DtoRow>, file: Stored<DtoRow>, queries: nat): DtoProgress
  {
    DtoProgress([], cache, file, queries, false)
  }

  // ---------------------------------------------------------------- summary

  function RealSum(xs: seq<real>): real
  {
    if xs == [] then 0.0 else RealSum(xs[..|xs| - 1]) + xs[|xs| - 1]
  }

  /** `sum(1 for v in values if v > 0)`. */
  function CountPositive(xs: seq<real>): nat
  {
    if xs == [] then 0 else CountPositive(xs[..|xs| - 1]) + (if xs[|xs| - 1] > 0.0 then 1 else 0)
  }

  function Values(rows: seq<DtoRow>): (vs: seq<real>)
    ensures |vs| == |rows| && forall j :: 0 <= j < |rows| ==> vs[j] == rows[j].gb
  {
    seq(|rows|, j requires 0 <= j < |rows| => rows[j].gb)
  }

  /** `{"Total DTO GB": ..., "Average DTO GB per month": ...}`, both in hundredths. */
  datatype DtoTotals = DtoTotals(totalGb: int, avgGb: int)

  /** The DTO summary: the total of all collected months and the total divided by the
      number of months with a positive value (0 when there is none), each rounded to two
      decimals. */
  function DtoSummary(values: seq<real>): (t: DtoTotals)
    ensures (t.totalGb as real) - 0.5 <= 100.0 * RealSum(values) < (t.totalGb as real) + 0.5
    ensures CountPositive(values) == 0 ==> t.avgGb == 0
    ensures CountPositive(values) > 0 ==>
      (t.avgGb as real) - 0.5 <= 100.0 * (RealSum(values) / CountPositive(values) as real) < (t.avgGb as real) + 0.5
  {
    var total := RealSum(values);
    var months := CountPositive(values);
    DtoTotals(RoundHundredths(total), if months > 0 then RoundHundredths(total / months as real) else 0)
  }

  /** What `run_dto_query` returns after its loop: `(None, zeros)` when an exception
      escaped, else `dto_monthly` and its summary. */
  function DtoResult(f: DtoProgress): (r: (Option<seq<DtoRow>>, DtoTotals))
    ensures r.0.None? <==> f.raised
    ensures r.0.None? ==> r.1 == DtoTotals(0, 0)
    ensures r.0.Some? ==> r.0.value == f.monthly && r.1 == DtoSummary(Values(f.monthly))
  {
    if f.raised then (None, DtoTotals(0, 0)) else (Some(f.monthly), DtoSummary(Values(f.monthly)))
  }

  /** Months with no transfer add nothing to the total and do not dilute the average. */
  lemma ZeroMonthChangesNothing(values: seq<real>)
    ensures DtoSummary(values + [0.0]) == DtoSummary(values)
  {
    assert (values + [0.0])[..|values|] == values;
  }

  /** The averaging example: months of 0, 10, 0 and 20 GB give a total of 30 GB and an
      average of 15 GB, over the two months with traffic. */
  lemma NonzeroMonthAveraging()
    ensures DtoSummary([0.0, 10.0, 0.0, 20.0]) == DtoTotals(3000, 1500)
  {
    var a, b, c, xs := [0.0], [0.0, 10.0], [0.0, 10.0, 0.0], [0.0, 10.0, 0.0, 20.0];
    assert a[..0] == [] && b[..1] == a && c[..2] == b && xs[..3] == c;
    assert RealSum(a) == 0.0 && RealSum(b) == 10.0 && RealSum(c) == 10.0 && RealSum(xs) == 30.0;
    assert CountPositive(a) == 0 && CountPositive(b) == 1 && CountPositive(c) == 1 && CountPositive(xs) == 2;
  }

  // ---------------------------------------------------------------- the loop

  /** Once raised, the remaining periods change nothing. */
  lemma {:induction false} RaisedDto(ce: CostExplorer, resume: bool, pr: DtoProgress, ranges: seq<(string, string)>)
    requires Ranged(ranges) && pr.raised
    ensures VisitDtoRanges(ce, resume, pr, ranges) == pr
    decreases |ranges|
  {
    if ranges != [] {
      RaisedDto(ce, resume, pr, ranges[1..]);
    }
  }

  /** A run that does not raise records one month per period, in period order, under
      the period's label. */
  lemma {:induction false} DtoMonthsInOrder(ce: CostExplorer, resume: bool, pr: DtoProgress, ranges: seq<(string, string)>)
    requires Ranged(ranges)
    ensures var f := VisitDtoRanges(ce, resume, pr, ranges);
      !f.raised ==>
        && |f.monthly| == |pr.monthly| + |ranges|
        && f.monthly[..|pr.monthly|] == pr.monthly
        && forall j :: 0 <= j < |ranges| ==> f.monthly[|pr.monthly| + j].month == LabelOf(ranges[j])
    decreases |ranges|
  {
    if ranges != [] {
      var f := VisitDtoRanges(ce, resume, pr, ranges);
      var p1 := VisitDto(ce, resume, pr, ranges[0]);
      DtoMonthsInOrder(ce, resume, p1, ranges[1..]);
      if !f.raised {
        if p1.raised {
          RaisedDto(ce, resume, p1, ranges[1..]);
        }
        var n := |pr.monthly|;
        assert p1.monthly == pr.monthly + [p1.monthly[n]] && p1.monthly[n].month == LabelOf(ranges[0]);
        assert f.monthly[..n + 1] == p1.monthly;
        assert f.monthly[..n] == f.monthly[..n + 1][..n];
        forall j | 0 <= j < |ranges| ensures f.monthly[n + j].month == LabelOf(ranges[j]) {
          if j > 0 {
            assert ranges[1..][j - 1] == ranges[j];
          }
        }
      }
    }
  }

  /** The run's months are the thirteen window labels, oldest first: distinct, so the
      dictionary `dto_monthly` holds exactly one value per period and overwrites none. */
  lemma {:induction false} DtoRunMonths(ce: CostExplorer, resume: bool, start: DtoProgress, now: Instant)
    requires SupportedNow(now) && start.monthly == []
    ensures var f := DtoRun(ce, resume, start, now);
      !f.raised ==>
        && |f.monthly| == 13
        && (forall j :: 0 <= j < 13 ==> f.monthly[j].month == MonthLabel(now.month - 12 + j))
        && (forall i, j :: 0 <= i < j < 13 ==> LexLess(f.monthly[i].month, f.monthly[j].month))
  {
    PlannedRanges(now);
    var ranges := DtoMonthRanges(now);
    var m0 := now.month - 12;
    MonthsOver(ce, resume, start, ranges, m0);
    var f := VisitDtoRanges(ce, resume, start, ranges);
    if !f.raised {
      forall j | 0 <= j < 13 ensures f.monthly[j].month == MonthLabel(now.month - 12 + j) {
        assert f.monthly[j].month == MonthLabel(m0 + j);
      }
      forall i, j | 0 <= i < j < 13 ensures LexLess(f.monthly[i].month, f.monthly[j].month) {
      }
    }
  }

  lemma {:induction false} MonthsOver(ce: CostExplorer, resume: bool, start: DtoProgress, ranges: seq<(string, string)>, m0: int)
    requires Ranged(ranges) && |ranges| == 13 && start.monthly == [] && LabelRange(m0) && LabelRange(m0 + 12)
    requires forall j :: 0 <= j < 13 ==> LabelOf(ranges[j]) == MonthLabel(m0 + j)
    ensures var f := VisitDtoRanges(ce, resume, start, ranges);
      !f.raised ==>
        && |f.monthly| == 13
        && (forall j :: 0 <= j < 13 ==> f.monthly[j].month == MonthLabel(m0 + j))
        && (forall i, j :: 0 <= i < j < 13 ==> LexLess(f.monthly[i].month, f.monthly[j].month))
  {
    var f := VisitDtoRanges(ce, resume, start, ranges);
    DtoMonthsInOrder(ce, resume, start, ranges);
    if !f.raised {
      var ms := f.monthly;
      assert |start.monthly| == 0;
      forall j | 0 <= j < 13 ensures ms[j].month == MonthLabel(m0 + j) {
        assert ms[|start.monthly| + j].month == LabelOf(ranges[j]);
      }
      LabelledAscending(ms, m0);
    }
  }

  /** Rows labelled with thirteen consecutive months are in ascending label order. */
  lemma LabelledAscending(ms: seq<DtoRow>, m0: int)
    requires |ms| == 13 && LabelRange(m0) && LabelRange(m0 + 12)
    requires forall j :: 0 <= j < 13 ==> ms[j].month == MonthLabel(m0 + j)
    ensures forall i, j :: 0 <= i < j < 13 ==> LexLess(ms[i].month, ms[j].month)
  {
    forall i, j | 0 <= i < j < 13 ensures LexLess(ms[i].month, ms[j].month) {
      LabelPair(ms[i].month, ms[j].month, m0 + i, m0 + j);
    }
  }

  /** `MonthLabelInjective` for one pair of recorded labels; stated over the label
      strings so that the quantified proofs in this module instantiate it one pair at a time,
      which keeps them quick for the solver. */
  lemma LabelsDiffer(a: string, b: string, m1: int, m2: int)
    requires LabelRange(m1) && LabelRange(m2) && m1 != m2
    requires a == MonthLabel(m1) && b == MonthLabel(m2)
    ensures a != b
  {
    MonthLabelInjective(m1, m2);
  }

  /** `MonthLabelOrder` for one pair of recorded labels, stated the same way as
      `LabelsDiffer` for the same reason. */
  lemma LabelPair(a: string, b: string, m1: int, m2: int)
    requires LabelRange(m1) && LabelRange(m2) && m1 < m2
    requires a == MonthLabel(m1) && b == MonthLabel(m2)
    ensures LexLess(a, b)
  {
    MonthLabelOrder(m1, m2);
  }

  // ---------------------------------------------------------------- append-only, write-through

  /** The cache is the rows it started with followed by rows recorded in `dto_monthly`,
      and the file holds the whole frame once one row has been appended. In resume mode
      an appended row's month was in no earlier cache row. */
  predicate DtoWriteThrough(resume: bool, base: seq<DtoRow>, file0: Stored<DtoRow>, p: DtoProgress)
  {
    var rows := Rows(p.cache);
    && base <= rows
    && (rows == base ==> p.file == file0)
    && (rows != base ==> p.cache.Table? && p.file == SaveToCache(p.cache))
    && (forall i :: |base| <= i < |rows| ==> rows[i] in p.monthly)
    && (resume ==> forall i :: |base| <= i < |rows| ==> FirstGb(rows[..i], rows[i].month).None?)
  }

  lemma DtoWriteThroughStep(ce: CostExplorer, resume: bool, base: seq<DtoRow>, file0: Stored<DtoRow>, p: DtoProgress, range: (string, string))
    requires |range.0| >= 7 && DtoWriteThrough(resume, base, file0, p)
    ensures DtoWriteThrough(resume, base, file0, VisitDto(ce, resume, p, range))
  {
    var p' := VisitDto(ce, resume, p, range);
    var rows, rows' := Rows(p.cache), Rows(p'.cache);
    if rows' != rows {
      assert rows' == rows + [rows'[|rows|]];
      assert rows'[..|rows|] == rows;
      forall i | |base| <= i < |rows'| ensures rows'[i] in p'.monthly {
        if i < |rows| {
          assert rows'[i] == rows[i];
        }
      }
      if resume {
        forall i | |base| <= i < |rows'| ensures FirstGb(rows'[..i], rows'[i].month).None? {
          if i < |rows| {
            assert rows'[..i] == rows[..i] && rows'[i] == rows[i];
          }
        }
      }
    }
  }

  /** Append-only, write-through DTO cache: the rows the run appends follow the rows it
      started with, each is a month recorded in `dto_monthly`, and from the first append
      on, reloading the file gives exactly the frame. In resume mode no month is
      appended that an earlier cache row already held. */
  lemma DtoIsAppendOnlyWriteThrough(ce: CostExplorer, resume: bool, cache0: Frame<DtoRow>, file0: Stored<DtoRow>, q0: nat, now: Instant)
    requires SupportedNow(now)
    ensures var f := DtoRun(ce, resume, DtoStart(cache0, file0, q0), now);
      var rows := Rows(f.cache);
      && Rows(cache0) <= rows
      && (rows == Rows(cache0) ==> f.file == file0)
      && (rows != Rows(cache0) ==> LoadCache(f.file) == f.cache)
      && (forall i :: |Rows(cache0)| <= i < |rows| ==> rows[i] in f.monthly)
      && (resume ==> forall i :: |Rows(cache0)| <= i < |rows| ==> FirstGb(rows[..i], rows[i].month).None?)
  {
    PlannedRanges(now);
    var ranges := DtoMonthRanges(now);
    DtoRangesPreserve(ce, resume, Rows(cache0), file0, DtoStart(cache0, file0, q0), ranges);
  }

  lemma {:induction false} DtoRangesPreserve(ce: CostExplorer, resume: bool, base: seq<DtoRow>, file0: Stored<DtoRow>, pr: DtoProgress, ranges: seq<(string, string)>)
    requires Ranged(ranges) && DtoWriteThrough(resume, base, file0, pr)
    ensures DtoWriteThrough(resume, base, file0, VisitDtoRanges(ce, resume, pr, ranges))
    decreases |ranges|
  {
    if ranges != [] {
      DtoWriteThroughStep(ce, resume, base, file0, pr, ranges[0]);
      DtoRangesPreserve(ce, resume, base, file0, VisitDto(ce, resume, pr, ranges[0]), ranges[1..]);
    }
  }

  // ---------------------------------------------------------------- resume

  /** Every recorded month is the first cache row of its month. */
  predicate Consistent(p: DtoProgress)
  {
    forall j :: 0 <= j < |p.monthly| ==> FirstGb(Rows(p.cache), p.monthly[j].month) == Some(p.monthly[j].gb)
  }

  /** The labels of `ranges` are distinct and none is already recorded; in a run that
      does not resume, none is in the cache either. */
  predicate Unvisited(resume: bool, p: DtoProgress, ranges: seq<(string, string)>)
    requires Ranged(ranges)
  {
    && (forall i, j :: 0 <= i < j < |ranges| ==> LabelOf(ranges[i]) != LabelOf(ranges[j]))
    && (forall j, k :: 0 <= j < |ranges| && 0 <= k < |p.monthly| ==> LabelOf(ranges[j]) != p.monthly[k].month)
    && (!resume ==> forall j :: 0 <= j < |ranges| ==> FirstGb(Rows(p.cache), LabelOf(ranges[j])).None?)
  }

  lemma {:induction false} ConsistentRanges(ce: CostExplorer, resume: bool, pr: DtoProgress, ranges: seq<(string, string)>)
    requires Ranged(ranges) && Consistent(pr) && Unvisited(resume, pr, ranges)
    ensures Consistent(VisitDtoRanges(ce, resume, pr, ranges))
    decreases |ranges|
  {
    if ranges != [] {
      var monthLabel := LabelOf(ranges[0]);
      var p1 := VisitDto(ce, resume, pr, ranges[0]);
      var rows, rows1 := Rows(pr.cache), Rows(p1.cache);
      if rows1 != rows {
        var row := rows1[|rows|];
        assert rows1 == rows + [row] && row.month == monthLabel;
        assert FirstGb(rows, monthLabel).None?;
        forall m | FirstGb(rows, m).Some? ensures FirstGb(rows1, m) == FirstGb(rows, m) {
          FirstGbAppend(rows, row, m);
        }
        FirstGbAppend(rows, row, monthLabel);
        forall j | 0 <= j < |ranges| - 1 ensures FirstGb(rows1, LabelOf(ranges[1..][j])).None? || resume {
          if !resume {
            assert ranges[1..][j] == ranges[j + 1];
            FirstGbAppend(rows, row, LabelOf(ranges[j + 1]));
          }
        }
      }
      assert forall j :: 0 <= j < |ranges| - 1 ==> ranges[1..][j] == ranges[j + 1];
      assert forall k :: 0 <= k < |p1.monthly| ==> p1.monthly[k].month == monthLabel || (k < |pr.monthly| && p1.monthly[k] == pr.monthly[k]);
      ConsistentRanges(ce, resume, p1, ranges[1..]);
    }
  }

  /** A resumed visit of a period whose month is cached only records the cached value. */
  lemma ResumeCachedStep(ce: CostExplorer, pr: DtoProgress, range: (string, string))
    requires |range.0| >= 7 && !pr.raised && FirstGb(Rows(pr.cache), LabelOf(range)).Some?
    ensures VisitDto(ce, true, pr, range)
      == pr.(monthly := pr.monthly + [DtoRow(LabelOf(range), FirstGb(Rows(pr.cache), LabelOf(range)).value)])
  {
    assert pr.cache.Table?;
  }

  /** A resumed run over a cache holding every period's month makes no query, changes
      neither the cache nor its file, and records each month's first cached value. */
  lemma {:induction false} ResumeOverFullDtoCache(ce: CostExplorer, pr: DtoProgress, ranges: seq<(string, string)>)
    requires Ranged(ranges) && !pr.raised
    requires forall j :: 0 <= j < |ranges| ==> FirstGb(Rows(pr.cache), LabelOf(ranges[j])).Some?
    ensures var f := VisitDtoRanges(ce, true, pr, ranges);
      && !f.raised && f.queries == pr.queries && f.cache == pr.cache && f.file == pr.file
      && |f.monthly| == |pr.monthly| + |ranges|
      && f.monthly[..|pr.monthly|] == pr.monthly
      && forall j :: 0 <= j < |ranges| ==>
        f.monthly[|pr.monthly| + j] == DtoRow(LabelOf(ranges[j]), FirstGb(Rows(pr.cache), LabelOf(ranges[j])).value)
    decreases |ranges|
  {
    if ranges != [] {
      var rest := ranges[1..];
      assert forall j :: 0 <= j < |rest| ==> rest[j] == ranges[j + 1];
      ResumeCachedStep(ce, pr, ranges[0]);
      var p1 := VisitDto(ce, true, pr, ranges[0]);
      var n := |pr.monthly|;
      ResumeOverFullDtoCache(ce, p1, rest);
      var f := VisitDtoRanges(ce, true, p1, rest);
      assert f == VisitDtoRanges(ce, true, pr, ranges);
      assert f.monthly[..n + 1] == p1.monthly;
      assert f.monthly[..n] == f.monthly[..n + 1][..n];
      forall j | 0 <= j < |ranges|
        ensures f.monthly[n + j] == DtoRow(LabelOf(ranges[j]), FirstGb(Rows(pr.cache), LabelOf(ranges[j])).value)
      {
        if j == 0 {
          assert f.monthly[n] == p1.monthly[n];
        } else {
          assert f.monthly[n + j] == f.monthly[|p1.monthly| + (j - 1)];
        }
      }
    }
  }

  /** Resume idempotence for transfer-out: after a run that completes, a resumed run
      against the cache it left makes no Cost Explorer query, leaves the cache and its
      file unchanged, and yields the same months with the same values. */
  lemma DtoResumeIdempotent(ce: CostExplorer, resume: bool, cache0: Frame<DtoRow>, file0: Stored<DtoRow>, q0: nat, now: Instant)
    requires SupportedNow(now) && (resume || cache0.Blank?)
    ensures var first := DtoRun(ce, resume, DtoStart(cache0, file0, q0), now);
      var second := DtoRun(ce, true, DtoStart(first.cache, first.file, first.queries), now);
      !first.raised ==>
        && !second.raised && second.queries == first.queries
        && second.cache == first.cache && second.file == first.file
        && second.monthly == first.monthly
  {
    PlannedRanges(now);
    var ranges := DtoMonthRanges(now);
    forall i, j | 0 <= i < j < |ranges| ensures LabelOf(ranges[i]) != LabelOf(ranges[j]) {
      LabelsDiffer(LabelOf(ranges[i]), LabelOf(ranges[j]), now.month - 12 + i, now.month - 12 + j);
    }
    ResumeIdempotentOver(ce, resume, DtoStart(cache0, file0, q0), ranges);
  }

  lemma ResumeIdempotentOver(ce: CostExplorer, resume: bool, start: DtoProgress, ranges: seq<(string, string)>)
    requires Ranged(ranges) && start.monthly == [] && !start.raised
    requires forall i, j :: 0 <= i < j < |ranges| ==> LabelOf(ranges[i]) != LabelOf(ranges[j])
    requires !resume ==> start.cache.Blank?
    ensures var first := VisitDtoRanges(ce, resume, start, ranges);
      var second := VisitDtoRanges(ce, true, DtoStart(first.cache, first.file, first.queries), ranges);
      !first.raised ==>
        && !second.raised && second.queries == first.queries
        && second.cache == first.cache && second.file == first.file
        && second.monthly == first.monthly
  {
    var first := VisitDtoRanges(ce, resume, start, ranges);
    if !first.raised {
      CompletedRunIsCached(ce, resume, start, ranges);
      var rows := Rows(first.cache);
      var restart := DtoStart(first.cache, first.file, first.queries);
      ResumeOverFullDtoCache(ce, restart, ranges);
      var second := VisitDtoRanges(ce, true, restart, ranges);
      forall j | 0 <= j < |first.monthly| ensures second.monthly[j] == first.monthly[j] {
        assert second.monthly[0 + j] == DtoRow(LabelOf(ranges[j]), FirstGb(rows, LabelOf(ranges[j])).value);
      }
    }
  }

  /** After a run that does not raise, every period's month is in the cache, with the
      value the run recorded for it. */
  lemma CompletedRunIsCached(ce: CostExplorer, resume: bool, start: DtoProgress, ranges: seq<(string, string)>)
    requires Ranged(ranges) && start.monthly == [] && !start.raised
    requires forall i, j :: 0 <= i < j < |ranges| ==> LabelOf(ranges[i]) != LabelOf(ranges[j])
    requires !resume ==> start.cache.Blank?
    ensures var first := VisitDtoRanges(ce, resume, start, ranges);
      !first.raised ==>
        && |first.monthly| == |ranges|
        && forall j :: 0 <= j < |ranges| ==>
          first.monthly[j].month == LabelOf(ranges[j])
          && FirstGb(Rows(first.cache), LabelOf(ranges[j])) == Some(first.monthly[j].gb)
  {
    var first := VisitDtoRanges(ce, resume, start, ranges);
    ConsistentRanges(ce, resume, start, ranges);
    DtoMonthsInOrder(ce, resume, start, ranges);
    if !first.raised {
      forall j | 0 <= j < |ranges| ensures first.monthly[j].month == LabelOf(ranges[j]) {
        assert first.monthly[|start.monthly| + j].month == LabelOf(ranges[j]);
      }
    }
  }
}
