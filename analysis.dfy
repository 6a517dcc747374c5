/** The script's run: its module-level state (`nat_cache_df`, `dto_cache_df`,
    `resume_mode`, `success_flag` and the two cache files on disk) as one object, the
    collectors as loops over that state, and the lifecycle around them: the resume
    decision, the collection, the summaries, and the clean-up registered with `atexit`.
    Each collector is proved to compute exactly its fold in NatCollect or Dto. */
module Analysis {
  import opened Basics
  import opened Text
  import opened Months
  import opened Units
  import opened Metrics
  import opened Cache
  import opened Accounts
  import opened NatCollect
  import opened Dto
  import opened NatSummary

  /** How `run_aws_analysis` ends: an uncaught exception, the "no NAT Gateway usage data"
      exit, or the summary with the NAT rows of this run. */
  datatype Ending =
    | Crashed
    | NoUsage
    | Completed(natRows: seq<NatRow>, natTotals: NatTotals, dtoTotals: DtoTotals)

  /** The resume prompt's answer, `choice.strip().lower() == 'y'`. */
  predicate Affirmative(answer: string)
  {
    Lower(Strip(answer)) == "y"
  }

  /** Surrounding white space and the letter's case are ignored: the answer resumes
      exactly when what is left after stripping is a single `y` or `Y`. */
  lemma {:induction false} AffirmativeMeans(answer: string)
    ensures Affirmative(answer) <==> Strip(answer) == "y" || Strip(answer) == "Y"
  {
    var r := Strip(answer);
    if |r| == 1 {
      assert Lower(r) == [LowerChar(r[0])];
      if r[0] == 'y' {
        assert r == "y";
      } else if r[0] == 'Y' {
        assert r == "Y";
      }
    } else {
      assert |Lower(r)| != |"y"|;
    }
  }

  /** What one invocation is given: the AWS services as they answer, the operator's
      answers to the mode prompts, the regions chosen, the Organizations listing with the
      line typed should it fail, what `get_caller_identity` answers, and the clock as each planner
      reads it (`get_monthly_ranges` and `get_dto_month_ranges` each read it anew, so a
      run that crosses a month boundary plans its DTO months one month later). */
  datatype Setting = Setting(
    aws: Aws, ce: CostExplorer, useOrg: bool, includeDto: bool, regions: seq<Region>,
    listing: Listing, typedAccounts: string, callerIdentity: Outcome<AccountId>,
    natNow: Instant, dtoNow: Instant)

  predicate Supported(s: Setting)
  {
    SupportedNow(s.natNow) && SupportedNow(s.dtoNow)
  }

  /** Outside organisation mode the caller's account is looked up, unguarded, before
      the collector runs; a failed lookup raises out of the run. */
  predicate IdentityFails(s: Setting)
  {
    !s.useOrg && s.callerIdentity.Raised?
  }

  /** The accounts the NAT collector visits: the organisation's (or the typed fallback)
      in organisation mode, else the caller's own (none when it cannot be looked up). */
  function RunAccounts(s: Setting): seq<AccountId>
  {
    if !s.useOrg then (if s.callerIdentity.Returned? then [s.callerIdentity.value] else [])
    else if s.listing.Listed? then ActiveIds(s.listing.pages)
    else TypedAccountIds(s.typedAccounts)
  }

  /** The part of the script's state a run reads and writes: `resume_mode`, the two
      frames, the two files, the calls made so far, and `success_flag`. */
  datatype RunState = RunState(
    resume: bool, natCache: Frame<NatRow>, natFile: Stored<NatRow>,
    dtoCache: Frame<DtoRow>, dtoFile: Stored<DtoRow>,
    statCalls: nat, usageCalls: nat, success: bool)

  /** The resume prompt: asked only when a cache file exists; yes loads each file that
      exists and turns resume mode on, anything else deletes both files. */
  function Prompted(st: RunState, answer: string): RunState
  {
    if st.natFile == Absent && st.dtoFile == Absent then st
    else if Affirmative(answer) then
      st.(resume := true,
          natCache := if st.natFile != Absent then LoadCache(st.natFile) else st.natCache,
          dtoCache := if st.dtoFile != Absent then LoadCache(st.dtoFile) else st.dtoCache)
    else st.(natFile := Absent, dtoFile := Absent)
  }

  /** The NAT collection a run makes from state `st`; none when the caller's account
      cannot be looked up. */
  function NatPhase(s: Setting, st: RunState): Progress
    requires Supported(s)
  {
    if IdentityFails(s) then Fresh(st.natCache, st.natFile, st.statCalls)
    else CollectNat(s.aws, st.resume, s.useOrg, Fresh(st.natCache, st.natFile, st.statCalls), s.natNow, RunAccounts(s), s.regions)
  }

  /** The DTO collection a run makes from state `st`, when DTO is requested. */
  function DtoPhase(s: Setting, st: RunState): DtoProgress
    requires Supported(s)
  {
    DtoRun(s.ce, st.resume, DtoStart(st.dtoCache, st.dtoFile, st.usageCalls), s.dtoNow)
  }

  /** `run_aws_analysis` after the prompt: the caller lookup outside organisation mode
      and the NAT collection (an exception escaping either ends the run); then, if requested, the DTO collection; then the no-data exit,
      or `success_flag` and the summary. */
  function Analysed(s: Setting, st: RunState): (RunState, Ending)
    requires Supported(s)
  {
    var f := NatPhase(s, st);
    var st1 := st.(natCache := f.cache, natFile := f.file, statCalls := f.queries);
    if IdentityFails(s) || f.raised then (st1, Crashed)
    else
      var d := DtoPhase(s, st);
      var st2 := if s.includeDto then st1.(dtoCache := d.cache, dtoFile := d.file, usageCalls := d.queries) else st1;
      var dtoTotals := if s.includeDto then DtoResult(d).1 else DtoTotals(0, 0);
      if f.results == [] then (st2, NoUsage)
      else (st2.(success := true), Completed(f.results, Summarize(f.results), dtoTotals))
  }

  /** `cleanup_cache` at exit. */
  function AtExit(st: RunState): RunState
  {
    if st.success then st.(natFile := Absent, dtoFile := Absent) else st
  }

  /** How a run ends: it crashes exactly when the caller lookup or the NAT collection
      raises, finds no usage exactly when that collection returns no row, and otherwise reports this run's rows
      and their summary, with zero DTO totals unless DTO was requested. `success_flag` is
      set by a completed run and by nothing else. */
  lemma AnalysedEnding(s: Setting, st: RunState)
    requires Supported(s)
    ensures var (fin, e) := Analysed(s, st);
      var f := NatPhase(s, st);
      && (e.Crashed? <==> IdentityFails(s) || f.raised)
      && (IdentityFails(s) ==> fin == st)
      && (e.NoUsage? <==> !IdentityFails(s) && !f.raised && f.results == [])
      && (e.Completed? ==> e.natRows == f.results && e.natRows != [] && e.natTotals == Summarize(e.natRows))
      && (e.Completed? ==> e.dtoTotals == if s.includeDto then DtoResult(DtoPhase(s, st)).1 else DtoTotals(0, 0))
      && (fin.success <==> st.success || e.Completed?)
      && (!s.includeDto || IdentityFails(s) || f.raised ==> fin.dtoCache == st.dtoCache && fin.dtoFile == st.dtoFile)
  {
  }

  /** The recovery contract. After a whole invocation (prompt, analysis, clean-up at
      exit) that did not complete, the NAT cache holds the rows it started from followed
      by every row this run recorded, and its file is untouched if there were none and
      otherwise reloads as that frame; the DTO cache likewise only grew and its file
      reloads as it once a month was appended. A completed invocation leaves no cache
      file. */
  lemma CheckpointAtExit(s: Setting, st: RunState, answer: string)
    requires Supported(s) && !st.success
    ensures var p := Prompted(st, answer);
      var (fin, e) := Analysed(s, p);
      var end := AtExit(fin);
      var f := NatPhase(s, p);
      && (e.Completed? <==> end.success)
      && (e.Completed? ==> end.natFile == Absent && end.dtoFile == Absent)
      && (!e.Completed? ==>
           && end == fin
           && Rows(end.natCache) == Rows(p.natCache) + f.results
           && (f.results == [] ==> end.natFile == p.natFile)
           && (f.results != [] ==> LoadCache(end.natFile) == end.natCache)
           && Rows(p.dtoCache) <= Rows(end.dtoCache)
           && (Rows(end.dtoCache) == Rows(p.dtoCache) ==> end.dtoFile == p.dtoFile)
           && (Rows(end.dtoCache) != Rows(p.dtoCache) ==> LoadCache(end.dtoFile) == end.dtoCache))
  {
    var p := Prompted(st, answer);
    if IdentityFails(s) {
      return;
    }
    CollectIsAppendOnlyWriteThrough(s.aws, p.resume, s.useOrg, p.natCache, p.natFile, p.statCalls,
                                    s.natNow, RunAccounts(s), s.regions);
    DtoIsAppendOnlyWriteThrough(s.ce, p.resume, p.dtoCache, p.dtoFile, p.usageCalls, s.dtoNow);
  }

  class AnalysisRun {
    /** `NAT_CACHE_FILE` and `DTO_CACHE_FILE` on disk. */
    var natFile: Stored<NatRow>
    var dtoFile: Stored<DtoRow>
    var natCache: Frame<NatRow>
    var dtoCache: Frame<DtoRow>
    var resumeMode: bool
    var successFlag: bool
    /** The `get_metric_statistics` and `get_cost_and_usage` calls made so far. */
    ghost var statCalls: nat
    ghost var usageCalls: nat

    /** The module globals at import time, with whatever cache files an earlier run left. */
    constructor(natOnDisk: Stored<NatRow>, dtoOnDisk: Stored<DtoRow>)
      ensures natFile == natOnDisk && dtoFile == dtoOnDisk
      ensures natCache == Blank && dtoCache == Blank
      ensures !resumeMode && !successFlag && statCalls == 0 && usageCalls == 0
    {
      natFile, dtoFile := natOnDisk, dtoOnDisk;
      natCache, dtoCache := Blank, Blank;
      resumeMode, successFlag := false, false;
      statCalls, usageCalls := 0, 0;
    }

    ghost function State(): RunState
      reads this
    {
      RunState(resumeMode, natCache, natFile, dtoCache, dtoFile, statCalls, usageCalls, successFlag)
    }

    ghost function Current(results: seq<NatRow>): Progress
      reads this
    {
      Progress(results, natCache, natFile, statCalls, false)
    }

    ghost function CurrentDto(monthly: seq<DtoRow>): DtoProgress
      reads this
    {
      DtoProgress(monthly, dtoCache, dtoFile, usageCalls, false)
    }

    // -------------------------------------------------------------- the resume decision

    /** The start of `run_aws_analysis`. When a cache file exists the operator is asked;
        an answer of `y` (after stripping and lower-casing) turns resume mode on and loads
        each file that exists, any other answer deletes both files. Without a cache file
        nothing is asked and nothing changes. */
    method DecideResume(answer: string)
      modifies this`resumeMode, this`natCache, this`dtoCache, this`natFile, this`dtoFile
      ensures var present := old(natFile) != Absent || old(dtoFile) != Absent;
        var yes := Affirmative(answer);
        && resumeMode == (old(resumeMode) || (present && yes))
        && (present && yes ==>
             natFile == old(natFile) && dtoFile == old(dtoFile)
             && natCache == (if natFile != Absent then LoadCache(natFile) else old(natCache))
             && dtoCache == (if dtoFile != Absent then LoadCache(dtoFile) else old(dtoCache)))
        && (present && !yes ==>
             natFile == Absent && dtoFile == Absent && natCache == old(natCache) && dtoCache == old(dtoCache))
        && (!present ==>
             natFile == old(natFile) && dtoFile == old(dtoFile) && natCache == old(natCache) && dtoCache == old(dtoCache))
      ensures State() == Prompted(old(State()), answer)
    {
      if natFile != Absent || dtoFile != Absent {
        if Affirmative(answer) {
          resumeMode := true;
          if natFile != Absent {
            natCache := LoadCache(natFile);
          }
          if dtoFile != Absent {
            dtoCache := LoadCache(dtoFile);
          }
        } else {
          if natFile != Absent {
            natFile := Absent;
          }
          if dtoFile != Absent {
            dtoFile := Absent;
          }
        }
      }
    }

    // -------------------------------------------------------------- the NAT collectors

    /** The inner loop of a cell: both metrics for each discovered gateway, summed. */
    method FetchGatewayBytes(aws: Aws, w: Window, acct: AccountId, region: Region, ids: seq<NatId>)
      returns (upload: nat, download: nat)
      modifies this`statCalls
      ensures upload == SumOver(aws, acct, region, w, ids, MetricNatUpload)
      ensures download == SumOver(aws, acct, region, w, ids, MetricNatDownload)
      ensures statCalls == old(statCalls) + 2 * |ids|
    {
      upload, download := 0, 0;
      for n := 0 to |ids|
        invariant upload == SumOver(aws, acct, region, w, ids[..n], MetricNatUpload)
        invariant download == SumOver(aws, acct, region, w, ids[..n], MetricNatDownload)
        invariant statCalls == old(statCalls) + 2 * n
      {
        assert ids[..n + 1][..n] == ids[..n];
        upload := upload + GetMetricSum(aws.statistics(acct, region, NatQuery(MetricNatUpload, ids[n], w)));
        statCalls := statCalls + 1;
        download := download + GetMetricSum(aws.statistics(acct, region, NatQuery(MetricNatDownload, ids[n], w)));
        statCalls := statCalls + 1;
      }
      assert ids[..|ids|] == ids;
    }

    /** One (month, account, region) cell, the body shared by both collectors: discover
        the gateways (an exception there escapes), fetch and sum both metrics for each, convert to hundredths of a
        GiB; then, in resume mode, raise on a frame without columns or drop a cell the
        cache already holds; else record the row and write the cache file. */
    method CollectCell(aws: Aws, w: Window, acct: AccountId, region: Region, results: seq<NatRow>)
      returns (results': seq<NatRow>, raised: bool)
      requires LabelRange(w.start.month)
      modifies this`natCache, this`natFile, this`statCalls
      ensures Progress(results', natCache, natFile, statCalls, raised)
        == Visit(aws, resumeMode, Progress(results, old(natCache), old(natFile), old(statCalls), false), w, acct, region)
    {
      results', raised := results, false;
      var listed := aws.listMetrics(acct, region, w);
      if listed.Raised? {
        raised := true;
        return;
      }
      var ids := DiscoverNatIds(listed.value);
      if ids == [] {
        return;
      }
      var upload, download := FetchGatewayBytes(aws, w, acct, region, ids);
      var uploadGb := BytesToCentiGiB(upload);
      var downloadGb := BytesToCentiGiB(download);
      var row := NatRow(acct, region, MonthLabel(w.start.month), uploadGb, downloadGb, uploadGb + downloadGb);
      assert CellRow(aws, w, acct, region) == Some(row);
      ghost var counted := Progress(results, natCache, natFile, statCalls, false);
      assert counted == old(Current(results)).(queries := old(statCalls) + 2 * |ids|);
      if resumeMode {
        if natCache.Blank? {
          raised := true;
          return;
        }
        if HasKey(natCache.rows, KeyOf(row)) {
          return;
        }
      }
      results' := results + [row];
      natCache := Concat(natCache, row);
      natFile := SaveToCache(natCache);
    }

    /** `run_org_query`: months, then accounts (skipping those whose role cannot be
        assumed), then regions. It returns the rows recorded, or raises out of the resume
        check; either way the cache, the file and the query count are those of the fold. */
    method RunOrgQuery(aws: Aws, accounts: seq<AccountId>, regions: seq<Region>, now: Instant)
      returns (outcome: Outcome<seq<NatRow>>)
      requires SupportedNow(now)
      modifies this`natCache, this`natFile, this`statCalls
      ensures var f := CollectNat(aws, resumeMode, true, Fresh(old(natCache), old(natFile), old(statCalls)), now, accounts, regions);
        && natCache == f.cache && natFile == f.file && statCalls == f.queries
        && (outcome.Raised? <==> f.raised) && (outcome.Returned? ==> outcome.value == f.results)
    {
      PlannerLabelled(now);
      var ws := MonthlyRanges(now, 12);
      ghost var target := CollectNat(aws, resumeMode, true, Fresh(natCache, natFile, statCalls), now, accounts, regions);
      var results: seq<NatRow> := [];
      for i := 0 to |ws|
        invariant VisitMonths(aws, resumeMode, true, Current(results), ws[i..], accounts, regions) == target
      {
        var w := ws[i];
        assert ws[i..][0] == w && ws[i..][1..] == ws[i + 1..];
        for k := 0 to |accounts|
          invariant VisitMonths(aws, resumeMode, true,
            VisitAccounts(aws, resumeMode, true, Current(results), w, accounts[k..], regions), ws[i + 1..], accounts, regions) == target
        {
          var acct := accounts[k];
          assert accounts[k..][0] == acct && accounts[k..][1..] == accounts[k + 1..];
          if !aws.assumeRole(acct, w) {
            continue;
          }
          for g := 0 to |regions|
            invariant VisitMonths(aws, resumeMode, true,
              VisitAccounts(aws, resumeMode, true,
                VisitRegions(aws, resumeMode, Current(results), w, acct, regions[g..]),
                w, accounts[k + 1..], regions), ws[i + 1..], accounts, regions) == target
          {
            assert regions[g..][0] == regions[g] && regions[g..][1..] == regions[g + 1..];
            var raised;
            results, raised := CollectCell(aws, w, acct, regions[g], results);
            if raised {
              var p := Progress(results, natCache, natFile, statCalls, true);
              RaisedRegions(aws, resumeMode, p, w, acct, regions[g + 1..]);
              RaisedAccounts(aws, resumeMode, true, p, w, accounts[k + 1..], regions);
              RaisedMonths(aws, resumeMode, true, p, ws[i + 1..], accounts, regions);
              return Raised;
            }
          }
        }
      }
      return Returned(results);
    }

    /** `run_single_account_query`: the caller's own account, looked up first (a failed
        lookup raises before anything is collected), no role to assume, months then
        regions; otherwise the same cells as the organisation collector. */
    method RunSingleAccountQuery(aws: Aws, identity: Outcome<AccountId>, regions: seq<Region>, now: Instant)
      returns (outcome: Outcome<seq<NatRow>>)
      requires SupportedNow(now)
      modifies this`natCache, this`natFile, this`statCalls
      ensures identity.Raised? ==>
        outcome.Raised? && natCache == old(natCache) && natFile == old(natFile) && statCalls == old(statCalls)
      ensures identity.Returned? ==>
        var f := CollectNat(aws, resumeMode, false, Fresh(old(natCache), old(natFile), old(statCalls)), now, [identity.value], regions);
        && natCache == f.cache && natFile == f.file && statCalls == f.queries
        && (outcome.Raised? <==> f.raised) && (outcome.Returned? ==> outcome.value == f.results)
    {
      if identity.Raised? {
        return Raised;
      }
      var acct := identity.value;
      PlannerLabelled(now);
      var ws := MonthlyRanges(now, 12);
      ghost var target := CollectNat(aws, resumeMode, false, Fresh(natCache, natFile, statCalls), now, [acct], regions);
      var results: seq<NatRow> := [];
      for i := 0 to |ws|
        invariant VisitMonths(aws, resumeMode, false, Current(results), ws[i..], [acct], regions) == target
      {
        var w := ws[i];
        assert ws[i..][0] == w && ws[i..][1..] == ws[i + 1..];
        assert [acct][0] == acct && [acct][1..] == [];
        assert VisitAccounts(aws, resumeMode, false, Current(results), w, [acct], regions)
          == VisitRegions(aws, resumeMode, Current(results), w, acct, regions);
        for g := 0 to |regions|
          invariant VisitMonths(aws, resumeMode, false,
            VisitRegions(aws, resumeMode, Current(results), w, acct, regions[g..]), ws[i + 1..], [acct], regions) == target
        {
          assert regions[g..][0] == regions[g] && regions[g..][1..] == regions[g + 1..];
          var raised;
          results, raised := CollectCell(aws, w, acct, regions[g], results);
          if raised {
            var p := Progress(results, natCache, natFile, statCalls, true);
            RaisedRegions(aws, resumeMode, p, w, acct, regions[g + 1..]);
            RaisedMonths(aws, resumeMode, false, p, ws[i + 1..], [acct], regions);
            return Raised;
          }
        }
      }
      return Returned(results);
    }

    /** `run_nat_query`: run the collector the mode calls for and summarise the rows it
        returned. */
    method RunNatQuery(useOrg: bool, aws: Aws, accounts: seq<AccountId>, identity: Outcome<AccountId>,
                       regions: seq<Region>, now: Instant)
      returns (outcome: Outcome<(seq<NatRow>, NatTotals)>)
      requires SupportedNow(now)
      modifies this`natCache, this`natFile, this`statCalls
      ensures !useOrg && identity.Raised? ==>
        outcome.Raised? && natCache == old(natCache) && natFile == old(natFile) && statCalls == old(statCalls)
      ensures useOrg || identity.Returned? ==>
        var f := CollectNat(aws, resumeMode, useOrg, Fresh(old(natCache), old(natFile), old(statCalls)), now,
                            if useOrg then accounts else [identity.value], regions);
        && natCache == f.cache && natFile == f.file && statCalls == f.queries
        && (outcome.Raised? <==> f.raised)
        && (outcome.Returned? ==> outcome.value == (f.results, Summarize(f.results)))
      ensures outcome.Returned? ==> outcome.value.1 == Summarize(outcome.value.0)
    {
      var collected;
      if useOrg {
        collected := RunOrgQuery(aws, accounts, regions, now);
      } else {
        collected := RunSingleAccountQuery(aws, identity, regions, now);
      }
      match collected {
        case Raised => outcome := Raised;
        case Returned(rows) => outcome := Returned((rows, Summarize(rows)));
      }
    }

    // -------------------------------------------------------------- the DTO collector

    /** One period of `run_dto_query`: in resume mode the month's first cached value is
        reused (selecting a column of a frame without one raises); otherwise Cost
        Explorer is asked, and the value is recorded, appended to the cache and written
        through. An exception is reported as `raised`. */
    method CollectPeriod(ce: CostExplorer, range: (string, string), collected: seq<DtoRow>)
      returns (collected': seq<DtoRow>, raised: bool)
      requires |range.0| >= 7
      modifies this`dtoCache, this`dtoFile, this`usageCalls
      ensures DtoProgress(collected', dtoCache, dtoFile, usageCalls, raised)
        == VisitDto(ce, resumeMode, DtoProgress(collected, old(dtoCache), old(dtoFile), old(usageCalls), false), range)
    {
      collected', raised := collected, false;
      var month := range.0[..7];
      if resumeMode {
        if dtoCache.Blank? {
          raised := true;
          return;
        }
        var hit := FirstGb(dtoCache.rows, month);
        if hit.Some? {
          collected' := collected + [DtoRow(month, hit.value)];
          return;
        }
      }
      var reply := ce.usage(range);
      usageCalls := usageCalls + 1;
      match reply {
        case UsageRaised =>
          raised := true;
        case UsageAnswer(amount) =>
          var gb := amount.GetOr(0.0);
          collected' := collected + [DtoRow(month, gb)];
          dtoCache := Concat(dtoCache, DtoRow(month, gb));
          dtoFile := SaveToCache(dtoCache);
      }
    }

    /** `run_dto_query`: one period at a time, cached months reused in resume mode, each
        queried month appended to the cache and written through; any exception ends the
        loop with `(None, zeros)`, else `dto_monthly` and its summary are returned. */
    method RunDtoQuery(ce: CostExplorer, now: Instant) returns (monthly: Option<seq<DtoRow>>, totals: DtoTotals)
      requires SupportedNow(now)
      modifies this`dtoCache, this`dtoFile, this`usageCalls
      ensures var f := DtoRun(ce, resumeMode, DtoStart(old(dtoCache), old(dtoFile), old(usageCalls)), now);
        && dtoCache == f.cache && dtoFile == f.file && usageCalls == f.queries
        && (monthly, totals) == DtoResult(f)
    {
      PlannedRanges(now);
      var ranges := DtoMonthRanges(now);
      ghost var target := DtoRun(ce, resumeMode, DtoStart(dtoCache, dtoFile, usageCalls), now);
      var collected: seq<DtoRow> := [];
      for j := 0 to |ranges|
        invariant VisitDtoRanges(ce, resumeMode, CurrentDto(collected), ranges[j..]) == target
      {
        assert ranges[j..][0] == ranges[j] && ranges[j..][1..] == ranges[j + 1..];
        var raised;
        collected, raised := CollectPeriod(ce, ranges[j], collected);
        if raised {
          RaisedDto(ce, resumeMode, CurrentDto(collected).(raised := true), ranges[j + 1..]);
          return None, DtoTotals(0, 0);
        }
      }
      monthly, totals := Some(collected), DtoSummary(Values(collected));
    }

    // -------------------------------------------------------------- the end of a run

    /** `cleanup_cache`, run at exit: both cache files are deleted exactly when the run
        set `success_flag`; otherwise they stay as the resume checkpoint. */
    method CleanupCache()
      modifies this`natFile, this`dtoFile
      ensures successFlag ==> natFile == Absent && dtoFile == Absent
      ensures !successFlag ==> natFile == old(natFile) && dtoFile == old(dtoFile)
    {
      if successFlag {
        if natFile != Absent {
          natFile := Absent;
        }
        if dtoFile != Absent {
          dtoFile := Absent;
        }
      }
    }

    /** `run_aws_analysis`: the resume decision, then the collection and the summaries.
        The operator's answers, the region choice, the account listing, the caller's
        account and the clock are in `s`; the AWS services are its oracles. */
    method RunAwsAnalysis(s: Setting, resumeAnswer: string) returns (ending: Ending)
      requires Supported(s)
      modifies this
      ensures (State(), ending) == Analysed(s, Prompted(old(State()), resumeAnswer))
      ensures successFlag <==> old(successFlag) || ending.Completed?
      ensures ending.Completed? ==> ending.natRows != [] && ending.natTotals == Summarize(ending.natRows)
      ensures ending.Completed? && !s.includeDto ==> ending.dtoTotals == DtoTotals(0, 0)
    {
      DecideResume(resumeAnswer);
      ending := Analyse(s);
    }

    /** The body of `run_aws_analysis` after the resume decision: the account list, the
        NAT collector, the optional DTO collector, and `success_flag`, which is set
        exactly when the collector returns without raising and this run's NAT rows are
        non-empty. */
    method Analyse(s: Setting) returns (ending: Ending)
      requires Supported(s)
      modifies this`natCache, this`natFile, this`statCalls, this`dtoCache, this`dtoFile, this`usageCalls, this`successFlag
      ensures (State(), ending) == Analysed(s, old(State()))
      ensures successFlag <==> old(successFlag) || ending.Completed?
      ensures ending.Completed? ==> ending.natRows != [] && ending.natTotals == Summarize(ending.natRows)
      ensures ending.Completed? && !s.includeDto ==> ending.dtoTotals == DtoTotals(0, 0)
    {
      ghost var st := State();
      AnalysedEnding(s, st);
      var accounts: seq<AccountId>;
      if s.useOrg {
        accounts := GetAllAccounts(s.listing, s.typedAccounts);
      } else {
        var identity := s.callerIdentity;
        if identity.Raised? {
          ending := Crashed;
          return;
        }
        accounts := [identity.value];
      }
      assert accounts == RunAccounts(s);
      var natRun := RunNatQuery(s.useOrg, s.aws, accounts, s.callerIdentity, s.regions, s.natNow);
      ghost var f := NatPhase(s, st);
      assert natCache == f.cache && natFile == f.file && statCalls == f.queries;
      if natRun.Raised? {
        ending := Crashed;
        return;
      }
      var (natRows, natTotals) := natRun.value;
      assert natRows == f.results;
      var dtoTotals := DtoTotals(0, 0);
      if s.includeDto {
        var _, t := RunDtoQuery(s.ce, s.dtoNow);
        dtoTotals := t;
      }
      if natRows == [] {
        ending := NoUsage;
      } else {
        successFlag := true;
        ending := Completed(natRows, natTotals, dtoTotals);
      }
    }

    /** A whole invocation: the analysis, then `cleanup_cache` at exit. The cache files
        are deleted exactly when the run completed; a run that raised or found no NAT
        data leaves them holding what it recorded, for the next run to resume from. */
    method Invocation(s: Setting, resumeAnswer: string) returns (ending: Ending)
      requires Supported(s)
      requires !successFlag
      modifies this
      ensures var (fin, e) := Analysed(s, Prompted(old(State()), resumeAnswer));
        ending == e && State() == AtExit(fin)
      ensures successFlag <==> ending.Completed?
      ensures ending.Completed? ==> ending.natRows != [] && ending.natTotals == Summarize(ending.natRows)
      ensures ending.Completed? ==> natFile == Absent && dtoFile == Absent
      ensures var p := Prompted(old(State()), resumeAnswer);
        var f := NatPhase(s, p);
        !ending.Completed? ==>
          && Rows(natCache) == Rows(p.natCache) + f.results
          && (f.results == [] ==> natFile == p.natFile)
          && (f.results != [] ==> LoadCache(natFile) == natCache)
          && Rows(p.dtoCache) <= Rows(dtoCache)
          && (Rows(dtoCache) == Rows(p.dtoCache) ==> dtoFile == p.dtoFile)
          && (Rows(dtoCache) != Rows(p.dtoCache) ==> LoadCache(dtoFile) == dtoCache)
    {
      CheckpointAtExit(s, State(), resumeAnswer);
      ending := RunAwsAnalysis(s, resumeAnswer);
      CleanupCache();
    }
  }
}
