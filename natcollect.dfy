/** What `run_org_query` and `run_single_account_query` compute, as a fold of one step per
    (month, account, region) cell over the state they thread: the rows returned, the
    cache frame, the cache file, the number of `get_metric_statistics` calls made, and
    whether an exception escaped. The class in module Analysis runs the loops; this
    module states their meaning and proves its properties. */
module NatCollect {
  import opened Basics
  import opened Months
  import opened Units
  import opened Metrics
  import opened Cache

  /** `nat_results`, `nat_cache_df`, the NAT cache file, the metric queries so far, and
      whether the collector has raised (after which nothing more happens). */
  datatype Progress = Progress(
    results: seq<NatRow>, cache: Frame<NatRow>, file: Stored<NatRow>,
    queries: nat, raised: bool)

  /** Every window has a month whose label can be formatted. */
  predicate Labelled(ws: seq<Window>)
  {
    forall w :: w in ws ==> LabelRange(w.start.month)
  }

  lemma PlannerLabelled(now: Instant)
    requires SupportedNow(now)
    ensures Labelled(MonthlyRanges(now, 12))
  {
    var ws := MonthlyRanges(now, 12);
    forall w | w in ws ensures LabelRange(w.start.month) {
      var j :| 0 <= j < |ws| && ws[j] == w;
    }
  }

  /** `discover_nat_ids` in a cell completes: `list_metrics` did not raise. */
  predicate Lists(aws: Aws, w: Window, acct: AccountId, region: Region)
  {
    aws.listMetrics(acct, region, w).Returned?
  }

  /** The gateways discovered in a cell (none when discovery raises; the cell then
      ends the collection before its row is considered). */
  function CellNatIds(aws: Aws, w: Window, acct: AccountId, region: Region): seq<NatId>
  {
    match aws.listMetrics(acct, region, w)
    case Raised => []
    case Returned(pages) => NatIdsIn(PageDimensions(pages))
  }

  /** The bytes `get_metric_sum` reports for `metricName`, summed over the gateways `ids`. */
  function SumOver(aws: Aws, acct: AccountId, region: Region, w: Window, ids: seq<NatId>, metricName: string): nat
  {
    if ids == [] then 0
    else
      SumOver(aws, acct, region, w, ids[..|ids| - 1], metricName)
      + GetMetricSum(aws.statistics(acct, region, NatQuery(metricName, ids[|ids| - 1], w)))
  }

  /** The row a cell yields: none when no gateway is discovered; otherwise upload and
      download are the summed `BytesInFromSource` and `BytesInFromDestination` bytes of
      its gateways, each rounded to hundredths of a GiB, and the total is their sum. */
  function CellRow(aws: Aws, w: Window, acct: AccountId, region: Region): (r: Option<NatRow>)
    requires LabelRange(w.start.month)
    ensures r.None? <==> CellNatIds(aws, w, acct, region) == []
    ensures r.Some? ==> KeyOf(r.value) == NatKey(acct, region, MonthLabel(w.start.month))
    ensures r.Some? ==> r.value.totalGb == r.value.uploadGb + r.value.downloadGb
  {
    var ids := CellNatIds(aws, w, acct, region);
    if ids == [] then None
    else
      var uploadGb := BytesToCentiGiB(SumOver(aws, acct, region, w, ids, MetricNatUpload));
      var downloadGb := BytesToCentiGiB(SumOver(aws, acct, region, w, ids, MetricNatDownload));
      Some(NatRow(acct, region, MonthLabel(w.start.month), uploadGb, downloadGb, uploadGb + downloadGb))
  }

  /** Appending a recorded cell: the row goes to `nat_results` and to `nat_cache_df`,
      and the whole frame is written to the cache file. */
  function Record(pr: Progress, row: NatRow): Progress
  {
    var cache := Concat(pr.cache, row);
    pr.(results := pr.results + [row], cache := cache, file := SaveToCache(cache))
  }

  /** One cell. Discovering the gateways may raise, which ends the collection. The
      gateways are discovered and both metrics fetched for each of them before the
      resume check is made; a cell already in the cache is then dropped (neither
      returned nor appended), and on a frame without columns the check raises. */
  function Visit(aws: Aws, resume: bool, pr: Progress, w: Window, acct: AccountId, region: Region): Progress
    requires LabelRange(w.start.month)
  {
    if pr.raised then pr
    else if !Lists(aws, w, acct, region) then pr.(raised := true)
    else
      match CellRow(aws, w, acct, region)
      case None => pr
      case Some(row) =>
        var counted := pr.(queries := pr.queries + 2 * |CellNatIds(aws, w, acct, region)|);
        if !resume then Record(counted, row)
        else
          match NatCached(pr.cache, KeyOf(row))
          case Raised => counted.(raised := true)
          case Returned(cached) => if cached then counted else Record(counted, row)
  }

  function VisitRegions(aws: Aws, resume: bool, pr: Progress, w: Window, acct: AccountId, regions: seq<Region>): Progress
    requires LabelRange(w.start.month)
    decreases |regions|
  {
    if regions == [] then pr
    else VisitRegions(aws, resume, Visit(aws, resume, pr, w, acct, regions[0]), w, acct, regions[1..])
  }

  /** One account in one month: skipped when `roles` is set and its role cannot be
      assumed. */
  function VisitAccount(aws: Aws, resume: bool, roles: bool, pr: Progress, w: Window, acct: AccountId, regions: seq<Region>): Progress
    requires LabelRange(w.start.month)
  {
    if pr.raised || (roles && !aws.assumeRole(acct, w)) then pr
    else VisitRegions(aws, resume, pr, w, acct, regions)
  }

  function VisitAccounts(aws: Aws, resume: bool, roles: bool, pr: Progress, w: Window, accounts: seq<AccountId>, regions: seq<Region>): Progress
    requires LabelRange(w.start.month)
    decreases |accounts|
  {
    if accounts == [] then pr
    else VisitAccounts(aws, resume, roles, VisitAccount(aws, resume, roles, pr, w, accounts[0], regions), w, accounts[1..], regions)
  }

  function VisitMonths(aws: Aws, resume: bool, roles: bool, pr: Progress, ws: seq<Window>, accounts: seq<AccountId>, regions: seq<Region>): Progress
    requires Labelled(ws)
    decreases |ws|
  {
    if ws == [] then pr
    else VisitMonths(aws, resume, roles, VisitAccounts(aws, resume, roles, pr, ws[0], accounts, regions), ws[1..], accounts, regions)
  }

  /** A whole collection over the thirteen windows of `get_monthly_ranges()`: with
      `roles` for the organisation collector, without for the single-account one. */
  function CollectNat(aws: Aws, resume: bool, roles: bool, start: Progress, now: Instant,
                      accounts: seq<AccountId>, regions: seq<Region>): Progress
    requires SupportedNow(now)
  {
    PlannerLabelled(now);
    VisitMonths(aws, resume, roles, start, MonthlyRanges(now, 12), accounts, regions)
  }

  /** The state a run starts from. */
  function Fresh(cache: Frame<NatRow>, file: Stored<NatRow>, queries: nat): Progress
  {
    Progress([], cache, file, queries, false)
  }

  // ---------------------------------------------------------------- an escaped exception ends the run

  lemma {:induction false} RaisedRegions(aws: Aws, resume: bool, pr: Progress, w: Window, acct: AccountId, regions: seq<Region>)
    requires LabelRange(w.start.month) && pr.raised
    ensures VisitRegions(aws, resume, pr, w, acct, regions) == pr
    decreases |regions|
  {
    if regions != [] {
      RaisedRegions(aws, resume, pr, w, acct, regions[1..]);
    }
  }

  lemma {:induction false} RaisedAccounts(aws: Aws, resume: bool, roles: bool, pr: Progress, w: Window, accounts: seq<AccountId>, regions: seq<Region>)
    requires LabelRange(w.start.month) && pr.raised
    ensures VisitAccounts(aws, resume, roles, pr, w, accounts, regions) == pr
    decreases |accounts|
  {
    if accounts != [] {
      RaisedAccounts(aws, resume, roles, pr, w, accounts[1..], regions);
    }
  }

  /** Once raised, the remaining cells change nothing: the run stops where it raised. */
  lemma {:induction false} RaisedMonths(aws: Aws, resume: bool, roles: bool, pr: Progress, ws: seq<Window>, accounts: seq<AccountId>, regions: seq<Region>)
    requires Labelled(ws) && pr.raised
    ensures VisitMonths(aws, resume, roles, pr, ws, accounts, regions) == pr
    decreases |ws|
  {
    if ws != [] {
      RaisedAccounts(aws, resume, roles, pr, ws[0], accounts, regions);
      RaisedMonths(aws, resume, roles, pr, ws[1..], accounts, regions);
    }
  }

  // ---------------------------------------------------------------- invariants kept cell by cell

  lemma {:induction false} RegionsPreserve(inv: Progress -> bool, aws: Aws, resume: bool, pr: Progress, w: Window, acct: AccountId, regions: seq<Region>)
    requires LabelRange(w.start.month) && inv(pr)
    requires forall p: Progress, g :: g in regions && inv(p) ==> inv(Visit(aws, resume, p, w, acct, g))
    ensures inv(VisitRegions(aws, resume, pr, w, acct, regions))
    decreases |regions|
  {
    if regions != [] {
      RegionsPreserve(inv, aws, resume, Visit(aws, resume, pr, w, acct, regions[0]), w, acct, regions[1..]);
    }
  }

  lemma {:induction false} AccountsPreserve(inv: Progress -> bool, aws: Aws, resume: bool, roles: bool, pr: Progress, w: Window, accounts: seq<AccountId>, regions: seq<Region>)
    requires LabelRange(w.start.month) && inv(pr)
    requires forall p: Progress, a, g ::
      (a in accounts && g in regions && (!roles || aws.assumeRole(a, w)) && inv(p)) ==> inv(Visit(aws, resume, p, w, a, g))
    ensures inv(VisitAccounts(aws, resume, roles, pr, w, accounts, regions))
    decreases |accounts|
  {
    if accounts != [] {
      var a := accounts[0];
      if !(pr.raised || (roles && !aws.assumeRole(a, w))) {
        RegionsPreserve(inv, aws, resume, pr, w, a, regions);
      }
      AccountsPreserve(inv, aws, resume, roles, VisitAccount(aws, resume, roles, pr, w, a, regions), w, accounts[1..], regions);
    }
  }

  /** A property every visited cell keeps holds of the whole run. */
  lemma {:induction false} MonthsPreserve(inv: Progress -> bool, aws: Aws, resume: bool, roles: bool, pr: Progress, ws: seq<Window>, accounts: seq<AccountId>, regions: seq<Region>)
    requires Labelled(ws) && inv(pr)
    requires forall p: Progress, w, a, g ::
      (w in ws && a in accounts && g in regions && (!roles || aws.assumeRole(a, w)) && inv(p)) ==> inv(Visit(aws, resume, p, w, a, g))
    ensures inv(VisitMonths(aws, resume, roles, pr, ws, accounts, regions))
    decreases |ws|
  {
    if ws != [] {
      AccountsPreserve(inv, aws, resume, roles, pr, ws[0], accounts, regions);
      MonthsPreserve(inv, aws, resume, roles, VisitAccounts(aws, resume, roles, pr, ws[0], accounts, regions), ws[1..], accounts, regions);
    }
  }

  // ---------------------------------------------------------------- append-only, write-through

  /** The cache is the rows it started with followed by exactly the rows returned, and
      the file holds the whole frame as soon as one row has been appended. */
  predicate WriteThrough(base: seq<NatRow>, file0: Stored<NatRow>, p: Progress)
  {
    && Rows(p.cache) == base + p.results
    && (p.results == [] ==> p.file == file0)
    && (p.results != [] ==> p.cache.Table? && p.file == SaveToCache(p.cache))
  }

  lemma WriteThroughStep(base: seq<NatRow>, file0: Stored<NatRow>, aws: Aws, resume: bool, p: Progress, w: Window, acct: AccountId, region: Region)
    requires LabelRange(w.start.month) && WriteThrough(base, file0, p)
    ensures WriteThrough(base, file0, Visit(aws, resume, p, w, acct, region))
  {
  }

  /** Append-only, write-through cache: every row the run returns is appended to the
      cache once, in order, after the rows it started with, which are unchanged; and
      from the first append on, reloading the cache file gives exactly the frame. */
  lemma CollectIsAppendOnlyWriteThrough(aws: Aws, resume: bool, roles: bool, cache0: Frame<NatRow>, file0: Stored<NatRow>,
                                        q0: nat, now: Instant, accounts: seq<AccountId>, regions: seq<Region>)
    requires SupportedNow(now)
    ensures var f := CollectNat(aws, resume, roles, Fresh(cache0, file0, q0), now, accounts, regions);
      && Rows(f.cache) == Rows(cache0) + f.results
      && (f.results == [] ==> f.file == file0)
      && (f.results != [] ==> LoadCache(f.file) == f.cache)
  {
    var base := Rows(cache0);
    var inv := (p: Progress) => WriteThrough(base, file0, p);
    var ws := MonthlyRanges(now, 12);
    PlannerLabelled(now);
    forall p: Progress, w, a, g | w in ws && a in accounts && g in regions && (!roles || aws.assumeRole(a, w)) && inv(p)
      ensures inv(Visit(aws, resume, p, w, a, g))
    {
      WriteThroughStep(base, file0, aws, resume, p, w, a, g);
    }
    MonthsPreserve(inv, aws, resume, roles, Fresh(cache0, file0, q0), ws, accounts, regions);
  }

  // ---------------------------------------------------------------- resume without a NAT cache

  /** Resuming when only the transfer-out cache file existed (or the NAT file could not be
      read) leaves `nat_cache_df` without columns: the first cell with a gateway raises,
      so the run records no NAT row and never touches the NAT cache or its file. */
  lemma ResumeWithoutNatCacheRecordsNothing(aws: Aws, roles: bool, file0: Stored<NatRow>, q0: nat,
                                            now: Instant, accounts: seq<AccountId>, regions: seq<Region>)
    requires SupportedNow(now)
    ensures var f := CollectNat(aws, true, roles, Fresh(Blank, file0, q0), now, accounts, regions);
      f.results == [] && f.cache == Blank && f.file == file0
  {
    var inv := (p: Progress) => p.results == [] && p.cache == Blank && p.file == file0;
    var ws := MonthlyRanges(now, 12);
    PlannerLabelled(now);
    forall p: Progress, w, a, g | w in ws && a in accounts && g in regions && (!roles || aws.assumeRole(a, w)) && inv(p)
      ensures inv(Visit(aws, true, p, w, a, g))
    {
      assert LabelRange(w.start.month);
    }
    MonthsPreserve(inv, aws, true, roles, Fresh(Blank, file0, q0), ws, accounts, regions);
  }

  // ---------------------------------------------------------------- resume: no duplicate keys

  /** Every returned row was appended only after checking that no earlier cache row
      had its key. */
  predicate AppendedFresh(base: seq<NatRow>, p: Progress)
  {
    && Rows(p.cache) == base + p.results
    && forall i :: 0 <= i < |p.results| ==> !HasKey(base + p.results[..i], KeyOf(p.results[i]))
  }

  lemma AppendedFreshStep(base: seq<NatRow>, aws: Aws, p: Progress, w: Window, acct: AccountId, region: Region)
    requires LabelRange(w.start.month) && AppendedFresh(base, p)
    ensures AppendedFresh(base, Visit(aws, true, p, w, acct, region))
  {
    var p' := Visit(aws, true, p, w, acct, region);
    if |p'.results| > |p.results| {
      var row := CellRow(aws, w, acct, region).value;
      assert p'.results == p.results + [row] && Rows(p'.cache) == Rows(p.cache) + [row];
      assert !HasKey(base + p.results, KeyOf(row));
      forall i | 0 <= i < |p'.results| ensures !HasKey(base + p'.results[..i], KeyOf(p'.results[i])) {
        if i < |p.results| {
          assert p'.results[..i] == p.results[..i] && p'.results[i] == p.results[i];
        } else {
          assert p'.results[..i] == p.results;
        }
      }
    }
  }

  lemma AppendedFreshKeys(base: seq<NatRow>, p: Progress)
    requires AppendedFresh(base, p)
    ensures forall r :: r in p.results ==> !HasKey(base, KeyOf(r))
    ensures UniqueKeys(base) ==> UniqueKeys(Rows(p.cache))
  {
    var rows := Rows(p.cache);
    forall r | r in p.results ensures !HasKey(base, KeyOf(r)) {
      var i :| 0 <= i < |p.results| && p.results[i] == r;
      forall k | 0 <= k < |base| ensures KeyOf(base[k]) != KeyOf(r) {
        assert (base + p.results[..i])[k] == base[k];
      }
    }
    if UniqueKeys(base) {
      forall i, j | 0 <= i < j < |rows| ensures KeyOf(rows[i]) != KeyOf(rows[j]) {
        if j >= |base| {
          var jj := j - |base|;
          assert rows[j] == p.results[jj];
          assert (base + p.results[..jj])[i] == rows[i];
        }
      }
    }
  }

  /** Resume mode: a row is appended only when no cached row has its (Account, Region,
      Month) key, so the rows returned are never ones the cache already held, and a
      cache whose keys were unique keeps them unique. */
  lemma ResumeAppendsOnlyNewKeys(aws: Aws, roles: bool, cache0: Frame<NatRow>, file0: Stored<NatRow>,
                                 q0: nat, now: Instant, accounts: seq<AccountId>, regions: seq<Region>)
    requires SupportedNow(now)
    ensures var f := CollectNat(aws, true, roles, Fresh(cache0, file0, q0), now, accounts, regions);
      && (forall r :: r in f.results ==> !HasKey(Rows(cache0), KeyOf(r)))
      && (UniqueKeys(Rows(cache0)) ==> UniqueKeys(Rows(f.cache)))
  {
    var base := Rows(cache0);
    var inv := (p: Progress) => AppendedFresh(base, p);
    var ws := MonthlyRanges(now, 12);
    PlannerLabelled(now);
    forall p: Progress, w, a, g | w in ws && a in accounts && g in regions && (!roles || aws.assumeRole(a, w)) && inv(p)
      ensures inv(Visit(aws, true, p, w, a, g))
    {
      AppendedFreshStep(base, aws, p, w, a, g);
    }
    MonthsPreserve(inv, aws, true, roles, Fresh(cache0, file0, q0), ws, accounts, regions);
    AppendedFreshKeys(base, CollectNat(aws, true, roles, Fresh(cache0, file0, q0), now, accounts, regions));
  }

  // ---------------------------------------------------------------- where rows come from

  /** `row` is the row of a cell of the run whose role (when `roles`) was assumed. */
  predicate FromCell(aws: Aws, roles: bool, ws: seq<Window>, accounts: seq<AccountId>, regions: seq<Region>, row: NatRow)
    requires Labelled(ws)
  {
    exists w, a, g :: w in ws && a in accounts && g in regions && (!roles || aws.assumeRole(a, w))
      && CellRow(aws, w, a, g) == Some(row)
  }

  /** Every row returned is the row of a visited cell: its account's role was assumed
      for that month and at least one gateway was discovered in its region (cells
      failing either contribute nothing), and its volumes are that cell's rounded sums. */
  lemma CollectedRowsComeFromCells(aws: Aws, resume: bool, roles: bool, start: Progress, now: Instant,
                                   accounts: seq<AccountId>, regions: seq<Region>)
    requires SupportedNow(now) && start.results == []
    ensures Labelled(MonthlyRanges(now, 12))
    ensures var f := CollectNat(aws, resume, roles, start, now, accounts, regions);
      forall r :: r in f.results ==> FromCell(aws, roles, MonthlyRanges(now, 12), accounts, regions, r)
  {
    var ws := MonthlyRanges(now, 12);
    PlannerLabelled(now);
    var inv := (p: Progress) => forall r :: r in p.results ==> FromCell(aws, roles, ws, accounts, regions, r);
    forall p: Progress, w, a, g | w in ws && a in accounts && g in regions && (!roles || aws.assumeRole(a, w)) && inv(p)
      ensures inv(Visit(aws, resume, p, w, a, g))
    {
      var p' := Visit(aws, resume, p, w, a, g);
      forall r | r in p'.results ensures FromCell(aws, roles, ws, accounts, regions, r) {
        if r !in p.results {
          assert CellRow(aws, w, a, g) == Some(r);
        }
      }
    }
    MonthsPreserve(inv, aws, resume, roles, start, ws, accounts, regions);
  }

  // ---------------------------------------------------------------- resume after a complete run

  /** Every cell of the run discovers its gateways without raising, and every one that
      yields a row has its key in `rows`. */
  predicate Covered(aws: Aws, roles: bool, ws: seq<Window>, accounts: seq<AccountId>, regions: seq<Region>, rows: seq<NatRow>)
    requires Labelled(ws)
  {
    forall w, a, g :: (w in ws && a in accounts && g in regions && (!roles || aws.assumeRole(a, w))) ==>
      CellCovered(aws, w, a, g, rows)
  }

  predicate CellCovered(aws: Aws, w: Window, acct: AccountId, region: Region, rows: seq<NatRow>)
    requires LabelRange(w.start.month)
  {
    Lists(aws, w, acct, region)
    && (CellRow(aws, w, acct, region).Some? ==> HasKey(rows, KeyOf(CellRow(aws, w, acct, region).value)))
  }

  lemma HasKeyGrows(rows: seq<NatRow>, more: seq<NatRow>, k: NatKey)
    requires HasKey(rows, k) && rows <= more
    ensures HasKey(more, k)
  {
    var i :| 0 <= i < |rows| && KeyOf(rows[i]) == k;
    assert more[i] == rows[i];
  }

  /** The cache only grows along a run. */
  lemma RegionsGrow(aws: Aws, resume: bool, pr: Progress, w: Window, acct: AccountId, regions: seq<Region>)
    requires LabelRange(w.start.month)
    ensures Rows(pr.cache) <= Rows(VisitRegions(aws, resume, pr, w, acct, regions).cache)
  {
    var base := Rows(pr.cache);
    var inv := (p: Progress) => base <= Rows(p.cache);
    forall p: Progress, g | g in regions && inv(p) ensures inv(Visit(aws, resume, p, w, acct, g)) {
    }
    RegionsPreserve(inv, aws, resume, pr, w, acct, regions);
  }

  lemma AccountsGrow(aws: Aws, resume: bool, roles: bool, pr: Progress, w: Window, accounts: seq<AccountId>, regions: seq<Region>)
    requires LabelRange(w.start.month)
    ensures Rows(pr.cache) <= Rows(VisitAccounts(aws, resume, roles, pr, w, accounts, regions).cache)
  {
    var base := Rows(pr.cache);
    var inv := (p: Progress) => base <= Rows(p.cache);
    forall p: Progress, a, g | a in accounts && g in regions && (!roles || aws.assumeRole(a, w)) && inv(p)
      ensures inv(Visit(aws, resume, p, w, a, g))
    {
    }
    AccountsPreserve(inv, aws, resume, roles, pr, w, accounts, regions);
  }

  lemma MonthsGrow(aws: Aws, resume: bool, roles: bool, pr: Progress, ws: seq<Window>, accounts: seq<AccountId>, regions: seq<Region>)
    requires Labelled(ws)
    ensures Rows(pr.cache) <= Rows(VisitMonths(aws, resume, roles, pr, ws, accounts, regions).cache)
  {
    var base := Rows(pr.cache);
    var inv := (p: Progress) => base <= Rows(p.cache);
    forall p: Progress, w, a, g | w in ws && a in accounts && g in regions && (!roles || aws.assumeRole(a, w)) && inv(p)
      ensures inv(Visit(aws, resume, p, w, a, g))
    {
    }
    MonthsPreserve(inv, aws, resume, roles, pr, ws, accounts, regions);
  }

  lemma CellCoveredGrows(aws: Aws, w: Window, acct: AccountId, region: Region, rows: seq<NatRow>, more: seq<NatRow>)
    requires LabelRange(w.start.month) && CellCovered(aws, w, acct, region, rows) && rows <= more
    ensures CellCovered(aws, w, acct, region, more)
  {
    if CellRow(aws, w, acct, region).Some? {
      HasKeyGrows(rows, more, KeyOf(CellRow(aws, w, acct, region).value));
    }
  }

  /** A cell visited without raising is covered by the cache it leaves. */
  lemma VisitCovers(aws: Aws, resume: bool, pr: Progress, w: Window, acct: AccountId, region: Region)
    requires LabelRange(w.start.month)
    ensures var p1 := Visit(aws, resume, pr, w, acct, region);
      !p1.raised ==> CellCovered(aws, w, acct, region, Rows(p1.cache))
  {
    var p1 := Visit(aws, resume, pr, w, acct, region);
    if !p1.raised && CellRow(aws, w, acct, region).Some? {
      var k := KeyOf(CellRow(aws, w, acct, region).value);
      if Rows(p1.cache) != Rows(pr.cache) {
        assert Rows(p1.cache)[|Rows(pr.cache)|] == CellRow(aws, w, acct, region).value;
      }
      assert HasKey(Rows(p1.cache), k);
    }
  }

  lemma {:induction false} RegionsCover(aws: Aws, resume: bool, pr: Progress, w: Window, acct: AccountId, regions: seq<Region>)
    requires LabelRange(w.start.month)
    ensures var f := VisitRegions(aws, resume, pr, w, acct, regions);
      !f.raised ==> forall g :: g in regions ==> CellCovered(aws, w, acct, g, Rows(f.cache))
    decreases |regions|
  {
    if regions != [] {
      var f := VisitRegions(aws, resume, pr, w, acct, regions);
      var p1 := Visit(aws, resume, pr, w, acct, regions[0]);
      RegionsCover(aws, resume, p1, w, acct, regions[1..]);
      if !f.raised {
        if p1.raised {
          RaisedRegions(aws, resume, p1, w, acct, regions[1..]);
        }
        VisitCovers(aws, resume, pr, w, acct, regions[0]);
        RegionsGrow(aws, resume, p1, w, acct, regions[1..]);
        CellCoveredGrows(aws, w, acct, regions[0], Rows(p1.cache), Rows(f.cache));
      }
    }
  }

  lemma {:induction false} AccountsCover(aws: Aws, resume: bool, roles: bool, pr: Progress, w: Window, accounts: seq<AccountId>, regions: seq<Region>)
    requires LabelRange(w.start.month)
    ensures var f := VisitAccounts(aws, resume, roles, pr, w, accounts, regions);
      !f.raised ==> forall a, g :: (a in accounts && g in regions && (!roles || aws.assumeRole(a, w))) ==>
        CellCovered(aws, w, a, g, Rows(f.cache))
    decreases |accounts|
  {
    if accounts != [] {
      var f := VisitAccounts(aws, resume, roles, pr, w, accounts, regions);
      var a0 := accounts[0];
      var p1 := VisitAccount(aws, resume, roles, pr, w, a0, regions);
      AccountsCover(aws, resume, roles, p1, w, accounts[1..], regions);
      if !f.raised {
        if p1.raised {
          RaisedAccounts(aws, resume, roles, p1, w, accounts[1..], regions);
        }
        AccountsGrow(aws, resume, roles, p1, w, accounts[1..], regions);
        if !roles || aws.assumeRole(a0, w) {
          RegionsCover(aws, resume, pr, w, a0, regions);
          forall g | g in regions
            ensures CellCovered(aws, w, a0, g, Rows(f.cache))
          {
            CellCoveredGrows(aws, w, a0, g, Rows(p1.cache), Rows(f.cache));
          }
        }
      }
    }
  }

  lemma {:induction false} MonthsCover(aws: Aws, resume: bool, roles: bool, pr: Progress, ws: seq<Window>, accounts: seq<AccountId>, regions: seq<Region>)
    requires Labelled(ws)
    ensures var f := VisitMonths(aws, resume, roles, pr, ws, accounts, regions);
      !f.raised ==> Covered(aws, roles, ws, accounts, regions, Rows(f.cache))
    decreases |ws|
  {
    if ws != [] {
      var f := VisitMonths(aws, resume, roles, pr, ws, accounts, regions);
      var p1 := VisitAccounts(aws, resume, roles, pr, ws[0], accounts, regions);
      MonthsCover(aws, resume, roles, p1, ws[1..], accounts, regions);
      if !f.raised {
        if p1.raised {
          RaisedMonths(aws, resume, roles, p1, ws[1..], accounts, regions);
        }
        AccountsCover(aws, resume, roles, pr, ws[0], accounts, regions);
        MonthsGrow(aws, resume, roles, p1, ws[1..], accounts, regions);
        forall w, a, g | w in ws && a in accounts && g in regions && (!roles || aws.assumeRole(a, w))
          ensures CellCovered(aws, w, a, g, Rows(f.cache))
        {
          if w == ws[0] {
            CellCoveredGrows(aws, w, a, g, Rows(p1.cache), Rows(f.cache));
          } else {
            assert w in ws[1..];
          }
        }
      }
    }
  }

  /** A resumed run over a cache that already holds every cell it would record
      returns nothing and leaves the cache and its file as they were. */
  lemma ResumeOverCoveredCache(aws: Aws, roles: bool, pr: Progress, ws: seq<Window>, accounts: seq<AccountId>, regions: seq<Region>)
    requires Labelled(ws) && !pr.raised && Covered(aws, roles, ws, accounts, regions, Rows(pr.cache))
    ensures var f := VisitMonths(aws, true, roles, pr, ws, accounts, regions);
      !f.raised && f.results == pr.results && f.cache == pr.cache && f.file == pr.file
  {
    var inv := (p: Progress) => !p.raised && p.results == pr.results && p.cache == pr.cache && p.file == pr.file;
    forall p: Progress, w, a, g | w in ws && a in accounts && g in regions && (!roles || aws.assumeRole(a, w)) && inv(p)
      ensures inv(Visit(aws, true, p, w, a, g))
    {
      assert CellCovered(aws, w, a, g, Rows(pr.cache));
      if CellRow(aws, w, a, g).Some? {
        var k := KeyOf(CellRow(aws, w, a, g).value);
        assert HasKey(Rows(pr.cache), k);
        assert pr.cache.Table?;
      }
    }
    MonthsPreserve(inv, aws, true, roles, pr, ws, accounts, regions);
  }

  /** Resume idempotence: after a run that completes, running again in resume mode
      against the same answers from AWS returns no rows and changes neither the cache
      nor its file. */
  lemma ResumeAfterCompleteRunAddsNothing(aws: Aws, resume: bool, roles: bool, start: Progress, now: Instant,
                                            accounts: seq<AccountId>, regions: seq<Region>)
    requires SupportedNow(now)
    ensures var first := CollectNat(aws, resume, roles, start, now, accounts, regions);
      var second := CollectNat(aws, true, roles, Fresh(first.cache, first.file, first.queries), now, accounts, regions);
      !first.raised ==>
        !second.raised && second.results == [] && second.cache == first.cache && second.file == first.file
  {
    var ws := MonthlyRanges(now, 12);
    PlannerLabelled(now);
    var first := CollectNat(aws, resume, roles, start, now, accounts, regions);
    if !first.raised {
      MonthsCover(aws, resume, roles, start, ws, accounts, regions);
      ResumeOverCoveredCache(aws, roles, Fresh(first.cache, first.file, first.queries), ws, accounts, regions);
    }
  }

  // ---------------------------------------------------------------- resume saves no queries

  lemma {:induction false} RegionsQueries(aws: Aws, r1: bool, r2: bool, p: Progress, q: Progress, w: Window, acct: AccountId, regions: seq<Region>)
    requires LabelRange(w.start.month) && p.queries == q.queries
    ensures var f, g := VisitRegions(aws, r1, p, w, acct, regions), VisitRegions(aws, r2, q, w, acct, regions);
      !f.raised && !g.raised ==> f.queries == g.queries
    decreases |regions|
  {
    if p.raised {
      RaisedRegions(aws, r1, p, w, acct, regions);
    } else if q.raised {
      RaisedRegions(aws, r2, q, w, acct, regions);
    } else if regions != [] {
      var p1, q1 := Visit(aws, r1, p, w, acct, regions[0]), Visit(aws, r2, q, w, acct, regions[0]);
      RegionsQueries(aws, r1, r2, p1, q1, w, acct, regions[1..]);
    }
  }

  lemma {:induction false} AccountsQueries(aws: Aws, r1: bool, r2: bool, roles: bool, p: Progress, q: Progress, w: Window, accounts: seq<AccountId>, regions: seq<Region>)
    requires LabelRange(w.start.month) && p.queries == q.queries
    ensures var f, g := VisitAccounts(aws, r1, roles, p, w, accounts, regions), VisitAccounts(aws, r2, roles, q, w, accounts, regions);
      !f.raised && !g.raised ==> f.queries == g.queries
    decreases |accounts|
  {
    if accounts != [] {
      var a := accounts[0];
      var p1, q1 := VisitAccount(aws, r1, roles, p, w, a, regions), VisitAccount(aws, r2, roles, q, w, a, regions);
      if p1.raised { RaisedAccounts(aws, r1, roles, p1, w, accounts[1..], regions); }
      if q1.raised { RaisedAccounts(aws, r2, roles, q1, w, accounts[1..], regions); }
      if !p1.raised && !q1.raised {
        if !p.raised && !q.raised {
          RegionsQueries(aws, r1, r2, p, q, w, a, regions);
        }
        AccountsQueries(aws, r1, r2, roles, p1, q1, w, accounts[1..], regions);
      }
    }
  }

  lemma {:induction false} MonthsQueries(aws: Aws, r1: bool, r2: bool, roles: bool, p: Progress, q: Progress, ws: seq<Window>, accounts: seq<AccountId>, regions: seq<Region>)
    requires Labelled(ws) && p.queries == q.queries
    ensures var f, g := VisitMonths(aws, r1, roles, p, ws, accounts, regions), VisitMonths(aws, r2, roles, q, ws, accounts, regions);
      !f.raised && !g.raised ==> f.queries == g.queries
    decreases |ws|
  {
    if ws != [] {
      var p1, q1 := VisitAccounts(aws, r1, roles, p, ws[0], accounts, regions), VisitAccounts(aws, r2, roles, q, ws[0], accounts, regions);
      if p1.raised { RaisedMonths(aws, r1, roles, p1, ws[1..], accounts, regions); }
      if q1.raised { RaisedMonths(aws, r2, roles, q1, ws[1..], accounts, regions); }
      if !p1.raised && !q1.raised {
        AccountsQueries(aws, r1, r2, roles, p, q, ws[0], accounts, regions);
        MonthsQueries(aws, r1, r2, roles, p1, q1, ws[1..], accounts, regions);
      }
    }
  }

  /** The resume check comes after the fetch: a resumed run that completes makes as many
      `get_metric_statistics` calls as a plain run, whatever the cache holds. (Gateway
      discovery raised in none of its cells, so it raises in none of the plain run's.) */
  lemma ResumeSavesNoQueries(aws: Aws, roles: bool, cache0: Frame<NatRow>, file0: Stored<NatRow>,
                               cache1: Frame<NatRow>, file1: Stored<NatRow>, q0: nat, now: Instant,
                               accounts: seq<AccountId>, regions: seq<Region>)
    requires SupportedNow(now)
    ensures var resumed := CollectNat(aws, true, roles, Fresh(cache0, file0, q0), now, accounts, regions);
      var plain := CollectNat(aws, false, roles, Fresh(cache1, file1, q0), now, accounts, regions);
      !resumed.raised ==> !plain.raised && resumed.queries == plain.queries
  {
    var ws := MonthlyRanges(now, 12);
    PlannerLabelled(now);
    var resumed := CollectNat(aws, true, roles, Fresh(cache0, file0, q0), now, accounts, regions);
    if !resumed.raised {
      MonthsCover(aws, true, roles, Fresh(cache0, file0, q0), ws, accounts, regions);
      var inv := (p: Progress) => !p.raised;
      forall p: Progress, w, a, g | w in ws && a in accounts && g in regions && (!roles || aws.assumeRole(a, w)) && inv(p)
        ensures inv(Visit(aws, false, p, w, a, g))
      {
        assert CellCovered(aws, w, a, g, Rows(resumed.cache));
      }
      MonthsPreserve(inv, aws, false, roles, Fresh(cache1, file1, q0), ws, accounts, regions);
    }
    MonthsQueries(aws, true, false, roles, Fresh(cache0, file0, q0), Fresh(cache1, file1, q0), ws, accounts, regions);
  }
}
