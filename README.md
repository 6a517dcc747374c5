# aws-egress-calculator: a Dafny model of the NAT and DTO usage collector

`aws-egress-calculator.py` estimates an AWS estate's egress for quoting. It reads a
year of NAT Gateway traffic from CloudWatch, either across an AWS Organization
(assuming a role in each member account) or for the calling account alone. It can
also read the billed Data Transfer Out (DTO) volume from Cost Explorer. The two
collectors work month by month over thirteen windows: the twelve whole months before
the current one, then the current month so far. Each cell is written to a CSV cache
as soon as it is known. An interrupted run can therefore be resumed: a resumed run
reuses the DTO months already in the cache. It would also skip the NAT cells already
cached if the cache read back exactly as written; it does not (see "Left out"). After a successful
run, the cache files are deleted when the process exits.

The project models:

- the window planner, `get_monthly_ranges` and `get_dto_month_ranges` (module `Months`);
- the account list, `get_all_accounts` with its typed fallback (`Accounts`);
- the CloudWatch helpers `get_metric_sum` and `discover_nat_ids` (`Metrics`);
- the unit conversion and rounding of byte sums to GB (`Units`);
- the cache frames and files, with `load_cache` and `save_to_cache` (`Cache`).

The NAT collector's meaning is a fold over (month, account, region) cells
(`NatCollect`). The fold threads the returned rows, the cache frame, the cache file,
the number of metric queries and whether an exception escaped. The DTO collector is
the same kind of fold over the thirteen date ranges (`Dto`). The NAT summary reducer is
`NatSummary`.

The run itself is the class `Analysis.AnalysisRun`. Its fields are the script's
globals: `nat_cache_df`, `dto_cache_df`, `resume_mode` and `success_flag`, plus the two
cache files. The class has the resume decision, the collectors (`run_org_query` and
`run_single_account_query` as nested loops), `run_dto_query`, `run_nat_query`,
`run_aws_analysis` and `cleanup_cache`. Each loop is proved equal to its fold, and the
properties are proved about the folds. The run as a whole is proved equal to three
functions on the script's state: `Prompted` (the resume prompt), `Analysed` (the
collections and the ending) and `AtExit` (the clean-up). The recovery contract, what an
interrupted run leaves on disk for the next one, is stated about them
(`Analysis.CheckpointAtExit`).

AWS is an oracle record passed in as a parameter, and so are the clock, the operator's
answers and the regions. Two of the modelled AWS calls are unguarded and may raise out
of the run (`Basics.Outcome`): `list_metrics` in `discover_nat_ids`, and `get_caller_identity`
outside organisation mode. The failures of `assume_role`, `get_metric_statistics`,
Organizations paging and `get_cost_and_usage` are caught where the script catches them:
no session, a zero sum, the typed fallback, and an empty DTO result. The clock is read once by each
planner, so a run carries two instants. Volumes are counts of hundredths of a GiB, so `round(x, 2)` is
exact integer arithmetic. DTO values are `real`s.

Where the code and the design intent differ, the model follows the code:

- A cell is measured before the resume check. The collector discovers the gateways and
  fetches both metrics for each of them, and only then asks whether the cell is cached.
  Resuming therefore saves no CloudWatch queries (`NatCollect.ResumeSavesNoQueries`).
- The NAT summary covers only the rows this run returned. Cells skipped because they
  were cached are in no total. Were the cache to reload exactly as it was written, a
  resumed run that finds every cell cached would end with "no NAT Gateway usage data"
  (`NatCollect.ResumeAfterCompleteRunAddsNothing`). The CSV reload does not round-trip
  the account IDs, though; see "Left out".
- A resume with only the DTO cache file on disk leaves `nat_cache_df` without columns.
  The first NAT cell that has gateways then raises an uncaught `KeyError`, and no NAT row
  is recorded (`NatCollect.ResumeWithoutNatCacheRecordsNothing`).
- The three NAT averages share one denominator: the number of distinct months with a
  positive total among the twelve latest months of this run's rows.
- `discover_nat_ids` passes no time window to `list_metrics`. The oracle is still
  indexed by the window of the cell being visited, so that the answer may differ from
  one call to the next.

## Model

| member | source | states |
|---|---|---|
| Months.FirstOfMonth | aws-egress-calculator.py:53 | `now.replace(day=1)` keeps the month and time of day, is not after `now`, and equals `now` exactly on day 1 |
| Months.MonthlyRanges | aws-egress-calculator.py:51-62 | n+1 windows oldest first: window j starts on day 1 of month `now - n + j`; consecutive windows meet; the last runs from day 1 to now and is empty iff now is on day 1 |
| Months.MonthsBackReversedAt | aws-egress-calculator.py:54-60 | reversing the newest-first comprehension puts month `n - j` before now at position j |
| Months.MonthLabel | aws-egress-calculator.py:301 | `strftime('%Y-%m')` is seven characters with a dash at index 4 |
| Months.MonthLabelOrder | aws-egress-calculator.py:408 | month labels sort lexicographically as the months sort chronologically, so `sorted()` on labels is chronological |
| Months.MonthLabelInjective | aws-egress-calculator.py:326-330 | distinct months have distinct labels, so the month column keys cells by month |
| Months.DateString | aws-egress-calculator.py:154-155 | `strftime('%Y-%m-%d')` is ten characters whose first seven are the month label |
| Months.DtoMonthRanges | aws-egress-calculator.py:149-163 | thirteen ranges; range j's start, cut to seven characters, is the label of month `now - 12 + j` |
| Months.DtoRangesAreWindows | aws-egress-calculator.py:149-163 | the DTO date ranges are the planner's thirteen windows rendered as dates |
| Months.WindowLabelsAscending | aws-egress-calculator.py:300-301 | the thirteen window labels are strictly ascending |
| Units.RoundHundredths | aws-egress-calculator.py:244-245 | `round(x, 2)` is within half a hundredth of x and never negative for x >= 0 |
| Units.BytesToCentiGiB | aws-egress-calculator.py:320-321 | `round(bytes / 1024**3, 2)` is within half a hundredth of the exact GiB volume |
| Units.BytesToCentiGiBMonotone | aws-egress-calculator.py:320-321 | more bytes never give fewer GB |
| Accounts.ActiveInPageMembers | aws-egress-calculator.py:88-90 | an ID is collected from a page iff the page has an ACTIVE account with that ID |
| Accounts.ActiveIdsMembers | aws-egress-calculator.py:86-91 | an ID is listed iff some page has an ACTIVE account with that ID |
| Accounts.NonEmptyStrippedMembers | aws-egress-calculator.py:95 | a typed ID is kept iff it is the non-empty stripped form of a piece |
| Accounts.TypedAccountIdsShape | aws-egress-calculator.py:94-95 | every fallback ID is non-empty, has no comma and has no white space at either end |
| Accounts.GetAllAccounts | aws-egress-calculator.py:82-95 | the nested loops return the ACTIVE IDs in paginator order on success and the parsed typed line when listing fails |
| Metrics.GetMetricSum | aws-egress-calculator.py:124-137 | the sum is zero exactly when the call raised, the response had no datapoints, or every datapoint was zero; with datapoints it is their sum |
| Metrics.NatIdsInSpec | aws-egress-calculator.py:114-122 | the collected IDs have no duplicates, and an ID is collected iff some dimension named `NatGatewayId` carries it |
| Metrics.DiscoverNatIds | aws-egress-calculator.py:114-122 | the loops over pages, metrics and dimensions return exactly the distinct `NatGatewayId` values, without duplicates |
| Cache.SaveToCache | aws-egress-calculator.py:46-47 | saving always leaves a file on disk |
| Cache.LoadCache | aws-egress-calculator.py:37-42 | a missing or unparsable file loads as a frame without columns, and only such a file does; a CSV file loads as its rows |
| Cache.LoadAfterSave | aws-egress-calculator.py:37-47 | loading what was saved gives back the same frame |
| Cache.FirstGb | aws-egress-calculator.py:177-179 | a value is found iff some cached row has the month |
| Cache.FirstGbIsFirst | aws-egress-calculator.py:177-179 | the value found is the GB of the first row of that month |
| Cache.FirstGbAppend | aws-egress-calculator.py:177-179 | appending a row keeps the first match of a month already present, and makes the new row the match of its month when that month was absent |
| NatCollect.PlannerLabelled | aws-egress-calculator.py:294-301 | every planned window's month can be labelled |
| NatCollect.CellRow | aws-egress-calculator.py:311-322 | a region without gateways gives no row; otherwise the row is keyed by (account, region, month label) and its total is upload + download |
| NatCollect.RaisedMonths | aws-egress-calculator.py:309-332 | after an exception escapes (a failed `list_metrics` or a resume check on a frame without columns), no further cell changes anything |
| NatCollect.MonthsPreserve | aws-egress-calculator.py:300-355 | an invariant that every visited cell preserves holds after the whole collection |
| NatCollect.CollectIsAppendOnlyWriteThrough | aws-egress-calculator.py:335-354 | the cache ends as its first rows followed by exactly the returned rows; the file is untouched if nothing was returned and otherwise reloads as the frame |
| NatCollect.ResumeWithoutNatCacheRecordsNothing | aws-egress-calculator.py:325-332 | resuming with a NAT frame without columns returns no row and leaves the frame and file as they were |
| NatCollect.AppendedFreshKeys | aws-egress-calculator.py:325-354 | in resume mode no appended row shares a key with an earlier row, so a cache with unique keys keeps them |
| NatCollect.ResumeAppendsOnlyNewKeys | aws-egress-calculator.py:325-354 | a resumed collection returns no cell already cached and keeps the cache's keys unique |
| NatCollect.CollectedRowsComeFromCells | aws-egress-calculator.py:300-342 | every returned row is the measurement of a planned month, listed account and region, for an account whose role was assumed |
| NatCollect.MonthsCover | aws-egress-calculator.py:300-355 | after a collection that did not raise, every visited cell's `list_metrics` succeeded and every visited cell with gateways has its key in the cache |
| NatCollect.ResumeOverCoveredCache | aws-egress-calculator.py:325-332 | resuming over a cache that has every cell, with every `list_metrics` succeeding, returns nothing and changes neither frame nor file |
| NatCollect.ResumeAfterCompleteRunAddsNothing | aws-egress-calculator.py:300-355 | resuming right after a completed run returns no rows and leaves the cache and file unchanged |
| NatCollect.MonthsQueries | aws-egress-calculator.py:315-318 | collections that do not raise make the same number of metric queries whatever the resume mode |
| NatCollect.ResumeSavesNoQueries | aws-egress-calculator.py:315-332 | a resumed collection makes as many metric queries as a fresh one |
| Dto.PlannedRanges | aws-egress-calculator.py:168-173 | every DTO range has a month label: the label of month `now - 12 + j` |
| Dto.DtoSummary | aws-egress-calculator.py:207-214 | the total is the rounded sum; the average is the rounded sum over the months with a positive value, and 0 when there is none |
| Dto.ZeroMonthChangesNothing | aws-egress-calculator.py:209-210 | a month with no traffic changes neither total nor average |
| Dto.NonzeroMonthAveraging | aws-egress-calculator.py:207-214 | 10 GB and 20 GB among four months give a total of 30 GB and an average of 15 GB |
| Dto.RaisedDto | aws-egress-calculator.py:203-205 | once the collector has raised, no further month changes anything |
| Dto.DtoMonthsInOrder | aws-egress-calculator.py:172-195 | every range visited adds one month, labelled by its range, in order |
| Dto.DtoRunMonths | aws-egress-calculator.py:168-195 | a collection that does not raise records thirteen months, labelled by the planned months and strictly ascending |
| Dto.DtoIsAppendOnlyWriteThrough | aws-egress-calculator.py:197-200 | the DTO cache keeps its first rows, each appended row is a recorded month, the file reloads as the frame once a row was appended, and in resume mode no cached month is appended again |
| Dto.DtoRangesPreserve | aws-egress-calculator.py:172-201 | every DTO step preserves the write-through invariant |
| Dto.ConsistentRanges | aws-egress-calculator.py:176-200 | each recorded month's value is the first cached value of that month |
| Dto.ResumeOverFullDtoCache | aws-egress-calculator.py:176-180 | resuming over a cache that has every month makes no query and records each cached value |
| Dto.CompletedRunIsCached | aws-egress-calculator.py:172-200 | after a DTO run that did not raise, every planned month is cached with the value recorded for it |
| Dto.DtoResumeIdempotent | aws-egress-calculator.py:165-205 | resuming right after a completed DTO run makes no query, leaves cache and file unchanged, and reports the same months |
| NatSummary.Recent | aws-egress-calculator.py:408-409 | the twelve latest months are among the months present |
| NatSummary.RecentIsUpwardClosed | aws-egress-calculator.py:408-409 | every month later than a kept month is kept |
| NatSummary.RecentAtMostTwelve | aws-egress-calculator.py:409 | at most twelve months are kept |
| NatSummary.RecentKeepsAllOfTwelve | aws-egress-calculator.py:409 | with twelve months or fewer, all are kept |
| NatSummary.RecentCount | aws-egress-calculator.py:408-409 | exactly min(12, number of months present) months are kept |
| NatSummary.KeptMembers | aws-egress-calculator.py:410 | a row is kept iff it is in a kept month and its total is positive |
| NatSummary.Average | aws-egress-calculator.py:417-419 | the average times the month count is the total, and 0 when there is no month |
| NatSummary.Summarize | aws-egress-calculator.py:399-432 | no rows give the two-key result; otherwise the total is zero iff no month is kept, and the three averages divide by the same count of kept months |
| NatSummary.AveragesAdd | aws-egress-calculator.py:412-419 | the total and average of all traffic are those of upload plus download |
| NatSummary.KeptCarriesAllVolume | aws-egress-calculator.py:410-414 | dropping zero-total rows loses no upload or download volume |
| NatSummary.ZeroRowsCarryNoVolume | aws-egress-calculator.py:408-414 | the upload and download totals are those of every row in the twelve latest months |
| NatSummary.NonzeroMonthAveraging | aws-egress-calculator.py:408-432 | two months with traffic among four give averages over two months, not four |
| Analysis.AffirmativeMeans | aws-egress-calculator.py:439-440 | the answer resumes iff, stripped, it is `y` or `Y` |
| Analysis.AnalysisRun.constructor | aws-egress-calculator.py:17-24 | a run starts with empty frames, no resume mode, no success, and the cache files that are on disk |
| Analysis.AnalysisRun.DecideResume | aws-egress-calculator.py:438-457 | with a cache file present, yes loads each existing file and sets resume mode, any other answer deletes both files; without one, nothing changes; the new state is `Prompted` of the old |
| Analysis.AnalysisRun.FetchGatewayBytes | aws-egress-calculator.py:315-318 | the upload and download byte sums over the gateways, at two queries per gateway |
| Analysis.AnalysisRun.CollectCell | aws-egress-calculator.py:309-355 | one cell of the loop, including a `list_metrics` failure that raises, changes rows, frame, file and query count as one step of the fold |
| Analysis.AnalysisRun.RunOrgQuery | aws-egress-calculator.py:292-364 | the nested loops end in the fold's frame, file and query count; they raise iff the fold raises, and return its rows |
| Analysis.AnalysisRun.RunSingleAccountQuery | aws-egress-calculator.py:217-290 | the caller's account is looked up first and a failed lookup raises with nothing collected; otherwise the same as the organisation loops for that account alone, with no role to assume |
| Analysis.AnalysisRun.RunNatQuery | aws-egress-calculator.py:399-432 | dispatches on the organisation flag and returns the collected rows with their summary; outside organisation mode a failed caller lookup raises and changes nothing |
| Analysis.AnalysisRun.CollectPeriod | aws-egress-calculator.py:172-200 | one DTO month changes the months, frame, file and query count as one step of the fold |
| Analysis.AnalysisRun.RunDtoQuery | aws-egress-calculator.py:165-215 | the loop ends in the fold's frame, file and query count, and returns the fold's months and summary |
| Analysis.AnalysisRun.CleanupCache | aws-egress-calculator.py:576-587 | after success both cache files are gone; otherwise they are untouched |
| Analysis.AnalysedEnding | aws-egress-calculator.py:483-509 | a run crashes iff the caller lookup (outside organisation mode) or the NAT collection raises, and a failed lookup changes no state; it finds no usage iff it returns no row, and otherwise reports exactly this run's rows and their summary, with the DTO totals of the DTO collection or zero; success is set by a completed run only; the DTO cache is untouched when DTO is off or the run crashed before it |
| Analysis.CheckpointAtExit | aws-egress-calculator.py:434-587 | after prompt, analysis and exit: success iff completed, and then no cache file; otherwise the NAT cache is its starting rows plus every row recorded, its file untouched if none and else reloading as the frame, and the DTO cache only grew, its file reloading as it once a month was appended |
| Analysis.AnalysisRun.Analyse | aws-egress-calculator.py:483-509 | the new state and the ending are exactly `Analysed` of the old state: the NAT collection over the run's accounts at the NAT instant, then the DTO collection at the DTO instant, then the ending |
| Analysis.AnalysisRun.RunAwsAnalysis | aws-egress-calculator.py:434-509 | the new state and the ending are `Analysed` of `Prompted` of the old state; success iff completed, with rows and their summary |
| Analysis.AnalysisRun.Invocation | aws-egress-calculator.py:434-587 | the new state is `AtExit` of the run; success iff completed; a completed run leaves no cache file; any other run leaves the checkpoint of `CheckpointAtExit` for the next one |

## Left out

- AWS, the clock and the operator are oracle parameters: `assume_role`, `list_metrics` and `get_metric_statistics` (`Metrics.Aws`), `get_cost_and_usage` (`Dto.CostExplorer`), Organizations paging (`Accounts.Listing`), `get_caller_identity` (`Analysis.Setting.callerIdentity`), the typed answers, and one instant for each planner's `datetime.now()` (`Analysis.Setting`). boto3 sessions, clients and credentials are not modelled.
- Metric queries and Cost Explorer calls are counted in ghost fields. The requests themselves are only described by `Metrics.NatQuery`.
- Floating point: NAT volumes are exact hundredths of a GiB. DTO amounts are exact `real`s. `round` is modelled as round-half-up, not Python's round-half-to-even on binary floats.
- NatCollect.ResumeAppendsOnlyNewKeys, NatCollect.ResumeOverCoveredCache and NatCollect.ResumeAfterCompleteRunAddsNothing hold for an exact CSV round trip only. `pd.read_csv` reads the all-digit `Account` column back as integers, so the program's resume check compares an integer with a string ID and never matches; a resumed run then measures and re-appends every cell. pandas' type inference is not modelled: `Cache.LoadCache` gives back the rows as saved.
- `Text.Lower` lowers ASCII letters only. For the resume answer this is exact, since only `Y` and `y` lower to `y`. `Text.Strip` removes exactly the characters Python's `str.isspace` accepts.
- Instants whose windows fall outside the years 1000 to 9999 are excluded by `Months.SupportedNow`, where `%Y` is four digits wide.
- `discover_nat_ids` returns `list(seen)` in an unspecified order. The model returns first-seen order, and only the membership and absence of duplicates are stated.
- A failed `os.remove` (caught and printed at lines 456-457 and 586-587) is not modelled. Deleting a file always succeeds.
- `prompt_for_regions` and the organisation, DTO and detail prompts are not modelled. Regions and the two flags are parameters. The unguarded `describe_regions` call in `prompt_for_regions` (aws-egress-calculator.py:66, reached at :473 after the resume decision) may also end the run, as may an invalid region choice (`sys.exit(1)`); neither ending is modelled.
- The role name is not modelled. `Aws.assumeRole` answers per account and window.
- `is_management_account` and all output are not modelled: `print_both`, the progress bar and ETA, the output file, `print_summary` and `print_detailed_tables`.
- `atexit` is modelled as an explicit `CleanupCache` call after `RunAwsAnalysis` (`Analysis.AnalysisRun.Invocation`). A crash is an `Ending` value, not a process exit.
- `get_caller_identity` is called twice outside organisation mode (aws-egress-calculator.py:492 and :220). Both calls get the one answer `Analysis.Setting.callerIdentity`.
- The unused `dto_results` list of `run_single_account_query` is not modelled. Neither is the `CACHE_FILE` constant.
