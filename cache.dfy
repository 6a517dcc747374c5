/** The resumable cache: its rows, the in-memory frames (`nat_cache_df`,
    `dto_cache_df`), the CSV files that back them, `load_cache` and `save_to_cache`. */
module Cache {
  import opened Basics

  /** A row of `nat_cache_df` and of `nat_results`. The three volumes are counts of
      hundredths of a GiB. */
  datatype NatRow = NatRow(
    account: string, region: string, month: string,
    uploadGb: nat, downloadGb: nat, totalGb: nat)

  /** A row of `dto_cache_df`: a month label and its billed transfer-out volume in GB. */
  datatype DtoRow = DtoRow(month: string, gb: real)

  /** A pandas frame as the script uses it: `pd.DataFrame()`, which has no columns at all
      (selecting a column of it raises `KeyError`), or a table of rows. */
  datatype Frame<R> = Blank | Table(rows: seq<R>)

  function Rows<R>(f: Frame<R>): seq<R>
  {
    match f
    case Blank => []
    case Table(rows) => rows
  }

  /** `pd.concat([frame, new_row], ignore_index=True)`. */
  function Concat<R>(f: Frame<R>, row: R): (g: Frame<R>)
    ensures g.Table? && Rows(g) == Rows(f) + [row]
  {
    Table(Rows(f) + [row])
  }

  /** A cache file on disk: missing, present but not parseable as a table (a frame
      without columns writes such a file), or a CSV table of rows. */
  datatype Stored<R> = Absent | Unreadable | Csv(rows: seq<R>)

  /** `save_to_cache(df, path)`: the file now holds exactly the frame. */
  function SaveToCache<R>(f: Frame<R>): (s: Stored<R>)
    ensures s != Absent
  {
    match f
    case Blank => Unreadable
    case Table(rows) => Csv(rows)
  }

  /** `load_cache(path)`: the table in the file; `pd.DataFrame()` when the file is
      missing or cannot be parsed. */
  function LoadCache<R>(s: Stored<R>): (f: Frame<R>)
    ensures f.Blank? <==> !s.Csv?
    ensures s.Csv? ==> Rows(f) == s.rows
  {
    match s
    case Csv(rows) => Table(rows)
    case _ => Blank
  }

  /** Write-through durability: what `save_to_cache` wrote, `load_cache` reads back. */
  lemma LoadAfterSave<R>(f: Frame<R>)
    ensures LoadCache(SaveToCache(f)) == f
  {
  }

  /** The composite key of a NAT cell. */
  datatype NatKey = NatKey(account: string, region: string, month: string)

  function KeyOf(r: NatRow): NatKey
  {
    NatKey(r.account, r.region, r.month)
  }

  /** `not df[(Account == a) & (Region == r) & (Month == m)].empty` on a table. */
  predicate HasKey(rows: seq<NatRow>, k: NatKey)
  {
    exists i :: 0 <= i < |rows| && KeyOf(rows[i]) == k
  }

  predicate UniqueKeys(rows: seq<NatRow>)
  {
    forall i, j :: 0 <= i < j < |rows| ==> KeyOf(rows[i]) != KeyOf(rows[j])
  }

  /** The resume check on `nat_cache_df`: raises `KeyError` on a frame without columns. */
  function NatCached(f: Frame<NatRow>, k: NatKey): (r: Outcome<bool>)
    ensures r.Raised? <==> f.Blank?
    ensures r.Returned? ==> (r.value <==> exists i :: 0 <= i < |f.rows| && KeyOf(f.rows[i]) == k)
  {
    match f
    case Blank => Raised
    case Table(rows) => Returned(HasKey(rows, k))
  }

  /** `GB` of the first row of `rows` labelled `month`, if any (`cached.iloc[0]['GB']`). */
  function FirstGb(rows: seq<DtoRow>, month: string): (r: Option<real>)
    ensures r.Some? <==> exists i :: 0 <= i < |rows| && rows[i].month == month
  {
    if rows == [] then None
    else if rows[0].month == month then Some(rows[0].gb)
    else
      assert forall i :: 1 <= i < |rows| ==> rows[i] == rows[1..][i - 1];
      FirstGb(rows[1..], month)
  }

  /** The value found is that of the first row of the month. */
  lemma {:induction false} FirstGbIsFirst(rows: seq<DtoRow>, month: string)
    requires FirstGb(rows, month).Some?
    ensures exists i :: (0 <= i < |rows| && rows[i].month == month && rows[i].gb == FirstGb(rows, month).value
      && forall j :: 0 <= j < i ==> rows[j].month != month)
  {
    if rows[0].month != month {
      FirstGbIsFirst(rows[1..], month);
      var i :| 0 <= i < |rows[1..]| && rows[1..][i].month == month && rows[1..][i].gb == FirstGb(rows, month).value
        && forall j :: 0 <= j < i ==> rows[1..][j].month != month;
      assert rows[i + 1] == rows[1..][i];
      assert forall j :: 1 <= j < i + 1 ==> rows[j] == rows[1..][j - 1];
    } else {
      assert 0 <= 0 < |rows| && rows[0].month == month && rows[0].gb == FirstGb(rows, month).value;
    }
  }

  /** Appending a row never changes the first match of a month already present, and is
      the first match of its own month when that month was absent. */
  lemma {:induction false} FirstGbAppend(rows: seq<DtoRow>, row: DtoRow, month: string)
    ensures FirstGb(rows + [row], month) ==
      (if FirstGb(rows, month).Some? then FirstGb(rows, month)
       else if row.month == month then Some(row.gb) else None)
  {
    if rows != [] {
      assert (rows + [row])[1..] == rows[1..] + [row];
      FirstGbAppend(rows[1..], row, month);
    }
  }

  /** The resume check on `dto_cache_df`: raises `KeyError` on a frame without columns,
      else the cached value of the month, if any. */
  function DtoCached(f: Frame<DtoRow>, month: string): (r: Outcome<Option<real>>)
    ensures r.Raised? <==> f.Blank?
  {
    match f
    case Blank => Raised
    case Table(rows) => Returned(FirstGb(rows, month))
  }
}
