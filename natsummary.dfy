/** The NAT summary `run_nat_query` computes from the rows a collection returned: the
    twelve greatest month labels present, the rows of those months with a positive
    total, their column sums, and one shared denominator (the number of distinct months
    among the kept rows) for the three averages. Volumes are hundredths of a GiB; the
    averages are exact quotients, as the source does not round them. */
module NatSummary {
  import opened Text
  import opened Cache

  /** `all_months_sorted[-12:]` keeps this many months. */
  const MonthsKept: nat := 12

  /** The distinct months of `rows` (`df["Month"].unique()`). */
  function MonthsOf(rows: seq<NatRow>): set<string>
  {
    set r | r in rows :: r.month
  }

  /** The months of `months` that sort after `m`. */
  function Later(months: set<string>, m: string): set<string>
  {
    set x | x in months && LexLess(m, x)
  }

  /** `sorted(months)[-12:]`: the months with fewer than twelve months after them. */
  function Recent(months: set<string>): (rs: set<string>)
    ensures rs <= months
  {
    set m | m in months && |Later(months, m)| < MonthsKept
  }

  /** `df[df["Month"].isin(recent) & (df["Total GB"] > 0)]`, order kept. */
  function Kept(rows: seq<NatRow>, recent: set<string>): seq<NatRow>
  {
    if rows == [] then []
    else
      var last := rows[|rows| - 1];
      Kept(rows[..|rows| - 1], recent) + (if last.month in recent && last.totalGb > 0 then [last] else [])
  }

  /** A row is kept exactly when it is one of `rows`, its month is recent and its total
      is positive. */
  lemma {:induction false} KeptMembers(rows: seq<NatRow>, recent: set<string>)
    ensures forall r :: r in Kept(rows, recent) <==> r in rows && r.month in recent && r.totalGb > 0
  {
    if rows != [] {
      KeptMembers(rows[..|rows| - 1], recent);
      assert rows == rows[..|rows| - 1] + [rows[|rows| - 1]];
    }
  }

  /** `df[df["Month"].isin(recent)]`: the same filter without the positive-total test. */
  function InMonths(rows: seq<NatRow>, recent: set<string>): seq<NatRow>
  {
    if rows == [] then []
    else
      var last := rows[|rows| - 1];
      InMonths(rows[..|rows| - 1], recent) + (if last.month in recent then [last] else [])
  }

  function KeptRows(rows: seq<NatRow>): seq<NatRow>
  {
    Kept(rows, Recent(MonthsOf(rows)))
  }

  /** `df_nonzero["Month"].unique()`: the shared denominator's months. */
  function KeptMonths(rows: seq<NatRow>): set<string>
  {
    MonthsOf(KeptRows(rows))
  }

  function UploadOf(r: NatRow): nat { r.uploadGb }
  function DownloadOf(r: NatRow): nat { r.downloadGb }
  function TotalOf(r: NatRow): nat { r.totalGb }

  /** The sum of a column. */
  function SumOf(rows: seq<NatRow>, column: NatRow -> nat): nat
  {
    if rows == [] then 0 else SumOf(rows[..|rows| - 1], column) + column(rows[|rows| - 1])
  }

  /** The summary dictionary: for an empty frame only `Total NAT GB: 0` and `Average NAT
      GB per month: 0`; otherwise the three totals and the three averages. */
  datatype NatTotals =
    | NoData
    | Totals(totalGb: nat, totalUpload: nat, totalDownload: nat,
             avgUpload: real, avgDownload: real, avgGb: real)

  /** The NAT summary of `run_nat_query`. The three averages share one denominator, the
      number of months among the kept rows; the total is zero exactly when no row is kept
      (and then every average is zero). */
  function Summarize(rows: seq<NatRow>): (t: NatTotals)
    ensures t.NoData? <==> rows == []
    ensures t.Totals? ==> (t.totalGb == 0 <==> KeptMonths(rows) == {})
    ensures t.Totals? ==>
      var n := |KeptMonths(rows)|;
      t.avgGb == Average(t.totalGb, n) && t.avgUpload == Average(t.totalUpload, n)
      && t.avgDownload == Average(t.totalDownload, n)
  {
    if rows == [] then NoData
    else
      var kept := KeptRows(rows);
      var months := |MonthsOf(kept)|;
      KeptMembers(rows, Recent(MonthsOf(rows)));
      KeptTotalPositive(kept);
      var totalGb, totalUpload, totalDownload := SumOf(kept, TotalOf), SumOf(kept, UploadOf), SumOf(kept, DownloadOf);
      Totals(totalGb, totalUpload, totalDownload,
             Average(totalUpload, months), Average(totalDownload, months), Average(totalGb, months))
  }

  /** `total / months if months > 0 else 0`. */
  function Average(total: nat, months: nat): (a: real)
    ensures months == 0 ==> a == 0.0
    ensures months > 0 ==> a * months as real == total as real
  {
    if months > 0 then total as real / months as real else 0.0
  }

  /** Averages over one denominator add up. */
  lemma AverageAdds(a: nat, b: nat, months: nat)
    ensures Average(a + b, months) == Average(a, months) + Average(b, months)
  {
    if months > 0 {
      var q := months as real;
      var x, y, z := Average(a, months), Average(b, months), Average(a + b, months);
      assert (x + y) * q == x * q + y * q;
      assert (z - (x + y)) * q == 0.0;
    }
  }

  /** Rows with a positive total have a positive total sum exactly when there is one. */
  lemma {:induction false} KeptTotalPositive(kept: seq<NatRow>)
    requires forall r :: r in kept ==> r.totalGb > 0
    ensures SumOf(kept, TotalOf) == 0 <==> MonthsOf(kept) == {}
  {
    if kept != [] {
      assert kept[|kept| - 1].month in MonthsOf(kept);
      KeptTotalPositive(kept[..|kept| - 1]);
    }
  }

  // ---------------------------------------------------------------- which months count

  /** The months kept are among those present, and every month later than a kept one is
      kept: they are the greatest ones. */
  lemma RecentIsUpwardClosed(months: set<string>, m: string, x: string)
    requires m in Recent(months) && x in months && LexLess(m, x)
    ensures x in Recent(months)
  {
    forall y | y in Later(months, x) ensures y in Later(months, m) {
      LexTransitive(m, x, y);
    }
    LexIrreflexive(x);
    assert x in Later(months, m) - Later(months, x);
    StrictSubsetCard(Later(months, x), Later(months, m), x);
  }

  lemma StrictSubsetCard(a: set<string>, b: set<string>, x: string)
    requires a <= b && x in b && x !in a
    ensures |a| < |b|
  {
    assert b == a + (b - a) && x in b - a;
    assert |b - a| >= 1;
  }

  /** A least element of a finite non-empty set of labels. */
  lemma {:induction false} Least(s: set<string>) returns (m: string)
    requires s != {}
    ensures m in s && forall x :: x in s && x != m ==> LexLess(m, x)
    decreases |s|
  {
    var y :| y in s;
    if s == {y} {
      m := y;
    } else {
      var other := Least(s - {y});
      LexTotal(y, other);
      if LexLess(y, other) {
        m := y;
        forall x | x in s && x != m ensures LexLess(m, x) {
          if x != other {
            LexTransitive(y, other, x);
          }
        }
      } else {
        m := other;
      }
    }
  }

  /** At most twelve months are kept. */
  lemma RecentAtMostTwelve(months: set<string>)
    ensures |Recent(months)| <= MonthsKept
  {
    var rs := Recent(months);
    if |rs| > MonthsKept {
      var m := Least(rs);
      assert rs - {m} <= Later(months, m);
      assert |rs - {m}| == |rs| - 1;
      SubsetCard(rs - {m}, Later(months, m));
      assert false;
    }
  }

  lemma SubsetCard(a: set<string>, b: set<string>)
    requires a <= b
    ensures |a| <= |b|
  {
    assert b == a + (b - a);
  }

  /** With at most twelve months present, every one is kept. */
  lemma RecentKeepsAllOfTwelve(months: set<string>)
    requires |months| <= MonthsKept
    ensures Recent(months) == months
  {
    forall m | m in months ensures |Later(months, m)| < MonthsKept {
      LexIrreflexive(m);
      assert Later(months, m) <= months - {m};
      SubsetCard(Later(months, m), months - {m});
    }
  }

  /** `sorted(months)[-12:]` keeps exactly twelve months when there are more, and all of
      them otherwise. */
  lemma RecentCount(months: set<string>)
    ensures |Recent(months)| == if |months| <= MonthsKept then |months| else MonthsKept
  {
    if |months| <= MonthsKept {
      RecentKeepsAllOfTwelve(months);
    } else {
      RecentAtMostTwelve(months);
      if |Recent(months)| < MonthsKept {
        var m := GreatestDropped(months);
        SubsetCard(Later(months, m), Recent(months));
        assert false;
      }
    }
  }

  /** The greatest month not kept: every month after it is kept. */
  lemma GreatestDropped(months: set<string>) returns (m: string)
    requires Recent(months) != months
    ensures m in months && m !in Recent(months) && Later(months, m) <= Recent(months)
  {
    var dropped := months - Recent(months);
    assert !(months <= Recent(months));
    var y :| y in months && y !in Recent(months);
    assert y in dropped;
    m := Greatest(dropped);
    forall x | x in Later(months, m) ensures x in Recent(months) {
      LexAsymmetric(m, x);
    }
  }

  /** A greatest element of a finite non-empty set of labels. */
  lemma {:induction false} Greatest(s: set<string>) returns (m: string)
    requires s != {}
    ensures m in s && forall x :: x in s && x != m ==> LexLess(x, m)
    decreases |s|
  {
    var y :| y in s;
    if s == {y} {
      m := y;
    } else {
      var other := Greatest(s - {y});
      LexTotal(y, other);
      if LexLess(other, y) {
        m := y;
        forall x | x in s && x != m ensures LexLess(x, m) {
          if x != other {
            LexTransitive(x, other, y);
          }
        }
      } else {
        m := other;
      }
    }
  }

  // ---------------------------------------------------------------- what the totals mean

  lemma {:induction false} SumOfAdds(rows: seq<NatRow>)
    requires forall r :: r in rows ==> r.totalGb == r.uploadGb + r.downloadGb
    ensures SumOf(rows, TotalOf) == SumOf(rows, UploadOf) + SumOf(rows, DownloadOf)
  {
    if rows != [] {
      SumOfAdds(rows[..|rows| - 1]);
    }
  }

  /** Because the three averages share their denominator, on rows whose total is upload
      plus download (as every collected row is) the average total is the average upload
      plus the average download, and likewise for the totals. */
  lemma AveragesAdd(rows: seq<NatRow>)
    requires forall r :: r in rows ==> r.totalGb == r.uploadGb + r.downloadGb
    ensures var t := Summarize(rows);
      t.Totals? ==> t.totalGb == t.totalUpload + t.totalDownload && t.avgGb == t.avgUpload + t.avgDownload
  {
    if rows != [] {
      KeptMembers(rows, Recent(MonthsOf(rows)));
      SumOfAdds(KeptRows(rows));
      var n := |KeptMonths(rows)|;
      var up, down := SumOf(KeptRows(rows), UploadOf), SumOf(KeptRows(rows), DownloadOf);
      AverageAdds(up, down, n);
    }
  }

  lemma KeptCarriesAllVolume(rows: seq<NatRow>, recent: set<string>)
    requires forall r :: r in rows ==> r.totalGb == r.uploadGb + r.downloadGb
    ensures SumOf(Kept(rows, recent), UploadOf) == SumOf(InMonths(rows, recent), UploadOf)
    ensures SumOf(Kept(rows, recent), DownloadOf) == SumOf(InMonths(rows, recent), DownloadOf)
  {
    KeptCarriesColumn(rows, recent, UploadOf);
    KeptCarriesColumn(rows, recent, DownloadOf);
  }

  /** A column that is zero wherever the total is zero loses nothing when the rows with
      a zero total are dropped. */
  lemma {:induction false} KeptCarriesColumn(rows: seq<NatRow>, recent: set<string>, column: NatRow -> nat)
    requires forall j :: 0 <= j < |rows| && rows[j].totalGb == 0 ==> column(rows[j]) == 0
    ensures SumOf(Kept(rows, recent), column) == SumOf(InMonths(rows, recent), column)
  {
    if rows != [] {
      var init, last := rows[..|rows| - 1], rows[|rows| - 1];
      assert forall j :: 0 <= j < |init| ==> init[j] == rows[j];
      KeptCarriesColumn(init, recent, column);
      KeptColumnStep(rows, recent, column);
    }
  }

  lemma KeptColumnStep(rows: seq<NatRow>, recent: set<string>, column: NatRow -> nat)
    requires rows != []
    requires rows[|rows| - 1].totalGb == 0 ==> column(rows[|rows| - 1]) == 0
    requires var init := rows[..|rows| - 1];
      SumOf(Kept(init, recent), column) == SumOf(InMonths(init, recent), column)
    ensures SumOf(Kept(rows, recent), column) == SumOf(InMonths(rows, recent), column)
  {
    var init, last := rows[..|rows| - 1], rows[|rows| - 1];
    var k, i := Kept(init, recent), InMonths(init, recent);
    if last.month in recent && last.totalGb > 0 {
      assert Kept(rows, recent) == k + [last] && InMonths(rows, recent) == i + [last];
      assert (k + [last])[..|k|] == k;
      assert (i + [last])[..|i|] == i;
    } else if last.month in recent {
      assert Kept(rows, recent) == k + [] == k;
      assert InMonths(rows, recent) == i + [last];
      assert (i + [last])[..|i|] == i;
    } else {
      assert Kept(rows, recent) == k + [] == k;
      assert InMonths(rows, recent) == i + [] == i;
    }
  }

  /** Dropping rows whose total is zero drops no upload and no download volume: the
      upload and download totals are those of every row in the kept months. */
  lemma ZeroRowsCarryNoVolume(rows: seq<NatRow>)
    requires rows != [] && forall r :: r in rows ==> r.totalGb == r.uploadGb + r.downloadGb
    ensures var t := Summarize(rows);
      t.totalUpload == SumOf(InMonths(rows, Recent(MonthsOf(rows))), UploadOf)
      && t.totalDownload == SumOf(InMonths(rows, Recent(MonthsOf(rows))), DownloadOf)
  {
    KeptCarriesAllVolume(rows, Recent(MonthsOf(rows)));
  }

  /** The averaging example: four months whose totals are 0, 10, 0 and 20 GB give a total
      of 30 GB and an average of 15 GB, over the two months with traffic. */
  lemma NonzeroMonthAveraging()
    ensures Summarize(ExampleRows()) == Totals(3000, 2100, 900, 1050.0, 450.0, 1500.0)
  {
    var rows := ExampleRows();
    var kept := [rows[1], rows[3]];
    ExampleKept();
    assert kept[..1] == [rows[1]];
    assert SumOf(kept, TotalOf) == 3000;
    assert SumOf(kept, UploadOf) == 2100;
    assert SumOf(kept, DownloadOf) == 900;
    ExampleKeptMonths();
  }

  function ExampleRows(): seq<NatRow>
  {
    [NatRow("111111111111", "us-east-1", "2024-01", 0, 0, 0),
     NatRow("111111111111", "us-east-1", "2024-02", 600, 400, 1000),
     NatRow("111111111111", "us-east-1", "2024-03", 0, 0, 0),
     NatRow("111111111111", "us-east-1", "2024-04", 1500, 500, 2000)]
  }

  lemma ExampleMonths()
    ensures MonthsOf(ExampleRows()) == {"2024-01", "2024-02", "2024-03", "2024-04"}
    ensures Recent(MonthsOf(ExampleRows())) == MonthsOf(ExampleRows())
  {
    var ms := {"2024-01", "2024-02", "2024-03", "2024-04"};
    assert MonthsOf(ExampleRows()) == ms;
    assert |ms| == 4;
    RecentKeepsAllOfTwelve(ms);
  }

  lemma ExampleKept()
    ensures KeptRows(ExampleRows()) == [ExampleRows()[1], ExampleRows()[3]]
  {
    var rows := ExampleRows();
    ExampleMonths();
    var recent := {"2024-01", "2024-02", "2024-03", "2024-04"};
    assert KeptRows(rows) == Kept(rows, recent);
    ExampleKeptIn(recent);
  }

  lemma ExampleKeptIn(recent: set<string>)
    requires recent == {"2024-01", "2024-02", "2024-03", "2024-04"}
    ensures Kept(ExampleRows(), recent) == [ExampleRows()[1], ExampleRows()[3]]
  {
    var rows := ExampleRows();
    var r0, r1, r2, r3 := rows[0], rows[1], rows[2], rows[3];
    assert r1.month in recent && r3.month in recent;
    assert [r0][..0] == [];
    assert Kept([r0], recent) == [];
    assert [r0, r1][..1] == [r0];
    assert Kept([r0, r1], recent) == [r1];
    assert [r0, r1, r2][..2] == [r0, r1];
    assert Kept([r0, r1, r2], recent) == [r1];
    assert rows[..3] == [r0, r1, r2];
  }

  lemma ExampleKeptMonths()
    ensures |KeptMonths(ExampleRows())| == 2
  {
    var rows := ExampleRows();
    ExampleKept();
    assert KeptMonths(rows) == {"2024-02", "2024-04"};
  }
}
