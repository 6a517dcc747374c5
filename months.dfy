/** The monthly time windows of a run (`get_monthly_ranges`, `get_dto_month_ranges`) and
    the `YYYY-MM` / `YYYY-MM-DD` strings that name them. "Now" is a parameter. */
module Months {
  import opened Text

  /** A UTC instant: its calendar month as `year * 12 + (month - 1)`, its day of the month
      (counted from 1), and its time of day (every finer component, as one count). */
  datatype Instant = Instant(month: int, day: nat, timeOfDay: nat)

  /** A `(start, end)` pair of the planner. */
  datatype Window = Window(start: Instant, end: Instant)

  predicate ValidInstant(t: Instant)
  {
    1 <= t.day <= 31
  }

  /** Chronological `a <= b`. */
  predicate NotAfter(a: Instant, b: Instant)
  {
    a.month < b.month
    || (a.month == b.month && (a.day < b.day || (a.day == b.day && a.timeOfDay <= b.timeOfDay)))
  }

  /** `now.replace(day=1)`: same month and same time of day. */
  function FirstOfMonth(t: Instant): (r: Instant)
    requires ValidInstant(t)
    ensures ValidInstant(r) && r.day == 1 && NotAfter(r, t)
    ensures r.month == t.month && r.timeOfDay == t.timeOfDay
    ensures r == t <==> t.day == 1
  {
    t.(day := 1)
  }

  /** `t - relativedelta(months=k)` for an instant on day 1: day 1 exists in every
      month, so the day is never clamped and the time of day is kept. */
  function MonthsBefore(t: Instant, k: nat): (r: Instant)
    requires t.day == 1
  {
    t.(month := t.month - k)
  }

  function Reversed<T>(s: seq<T>): (r: seq<T>)
    ensures |r| == |s|
  {
    if s == [] then [] else Reversed(s[1..]) + [s[0]]
  }

  lemma {:induction false} ReversedAt<T>(s: seq<T>, k: nat)
    requires k < |s|
    ensures Reversed(s)[k] == s[|s| - 1 - k]
  {
    if k < |s| - 1 {
      ReversedAt(s[1..], k);
    }
  }

  /** The whole months before `end`, newest first, as the comprehension builds them. */
  function MonthsBack(end: Instant, n: nat): (full: seq<Window>)
    requires end.day == 1
    ensures |full| == n
  {
    seq(n, i requires 0 <= i < n => Window(MonthsBefore(end, i + 1), MonthsBefore(end, i)))
  }

  lemma MonthsBackReversedAt(end: Instant, n: nat)
    requires end.day == 1
    ensures forall j :: 0 <= j < n ==>
      Reversed(MonthsBack(end, n))[j] == Window(MonthsBefore(end, n - j), MonthsBefore(end, n - 1 - j))
  {
    forall j | 0 <= j < n
      ensures Reversed(MonthsBack(end, n))[j] == Window(MonthsBefore(end, n - j), MonthsBefore(end, n - 1 - j))
    {
      ReversedAt(MonthsBack(end, n), j);
    }
  }

  /** `get_monthly_ranges(months_back)`: `n + 1` windows, oldest first. Window `j < n` is
      the whole month `n - j` months before the current one, from day 1 to day 1 at the
      current time of day; the last runs from day 1 of the current month to now (empty
      exactly when now is on day 1); each window starts where the previous one ends. */
  function MonthlyRanges(now: Instant, n: nat): (r: seq<Window>)
    requires ValidInstant(now)
    ensures |r| == n + 1
    ensures r[0].start == MonthsBefore(FirstOfMonth(now), n)
    ensures r[n] == Window(FirstOfMonth(now), now)
    ensures forall j :: 0 <= j <= n ==> r[j].start == Instant(now.month - n + j, 1, now.timeOfDay)
    ensures forall j :: 0 <= j < n ==> r[j].end == r[j + 1].start
    ensures forall j :: 0 <= j < n ==> r[j].end == Instant(now.month - n + j + 1, 1, now.timeOfDay)
    ensures forall j :: 0 <= j <= n ==> ValidInstant(r[j].end) && NotAfter(r[j].start, r[j].end)
    ensures r[n].start == r[n].end <==> now.day == 1
  {
    var end := FirstOfMonth(now);
    MonthsBackReversedAt(end, n);
    Reversed(MonthsBack(end, n)) + [Window(end, now)]
  }

  // ---------------------------------------------------------------- labels

  /** Months whose year has four digits, the range in which `%Y` is a fixed-width field. */
  predicate LabelRange(m: int)
  {
    1000 * 12 <= m < 10000 * 12
  }

  /** `strftime('%Y-%m')` of an instant in month `m`. */
  function MonthLabel(m: int): (s: string)
    requires LabelRange(m)
    ensures |s| == 7 && s[4] == '-'
  {
    Decimal4(m / 12) + "-" + Decimal2(m % 12 + 1)
  }

  /** Month labels sort as the months do, so `sorted()` on labels is chronological. */
  lemma MonthLabelOrder(m1: int, m2: int)
    requires LabelRange(m1) && LabelRange(m2) && m1 < m2
    ensures LexLess(MonthLabel(m1), MonthLabel(m2))
  {
    var y1, y2 := m1 / 12, m2 / 12;
    var a1, a2 := Decimal2(m1 % 12 + 1), Decimal2(m2 % 12 + 1);
    assert MonthLabel(m1) == Decimal4(y1) + ("-" + a1);
    assert MonthLabel(m2) == Decimal4(y2) + ("-" + a2);
    if y1 < y2 {
      Decimal4Order(y1, y2);
      LexExtend(Decimal4(y1), Decimal4(y2), "-" + a1, "-" + a2);
    } else {
      Decimal2Order(m1 % 12 + 1, m2 % 12 + 1);
      LexCommonPrefix(Decimal4(y1) + "-", a1, a2);
    }
  }

  /** Distinct months have distinct labels. */
  lemma MonthLabelInjective(m1: int, m2: int)
    requires LabelRange(m1) && LabelRange(m2) && m1 != m2
    ensures MonthLabel(m1) != MonthLabel(m2)
  {
    if m1 < m2 {
      MonthLabelOrder(m1, m2);
    } else {
      MonthLabelOrder(m2, m1);
    }
    LexIrreflexive(MonthLabel(m1));
  }

  /** `strftime('%Y-%m-%d')`. */
  function DateString(t: Instant): (s: string)
    requires ValidInstant(t) && LabelRange(t.month)
    ensures |s| == 10 && s[..7] == MonthLabel(t.month)
  {
    MonthLabel(t.month) + "-" + Decimal2(t.day)
  }

  /** The instants a run may start at: every window's month has a four-digit year. */
  predicate SupportedNow(now: Instant)
  {
    ValidInstant(now) && LabelRange(now.month - 12) && LabelRange(now.month)
  }

  /** `get_dto_month_ranges()`: thirteen `(start, end)` date strings, built by the
      source's own comprehension rather than by calling the planner; the start of range
      `j` is labelled with month `now - 12 + j`. */
  function DtoMonthRanges(now: Instant): (d: seq<(string, string)>)
    requires SupportedNow(now)
    ensures |d| == 13
    ensures forall j :: 0 <= j < 13 ==> |d[j].0| == 10 && d[j].0[..7] == MonthLabel(now.month - 12 + j)
  {
    var end := FirstOfMonth(now);
    var full := seq(12, i requires 0 <= i < 12 =>
      (DateString(MonthsBefore(end, i + 1)), DateString(MonthsBefore(end, i))));
    DateLabelsAt(now, full);
    var d := Reversed(full) + [(DateString(end), DateString(now))];
    assert forall j :: 0 <= j < 12 ==> d[j] == Reversed(full)[j];
    d
  }

  lemma DateLabelsAt(now: Instant, full: seq<(string, string)>)
    requires SupportedNow(now)
    requires full == seq(12, i requires 0 <= i < 12 =>
      (DateString(MonthsBefore(FirstOfMonth(now), i + 1)), DateString(MonthsBefore(FirstOfMonth(now), i))))
    ensures |Reversed(full)| == 12
    ensures forall j :: 0 <= j < 12 ==>
      |Reversed(full)[j].0| == 10 && Reversed(full)[j].0[..7] == MonthLabel(now.month - 12 + j)
  {
    forall j | 0 <= j < 12
      ensures |Reversed(full)[j].0| == 10 && Reversed(full)[j].0[..7] == MonthLabel(now.month - 12 + j)
    {
      DateLabelAt(now, full, j);
    }
  }

  lemma DateLabelAt(now: Instant, full: seq<(string, string)>, j: nat)
    requires SupportedNow(now) && j < 12
    requires full == seq(12, i requires 0 <= i < 12 =>
      (DateString(MonthsBefore(FirstOfMonth(now), i + 1)), DateString(MonthsBefore(FirstOfMonth(now), i))))
    ensures |Reversed(full)[j].0| == 10 && Reversed(full)[j].0[..7] == MonthLabel(now.month - 12 + j)
  {
    ReversedAt(full, j);
    var t := MonthsBefore(FirstOfMonth(now), 12 - j);
    assert t.month == now.month - 12 + j;
    assert full[11 - j].0 == DateString(t);
  }

  /** The DTO ranges are the planner's thirteen windows rendered as dates. */
  lemma DtoRangesAreWindows(now: Instant)
    requires SupportedNow(now)
    ensures forall j :: 0 <= j < 13 ==>
      var w := MonthlyRanges(now, 12)[j];
      DtoMonthRanges(now)[j] == (DateString(w.start), DateString(w.end))
  {
    var end := FirstOfMonth(now);
    var full := seq(12, i requires 0 <= i < 12 =>
      (DateString(MonthsBefore(end, i + 1)), DateString(MonthsBefore(end, i))));
    DateRangesAt(now, full);
    var d := Reversed(full) + [(DateString(end), DateString(now))];
    assert DtoMonthRanges(now) == d;
    assert forall j :: 0 <= j < 12 ==> d[j] == Reversed(full)[j];
  }

  lemma DateRangesAt(now: Instant, full: seq<(string, string)>)
    requires SupportedNow(now)
    requires full == seq(12, i requires 0 <= i < 12 =>
      (DateString(MonthsBefore(FirstOfMonth(now), i + 1)), DateString(MonthsBefore(FirstOfMonth(now), i))))
    ensures forall j :: 0 <= j < 12 ==>
      var w := MonthlyRanges(now, 12)[j];
      Reversed(full)[j] == (DateString(w.start), DateString(w.end))
  {
    var ws := MonthlyRanges(now, 12);
    forall j | 0 <= j < 12
      ensures Reversed(full)[j] == (DateString(ws[j].start), DateString(ws[j].end))
    {
      ReversedAt(full, j);
      var t := Instant(now.month - 12 + j, 1, now.timeOfDay);
      var u := Instant(now.month - 11 + j, 1, now.timeOfDay);
      assert ws[j].start == t;
      assert ws[j].end == ws[j + 1].start == u;
      assert MonthsBefore(FirstOfMonth(now), 12 - j) == t;
      assert MonthsBefore(FirstOfMonth(now), 11 - j) == u;
    }
  }

  /** The thirteen window labels, for the NAT and the DTO collectors alike, are strictly
      ascending, hence distinct: no two windows share a month key. */
  lemma WindowLabelsAscending(now: Instant, i: nat, j: nat)
    requires SupportedNow(now) && i < j < 13
    ensures LexLess(MonthLabel(MonthlyRanges(now, 12)[i].start.month), MonthLabel(MonthlyRanges(now, 12)[j].start.month))
  {
    var ws := MonthlyRanges(now, 12);
    assert ws[i].start.month == now.month - 12 + i;
    assert ws[j].start.month == now.month - 12 + j;
    MonthLabelOrder(now.month - 12 + i, now.month - 12 + j);
  }
}
