/** The submission-window oracle: whether a quarterly breakdown, or a
    quarterly performance report for a given quarter, may be submitted at a
    given instant. An administrator's SubmissionWindow row decides first; the
    built-in calendar windows apply when no row decides. */
module Windows {
  import opened Wrappers
  import opened Calendar
  import opened Seqs

  datatype WindowKind = BreakdownWindow | PerformanceQ1 | PerformanceQ2 | PerformanceQ3 | PerformanceQ4

  /** One SubmissionWindow row; `year == None` means "all years". */
  datatype SubmissionWindow = SubmissionWindow(
    kind: WindowKind,
    year: Option<int>,
    alwaysOpen: bool,
    start: Option<Instant>,
    end: Option<Instant>,
    active: bool)

  /** The row passes `filter(window_type=kind, active=True, year=year)`
      (`year == None` standing for `year__isnull=True`). */
  predicate Selects(w: SubmissionWindow, kind: WindowKind, year: Option<int>) {
    w.active && w.kind == kind && w.year == year
  }

  predicate IsActive(w: SubmissionWindow) {
    w.active
  }

  /** `.first()` of the selected rows; the table is given in primary-key
      order, which is the order `.first()` uses on an unordered queryset. */
  function FirstRow(rows: seq<SubmissionWindow>, kind: WindowKind, year: Option<int>): (r: Option<SubmissionWindow>)
    ensures r.Some? ==> r.value in rows && Selects(r.value, kind, year)
    ensures r.None? <==> forall w :: w in rows ==> !Selects(w, kind, year)
  {
    if rows == [] then None
    else if Selects(rows[0], kind, year) then Some(rows[0])
    else FirstRow(rows[1..], kind, year)
  }

  /** What one row says: open, closed, or nothing (a partial configuration). */
  function Verdict(w: SubmissionWindow, d: Instant): (r: Option<bool>)
    ensures w.alwaysOpen ==> r == Some(true)
    ensures r.None? <==> !w.alwaysOpen && (w.start.None? || w.end.None?)
  {
    if w.alwaysOpen then Some(true)
    else if w.start.Some? && w.end.Some? then Some(AtOrBefore(w.start.value, d) && Before(d, w.end.value))
    else None
  }

  /** A row with both bounds and not always open is a half-open interval:
      open at its start (when that precedes its end), closed at its end. */
  lemma BoundedRowIsHalfOpen(w: SubmissionWindow)
    requires !w.alwaysOpen && w.start.Some? && w.end.Some?
    ensures Verdict(w, w.end.value) == Some(false)
    ensures Before(w.start.value, w.end.value) ==> Verdict(w, w.start.value) == Some(true)
  {
    OrderIsStrictTotal(w.start.value, w.end.value, w.end.value);
  }

  /** `_check_submission_window`: the year-specific row if any, else the
      all-years row; `None` when no row decides. */
  function CheckSubmissionWindow(rows: seq<SubmissionWindow>, kind: WindowKind, d: Instant, year: int): (r: Option<bool>)
    ensures r.Some? ==> exists w :: w in rows && w.active && w.kind == kind && (w.year == Some(year) || w.year == None)
  {
    var win := match FirstRow(rows, kind, Some(year))
               case Some(w) => Some(w)
               case None => FirstRow(rows, kind, None);
    match win
    case None => None
    case Some(w) => Verdict(w, d)
  }

  /** The first active year-specific row is the one that decides. */
  lemma {:induction false} FirstRowIsFirstSelected(rows: seq<SubmissionWindow>, kind: WindowKind, year: Option<int>, i: nat)
    requires i < |rows| && Selects(rows[i], kind, year)
    requires forall j :: 0 <= j < i ==> !Selects(rows[j], kind, year)
    ensures FirstRow(rows, kind, year) == Some(rows[i])
  {
    if i > 0 {
      FirstRowIsFirstSelected(rows[1..], kind, year, i - 1);
    }
  }

  /** A year-specific row takes precedence over every all-years row. */
  lemma YearRowDecides(rows: seq<SubmissionWindow>, kind: WindowKind, d: Instant, year: int, i: nat)
    requires i < |rows| && Selects(rows[i], kind, Some(year))
    requires forall j :: 0 <= j < i ==> !Selects(rows[j], kind, Some(year))
    ensures CheckSubmissionWindow(rows, kind, d, year) == Verdict(rows[i], d)
  {
    FirstRowIsFirstSelected(rows, kind, Some(year), i);
  }

  /** Without an active year-specific row the first active all-years row decides. */
  lemma AllYearsRowDecides(rows: seq<SubmissionWindow>, kind: WindowKind, d: Instant, year: int, i: nat)
    requires forall j :: 0 <= j < |rows| ==> !Selects(rows[j], kind, Some(year))
    requires i < |rows| && Selects(rows[i], kind, None)
    requires forall j :: 0 <= j < i ==> !Selects(rows[j], kind, None)
    ensures CheckSubmissionWindow(rows, kind, d, year) == Verdict(rows[i], d)
  {
    FirstRowIsFirstSelected(rows, kind, None, i);
  }

  /** A partially configured year-specific row decides nothing, and the
      all-years row is then not consulted, even one that is always open. */
  lemma PartialYearRowShadowsAllYears(rows: seq<SubmissionWindow>, kind: WindowKind, d: Instant, year: int, i: nat, k: nat)
    requires i < |rows| && Selects(rows[i], kind, Some(year))
    requires forall j :: 0 <= j < i ==> !Selects(rows[j], kind, Some(year))
    requires !rows[i].alwaysOpen && (rows[i].start.None? || rows[i].end.None?)
    requires k < |rows| && Selects(rows[k], kind, None) && rows[k].alwaysOpen
    ensures CheckSubmissionWindow(rows, kind, d, year) == None
  {
    YearRowDecides(rows, kind, d, year, i);
  }

  /** Inactive rows count as absent: dropping them changes no answer. */
  lemma {:induction false} InactiveRowsIgnored(rows: seq<SubmissionWindow>, kind: WindowKind, d: Instant, year: int)
    ensures CheckSubmissionWindow(rows, kind, d, year)
         == CheckSubmissionWindow(Filter(rows, IsActive), kind, d, year)
  {
    FirstRowSkipsInactive(rows, kind, Some(year));
    FirstRowSkipsInactive(rows, kind, None);
  }

  lemma {:induction false} FirstRowSkipsInactive(rows: seq<SubmissionWindow>, kind: WindowKind, year: Option<int>)
    ensures FirstRow(rows, kind, year) == FirstRow(Filter(rows, IsActive), kind, year)
  {
    if rows != [] {
      FirstRowSkipsInactive(rows[1..], kind, year);
      if IsActive(rows[0]) {
        assert Filter(rows, IsActive)[1..] == Filter(rows[1..], IsActive);
      }
    }
  }

  /** `within_annual_breakdown_window`: the override for the calendar year
      of `d`, else June 22 00:00 (inclusive) to June 27 00:00 (exclusive). */
  function WithinAnnualBreakdownWindow(rows: seq<SubmissionWindow>, d: Instant): (open: bool)
    ensures CheckSubmissionWindow(rows, BreakdownWindow, d, d.year) == Some(open)
         || (CheckSubmissionWindow(rows, BreakdownWindow, d, d.year) == None
             && (open <==> d.month == 6 && 22 <= d.day <= 26))
  {
    match CheckSubmissionWindow(rows, BreakdownWindow, d, d.year)
    case Some(b) => b
    case None => AtOrBefore(Midnight(d.year, 6, 22), d) && Before(d, Midnight(d.year, 6, 27))
  }

  /** Days of grace after the end of each default quarter window. */
  const GraceDays: nat := 10

  /** The fiscal year starts in July and is named by its first calendar year. */
  function FiscalStartYear(d: Instant): (fy: int)
    ensures AtOrBefore(Midnight(fy, 7, 1), d) && Before(d, Midnight(fy + 1, 7, 1))
  {
    if d.month >= 7 then d.year else d.year - 1
  }

  /** First day of the default window of quarter `q` of fiscal year `fy`;
      a quarter other than 1, 2 or 3 gets the fourth quarter's window. */
  function QuarterStart(fy: int, q: int): Instant {
    if q == 1 then Midnight(fy, 7, 8)
    else if q == 2 then Midnight(fy, 10, 11)
    else if q == 3 then Midnight(fy + 1, 1, 9)
    else Midnight(fy + 1, 4, 9)
  }

  function QuarterEnd(fy: int, q: int): Instant {
    if q == 1 then Midnight(fy, 10, 10)
    else if q == 2 then Midnight(fy + 1, 1, 8)
    else if q == 3 then Midnight(fy + 1, 4, 8)
    else Midnight(fy + 1, 7, 7)
  }

  /** `end + timedelta(days=10)`. */
  function WindowEnd(fy: int, q: int): Instant {
    AddDays(QuarterEnd(fy, q), GraceDays)
  }

  /** The grace period ends at midnight ten days after each quarter's end;
      a quarter other than 1, 2 or 3 gets the fourth quarter's. */
  lemma WindowEndDates(fy: int)
    ensures WindowEnd(fy, 1) == Midnight(fy, 10, 20)
    ensures WindowEnd(fy, 2) == Midnight(fy + 1, 1, 18)
    ensures WindowEnd(fy, 3) == Midnight(fy + 1, 4, 18)
    ensures WindowEnd(fy, 4) == Midnight(fy + 1, 7, 17)
  {
    WindowEndOf(fy, 1);
    WindowEndOf(fy, 2);
    WindowEndOf(fy, 3);
    WindowEndOf(fy, 4);
  }

  lemma WindowEndOf(fy: int, q: int)
    requires 1 <= q <= 4
    ensures WindowEnd(fy, q) == QuarterEnd(fy, q).(day := QuarterEnd(fy, q).day + GraceDays)
  {
    var e := QuarterEnd(fy, q);
    GraceEnd(e.year, e.month, e.day);
  }

  /** Ten days after midnight of a day at least ten days before the end of
      its month is midnight of the same month, ten days on. */
  lemma GraceEnd(y: int, m: int, day: int)
    requires 1 <= m <= 12 && 1 <= day && day + GraceDays <= 28
    ensures AddDays(Midnight(y, m, day), GraceDays) == Midnight(y, m, day + GraceDays)
  {
    AddDaysWithinMonth(Midnight(y, m, day), GraceDays);
  }

  /** The closed window `[start, end + 10 days]` of quarter `q` of fiscal year `fy`. */
  predicate InQuarterWindow(d: Instant, q: int, fy: int) {
    AtOrBefore(QuarterStart(fy, q), d) && AtOrBefore(d, WindowEnd(fy, q))
  }

  function QuarterKind(q: int): Option<WindowKind> {
    if q == 1 then Some(PerformanceQ1)
    else if q == 2 then Some(PerformanceQ2)
    else if q == 3 then Some(PerformanceQ3)
    else if q == 4 then Some(PerformanceQ4)
    else None
  }

  /** The override for a performance quarter, looked up for the calendar year
      of `d`; a quarter outside 1..4 has no window kind and no override. */
  function QuarterOverride(rows: seq<SubmissionWindow>, d: Instant, q: int): (r: Option<bool>)
    ensures (q < 1 || q > 4) ==> r == None
  {
    match QuarterKind(q)
    case None => None
    case Some(kind) => CheckSubmissionWindow(rows, kind, d, d.year)
  }

  // Calendar descriptions of the default windows, independent of the
  // fiscal-year arithmetic above.

  /** `d` falls on or after day `day` of month `m` of its own year. */
  predicate FromDay(d: Instant, m: int, day: int) {
    d.month > m || (d.month == m && d.day >= day)
  }

  /** `d` is no later than midnight starting day `day` of month `m` of its own year. */
  predicate ToMidnight(d: Instant, m: int, day: int) {
    d.month < m || (d.month == m && (d.day < day || (d.day == day && d.micro == 0)))
  }

  /** The default quarter window exactly as `within_quarter_submission_window`
      computes it, anchored on the fiscal year of `d`. */
  predicate DefaultQuarterOpenAsWritten(d: Instant, q: int) {
    InQuarterWindow(d, q, FiscalStartYear(d))
  }

  /** On the calendar, the as-written default windows are open on: Q1 Jul 8
      to Oct 20 00:00, Q2 Oct 11 to Jan 18 00:00, Q3 Jan 9 to Apr 18 00:00,
      but Q4 only Apr 9 to the end of June: the fiscal year of a July date
      is the next one, so Q4's July days, grace included, are never open. */
  lemma QuarterWindowsAsWritten(d: Instant)
    ensures DefaultQuarterOpenAsWritten(d, 1) <==> FromDay(d, 7, 8) && ToMidnight(d, 10, 20)
    ensures DefaultQuarterOpenAsWritten(d, 2) <==> FromDay(d, 10, 11) || ToMidnight(d, 1, 18)
    ensures DefaultQuarterOpenAsWritten(d, 3) <==> FromDay(d, 1, 9) && ToMidnight(d, 4, 18)
    ensures DefaultQuarterOpenAsWritten(d, 4) <==> FromDay(d, 4, 9) && d.month <= 6
  {
    AsWrittenFirstHalf(d);
    AsWrittenSecondHalf(d);
  }

  lemma AsWrittenFirstHalf(d: Instant)
    ensures DefaultQuarterOpenAsWritten(d, 1) <==> FromDay(d, 7, 8) && ToMidnight(d, 10, 20)
    ensures DefaultQuarterOpenAsWritten(d, 2) <==> FromDay(d, 10, 11) || ToMidnight(d, 1, 18)
  {
    var fy := FiscalStartYear(d);
    WindowEndOf(fy, 1);
    WindowEndOf(fy, 2);
  }

  lemma AsWrittenSecondHalf(d: Instant)
    ensures DefaultQuarterOpenAsWritten(d, 3) <==> FromDay(d, 1, 9) && ToMidnight(d, 4, 18)
    ensures DefaultQuarterOpenAsWritten(d, 4) <==> FromDay(d, 4, 9) && d.month <= 6
  {
    var fy := FiscalStartYear(d);
    WindowEndOf(fy, 3);
    WindowEndOf(fy, 4);
  }

  /** As written, no instant in July is inside the default Q4 window. */
  lemma Q4ClosedInJulyAsWritten(d: Instant)
    requires d.month == 7
    ensures !DefaultQuarterOpenAsWritten(d, 4)
  {
    QuarterWindowsAsWritten(d);
  }

  /** The default window as intended: `d` is inside the window of its own
      fiscal year or of the one before, so a window that runs past June 30
      (Q4 and its grace) is reached from the July that follows. */
  predicate DefaultQuarterOpen(d: Instant, q: int) {
    InQuarterWindow(d, q, FiscalStartYear(d)) || InQuarterWindow(d, q, FiscalStartYear(d) - 1)
  }

  /** The intended windows: Q1 to Q3 as written, Q4 from Apr 9 to Jul 17 00:00. */
  lemma QuarterWindowsIntended(d: Instant)
    ensures forall q :: 1 <= q <= 3 ==> (DefaultQuarterOpen(d, q) <==> DefaultQuarterOpenAsWritten(d, q))
    ensures DefaultQuarterOpen(d, 4) <==> FromDay(d, 4, 9) && ToMidnight(d, 7, 17)
  {
    forall q | 1 <= q <= 3
      ensures DefaultQuarterOpen(d, q) <==> DefaultQuarterOpenAsWritten(d, q)
    {
      PreviousYearClosed(d, q);
    }
    Q4Intended(d);
  }

  /** Quarters 1 to 3 of the previous fiscal year have closed by April 18. */
  lemma PreviousYearClosed(d: Instant, q: int)
    requires 1 <= q <= 3
    ensures !InQuarterWindow(d, q, FiscalStartYear(d) - 1)
  {
    var fy := FiscalStartYear(d) - 1;
    WindowEndDates(fy);
    if q == 1 {
      assert WindowEnd(fy, 1) == Midnight(fy, 10, 20);
    } else if q == 2 {
      assert WindowEnd(fy, 2) == Midnight(fy + 1, 1, 18);
    } else {
      assert WindowEnd(fy, 3) == Midnight(fy + 1, 4, 18);
    }
  }

  lemma Q4Intended(d: Instant)
    ensures DefaultQuarterOpen(d, 4) <==> FromDay(d, 4, 9) && ToMidnight(d, 7, 17)
  {
    var fy := FiscalStartYear(d);
    WindowEndOf(fy, 4);
    WindowEndOf(fy - 1, 4);
  }

  /** 5 July 2025: inside Q4 (Apr 9 to Jul 7) yet refused as written. */
  lemma Q4GraceCounterexample()
    ensures !DefaultQuarterOpenAsWritten(Midnight(2025, 7, 5), 4)
    ensures DefaultQuarterOpen(Midnight(2025, 7, 5), 4)
  {
    QuarterWindowsAsWritten(Midnight(2025, 7, 5));
    QuarterWindowsIntended(Midnight(2025, 7, 5));
  }

  /** `within_quarter_submission_window` as written. */
  function WithinQuarterWindowAsWritten(rows: seq<SubmissionWindow>, d: Instant, q: int): (open: bool)
    ensures QuarterOverride(rows, d, q) == Some(open)
         || (QuarterOverride(rows, d, q) == None && open == DefaultQuarterOpenAsWritten(d, q))
  {
    match QuarterOverride(rows, d, q)
    case Some(b) => b
    case None => DefaultQuarterOpenAsWritten(d, q)
  }

  /** `within_quarter_submission_window` with the intended Q4 window. */
  function WithinQuarterWindow(rows: seq<SubmissionWindow>, d: Instant, q: int): (open: bool)
    ensures QuarterOverride(rows, d, q) == Some(open)
         || (QuarterOverride(rows, d, q) == None && open == DefaultQuarterOpen(d, q))
  {
    match QuarterOverride(rows, d, q)
    case Some(b) => b
    case None => DefaultQuarterOpen(d, q)
  }

  /** A quarter outside 1..4 ignores every override row and gets the Q4 window. */
  lemma QuarterOutOfRangeAsWritten(rows: seq<SubmissionWindow>, d: Instant, q: int)
    requires q < 1 || q > 4
    ensures WithinQuarterWindowAsWritten(rows, d, q) == DefaultQuarterOpenAsWritten(d, 4)
  {
    assert DefaultQuarterOpenAsWritten(d, q) == DefaultQuarterOpenAsWritten(d, 4) by {
      SameWindowAsFourth(d, FiscalStartYear(d), q);
    }
    assert QuarterOverride(rows, d, q) == None;
  }

  /** The same holds of the corrected window. */
  lemma QuarterOutOfRange(rows: seq<SubmissionWindow>, d: Instant, q: int)
    requires q < 1 || q > 4
    ensures WithinQuarterWindow(rows, d, q) == DefaultQuarterOpen(d, 4)
  {
    DefaultOutOfRange(d, q);
    assert QuarterOverride(rows, d, q) == None;
  }

  lemma DefaultOutOfRange(d: Instant, q: int)
    requires q < 1 || q > 4
    ensures DefaultQuarterOpen(d, q) == DefaultQuarterOpen(d, 4)
  {
    var fy := FiscalStartYear(d);
    var here, before := InQuarterWindow(d, q, fy), InQuarterWindow(d, q, fy - 1);
    SameWindowAsFourth(d, fy, q);
    SameWindowAsFourth(d, fy - 1, q);
    assert DefaultQuarterOpen(d, q) == (here || before);
  }

  lemma SameWindowAsFourth(d: Instant, fy: int, q: int)
    requires q < 1 || q > 4
    ensures InQuarterWindow(d, q, fy) == InQuarterWindow(d, 4, fy)
  {
    assert QuarterStart(fy, q) == QuarterStart(fy, 4);
    assert QuarterEnd(fy, q) == QuarterEnd(fy, 4);
  }

  /** The corrected window differs from the one written in exactly one
      case: no override applies, the quarter is the fourth (or out of
      range, which behaves as the fourth), and `d` falls between 1 July and
      midnight starting 17 July, the last days of Q4 and its grace. */
  lemma CorrectionOnlyAffectsQ4July(rows: seq<SubmissionWindow>, d: Instant, q: int)
    ensures WithinQuarterWindow(rows, d, q) != WithinQuarterWindowAsWritten(rows, d, q)
        <==> QuarterOverride(rows, d, q) == None && (q < 1 || q > 3) && d.month == 7 && ToMidnight(d, 7, 17)
  {
    QuarterWindowsAsWritten(d);
    QuarterWindowsIntended(d);
    if q < 1 || q > 4 {
      QuarterOutOfRangeAsWritten(rows, d, q);
      QuarterOutOfRange(rows, d, q);
    }
  }
}
