/** The workflow end to end: a department's breakdown of a 1000.00 target
    goes through the four review steps, and its first-quarter report
    follows once the breakdown is approved. */
module Scenarios {
  import opened Wrappers
  import opened Calendar
  import opened Domain
  import opened Windows
  import opened Approval
  import opened Breakdowns
  import opened Performances

  /** An always-open breakdown window for 2025 opens June, whose default
      window (22 to 26 June) is closed on the 1st. */
  lemma OverrideOpensJune()
    ensures WithinAnnualBreakdownWindow([SubmissionWindow(BreakdownWindow, Some(2025), true, None, None, true)],
                                        Midnight(2025, 6, 1))
  {
    var rows := [SubmissionWindow(BreakdownWindow, Some(2025), true, None, None, true)];
    YearRowDecides(rows, BreakdownWindow, Midnight(2025, 6, 1), 2025, 0);
  }

  /** With no override, the first days of October, up to the 19th, are
      inside the first quarter's window (8 July to 20 October). */
  lemma FirstQuarterOpenInOctober(d: Instant)
    requires d.month == 10 && d.day <= 19
    ensures WithinQuarterWindowAsWritten([], d, 1)
  {
    QuarterWindowsAsWritten(d);
  }

  /** The cycle the system is built for, for a 1000.00 target of the crops
      department (id 7, sector 3). The breakdown goes in through an
      always-open override for 2025 after one refusal; the report is
      refused while the breakdown is only submitted, then accepted. */
  method FullCycle() returns (breakdown: Status, report: Status)
    ensures breakdown == FinalApproved && report == FinalApproved
  {
    var crops := Department(7, 3);
    var plan := Plan(1, 2025, Indicator(11, crops), 100000);
    var lead := Principal(21, LeadExecutiveBody, false, Some(crops), Some(3));
    var minister := Principal(22, StateMinister, false, None, Some(3));
    var staff := Principal(23, StrategicStaff, false, Some(crops), None);
    var officer := Principal(24, Executive, false, None, None);
    var june := Midnight(2025, 6, 1);
    var october := Midnight(2025, 10, 5);

    var bd := SubmitBreakdown(plan, lead, june);
    var perf := new QuarterlyPerformance(plan, 1, 23000);
    ReportWaitsForBreakdown(bd, perf, lead, minister, june, october);
    FinishBreakdown(bd, staff, officer, june);
    ReviewReport(perf, minister, staff, officer, october);
    breakdown, report := bd.status, perf.status;
  }

  /** A new breakdown whose last quarter is short by 0.01 is refused with
      TotalsMismatch; once corrected, it is submitted. */
  method SubmitBreakdown(plan: Plan, lead: Principal, june: Instant) returns (bd: QuarterlyBreakdown)
    requires plan.target == 100000 && june == Midnight(2025, 6, 1)
    requires lead.role == LeadExecutiveBody && !lead.isSuperuser && DepartmentMatches(lead, PlanDepartment(plan))
    ensures fresh(bd) && bd.plan == plan && bd.status == Submitted
  {
    var open := [SubmissionWindow(BreakdownWindow, Some(2025), true, None, None, true)];
    OverrideOpensJune();
    bd := new QuarterlyBreakdown(plan, 25000, 25000, 25000, 24999);
    var r := bd.Submit(lead, june, open);
    assert r == Refused(TotalsMismatch);
    r := bd.Update(lead, BreakdownEdit(None, None, None, Some(25000), None, None));
    assert r == Done;
    r := bd.Submit(lead, june, open);
    assert r == Done;
  }

  /** A report of the first quarter, on 5 October 2025, is refused while
      the breakdown is only submitted, and accepted once the State
      Minister has approved it. */
  method ReportWaitsForBreakdown(bd: QuarterlyBreakdown, perf: QuarterlyPerformance, lead: Principal, minister: Principal,
                                 june: Instant, october: Instant)
    requires bd.status == Submitted && perf.status == Draft && perf.quarter == 1 && bd.plan == perf.plan
    requires october.month == 10 && october.day <= 19
    requires lead.role == LeadExecutiveBody && !lead.isSuperuser && perf.Visible(lead)
    requires minister.role == StateMinister && bd.Visible(minister)
    modifies bd, perf
    ensures bd.status == Approved && perf.status == Submitted
  {
    FirstQuarterOpenInOctober(october);
    SubmitReport(bd, perf, lead, october, Refused(ParentNotApproved));
    var r := bd.Approve(minister, june, "");
    assert r == Done;
    SubmitReport(bd, perf, lead, october, Done);
  }

  /** A first-quarter report of a visible DRAFT, submitted inside its
      window, is refused while the breakdown is short of approval and
      accepted once it is approved. */
  method SubmitReport(bd: QuarterlyBreakdown, perf: QuarterlyPerformance, lead: Principal, october: Instant,
                      expected: Outcome)
    requires perf.status == Draft && perf.quarter == 1 && bd.plan == perf.plan
    requires WithinQuarterWindowAsWritten([], october, 1)
    requires lead.role == LeadExecutiveBody && perf.Visible(lead)
    requires expected == if bd.status in ApprovedOrAbove then Done else Refused(ParentNotApproved)
    modifies perf
    ensures perf.status == if expected.Done? then Submitted else Draft
  {
    var r := perf.Submit(lead, october, [], bd);
    assert r == expected;
  }

  /** `update` stores the status it is sent: a Lead Executive Body member
      takes a new DRAFT breakdown straight to FINAL_APPROVED, then back to
      DRAFT, with no review step in between. */
  method UpdateSkipsReview() returns (approved: Status, reopened: Status)
    ensures approved == FinalApproved && reopened == Draft
  {
    var crops := Department(7, 3);
    var plan := Plan(1, 2025, Indicator(11, crops), 100000);
    var lead := Principal(21, LeadExecutiveBody, false, Some(crops), Some(3));
    var bd := new QuarterlyBreakdown(plan, 0, 0, 0, 0);
    var r := bd.Update(lead, BreakdownEdit(None, None, None, None, Some(FinalApproved), None));
    approved := bd.status;
    r := bd.Update(lead, BreakdownEdit(None, None, None, None, Some(Draft), None));
    reopened := bd.status;
  }

  /** The last two steps on an approved breakdown: validation, then final approval. */
  method FinishBreakdown(bd: QuarterlyBreakdown, staff: Principal, officer: Principal, now: Instant)
    requires bd.status == Approved
    requires staff.role == StrategicStaff && officer.role == Executive
    requires bd.Visible(staff) && bd.Visible(officer)
    modifies bd
    ensures bd.status == FinalApproved
  {
    var r := bd.Validate(staff, now);
    assert r == Done;
    assert bd.Visible(officer);
    r := bd.FinalApprove(officer, now);
  }

  /** The three review steps on a submitted report. */
  method ReviewReport(perf: QuarterlyPerformance, minister: Principal, staff: Principal, officer: Principal, now: Instant)
    requires perf.status == Submitted
    requires minister.role == StateMinister && staff.role == StrategicStaff && officer.role == Executive
    requires perf.Visible(minister) && perf.Visible(staff) && perf.Visible(officer)
    modifies perf
    ensures perf.status == FinalApproved
  {
    var r := perf.Approve(minister, now, "on track");
    assert r == Done;
    assert perf.Visible(staff);
    r := perf.Validate(staff, now);
    assert r == Done;
    assert perf.Visible(officer);
    r := perf.FinalApprove(officer, now);
  }
}
