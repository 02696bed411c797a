# Planning system: submission windows, approval workflow, visibility

A Dafny model of the core of the Ministry of Agriculture planning system.
Each department splits an annual plan's target over four quarters (a
*quarterly breakdown*). Later it reports each quarter's result (a
*quarterly performance*). Both records pass through the same review chain:
the Lead Executive Body submits, the State Minister approves, Strategic
Affairs Staff validate, and the Executive Officer gives final approval.
Any reviewer may reject, and Advisors may add notes.

The model covers three parts:

- **Submission windows** (`windows.dfy`). The oracle decides whether a
  breakdown or a quarter's report may be submitted at an instant. An
  administrator's `SubmissionWindow` rows override it: the first active row
  for the year wins, else the first active row for all years. Without an override,
  the fixed defaults apply: 22–26 June for breakdowns, and for each fiscal
  quarter its span plus 10 days of grace.
- **Approval workflow** (`approval.dfy`, `breakdowns.dfy`,
  `performances.dfy`). `QuarterlyBreakdown` and `QuarterlyPerformance` are
  classes whose methods are the viewsets' actions. Each method runs the
  view's checks in the view's order. It returns `Done` or the first refusal,
  and its contract states the whole new approval trail: status, who acted
  and when, and the review comment. The contract ties each method to a
  decision function. Each decision function states, as an if-and-only-if,
  when the action is accepted. `approval.dfy` also holds the transition
  table and lemmas about runs of it.
- **Visibility** (`plan_visibility.dfy`, `indicator_views.dfy`). Each
  viewset's `get_queryset` is a filter over the rows in queryset order. Its
  contract gives exact membership. Lemmas show that the chained query and
  role filters amount to one filter by their intersection, and relate the
  scopes of different roles and viewsets.

`calendar.dfy` gives instants as calendar dates with microseconds, and
`text.dfy` gives Python's `str.strip`. `scenarios.dfy` takes one
department's plan through the whole cycle.

Decimal amounts (two decimal places) are integers counting hundredths, so
`quantize(Decimal('0.01'))` is the identity. `PlanStatus` and
`PerformanceStatus` have the same members and are one `Domain.Status`. A
user is a `Domain.Principal`: id, role, superuser flag, optional department
and optional sector. Ids are positive, so "has a department" in the
source's truthiness test is `department.Some?`. The clock (`timezone.now()`)
and the database are parameters: the instant `now`, the window rows, the
plans and the breakdown of the plan.

Where the system's design documentation and the code disagree, the model
follows the code:

- The code re-checks no window on create or update.
- The code gives no reviewer the right to edit a submitted report.
- The breakdown window is keyed by the year of the submission instant, not
  by the plan's year.
- The docstring of `within_annual_breakdown_window` describes a default
  window of 15 days from 1 January, and the refusal message of the breakdown
  `submit` action says "15 days from Jan 1"; the code's default window is
  22–26 June.

## Model

| member | source | states |
|---|---|---|
| Calendar.AddDays | backend/moa_agriplan_system/plans/models.py:195 | adding n days keeps the time of day and moves strictly later when n > 0 |
| Calendar.AddDaysWithinMonth | backend/moa_agriplan_system/plans/models.py:195 | adding days that stay inside the month only advances the day of the month |
| Calendar.NextDay | backend/moa_agriplan_system/plans/models.py:195 | the next day is strictly later, keeps the time of day, and its ordinal is one more |
| Calendar.AddDaysCounts | backend/moa_agriplan_system/plans/models.py:195 | adding n days increases the day ordinal (1 January of year 1 is day 1) by exactly n |
| Calendar.DayNumberOrdersDays | backend/moa_agriplan_system/plans/models.py:195 | the ordinal follows calendar order, so distinct days have distinct ordinals |
| Calendar.AddDaysIsUnique | backend/moa_agriplan_system/plans/models.py:195 | the result is the only instant with the same time of day whose ordinal is n more, i.e. `timedelta(days=n)` arithmetic |
| Text.Strip | backend/moa_agriplan_system/plans/views.py:246 | the result is the slice left after removing the longest all-whitespace prefix and, from the rest, the longest all-whitespace suffix; its ends are non-whitespace, and it is empty exactly when the input is all whitespace |
| Windows.FirstRow | backend/moa_agriplan_system/plans/models.py:130-131 | `.first()` returns a selected row of the input, and none exactly when no row is selected |
| Windows.Verdict | backend/moa_agriplan_system/plans/models.py:132-138 | an always-open row says open; a row says nothing exactly when it is neither always open nor has both bounds |
| Windows.BoundedRowIsHalfOpen | backend/moa_agriplan_system/plans/models.py:135-136 | a bounded row is closed at its end and open at its start when the start precedes the end |
| Windows.FirstRowIsFirstSelected | backend/moa_agriplan_system/plans/models.py:131 | the row returned is the earliest selected one in primary-key order |
| Windows.FirstRowSkipsInactive | backend/moa_agriplan_system/plans/models.py:130 | inactive rows never influence which row is found |
| Windows.CheckSubmissionWindow | backend/moa_agriplan_system/plans/models.py:128-138 | an override verdict only exists when an active row of that kind exists for the year or for all years |
| Windows.YearRowDecides | backend/moa_agriplan_system/plans/models.py:131-136 | the first active row for the year decides the override |
| Windows.AllYearsRowDecides | backend/moa_agriplan_system/plans/models.py:131-136 | with no row for the year, the first all-years row decides |
| Windows.PartialYearRowShadowsAllYears | backend/moa_agriplan_system/plans/models.py:131-138 | a year row with neither always-open nor both bounds gives no override, even when an always-open all-years row exists |
| Windows.InactiveRowsIgnored | backend/moa_agriplan_system/plans/models.py:130 | the verdict is the same after dropping all inactive rows |
| Windows.WithinAnnualBreakdownWindow | backend/moa_agriplan_system/plans/models.py:141-160 | the override decides when it gives a verdict; otherwise the window is open exactly from 22 to 26 June of the instant's year |
| Windows.QuarterOverride | backend/moa_agriplan_system/plans/models.py:163-177 | a quarter outside 1..4 never consults the override rows |
| Windows.FiscalStartYear | backend/moa_agriplan_system/plans/models.py:182 | the instant lies in the fiscal year running from 1 July of the returned year to 1 July of the next |
| Windows.WindowEndDates | backend/moa_agriplan_system/plans/models.py:183-195 | the grace ends fall at midnight of 20 October, 18 January, 18 April and 17 July |
| Windows.QuarterWindowsAsWritten | backend/moa_agriplan_system/plans/models.py:178-196 | the default windows as coded, by calendar date: Q1 8 Jul–20 Oct, Q2 from 11 Oct or up to 18 Jan, Q3 9 Jan–18 Apr, Q4 from 9 Apr until the end of June |
| Windows.Q4ClosedInJulyAsWritten | backend/moa_agriplan_system/plans/models.py:182-196 | the default fourth-quarter window as coded is closed on every July day |
| Windows.WithinQuarterWindowAsWritten | backend/moa_agriplan_system/plans/models.py:163-196 | the override decides when it gives a verdict, else the default windows as coded |
| Windows.QuarterWindowsIntended | backend/moa_agriplan_system/plans/models.py:178-196 | the corrected windows agree with the coded ones for Q1–Q3; Q4 runs from 9 April to midnight of 17 July |
| Windows.Q4GraceCounterexample | backend/moa_agriplan_system/plans/models.py:182-196 | 5 July 2025, inside Q4 proper (9 April to 7 July), is refused as coded and accepted as corrected |
| Windows.WithinQuarterWindow | backend/moa_agriplan_system/plans/models.py:163-196 | the override decides when it gives a verdict, else the corrected default windows |
| Windows.QuarterOutOfRangeAsWritten | backend/moa_agriplan_system/plans/models.py:171-194 | as coded, a quarter outside 1..4 gets no override and falls through to the fourth quarter's default window |
| Windows.QuarterOutOfRange | backend/moa_agriplan_system/plans/models.py:171-194 | with the corrected window too, a quarter outside 1..4 gets no override and falls through to the fourth quarter's default window |
| Windows.CorrectionOnlyAffectsQ4July | backend/moa_agriplan_system/plans/models.py:163-196 | the corrected and the coded window disagree exactly when no override applies, the quarter is the fourth (or out of range), and the instant is between 1 July and midnight starting 17 July |
| Approval.FinalApprovedIsTerminal | backend/moa_agriplan_system/plans/views.py:168-256 | through the six workflow actions, and updates that leave the status alone, FINAL_APPROVED is never left |
| Approval.FinalApprovalNeeded | backend/moa_agriplan_system/plans/views.py:168-256 | through the six workflow actions, and updates that leave the status alone, FINAL_APPROVED is reached only by a final approval |
| Approval.UpdateBypassesReview | backend/moa_agriplan_system/plans/views.py:158-166 | as coded, one update takes a DRAFT breakdown to FINAL_APPROVED and another takes it back to DRAFT |
| Approval.SubmitBreakdownDecision | backend/moa_agriplan_system/plans/views.py:168-197 | submission is accepted iff the record is visible, the role is Lead Executive Body, the window is open, the status is DRAFT or REJECTED, and the total equals the target; 404 first, then 403 |
| Approval.SubmitPerformanceDecision | backend/moa_agriplan_system/plans/views.py:384-411 | submission is accepted iff visible, Lead Executive Body, DRAFT or REJECTED, window open, and the plan's breakdown is approved or beyond; 404 first, then 403 |
| Approval.SubmitCheckOrderDiffers | backend/moa_agriplan_system/plans/views.py:177-181 | breakdowns check the window before the status and reports the status before the window |
| Approval.AdvanceDecision | backend/moa_agriplan_system/plans/views.py:199-237 | approve, validate and final approval are accepted iff the record is visible, the actor has the step's role, and the status is the step's source state |
| Approval.RejectDecision | backend/moa_agriplan_system/plans/views.py:239-256 | rejection is accepted iff visible, a reviewer role, a non-blank note from Strategic Affairs Staff, and the status is under review |
| Approval.BlankStaffNoteCheckedFirst | backend/moa_agriplan_system/plans/views.py:246-250 | a blank note from Strategic Affairs Staff is refused as CommentRequired whatever the status |
| Approval.AdvisorReviewDecision | backend/moa_agriplan_system/plans/views.py:258-272 | an advisor note is accepted iff the record is visible, the role is Advisor and the note is not blank, whatever the status |
| Approval.AppendAdvisorNote | backend/moa_agriplan_system/plans/views.py:274-279 | the existing comment is kept as a prefix, followed by a newline when non-empty and "Advisor: " with the stripped note |
| Breakdowns.QuarterlyBreakdown.constructor | backend/moa_agriplan_system/plans/models.py:35-50 | a new breakdown holds the given quarters, is DRAFT and has an empty trail |
| Breakdowns.QuarterlyBreakdown.Submit | backend/moa_agriplan_system/plans/views.py:168-197 | the outcome is the submit decision; on success the breakdown is clean, SUBMITTED and records the submitter and instant, otherwise nothing changes; a successful step moves the status to the transition table's target for the action |
| Breakdowns.QuarterlyBreakdown.Approve | backend/moa_agriplan_system/plans/views.py:199-211 | on success APPROVED with reviewer, instant and comment set, otherwise nothing changes; a successful step moves the status to the transition table's target for the action |
| Breakdowns.QuarterlyBreakdown.Validate | backend/moa_agriplan_system/plans/views.py:213-224 | on success VALIDATED with validator and instant set, otherwise nothing changes; a successful step moves the status to the transition table's target for the action |
| Breakdowns.QuarterlyBreakdown.FinalApprove | backend/moa_agriplan_system/plans/views.py:226-237 | on success FINAL_APPROVED with officer and instant set, otherwise nothing changes; a successful step moves the status to the transition table's target for the action |
| Breakdowns.QuarterlyBreakdown.Reject | backend/moa_agriplan_system/plans/views.py:239-256 | on success REJECTED, with the stripped note as review comment and the reviewer and instant set, otherwise nothing changes; a successful step moves the status to the transition table's target for the action |
| Breakdowns.QuarterlyBreakdown.AdvisorReview | backend/moa_agriplan_system/plans/views.py:258-281 | on success only the review comment changes, by the appended advisor note; the status never changes |
| Breakdowns.QuarterlyBreakdown.UpdateGuard | backend/moa_agriplan_system/plans/views.py:158-166 | an update passes iff the role is Lead Executive Body and the plan is in the user's department, whatever the status |
| Breakdowns.QuarterlyBreakdown.Update | backend/moa_agriplan_system/plans/views.py:158-166 | after the guard passes, every field the payload carries is written, the status included, whatever it was, and a review comment is stored with surrounding whitespace trimmed; when refused nothing changes |
| Breakdowns.QuarterlyBreakdown.Total | backend/moa_agriplan_system/plans/models.py:57-59 | the total is the sum of the four quarters |
| Breakdowns.QuarterlyBreakdown.Clean | backend/moa_agriplan_system/plans/models.py:52-55 | a breakdown is clean exactly when its total equals the plan target |
| Breakdowns.AllowPlanEdit | backend/moa_agriplan_system/plans/views.py:132-138 | only the Lead Executive Body may create or update a breakdown |
| Breakdowns.CreateGuard | backend/moa_agriplan_system/plans/views.py:140-156 | creation passes iff Lead Executive Body and a present, non-zero plan reference names an existing plan of the user's department (a missing or zero reference skips the lookup); InvalidPlan exactly for a missing plan |
| Performances.QuarterlyPerformance.constructor | backend/moa_agriplan_system/plans/models.py:71-84 | a new report holds the given quarter and value, is DRAFT and has an empty trail |
| Performances.QuarterlyPerformance.Submit | backend/moa_agriplan_system/plans/views.py:384-411 | the outcome is the submit decision with the quarter window as coded and the breakdown's status; on success SUBMITTED with submitter and instant, otherwise nothing changes; a successful step moves the status to the transition table's target for the action |
| Performances.QuarterlyPerformance.Approve | backend/moa_agriplan_system/plans/views.py:413-425 | on success APPROVED with reviewer, instant and comment set, otherwise nothing changes; a successful step moves the status to the transition table's target for the action |
| Performances.QuarterlyPerformance.Validate | backend/moa_agriplan_system/plans/views.py:427-438 | on success VALIDATED with validator and instant set, otherwise nothing changes; a successful step moves the status to the transition table's target for the action |
| Performances.QuarterlyPerformance.FinalApprove | backend/moa_agriplan_system/plans/views.py:440-451 | on success FINAL_APPROVED with officer and instant set, otherwise nothing changes; a successful step moves the status to the transition table's target for the action |
| Performances.QuarterlyPerformance.Reject | backend/moa_agriplan_system/plans/views.py:453-470 | on success REJECTED with the stripped note, reviewer and instant set, otherwise nothing changes; a successful step moves the status to the transition table's target for the action |
| Performances.QuarterlyPerformance.UpdateGuard | backend/moa_agriplan_system/plans/views.py:347-382 | an update passes iff the report is DRAFT or REJECTED and the edit rule holds on the status of the plan's own breakdown; InvalidTransition exactly for a visible report under review or approved |
| Performances.QuarterlyPerformance.Update | backend/moa_agriplan_system/plans/views.py:374-382 | after the guard passes, the value and status sent are written and the review comment sent is stored with surrounding whitespace trimmed, so a DRAFT report can be given any status; when refused nothing changes |
| Performances.AllowPerfEdit | backend/moa_agriplan_system/plans/views.py:347-362 | editing needs the plan's breakdown approved or beyond, the Lead Executive Body role, and the plan in the user's department if they have one |
| Performances.CreateGuard | backend/moa_agriplan_system/plans/views.py:347-372 | creation passes iff the plan exists and the edit rule holds for its breakdown's status; InvalidPlan exactly for a missing plan |
| PlanVisibility.VisibleBreakdowns | backend/moa_agriplan_system/plans/views.py:90-130 | a breakdown is listed iff the role filter admits its department and status |
| PlanVisibility.RecordVisible | backend/moa_agriplan_system/plans/views.py:93-130 | the role filter shared by breakdowns and reports, by the record's department and status |
| PlanVisibility.StatusMattersOnlyToMinisterView | backend/moa_agriplan_system/plans/views.py:93-130 | the read-only Minister sees a record iff it is approved or beyond; for everyone else the status never changes visibility |
| PlanVisibility.SuperuserSeesEveryBreakdown | backend/moa_agriplan_system/plans/views.py:94-95 | a superuser lists every breakdown |
| PlanVisibility.MinisterViewSeesApprovedBreakdowns | backend/moa_agriplan_system/plans/views.py:109-111 | the read-only Minister lists exactly the approved-or-beyond breakdowns, in order |
| PlanVisibility.StateMinisterDepartmentFirst | backend/moa_agriplan_system/plans/views.py:112-119 | a State Minister with a department lists only that department's breakdowns, whatever their sector |
| PlanVisibility.DepartmentScopeBounds | backend/moa_agriplan_system/plans/views.py:95-130 | any role but Advisor and read-only Minister, once tied to a department, sees only that department's records |
| PlanVisibility.VisiblePerformances | backend/moa_agriplan_system/plans/views.py:289-337 | a report is listed iff it matches the year and quarter parameters and the role filter admits it |
| PlanVisibility.PerformanceQueryAndRoleIntersect | backend/moa_agriplan_system/plans/views.py:289-337 | the chained filters equal one filter by query and role together, in queryset order |
| PlanVisibility.VisiblePlans | backend/moa_agriplan_system/plans/views.py:42-82 | an annual plan is listed iff it matches the year parameter and the role filter admits it |
| PlanVisibility.MinisterViewSeesEveryPlan | backend/moa_agriplan_system/plans/views.py:66-68 | the read-only Minister lists every plan of the requested year |
| PlanVisibility.StateMinisterPlansWiderThanBreakdowns | backend/moa_agriplan_system/plans/views.py:69-72 | a State Minister with a department and a sector sees the sector's plans but only the department's breakdowns |
| IndicatorViews.SuperuserWritePermission | backend/moa_agriplan_system/indicators/views.py:6-11 | safe methods need a signed-in user; any other method needs a signed-in superuser |
| IndicatorViews.VisibleSectors | backend/moa_agriplan_system/indicators/views.py:13-38 | a sector is listed iff the role filter admits it |
| IndicatorViews.VisibleDepartments | backend/moa_agriplan_system/indicators/views.py:40-66 | a department is listed iff it matches the sector parameter and the role filter admits it |
| IndicatorViews.DepartmentQueryAndRoleIntersect | backend/moa_agriplan_system/indicators/views.py:45-66 | the two filters equal one filter by both, in name order |
| IndicatorViews.VisibleIndicators | backend/moa_agriplan_system/indicators/views.py:68-94 | an indicator is listed iff it matches the department parameter and the role filter admits it |
| IndicatorViews.IndicatorQueryAndRoleIntersect | backend/moa_agriplan_system/indicators/views.py:73-94 | the two filters equal one filter by both, in name order |
| IndicatorViews.UnscopedSeeEverything | backend/moa_agriplan_system/indicators/views.py:13-94 | roles other than State Minister and Advisor, and those two without an assignment, list everything the parameters select |
| IndicatorViews.ScopesAreConsistent | backend/moa_agriplan_system/indicators/views.py:13-94 | without parameters, a listed indicator's department is listed and a listed department's sector is listed |
| IndicatorViews.AdvisorWithDepartmentScope | backend/moa_agriplan_system/indicators/views.py:13-94 | a non-superuser Advisor with a department lists exactly its sector, the department itself, and its indicators, in order |
| IndicatorViews.AdvisorWithSectorScope | backend/moa_agriplan_system/indicators/views.py:13-94 | a non-superuser Advisor with only a sector lists exactly that sector, its departments and their indicators, in order |
| Scenarios.OverrideOpensJune | backend/moa_agriplan_system/plans/models.py:128-160 | an always-open 2025 breakdown row opens 1 June 2025, outside the default window |
| Scenarios.FirstQuarterOpenInOctober | backend/moa_agriplan_system/plans/models.py:178-196 | with no override, 1 to 19 October are inside the first quarter's window as coded |
| Scenarios.SubmitBreakdown | backend/moa_agriplan_system/plans/views.py:168-197 | a breakdown short by 0.01 is refused with TotalsMismatch and is submitted once corrected |
| Scenarios.ReportWaitsForBreakdown | backend/moa_agriplan_system/plans/views.py:384-411 | a report is refused with ParentNotApproved while its breakdown is only submitted, and submitted once the breakdown is approved |
| Scenarios.SubmitReport | backend/moa_agriplan_system/plans/views.py:384-411 | a visible DRAFT first-quarter report inside its window is submitted iff the breakdown is approved or beyond, else refused with ParentNotApproved |
| Scenarios.UpdateSkipsReview | backend/moa_agriplan_system/plans/views.py:158-166 | a Lead Executive Body update sets a new breakdown to FINAL_APPROVED and then back to DRAFT, with no review |
| Scenarios.FinishBreakdown | backend/moa_agriplan_system/plans/views.py:213-237 | validation then final approval take an approved breakdown to FINAL_APPROVED |
| Scenarios.ReviewReport | backend/moa_agriplan_system/plans/views.py:413-451 | approval, validation and final approval take a submitted report to FINAL_APPROVED |
| Scenarios.FullCycle | backend/moa_agriplan_system/plans/views.py:168-470 | a breakdown and its report both reach FINAL_APPROVED, after a short total and an unapproved breakdown were refused |

## Left out

- Serializer writes after `create` are not modelled; only its guard is. The `update` methods write the quarters or the value, the status and the review comment. The `plan` and `quarter` fields are also writable through `update`; the model keeps them fixed.
- `destroy` on breakdowns and reports has no guard in the source and is not modelled.
- Breakdowns.QuarterlyBreakdown.Update: does not model the serializer's field validation (decimal format, choices), which can still refuse a payload after the guard has passed; of the serializer's cleaning, only the trimming of the review comment is modelled.
- Performances.QuarterlyPerformance.Update: the same serializer validation is left out for reports, for the same reason.
- Time zones are not modelled: every instant is in the server's zone. Python's year range 1–9999 is not enforced.
- A JSON `null` comment on `approve` makes the save fail with a server error, since `review_comment` is a text field that does not accept null. The model's comment is always a string, and that error path is not modelled.
- Non-numeric `sector` or `department` query parameters make the database raise. The model takes these parameters as `Option<int>`.
- Query parameters on detail requests are taken to be absent, so `get_object` uses the role filter alone.
- `approve` and `reject` overwrite any advisor notes in the review comment. The model does the same and adds nothing for it.
- `_advisor_can_edit_perf` is never called in the source and is not modelled.
- The quarter window override is looked up by the instant's calendar year, not the fiscal year. The model does the same.
- The advisor comment thread, file attachments, the CRUD of window rows, the admin site and indicator groups are not modelled. They have no effect on the workflow or on visibility.
- A submit-to-strategic step, a variance-description check and an aggregation engine appear in the system's design documentation but not in the code. They are not modelled.
- `int(request.data.get('plan'))` failing on a non-number is modelled as a missing reference (`None`). A non-numeric plan id on performance create makes the lookup raise instead; that path is not modelled.

## Findings

The classes follow the code as written; each corrected definition is proved
alongside and related to the coded one.

| source | as written | input that shows it | evidently intended | confidence | as-written member | corrected member |
|---|---|---|---|---|---|---|
| backend/moa_agriplan_system/plans/models.py:182-196 | the fiscal year is anchored on the submission date (July or later gives this year), so for any July date the fourth-quarter window (9 April to 7 July, plus 10 days of grace to 17 July) lies in the next calendar year: its last days, 1 to 7 July of Q4 proper and the grace days 8 to 17 July, are never open | quarter 4 submitted at 2025-07-05 00:00 with no override rows: refused | the fourth quarter of the fiscal year that just ended stays open until midnight starting 17 July; `Windows.CorrectionOnlyAffectsQ4July` shows nothing else changes | not executed | Windows.Q4GraceCounterexample | Windows.QuarterWindowsIntended |
| backend/moa_agriplan_system/plans/serializers.py:23-36 | `update` on a breakdown checks the role and department but not the status, and the serializer leaves `status` writable, so one request can set any status; the report serializer (lines 44-55) does the same for DRAFT and REJECTED reports | a Lead Executive Body member sends `PATCH {"status": "FINAL_APPROVED"}` for a DRAFT breakdown of their department: it becomes FINAL_APPROVED with no review, and a second PATCH with `"DRAFT"` reopens it | the status changes only through the workflow actions, as the fields recording who took each step are read-only | not executed | Approval.UpdateBypassesReview | Approval.FinalApprovedIsTerminal |
