/** `QuarterlyPerformance` and the actions of `QuarterlyPerformanceViewSet`.
    The review actions match the breakdown's; submission and editing also
    require the plan's breakdown to be approved by the State Minister or
    beyond. */
module Performances {
  import opened Wrappers
  import opened Calendar
  import opened Domain
  import opened Text
  import opened Windows
  import opened PlanVisibility
  import opened Approval
  import opened Breakdowns

  /** The status of the breakdown `QuarterlyBreakdown.objects.filter(plan=...).first()`
      finds, `None` when the plan has none. */
  function ParentStatus(parent: QuarterlyBreakdown?): Option<Status>
    reads parent
  {
    if parent == null then None else Some(parent.status)
  }

  /** `_allow_perf_edit`: the plan's breakdown approved or beyond, the Lead
      Executive Body role, and the plan in the user's department if they have one. */
  predicate AllowPerfEdit(u: Principal, p: Plan, parent: Option<Status>) {
    parent.Some? && parent.value in ApprovedOrAbove
    && u.role == LeadExecutiveBody
    && DepartmentMatches(u, PlanDepartment(p))
  }

  class QuarterlyPerformance {
    const plan: Plan
    const quarter: int
    var value: int  // hundredths
    var status: Status
    var submittedBy: Option<int>
    var submittedAt: Option<Instant>
    var reviewedBy: Option<int>
    var reviewedAt: Option<Instant>
    var reviewComment: string
    var validatedBy: Option<int>
    var validatedAt: Option<Instant>
    var finalApprovedBy: Option<int>
    var finalApprovedAt: Option<Instant>

    ghost function Trail(): Trail
      reads this
    {
      Approval.Trail(status, submittedBy, submittedAt, reviewedBy, reviewedAt, reviewComment,
                     validatedBy, validatedAt, finalApprovedBy, finalApprovedAt)
    }

    /** Whether `get_object()` finds this record for `u` (no query parameters). */
    predicate Visible(u: Principal)
      reads this
    {
      RecordVisible(u, PlanDepartment(plan), status)
    }

    /** A new report: the given quarter and value, status DRAFT, no steps taken. */
    constructor (plan: Plan, quarter: int, value: int)
      ensures this.plan == plan && this.quarter == quarter && this.value == value
      ensures Trail() == NewTrail
    {
      this.plan, this.quarter, this.value := plan, quarter, value;
      status := Draft;
      submittedBy, submittedAt := None, None;
      reviewedBy, reviewedAt, reviewComment := None, None, "";
      validatedBy, validatedAt := None, None;
      finalApprovedBy, finalApprovedAt := None, None;
    }

    /** `submit`: a Lead Executive Body member, on a DRAFT or REJECTED
        report, inside the window of its quarter, once the plan's breakdown
        is approved or beyond. `parent` is the plan's breakdown, if any. */
    method Submit(u: Principal, now: Instant, windows: seq<SubmissionWindow>, parent: QuarterlyBreakdown?) returns (r: Outcome)
      requires parent != null ==> parent.plan == plan
      modifies this`status, this`submittedBy, this`submittedAt
      ensures r == SubmitPerformanceDecision(old(Visible(u)), u.role, old(status),
                                             WithinQuarterWindowAsWritten(windows, now, quarter), ParentStatus(parent))
      ensures status == if r.Done? then Target(Action.Submit, old(status)) else old(status)
      ensures Trail() == if r.Done? then old(Trail()).(status := Submitted, submittedBy := Some(u.id), submittedAt := Some(now))
                         else old(Trail())
    {
      ghost var before := Trail();
      if !Visible(u) {
        return Refused(NotFound);
      }
      if u.role != LeadExecutiveBody {
        return Refused(Forbidden);
      }
      if status !in {Draft, Rejected} {
        return Refused(InvalidTransition);
      }
      if !WithinQuarterWindowAsWritten(windows, now, quarter) {
        return Refused(WindowClosed);
      }
      var parentStatus := ParentStatus(parent);
      if parentStatus.None? || parentStatus.value !in {Approved, Validated, FinalApproved} {
        return Refused(ParentNotApproved);
      }
      status := Submitted;
      submittedBy := Some(u.id);
      submittedAt := Some(now);
      assert Trail() == before.(status := Submitted, submittedBy := Some(u.id), submittedAt := Some(now));
      r := Done;
    }

    /** `approve`: the State Minister, on a SUBMITTED report. */
    method Approve(u: Principal, now: Instant, comment: string) returns (r: Outcome)
      modifies this`status, this`reviewedBy, this`reviewedAt, this`reviewComment
      ensures r == AdvanceDecision(Action.Approve, old(Visible(u)), u.role, old(status))
      ensures status == if r.Done? then Target(Action.Approve, old(status)) else old(status)
      ensures Trail() == if r.Done? then old(Trail()).(status := Approved, reviewedBy := Some(u.id),
                                                        reviewedAt := Some(now), reviewComment := comment)
                         else old(Trail())
    {
      if !Visible(u) {
        return Refused(NotFound);
      }
      if u.role != StateMinister {
        return Refused(Forbidden);
      }
      if status != Submitted {
        return Refused(InvalidTransition);
      }
      status := Approved;
      reviewedBy := Some(u.id);
      reviewedAt := Some(now);
      reviewComment := comment;
      r := Done;
    }

    /** `validate`: Strategic Affairs Staff, on an APPROVED report. */
    method Validate(u: Principal, now: Instant) returns (r: Outcome)
      modifies this`status, this`validatedBy, this`validatedAt
      ensures r == AdvanceDecision(Action.Validate, old(Visible(u)), u.role, old(status))
      ensures status == if r.Done? then Target(Action.Validate, old(status)) else old(status)
      ensures Trail() == if r.Done? then old(Trail()).(status := Validated, validatedBy := Some(u.id), validatedAt := Some(now))
                         else old(Trail())
    {
      if !Visible(u) {
        return Refused(NotFound);
      }
      if u.role != StrategicStaff {
        return Refused(Forbidden);
      }
      if status != Approved {
        return Refused(InvalidTransition);
      }
      status := Validated;
      validatedBy := Some(u.id);
      validatedAt := Some(now);
      r := Done;
    }

    /** `final_approve`: the Executive Officer, on a VALIDATED report. */
    method FinalApprove(u: Principal, now: Instant) returns (r: Outcome)
      modifies this`status, this`finalApprovedBy, this`finalApprovedAt
      ensures r == AdvanceDecision(Action.FinalApprove, old(Visible(u)), u.role, old(status))
      ensures status == if r.Done? then Target(Action.FinalApprove, old(status)) else old(status)
      ensures Trail() == if r.Done? then old(Trail()).(status := FinalApproved, finalApprovedBy := Some(u.id),
                                                        finalApprovedAt := Some(now))
                         else old(Trail())
    {
      if !Visible(u) {
        return Refused(NotFound);
      }
      if u.role != Executive {
        return Refused(Forbidden);
      }
      if status != Validated {
        return Refused(InvalidTransition);
      }
      status := FinalApproved;
      finalApprovedBy := Some(u.id);
      finalApprovedAt := Some(now);
      r := Done;
    }

    /** `reject`: a reviewer role, on a report under review; the stripped
        comment replaces the review comment. */
    method Reject(u: Principal, now: Instant, comment: string) returns (r: Outcome)
      modifies this`status, this`reviewedBy, this`reviewedAt, this`reviewComment
      ensures r == RejectDecision(old(Visible(u)), u.role, comment, old(status))
      ensures status == if r.Done? then Target(Action.Reject, old(status)) else old(status)
      ensures Trail() == if r.Done? then old(Trail()).(status := Rejected, reviewedBy := Some(u.id),
                                                        reviewedAt := Some(now), reviewComment := Strip(comment))
                         else old(Trail())
    {
      if !Visible(u) {
        return Refused(NotFound);
      }
      if u.role !in {StateMinister, StrategicStaff, Executive} {
        return Refused(Forbidden);
      }
      var note := Strip(comment);
      if u.role == StrategicStaff && note == [] {
        return Refused(CommentRequired);
      }
      if status !in {Submitted, Approved, Validated} {
        return Refused(InvalidTransition);
      }
      status := Rejected;
      reviewComment := note;
      reviewedBy := Some(u.id);
      reviewedAt := Some(now);
      r := Done;
    }

    /** `update`'s checks before the serializer writes: the lookup, a DRAFT
        or REJECTED status, then `_allow_perf_edit` on the status of the
        plan's breakdown `parent`, if any. */
    function UpdateGuard(u: Principal, parent: QuarterlyBreakdown?): (r: Outcome)
      requires parent != null ==> parent.plan == plan
      reads this, parent
      ensures r.Done? <==> status in {Draft, Rejected} && AllowPerfEdit(u, plan, ParentStatus(parent))
      ensures r == Refused(InvalidTransition) <==> Visible(u) && status !in {Draft, Rejected}
    {
      if !Visible(u) then Refused(NotFound)
      else if status != Draft && status != Rejected then Refused(InvalidTransition)
      else if !AllowPerfEdit(u, plan, ParentStatus(parent)) then Refused(Forbidden)
      else Done
    }

    /** `update`: once `UpdateGuard` passes, the serializer writes every field
        the payload carries, the review comment with surrounding whitespace
        trimmed. The status is among its writable fields, so a
        DRAFT or REJECTED report can be given any status, FINAL_APPROVED
        included. */
    method Update(u: Principal, parent: QuarterlyBreakdown?, e: PerformanceEdit) returns (r: Outcome)
      requires parent != null ==> parent.plan == plan
      modifies this`value, this`status, this`reviewComment
      ensures r == old(UpdateGuard(u, parent))
      ensures status == if r.Done? then Written(old(status), e.status) else old(status)
      ensures value == if r.Done? then Written(old(value), e.value) else old(value)
      ensures reviewComment == if r.Done? && e.reviewComment.Some? then Strip(e.reviewComment.value) else old(reviewComment)
    {
      r := UpdateGuard(u, parent);
      if r.Refused? {
        return;
      }
      value := Written(value, e.value);
      status := Written(status, e.status);
      if e.reviewComment.Some? {
        reviewComment := Strip(e.reviewComment.value);
      }
    }
  }

  /** An `update` payload: each writable field the serializer accepts,
      `None` when the request leaves it out. */
  datatype PerformanceEdit = PerformanceEdit(value: Option<int>, status: Option<Status>, reviewComment: Option<string>)

  /** `create`'s checks before the serializer runs: the referenced plan must
      exist (`planRef` is `None` when the field is missing), then
      `_allow_perf_edit`; `breakdowns` maps a plan id to its breakdown's status. */
  function CreateGuard(u: Principal, planRef: Option<int>, plans: map<int, Plan>, breakdowns: map<int, Status>): (r: Outcome)
    ensures r.Done? <==> planRef.Some? && planRef.value in plans
                         && AllowPerfEdit(u, plans[planRef.value],
                                          if planRef.value in breakdowns then Some(breakdowns[planRef.value]) else None)
    ensures r == Refused(InvalidPlan) <==> planRef.None? || planRef.value !in plans
  {
    if planRef.None? || planRef.value !in plans then Refused(InvalidPlan)
    else
      var parent := if planRef.value in breakdowns then Some(breakdowns[planRef.value]) else None;
      if !AllowPerfEdit(u, plans[planRef.value], parent) then Refused(Forbidden)
      else Done
  }
}
