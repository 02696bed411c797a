/** `QuarterlyBreakdown` and the actions of `QuarterlyBreakdownViewSet`:
    each action loads the record through the user's queryset, runs its
    checks in order, and on success writes the status and the fields of
    that step, leaving everything else as it was. */
module Breakdowns {
  import opened Wrappers
  import opened Calendar
  import opened Domain
  import opened Text
  import opened Windows
  import opened PlanVisibility
  import opened Approval

  class QuarterlyBreakdown {
    const plan: Plan
    // quarter values in hundredths
    var q1: int
    var q2: int
    var q3: int
    var q4: int
    var status: Status
    var submittedBy: Option<int>
    var submittedAt: Option<Instant>
    var reviewedBy: Option<int>
    var reviewedAt: Option<Instant>
    var reviewComment: string
    var validatedBy: Option<int>
    var validatedAt: Option<Instant>
    var finalApprovedBy: Option<int>
    var finalApprovedAt: Option<Instant>

    ghost function Trail(): Trail
      reads this
    {
      Approval.Trail(status, submittedBy, submittedAt, reviewedBy, reviewedAt, reviewComment,
                     validatedBy, validatedAt, finalApprovedBy, finalApprovedAt)
    }

    /** `total`: the sum of the four quarters. */
    function Total(): int
      reads this
    {
      q1 + q2 + q3 + q4
    }

    /** `clean()` accepts exactly when the quarters add up to the plan's target. */
    predicate Clean()
      reads this
    {
      Total() == plan.target
    }

    /** Whether `get_object()` finds this record for `u`. */
    predicate Visible(u: Principal)
      reads this
    {
      RecordVisible(u, PlanDepartment(plan), status)
    }

    /** A new breakdown: the given quarters, status DRAFT, no steps taken. */
    constructor (plan: Plan, q1: int, q2: int, q3: int, q4: int)
      ensures this.plan == plan && this.q1 == q1 && this.q2 == q2 && this.q3 == q3 && this.q4 == q4
      ensures Trail() == NewTrail
    {
      this.plan := plan;
      this.q1, this.q2, this.q3, this.q4 := q1, q2, q3, q4;
      status := Draft;
      submittedBy, submittedAt := None, None;
      reviewedBy, reviewedAt, reviewComment := None, None, "";
      validatedBy, validatedAt := None, None;
      finalApprovedBy, finalApprovedAt := None, None;
    }

    /** `submit`: a Lead Executive Body member, inside the breakdown window,
        on a DRAFT or REJECTED breakdown whose quarters add up to the target. */
    method Submit(u: Principal, now: Instant, windows: seq<SubmissionWindow>) returns (r: Outcome)
      modifies this`status, this`submittedBy, this`submittedAt
      ensures r == SubmitBreakdownDecision(old(Visible(u)), u.role, WithinAnnualBreakdownWindow(windows, now),
                                           old(status), Total(), plan.target)
      ensures status == if r.Done? then Target(Action.Submit, old(status)) else old(status)
      ensures r.Done? ==> Clean()
      ensures Trail() == if r.Done? then old(Trail()).(status := Submitted, submittedBy := Some(u.id), submittedAt := Some(now))
                         else old(Trail())
    {
      if !Visible(u) {
        return Refused(NotFound);
      }
      if u.role != LeadExecutiveBody {
        return Refused(Forbidden);
      }
      if !WithinAnnualBreakdownWindow(windows, now) {
        return Refused(WindowClosed);
      }
      if status !in {Draft, Rejected} {
        return Refused(InvalidTransition);
      }
      var total := q1 + q2 + q3 + q4;
      if total != plan.target {
        return Refused(TotalsMismatch);
      }
      status := Submitted;
      submittedBy := Some(u.id);
      submittedAt := Some(now);
      r := Done;
    }

    /** `approve`: the State Minister, on a SUBMITTED breakdown; the
        comment (empty when none is sent) replaces the review comment. */
    method Approve(u: Principal, now: Instant, comment: string) returns (r: Outcome)
      modifies this`status, this`reviewedBy, this`reviewedAt, this`reviewComment
      ensures r == AdvanceDecision(Action.Approve, old(Visible(u)), u.role, old(status))
      ensures status == if r.Done? then Target(Action.Approve, old(status)) else old(status)
      ensures Trail() == if r.Done? then old(Trail()).(status := Approved, reviewedBy := Some(u.id),
                                                        reviewedAt := Some(now), reviewComment := comment)
                         else old(Trail())
    {
      if !Visible(u) {
        return Refused(NotFound);
      }
      if u.role != StateMinister {
        return Refused(Forbidden);
      }
      if status != Submitted {
        return Refused(InvalidTransition);
      }
      status := Approved;
      reviewedBy := Some(u.id);
      reviewedAt := Some(now);
      reviewComment := comment;
      r := Done;
    }

    /** `validate`: Strategic Affairs Staff, on an APPROVED breakdown. */
    method Validate(u: Principal, now: Instant) returns (r: Outcome)
      modifies this`status, this`validatedBy, this`validatedAt
      ensures r == AdvanceDecision(Action.Validate, old(Visible(u)), u.role, old(status))
      ensures status == if r.Done? then Target(Action.Validate, old(status)) else old(status)
      ensures Trail() == if r.Done? then old(Trail()).(status := Validated, validatedBy := Some(u.id), validatedAt := Some(now))
                         else old(Trail())
    {
      if !Visible(u) {
        return Refused(NotFound);
      }
      if u.role != StrategicStaff {
        return Refused(Forbidden);
      }
      if status != Approved {
        return Refused(InvalidTransition);
      }
      status := Validated;
      validatedBy := Some(u.id);
      validatedAt := Some(now);
      r := Done;
    }

    /** `final_approve`: the Executive Officer, on a VALIDATED breakdown. */
    method FinalApprove(u: Principal, now: Instant) returns (r: Outcome)
      modifies this`status, this`finalApprovedBy, this`finalApprovedAt
      ensures r == AdvanceDecision(Action.FinalApprove, old(Visible(u)), u.role, old(status))
      ensures status == if r.Done? then Target(Action.FinalApprove, old(status)) else old(status)
      ensures Trail() == if r.Done? then old(Trail()).(status := FinalApproved, finalApprovedBy := Some(u.id),
                                                        finalApprovedAt := Some(now))
                         else old(Trail())
    {
      if !Visible(u) {
        return Refused(NotFound);
      }
      if u.role != Executive {
        return Refused(Forbidden);
      }
      if status != Validated {
        return Refused(InvalidTransition);
      }
      status := FinalApproved;
      finalApprovedBy := Some(u.id);
      finalApprovedAt := Some(now);
      r := Done;
    }

    /** `reject`: a reviewer role, on a breakdown under review; the stripped
        comment replaces the review comment. */
    method Reject(u: Principal, now: Instant, comment: string) returns (r: Outcome)
      modifies this`status, this`reviewedBy, this`reviewedAt, this`reviewComment
      ensures r == RejectDecision(old(Visible(u)), u.role, comment, old(status))
      ensures status == if r.Done? then Target(Action.Reject, old(status)) else old(status)
      ensures Trail() == if r.Done? then old(Trail()).(status := Rejected, reviewedBy := Some(u.id),
                                                        reviewedAt := Some(now), reviewComment := Strip(comment))
                         else old(Trail())
    {
      if !Visible(u) {
        return Refused(NotFound);
      }
      if u.role !in {StateMinister, StrategicStaff, Executive} {
        return Refused(Forbidden);
      }
      var note := Strip(comment);
      if u.role == StrategicStaff && note == [] {
        return Refused(CommentRequired);
      }
      if status !in {Submitted, Approved, Validated} {
        return Refused(InvalidTransition);
      }
      status := Rejected;
      reviewComment := note;
      reviewedBy := Some(u.id);
      reviewedAt := Some(now);
      r := Done;
    }

    /** `advisor_review`: an Advisor appends a prefixed note to the review
        comment; nothing else changes, the status included. */
    method AdvisorReview(u: Principal, comment: string) returns (r: Outcome)
      modifies this`reviewComment
      ensures r == AdvisorReviewDecision(old(Visible(u)), u.role, comment)
      ensures status == Target(Action.AdvisorReview, old(status))
      ensures r.Done? ==> reviewComment == AppendAdvisorNote(old(reviewComment), comment)
      ensures r.Refused? ==> reviewComment == old(reviewComment)
    {
      if !Visible(u) {
        return Refused(NotFound);
      }
      if u.role != Advisor {
        return Refused(Forbidden);
      }
      var note := Strip(comment);
      if note == [] {
        return Refused(CommentRequired);
      }
      var entry := "Advisor: " + note;
      if reviewComment != [] {
        reviewComment := reviewComment + "\n" + entry;
      } else {
        reviewComment := entry;
      }
      r := Done;
    }

    /** `update`'s checks before the serializer writes: the Lead Executive
        Body role, then the lookup, then the department. The status is never
        consulted, so a submitted or even final-approved breakdown passes. */
    function UpdateGuard(u: Principal): (r: Outcome)
      reads this
      ensures r.Done? <==> u.role == LeadExecutiveBody && DepartmentMatches(u, PlanDepartment(plan))
    {
      if !AllowPlanEdit(u.role) then Refused(Forbidden)
      else if !Visible(u) then Refused(NotFound)
      else if !DepartmentMatches(u, PlanDepartment(plan)) then Refused(Forbidden)
      else Done
    }

    /** `update`: once `UpdateGuard` passes, the serializer writes every field
        the payload carries; the review comment, a text field, is stored with
        surrounding whitespace trimmed. The status is among the writable
        fields, so the status sent is stored whatever it was. */
    method Update(u: Principal, e: BreakdownEdit) returns (r: Outcome)
      modifies this`q1, this`q2, this`q3, this`q4, this`status, this`reviewComment
      ensures r == old(UpdateGuard(u))
      ensures status == if r.Done? then Written(old(status), e.status) else old(status)
      ensures r.Done? ==> q1 == Written(old(q1), e.q1) && q2 == Written(old(q2), e.q2)
                          && q3 == Written(old(q3), e.q3) && q4 == Written(old(q4), e.q4)
                          && reviewComment == (if e.reviewComment.Some? then Strip(e.reviewComment.value) else old(reviewComment))
      ensures r.Refused? ==> q1 == old(q1) && q2 == old(q2) && q3 == old(q3) && q4 == old(q4)
                             && reviewComment == old(reviewComment)
    {
      r := UpdateGuard(u);
      if r.Refused? {
        return;
      }
      q1, q2, q3, q4 := Written(q1, e.q1), Written(q2, e.q2), Written(q3, e.q3), Written(q4, e.q4);
      status := Written(status, e.status);
      if e.reviewComment.Some? {
        reviewComment := Strip(e.reviewComment.value);
      }
    }
  }

  /** An `update` payload: each writable field the serializer accepts,
      `None` when the request leaves it out. */
  datatype BreakdownEdit = BreakdownEdit(q1: Option<int>, q2: Option<int>, q3: Option<int>, q4: Option<int>,
                                         status: Option<Status>, reviewComment: Option<string>)

  /** `_allow_plan_edit`: only the Lead Executive Body encodes breakdowns. */
  predicate AllowPlanEdit(role: Role) {
    role == LeadExecutiveBody
  }

  /** `create`'s checks before the serializer runs. `planRef` is the `plan`
      field as `int()` reads it (`None` when missing or not a number); a
      missing or zero reference skips the lookup and the department check. */
  function CreateGuard(u: Principal, planRef: Option<int>, plans: map<int, Plan>): (r: Outcome)
    ensures r.Done? <==> AllowPlanEdit(u.role)
                         && (planRef.Some? && planRef.value != 0 ==>
                               planRef.value in plans && DepartmentMatches(u, PlanDepartment(plans[planRef.value])))
    ensures r == Refused(InvalidPlan) <==> AllowPlanEdit(u.role) && planRef.Some? && planRef.value != 0
                                            && planRef.value !in plans
  {
    if !AllowPlanEdit(u.role) then Refused(Forbidden)
    else if planRef.None? || planRef.value == 0 then Done
    else if planRef.value !in plans then Refused(InvalidPlan)
    else if !DepartmentMatches(u, PlanDepartment(plans[planRef.value])) then Refused(Forbidden)
    else Done
  }
}
