/** The approval state machine shared by quarterly breakdowns and quarterly
    performance reports: which role takes which action from which status,
    and, per action, the checks the views run in order, the first failing
    one deciding the refusal. */
module Approval {
  import opened Wrappers
  import opened Calendar
  import opened Domain
  import opened Text

  datatype Action = Submit | Approve | Validate | FinalApprove | Reject | AdvisorReview

  /** The roles allowed to take each action. */
  function ActorRoles(a: Action): set<Role> {
    match a
    case Submit => {LeadExecutiveBody}
    case Approve => {StateMinister}
    case Validate => {StrategicStaff}
    case FinalApprove => {Executive}
    case Reject => {StateMinister, StrategicStaff, Executive}
    case AdvisorReview => {Advisor}
  }

  /** The statuses each action may start from. */
  function SourceStates(a: Action): set<Status> {
    match a
    case Submit => {Draft, Rejected}
    case Approve => {Submitted}
    case Validate => {Approved}
    case FinalApprove => {Validated}
    case Reject => {Submitted, Approved, Validated}
    case AdvisorReview => {Draft, Submitted, Approved, Validated, FinalApproved, Rejected}
  }

  /** The status an accepted action leaves behind; an advisor's note keeps it. */
  function Target(a: Action, s: Status): Status {
    match a
    case Submit => Submitted
    case Approve => Approved
    case Validate => Validated
    case FinalApprove => FinalApproved
    case Reject => Rejected
    case AdvisorReview => s
  }

  /** A request that can change a record's status: one of the six workflow
      actions, or an `update` whose payload may carry a status. */
  datatype Step = Act(action: Action) | Edit(sent: Option<Status>)

  /** The value a serializer stores for a writable field: the one sent, or
      the current one when the payload leaves the field out. */
  function Written<T>(current: T, sent: Option<T>): T {
    if sent.Some? then sent.value else current
  }

  /** The status after `steps` with `status` read-only to `update`, as the
      fields recording who took each step are: each action applied when the
      status allows it and ignored otherwise (a refused request changes
      nothing), and every edit keeping the status. */
  function Run(s: Status, steps: seq<Step>): Status
    decreases |steps|
  {
    if steps == [] then s
    else
      var t := match steps[0]
        case Act(a) => if s in SourceStates(a) then Target(a, s) else s
        case Edit(_) => s;
      Run(t, steps[1..])
  }

  /** The status after `steps` as the breakdown viewset behaves: `update`
      checks no status and its serializer writes the status sent. */
  function RunAsWritten(s: Status, steps: seq<Step>): Status
    decreases |steps|
  {
    if steps == [] then s
    else
      var t := match steps[0]
        case Act(a) => if s in SourceStates(a) then Target(a, s) else s
        case Edit(sent) => Written(s, sent);
      RunAsWritten(t, steps[1..])
  }

  /** As written, one `update` takes a DRAFT breakdown to FINAL_APPROVED
      without any review, and another takes it back out. */
  lemma UpdateBypassesReview()
    ensures RunAsWritten(Draft, [Edit(Some(FinalApproved))]) == FinalApproved
    ensures RunAsWritten(FinalApproved, [Edit(Some(Draft))]) == Draft
  {
    assert [Edit(Some(FinalApproved))][1..] == [];
    assert [Edit(Some(Draft))][1..] == [];
  }

  /** FINAL_APPROVED is terminal: no sequence of actions and status-free
      edits leaves it. */
  lemma {:induction false} FinalApprovedIsTerminal(steps: seq<Step>)
    ensures Run(FinalApproved, steps) == FinalApproved
    decreases |steps|
  {
    if steps != [] {
      FinalApprovedIsTerminal(steps[1..]);
    }
  }

  /** Under `Run`, where edits keep the status, only a final approval
      reaches FINAL_APPROVED. */
  lemma {:induction false} FinalApprovalNeeded(s: Status, steps: seq<Step>)
    requires s != FinalApproved && Run(s, steps) == FinalApproved
    ensures exists i :: 0 <= i < |steps| && steps[i] == Act(FinalApprove)
    decreases |steps|
  {
    if steps[0] == Act(FinalApprove) {
      assert steps[0] == Act(FinalApprove);
    } else {
      var t := match steps[0]
        case Act(a) => if s in SourceStates(a) then Target(a, s) else s
        case Edit(_) => s;
      FinalApprovalNeeded(t, steps[1..]);
      var i :| 0 <= i < |steps[1..]| && steps[1..][i] == Act(FinalApprove);
      assert steps[i + 1] == Act(FinalApprove);
    }
  }

  /** Why a request was refused; the views answer NotFound with 404,
      Forbidden with 403 and every other reason with 400. */
  datatype Reason =
    | NotFound          // the record is outside the user's queryset
    | Forbidden         // wrong role, department scope, or edit not allowed
    | InvalidPlan       // the referenced annual plan does not exist
    | WindowClosed
    | InvalidTransition // the status is not one the action starts from
    | TotalsMismatch    // quarterly totals differ from the annual target
    | ParentNotApproved // the breakdown is missing or not yet approved
    | CommentRequired

  datatype Outcome = Done | Refused(reason: Reason)

  /** The approval fields a breakdown and a performance report both carry:
      the status, who took each step and when, and the review comment. */
  datatype Trail = Trail(
    status: Status,
    submittedBy: Option<int>,
    submittedAt: Option<Instant>,
    reviewedBy: Option<int>,
    reviewedAt: Option<Instant>,
    reviewComment: string,
    validatedBy: Option<int>,
    validatedAt: Option<Instant>,
    finalApprovedBy: Option<int>,
    finalApprovedAt: Option<Instant>)

  /** The trail of a freshly created record. */
  const NewTrail: Trail := Trail(Draft, None, None, None, None, "", None, None, None, None)

  /** Breakdown `submit`: record visible, role, window, status, totals. */
  function SubmitBreakdownDecision(visible: bool, role: Role, windowOpen: bool, status: Status, total: int, target: int): (r: Outcome)
    ensures r.Done? <==> visible && role in ActorRoles(Submit) && windowOpen
                         && status in SourceStates(Submit) && total == target
    ensures !visible ==> r == Refused(NotFound)
    ensures visible && role !in ActorRoles(Submit) ==> r == Refused(Forbidden)
  {
    if !visible then Refused(NotFound)
    else if role != LeadExecutiveBody then Refused(Forbidden)
    else if !windowOpen then Refused(WindowClosed)
    else if status != Draft && status != Rejected then Refused(InvalidTransition)
    else if total != target then Refused(TotalsMismatch)
    else Done
  }

  /** Performance `submit`: record visible, role, status, window, and a
      parent breakdown approved by the State Minister or beyond. */
  function SubmitPerformanceDecision(visible: bool, role: Role, status: Status, windowOpen: bool, parent: Option<Status>): (r: Outcome)
    ensures r.Done? <==> visible && role in ActorRoles(Submit) && status in SourceStates(Submit)
                         && windowOpen && parent.Some? && parent.value in ApprovedOrAbove
    ensures !visible ==> r == Refused(NotFound)
    ensures visible && role !in ActorRoles(Submit) ==> r == Refused(Forbidden)
  {
    if !visible then Refused(NotFound)
    else if role != LeadExecutiveBody then Refused(Forbidden)
    else if status != Draft && status != Rejected then Refused(InvalidTransition)
    else if !windowOpen then Refused(WindowClosed)
    else if parent.None? || parent.value !in {Approved, Validated, FinalApproved} then Refused(ParentNotApproved)
    else Done
  }

  /** Breakdowns check the window before the status, performance reports the
      status before the window: the same failing request gets different answers. */
  lemma SubmitCheckOrderDiffers(status: Status, total: int, target: int, parent: Option<Status>)
    requires status !in SourceStates(Submit)
    ensures SubmitBreakdownDecision(true, LeadExecutiveBody, false, status, total, target) == Refused(WindowClosed)
    ensures SubmitPerformanceDecision(true, LeadExecutiveBody, status, false, parent) == Refused(InvalidTransition)
  {
  }

  /** `approve`, `validate` and `final_approve`: record visible, role, status. */
  function AdvanceDecision(a: Action, visible: bool, role: Role, status: Status): (r: Outcome)
    requires a == Approve || a == Validate || a == FinalApprove
    ensures r.Done? <==> visible && role in ActorRoles(a) && status in SourceStates(a)
    ensures !visible ==> r == Refused(NotFound)
    ensures visible && role !in ActorRoles(a) ==> r == Refused(Forbidden)
  {
    var (actor, source) :=
      if a == Approve then (StateMinister, Submitted)
      else if a == Validate then (StrategicStaff, Approved)
      else (Executive, Validated);
    if !visible then Refused(NotFound)
    else if role != actor then Refused(Forbidden)
    else if status != source then Refused(InvalidTransition)
    else Done
  }

  /** `reject`: record visible, a reviewer role, a note when the reviewer is
      Strategic Affairs Staff, then the status. */
  function RejectDecision(visible: bool, role: Role, comment: string, status: Status): (r: Outcome)
    ensures r.Done? <==> visible && role in ActorRoles(Reject)
                         && (role == StrategicStaff ==> !IsBlank(comment))
                         && status in SourceStates(Reject)
    ensures !visible ==> r == Refused(NotFound)
    ensures visible && role !in ActorRoles(Reject) ==> r == Refused(Forbidden)
  {
    if !visible then Refused(NotFound)
    else if role != StateMinister && role != StrategicStaff && role != Executive then Refused(Forbidden)
    else if role == StrategicStaff && IsBlank(comment) then Refused(CommentRequired)
    else if status != Submitted && status != Approved && status != Validated then Refused(InvalidTransition)
    else Done
  }

  /** A blank note from Strategic Affairs Staff is refused before the status
      is looked at, so even a DRAFT or FINAL_APPROVED record answers
      CommentRequired rather than InvalidTransition. */
  lemma BlankStaffNoteCheckedFirst(comment: string, status: Status)
    requires forall i :: 0 <= i < |comment| ==> IsSpace(comment[i])
    ensures RejectDecision(true, StrategicStaff, comment, status) == Refused(CommentRequired)
  {
  }

  /** `advisor_review`: record visible, the Advisor role, a non-blank note;
      there is no status check. */
  function AdvisorReviewDecision(visible: bool, role: Role, comment: string): (r: Outcome)
    ensures r.Done? <==> visible && role in ActorRoles(AdvisorReview) && !IsBlank(comment)
    ensures !visible ==> r == Refused(NotFound)
    ensures visible && role !in ActorRoles(AdvisorReview) ==> r == Refused(Forbidden)
  {
    if !visible then Refused(NotFound)
    else if role != Advisor then Refused(Forbidden)
    else if IsBlank(comment) then Refused(CommentRequired)
    else Done
  }

  /** The advisor's note appended to the review comment. */
  function AppendAdvisorNote(existing: string, comment: string): (r: string)
    requires !IsBlank(comment)
    ensures existing <= r
    ensures existing != [] ==> r == existing + "\n" + "Advisor: " + Strip(comment)
    ensures existing == [] ==> r == "Advisor: " + Strip(comment)
  {
    var note := "Advisor: " + Strip(comment);
    if existing != [] then existing + "\n" + note else note
  }
}
