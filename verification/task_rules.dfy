/** What each action on a human task does, action by action, without the transition table or the code that reads it. */
module TaskRules {
  import opened Wrappers
  import opened StateMachine
  import opened Authorization
  import opened ActionGate
  import opened OptimisticLock
  import opened HumanTasks

  /** Two hours, in microseconds. */
  const TWO_HOURS: nat := 7_200_000_000

  /** The statuses an action may start from. */
  predicate MayStart(action: TaskAction, status: TaskStatus) {
    match action
    case Claim => status == Open
    case Submit => status == Claimed
    case Reassign | Approve | Reject | Assign => status == Open || status == Claimed
    case OtherTaskAction => false
  }

  /** A request is accepted on a row when it is permitted, its If-Match names the row's version, the status allows it,
      and an assign names an active member. */
  predicate Accepted(authorizer: Authorizer, info: TaskInfo, req: TaskRequest, row: TaskRow) {
    && authorizer(info, req, row) && req.precondition == Ok(Some(row.version)) && MayStart(req.action, row.fields.status)
    && (req.action == Assign ==> req.target.Some? && req.targetIsMember)
  }

  /** What an accepted request makes of the fields. */
  function Intended(req: TaskRequest, f: TaskFields): TaskFields {
    var actor, lease := Some(req.subject.actor), Some(req.now + TWO_HOURS);
    match req.action
    case Claim => TaskFields(Claimed, None, actor, lease, actor)
    case Reassign => TaskFields(Open, None, req.target, if req.target == None then None else lease, actor)
    case Assign => TaskFields(Claimed, None, req.target, lease, actor)
    case Submit => TaskFields(TaskStatus.Completed, Some(EDIT_AND_APPROVE), f.assignee, None, actor)
    case Approve => TaskFields(TaskStatus.Completed, Some(APPROVE), f.assignee, None, actor)
    case Reject => TaskFields(TaskStatus.Completed, Some(REJECT), f.assignee, None, actor)
    case OtherTaskAction => f
  }

  /** The code plans a write exactly for accepted requests, and exactly the intended one. */
  lemma PlansAsIntended(authorizer: Authorizer, info: TaskInfo, req: TaskRequest, row: TaskRow)
    ensures PlanTask(authorizer, info, req, Some(row)).Ok? <==> Accepted(authorizer, info, req, row)
    ensures Accepted(authorizer, info, req, row) ==> PlanTask(authorizer, info, req, Some(row)) == Ok(Intended(req, row.fields))
  {
  }

  /** A request that read `read` gets Ok exactly when it is accepted there and either the row has not moved or there
      is nothing to change; then it is shown the intended fields, which are stored under the next version when
      they are new. In every other case the row stays as it is. */
  lemma FinishesIff(authorizer: Authorizer, info: TaskInfo, req: TaskRequest, read: TaskRow, stored: TaskRow)
    ensures var (row, result) := FinishTask(authorizer, info, req, read, stored);
            var after := Intended(req, read.fields);
            && (result.Ok? <==> Accepted(authorizer, info, req, read) && (stored.version == read.version || after == read.fields))
            && (result.Ok? ==> result.value == Versioned(after, if after == read.fields then read.version else read.version + 1))
            && (result.Ok? && after != read.fields && stored == read ==> row == result.value)
            && (result.Err? || after == read.fields ==> row == stored)
  {
    PlansAsIntended(authorizer, info, req, read);
    OverlayOnRead(read.fields, Intended(req, read.fields));
  }

  /** A write that goes through sets the columns it changes and leaves the others as they are stored. */
  lemma WritesItsColumns(authorizer: Authorizer, info: TaskInfo, req: TaskRequest, read: TaskRow, stored: TaskRow)
    requires FinishTask(authorizer, info, req, read, stored).1.Ok? && Intended(req, read.fields) != read.fields
    ensures var before, after, there := read.fields, Intended(req, read.fields), stored.fields;
            var row := FinishTask(authorizer, info, req, read, stored).0.fields;
            && row.status == (if after.status == before.status then there.status else after.status)
            && row.decision == (if after.decision == before.decision then there.decision else after.decision)
            && row.assignee == (if after.assignee == before.assignee then there.assignee else after.assignee)
            && row.lease == (if after.lease == before.lease then there.lease else after.lease)
            && row.updatedBy == (if after.updatedBy == before.updatedBy then there.updatedBy else after.updatedBy)
  {
    PlansAsIntended(authorizer, info, req, read);
  }

  /** How the board shows where an action leads. */
  lemma TransitionShows(action: TaskAction, status: TaskStatus)
    requires PlanTaskTransition(action, status).Some?
    ensures var t := PlanTaskTransition(action, status).value;
            (t.statusLabel, t.tone) ==
            if action == Claim then ("处理中", "info") else if action == Reassign then ("待领取", "warning") else ("已处理", "success")
  {
  }

  /** Why a request is refused: the first of these that applies. */
  lemma RefusedAs(authorizer: Authorizer, info: TaskInfo, req: TaskRequest, read: TaskRow, stored: TaskRow)
    ensures var result := FinishTask(authorizer, info, req, read, stored).1;
            if req.action == OtherTaskAction then result == Err(UnsupportedAction)
            else if req.action == Assign && req.target.None? then result == Err(InvalidAssignee)
            else if req.precondition.Err? then result == Err(req.precondition.error)
            else if req.action == Assign && !req.targetIsMember then result == Err(InvalidAssignee)
            else if req.precondition.value.None? then result == Err(PreconditionRequired)
            else if req.precondition.value.value != read.version then result == Err(StalePrecondition)
            else if !authorizer(info, req, read) then result == Err(Forbidden)
            else if !MayStart(req.action, read.fields.status) then result == Err(IllegalTransition)
            else result.Err? ==> result == Err(LostRace)
  {
  }

  /** A task that is not there. */
  lemma MissingTask(authorizer: Authorizer, info: TaskInfo, req: TaskRequest)
    ensures PlanTask(authorizer, info, req, None) ==
            if req.action == OtherTaskAction then Err(UnsupportedAction)
            else if req.action == Assign && req.target.None? then Err(InvalidAssignee)
            else if req.precondition.Err? then Err(req.precondition.error)
            else Err(NotFound)
  {
  }

  /** The permission code of each action. */
  function ReviewCode(action: TaskAction): string {
    match action
    case Claim => "review:claim"
    case Reassign => "review:reassign"
    case Submit => "review:submit"
    case Approve => "review:approve"
    case Reject => "review:reject"
    case Assign => "review:assign"
    case OtherTaskAction => "review:"
  }

  lemma ReviewCodes(action: TaskAction)
    ensures CodeOf("review", ActionName(action)) == ReviewCode(action)
    ensures ReviewCode(action) == "review:approve" <==> action == Approve
    ensures ReviewCode(action) != "publication:publish"
  {
    assert ReviewCode(action) == "review:approve" ==> |ReviewCode(action)| == 14 && ReviewCode(action)[7] == 'a' && ReviewCode(action)[8] == 'p';
    assert ReviewCode(action)[0] == 'r';
  }

  lemma ReviewIsWord()
    ensures IsWord("review")
  {
  }

  lemma ActionsAreWords(action: TaskAction)
    ensures IsWord(ActionName(action)) <==> action != OtherTaskAction
  {
  }

  /** Whom the application lets act on a task: an active member of an active tenant whose role rows, or job title when
      there are none, list the action's code; and nobody may approve what they created. */
  lemma PermittedIff(info: TaskInfo, req: TaskRequest, read: TaskRow)
    ensures Permitted(info, req, read) <==>
            && req.action != OtherTaskAction && req.records.Some?
            && req.records.value.tenantActive && req.records.value.membershipActive && req.records.value.userActive
            && ReviewCode(req.action) in (if req.records.value.codes == [] then req.records.value.fallback else req.records.value.codes)
            && (req.action == Approve ==> info.createdBy != Some(req.subject.actor))
  {
    ReviewCodes(req.action);
    ReviewIsWord();
    ActionsAreWords(req.action);
    if req.records.Some? {
      BoardVerdict(req.records.value, req.subject, "review", ActionName(req.action),
                   BoardRow(info.id, info.createdBy, read.fields.assignee));
    }
  }
}
