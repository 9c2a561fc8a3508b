/** Human tasks: their row, optimistic lock and write actions (apps/api/repositories.py). */
module HumanTasks {
  import opened Wrappers
  import opened Clock
  import opened StateMachine
  import opened Etag
  import opened Authorization
  import opened ActionGate
  import opened OptimisticLock

  const CLAIM_LEASE: nat := 2 * 3600 * SECOND

  /** What no action changes. */
  datatype TaskInfo = TaskInfo(id: Id, createdBy: Option<Id>)

  datatype TaskFields = TaskFields(
    status: TaskStatus,
    decision: Option<TaskDecision>,
    assignee: Option<Id>,
    lease: Option<nat>,
    updatedBy: Option<Id>)

  type TaskRow = Versioned<TaskFields>

  const FRESH := Versioned(TaskFields(Open, None, None, None, None), 0)

  /** One request: who asks, with which role rows, and at what time. */
  datatype TaskRequest = TaskRequest(
    action: TaskAction,
    precondition: Result<Option<nat>, ActionError>,
    subject: Subject,
    records: Option<MemberRecords>,
    target: Option<Id>,
    targetIsMember: bool,
    now: nat)

  function ActionName(action: TaskAction): string {
    match action
    case Claim => "claim"
    case Reassign => "reassign"
    case Submit => "submit"
    case Approve => "approve"
    case Reject => "reject"
    case Assign => "assign"
    case OtherTaskAction => ""
  }

  /** The authorization service a request is handed. */
  type Authorizer = (TaskInfo, TaskRequest, TaskRow) -> bool

  /** The service the application runs with: the engine on the policy built from the caller's role rows. */
  predicate Permitted(info: TaskInfo, req: TaskRequest, read: TaskRow) {
    RequirePermission(GetPolicy(req.records), req.subject, "review", ActionName(req.action),
                      BoardRow(info.id, info.createdBy, read.fields.assignee)).Allowed?
  }

  /** The assignments of a transition. */
  function Transitioned(f: TaskFields, req: TaskRequest, t: Transition<TaskStatus>): TaskFields {
    var moved := f.(status := t.status, decision := t.decision, updatedBy := Some(req.subject.actor));
    match req.action
    case Claim => moved.(assignee := Some(req.subject.actor), lease := Some(req.now + CLAIM_LEASE))
    case Reassign =>
      moved.(assignee := req.target, lease := if req.target.None? then None else Some(req.now + CLAIM_LEASE))
    case Approve | Reject | Submit => moved.(lease := None)
    case _ => moved
  }

  /** The assignments of `_apply_assign`. */
  function Handed(f: TaskFields, req: TaskRequest): TaskFields {
    TaskFields(if f.status == Open then Claimed else f.status, None, req.target, Some(req.now + CLAIM_LEASE),
               Some(req.subject.actor))
  }

  /** What a request wants to write, given the row its session read. */
  function PlanTask(authorizer: Authorizer, info: TaskInfo, req: TaskRequest, read: Option<TaskRow>): Result<TaskFields, ActionError> {
    if req.action == Assign && req.target.None? then Err(InvalidAssignee)
    else if req.action != Assign && req.action !in TASK_TRANSITIONS then Err(UnsupportedAction)
    else if req.precondition.Err? then Err(req.precondition.error)
    else if read.None? then Err(NotFound)
    else if req.action == Assign && !req.targetIsMember then Err(InvalidAssignee)
    else
      match RequireVersion(read.value.version, req.precondition.value)
      case Some(error) => Err(error)
      case None =>
        if !authorizer(info, req, read.value) then Err(Forbidden)
        else if req.action == Assign then
          if read.value.fields.status !in {Open, Claimed} then Err(IllegalTransition)
          else Ok(Handed(read.value.fields, req))
        else
          match PlanTaskTransition(req.action, read.value.fields.status)
          case None => Err(IllegalTransition)
          case Some(t) => Ok(Transitioned(read.value.fields, req, t))
  }

  /** The columns of an UPDATE. */
  function Overlay(stored: TaskFields, read: TaskFields, pending: TaskFields): TaskFields {
    TaskFields(
      Column(stored.status, read.status, pending.status),
      Column(stored.decision, read.decision, pending.decision),
      Column(stored.assignee, read.assignee, pending.assignee),
      Column(stored.lease, read.lease, pending.lease),
      Column(stored.updatedBy, read.updatedBy, pending.updatedBy))
  }

  function FlushTask(stored: TaskRow, read: TaskRow, pending: TaskFields): FlushResult<TaskFields> {
    Flush(Overlay, stored, read, pending)
  }

  /** The rest of a request after its SELECT: what is stored afterwards and what the caller is told. */
  function FinishTask(authorizer: Authorizer, info: TaskInfo, req: TaskRequest, read: TaskRow, stored: TaskRow): (TaskRow, Result<TaskRow, ActionError>) {
    match PlanTask(authorizer, info, req, Some(read))
    case Err(error) => (stored, Err(error))
    case Ok(pending) =>
      match FlushTask(stored, read, pending)
      case Stale => (stored, Err(LostRace))
      case Flushed(row, version) => (row, Ok(Versioned(pending, version)))
  }

  /** A task as the session holds it. */
  class HumanTask {
    const info: TaskInfo
    const loaded: TaskRow
    var status: TaskStatus
    var decision: Option<TaskDecision>
    var assignee: Option<Id>
    var lease: Option<nat>
    var updatedBy: Option<Id>

    function Fields(): TaskFields
      reads this
    {
      TaskFields(status, decision, assignee, lease, updatedBy)
    }

    constructor (info: TaskInfo, row: TaskRow)
      ensures this.info == info && loaded == row && Fields() == row.fields
    {
      this.info, loaded := info, row;
      status, decision, assignee := row.fields.status, row.fields.decision, row.fields.assignee;
      lease, updatedBy := row.fields.lease, row.fields.updatedBy;
    }
  }

  class HumanTaskTable {
    const info: TaskInfo
    var row: Option<TaskRow>

    constructor (info: TaskInfo, row: Option<TaskRow>)
      ensures this.info == info && this.row == row
    {
      this.info, this.row := info, row;
    }

    method Select() returns (task: HumanTask?)
      ensures row.None? <==> task == null
      ensures task != null ==> fresh(task) && task.info == info && task.loaded == row.value && task.Fields() == row.value.fields
    {
      if row.Some? {
        task := new HumanTask(info, row.value);
      } else {
        task := null;
      }
    }

    /** `session.flush()`; the result is false where SQLAlchemy raises StaleDataError. */
    method Flush(task: HumanTask) returns (flushed: bool, version: nat)
      requires row.Some?
      modifies this`row
      ensures row.Some? && (!flushed ==> row == old(row))
      ensures FlushTask(old(row.value), task.loaded, task.Fields()) ==
              if flushed then Flushed(row.value, version) else Stale
    {
      if task.Fields() == task.loaded.fields {
        return true, task.loaded.version;
      }
      if row.value.version != task.loaded.version {
        return false, 0;
      }
      row := Some(Versioned(Overlay(row.value.fields, task.loaded.fields, task.Fields()), row.value.version + 1));
      return true, task.loaded.version + 1;
    }
  }

  /** The checks and attribute assignments of `apply_human_task_action`, with `_apply_assign` behind it. */
  method AssignTask(authorizer: Authorizer, info: TaskInfo, task: HumanTask?, req: TaskRequest) returns (refusal: Option<ActionError>)
    requires task != null ==> task.info == info && task.Fields() == task.loaded.fields
    modifies task
    ensures task == null ==> refusal.Some? && PlanTask(authorizer, info, req, None) == Err(refusal.value)
    ensures task != null && refusal.Some? ==>
              PlanTask(authorizer, info, req, Some(task.loaded)) == Err(refusal.value) && task.Fields() == task.loaded.fields
    ensures task != null && refusal.None? ==> PlanTask(authorizer, info, req, Some(task.loaded)) == Ok(task.Fields())
  {
    if req.action == Assign && req.target.None? { return Some(InvalidAssignee); }
    if req.action != Assign && req.action !in TASK_TRANSITIONS { return Some(UnsupportedAction); }
    if req.precondition.Err? { return Some(req.precondition.error); }
    if task == null { return Some(NotFound); }
    if req.action == Assign && !req.targetIsMember { return Some(InvalidAssignee); }
    refusal := RequireVersion(task.loaded.version, req.precondition.value);
    if refusal.Some? { return; }
    if !authorizer(info, req, task.loaded) { return Some(Forbidden); }
    if req.action == Assign {
      if task.status !in {Open, Claimed} { return Some(IllegalTransition); }
      task.assignee := req.target;
      if task.status == Open {
        task.status := Claimed;
      }
      task.decision := None;
      task.lease := Some(req.now + CLAIM_LEASE);
    } else {
      var transition := PlanTaskTransition(req.action, task.status);
      if transition.None? { return Some(IllegalTransition); }
      task.status := transition.value.status;
      task.decision := transition.value.decision;
      if req.action == Claim {
        task.assignee := Some(req.subject.actor);
        task.lease := Some(req.now + CLAIM_LEASE);
      } else if req.action == Reassign {
        task.assignee := req.target;
        task.lease := if req.target.None? then None else Some(req.now + CLAIM_LEASE);
      } else if req.action in {Approve, Reject, Submit} {
        task.lease := None;
      }
    }
    task.updatedBy := Some(req.subject.actor);
    return None;
  }

  /** `apply_human_task_action` from the point where the row has been selected; the stored row may have moved on. */
  method ApplyHumanTaskAction(authorizer: Authorizer, table: HumanTaskTable, task: HumanTask?, req: TaskRequest)
    returns (result: Result<TaskRow, ActionError>)
    requires task != null ==> table.row.Some? && task.info == table.info && task.Fields() == task.loaded.fields
    modifies table, task
    ensures task == null ==> table.row == old(table.row) && result == Err(PlanTask(authorizer, table.info, req, None).error)
    ensures task != null ==> table.row.Some?
    ensures task != null ==> (table.row.value, result) == FinishTask(authorizer, table.info, req, task.loaded, old(table.row.value))
  {
    var refusal := AssignTask(authorizer, table.info, task, req);
    if refusal.Some? { return Err(refusal.value); }
    var flushed, version := table.Flush(task);
    if !flushed { return Err(LostRace); }
    return Ok(Versioned(task.Fields(), version));
  }

  /** The shape every version of a task has. */
  predicate TaskOk(info: TaskInfo, f: TaskFields) {
    && f.status in {Open, Claimed, TaskStatus.Completed}
    && (f.decision.Some? <==> f.status == TaskStatus.Completed)
    && (f.status == Claimed ==> f.assignee.Some? && f.lease.Some?)
    && (f.status == Open ==> (f.assignee.Some? <==> f.lease.Some?))
    && (f.status == TaskStatus.Completed ==> f.lease.None?)
    && (f.decision == Some(APPROVE) ==> f.updatedBy.Some? && f.updatedBy != info.createdBy)
  }

  /** The one thing the life of a task needs from authorization. */
  ghost predicate RespectsDuties(authorizer: Authorizer) {
    forall info, req, read ::
      authorizer(info, req, read) && req.action == Approve ==> info.createdBy != Some(req.subject.actor)
  }

  /** The engine's default duty rules let nobody approve a task they created, whatever their roles. */
  lemma EngineRespectsDuties()
    ensures RespectsDuties(Permitted)
  {
    forall info, req, read | Permitted(info, req, read) && req.action == Approve
      ensures info.createdBy != Some(req.subject.actor)
    {
      ApproverIsNotCreator(info, req, read);
    }
  }

  lemma ApproverIsNotCreator(info: TaskInfo, req: TaskRequest, read: TaskRow)
    requires Permitted(info, req, read) && req.action == Approve
    ensures info.createdBy != Some(req.subject.actor)
  {
    var row := BoardRow(info.id, info.createdBy, read.fields.assignee);
    ApprovalCode();
    ApprovalNeedsAnother(req.records, req.subject, CodeOf("review", "approve"), RowResource(req.subject, "review", row, row.assignee));
  }

  /** A planned write keeps the shape of an open or claimed task, and a completed one is never written. */
  lemma PlanKeepsTaskOk(authorizer: Authorizer, info: TaskInfo, req: TaskRequest, read: TaskRow)
    requires RespectsDuties(authorizer)
    requires TaskOk(info, read.fields) && PlanTask(authorizer, info, req, Some(read)).Ok?
    ensures TaskOk(info, PlanTask(authorizer, info, req, Some(read)).value)
    ensures read.fields.status != TaskStatus.Completed
    ensures req.precondition == Ok(Some(read.version))
  {
  }

  /** Planning CLAIMED takes a claim of one's own or a hand-over to a member. */
  lemma PlansThatClaim(authorizer: Authorizer, info: TaskInfo, req: TaskRequest, read: TaskRow)
    requires PlanTask(authorizer, info, req, Some(read)).Ok? && PlanTask(authorizer, info, req, Some(read)).value.status == Claimed
    ensures Entitled(authorizer, info, req, read, PlanTask(authorizer, info, req, Some(read)).value)
  {
  }

  predicate Entitled(authorizer: Authorizer, info: TaskInfo, req: TaskRequest, before: TaskRow, f: TaskFields) {
    && authorizer(info, req, before) && f.lease == Some(req.now + CLAIM_LEASE)
    && (|| (req.action == Claim && f.assignee == Some(req.subject.actor))
        || (req.action == Assign && f.assignee == req.target && req.targetIsMember))
  }

  /** Planning COMPLETED takes an action that decides. */
  lemma PlansThatComplete(authorizer: Authorizer, info: TaskInfo, req: TaskRequest, read: TaskRow)
    requires PlanTask(authorizer, info, req, Some(read)).Ok?
    requires PlanTask(authorizer, info, req, Some(read)).value.status == TaskStatus.Completed
    ensures Decided(authorizer, info, req, read, PlanTask(authorizer, info, req, Some(read)).value)
  {
  }

  predicate Decided(authorizer: Authorizer, info: TaskInfo, req: TaskRequest, before: TaskRow, f: TaskFields) {
    && authorizer(info, req, before)
    && f.updatedBy == Some(req.subject.actor) && f.assignee == before.fields.assignee
    && (|| (f.decision == Some(APPROVE) && req.action == Approve)
        || (f.decision == Some(REJECT) && req.action == Reject)
        || (f.decision == Some(EDIT_AND_APPROVE) && req.action == Submit && before.fields.status == Claimed))
  }

  lemma OverlayOnRead(read: TaskFields, pending: TaskFields)
    ensures Overlay(read, read, pending) == pending
  {
  }

  /** Actions that always change the row they are planned on. */
  predicate AlwaysMoves(action: TaskAction) {
    action in {Claim, Submit, Approve, Reject}
  }

  lemma MovesChange(authorizer: Authorizer, info: TaskInfo, req: TaskRequest, read: TaskRow)
    requires AlwaysMoves(req.action) && PlanTask(authorizer, info, req, Some(read)).Ok?
    ensures PlanTask(authorizer, info, req, Some(read)).value.status != read.fields.status
  {
  }
}
