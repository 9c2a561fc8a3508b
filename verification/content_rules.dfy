/** What each request on a run does, action by action, without the transition table or the code that reads it. */
module ContentRules {
  import opened Wrappers
  import opened StateMachine
  import opened OptimisticLock
  import opened ContentRuns

  /** The statuses an action may start from. */
  predicate MayStart(action: RunAction, status: ContentStatus) {
    match action
    case Pause => status == Running || status == WaitingHuman
    case Resume => status == Paused
    case Rerun => status == Failed || status == ContentStatus.Completed
    case Cancel => status != ContentStatus.Completed && status != ContentStatus.Cancelled
    case Export | Collect => true
    case OtherRunAction => false
  }

  /** A request is accepted on a row when it is permitted, its If-Match names the row's version, and the status allows it. */
  predicate Accepted(req: ActionRequest, row: RunRow) {
    match req
    case LinkMaterial(materialExists, _, permitted) => materialExists && permitted
    case Act(action, precondition, _, permitted, _) =>
      permitted && precondition == Ok(Some(row.version)) && MayStart(action, row.fields.status)
  }

  /** What an accepted request makes of the fields. */
  function Intended(req: ActionRequest, f: RunFields): RunFields {
    match req
    case LinkMaterial(_, actor, _) => f.(updatedBy := actor, updatedAtLabel := "刚刚")
    case Act(action, _, actor, _, now) =>
      match action
      case Pause => RunFields(Paused, "已暂停", "warning", f.content, f.exportedAt, actor, "刚刚")
      case Resume => RunFields(Running, "运行中", "info", f.content, f.exportedAt, actor, "刚刚")
      case Rerun => RunFields(Running, "运行中", "info", f.content, f.exportedAt, actor, "刚刚")
      case Cancel => RunFields(ContentStatus.Cancelled, "已取消", "neutral", f.content, f.exportedAt, actor, "刚刚")
      case Export => f.(exportedAt := Some(now), updatedBy := actor)
      case Collect => f.(updatedBy := actor)
      case OtherRunAction => f
  }

  /** The code plans a write exactly for accepted requests, and exactly the intended one. */
  lemma PlansAsIntended(req: ActionRequest, row: RunRow)
    ensures PlanAction(req, Some(row)).Ok? <==> Accepted(req, row)
    ensures Accepted(req, row) ==> PlanAction(req, Some(row)) == Ok(Intended(req, row.fields))
  {
  }

  /** A request that read `read` gets Ok exactly when it is accepted there and either the row has not moved or there
      is nothing to change; then it is shown the intended fields, which are stored under the next version when
      they are new. In every other case the row stays as it is. */
  lemma FinishesIff(req: ActionRequest, read: RunRow, stored: RunRow)
    ensures var (row, result) := FinishAction(req, read, stored);
            var after := Intended(req, read.fields);
            && (result.Ok? <==> Accepted(req, read) && (stored.version == read.version || after == read.fields))
            && (result.Ok? ==> result.value == Versioned(after, if after == read.fields then read.version else read.version + 1))
            && (result.Ok? && after != read.fields && stored == read ==> row == result.value)
            && (result.Err? || after == read.fields ==> row == stored)
  {
    PlansAsIntended(req, read);
    OverlayOnRead(read.fields, Intended(req, read.fields));
  }

  /** A write that goes through sets the columns it changes and leaves the others as they are stored. */
  lemma WritesItsColumns(req: ActionRequest, read: RunRow, stored: RunRow)
    requires FinishAction(req, read, stored).1.Ok? && Intended(req, read.fields) != read.fields
    ensures var before, after, there, row := read.fields, Intended(req, read.fields), stored.fields, FinishAction(req, read, stored).0.fields;
            && row.status == (if after.status == before.status then there.status else after.status)
            && row.statusLabel == (if after.statusLabel == before.statusLabel then there.statusLabel else after.statusLabel)
            && row.tone == (if after.tone == before.tone then there.tone else after.tone)
            && row.content == (if after.content == before.content then there.content else after.content)
            && row.exportedAt == (if after.exportedAt == before.exportedAt then there.exportedAt else after.exportedAt)
            && row.updatedBy == (if after.updatedBy == before.updatedBy then there.updatedBy else after.updatedBy)
            && row.updatedAtLabel == (if after.updatedAtLabel == before.updatedAtLabel then there.updatedAtLabel else after.updatedAtLabel)
  {
    PlansAsIntended(req, read);
  }

  /** Why a request is refused: the first of these that applies. */
  lemma RefusedAs(req: ActionRequest, read: RunRow, stored: RunRow)
    ensures var result := FinishAction(req, read, stored).1;
            match req
            case LinkMaterial(materialExists, _, permitted) =>
              && (!materialExists ==> result == Err(NotFound))
              && (materialExists && !permitted ==> result == Err(Forbidden))
              && (Accepted(req, read) && result.Err? ==> result == Err(LostRace))
            case Act(action, precondition, _, permitted, _) =>
              if action == OtherRunAction then result == Err(UnsupportedAction)
              else if precondition.Err? then result == Err(precondition.error)
              else if precondition.value.None? then result == Err(PreconditionRequired)
              else if precondition.value.value != read.version then result == Err(StalePrecondition)
              else if !permitted then result == Err(Forbidden)
              else if !MayStart(action, read.fields.status) then result == Err(IllegalTransition)
              else result.Err? ==> result == Err(LostRace)
  {
  }

  /** The HTTP status of each refusal. */
  lemma RefusalStatus(error: ActionError)
    ensures error.StatusCode() == 428 <==> error == PreconditionRequired
    ensures error.StatusCode() == 412 <==> error == StalePrecondition
    ensures error.StatusCode() == 409 <==> error == IllegalTransition || error == LostRace
    ensures error.StatusCode() == 404 <==> error == NotFound
    ensures error.StatusCode() == 403 <==> error == Forbidden
    ensures error.StatusCode() == 400 <==> error == UnsupportedAction || error == InvalidPrecondition || error == InvalidAssignee
  {
  }

  /** A run that is not there. */
  lemma MissingRun(req: ActionRequest)
    ensures PlanAction(req, None) ==
            if req.LinkMaterial? then Err(NotFound)
            else if req.action == OtherRunAction then Err(UnsupportedAction)
            else if req.precondition.Err? then Err(req.precondition.error)
            else Err(NotFound)
  {
  }
}
