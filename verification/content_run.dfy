/** Content-run rows, their optimistic lock, and the write actions on them
    (apps/api/repositories.py, src/aipy/shared/db/mixins.py). */
module ContentRuns {
  import opened Wrappers
  import opened StateMachine
  import opened Etag
  import opened OptimisticLock

  const JUST_NOW := "刚刚"

  /** The columns of a run that some transaction writes. */
  datatype RunFields = RunFields(
    status: ContentStatus,
    statusLabel: string,
    tone: string,
    content: Option<string>,
    exportedAt: Option<nat>,
    updatedBy: Id,
    updatedAtLabel: string)

  type RunRow = Versioned<RunFields>

  /** What `create_content_run` inserts; the version generator starts at 0. */
  function NewRun(actor: Id): RunRow {
    var (statusLabel, tone) := ContentDisplay(Running);
    Versioned(RunFields(Running, statusLabel, tone, None, None, actor, JUST_NOW), 0)
  }

  /** `_apply_status`. */
  function WithStatus(f: RunFields, status: ContentStatus): RunFields {
    var (statusLabel, tone) := ContentDisplay(status);
    f.(status := status, statusLabel := statusLabel, tone := tone, updatedAtLabel := JUST_NOW)
  }

  /** The columns of an UPDATE. */
  function Overlay(stored: RunFields, read: RunFields, pending: RunFields): RunFields {
    RunFields(
      Column(stored.status, read.status, pending.status),
      Column(stored.statusLabel, read.statusLabel, pending.statusLabel),
      Column(stored.tone, read.tone, pending.tone),
      Column(stored.content, read.content, pending.content),
      Column(stored.exportedAt, read.exportedAt, pending.exportedAt),
      Column(stored.updatedBy, read.updatedBy, pending.updatedBy),
      Column(stored.updatedAtLabel, read.updatedAtLabel, pending.updatedAtLabel))
  }

  function FlushRun(stored: RunRow, read: RunRow, pending: RunFields): FlushResult<RunFields> {
    Flush(Overlay, stored, read, pending)
  }

  /** One API write request; `precondition` is what `ParseExpectedVersion` made of its If-Match header and
      `permitted` is the authorizer's verdict, whatever policy gave it. */
  datatype ActionRequest =
    | Act(action: RunAction, precondition: Result<Option<nat>, ActionError>, actor: Id, permitted: bool, now: nat)
    | LinkMaterial(materialExists: bool, actor: Id, permitted: bool)

  /** What a request wants to write, given the row its session read. */
  function PlanAction(req: ActionRequest, read: Option<RunRow>): Result<RunFields, ActionError> {
    match req
    case LinkMaterial(materialExists, actor, permitted) =>
      if read.None? || !materialExists then Err(NotFound)
      else if !permitted then Err(Forbidden)
      else Ok(read.value.fields.(updatedBy := actor, updatedAtLabel := JUST_NOW))
    case Act(action, precondition, actor, permitted, now) =>
      if action !in CONTENT_TRANSITIONS && action != Export && action != Collect then
        Err(UnsupportedAction)
      else
        match precondition
        case Err(error) => Err(error)
        case Ok(expected) =>
          if read.None? then Err(NotFound)
          else
            var row := read.value;
            match RequireVersion(row.version, expected)
            case Some(error) => Err(error)
            case None =>
              if !permitted then Err(Forbidden)
              else if action == Export then Ok(row.fields.(exportedAt := Some(now), updatedBy := actor))
              else if action == Collect then Ok(row.fields.(updatedBy := actor))
              else
                match PlanContentTransition(action, row.fields.status)
                case None => Err(IllegalTransition)
                case Some(t) =>
                  Ok(row.fields.(status := t.status, statusLabel := t.statusLabel, tone := t.tone,
                                 updatedBy := actor, updatedAtLabel := JUST_NOW))
  }

  /** The rest of a request after its SELECT: what is stored afterwards and what the caller is told. */
  function FinishAction(req: ActionRequest, read: RunRow, stored: RunRow): (RunRow, Result<RunRow, ActionError>) {
    match PlanAction(req, Some(read))
    case Err(error) => (stored, Err(error))
    case Ok(pending) =>
      match FlushRun(stored, read, pending)
      case Stale => (stored, Err(LostRace))
      case Flushed(row, version) => (row, Ok(Versioned(pending, version)))
  }

  /** A run as the session holds it: attributes to assign, and the row they were loaded from. */
  class ContentRun {
    var status: ContentStatus
    var statusLabel: string
    var tone: string
    var content: Option<string>
    var exportedAt: Option<nat>
    var updatedBy: Id
    var updatedAtLabel: string
    const loaded: RunRow

    function Fields(): RunFields
      reads this
    {
      RunFields(status, statusLabel, tone, content, exportedAt, updatedBy, updatedAtLabel)
    }

    constructor (row: RunRow)
      ensures loaded == row && Fields() == row.fields
    {
      var f := row.fields;
      loaded, status, statusLabel, tone := row, f.status, f.statusLabel, f.tone;
      content, exportedAt, updatedBy, updatedAtLabel := f.content, f.exportedAt, f.updatedBy, f.updatedAtLabel;
    }

    method ApplyStatus(status: ContentStatus)
      modifies this
      ensures Fields() == WithStatus(old(Fields()), status)
    {
      var (statusLabel, tone) := ContentDisplay(status);
      this.status := status;
      this.statusLabel := statusLabel;
      this.tone := tone;
      updatedAtLabel := JUST_NOW;
    }
  }

  /** The stored row as one tenant's sessions see it; `None` when no row carries the code. */
  class ContentRunTable {
    var row: Option<RunRow>

    method Select() returns (run: ContentRun?)
      ensures row.None? <==> run == null
      ensures run != null ==> fresh(run) && run.loaded == row.value && run.Fields() == row.value.fields
    {
      if row.Some? {
        run := new ContentRun(row.value);
      } else {
        run := null;
      }
    }

    /** `session.flush()`; the result is false where SQLAlchemy raises StaleDataError, as it also does when the row
        is gone. */
    method Flush(run: ContentRun) returns (flushed: bool, version: nat)
      modifies this
      ensures row.None? <==> old(row).None?
      ensures old(row).None? ==> flushed == (run.Fields() == run.loaded.fields)
      ensures !flushed ==> row == old(row)
      ensures old(row).Some? ==>
                FlushRun(old(row.value), run.loaded, run.Fields()) ==
                if flushed then Flushed(row.value, version) else Stale
    {
      if run.Fields() == run.loaded.fields {
        return true, run.loaded.version;
      }
      if row.None? || row.value.version != run.loaded.version {
        return false, 0;
      }
      row := Some(Versioned(Overlay(row.value.fields, run.loaded.fields, run.Fields()), row.value.version + 1));
      return true, run.loaded.version + 1;
    }
  }

  /** The checks and attribute assignments of `apply_content_action` and `link_material_to_run`. */
  method AssignAction(run: ContentRun?, req: ActionRequest) returns (refusal: Option<ActionError>)
    requires run != null ==> run.Fields() == run.loaded.fields
    modifies run
    ensures run == null ==> PlanAction(req, None) == Err(refusal.GetOr(NotFound))
    ensures run != null && refusal.Some? ==>
              PlanAction(req, Some(run.loaded)) == Err(refusal.value) && run.Fields() == run.loaded.fields
    ensures run != null && refusal.None? ==> PlanAction(req, Some(run.loaded)) == Ok(run.Fields())
    ensures run == null ==> refusal.Some?
  {
    if req.LinkMaterial? {
      if run == null || !req.materialExists { return Some(NotFound); }
      if !req.permitted { return Some(Forbidden); }
      run.updatedAtLabel := JUST_NOW;
    } else {
      if req.action !in CONTENT_TRANSITIONS && req.action != Export && req.action != Collect {
        return Some(UnsupportedAction);
      }
      if req.precondition.Err? { return Some(req.precondition.error); }
      if run == null { return Some(NotFound); }
      refusal := RequireVersion(run.loaded.version, req.precondition.value);
      if refusal.Some? { return; }
      if !req.permitted { return Some(Forbidden); }
      if req.action == Export {
        run.exportedAt := Some(req.now);
      } else if req.action != Collect {
        var transition := PlanContentTransition(req.action, run.status);
        if transition.None? { return Some(IllegalTransition); }
        run.status := transition.value.status;
        run.statusLabel := transition.value.statusLabel;
        run.tone := transition.value.tone;
        run.updatedAtLabel := JUST_NOW;
      }
    }
    run.updatedBy := req.actor;
    return None;
  }

  /** `apply_content_action` and `link_material_to_run` from the point where the row has been selected. The
      stored row may have moved on since: nothing relates `table.row` to `run.loaded`. */
  method ApplyContentAction(table: ContentRunTable, run: ContentRun?, req: ActionRequest)
    returns (result: Result<RunRow, ActionError>)
    requires run != null ==> table.row.Some? && run.Fields() == run.loaded.fields
    modifies table, run
    ensures run == null ==> table.row == old(table.row) && result == Err(PlanAction(req, None).error)
    ensures run != null ==> table.row.Some?
    ensures run != null ==> (table.row.value, result) == FinishAction(req, run.loaded, old(table.row.value))
  {
    var refusal := AssignAction(run, req);
    if refusal.Some? { return Err(refusal.value); }
    var flushed, version := table.Flush(run);
    if !flushed { return Err(LostRace); }
    return Ok(Versioned(run.Fields(), version));
  }

  /** Requests that are guarded by If-Match and always change the status. */
  predicate IsTransition(req: ActionRequest) {
    req.Act? && req.action in CONTENT_TRANSITIONS
  }

  /** A transition that goes through was read at the version its If-Match names, and moved the status
      along a table entry, with label and tone to match. */
  lemma TransitionWrites(req: ActionRequest, read: RunRow)
    requires IsTransition(req) && PlanAction(req, Some(read)).Ok?
    ensures req.precondition == Ok(Some(read.version))
    ensures var f := PlanAction(req, Some(read)).value;
            f.status != read.fields.status && f.content == read.fields.content &&
            read.fields.status != ContentStatus.Cancelled &&
            (f.statusLabel, f.tone) == ContentDisplay(f.status) &&
            f.status in {Paused, Running, ContentStatus.Cancelled}
  {
  }

  /** Requests that are not transitions leave status, label, tone and content alone. */
  lemma SideEffectsKeepStatus(req: ActionRequest, read: RunRow)
    requires !IsTransition(req) && PlanAction(req, Some(read)).Ok?
    ensures var f := PlanAction(req, Some(read)).value;
            f.status == read.fields.status && f.statusLabel == read.fields.statusLabel &&
            f.tone == read.fields.tone && f.content == read.fields.content
  {
  }

  /** Overlaying onto the very row that was read writes exactly what was planned. */
  lemma OverlayOnRead(read: RunFields, pending: RunFields)
    ensures Overlay(read, read, pending) == pending
  {
  }
}
