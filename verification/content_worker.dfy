/** One worker execution in the midst of everything else (apps/worker/tasks.py). */
module ContentWorker {
  import opened Wrappers
  import opened StateMachine
  import opened OptimisticLock
  import opened ContentRuns

  datatype Outcome = CompletedRun | FailedRun | NotFoundRun | SkippedTerminal | Raised

  /** `_TERMINAL`. */
  predicate IsTerminal(status: ContentStatus) {
    status == ContentStatus.Completed || status == ContentStatus.Cancelled
  }

  /** What `_set_status` assigns. */
  function StatusWrite(f: RunFields, status: ContentStatus, actor: Id): RunFields {
    WithStatus(f, status).(updatedBy := actor)
  }

  /** What one of the worker's transactions assigns. */
  datatype Change = StatusChange(status: ContentStatus, actor: Id) | TextChange(text: string) {
    function Apply(f: RunFields): RunFields {
      match this
      case StatusChange(status, actor) => StatusWrite(f, status, actor)
      case TextChange(text) => f.(content := Some(text))
    }
  }

  /** The surroundings of an execution: what others make of the row before each of its steps, and the steps that
      raise. Steps count down from 11, the initial load. */
  datatype World = World(meanwhile: (nat, Option<RunRow>) -> Option<RunRow>, faults: set<nat>)

  /** Nobody else at work, and nothing raises. */
  const QUIET := World((step: nat, row: Option<RunRow>) => row, {})

  function WriteBack(stored: Option<RunRow>, read: RunRow, pending: RunFields): (Option<RunRow>, bool) {
    match stored
    case None => (None, pending == read.fields)
    case Some(row) =>
      match FlushRun(row, read, pending)
      case Stale => (stored, false)
      case Flushed(after, _) => (Some(after), true)
  }

  /** A transaction that selects the row in one step and flushes in the next; false where it raises. */
  function Transact(world: World, step: nat, stored: Option<RunRow>, change: Change): (Option<RunRow>, bool)
    requires step > 0
  {
    var seen := world.meanwhile(step, stored);
    if step in world.faults then (seen, false)
    else if seen.None? then (None, true)
    else
      var later := world.meanwhile(step - 1, seen);
      if step - 1 in world.faults then (later, false) else WriteBack(later, seen.value, change.Apply(seen.value.fields))
  }

  /** The `except` branch. */
  function Fail(world: World, stored: Option<RunRow>, actor: Id): (Option<RunRow>, Outcome) {
    var (after, written) := Transact(world, 2, stored, StatusChange(Failed, actor));
    (after, if written then FailedRun else Raised)
  }

  /** The `try` branch; `gateway` is the generated text, or `None` when the model call raises. */
  function Generate(world: World, stored: Option<RunRow>, actor: Id, gateway: Option<string>): (Option<RunRow>, Outcome) {
    var read := world.meanwhile(8, stored);
    if 8 in world.faults then Fail(world, read, actor)
    else if read.None? then (None, NotFoundRun)
    else
      var answered := world.meanwhile(7, read);
      if gateway.None? then Fail(world, answered, actor)
      else
        var (texted, kept) := Transact(world, 6, answered, TextChange(gateway.value));
        if !kept then Fail(world, texted, actor)
        else
          var (completed, written) := Transact(world, 4, texted, StatusChange(ContentStatus.Completed, actor));
          if written then (completed, CompletedRun) else Fail(world, completed, actor)
  }

  /** The whole execution. */
  function RunAmid(world: World, stored: Option<RunRow>, actor: Id, gateway: Option<string>): (Option<RunRow>, Outcome) {
    var loaded := world.meanwhile(11, stored);
    if 11 in world.faults then (loaded, Raised)
    else if loaded.None? then (None, NotFoundRun)
    else if IsTerminal(loaded.value.fields.status) then (loaded, SkippedTerminal)
    else
      var (started, written) := Transact(world, 10, loaded, StatusChange(Running, actor));
      if written then Generate(world, started, actor, gateway) else (started, Raised)
  }

  method OthersAct(table: ContentRunTable, world: World, step: nat)
    modifies table
    ensures table.row == world.meanwhile(step, old(table.row))
  {
    table.row := world.meanwhile(step, table.row);
  }

  /** `_set_status`; false where it raises. */
  method SetStatus(table: ContentRunTable, status: ContentStatus, actor: Id, world: World, step: nat) returns (written: bool)
    requires step > 0
    modifies table
    ensures (table.row, written) == Transact(world, step, old(table.row), StatusChange(status, actor))
  {
    OthersAct(table, world, step);
    if step in world.faults {
      return false;
    }
    var run := table.Select();
    if run == null {
      return true;
    }
    run.ApplyStatus(status);
    run.updatedBy := actor;
    OthersAct(table, world, step - 1);
    if step - 1 in world.faults {
      return false;
    }
    var version;
    written, version := table.Flush(run);
  }

  /** The transaction that stores the generated text; false where it raises. */
  method SetContent(table: ContentRunTable, text: string, world: World, step: nat) returns (written: bool)
    requires step > 0
    modifies table
    ensures (table.row, written) == Transact(world, step, old(table.row), TextChange(text))
  {
    OthersAct(table, world, step);
    if step in world.faults {
      return false;
    }
    var run := table.Select();
    if run == null {
      return true;
    }
    run.content := Some(text);
    OthersAct(table, world, step - 1);
    if step - 1 in world.faults {
      return false;
    }
    var version;
    written, version := table.Flush(run);
  }

  /** `_load_status`. */
  method LoadStatus(table: ContentRunTable) returns (status: Option<ContentStatus>)
    ensures status == match table.row
                      case None => None
                      case Some(row) => Some(row.fields.status)
  {
    var run := table.Select();
    status := if run == null then None else Some(run.status);
  }

  /** The body of the `try`: `None` where it raises. */
  method TryGenerate(table: ContentRunTable, actor: Id, gateway: Option<string>, world: World) returns (outcome: Option<Outcome>)
    modifies table
    ensures var all := Generate(world, old(table.row), actor, gateway);
            if outcome.Some? then all == (table.row, outcome.value) else all == Fail(world, table.row, actor)
  {
    OthersAct(table, world, 8);
    if 8 in world.faults {
      return None;
    }
    var run := table.Select();
    if run == null {
      return Some(NotFoundRun);
    }
    OthersAct(table, world, 7);
    if gateway.None? {
      return None;
    }
    var written := SetContent(table, gateway.value, world, 6);
    if written {
      written := SetStatus(table, ContentStatus.Completed, actor, world, 4);
    }
    outcome := if written then Some(CompletedRun) else None;
  }

  /** `run_content_workflow`. */
  method RunContentWorkflow(table: ContentRunTable, actor: Id, gateway: Option<string>, world: World) returns (outcome: Outcome)
    modifies table
    ensures (table.row, outcome) == RunAmid(world, old(table.row), actor, gateway)
  {
    OthersAct(table, world, 11);
    if 11 in world.faults {
      return Raised;
    }
    var current := LoadStatus(table);
    if current.None? {
      return NotFoundRun;
    }
    if IsTerminal(current.value) {
      return SkippedTerminal;
    }
    var written := SetStatus(table, Running, actor, world, 10);
    if !written {
      return Raised;
    }
    var tried := TryGenerate(table, actor, gateway, world);
    if tried.Some? {
      return tried.value;
    }
    written := SetStatus(table, Failed, actor, world, 2);
    outcome := if written then FailedRun else Raised;
  }

  lemma QuietTransact(step: nat, row: RunRow, change: Change)
    requires step > 0
    ensures Transact(QUIET, step, Some(row), change) ==
            (Some(if change.Apply(row.fields) == row.fields then row else Versioned(change.Apply(row.fields), row.version + 1)), true)
  {
    OverlayOnRead(row.fields, change.Apply(row.fields));
  }

  /** Left alone on a run that is not finished, the worker finishes it with the generated text, or marks it
      FAILED and keeps the old text; either way label and tone follow and the version advances by 1 to 3. */
  lemma LoneWorkerFinishes(row: RunRow, actor: Id, gateway: Option<string>)
    requires !IsTerminal(row.fields.status)
    ensures var (after, outcome) := RunAmid(QUIET, Some(row), actor, gateway);
            after.Some? &&
            (gateway.Some? ==> outcome == CompletedRun && after.value.fields.status == ContentStatus.Completed &&
                               after.value.fields.content == gateway) &&
            (gateway.None? ==> outcome == FailedRun && after.value.fields.status == Failed &&
                               after.value.fields.content == row.fields.content) &&
            (after.value.fields.statusLabel, after.value.fields.tone) == ContentDisplay(after.value.fields.status) &&
            after.value.fields.updatedBy == actor &&
            row.version < after.value.version <= row.version + 3
  {
    QuietTransact(10, row, StatusChange(Running, actor));
    var started := Transact(QUIET, 10, Some(row), StatusChange(Running, actor)).0.value;
    if gateway.None? {
      QuietTransact(2, started, StatusChange(Failed, actor));
    } else {
      QuietTransact(6, started, TextChange(gateway.value));
      var texted := Transact(QUIET, 6, Some(started), TextChange(gateway.value)).0.value;
      QuietTransact(4, texted, StatusChange(ContentStatus.Completed, actor));
    }
  }
}
