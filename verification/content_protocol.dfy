/** API requests and worker executions interleaving on one content run. Every transaction is two steps, a
    read and a guarded flush, and any other step may come in between. */
module ContentProtocol {
  import opened Wrappers
  import opened StateMachine
  import opened OptimisticLock
  import opened ContentRuns
  import opened ContentWorker
  import opened ContentRules

  /** Who made a committed version. */
  datatype Cause =
    | Creation(actor: Id)
    | ByRequest(call: nat, req: ActionRequest)
    | ByStatus(target: Target, actor: Id)
    | ByContent(text: string)

  datatype Commit = Commit(row: RunRow, cause: Cause)

  datatype ApiCall = Pending(req: ActionRequest, read: RunRow) | Finished(req: ActionRequest, result: Result<RunRow, ActionError>)

  /** The three statuses a worker writes. */
  datatype Target = ToRunning | ToCompleted | ToFailed {
    function Status(): ContentStatus {
      match this
      case ToRunning => Running
      case ToCompleted => ContentStatus.Completed
      case ToFailed => Failed
    }

    /** Where the execution goes on when `_set_status` returns. */
    function WhenWritten(): Pc {
      match this
      case ToRunning => Reading
      case ToCompleted => Ended(CompletedRun)
      case ToFailed => Ended(FailedRun)
    }

    /** Where it goes on when `_set_status` raises: only the COMPLETED write is inside the `try`. */
    function WhenRaised(): Pc {
      if ToCompleted? then AtStatus(ToFailed) else Ended(Raised)
    }
  }

  /** Where a worker execution stands: before a transaction, or inside one, holding the row it selected. */
  datatype Pc =
    | Starting
    | AtStatus(target: Target)
    | HoldStatus(target: Target, read: RunRow)
    | Reading
    | Generating
    | AtContent(text: string)
    | HoldContent(text: string, read: RunRow)
    | Ended(outcome: Outcome)

  datatype Worker = Worker(actor: Id, pc: Pc)

  datatype System = System(log: seq<Commit>, calls: map<nat, ApiCall>, workers: map<nat, Worker>)

  /** A worker's turn: it goes on, the model answers, or whatever it is doing raises. */
  datatype Turn = Proceed | Generated(text: string) | Fault

  datatype Event =
    | Select(call: nat, req: ActionRequest)
    | Finish(call: nat)
    | Spawn(worker: nat, actor: Id)
    | Work(worker: nat, turn: Turn)

  function Created(actor: Id): System {
    System([Commit(NewRun(actor), Creation(actor))], map[], map[])
  }

  function Stored(log: seq<Commit>): RunRow
    requires log != []
  {
    log[|log| - 1].row
  }

  function Appended(log: seq<Commit>, row: RunRow, cause: Cause): (after: seq<Commit>)
    requires log != []
  {
    if row == Stored(log) then log else log + [Commit(row, cause)]
  }

  /** A worker's flush: a fault rolls the transaction back just as a stale version does. */
  function WorkerFlush(stored: RunRow, read: RunRow, pending: RunFields, turn: Turn): FlushResult<RunFields> {
    if turn.Fault? then Stale else FlushRun(stored, read, pending)
  }

  /** One turn of a worker over the stored row: its new position, and the row and cause it leaves behind. */
  function WorkTurn(stored: RunRow, w: Worker, turn: Turn): (Pc, RunRow, Cause) {
    var none := Creation(w.actor);
    match w.pc
    case Starting =>
      (if turn.Fault? then Ended(Raised)
       else if IsTerminal(stored.fields.status) then Ended(SkippedTerminal)
       else AtStatus(ToRunning), stored, none)
    case AtStatus(target) =>
      (if turn.Fault? then target.WhenRaised() else HoldStatus(target, stored), stored, none)
    case HoldStatus(target, read) =>
      (match WorkerFlush(stored, read, StatusWrite(read.fields, target.Status(), w.actor), turn)
       case Stale => (target.WhenRaised(), stored, none)
       case Flushed(row, _) => (target.WhenWritten(), row, ByStatus(target, w.actor)))
    case Reading =>
      (if turn.Fault? then AtStatus(ToFailed) else Generating, stored, none)
    case Generating =>
      (match turn
       case Fault => AtStatus(ToFailed)
       case Generated(text) => AtContent(text)
       case Proceed => Generating, stored, none)
    case AtContent(text) =>
      (if turn.Fault? then AtStatus(ToFailed) else HoldContent(text, stored), stored, none)
    case HoldContent(text, read) =>
      (match WorkerFlush(stored, read, read.fields.(content := Some(text)), turn)
       case Stale => (AtStatus(ToFailed), stored, none)
       case Flushed(row, _) => (AtStatus(ToCompleted), row, ByContent(text)))
    case Ended(_) =>
      (w.pc, stored, none)
  }

  function Step(s: System, e: Event): System
    requires s.log != []
  {
    match e
    case Select(c, req) =>
      if c in s.calls then s else s.(calls := s.calls[c := Pending(req, Stored(s.log))])
    case Finish(c) =>
      if c !in s.calls || s.calls[c].Finished? then s
      else
        var Pending(req, read) := s.calls[c];
        var (row, result) := FinishAction(req, read, Stored(s.log));
        s.(log := Appended(s.log, row, ByRequest(c, req)), calls := s.calls[c := Finished(req, result)])
    case Spawn(w, actor) =>
      if w in s.workers then s else s.(workers := s.workers[w := Worker(actor, Starting)])
    case Work(w, turn) =>
      if w !in s.workers then s
      else
        var (pc, row, cause) := WorkTurn(Stored(s.log), s.workers[w], turn);
        s.(log := Appended(s.log, row, cause), workers := s.workers[w := Worker(s.workers[w].actor, pc)])
  }

  /** Every interleaving is the run of some list of events. */
  function Run(s: System, events: seq<Event>): (after: System)
    requires s.log != []
    ensures after.log != []
    decreases |events|
  {
    if events == [] then s else Run(Step(s, events[0]), events[1..])
  }

  /** The fields a committed write gives when it is run on `before` alone. */
  function Effect(cause: Cause, before: RunRow): RunFields {
    match cause
    case Creation(_) => before.fields
    case ByRequest(_, req) =>
      (match PlanAction(req, Some(before))
       case Err(_) => before.fields
       case Ok(pending) => pending)
    case ByStatus(target, actor) => StatusWrite(before.fields, target.Status(), actor)
    case ByContent(text) => before.fields.(content := Some(text))
  }

  /** What is true of every version a run ever has. */
  predicate RowOk(f: RunFields) {
    && (f.statusLabel, f.tone) == ContentDisplay(f.status)
    && f.status != Draft && f.status != WaitingHuman
    && (f.status == ContentStatus.Completed ==> f.content.Some?)
  }

  ghost predicate LogOk(log: seq<Commit>) {
    && log != []
    && log[0].cause.Creation? && log[0].row == NewRun(log[0].cause.actor)
    && (forall i | 0 <= i < |log| :: log[i].row.version == i && RowOk(log[i].row.fields))
    && (forall i | 0 < i < |log| :: log[i].row.fields == Effect(log[i].cause, log[i - 1].row))
    && (forall i | 0 < i < |log| :: log[i].row.fields != log[i - 1].row.fields)
    && (forall i | 0 < i < |log| && log[i - 1].row.fields.content.Some? :: log[i].row.fields.content.Some?)
  }

  /** A selected row is one of the versions in the log. */
  predicate Held(log: seq<Commit>, read: RunRow) {
    read.version < |log| && log[read.version].row == read
  }

  predicate CallOk(log: seq<Commit>, c: nat, call: ApiCall) {
    match call
    case Pending(_, read) => Held(log, read)
    case Finished(req, result) =>
      IsTransition(req) && result.Ok? ==>
        var v := result.value.version;
        0 < v < |log| && log[v] == Commit(result.value, ByRequest(c, req)) &&
        PlanAction(req, Some(log[v - 1].row)).Ok?
  }

  predicate PcOk(log: seq<Commit>, pc: Pc)
    requires log != []
  {
    && (pc.HoldStatus? || pc.HoldContent? ==> Held(log, pc.read))
    && ((pc.AtStatus? || pc.HoldStatus?) && pc.target.ToCompleted? ==> Stored(log).fields.content.Some?)
  }

  ghost predicate Inv(s: System) {
    && LogOk(s.log)
    && (forall c | c in s.calls :: CallOk(s.log, c, s.calls[c]))
    && (forall w | w in s.workers :: PcOk(s.log, s.workers[w].pc))
  }

  /** Because versions name rows, a flush that changes something was planned on the row it replaces. */
  lemma FlushExact(log: seq<Commit>, read: RunRow, pending: RunFields)
    requires LogOk(log) && Held(log, read)
    ensures var flush := FlushRun(Stored(log), read, pending);
            flush.Flushed? ==>
              if pending == read.fields then flush.row == Stored(log) && flush.version == read.version
              else read == Stored(log) && flush.row == Versioned(pending, |log|) && flush.version == |log|
  {
    if pending != read.fields && read.version == Stored(log).version {
      OverlayOnRead(read.fields, pending);
    }
  }

  /** `after` is `log` with commits appended. */
  ghost predicate Extends(log: seq<Commit>, after: seq<Commit>) {
    && log != [] && |log| <= |after|
    && (forall i | 0 <= i < |log| :: after[i] == log[i])
    && (Stored(log).fields.content.Some? ==> Stored(after).fields.content.Some?)
  }

  lemma CarryCall(log: seq<Commit>, after: seq<Commit>, c: nat, call: ApiCall)
    requires Extends(log, after) && CallOk(log, c, call)
    ensures CallOk(after, c, call)
  {
  }

  lemma CarryPc(log: seq<Commit>, after: seq<Commit>, pc: Pc)
    requires Extends(log, after) && PcOk(log, pc)
    ensures PcOk(after, pc)
  {
  }

  /** Appending a planned row keeps the log. */
  lemma AppendKeeps(log: seq<Commit>, row: RunRow, cause: Cause)
    requires LogOk(log)
    requires row.version == |log| && RowOk(row.fields) && row.fields != Stored(log).fields
    requires row.fields == Effect(cause, Stored(log))
    requires Stored(log).fields.content.Some? ==> row.fields.content.Some?
    ensures var after := Appended(log, row, cause);
            LogOk(after) && Extends(log, after) && after == log + [Commit(row, cause)]
  {
    var after := log + [Commit(row, cause)];
    forall i | 0 < i < |after|
      ensures after[i].row.fields == Effect(after[i].cause, after[i - 1].row)
      ensures after[i].row.fields != after[i - 1].row.fields
      ensures after[i - 1].row.fields.content.Some? ==> after[i].row.fields.content.Some?
    {
      assert after[i - 1] == log[i - 1];
      if i < |log| {
        assert after[i] == log[i];
      }
    }
  }

  /** A finished request commits what it planned on the very row it replaces, or nothing. */
  lemma FinishKeeps(log: seq<Commit>, c: nat, req: ActionRequest, read: RunRow)
    requires LogOk(log) && Held(log, read)
    ensures var (row, result) := FinishAction(req, read, Stored(log));
            var after := Appended(log, row, ByRequest(c, req));
            LogOk(after) && Extends(log, after) && CallOk(after, c, Finished(req, result))
  {
    match PlanAction(req, Some(read))
    case Err(_) =>
    case Ok(pending) =>
      FlushExact(log, read, pending);
      if IsTransition(req) {
        TransitionWrites(req, read);
      } else {
        SideEffectsKeepStatus(req, read);
      }
      if pending != read.fields && read == Stored(log) {
        AppendKeeps(log, Versioned(pending, |log|), ByRequest(c, req));
      }
  }

  /** So does a worker's flush of a status ... */
  lemma StatusTurnKeeps(log: seq<Commit>, w: Worker, turn: Turn)
    requires LogOk(log) && PcOk(log, w.pc) && w.pc.HoldStatus?
    ensures TurnOk(log, w, turn)
  {
    var (pc, row, cause) := WorkTurn(Stored(log), w, turn);
    FlushExact(log, w.pc.read, StatusWrite(w.pc.read.fields, w.pc.target.Status(), w.actor));
    if row != Stored(log) {
      AppendKeeps(log, row, cause);
    }
  }

  /** ... or of the text. */
  lemma ContentTurnKeeps(log: seq<Commit>, w: Worker, turn: Turn)
    requires LogOk(log) && PcOk(log, w.pc) && w.pc.HoldContent?
    ensures TurnOk(log, w, turn)
  {
    var (pc, row, cause) := WorkTurn(Stored(log), w, turn);
    FlushExact(log, w.pc.read, w.pc.read.fields.(content := Some(w.pc.text)));
    if row != Stored(log) {
      AppendKeeps(log, row, cause);
    } else {
      HeldContentStays(log, w.pc.read);
    }
  }

  ghost predicate TurnOk(log: seq<Commit>, w: Worker, turn: Turn)
    requires log != []
  {
    var (pc, row, cause) := WorkTurn(Stored(log), w, turn);
    var after := Appended(log, row, cause);
    LogOk(after) && Extends(log, after) && PcOk(after, pc)
  }

  lemma TurnKeeps(log: seq<Commit>, w: Worker, turn: Turn)
    requires LogOk(log) && PcOk(log, w.pc)
    ensures TurnOk(log, w, turn)
  {
    if w.pc.HoldStatus? {
      StatusTurnKeeps(log, w, turn);
    } else if w.pc.HoldContent? {
      ContentTurnKeeps(log, w, turn);
    }
  }

  /** A text that some earlier version carried is never lost. */
  lemma {:induction false} ContentStays(log: seq<Commit>, i: nat, j: nat)
    requires LogOk(log) && i <= j < |log| && log[i].row.fields.content.Some?
    ensures log[j].row.fields.content.Some?
    decreases j - i
  {
    if i < j {
      assert log[i + 1 - 1] == log[i];
      ContentStays(log, i + 1, j);
    }
  }

  lemma HeldContentStays(log: seq<Commit>, read: RunRow)
    requires LogOk(log) && Held(log, read)
    ensures read.fields.content.Some? ==> Stored(log).fields.content.Some?
  {
    if read.fields.content.Some? {
      ContentStays(log, read.version, |log| - 1);
    }
  }

  lemma CarryAll(s: System, after: seq<Commit>)
    requires Inv(s) && Extends(s.log, after)
    ensures forall c | c in s.calls :: CallOk(after, c, s.calls[c])
    ensures forall w | w in s.workers :: PcOk(after, s.workers[w].pc)
  {
    forall c | c in s.calls ensures CallOk(after, c, s.calls[c]) {
      CarryCall(s.log, after, c, s.calls[c]);
    }
    forall w | w in s.workers ensures PcOk(after, s.workers[w].pc) {
      CarryPc(s.log, after, s.workers[w].pc);
    }
  }

  lemma FinishStepKeeps(s: System, c: nat)
    requires Inv(s) && c in s.calls && s.calls[c].Pending?
    ensures Inv(Step(s, Finish(c))) && Extends(s.log, Step(s, Finish(c)).log)
  {
    FinishKeeps(s.log, c, s.calls[c].req, s.calls[c].read);
    CarryAll(s, Step(s, Finish(c)).log);
  }

  lemma WorkStepKeeps(s: System, w: nat, turn: Turn)
    requires Inv(s) && w in s.workers
    ensures Inv(Step(s, Work(w, turn))) && Extends(s.log, Step(s, Work(w, turn)).log)
  {
    TurnKeeps(s.log, s.workers[w], turn);
    CarryAll(s, Step(s, Work(w, turn)).log);
  }

  /** Every step of every participant keeps the invariant and only ever extends the history. */
  lemma StepKeeps(s: System, e: Event)
    requires Inv(s)
    ensures Inv(Step(s, e)) && Extends(s.log, Step(s, e).log)
  {
    match e
    case Select(_, _) =>
    case Spawn(_, _) =>
    case Finish(c) =>
      if c in s.calls && s.calls[c].Pending? {
        FinishStepKeeps(s, c);
      }
    case Work(w, turn) =>
      if w in s.workers {
        WorkStepKeeps(s, w, turn);
      }
  }

  lemma {:induction false} RunKeeps(s: System, events: seq<Event>)
    requires Inv(s)
    ensures Inv(Run(s, events))
    decreases |events|
  {
    if events != [] {
      StepKeeps(s, events[0]);
      RunKeeps(Step(s, events[0]), events[1..]);
    }
  }

  /** In every reachable state COMPLETED means that a text has been stored, label and tone are the display
      entry of the status, and the status is neither DRAFT nor WAITING_HUMAN. */
  lemma ReachableRuns(actor: Id, events: seq<Event>)
    ensures var f := Stored(Run(Created(actor), events).log).fields;
            (f.status == ContentStatus.Completed ==> f.content.Some?) &&
            (f.statusLabel, f.tone) == ContentDisplay(f.status) &&
            f.status != Draft && f.status != WaitingHuman
  {
    RunKeeps(Created(actor), events);
  }

  /** No lost update: versions count up by one from 0, and each committed version is what its cause makes of
      exactly the version before it, so the interleaving has the history of a serial run. */
  lemma HistoryIsSerial(actor: Id, events: seq<Event>, i: nat)
    requires i < |Run(Created(actor), events).log|
    ensures var log := Run(Created(actor), events).log;
            log[i].row.version == i &&
            (i > 0 ==> log[i].row.fields == Effect(log[i].cause, log[i - 1].row) && log[i].row.fields != log[i - 1].row.fields)
  {
    RunKeeps(Created(actor), events);
  }

  /** Whether a write leaves the documented state graph: a rerun of a completed run, or a worker's status write over
      a run that was cancelled or completed meanwhile, or over one that is no longer RUNNING. */
  predicate LeavesDesign(cause: Cause, before: ContentStatus) {
    || (cause.ByRequest? && cause.req.Act? && cause.req.action == Rerun && before == ContentStatus.Completed)
    || (cause.ByStatus? && (IsTerminal(before) || (!cause.target.ToRunning? && before != Running)))
  }

  lemma WriteFollowsDesignIff(cause: Cause, before: RunRow)
    requires RowOk(before.fields) && Effect(cause, before).status != before.fields.status
    ensures !DesignAllows(before.fields.status, Effect(cause, before).status) <==> LeavesDesign(cause, before.fields.status)
  {
    if cause.ByRequest? {
      if IsTransition(cause.req) {
        PlansFollowDesignExcept(cause.req.action, before.fields.status);
      } else if PlanAction(cause.req, Some(before)).Ok? {
        SideEffectsKeepStatus(cause.req, before);
      }
    }
  }

  /** In every run, a change of status is an arrow of the documented graph except exactly where its write was a
      rerun of a COMPLETED run, or a worker's over CANCELLED or COMPLETED, or a worker's COMPLETED or FAILED over a
      run that is not RUNNING. */
  lemma HistoryFollowsDesignIff(actor: Id, events: seq<Event>, i: nat)
    requires 0 < i < |Run(Created(actor), events).log|
    ensures var log := Run(Created(actor), events).log;
            var before, after := log[i - 1].row.fields.status, log[i].row.fields.status;
            before != after ==> (!DesignAllows(before, after) <==> LeavesDesign(log[i].cause, before))
  {
    RunKeeps(Created(actor), events);
    var log := Run(Created(actor), events).log;
    if log[i - 1].row.fields.status != log[i].row.fields.status {
      WriteFollowsDesignIff(log[i].cause, log[i - 1].row);
    }
  }

  /** The fields a worker's status write leaves, target by target. */
  function Marked(target: Target, actor: Id, f: RunFields): RunFields {
    match target
    case ToRunning => RunFields(Running, "运行中", "info", f.content, f.exportedAt, actor, "刚刚")
    case ToCompleted => RunFields(ContentStatus.Completed, "已完成", "success", f.content, f.exportedAt, actor, "刚刚")
    case ToFailed => RunFields(Failed, "需要处理", "danger", f.content, f.exportedAt, actor, "刚刚")
  }

  /** What made each version: an accepted request as its action intends, a worker's status with its display, or a
      text and nothing else. */
  predicate MadeAsNamed(before: RunFields, version: nat, made: Commit) {
    match made.cause
    case Creation(_) => false
    case ByRequest(_, req) => Accepted(req, Versioned(before, version)) && made.row.fields == Intended(req, before)
    case ByStatus(target, actor) => made.row.fields == Marked(target, actor, before)
    case ByContent(text) => made.row.fields == before.(content := Some(text))
  }

  lemma HistoryByName(actor: Id, events: seq<Event>, i: nat)
    requires i + 1 < |Run(Created(actor), events).log|
    ensures var log := Run(Created(actor), events).log;
            MadeAsNamed(log[i].row.fields, i, log[i + 1])
  {
    RunKeeps(Created(actor), events);
    var log := Run(Created(actor), events).log;
    assert log[i + 1 - 1] == log[i];
    if log[i + 1].cause.ByRequest? {
      PlansAsIntended(log[i + 1].cause.req, log[i].row);
    }
  }

  /** The first version, and what is in it. */
  lemma HistoryStarts(actor: Id, events: seq<Event>)
    ensures Run(Created(actor), events).log[..1] ==
            [Commit(Versioned(RunFields(Running, "运行中", "info", None, None, actor, "刚刚"), 0), Creation(actor))]
  {
    RunKeepsStart(Created(actor), events);
  }

  lemma {:induction false} RunKeepsStart(s: System, events: seq<Event>)
    requires s.log != []
    ensures Run(s, events).log[0] == s.log[0]
    decreases |events|
  {
    if events != [] {
      RunKeepsStart(Step(s, events[0]), events[1..]);
    }
  }

  predicate Won(s: System, c: nat) {
    c in s.calls && s.calls[c].Finished? && s.calls[c].result.Ok? && IsTransition(s.calls[c].req)
  }

  /** What a winner knows: it got the version right after the one its If-Match names, planned on exactly that
      one, and the row it was shown is the row that was stored. */
  predicate Committed(s: System, c: nat)
    requires Won(s, c)
  {
    var row, req := s.calls[c].result.value, s.calls[c].req;
    && 0 < row.version < |s.log| && s.log[row.version] == Commit(row, ByRequest(c, req))
    && req.precondition == Ok(Some(row.version - 1))
    && PlanAction(req, Some(s.log[row.version - 1].row)) == Ok(row.fields)
  }

  lemma WonIsCommitted(s: System, c: nat)
    requires Inv(s) && Won(s, c)
    ensures Committed(s, c)
  {
    assert CallOk(s.log, c, s.calls[c]);
    TransitionWrites(s.calls[c].req, s.log[s.calls[c].result.value.version - 1].row);
  }

  lemma WinnerCommitted(actor: Id, events: seq<Event>, c: nat)
    requires Won(Run(Created(actor), events), c)
    ensures Committed(Run(Created(actor), events), c)
  {
    RunKeeps(Created(actor), events);
    WonIsCommitted(Run(Created(actor), events), c);
  }

  /** Where winners leave the run, action by action. */
  lemma WinnersLandByName(actor: Id, events: seq<Event>, c: nat)
    requires Won(Run(Created(actor), events), c)
    ensures var s := Run(Created(actor), events);
            var row, req := s.calls[c].result.value, s.calls[c].req;
            && 0 < row.version < |s.log| && s.log[row.version].row == row
            && Accepted(req, s.log[row.version - 1].row) && row.fields == Intended(req, s.log[row.version - 1].row.fields)
            && (req.action == Pause ==> row.fields.status == Paused)
            && (req.action == Resume || req.action == Rerun ==> row.fields.status == Running)
            && (req.action == Cancel ==> row.fields.status == ContentStatus.Cancelled)
  {
    WinnerCommitted(actor, events, c);
    var s := Run(Created(actor), events);
    PlansAsIntended(s.calls[c].req, s.log[s.calls[c].result.value.version - 1].row);
  }

  /** Of any number of concurrent callers presenting the same If-Match for a transition, at most one is told Ok. */
  lemma OneWinnerPerVersion(actor: Id, events: seq<Event>, c1: nat, c2: nat)
    requires Won(Run(Created(actor), events), c1) && Won(Run(Created(actor), events), c2)
    requires var calls := Run(Created(actor), events).calls;
             calls[c1].req.precondition == calls[c2].req.precondition
    ensures c1 == c2
  {
    WinnerCommitted(actor, events, c1);
    WinnerCommitted(actor, events, c2);
  }

  /** Whether an execution can still move a CANCELLED or PAUSED row: it is past its initial load, or that load would
      not make it stop, and it has not ended; and if it is about to flush a status whose failure would end it, that
      flush would not be stale. */
  predicate CanStillWrite(stored: RunRow, w: Worker) {
    match w.pc
    case Starting => !IsTerminal(stored.fields.status)
    case Ended(_) => false
    case HoldStatus(target, read) =>
      || target.ToCompleted?
      || read.version == stored.version
      || (target.ToRunning? && StatusWrite(read.fields, Running, w.actor) == read.fields)
    case _ => true
  }

  function Status(s: System): ContentStatus
    requires s.log != []
  {
    Stored(s.log).fields.status
  }

  /** The statuses no execution writes that a run can be left in. */
  predicate AtRest(s: System)
    requires s.log != []
  {
    Status(s) == ContentStatus.Cancelled || Status(s) == Paused
  }

  ghost predicate NobodyWrites(s: System)
    requires s.log != []
  {
    forall w | w in s.workers :: !CanStillWrite(Stored(s.log), s.workers[w])
  }

  /** A step that neither starts an execution nor has to do with a requested transition. */
  predicate Unasked(s: System, e: Event) {
    match e
    case Select(_, req) => !IsTransition(req)
    case Finish(c) => c in s.calls ==> !IsTransition(s.calls[c].req)
    case Spawn(_, _) => false
    case Work(_, _) => true
  }

  predicate UnaskedRun(s: System, events: seq<Event>)
    requires s.log != []
    decreases |events|
  {
    events != [] ==> Unasked(s, events[0]) && UnaskedRun(Step(s, events[0]), events[1..])
  }

  ghost predicate StaysCancelled(s: System)
    requires s.log != []
  {
    forall events: seq<Event> :: Status(Run(s, events)) == ContentStatus.Cancelled
  }

  ghost predicate StaysPausedUnasked(s: System)
    requires s.log != []
  {
    forall events: seq<Event> | UnaskedRun(s, events) :: Status(Run(s, events)) == Paused
  }

  /** No request takes a run out of CANCELLED: on the stored row every transition is refused, and on an older
      one the flush is stale. Out of PAUSED only transitions do. */
  lemma FinishKeepsRest(s: System, c: nat)
    requires Inv(s) && AtRest(s) && NobodyWrites(s) && c in s.calls && s.calls[c].Pending?
    requires Status(s) == ContentStatus.Cancelled || !IsTransition(s.calls[c].req)
    ensures Status(Step(s, Finish(c))) == Status(s) && NobodyWrites(Step(s, Finish(c)))
  {
    var Pending(req, read) := s.calls[c];
    match PlanAction(req, Some(read))
    case Err(_) =>
    case Ok(pending) =>
      FlushExact(s.log, read, pending);
      if IsTransition(req) {
        TransitionWrites(req, read);
      } else {
        SideEffectsKeepStatus(req, read);
      }
  }

  /** An execution that cannot write leaves the row alone and still cannot afterwards. */
  lemma IdleTurn(log: seq<Commit>, w: Worker, turn: Turn)
    requires LogOk(log) && PcOk(log, w.pc) && !CanStillWrite(Stored(log), w)
    ensures var (pc, row, _) := WorkTurn(Stored(log), w, turn);
            row == Stored(log) && !CanStillWrite(row, Worker(w.actor, pc))
  {
    if w.pc.HoldStatus? {
      FlushExact(log, w.pc.read, StatusWrite(w.pc.read.fields, w.pc.target.Status(), w.actor));
    }
  }

  lemma WorkKeepsRest(s: System, w: nat, turn: Turn)
    requires Inv(s) && NobodyWrites(s) && w in s.workers
    ensures Step(s, Work(w, turn)).log == s.log && NobodyWrites(Step(s, Work(w, turn)))
  {
    IdleTurn(s.log, s.workers[w], turn);
  }

  lemma {:induction false} RunKeepsRest(s: System, events: seq<Event>)
    requires Inv(s) && AtRest(s) && NobodyWrites(s)
    requires Status(s) == ContentStatus.Cancelled || UnaskedRun(s, events)
    ensures Status(Run(s, events)) == Status(s)
    decreases |events|
  {
    if events != [] {
      var e := events[0];
      StepKeeps(s, e);
      if e.Finish? && e.call in s.calls && s.calls[e.call].Pending? {
        FinishKeepsRest(s, e.call);
      } else if e.Work? && e.worker in s.workers {
        WorkKeepsRest(s, e.worker, e.turn);
      }
      RunKeepsRest(Step(s, e), events[1..]);
    }
  }

  lemma RunFirst(s: System, w: nat, turn: Turn, rest: seq<Event>)
    requires s.log != []
    ensures Run(s, [Work(w, turn)] + rest) == Run(Step(s, Work(w, turn)), rest)
    ensures UnaskedRun(s, [Work(w, turn)] + rest) == UnaskedRun(Step(s, Work(w, turn)), rest)
  {
    assert ([Work(w, turn)] + rest)[1..] == rest;
  }

  /** The executions alone move the run. */
  predicate Moves(s: System, events: seq<Event>)
    requires s.log != []
  {
    UnaskedRun(s, events) && Status(Run(s, events)) != Status(s)
  }

  /** An execution about to select the row for a status write gets it through in two turns. */
  lemma StatusWriteHappens(s: System, w: nat) returns (events: seq<Event>)
    requires Inv(s) && AtRest(s) && w in s.workers && s.workers[w].pc.AtStatus?
    ensures Moves(s, events)
  {
    events := [Work(w, Proceed)] + ([Work(w, Proceed)] + []);
    RunFirst(s, w, Proceed, [Work(w, Proceed)] + []);
    RunFirst(Step(s, Work(w, Proceed)), w, Proceed, []);
    OverlayOnRead(Stored(s.log).fields,
                  StatusWrite(Stored(s.log).fields, s.workers[w].pc.target.Status(), s.workers[w].actor));
  }

  /** One turn that leaves the row alone and takes an execution to a status write. */
  lemma TurnThenWrite(s: System, w: nat, turn: Turn) returns (events: seq<Event>)
    requires Inv(s) && AtRest(s) && w in s.workers
    requires WorkTurn(Stored(s.log), s.workers[w], turn).0.AtStatus?
    requires WorkTurn(Stored(s.log), s.workers[w], turn).1 == Stored(s.log)
    ensures Moves(s, events)
  {
    StepKeeps(s, Work(w, turn));
    var rest := StatusWriteHappens(Step(s, Work(w, turn)), w);
    RunFirst(s, w, turn, rest);
    events := [Work(w, turn)] + rest;
  }

  /** An execution that holds the stored row, or whose flush would be empty. */
  lemma HeldWriteHappens(s: System, w: nat) returns (events: seq<Event>)
    requires Inv(s) && AtRest(s) && w in s.workers && CanStillWrite(Stored(s.log), s.workers[w])
    requires s.workers[w].pc.HoldStatus? && !s.workers[w].pc.target.ToCompleted?
    ensures Moves(s, events)
  {
    var pc := s.workers[w].pc;
    var pending := StatusWrite(pc.read.fields, pc.target.Status(), s.workers[w].actor);
    var t := Step(s, Work(w, Proceed));
    StepKeeps(s, Work(w, Proceed));
    FlushExact(s.log, pc.read, pending);
    if pc.read.version == Stored(s.log).version {
      OverlayOnRead(pc.read.fields, pending);
      RunFirst(s, w, Proceed, []);
      events := [Work(w, Proceed)] + [];
    } else {
      var rest := TurnThenWrite(t, w, Fault);
      RunFirst(s, w, Proceed, rest);
      events := [Work(w, Proceed)] + rest;
    }
  }

  lemma WriteHappens(s: System, w: nat) returns (events: seq<Event>)
    requires Inv(s) && AtRest(s) && w in s.workers && CanStillWrite(Stored(s.log), s.workers[w])
    ensures Moves(s, events)
  {
    var pc := s.workers[w].pc;
    if pc.AtStatus? {
      events := StatusWriteHappens(s, w);
    } else if pc.HoldStatus? && !pc.target.ToCompleted? {
      events := HeldWriteHappens(s, w);
    } else {
      events := TurnThenWrite(s, w, if pc.Starting? then Proceed else Fault);
    }
  }

  /** A cancelled run stays cancelled in every continuation exactly when no execution can still write. The
      right-hand side holds in particular when no execution is past its initial load. */
  lemma CancelledStaysIff(actor: Id, past: seq<Event>)
    requires Status(Run(Created(actor), past)) == ContentStatus.Cancelled
    ensures StaysCancelled(Run(Created(actor), past)) <==> NobodyWrites(Run(Created(actor), past))
  {
    var s := Run(Created(actor), past);
    RunKeeps(Created(actor), past);
    if NobodyWrites(s) {
      forall events: seq<Event> ensures Status(Run(s, events)) == ContentStatus.Cancelled {
        RunKeepsRest(s, events);
      }
    } else {
      var w :| w in s.workers && CanStillWrite(Stored(s.log), s.workers[w]);
      var events := WriteHappens(s, w);
    }
  }

  /** A paused run stays paused, as long as nobody asks for a transition and no execution is started, exactly when
      no execution can still write; one that has yet to load the run can, since only COMPLETED and CANCELLED stop it. */
  lemma PausedStaysIff(actor: Id, past: seq<Event>)
    requires Status(Run(Created(actor), past)) == Paused
    ensures StaysPausedUnasked(Run(Created(actor), past)) <==> NobodyWrites(Run(Created(actor), past))
  {
    var s := Run(Created(actor), past);
    RunKeeps(Created(actor), past);
    if NobodyWrites(s) {
      forall events: seq<Event> | UnaskedRun(s, events) ensures Status(Run(s, events)) == Paused {
        RunKeepsRest(s, events);
      }
    } else {
      var w :| w in s.workers && CanStillWrite(Stored(s.log), s.workers[w]);
      var events := WriteHappens(s, w);
    }
  }

  /** In particular a run cancelled while every execution has yet to load it, or has ended, stays cancelled. */
  lemma CancelledBeforeLoadStays(actor: Id, past: seq<Event>, future: seq<Event>)
    requires Status(Run(Created(actor), past)) == ContentStatus.Cancelled
    requires var workers := Run(Created(actor), past).workers;
             forall w | w in workers :: workers[w].pc.Starting? || workers[w].pc.Ended?
    ensures Status(Run(Run(Created(actor), past), future)) == ContentStatus.Cancelled
  {
    CancelledStaysIff(actor, past);
  }

  // ---- two runs in which an execution undoes a request ----

  /** A permitted request at version 0. */
  function AtVersion0(action: RunAction): ActionRequest {
    Act(action, Ok(Some(0)), 1, true, 0)
  }

  /** A new run with an execution that may have loaded it. */
  function Started(loaded: bool): System {
    var s := Step(Created(1), Spawn(0, 7));
    if loaded then Step(s, Work(0, Proceed)) else s
  }

  /** Then an action is requested. */
  function Requested(action: RunAction, loaded: bool): System {
    Step(Step(Started(loaded), Select(0, AtVersion0(action))), Finish(0))
  }

  /** Two turns of an execution that is about to set RUNNING set it, over whatever status. */
  lemma TwoTurnsToRunning(s: System, w: nat)
    requires s.log != [] && w in s.workers && s.workers[w].pc == AtStatus(ToRunning)
    ensures Status(Step(Step(s, Work(w, Proceed)), Work(w, Proceed))) == Running
  {
    OverlayOnRead(Stored(s.log).fields, StatusWrite(Stored(s.log).fields, Running, s.workers[w].actor));
  }

  lemma StartedState(loaded: bool)
    ensures Started(loaded) == System(Created(1).log, map[], map[0 := Worker(7, if loaded then AtStatus(ToRunning) else Starting)])
  {
  }

  lemma FirstRequest(action: RunAction)
    requires action == Cancel || action == Pause
    ensures var (row, _) := FinishAction(AtVersion0(action), NewRun(1), NewRun(1));
            row.version == 1 && row.fields.status == CONTENT_TRANSITIONS[action].1
  {
  }

  lemma RequestedState(action: RunAction, loaded: bool)
    requires action == Cancel || action == Pause
    ensures var s := Requested(action, loaded);
            Status(s) == CONTENT_TRANSITIONS[action].1 && s.workers == Started(loaded).workers
  {
    StartedState(loaded);
    FirstRequest(action);
  }

  /** The execution has loaded the run when it is cancelled, and two turns later it is RUNNING again. */
  lemma CancelUndone()
    ensures Status(Requested(Cancel, true)) == ContentStatus.Cancelled
    ensures Status(Step(Step(Requested(Cancel, true), Work(0, Proceed)), Work(0, Proceed))) == Running
  {
    StartedState(true);
    RequestedState(Cancel, true);
    TwoTurnsToRunning(Requested(Cancel, true), 0);
  }

  /** The execution has done nothing when the run is paused, and three turns later it is RUNNING again. */
  lemma PauseUndone()
    ensures Status(Requested(Pause, false)) == Paused
    ensures Status(Step(Step(Step(Requested(Pause, false), Work(0, Proceed)), Work(0, Proceed)), Work(0, Proceed))) == Running
  {
    StartedState(false);
    RequestedState(Pause, false);
    TwoTurnsToRunning(Step(Requested(Pause, false), Work(0, Proceed)), 0);
  }

  // ---- every execution ends ----

  /** How far an execution is from its end. */
  function TurnsLeft(pc: Pc): nat {
    match pc
    case Starting => 11
    case AtStatus(target) => if target.ToRunning? then 10 else if target.ToCompleted? then 4 else 2
    case HoldStatus(target, _) => if target.ToRunning? then 9 else if target.ToCompleted? then 3 else 1
    case Reading => 8
    case Generating => 7
    case AtContent(_) => 6
    case HoldContent(_, _) => 5
    case Ended(_) => 0
  }

  /** Every turn but one that waits for the model takes an execution nearer to its end, whatever the stored row. */
  lemma TurnsCount(stored: RunRow, w: Worker, turn: Turn)
    requires !w.pc.Ended? && !(w.pc.Generating? && turn.Proceed?)
    ensures TurnsLeft(WorkTurn(stored, w, turn).0) < TurnsLeft(w.pc)
  {
  }

  /** The turns of an execution in a run, without those after its end and those that wait for the model. */
  function TurnsTaken(s: System, events: seq<Event>, w: nat): nat
    requires s.log != []
    decreases |events|
  {
    if events == [] then 0
    else
      var e := events[0];
      var counts := e.Work? && e.worker == w && w in s.workers && !s.workers[w].pc.Ended? &&
                    !(s.workers[w].pc.Generating? && e.turn.Proceed?);
      (if counts then 1 else 0) + TurnsTaken(Step(s, e), events[1..], w)
  }

  function TurnsToGo(s: System, w: nat): nat {
    if w in s.workers then TurnsLeft(s.workers[w].pc) else 11
  }

  lemma {:induction false} TurnsAddUp(s: System, events: seq<Event>, w: nat)
    requires s.log != []
    ensures TurnsTaken(s, events, w) + TurnsToGo(Run(s, events), w) <= TurnsToGo(s, w)
    decreases |events|
  {
    if events != [] {
      var e := events[0];
      TurnsAddUp(Step(s, e), events[1..], w);
      if e.Work? && e.worker == w && w in s.workers && !s.workers[w].pc.Ended? && !(s.workers[w].pc.Generating? && e.turn.Proceed?) {
        TurnsCount(Stored(s.log), s.workers[w], e.turn);
      }
    }
  }

  /** Under every interleaving and whatever raises, an execution takes at most eleven turns besides its wait for the
      model, and has ended when it has taken them. */
  lemma ExecutionsEnd(actor: Id, events: seq<Event>, w: nat)
    ensures TurnsTaken(Created(actor), events, w) <= 11
    ensures var s := Run(Created(actor), events);
            w in s.workers && TurnsTaken(Created(actor), events, w) == 11 ==> s.workers[w].pc.Ended?
  {
    TurnsAddUp(Created(actor), events, w);
  }

  // ---- the worker's code takes these turns ----

  /** The surroundings of an execution of a run that is there. */
  datatype RunWorld = RunWorld(meanwhile: (nat, RunRow) -> RunRow, faults: set<nat>) {
    function Whole(): World {
      World((step: nat, row: Option<RunRow>) => if row.None? then None else Some(meanwhile(step, row.value)), faults)
    }
  }

  /** The turn an execution takes. */
  function NextTurn(pc: Pc, gateway: Option<string>, faults: set<nat>): Turn {
    if pc.Generating? then (if gateway.None? then Fault else Generated(gateway.value))
    else if TurnsLeft(pc) in faults then Fault
    else Proceed
  }

  /** An execution turn by turn up to its end, with others at the row before each turn. */
  function RunTurns(world: RunWorld, stored: RunRow, w: Worker, gateway: Option<string>): (RunRow, Outcome)
    decreases TurnsLeft(w.pc)
  {
    if w.pc.Ended? then (stored, w.pc.outcome)
    else
      var (pc, row, _) := WorkTurn(world.meanwhile(TurnsLeft(w.pc), stored), w, NextTurn(w.pc, gateway, world.faults));
      RunTurns(world, row, Worker(w.actor, pc), gateway)
  }

  /** The two turns of a status write are its transaction ... */
  lemma StatusTurns(world: RunWorld, stored: RunRow, actor: Id, target: Target, gateway: Option<string>)
    ensures var step := TurnsLeft(AtStatus(target));
            var (row, written) := Transact(world.Whole(), step, Some(stored), StatusChange(target.Status(), actor));
            row.Some? &&
            RunTurns(world, stored, Worker(actor, AtStatus(target)), gateway) ==
            RunTurns(world, row.value, Worker(actor, if written then target.WhenWritten() else target.WhenRaised()), gateway)
  {
    var step := TurnsLeft(AtStatus(target));
    var read := world.meanwhile(step, stored);
    if step !in world.faults {
      assert RunTurns(world, stored, Worker(actor, AtStatus(target)), gateway) ==
             RunTurns(world, read, Worker(actor, HoldStatus(target, read)), gateway);
    }
  }

  /** ... and so are those that store the text. */
  lemma TextTurns(world: RunWorld, stored: RunRow, actor: Id, text: string, gateway: Option<string>)
    ensures var (row, written) := Transact(world.Whole(), 6, Some(stored), TextChange(text));
            row.Some? &&
            RunTurns(world, stored, Worker(actor, AtContent(text)), gateway) ==
            RunTurns(world, row.value, Worker(actor, AtStatus(if written then ToCompleted else ToFailed)), gateway)
  {
    var read := world.meanwhile(6, stored);
    if 6 !in world.faults {
      assert RunTurns(world, stored, Worker(actor, AtContent(text)), gateway) ==
             RunTurns(world, read, Worker(actor, HoldContent(text, read)), gateway);
    }
  }

  lemma FailTurns(world: RunWorld, stored: RunRow, actor: Id, gateway: Option<string>)
    ensures var (row, outcome) := RunTurns(world, stored, Worker(actor, AtStatus(ToFailed)), gateway);
            (Some(row), outcome) == Fail(world.Whole(), Some(stored), actor)
  {
    StatusTurns(world, stored, actor, ToFailed, gateway);
  }

  lemma GenerateTurns(world: RunWorld, stored: RunRow, actor: Id, gateway: Option<string>)
    ensures var (row, outcome) := RunTurns(world, stored, Worker(actor, Reading), gateway);
            (Some(row), outcome) == Generate(world.Whole(), Some(stored), actor, gateway)
  {
    var read := world.meanwhile(8, stored);
    var answered := world.meanwhile(7, read);
    if 8 in world.faults {
      FailTurns(world, read, actor, gateway);
    } else {
      assert RunTurns(world, stored, Worker(actor, Reading), gateway) == RunTurns(world, read, Worker(actor, Generating), gateway);
      if gateway.None? {
        FailTurns(world, answered, actor, gateway);
      } else {
        TextTurns(world, answered, actor, gateway.value, gateway);
        var (texted, kept) := Transact(world.Whole(), 6, Some(answered), TextChange(gateway.value));
        if !kept {
          FailTurns(world, texted.value, actor, gateway);
        } else {
          StatusTurns(world, texted.value, actor, ToCompleted, gateway);
          var (completed, written) := Transact(world.Whole(), 4, texted, StatusChange(ContentStatus.Completed, actor));
          if !written {
            FailTurns(world, completed.value, actor, gateway);
          }
        }
      }
    }
  }

  /** The worker's code takes exactly the turns of the protocol: whatever others do to the row before each of them,
      and whichever of them raise, they leave the row and the outcome that `RunContentWorkflow` leaves. */
  lemma TurnsRefineWorker(world: RunWorld, stored: RunRow, actor: Id, gateway: Option<string>)
    ensures var (row, outcome) := RunTurns(world, stored, Worker(actor, Starting), gateway);
            (Some(row), outcome) == RunAmid(world.Whole(), Some(stored), actor, gateway)
  {
    var loaded := world.meanwhile(11, stored);
    if 11 !in world.faults && !IsTerminal(loaded.fields.status) {
      StatusTurns(world, loaded, actor, ToRunning, gateway);
      var (started, written) := Transact(world.Whole(), 10, Some(loaded), StatusChange(Running, actor));
      if written {
        GenerateTurns(world, started.value, actor, gateway);
      }
    }
  }
}
