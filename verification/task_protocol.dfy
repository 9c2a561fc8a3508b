/** Any number of API requests interleaving on one human task. */
module TaskProtocol {
  import opened Wrappers
  import opened StateMachine
  import opened OptimisticLock
  import opened HumanTasks
  import opened TaskRules

  datatype Call = Pending(req: TaskRequest, read: TaskRow) | Finished(req: TaskRequest, result: Result<TaskRow, ActionError>)

  /** A committed version and the call that made it; none made the first. */
  datatype Commit = Commit(row: TaskRow, call: Option<nat>)

  datatype System = System(authorizer: Authorizer, info: TaskInfo, log: seq<Commit>, calls: map<nat, Call>)

  datatype Event = Select(call: nat, req: TaskRequest) | Finish(call: nat)

  function Opened(authorizer: Authorizer, info: TaskInfo): System {
    System(authorizer, info, [Commit(FRESH, None)], map[])
  }

  function Stored(log: seq<Commit>): TaskRow
    requires log != []
  {
    log[|log| - 1].row
  }

  function Appended(log: seq<Commit>, row: TaskRow, call: nat): seq<Commit>
    requires log != []
  {
    if row == Stored(log) then log else log + [Commit(row, Some(call))]
  }

  function Step(s: System, e: Event): System
    requires s.log != []
  {
    match e
    case Select(c, req) =>
      if c in s.calls then s else s.(calls := s.calls[c := Pending(req, Stored(s.log))])
    case Finish(c) =>
      if c !in s.calls || s.calls[c].Finished? then s
      else
        var Pending(req, read) := s.calls[c];
        var (row, result) := FinishTask(s.authorizer, s.info, req, read, Stored(s.log));
        s.(log := Appended(s.log, row, c), calls := s.calls[c := Finished(req, result)])
  }

  function Run(s: System, events: seq<Event>): (after: System)
    requires s.log != []
    ensures after.log != [] && after.info == s.info && after.authorizer == s.authorizer
    decreases |events|
  {
    if events == [] then s else Run(Step(s, events[0]), events[1..])
  }

  ghost predicate LogOk(info: TaskInfo, log: seq<Commit>) {
    && log != [] && log[0].row == FRESH
    && (forall i | 0 <= i < |log| :: log[i].row.version == i && TaskOk(info, log[i].row.fields))
    && (forall i | 0 <= i < |log| - 1 :: log[i].row.fields.status != TaskStatus.Completed)
  }

  predicate Held(log: seq<Commit>, read: TaskRow) {
    read.version < |log| && log[read.version].row == read
  }

  predicate CallOk(authorizer: Authorizer, info: TaskInfo, log: seq<Commit>, c: nat, call: Call) {
    match call
    case Pending(_, read) => Held(log, read)
    case Finished(req, result) =>
      && (result.Ok? ==> ToldPlan(authorizer, info, log, req, result.value))
      && (AlwaysMoves(req.action) && result.Ok? ==>
            var v := result.value.version;
            0 < v < |log| && log[v] == Commit(result.value, Some(c)) && req.precondition == Ok(Some(v - 1)))
  }

  /** A caller told Ok is shown what its request planned on the version its If-Match names. */
  predicate ToldPlan(authorizer: Authorizer, info: TaskInfo, log: seq<Commit>, req: TaskRequest, told: TaskRow) {
    && req.precondition.Ok? && req.precondition.value.Some? && req.precondition.value.value < |log|
    && PlanTask(authorizer, info, req, Some(log[req.precondition.value.value].row)) == Ok(told.fields)
  }

  /** A committed version is what a finished request planned on the version before it. */
  predicate MadeBy(authorizer: Authorizer, info: TaskInfo, calls: map<nat, Call>, before: TaskRow, made: Commit) {
    && made.call.Some? && made.call.value in calls && calls[made.call.value].Finished?
    && made.row.version == before.version + 1
    && PlanTask(authorizer, info, calls[made.call.value].req, Some(before)) == Ok(made.row.fields)
  }

  ghost predicate HistoryOk(authorizer: Authorizer, info: TaskInfo, calls: map<nat, Call>, log: seq<Commit>) {
    forall i, j | 0 <= i < j < |log| && j == i + 1 :: MadeBy(authorizer, info, calls, log[i].row, log[j])
  }

  ghost predicate Inv(s: System) {
    && RespectsDuties(s.authorizer)
    && HistoryOk(s.authorizer, s.info, s.calls, s.log)
    && LogOk(s.info, s.log)
    && (forall c | c in s.calls :: CallOk(s.authorizer, s.info, s.log, c, s.calls[c]))
  }

  ghost predicate Extends(log: seq<Commit>, after: seq<Commit>) {
    && log != [] && |log| <= |after|
    && (forall i | 0 <= i < |log| :: after[i] == log[i])
  }

  lemma CarryCall(authorizer: Authorizer, info: TaskInfo, log: seq<Commit>, after: seq<Commit>, c: nat, call: Call)
    requires Extends(log, after) && CallOk(authorizer, info, log, c, call)
    ensures CallOk(authorizer, info, after, c, call)
  {
  }

  /** A finished request commits what it planned on the very row it replaces, which was not completed, or nothing. */
  lemma FinishKeeps(authorizer: Authorizer, info: TaskInfo, log: seq<Commit>, c: nat, req: TaskRequest, read: TaskRow)
    requires RespectsDuties(authorizer) && LogOk(info, log) && Held(log, read)
    ensures var (row, result) := FinishTask(authorizer, info, req, read, Stored(log));
            var after := Appended(log, row, c);
            LogOk(info, after) && Extends(log, after) && CallOk(authorizer, info, after, c, Finished(req, result))
    ensures var row := FinishTask(authorizer, info, req, read, Stored(log)).0;
            row != Stored(log) ==>
              Stored(log).fields.status != TaskStatus.Completed && row.version == |log| &&
              PlanTask(authorizer, info, req, Some(Stored(log))) == Ok(row.fields)
  {
    match PlanTask(authorizer, info, req, Some(read))
    case Err(_) =>
    case Ok(pending) =>
      PlanKeepsTaskOk(authorizer, info, req, read);
      OverlayOnRead(read.fields, pending);
      if AlwaysMoves(req.action) {
        MovesChange(authorizer, info, req, read);
      }
      if pending != read.fields && read.version == Stored(log).version {
        var after := log + [Commit(Versioned(pending, |log|), Some(c))];
        assert Appended(log, Versioned(pending, |log|), c) == after;
        assert forall i | 0 <= i < |log| :: after[i] == log[i];
      }
  }

  lemma HistoryGrows(s: System, c: nat)
    requires Inv(s) && c in s.calls && s.calls[c].Pending?
    ensures var t := Step(s, Finish(c)); HistoryOk(s.authorizer, s.info, t.calls, t.log)
  {
    var t := Step(s, Finish(c));
    FinishKeeps(s.authorizer, s.info, s.log, c, s.calls[c].req, s.calls[c].read);
    forall i, j | 0 <= i < j < |t.log| && j == i + 1 ensures MadeBy(s.authorizer, s.info, t.calls, t.log[i].row, t.log[j]) {
      if j < |s.log| {
        assert MadeBy(s.authorizer, s.info, s.calls, s.log[i].row, s.log[j]);
      }
    }
  }

  lemma StepKeeps(s: System, e: Event)
    requires Inv(s)
    ensures Inv(Step(s, e))
    ensures Stored(s.log).fields.status == TaskStatus.Completed ==> Step(s, e).log == s.log
  {
    if e.Finish? && e.call in s.calls && s.calls[e.call].Pending? {
      var Pending(req, read) := s.calls[e.call];
      FinishKeeps(s.authorizer, s.info, s.log, e.call, req, read);
      HistoryGrows(s, e.call);
      forall c | c in s.calls ensures CallOk(s.authorizer, s.info, Step(s, e).log, c, s.calls[c]) {
        CarryCall(s.authorizer, s.info, s.log, Step(s, e).log, c, s.calls[c]);
      }
    }
  }

  lemma {:induction false} RunKeeps(s: System, events: seq<Event>)
    requires Inv(s)
    ensures Inv(Run(s, events))
    ensures Stored(s.log).fields.status == TaskStatus.Completed ==> Run(s, events).log == s.log
    decreases |events|
  {
    if events != [] {
      StepKeeps(s, events[0]);
      RunKeeps(Step(s, events[0]), events[1..]);
    }
  }

  /** From a fresh task, under every interleaving: a decision is recorded exactly when the task is COMPLETED;
      CLAIMED has an assignee and a lease; OPEN has an assignee exactly when it has a lease; COMPLETED has no
      lease; and a task decided APPROVE was decided by somebody other than its creator. */
  lemma ReachableTasks(info: TaskInfo, events: seq<Event>)
    ensures TaskOk(info, Stored(Run(Opened(Permitted, info), events).log).fields)
  {
    EngineRespectsDuties();
    RunKeeps(Opened(Permitted, info), events);
  }

  /** COMPLETED is absorbing with all fields and the version frozen, whatever was in flight when it was
      reached (here and below under every authorizer that respects the duty rules, as the engine does). */
  lemma CompletedIsFinal(authorizer: Authorizer, info: TaskInfo, past: seq<Event>, future: seq<Event>)
    requires RespectsDuties(authorizer)
    requires Stored(Run(Opened(authorizer, info), past).log).fields.status == TaskStatus.Completed
    ensures Stored(Run(Run(Opened(authorizer, info), past), future).log) == Stored(Run(Opened(authorizer, info), past).log)
  {
    RunKeeps(Opened(authorizer, info), past);
    RunKeeps(Run(Opened(authorizer, info), past), future);
  }

  /** No lost update: each version of a task is what one request planned on exactly the version before it. */
  lemma HistoryIsSerial(authorizer: Authorizer, info: TaskInfo, events: seq<Event>, i: nat)
    requires RespectsDuties(authorizer)
    requires i + 1 < |Run(Opened(authorizer, info), events).log|
    ensures var s := Run(Opened(authorizer, info), events);
            MadeBy(authorizer, info, s.calls, s.log[i].row, s.log[i + 1])
  {
    RunKeeps(Opened(authorizer, info), events);
  }

  /** Each version past the first was made by an accepted request, and is what its action intends. */
  lemma HistoryByName(authorizer: Authorizer, info: TaskInfo, events: seq<Event>, i: nat)
    requires RespectsDuties(authorizer)
    requires i + 1 < |Run(Opened(authorizer, info), events).log|
    ensures var s := Run(Opened(authorizer, info), events);
            s.log[i + 1].call.Some? && s.log[i + 1].call.value in s.calls &&
            var req := s.calls[s.log[i + 1].call.value].req;
            Accepted(authorizer, info, req, s.log[i].row) && s.log[i + 1].row.fields == Intended(req, s.log[i].row.fields)
  {
    HistoryIsSerial(authorizer, info, events, i);
    var s := Run(Opened(authorizer, info), events);
    PlansAsIntended(authorizer, info, s.calls[s.log[i + 1].call.value].req, s.log[i].row);
  }

  /** Whoever is told Ok was accepted on the version their If-Match names, and is shown what the action intends: after
      a reassign or an assign, their own target as assignee. */
  lemma ToldByName(authorizer: Authorizer, info: TaskInfo, events: seq<Event>, c: nat)
    requires RespectsDuties(authorizer)
    requires var calls := Run(Opened(authorizer, info), events).calls;
             c in calls && calls[c].Finished? && calls[c].result.Ok?
    ensures var s := Run(Opened(authorizer, info), events);
            var req, told := s.calls[c].req, s.calls[c].result.value.fields;
            && req.precondition.Ok? && req.precondition.value.Some? && req.precondition.value.value < |s.log|
            && Accepted(authorizer, info, req, s.log[req.precondition.value.value].row)
            && told == Intended(req, s.log[req.precondition.value.value].row.fields)
            && (req.action == Reassign || req.action == Assign ==> told.assignee == req.target)
  {
    RunKeeps(Opened(authorizer, info), events);
    var s := Run(Opened(authorizer, info), events);
    assert CallOk(authorizer, info, s.log, c, s.calls[c]);
    PlansAsIntended(authorizer, info, s.calls[c].req, s.log[s.calls[c].req.precondition.value.value].row);
  }

  /** The request behind the stored version, and the row it was planned on. */
  function LastRequest(s: System): Option<(TaskRequest, TaskRow)> {
    if |s.log| < 2 || s.log[|s.log| - 1].call.None? || s.log[|s.log| - 1].call.value !in s.calls then None
    else Some((s.calls[s.log[|s.log| - 1].call.value].req, s.log[|s.log| - 2].row))
  }

  /** Who holds a CLAIMED task holds it by right: a permitted request made that version, which either was their
      own claim or handed the task to them as a member, and the lease is two hours from then. */
  lemma HolderIsEntitled(authorizer: Authorizer, info: TaskInfo, events: seq<Event>)
    requires RespectsDuties(authorizer)
    requires Stored(Run(Opened(authorizer, info), events).log).fields.status == Claimed
    ensures var s := Run(Opened(authorizer, info), events);
            LastRequest(s).Some? &&
            Entitled(authorizer, info, LastRequest(s).value.0, LastRequest(s).value.1, Stored(s.log).fields)
  {
    RunKeeps(Opened(authorizer, info), events);
    var s := Run(Opened(authorizer, info), events);
    HistoryIsSerial(authorizer, info, events, |s.log| - 2);
    PlansThatClaim(authorizer, info, LastRequest(s).value.0, LastRequest(s).value.1);
  }

  /** An OPEN task past its first version was reassigned last, and has as assignee exactly whom that request named, with
      a lease of two hours from then, or nobody and no lease. */
  lemma OpenHolderIsNamed(authorizer: Authorizer, info: TaskInfo, events: seq<Event>)
    requires RespectsDuties(authorizer)
    requires var s := Run(Opened(authorizer, info), events);
             |s.log| > 1 && Stored(s.log).fields.status == Open
    ensures var s := Run(Opened(authorizer, info), events);
            var f := Stored(s.log).fields;
            LastRequest(s).Some? &&
            var (req, before) := LastRequest(s).value;
            req.action == Reassign && authorizer(info, req, before) && f.assignee == req.target &&
            f.lease == if req.target == None then None else Some(req.now + TWO_HOURS)
  {
    var s := Run(Opened(authorizer, info), events);
    HistoryByName(authorizer, info, events, |s.log| - 2);
  }

  /** A COMPLETED task was completed by a permitted request of the actor it records, by the action its decision
      names, and its assignee is whoever held it then. */
  lemma VerdictHasAuthor(authorizer: Authorizer, info: TaskInfo, events: seq<Event>)
    requires RespectsDuties(authorizer)
    requires Stored(Run(Opened(authorizer, info), events).log).fields.status == TaskStatus.Completed
    ensures var s := Run(Opened(authorizer, info), events);
            LastRequest(s).Some? &&
            Decided(authorizer, info, LastRequest(s).value.0, LastRequest(s).value.1, Stored(s.log).fields)
  {
    RunKeeps(Opened(authorizer, info), events);
    var s := Run(Opened(authorizer, info), events);
    HistoryIsSerial(authorizer, info, events, |s.log| - 2);
    PlansThatComplete(authorizer, info, LastRequest(s).value.0, LastRequest(s).value.1);
  }

  predicate Won(s: System, c: nat) {
    c in s.calls && s.calls[c].Finished? && s.calls[c].result.Ok? && AlwaysMoves(s.calls[c].req.action)
  }

  /** A caller told Ok for claim, submit, approve or reject got the version right after the one its If-Match
      names, planned on exactly that one, and saw the row that was stored. */
  lemma WinnerCommitted(authorizer: Authorizer, info: TaskInfo, events: seq<Event>, c: nat)
    requires RespectsDuties(authorizer)
    requires Won(Run(Opened(authorizer, info), events), c)
    ensures var s := Run(Opened(authorizer, info), events);
            var row, req := s.calls[c].result.value, s.calls[c].req;
            0 < row.version < |s.log| && s.log[row.version] == Commit(row, Some(c)) &&
            req.precondition == Ok(Some(row.version - 1)) &&
            PlanTask(authorizer, info, req, Some(s.log[row.version - 1].row)) == Ok(row.fields)
  {
    RunKeeps(Opened(authorizer, info), events);
  }

  /** Of any number of concurrent callers presenting the same If-Match for those actions, at most one wins. */
  lemma OneWinnerPerVersion(authorizer: Authorizer, info: TaskInfo, events: seq<Event>, c1: nat, c2: nat)
    requires RespectsDuties(authorizer)
    requires Won(Run(Opened(authorizer, info), events), c1) && Won(Run(Opened(authorizer, info), events), c2)
    requires var calls := Run(Opened(authorizer, info), events).calls;
             calls[c1].req.precondition == calls[c2].req.precondition
    ensures c1 == c2
  {
    WinnerCommitted(authorizer, info, events, c1);
    WinnerCommitted(authorizer, info, events, c2);
  }
}
