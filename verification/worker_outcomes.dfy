/** What the outcome of a worker execution says about the run (apps/worker/tasks.py). */
module WorkerOutcomes {
  import opened Wrappers
  import opened StateMachine
  import opened OptimisticLock
  import opened ContentRuns
  import opened ContentWorker
  import opened ContentProtocol

  // ---- one turn ----

  /** Whether a flush goes through: nothing raised, and the row has not moved or there is nothing to change. */
  predicate Through(stored: RunRow, read: RunRow, after: RunFields, turn: Turn) {
    !turn.Fault? && (read.version == stored.version || after == read.fields)
  }

  /** Where each turn leads, position by position. */
  lemma TurnsByName(stored: RunRow, w: Worker, turn: Turn)
    ensures var next := WorkTurn(stored, w, turn).0;
            match w.pc
            case Starting =>
              next == if turn.Fault? then Ended(Raised)
                      else if stored.fields.status == ContentStatus.Completed || stored.fields.status == ContentStatus.Cancelled then Ended(SkippedTerminal)
                      else AtStatus(ToRunning)
            case AtStatus(target) =>
              next == if !turn.Fault? then HoldStatus(target, stored)
                      else if target == ToCompleted then AtStatus(ToFailed) else Ended(Raised)
            case HoldStatus(target, read) =>
              if Through(stored, read, Marked(target, w.actor, read.fields), turn) then
                next == if target == ToRunning then Reading else if target == ToCompleted then Ended(CompletedRun) else Ended(FailedRun)
              else
                next == if target == ToCompleted then AtStatus(ToFailed) else Ended(Raised)
            case Reading => next == if turn.Fault? then AtStatus(ToFailed) else Generating
            case Generating => next == if turn.Fault? then AtStatus(ToFailed) else if turn.Generated? then AtContent(turn.text) else Generating
            case AtContent(text) => next == if turn.Fault? then AtStatus(ToFailed) else HoldContent(text, stored)
            case HoldContent(text, read) =>
              next == if Through(stored, read, read.fields.(content := Some(text)), turn) then AtStatus(ToCompleted) else AtStatus(ToFailed)
            case Ended(_) => next == w.pc
  {
  }

  // ---- whole runs ----

  /** Some version of the run had the status, set by the actor. */
  predicate WasSet(log: seq<Commit>, status: ContentStatus, actor: Id) {
    exists v | 0 <= v < |log| :: log[v].row.fields.status == status && log[v].row.fields.updatedBy == actor
  }

  predicate WasTerminal(log: seq<Commit>) {
    exists v | 0 <= v < |log| :: IsTerminal(log[v].row.fields.status)
  }

  predicate OutcomeOk(log: seq<Commit>, w: Worker) {
    match w.pc
    case Ended(CompletedRun) => WasSet(log, ContentStatus.Completed, w.actor)
    case Ended(FailedRun) => WasSet(log, Failed, w.actor)
    case Ended(SkippedTerminal) => WasTerminal(log)
    case Ended(NotFoundRun) => false
    case _ => true
  }

  lemma CarryOutcome(log: seq<Commit>, after: seq<Commit>, w: Worker)
    requires Extends(log, after) && OutcomeOk(log, w)
    ensures OutcomeOk(after, w)
  {
    if w.pc == Ended(CompletedRun) || w.pc == Ended(FailedRun) {
      var status := if w.pc == Ended(CompletedRun) then ContentStatus.Completed else Failed;
      var v :| 0 <= v < |log| && log[v].row.fields.status == status && log[v].row.fields.updatedBy == w.actor;
      assert after[v] == log[v];
    } else if w.pc == Ended(SkippedTerminal) {
      var v :| 0 <= v < |log| && IsTerminal(log[v].row.fields.status);
      assert after[v] == log[v];
    }
  }

  /** A flush that goes through leaves a version with what it wrote, be it this one or the one it read. */
  lemma StatusOutcome(log: seq<Commit>, w: Worker, turn: Turn)
    requires LogOk(log) && PcOk(log, w.pc) && w.pc.HoldStatus? && !w.pc.target.ToRunning?
    ensures var (pc, row, cause) := WorkTurn(Stored(log), w, turn);
            OutcomeOk(Appended(log, row, cause), Worker(w.actor, pc))
  {
    var (pc, row, cause) := WorkTurn(Stored(log), w, turn);
    var read := w.pc.read;
    var pending := StatusWrite(read.fields, w.pc.target.Status(), w.actor);
    var after := Appended(log, row, cause);
    FlushExact(log, read, pending);
    if pc == Ended(CompletedRun) || pc == Ended(FailedRun) {
      if pending == read.fields {
        assert after[read.version].row == read;
      } else {
        assert row.fields == pending && after[|after| - 1].row == row;
      }
    }
  }

  lemma TurnOutcome(log: seq<Commit>, w: Worker, turn: Turn)
    requires LogOk(log) && PcOk(log, w.pc) && OutcomeOk(log, w)
    ensures var (pc, row, cause) := WorkTurn(Stored(log), w, turn);
            OutcomeOk(Appended(log, row, cause), Worker(w.actor, pc))
  {
    if w.pc.HoldStatus? && !w.pc.target.ToRunning? {
      StatusOutcome(log, w, turn);
    } else if w.pc.Starting? {
      assert Stored(log) == log[|log| - 1].row;
    }
  }

  ghost predicate OutcomesOk(s: System) {
    forall w | w in s.workers :: OutcomeOk(s.log, s.workers[w])
  }

  lemma StepOutcomes(s: System, e: Event)
    requires Inv(s) && OutcomesOk(s)
    ensures OutcomesOk(Step(s, e))
  {
    StepKeeps(s, e);
    var t := Step(s, e);
    forall w | w in t.workers ensures OutcomeOk(t.log, t.workers[w]) {
      if w in s.workers {
        if e.Work? && e.worker == w {
          TurnOutcome(s.log, s.workers[w], e.turn);
        } else {
          CarryOutcome(s.log, t.log, s.workers[w]);
        }
      }
    }
  }

  lemma {:induction false} RunOutcomes(s: System, events: seq<Event>)
    requires Inv(s) && OutcomesOk(s)
    ensures OutcomesOk(Run(s, events))
    decreases |events|
  {
    if events != [] {
      StepKeeps(s, events[0]);
      StepOutcomes(s, events[0]);
      RunOutcomes(Step(s, events[0]), events[1..]);
    }
  }

  /** In every reachable state: an execution that reports COMPLETED or FAILED has that status, in its own name, in the
      history of the run; one that skipped found it COMPLETED or CANCELLED; and none reports that there is no run. */
  lemma OutcomesAreTrue(actor: Id, events: seq<Event>, w: nat)
    requires w in Run(Created(actor), events).workers
    ensures var s := Run(Created(actor), events);
            var worker := s.workers[w];
            && (worker.pc == Ended(CompletedRun) ==> WasSet(s.log, ContentStatus.Completed, worker.actor))
            && (worker.pc == Ended(FailedRun) ==> WasSet(s.log, Failed, worker.actor))
            && (worker.pc == Ended(SkippedTerminal) ==> WasTerminal(s.log))
            && worker.pc != Ended(NotFoundRun)
  {
    RunOutcomes(Created(actor), events);
  }
}
