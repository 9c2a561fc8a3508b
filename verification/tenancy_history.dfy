/** What statements, commits and rollbacks do to the rows: what a transaction wrote becomes everybody's when it commits
    and nobody's when it does not (src/aipy/shared/db/session.py). */
module TenancyHistory {
  import opened Wrappers
  import opened Tenancy

  /** The rows every connection sees that has written nothing itself. */
  function CommittedRows(cells: Cells): Rows {
    map id | id in cells && cells[id].committed.Some? :: cells[id].committed.value
  }

  // ---- one statement ----

  /** A query finds exactly the tenant's rows that it wants, as they look to the transaction, and changes nothing. */
  lemma SelectFinds(cells: Cells, who: nat, setting: Option<Id>, wanted: (RowId, Row) -> bool)
    ensures var (after, answer) := Execute(cells, who, setting, Select(wanted));
            var rows := View(cells, who);
            && after == cells && answer.Found?
            && (forall id :: id in answer.rows <==> id in rows && setting == Some(rows[id].tenant) && wanted(id, rows[id]))
            && (forall id | id in answer.rows :: answer.rows[id] == rows[id])
  {
  }

  /** Another row of the same table, tenant and code. */
  predicate Clashes(other: RowId, there: Row, id: RowId, row: Row) {
    other != id && there.table == row.table && there.tenant == row.tenant && there.code == row.code
  }

  predicate SeesClash(cells: Cells, who: nat, id: RowId, row: Row) {
    exists other | other in View(cells, who) :: Clashes(other, View(cells, who)[other], id, row)
  }

  predicate AwaitsClash(cells: Cells, who: nat, id: RowId, row: Row) {
    exists other | other in cells :: cells[other].draft.Some? && cells[other].draft.value.owner != who &&
                                     Clashes(other, cells[other].draft.value.row, id, row)
  }

  predicate DraftedElsewhere(cells: Cells, who: nat, id: RowId) {
    id in cells && cells[id].draft.Some? && cells[id].draft.value.owner != who
  }

  /** Whether an insert or update is let through, and why not. */
  lemma WriteAnswers(cells: Cells, who: nat, setting: Option<Id>, statement: Statement)
    requires !statement.Select?
    ensures var answer := Execute(cells, who, setting, statement).1;
            var rows := View(cells, who);
            match statement
            case Insert(serial, row) =>
              if setting != Some(row.tenant) then answer == Rejected
              else
                var id := RowId(row.tenant, serial);
                if id in rows || SeesClash(cells, who, id, row) then answer == Rejected
                else if DraftedElsewhere(cells, who, id) || AwaitsClash(cells, who, id, row) then answer == Blocked
                else answer == Affected(1)
            case Update(id, expected, row) =>
              if !(id in rows && setting == Some(rows[id].tenant) && rows[id].version == expected) then answer == Affected(0)
              else if DraftedElsewhere(cells, who, id) then answer == Blocked
              else if setting != Some(row.tenant) || SeesClash(cells, who, id, row) then answer == Rejected
              else if AwaitsClash(cells, who, id, row) then answer == Blocked
              else answer == Affected(1)
  {
    var id := if statement.Update? then statement.id else RowId(statement.row.tenant, statement.serial);
    assert SeesClash(cells, who, id, statement.row) <==> CodeTaken(View(cells, who), statement.row, id);
    assert AwaitsClash(cells, who, id, statement.row) <==> CodeAwaited(cells, who, statement.row, id);
  }

  /** The row a statement writes when it is let through. */
  function Target(setting: Option<Id>, statement: Statement): RowId
    requires !statement.Select? && setting.Some?
  {
    if statement.Insert? then RowId(setting.value, statement.serial) else statement.id
  }

  /** A statement that is let through writes its row for its own transaction alone; any other changes nothing. */
  lemma StatementEffects(cells: Cells, who: nat, setting: Option<Id>, statement: Statement)
    ensures var (after, answer) := Execute(cells, who, setting, statement);
            && (answer == Affected(1) ==>
                  !statement.Select? && setting.Some? &&
                  View(after, who) == View(cells, who)[Target(setting, statement) := statement.row])
            && (answer != Affected(1) ==> after == cells)
            && CommittedRows(after) == CommittedRows(cells)
            && (forall w | w != who :: View(after, w) == View(cells, w))
  {
    var (after, answer) := Execute(cells, who, setting, statement);
    if answer == Affected(1) {
      WriteEffects(cells, who, Target(setting, statement), statement.row);
    }
  }

  lemma WriteEffects(cells: Cells, who: nat, id: RowId, row: Row)
    requires !DraftedElsewhere(cells, who, id)
    ensures View(Write(cells, who, id, row), who) == View(cells, who)[id := row]
    ensures CommittedRows(Write(cells, who, id, row)) == CommittedRows(cells)
    ensures forall w | w != who :: View(Write(cells, who, id, row), w) == View(cells, w)
  {
  }

  // ---- the end of a transaction ----

  /** A commit makes exactly what the transaction saw the committed rows, and each other connection sees that, but for
      what it has drafted itself. */
  lemma CommitEffects(cells: Cells, who: nat)
    ensures CommittedRows(Commit(cells, who)) == View(cells, who)
    ensures forall w, id | w != who && id in cells ::
              Seen(Commit(cells, who)[id], w) == if Owned(cells[id], w) then Seen(cells[id], w) else Seen(cells[id], who)
    ensures View(Commit(cells, who), who) == View(cells, who)
  {
  }

  /** A rollback leaves the committed rows and every other view as they are, and its own connection with the
      committed rows. */
  lemma RollbackEffects(cells: Cells, who: nat)
    ensures CommittedRows(Rollback(cells, who)) == CommittedRows(cells)
    ensures forall w | w != who :: View(Rollback(cells, who), w) == View(cells, w)
    ensures View(Rollback(cells, who), who) == CommittedRows(cells)
  {
  }

  // ---- whole runs ----

  /** Whether the next step of a connection ends its scope, and if so, whether by returning; an exception or a refused
      statement ends it too. */
  function Ending(s: System, who: nat): Option<bool> {
    if who !in s.connections || s.connections[who].queue == [] || !s.connections[who].position.Inside? then None
    else
      var c := s.connections[who];
      match c.queue[0].Next(c.position.heard)
      case Return => Some(true)
      case Raise => Some(false)
      case Perform(statement) => if Execute(s.cells, who, c.setting, statement).1.Rejected? then Some(false) else None
  }

  /** Every step: the committed rows change only where a scope returns, and then to what that scope saw; what others
      see of uncommitted work never changes. */
  lemma StepCommits(s: System, who: nat)
    ensures CommittedRows(Step(s, who).cells) == if Ending(s, who) == Some(true) then View(s.cells, who) else CommittedRows(s.cells)
    ensures Ending(s, who) != Some(true) ==> forall w | w != who :: View(Step(s, who).cells, w) == View(s.cells, w)
    ensures Ending(s, who) == Some(true) ==>
              forall w, id | w != who && id in s.cells ::
                id in Step(s, who).cells &&
                Seen(Step(s, who).cells[id], w) == if Owned(s.cells[id], w) then Seen(s.cells[id], w) else Seen(s.cells[id], who)
  {
    CommitEffects(s.cells, who);
    RollbackEffects(s.cells, who);
    if who in s.connections && s.connections[who].queue != [] && s.connections[who].position.Inside? {
      var c := s.connections[who];
      var command := c.queue[0].Next(c.position.heard);
      if command.Perform? {
        StatementEffects(s.cells, who, c.setting, command.statement);
      }
    }
  }

  /** What a connection does next: it begins, takes the tenant of its scope, hears an answer, waits, or ends the
      scope with an outcome that says whether it returned. */
  lemma StepMoves(s: System, who: nat)
    requires who in s.connections && s.connections[who].queue != []
    ensures var c, next := s.connections[who], Step(s, who).connections[who];
            match c.position
            case Between => next == c.(position := Begun)
            case Begun => next.position == Inside([]) && next.queue == c.queue && next.done == c.done
            case Inside(heard) =>
              match Ending(s, who)
              case Some(returned) =>
                && next.setting == None && next.position == Between && next.queue == c.queue[1..]
                && |next.done| == |c.done| + 1 && next.done[..|c.done|] == c.done
                && next.done[|c.done|].committed == returned && next.done[|c.done|].tenant == c.queue[0].tenant
                && heard <= next.done[|c.done|].heard
              case None =>
                var answer := Execute(s.cells, who, c.setting, c.queue[0].Next(heard).statement).1;
                next == if answer == Blocked then c else c.(position := Inside(heard + [answer]))
  {
  }

  /** What the scope saw that returned last in a run. */
  function LastReturned(s: System, schedule: seq<nat>): Option<Rows>
    decreases |schedule|
  {
    if schedule == [] then None
    else
      var later := LastReturned(Step(s, schedule[0]), schedule[1..]);
      if later.Some? then later else if Ending(s, schedule[0]) == Some(true) then Some(View(s.cells, schedule[0])) else None
  }

  /** At every moment the committed rows are exactly what the last scope to return saw at its end: nothing of it is
      lost, and nothing of a scope that raised or was refused is kept. */
  lemma {:induction false} CommittedIsLastReturned(s: System, schedule: seq<nat>)
    ensures var last := LastReturned(s, schedule);
            CommittedRows(Run(s, schedule).cells) == if last.Some? then last.value else CommittedRows(s.cells)
    decreases |schedule|
  {
    if schedule != [] {
      StepCommits(s, schedule[0]);
      CommittedIsLastReturned(Step(s, schedule[0]), schedule[1..]);
    }
  }

  /** In every reachable state a connection that is not in the body of a scope sees exactly the committed rows, so a
      scope starts from them. */
  lemma IdleSeesCommitted(s: System, schedule: seq<nat>, who: nat)
    requires Fresh(s) && who in Run(s, schedule).connections && !Run(s, schedule).connections[who].position.Inside?
    ensures View(Run(s, schedule).cells, who) == CommittedRows(Run(s, schedule).cells)
  {
    RunKeepsOk(s, schedule);
    var u := Run(s, schedule);
    forall id | id in u.cells ensures !Owned(u.cells[id], who) {
      assert CellOk(id, u.cells[id], Settings(u.connections)) && SettingOk(u.connections[who]);
    }
  }

  /** A scope inserts or updates a row and returns; whoever of the same tenant asks for it later finds it, as long as
      no scope that has returned since saw another version. */
  lemma LaterScopeFinds(s: System, who: nat, id: RowId, row: Row, between: seq<nat>, reader: nat, wanted: (RowId, Row) -> bool)
    requires Ending(s, who) == Some(true) && id in View(s.cells, who) && View(s.cells, who)[id] == row
    requires var last := LastReturned(Step(s, who), between);
             last.Some? ==> id in last.value && last.value[id] == row
    requires var u := Run(Step(s, who), between);
             reader in u.connections && u.connections[reader].queue != [] && u.connections[reader].position.Inside? &&
             u.connections[reader].setting == Some(row.tenant) && id in u.cells && !Owned(u.cells[id], reader) &&
             u.connections[reader].queue[0].Next(u.connections[reader].position.heard) == Perform(Select(wanted))
    ensures var u := Run(Step(s, who), between);
            var answered := Step(u, reader).connections[reader].position;
            answered.Inside? && |answered.heard| > 0 && var answer := answered.heard[|answered.heard| - 1];
            answer.Found? && (wanted(id, row) <==> id in answer.rows) && (id in answer.rows ==> answer.rows[id] == row)
  {
    var t := Step(s, who);
    StepCommits(s, who);
    CommittedIsLastReturned(t, between);
    var u := Run(t, between);
    assert id in CommittedRows(u.cells) && CommittedRows(u.cells)[id] == row;
    assert id in View(u.cells, reader) && View(u.cells, reader)[id] == row;
    SelectFinds(u.cells, reader, u.connections[reader].setting, wanted);
    StepMoves(u, reader);
  }
}
