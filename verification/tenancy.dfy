/** Row-level security: what transactions of different tenants can do to and learn from each other's rows
    (src/aipy/shared/db/session.py, migrations/versions/20260724_0002_content_entities.py). Many connections are
    reused by many transactions, and their statements interleave. */
module Tenancy {
  import opened Wrappers

  /** The tenant-scoped tables. */
  datatype TableName = ContentRun | HumanTask | Material | ContentExport | ContentRunMaterial

  /** Ids are fresh UUIDs, so no two tenants' transactions ever make the same one. */
  datatype RowId = RowId(origin: Id, serial: nat)

  /** `code` is unique per tenant and table; `body` stands for the other columns. */
  datatype Row = Row(table: TableName, tenant: Id, code: string, version: nat, body: seq<string>)

  type Rows = map<RowId, Row>

  /** A version that a transaction on connection `owner` has written and not yet committed. */
  datatype Draft = Draft(owner: nat, row: Row)

  datatype Cell = Cell(committed: Option<Row>, draft: Option<Draft>)

  type Cells = map<RowId, Cell>

  /** One SQL statement of a transaction, with nothing said about tenants beyond the rows it writes. */
  datatype Statement =
    | Select(wanted: (RowId, Row) -> bool)
    | Insert(serial: nat, row: Row)
    | Update(id: RowId, expected: nat, row: Row)

  /** `Blocked` means waiting for another transaction's lock. */
  datatype Response = Found(rows: Rows) | Affected(count: nat) | Rejected | Blocked

  /** The policy on every table: rows of the tenant in the transaction-local setting, and none without one. */
  predicate Visible(setting: Option<Id>, row: Row) {
    setting == Some(row.tenant)
  }

  predicate Owned(cell: Cell, who: nat) {
    cell.draft.Some? && cell.draft.value.owner == who
  }

  predicate Locked(cell: Cell, who: nat) {
    cell.draft.Some? && cell.draft.value.owner != who
  }

  /** A transaction sees what is committed and what it wrote itself. */
  function Seen(cell: Cell, who: nat): Option<Row> {
    if Owned(cell, who) then Some(cell.draft.value.row) else cell.committed
  }

  function View(cells: Cells, who: nat): Rows {
    map id | id in cells && Seen(cells[id], who).Some? :: Seen(cells[id], who).value
  }

  function Matching(rows: Rows, setting: Option<Id>, wanted: (RowId, Row) -> bool): Rows {
    map id | id in rows && Visible(setting, rows[id]) && wanted(id, rows[id]) :: rows[id]
  }

  predicate SameCode(a: Row, b: Row) {
    a.table == b.table && a.tenant == b.tenant && a.code == b.code
  }

  /** A unique index is checked against all rows, visible or not ... */
  predicate CodeTaken(rows: Rows, row: Row, self: RowId) {
    exists id | id in rows :: id != self && SameCode(rows[id], row)
  }

  /** ... and waits for transactions that may be about to take the code. */
  predicate CodeAwaited(cells: Cells, who: nat, row: Row, self: RowId) {
    exists id | id in cells :: id != self && Locked(cells[id], who) && SameCode(cells[id].draft.value.row, row)
  }

  function Write(cells: Cells, who: nat, id: RowId, row: Row): Cells {
    cells[id := Cell(if id in cells then cells[id].committed else None, Some(Draft(who, row)))]
  }

  function Execute(cells: Cells, who: nat, setting: Option<Id>, statement: Statement): (Cells, Response) {
    var rows := View(cells, who);
    match statement
    case Select(wanted) => (cells, Found(Matching(rows, setting, wanted)))
    case Insert(serial, row) =>
      if !Visible(setting, row) then (cells, Rejected)
      else
        var id := RowId(setting.value, serial);
        if id in rows || CodeTaken(rows, row, id) then (cells, Rejected)
        else if (id in cells && Locked(cells[id], who)) || CodeAwaited(cells, who, row, id) then (cells, Blocked)
        else (Write(cells, who, id, row), Affected(1))
    case Update(id, expected, row) =>
      if id !in rows || !Visible(setting, rows[id]) || rows[id].version != expected then (cells, Affected(0))
      else if Locked(cells[id], who) then (cells, Blocked)
      else if !Visible(setting, row) || CodeTaken(rows, row, id) then (cells, Rejected)
      else if CodeAwaited(cells, who, row, id) then (cells, Blocked)
      else (Write(cells, who, id, row), Affected(1))
  }

  function Commit(cells: Cells, who: nat): Cells {
    map id | id in cells :: if Owned(cells[id], who) then Cell(Some(cells[id].draft.value.row), None) else cells[id]
  }

  function Rollback(cells: Cells, who: nat): Cells {
    map id | id in cells :: if Owned(cells[id], who) then cells[id].(draft := None) else cells[id]
  }

  // ---- transactions ----

  /** What the body of a scope does next: `Raise` stands for any Python exception. */
  datatype Command = Perform(statement: Statement) | Return | Raise

  /** `tenant_session_scope`, or `session_scope` when `tenant` is `None`, around a body of at most `length` statements
      that depend on the answers so far. */
  datatype Scope = Scope(tenant: Option<Id>, body: seq<Response> -> Command, length: nat) {
    function Next(heard: seq<Response>): Command {
      if |heard| < length then body(heard) else Return
    }
  }

  datatype Outcome = Outcome(tenant: Option<Id>, heard: seq<Response>, committed: bool)

  /** Where a connection stands: between transactions, in one that has just begun, or in the body of a scope. */
  datatype Position = Between | Begun | Inside(heard: seq<Response>)

  /** A pooled connection with its `app.tenant_id` setting and the scopes that will still use it. */
  datatype Connection = Connection(setting: Option<Id>, position: Position, queue: seq<Scope>, done: seq<Outcome>) {
    /** The end of a transaction; a setting local to it goes with it. */
    function Closed(heard: seq<Response>, committed: bool): Connection
      requires queue != []
    {
      Connection(None, Between, queue[1..], done + [Outcome(queue[0].tenant, heard, committed)])
    }
  }

  /** One step of a connection: begin, set the tenant, a statement, or the end. A refused statement raises. */
  function Turn(cells: Cells, who: nat, c: Connection): (Cells, Connection) {
    if c.queue == [] then (cells, c)
    else
      match c.position
      case Between => (cells, c.(position := Begun))
      case Begun =>
        (cells, c.(setting := if c.queue[0].tenant.Some? then c.queue[0].tenant else c.setting, position := Inside([])))
      case Inside(heard) =>
        match c.queue[0].Next(heard)
        case Return => (Commit(cells, who), c.Closed(heard, true))
        case Raise => (Rollback(cells, who), c.Closed(heard, false))
        case Perform(statement) =>
          var (after, response) := Execute(cells, who, c.setting, statement);
          match response
          case Blocked => (cells, c)
          case Rejected => (Rollback(cells, who), c.Closed(heard + [Rejected], false))
          case _ => (after, c.(position := Inside(heard + [response])))
  }

  datatype System = System(cells: Cells, connections: map<nat, Connection>)

  function Step(s: System, who: nat): System {
    if who !in s.connections then s
    else
      var (cells, c) := Turn(s.cells, who, s.connections[who]);
      System(cells, s.connections[who := c])
  }

  function Run(s: System, schedule: seq<nat>): System
    decreases |schedule|
  {
    if schedule == [] then s else Run(Step(s, schedule[0]), schedule[1..])
  }

  // ---- one tenant's part ----

  function CellsOf(cells: Cells, tenant: Id): Cells {
    map id | id in cells && id.origin == tenant :: cells[id]
  }

  function ScopesOf(queue: seq<Scope>, tenant: Id): seq<Scope> {
    if queue == [] then []
    else (if queue[0].tenant == Some(tenant) then [queue[0]] else []) + ScopesOf(queue[1..], tenant)
  }

  function OutcomesOf(done: seq<Outcome>, tenant: Id): seq<Outcome> {
    if done == [] then []
    else
      var earlier, last := OutcomesOf(done[..|done| - 1], tenant), done[|done| - 1];
      if last.tenant == Some(tenant) then earlier + [last] else earlier
  }

  /** Whether the next scope of a connection, which may have begun, is the tenant's. */
  predicate Serves(c: Connection, tenant: Id) {
    c.queue != [] && c.queue[0].tenant == Some(tenant)
  }

  /** A connection as one tenant knows it: it does nothing while it serves others. */
  function ConnectionOf(c: Connection, tenant: Id): Connection {
    Connection(if Serves(c, tenant) then c.setting else None, if Serves(c, tenant) then c.position else Between,
               ScopesOf(c.queue, tenant), OutcomesOf(c.done, tenant))
  }

  function ConnectionsOf(connections: map<nat, Connection>, tenant: Id): map<nat, Connection> {
    map who | who in connections :: ConnectionOf(connections[who], tenant)
  }

  function Projection(s: System, tenant: Id): System {
    System(CellsOf(s.cells, tenant), ConnectionsOf(s.connections, tenant))
  }

  /** The tenant's part of a schedule. */
  function TurnsOf(s: System, schedule: seq<nat>, tenant: Id): seq<nat>
    decreases |schedule|
  {
    if schedule == [] then []
    else
      var who := schedule[0];
      (if who in s.connections && Serves(s.connections[who], tenant) then [who] else []) + TurnsOf(Step(s, who), schedule[1..], tenant)
  }

  // ---- the setting never leaks ----

  /** Outside the body of a scope a connection has no setting, and inside it has that scope's. */
  predicate SettingOk(c: Connection) {
    c.setting == if c.queue != [] && c.position.Inside? then c.queue[0].tenant else None
  }

  function Settings(connections: map<nat, Connection>): map<nat, Option<Id>> {
    map who | who in connections :: connections[who].setting
  }

  /** A row carries an id its tenant made, and is drafted only from inside a scope of that tenant. */
  predicate CellOk(id: RowId, cell: Cell, settings: map<nat, Option<Id>>) {
    && (cell.committed.Some? ==> cell.committed.value.tenant == id.origin)
    && (cell.draft.Some? ==>
          var Draft(owner, row) := cell.draft.value;
          row.tenant == id.origin && owner in settings && settings[owner] == Some(id.origin))
  }

  predicate CellsOk(cells: Cells, settings: map<nat, Option<Id>>) {
    forall id | id in cells :: CellOk(id, cells[id], settings)
  }

  predicate Ok(s: System) {
    && (forall who | who in s.connections :: SettingOk(s.connections[who]))
    && CellsOk(s.cells, Settings(s.connections))
  }

  /** A statement writes at most one row, of the tenant in the setting. */
  lemma ExecuteKeeps(cells: Cells, who: nat, statement: Statement, settings: map<nat, Option<Id>>)
    requires CellsOk(cells, settings) && who in settings
    ensures CellsOk(Execute(cells, who, settings[who], statement).0, settings)
  {
    var after := Execute(cells, who, settings[who], statement).0;
    if after != cells {
      var id := if statement.Insert? then RowId(settings[who].value, statement.serial) else statement.id;
      assert after == Write(cells, who, id, statement.row) && CellOk(id, after[id], settings);
    }
  }

  /** The end of a transaction leaves no draft of it behind. */
  lemma EndKeeps(cells: Cells, who: nat, settings: map<nat, Option<Id>>)
    requires CellsOk(cells, settings)
    ensures CellsOk(Commit(cells, who), settings[who := None]) && CellsOk(Rollback(cells, who), settings[who := None])
  {
  }

  /** A connection without a setting has no drafts, and may be given one. */
  lemma SetKeeps(cells: Cells, who: nat, setting: Option<Id>, settings: map<nat, Option<Id>>)
    requires CellsOk(cells, settings) && who in settings && settings[who] == None
    ensures CellsOk(cells, settings[who := setting])
  {
  }

  lemma TurnKeeps(cells: Cells, who: nat, c: Connection, settings: map<nat, Option<Id>>)
    requires CellsOk(cells, settings) && SettingOk(c) && who in settings && settings[who] == c.setting
    ensures var (after, next) := Turn(cells, who, c);
            SettingOk(next) && CellsOk(after, settings[who := next.setting])
  {
    assert settings[who := c.setting] == settings;
    if c.queue != [] {
      match c.position
      case Between =>
      case Begun => SetKeeps(cells, who, c.queue[0].tenant, settings);
      case Inside(heard) =>
        EndKeeps(cells, who, settings);
        if c.queue[0].Next(heard).Perform? {
          ExecuteKeeps(cells, who, c.queue[0].Next(heard).statement, settings);
        }
    }
  }

  lemma StepKeepsOk(s: System, who: nat)
    requires Ok(s)
    ensures Ok(Step(s, who))
  {
    if who in s.connections {
      TurnKeeps(s.cells, who, s.connections[who], Settings(s.connections));
      var next := Turn(s.cells, who, s.connections[who]).1;
      assert Settings(s.connections[who := next]) == Settings(s.connections)[who := next.setting];
    }
  }

  lemma {:induction false} RunKeepsOk(s: System, schedule: seq<nat>)
    requires Ok(s)
    ensures Ok(Run(s, schedule))
    decreases |schedule|
  {
    if schedule != [] {
      StepKeepsOk(s, schedule[0]);
      RunKeepsOk(Step(s, schedule[0]), schedule[1..]);
    }
  }

  /** Connections that have served nobody yet, over committed rows. */
  predicate Fresh(s: System) {
    && (forall who | who in s.connections :: s.connections[who].position == Between && s.connections[who].setting == None)
    && (forall id | id in s.cells :: s.cells[id].draft.None? && s.cells[id].committed.Some? && s.cells[id].committed.value.tenant == id.origin)
  }

  /** However connections are reused, a statement runs under the setting of its own scope, and a transaction that
      has just begun has none: no tenant is ever inherited from an earlier scope. */
  lemma SettingNeverLeaks(s: System, schedule: seq<nat>, who: nat)
    requires Fresh(s) && who in Run(s, schedule).connections
    ensures SettingOk(Run(s, schedule).connections[who])
  {
    RunKeepsOk(s, schedule);
  }

  // ---- a tenant's part runs by itself ----

  lemma SelectIsLocal(cells: Cells, who: nat, tenant: Id, wanted: (RowId, Row) -> bool, settings: map<nat, Option<Id>>)
    requires CellsOk(cells, settings)
    ensures Matching(View(cells, who), Some(tenant), wanted) == Matching(View(CellsOf(cells, tenant), who), Some(tenant), wanted)
  {
  }

  lemma CodesAreLocal(cells: Cells, who: nat, row: Row, self: RowId, settings: map<nat, Option<Id>>)
    requires CellsOk(cells, settings)
    ensures CodeTaken(View(cells, who), row, self) <==> CodeTaken(View(CellsOf(cells, row.tenant), who), row, self)
    ensures CodeAwaited(cells, who, row, self) <==> CodeAwaited(CellsOf(cells, row.tenant), who, row, self)
  {
    var own := CellsOf(cells, row.tenant);
    if CodeTaken(View(cells, who), row, self) {
      var id :| id in View(cells, who) && id != self && SameCode(View(cells, who)[id], row);
      assert id in View(own, who) && View(own, who)[id] == View(cells, who)[id];
    }
    if CodeTaken(View(own, who), row, self) {
      var id :| id in View(own, who) && id != self && SameCode(View(own, who)[id], row);
      assert id in View(cells, who) && View(own, who)[id] == View(cells, who)[id];
    }
    if CodeAwaited(cells, who, row, self) {
      var id :| id in cells && id != self && Locked(cells[id], who) && SameCode(cells[id].draft.value.row, row);
      assert id in own;
    }
  }

  lemma WriteIsLocal(cells: Cells, who: nat, id: RowId, row: Row)
    ensures CellsOf(Write(cells, who, id, row), id.origin) == Write(CellsOf(cells, id.origin), who, id, row)
  {
  }

  lemma InsertIsLocal(cells: Cells, who: nat, tenant: Id, serial: nat, row: Row, settings: map<nat, Option<Id>>)
    requires CellsOk(cells, settings)
    ensures var (after, response) := Execute(cells, who, Some(tenant), Insert(serial, row));
            (CellsOf(after, tenant), response) == Execute(CellsOf(cells, tenant), who, Some(tenant), Insert(serial, row))
  {
    CodesAreLocal(cells, who, row, RowId(tenant, serial), settings);
    WriteIsLocal(cells, who, RowId(tenant, serial), row);
  }

  lemma UpdateIsLocal(cells: Cells, who: nat, tenant: Id, id: RowId, expected: nat, row: Row, settings: map<nat, Option<Id>>)
    requires CellsOk(cells, settings)
    ensures var (after, response) := Execute(cells, who, Some(tenant), Update(id, expected, row));
            (CellsOf(after, tenant), response) == Execute(CellsOf(cells, tenant), who, Some(tenant), Update(id, expected, row))
  {
    CodesAreLocal(cells, who, row, id, settings);
    WriteIsLocal(cells, who, id, row);
  }

  /** A statement's answer and its effect on the tenant's rows depend on the tenant's rows alone ... */
  lemma ExecuteIsLocal(cells: Cells, who: nat, tenant: Id, statement: Statement, settings: map<nat, Option<Id>>)
    requires CellsOk(cells, settings)
    ensures var (after, response) := Execute(cells, who, Some(tenant), statement);
            (CellsOf(after, tenant), response) == Execute(CellsOf(cells, tenant), who, Some(tenant), statement)
  {
    match statement
    case Select(wanted) => SelectIsLocal(cells, who, tenant, wanted, settings);
    case Insert(serial, row) => InsertIsLocal(cells, who, tenant, serial, row, settings);
    case Update(id, expected, row) => UpdateIsLocal(cells, who, tenant, id, expected, row, settings);
  }

  /** ... and no row of another tenant is touched, by any setting. */
  lemma ExecuteSparesOthers(cells: Cells, who: nat, setting: Option<Id>, statement: Statement, other: Id, settings: map<nat, Option<Id>>)
    requires CellsOk(cells, settings) && setting != Some(other)
    ensures CellsOf(Execute(cells, who, setting, statement).0, other) == CellsOf(cells, other)
  {
  }

  lemma EndIsLocal(cells: Cells, who: nat, tenant: Id)
    ensures CellsOf(Commit(cells, who), tenant) == Commit(CellsOf(cells, tenant), who)
    ensures CellsOf(Rollback(cells, who), tenant) == Rollback(CellsOf(cells, tenant), who)
  {
  }

  lemma EndSparesOthers(cells: Cells, who: nat, other: Id, settings: map<nat, Option<Id>>)
    requires CellsOk(cells, settings) && who in settings && settings[who] != Some(other)
    ensures CellsOf(Commit(cells, who), other) == CellsOf(cells, other)
    ensures CellsOf(Rollback(cells, who), other) == CellsOf(cells, other)
  {
  }

  lemma OutcomesGrow(done: seq<Outcome>, next: Outcome, tenant: Id)
    ensures OutcomesOf(done + [next], tenant) == OutcomesOf(done, tenant) + if next.tenant == Some(tenant) then [next] else []
  {
    assert (done + [next])[..|done + [next]| - 1] == done;
  }

  lemma ClosedIsLocal(c: Connection, heard: seq<Response>, committed: bool, tenant: Id)
    requires c.queue != []
    ensures ConnectionOf(c.Closed(heard, committed), tenant) ==
            if Serves(c, tenant) then ConnectionOf(c, tenant).Closed(heard, committed) else ConnectionOf(c, tenant)
  {
    OutcomesGrow(c.done, Outcome(c.queue[0].tenant, heard, committed), tenant);
  }

  lemma OwnStatementIsLocal(cells: Cells, who: nat, c: Connection, tenant: Id, settings: map<nat, Option<Id>>)
    requires CellsOk(cells, settings) && SettingOk(c) && Serves(c, tenant)
    requires c.position.Inside? && c.queue[0].Next(c.position.heard).Perform?
    ensures var (after, next) := Turn(cells, who, c);
            (CellsOf(after, tenant), ConnectionOf(next, tenant)) == Turn(CellsOf(cells, tenant), who, ConnectionOf(c, tenant))
  {
    EndIsLocal(cells, who, tenant);
    ClosedIsLocal(c, c.position.heard + [Rejected], false, tenant);
    ExecuteIsLocal(cells, who, tenant, c.queue[0].Next(c.position.heard).statement, settings);
  }

  lemma OwnTurnIsLocal(cells: Cells, who: nat, c: Connection, tenant: Id, settings: map<nat, Option<Id>>)
    requires CellsOk(cells, settings) && SettingOk(c) && Serves(c, tenant)
    ensures var (after, next) := Turn(cells, who, c);
            (CellsOf(after, tenant), ConnectionOf(next, tenant)) == Turn(CellsOf(cells, tenant), who, ConnectionOf(c, tenant))
  {
    if c.position.Inside? {
      if c.queue[0].Next(c.position.heard).Perform? {
        OwnStatementIsLocal(cells, who, c, tenant, settings);
      } else {
        EndIsLocal(cells, who, tenant);
        ClosedIsLocal(c, c.position.heard, true, tenant);
        ClosedIsLocal(c, c.position.heard, false, tenant);
      }
    }
  }

  lemma OtherTurnIsUnseen(cells: Cells, who: nat, c: Connection, tenant: Id, settings: map<nat, Option<Id>>)
    requires CellsOk(cells, settings) && SettingOk(c) && who in settings && settings[who] == c.setting && !Serves(c, tenant)
    ensures var (after, next) := Turn(cells, who, c);
            (CellsOf(after, tenant), ConnectionOf(next, tenant)) == (CellsOf(cells, tenant), ConnectionOf(c, tenant))
  {
    if c.queue != [] && c.position.Inside? {
      var heard := c.position.heard;
      EndSparesOthers(cells, who, tenant, settings);
      ClosedIsLocal(c, heard, true, tenant);
      ClosedIsLocal(c, heard, false, tenant);
      ClosedIsLocal(c, heard + [Rejected], false, tenant);
      if c.queue[0].Next(heard).Perform? {
        ExecuteSparesOthers(cells, who, c.setting, c.queue[0].Next(heard).statement, tenant, settings);
      }
    }
  }

  lemma StepProjects(s: System, who: nat, tenant: Id)
    requires Ok(s)
    ensures Projection(Step(s, who), tenant) ==
            if who in s.connections && Serves(s.connections[who], tenant) then Step(Projection(s, tenant), who) else Projection(s, tenant)
  {
    if who in s.connections {
      var c := s.connections[who];
      var (after, next) := Turn(s.cells, who, c);
      assert ConnectionsOf(s.connections[who := next], tenant) == ConnectionsOf(s.connections, tenant)[who := ConnectionOf(next, tenant)];
      if Serves(c, tenant) {
        OwnTurnIsLocal(s.cells, who, c, tenant, Settings(s.connections));
      } else {
        OtherTurnIsUnseen(s.cells, who, c, tenant, Settings(s.connections));
        assert ConnectionsOf(s.connections, tenant)[who := ConnectionOf(c, tenant)] == ConnectionsOf(s.connections, tenant);
      }
    }
  }

  lemma {:induction false} RunProjects(s: System, schedule: seq<nat>, tenant: Id)
    requires Ok(s)
    ensures Projection(Run(s, schedule), tenant) == Run(Projection(s, tenant), TurnsOf(s, schedule, tenant))
    decreases |schedule|
  {
    if schedule != [] {
      var who, rest := schedule[0], schedule[1..];
      StepKeepsOk(s, who);
      StepProjects(s, who, tenant);
      RunProjects(Step(s, who), rest, tenant);
      var turns := TurnsOf(s, schedule, tenant);
      if who in s.connections && Serves(s.connections[who], tenant) {
        assert turns[0] == who && turns[1..] == TurnsOf(Step(s, who), rest, tenant);
      } else {
        assert turns == TurnsOf(Step(s, who), rest, tenant);
      }
    }
  }

  /** Tenant projection: whatever the scopes of all tenants do, on whatever reused connections, and however their
      statements, commits and rollbacks interleave, what one tenant's scopes hear and what becomes of its rows
      is exactly what a run of that tenant alone gives. */
  lemma TenantsRunAlone(s: System, schedule: seq<nat>, tenant: Id)
    requires Fresh(s)
    ensures Projection(Run(s, schedule), tenant) == Run(Projection(s, tenant), TurnsOf(s, schedule, tenant))
  {
    RunProjects(s, schedule, tenant);
  }

  /** A scope that never sets a tenant sees no row and writes none. */
  lemma NoTenantNoRows(cells: Cells, who: nat, statement: Statement)
    ensures var (after, response) := Execute(cells, who, None, statement);
            after == cells && (response.Found? ==> response.rows == map[]) && (response.Affected? ==> response.count == 0)
  {
  }

  // ---- one scope by itself ----

  /** The rest of the body of a scope on connection 0 when no other connection is at work. */
  function Alone(cells: Cells, scope: Scope, heard: seq<Response>): (Cells, Outcome)
    decreases scope.length - |heard|
  {
    match scope.Next(heard)
    case Return => (Commit(cells, 0), Outcome(scope.tenant, heard, true))
    case Raise => (Rollback(cells, 0), Outcome(scope.tenant, heard, false))
    case Perform(statement) =>
      var (after, response) := Execute(cells, 0, scope.tenant, statement);
      if response.Rejected? || response.Blocked? then (Rollback(cells, 0), Outcome(scope.tenant, heard + [response], false))
      else Alone(after, scope, heard + [response])
  }

  class Database {
    var cells: Cells
  }

  /** A session over a pooled connection, with its transaction-local setting. */
  class TenantSession {
    var setting: Option<Id>

    /** `session.begin()`. */
    constructor ()
      ensures setting == None
    {
      setting := None;
    }

    /** `set_tenant_context`. */
    method SetTenantContext(tenant: Id)
      modifies this
      ensures setting == Some(tenant)
    {
      setting := Some(tenant);
    }

    method Perform(db: Database, statement: Statement) returns (response: Response)
      modifies db
      ensures (db.cells, response) == Execute(old(db.cells), 0, setting, statement)
    {
      var (after, answer) := Execute(db.cells, 0, setting, statement);
      db.cells := after;
      response := answer;
    }

    /** The end of `session.begin()`: commit, or rollback after an exception. */
    method End(db: Database, committed: bool)
      modifies this, db
      ensures setting == None
      ensures db.cells == if committed then Commit(old(db.cells), 0) else Rollback(old(db.cells), 0)
    {
      db.cells := if committed then Commit(db.cells, 0) else Rollback(db.cells, 0);
      setting := None;
    }
  }

  /** `tenant_session_scope` around the body of a scope. */
  method InTenantScope(db: Database, scope: Scope) returns (outcome: Outcome)
    requires scope.tenant.Some?
    modifies db
    ensures (db.cells, outcome) == Alone(old(db.cells), scope, [])
  {
    var session := new TenantSession();
    session.SetTenantContext(scope.tenant.value);
    var heard: seq<Response> := [];
    while scope.Next(heard).Perform?
      invariant session.setting == scope.tenant
      invariant Alone(db.cells, scope, heard) == Alone(old(db.cells), scope, [])
      decreases scope.length - |heard|
    {
      var response := session.Perform(db, scope.Next(heard).statement);
      if response.Rejected? || response.Blocked? {
        session.End(db, false);
        return Outcome(scope.tenant, heard + [response], false);
      }
      heard := heard + [response];
    }
    session.End(db, scope.Next(heard).Return?);
    outcome := Outcome(scope.tenant, heard, scope.Next(heard).Return?);
  }

  /** Nobody else has drafts, so a lone scope never waits. */
  predicate OnlyOwnDrafts(cells: Cells) {
    forall id | id in cells :: !Locked(cells[id], 0)
  }

  function LoneSystem(cells: Cells, c: Connection): System {
    System(cells, map[0 := c])
  }

  lemma LoneStep(cells: Cells, c: Connection, rest: seq<nat>)
    ensures Run(LoneSystem(cells, c), [0] + rest) == Run(LoneSystem(Turn(cells, 0, c).0, Turn(cells, 0, c).1), rest)
  {
    var (after, next) := Turn(cells, 0, c);
    assert Step(LoneSystem(cells, c), 0) == LoneSystem(after, next) && ([0] + rest)[1..] == rest;
  }

  lemma {:induction false} BodyIsRun(cells: Cells, scope: Scope, heard: seq<Response>) returns (turns: seq<nat>)
    requires OnlyOwnDrafts(cells)
    ensures var (after, outcome) := Alone(cells, scope, heard);
            Run(LoneSystem(cells, Connection(scope.tenant, Inside(heard), [scope], [])), turns) ==
            LoneSystem(after, Connection(None, Between, [], [outcome]))
    decreases scope.length - |heard|
  {
    var c := Connection(scope.tenant, Inside(heard), [scope], []);
    var rest := [];
    if scope.Next(heard).Perform? {
      var (after, response) := Execute(cells, 0, scope.tenant, scope.Next(heard).statement);
      if !response.Rejected? {
        rest := BodyIsRun(after, scope, heard + [response]);
      }
    }
    turns := [0] + rest;
    LoneStep(cells, c, rest);
    assert [scope][1..] == [];
    if rest == [] {
      assert Turn(cells, 0, c).1 == Connection(None, Between, [], [Alone(cells, scope, heard).1]);
    }
  }

  /** The scope method is the special case of one connection with one scope: begin, set the tenant, and the body
      to its end. */
  lemma AloneIsRun(cells: Cells, scope: Scope) returns (turns: seq<nat>)
    requires OnlyOwnDrafts(cells)
    ensures var (after, outcome) := Alone(cells, scope, []);
            Run(LoneSystem(cells, Connection(None, Between, [scope], [])), turns) ==
            LoneSystem(after, Connection(None, Between, [], [outcome]))
  {
    var body := BodyIsRun(cells, scope, []);
    LoneStep(cells, Connection(None, Begun, [scope], []), body);
    LoneStep(cells, Connection(None, Between, [scope], []), [0] + body);
    turns := [0] + ([0] + body);
  }
}
