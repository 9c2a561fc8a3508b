/** Whole runs of the token service: logins, verifications, two-phase rotations and revocations interleaving
    under a clock that never goes back. */
module TokenProtocol {
  import opened Wrappers
  import opened Clock
  import opened Revocations
  import opened JwtTokens

  /** A rotation that has verified its token and not yet consumed it. */
  datatype Rotation = Rotation(token: Token, subject: TokenSubject)

  datatype System = System(svc: Service, clock: nat, pending: map<nat, Rotation>)

  datatype Op =
    | Login(subject: TokenSubject, accessId: Id, refreshId: Id, now: nat)
    | VerifyOp(token: Token, kind: TokenKind, now: nat)
    | Begin(call: nat, token: Token, subject: TokenSubject, now: nat)
    | Finish(call: nat, accessId: Id, refreshId: Id, now: nat)
    | LogoutAccess(token: Token, now: nat)
    | LogoutSession(token: Token, now: nat)

  datatype Answer = Ignored | Issued(pair: Pair) | Verified | Started | Refused(error: TokenError) | Done

  function Started0(settings: Settings, store: Store): System {
    System(Service(settings, store, []), 0, map[])
  }

  const EMPTY_MEMORY := Memory({}, {})

  const EMPTY_REDIS := Redis(map[], map[])

  /** The token ids and sessions a store has ever been told about. */
  function StoredIds(store: Store): set<Id> {
    if store.Memory? then store.tokens else store.tokenKeys.Keys
  }

  function StoredSessions(store: Store): set<Id> {
    if store.Memory? then store.sessions else store.sessionKeys.Keys
  }

  predicate FreshId(svc: Service, id: Id) {
    id !in StoredIds(svc.store) && forall t | t in svc.issued :: t.id != id
  }

  predicate FreshIds(svc: Service, accessId: Id, refreshId: Id) {
    accessId != refreshId && FreshId(svc, accessId) && FreshId(svc, refreshId)
  }

  predicate FreshSession(svc: Service, session: Id) {
    session !in StoredSessions(svc.store) && forall t | t in svc.issued :: t.Session() != session
  }

  /** The assumptions on the environment: a clock that does not go back, fresh ids, and sessions made at login.
      An operation that breaks them does not happen. */
  predicate Possible(s: System, op: Op) {
    && s.clock <= op.now
    && (op.Login? ==> FreshIds(s.svc, op.accessId, op.refreshId) && FreshSession(s.svc, op.subject.identity.session))
    && (op.Begin? ==> op.call !in s.pending)
    && (op.Finish? ==> op.call in s.pending && FreshIds(s.svc, op.accessId, op.refreshId))
  }

  function Outcome(error: Option<TokenError>, fine: Answer): Answer {
    if error.Some? then Refused(error.value) else fine
  }

  function Step(s0: System, op: Op): (System, Answer) {
    if !Possible(s0, op) then (s0, Ignored)
    else
      var s := s0.(clock := op.now);
      match op
      case Login(subject, accessId, refreshId, now) =>
        var pair := Issue(s.svc.settings, subject, accessId, refreshId, now);
        (s.(svc := s.svc.(issued := s.svc.issued + [pair.access, pair.refresh])), Issued(pair))
      case VerifyOp(token, kind, now) =>
        (s, Outcome(Verify(s.svc, token, kind, now), Verified))
      case Begin(call, token, subject, now) =>
        var error := BeginRotation(s.svc, token, subject, now);
        (if error.Some? then s else s.(pending := s.pending[call := Rotation(token, subject)]), Outcome(error, Started))
      case Finish(call, accessId, refreshId, now) =>
        var Rotation(token, subject) := s.pending[call];
        var (svc, result) := FinishRotation(s.svc, token, subject, accessId, refreshId, now);
        (s.(svc := svc, pending := s.pending - {call}),
         match result
         case Err(error) => Refused(error)
         case Ok(pair) => Issued(pair))
      case LogoutAccess(token, now) =>
        var (svc, error) := RevokeAccess(s.svc, token, now);
        (s.(svc := svc), Outcome(error, Done))
      case LogoutSession(token, now) =>
        var (svc, error) := RevokeSession(s.svc, token, now);
        (s.(svc := svc), Outcome(error, Done))
  }

  function Run(s: System, ops: seq<Op>): System
    decreases |ops|
  {
    if ops == [] then s else Run(Step(s, ops[0]).0, ops[1..])
  }

  function Answers(s: System, ops: seq<Op>): seq<Answer>
    decreases |ops|
  {
    if ops == [] then [] else [Step(s, ops[0]).1] + Answers(Step(s, ops[0]).0, ops[1..])
  }

  // ---- the in-memory store: rotation is a chain ----

  predicate Unconsumed(s: Service, t: Token)
    requires s.store.Memory?
  {
    t in s.issued && t.kind == Refresh && t.id !in s.store.tokens
  }

  predicate DistinctIds(issued: seq<Token>) {
    forall t, u | t in issued && u in issued :: t.id == u.id ==> t == u
  }

  predicate PendingOk(s: System) {
    forall c | c in s.pending ::
      var Rotation(token, subject) := s.pending[c];
      token in s.svc.issued && token.kind == Refresh && token.subject.identity == subject.identity
  }

  /** True of either store: ids are unique, and a verified rotation is of a token that was issued. */
  predicate IdsInv(s: System) {
    DistinctIds(s.svc.issued) && PendingOk(s)
  }

  ghost predicate ChainInv(s: System) {
    && s.svc.store.Memory?
    && IdsInv(s)
    && (forall t, u | Unconsumed(s.svc, t) && Unconsumed(s.svc, u) :: t.Session() == u.Session() ==> t == u)
  }

  lemma StepKeepsIds(s: System, op: Op)
    requires IdsInv(s)
    ensures IdsInv(Step(s, op).0)
  {
  }

  lemma LoginKeepsChain(s: System, op: Op)
    requires ChainInv(s) && op.Login? && Possible(s, op)
    ensures ChainInv(Step(s, op).0)
  {
  }

  lemma FinishKeepsChain(s: System, op: Op)
    requires ChainInv(s) && op.Finish? && Possible(s, op)
    ensures ChainInv(Step(s, op).0)
  {
    var Rotation(token, subject) := s.pending[op.call];
    var after := Step(s, op).0;
    if token.id !in s.svc.store.tokens {
      var pair := Issue(s.svc.settings, subject, op.accessId, op.refreshId, op.now);
      assert forall t :: t in after.svc.issued <==> t in s.svc.issued || t == pair.access || t == pair.refresh;
      forall t | Unconsumed(after.svc, t) && t != pair.refresh
        ensures Unconsumed(s.svc, t) && t.Session() != token.Session()
      {
        assert Unconsumed(s.svc, t) && Unconsumed(s.svc, token);
      }
    }
  }

  lemma StepKeepsChain(s: System, op: Op)
    requires ChainInv(s)
    ensures var after := Step(s, op).0;
            ChainInv(after) && s.svc.store.tokens <= after.svc.store.tokens && s.svc.store.sessions <= after.svc.store.sessions
  {
    if Possible(s, op) {
      if op.Login? {
        LoginKeepsChain(s, op);
      } else if op.Finish? {
        FinishKeepsChain(s, op);
      } else {
        var after := Step(s, op).0;
        assert forall t :: Unconsumed(after.svc, t) ==> Unconsumed(s.svc, t);
      }
    }
  }

  lemma {:induction false} RunKeepsChain(s: System, ops: seq<Op>)
    requires ChainInv(s)
    ensures var after := Run(s, ops);
            ChainInv(after) && s.svc.store.tokens <= after.svc.store.tokens && s.svc.store.sessions <= after.svc.store.sessions
    decreases |ops|
  {
    if ops != [] {
      StepKeepsChain(s, ops[0]);
      RunKeepsChain(Step(s, ops[0]).0, ops[1..]);
    }
  }

  /** In every reachable state a session has at most one refresh token that has not been consumed. */
  lemma OneLiveRefreshPerSession(settings: Settings, ops: seq<Op>, t: Token, u: Token)
    requires var svc := Run(Started0(settings, EMPTY_MEMORY), ops).svc;
             svc.store.Memory? && Unconsumed(svc, t) && Unconsumed(svc, u) && t.Session() == u.Session()
    ensures t == u
  {
    RunKeepsChain(Started0(settings, EMPTY_MEMORY), ops);
  }

  /** The token an operation rotated, if it did. */
  function Rotated(s: System, op: Op): Option<Token> {
    if op.Finish? && op.call in s.pending && Step(s, op).1.Issued? then Some(s.pending[op.call].token) else None
  }

  /** A refresh token rotates successfully at most once in a run, even when several rotations of it were verified. */
  lemma RotatesOnce(settings: Settings, past: seq<Op>, first: Op, between: seq<Op>, second: Op)
    requires var s := Run(Started0(settings, EMPTY_MEMORY), past);
             Rotated(s, first).Some?
    ensures var s := Run(Started0(settings, EMPTY_MEMORY), past);
            Rotated(Run(Step(s, first).0, between), second) != Rotated(s, first)
  {
    RunKeepsChain(Started0(settings, EMPTY_MEMORY), past);
    var s := Run(Started0(settings, EMPTY_MEMORY), past);
    StepKeepsChain(s, first);
    RunKeepsChain(Step(s, first).0, between);
  }

  /** Once a session has been revoked, no token of it, issued before or after, is accepted again. */
  lemma RevokedSessionStaysDead(settings: Settings, past: seq<Op>, logout: Op, between: seq<Op>, use: Op)
    requires logout.LogoutSession? && Step(Run(Started0(settings, EMPTY_MEMORY), past), logout).1 == Done
    requires (use.VerifyOp? || use.Begin?) && use.token.Session() == logout.token.Session()
    ensures var s := Run(Started0(settings, EMPTY_MEMORY), past);
            var answer := Step(Run(Step(s, logout).0, between), use).1;
            answer.Ignored? || answer.Refused?
  {
    RunKeepsChain(Started0(settings, EMPTY_MEMORY), past);
    var s := Run(Started0(settings, EMPTY_MEMORY), past);
    StepKeepsChain(s, logout);
    RunKeepsChain(Step(s, logout).0, between);
  }

  // ---- either store: what the revocations of a run leave behind ----

  /** The revocation an operation stored: by a token with this expiry, at this time. */
  datatype Entry = Entry(expiresAt: int, at: int)

  function TokenWrite(s: System, op: Op, id: Id): Option<Entry> {
    match op
    case LogoutAccess(t, now) => if t.id == id && Step(s, op).1 == Done then Some(Entry(t.expiresAt, now)) else None
    case Finish(_, _, _, now) =>
      (match Rotated(s, op)
       case None => None
       case Some(t) => if t.id == id then Some(Entry(t.expiresAt, now)) else None)
    case _ => None
  }

  function SessionWrite(s: System, op: Op, session: Id): Option<Entry> {
    if op.LogoutSession? && op.token.Session() == session && Step(s, op).1 == Done then
      Some(Entry(op.token.expiresAt, op.now))
    else
      None
  }

  /** The last access-token logout or rotation of a token id in a run ... */
  function LastTokenWrite(s: System, ops: seq<Op>, id: Id): Option<Entry>
    decreases |ops|
  {
    if ops == [] then None
    else
      var later := LastTokenWrite(Step(s, ops[0]).0, ops[1..], id);
      if later.Some? then later else TokenWrite(s, ops[0], id)
  }

  /** ... and the last accepted logout of a session. */
  function LastSessionWrite(s: System, ops: seq<Op>, session: Id): Option<Entry>
    decreases |ops|
  {
    if ops == [] then None
    else
      var later := LastSessionWrite(Step(s, ops[0]).0, ops[1..], session);
      if later.Some? then later else SessionWrite(s, ops[0], session)
  }

  /** Plain sets keep an entry for ever, Redis until its deadline. */
  predicate Live(store: Store, entry: Option<Entry>, now: int) {
    entry.Some? && (store.Memory? || now < Deadline(entry.value.expiresAt, entry.value.at))
  }

  lemma StepWrites(s: System, op: Op, id: Id, now: int)
    ensures var after, token, session := Step(s, op).0.svc, TokenWrite(s, op, id), SessionWrite(s, op, id);
            after.settings == s.svc.settings && after.store.Memory? == s.svc.store.Memory? &&
            HoldsToken(after.store, id, now) == (if token.None? then HoldsToken(s.svc.store, id, now) else Live(s.svc.store, token, now)) &&
            HoldsSession(after.store, id, now) == (if session.None? then HoldsSession(s.svc.store, id, now) else Live(s.svc.store, session, now))
  {
  }

  lemma {:induction false} RunWrites(s: System, ops: seq<Op>, id: Id, now: int)
    ensures var after, token, session := Run(s, ops).svc, LastTokenWrite(s, ops, id), LastSessionWrite(s, ops, id);
            after.settings == s.svc.settings && after.store.Memory? == s.svc.store.Memory? &&
            HoldsToken(after.store, id, now) == (if token.None? then HoldsToken(s.svc.store, id, now) else Live(s.svc.store, token, now)) &&
            HoldsSession(after.store, id, now) == (if session.None? then HoldsSession(s.svc.store, id, now) else Live(s.svc.store, session, now))
    decreases |ops|
  {
    if ops != [] {
      StepWrites(s, ops[0], id, now);
      RunWrites(Step(s, ops[0]).0, ops[1..], id, now);
    }
  }

  /** In every reachable state of either store, a genuine token that is neither expired nor early is refused
      exactly while the last revocation of its id or the last logout of its session is live. */
  lemma RefusedIff(settings: Settings, store: Store, ops: seq<Op>, t: Token, kind: TokenKind, now: int)
    requires store == EMPTY_MEMORY || store == EMPTY_REDIS
    requires Decode(settings, Run(Started0(settings, store), ops).svc.issued, t, kind, now).None?
    ensures var s0 := Started0(settings, store);
            Verify(Run(s0, ops).svc, t, kind, now).Some? <==>
            Live(store, LastTokenWrite(s0, ops, t.id), now) || Live(store, LastSessionWrite(s0, ops, t.Session()), now)
  {
    RunWrites(Started0(settings, store), ops, t.id, now);
    RunWrites(Started0(settings, store), ops, t.Session(), now);
  }

  /** After a token has been rotated, a further verified rotation of it succeeds never over plain sets, and over
      Redis exactly when the deadline of its last rotation has passed. */
  lemma RotatesAgainIff(settings: Settings, store: Store, past: seq<Op>, first: Op, between: seq<Op>, second: Op)
    requires store == EMPTY_MEMORY || store == EMPTY_REDIS
    requires Rotated(Run(Started0(settings, store), past), first).Some?
    requires var s := Run(Started0(settings, store), past);
             var u := Run(Step(s, first).0, between);
             second.Finish? && Possible(u, second) && u.pending[second.call].token == Rotated(s, first).value
    ensures var s := Run(Started0(settings, store), past);
            var t := Rotated(s, first).value;
            var since := LastTokenWrite(Step(s, first).0, between, t.id);
            Rotated(Run(Step(s, first).0, between), second).Some? <==>
            !Live(store, if since.Some? then since else Some(Entry(t.expiresAt, first.now)), second.now)
  {
    var s0 := Started0(settings, store);
    var s := Run(s0, past);
    var t := Rotated(s, first).value;
    RunWrites(s0, past, t.id, second.now);
    StepWrites(s, first, t.id, second.now);
    RunWrites(Step(s, first).0, between, t.id, second.now);
  }

  // ---- lifetimes ----

  /** The last refresh token issued for its session. */
  predicate IsNewest(issued: seq<Token>, i: nat) {
    i < |issued| && issued[i].kind == Refresh &&
    forall k | i < k < |issued| :: issued[k].kind == Refresh ==> issued[k].Session() != issued[i].Session()
  }

  /** No token of its session expires later than the newest refresh token. */
  predicate NewestLongest(issued: seq<Token>) {
    forall i, j | 0 <= i < |issued| && 0 <= j < |issued| ::
      IsNewest(issued, i) && issued[j].Session() == issued[i].Session() ==> issued[j].expiresAt <= issued[i].expiresAt
  }

  predicate ExpiryBounded(settings: Settings, clock: int, issued: seq<Token>) {
    forall t | t in issued :: t.expiresAt <= WholeSeconds(clock + settings.refreshTtl)
  }

  predicate ClockInv(settings: Settings, clock: int, issued: seq<Token>) {
    && settings.Valid() && settings.accessTtl <= settings.refreshTtl
    && NewestLongest(issued)
    && ExpiryBounded(settings, clock, issued)
  }

  lemma BoundAdvances(settings: Settings, clock: int, issued: seq<Token>, now: int)
    requires ExpiryBounded(settings, clock, issued) && clock <= now
    ensures ExpiryBounded(settings, now, issued)
  {
  }

  /** Issuing a pair keeps the newest refresh token the longest-lived of its session. */
  lemma IssueKeepsNewest(settings: Settings, issued: seq<Token>, subject: TokenSubject, accessId: Id, refreshId: Id, now: int)
    requires ClockInv(settings, now, issued)
    ensures var pair := Issue(settings, subject, accessId, refreshId, now);
            ClockInv(settings, now, issued + [pair.access, pair.refresh])
  {
    WholeSecondsMonotone(now + settings.accessTtl, now + settings.refreshTtl);
    var pair := Issue(settings, subject, accessId, refreshId, now);
    var after := issued + [pair.access, pair.refresh];
    var last := |after| - 1;
    assert after[last] == pair.refresh && after[last - 1] == pair.access;
    forall i, j | 0 <= i < |after| && 0 <= j < |after| && IsNewest(after, i) && after[j].Session() == after[i].Session()
      ensures after[j].expiresAt <= after[i].expiresAt
    {
      if i < |issued| {
        assert after[last].kind == Refresh && after[last].Session() != after[i].Session();
        assert j < |issued|;
        forall k | i < k < |issued| && issued[k].kind == Refresh ensures issued[k].Session() != issued[i].Session() {
          assert after[k] == issued[k];
        }
        assert IsNewest(issued, i);
      } else {
        assert i == last;
        if j < |issued| {
          assert after[j] in issued;
        }
      }
    }
  }

  lemma StepKeepsClock(s: System, op: Op)
    requires ClockInv(s.svc.settings, s.clock, s.svc.issued)
    ensures var after := Step(s, op).0;
            ClockInv(after.svc.settings, after.clock, after.svc.issued)
  {
    if Possible(s, op) {
      BoundAdvances(s.svc.settings, s.clock, s.svc.issued, op.now);
      if op.Login? {
        IssueKeepsNewest(s.svc.settings, s.svc.issued, op.subject, op.accessId, op.refreshId, op.now);
      } else if op.Finish? {
        IssueKeepsNewest(s.svc.settings, s.svc.issued, s.pending[op.call].subject, op.accessId, op.refreshId, op.now);
      }
    }
  }

  lemma {:induction false} RunKeepsClock(s: System, ops: seq<Op>)
    requires ClockInv(s.svc.settings, s.clock, s.svc.issued)
    ensures var after := Run(s, ops);
            ClockInv(after.svc.settings, after.clock, after.svc.issued)
    decreases |ops|
  {
    if ops != [] {
      StepKeepsClock(s, ops[0]);
      RunKeepsClock(Step(s, ops[0]).0, ops[1..]);
    }
  }

  /** With either store and access TTL no longer than refresh TTL, in every reachable state the newest refresh
      token of a session has the largest expiry of all tokens ever issued for it. */
  lemma NewestRefreshLastsLongest(settings: Settings, store: Store, ops: seq<Op>, i: nat, t: Token)
    requires settings.Valid() && settings.accessTtl <= settings.refreshTtl
    requires var issued := Run(Started0(settings, store), ops).svc.issued;
             IsNewest(issued, i) && t in issued && t.Session() == issued[i].Session()
    ensures t.expiresAt <= Run(Started0(settings, store), ops).svc.issued[i].expiresAt
  {
    RunKeepsClock(Started0(settings, store), ops);
  }

  /** So a logout with the newest refresh token refuses over Redis, as long as the session is not logged out
      again, every token it had: at every instant but those between the last second of the newest token and
      the end of its clock skew, and for the first minute in any case. */
  lemma NewestRevocationHolds(settings: Settings, past: seq<Op>, i: nat, logout: Op, between: seq<Op>, t: Token, later: int)
    requires settings.Valid() && settings.accessTtl <= settings.refreshTtl
    requires var s := Run(Started0(settings, EMPTY_REDIS), past);
             IsNewest(s.svc.issued, i) && logout == LogoutSession(s.svc.issued[i], logout.now) && Step(s, logout).1 == Done &&
             t in s.svc.issued && t.Session() == logout.token.Session() &&
             LastSessionWrite(Step(s, logout).0, between, t.Session()).None?
    requires later < logout.now + MIN_TTL_SECONDS * SECOND ||
             !(logout.token.expiresAt - SECOND < later < logout.token.expiresAt + settings.skew)
    ensures Verify(Run(Step(Run(Started0(settings, EMPTY_REDIS), past), logout).0, between).svc, t, t.kind, later).Some?
  {
    var s := Run(Started0(settings, EMPTY_REDIS), past);
    NewestRefreshLastsLongest(settings, EMPTY_REDIS, past, i, t);
    RunWrites(Started0(settings, EMPTY_REDIS), past, t.Session(), later);
    StepWrites(s, logout, t.Session(), later);
    RunWrites(Step(s, logout).0, between, t.Session(), later);
    DeadlineBounds(logout.token.expiresAt, logout.now);
  }
}
