/** The token service over Redis compared with the same service over plain sets, run by run. */
module StoreComparison {
  import opened Wrappers
  import opened Clock
  import opened Revocations
  import opened JwtTokens
  import opened TokenProtocol

  // ---- exactly when the answers are the same ----

  /** A key was set for the token or its session, and every such key is gone. */
  predicate Lapsed(svc: Service, t: Token, now: int) {
    && (t.id in StoredIds(svc.store) || t.Session() in StoredSessions(svc.store))
    && !HoldsToken(svc.store, t.id, now) && !HoldsSession(svc.store, t.Session(), now)
  }

  /** An operation on a token that would still pass, but for a revocation Redis no longer has. */
  predicate LapsedUse(r: System, op: Op) {
    Possible(r, op) &&
    match op
    case VerifyOp(t, kind, now) => Decode(r.svc.settings, r.svc.issued, t, kind, now).None? && Lapsed(r.svc, t, now)
    case Begin(_, t, _, now) => Decode(r.svc.settings, r.svc.issued, t, Refresh, now).None? && Lapsed(r.svc, t, now)
    case Finish(c, _, _, now) =>
      var id := r.pending[c].token.id;
      id in StoredIds(r.svc.store) && !HoldsToken(r.svc.store, id, now)
    case _ => false
  }

  predicate NoLapse(r: System, ops: seq<Op>)
    decreases |ops|
  {
    ops != [] ==> !LapsedUse(r, ops[0]) && NoLapse(Step(r, ops[0]).0, ops[1..])
  }

  /** The two systems side by side: equal but for the store, where Redis has ever had a key for what the sets hold. */
  predicate SameKeys(m: System, r: System) {
    && m.svc.store.Memory? && r.svc.store.Redis?
    && r == m.(svc := m.svc.(store := r.svc.store))
    && m.svc.store.tokens == r.svc.store.tokenKeys.Keys
    && m.svc.store.sessions == r.svc.store.sessionKeys.Keys
  }

  lemma StepCompared(m: System, r: System, op: Op)
    requires SameKeys(m, r)
    ensures Step(m, op).1 == Step(r, op).1 <==> !LapsedUse(r, op)
    ensures !LapsedUse(r, op) ==> SameKeys(Step(m, op).0, Step(r, op).0)
  {
    assert Possible(m, op) == Possible(r, op);
  }

  lemma {:induction false} RunsCompared(m: System, r: System, ops: seq<Op>)
    requires SameKeys(m, r)
    ensures Answers(m, ops) == Answers(r, ops) <==> NoLapse(r, ops)
    decreases |ops|
  {
    if ops != [] {
      var op, rest := ops[0], ops[1..];
      StepCompared(m, r, op);
      assert Answers(m, ops)[0] == Step(m, op).1 && Answers(r, ops)[0] == Step(r, op).1;
      assert Answers(m, ops)[1..] == Answers(Step(m, op).0, rest) && Answers(r, ops)[1..] == Answers(Step(r, op).0, rest);
      if !LapsedUse(r, op) {
        RunsCompared(Step(m, op).0, Step(r, op).0, rest);
      }
    }
  }

  /** The service over Redis gives the same answers, one by one, as over plain sets exactly in the runs that
      never use a token all of whose keys have lapsed. */
  lemma RedisAgreesIff(settings: Settings, ops: seq<Op>)
    ensures Answers(Started0(settings, EMPTY_REDIS), ops) == Answers(Started0(settings, EMPTY_MEMORY), ops) <==>
            NoLapse(Started0(settings, EMPTY_REDIS), ops)
  {
    RunsCompared(Started0(settings, EMPTY_MEMORY), Started0(settings, EMPTY_REDIS), ops);
  }

  // ---- when a lapse can happen ----

  /** The final window of a token: its last second and the clock skew after it. */
  predicate InFinalWindow(settings: Settings, t: Token, now: int) {
    t.expiresAt - SECOND < now < t.expiresAt + settings.skew
  }

  /** A token's own key lasts into its last second. */
  ghost predicate OwnKeysLast(r: System) {
    && r.svc.store.Redis? && IdsInv(r)
    && forall t | t in r.svc.issued && t.id in r.svc.store.tokenKeys :: r.svc.store.tokenKeys[t.id] > t.expiresAt - SECOND
  }

  lemma StepKeepsOwnKeys(r: System, op: Op)
    requires OwnKeysLast(r)
    ensures OwnKeysLast(Step(r, op).0)
  {
    StepKeepsIds(r, op);
    if op.LogoutAccess? {
      DeadlineBounds(op.token.expiresAt, op.now);
    } else if op.Finish? && op.call in r.pending {
      DeadlineBounds(r.pending[op.call].token.expiresAt, op.now);
    }
  }

  lemma {:induction false} RunKeepsOwnKeys(r: System, ops: seq<Op>)
    requires OwnKeysLast(r)
    ensures OwnKeysLast(Run(r, ops))
    decreases |ops|
  {
    if ops != [] {
      StepKeepsOwnKeys(r, ops[0]);
      RunKeepsOwnKeys(Step(r, ops[0]).0, ops[1..]);
    }
  }

  /** In every reachable state, a lapse of a token's own key shows only inside the token's final window, and the
      completion of a verified rotation fails to see it only after the token's last second has begun. */
  lemma OwnKeyLapsesLate(settings: Settings, ops: seq<Op>, op: Op)
    requires LapsedUse(Run(Started0(settings, EMPTY_REDIS), ops), op)
    ensures var r := Run(Started0(settings, EMPTY_REDIS), ops);
            if op.Finish? then op.now > r.pending[op.call].token.expiresAt - SECOND
            else op.token.id in StoredIds(r.svc.store) ==> InFinalWindow(settings, op.token, op.now)
  {
    RunKeepsOwnKeys(Started0(settings, EMPTY_REDIS), ops);
    RunWrites(Started0(settings, EMPTY_REDIS), ops, 0, 0);
  }

  /** What keeps lapses away: no token is used in its final window, and a session is revoked with a refresh token
      that none of the session outlasts (as with its newest one, when access tokens live no longer than refresh
      tokens) and while no rotation of it is half done. */
  predicate Calm(r: System, op: Op) {
    match op
    case VerifyOp(t, _, now) => !InFinalWindow(r.svc.settings, t, now)
    case Begin(_, t, _, now) => !InFinalWindow(r.svc.settings, t, now)
    case Finish(c, _, _, now) => c in r.pending ==> now <= r.pending[c].token.expiresAt - SECOND
    case LogoutSession(t, _) =>
      t in r.svc.issued && t.kind == Refresh ==>
        && (forall u | u in r.svc.issued && u.Session() == t.Session() :: u.expiresAt <= t.expiresAt)
        && (forall c | c in r.pending :: r.pending[c].token.Session() != t.Session())
    case _ => true
  }

  predicate CalmRun(r: System, ops: seq<Op>)
    decreases |ops|
  {
    ops != [] ==> Calm(r, ops[0]) && CalmRun(Step(r, ops[0]).0, ops[1..])
  }

  /** In a calm run session keys last as long as own keys do, and a session with a half-done rotation has none. */
  predicate SessionKeysLast(r: System)
    requires r.svc.store.Redis?
  {
    && (forall t | t in r.svc.issued && t.Session() in r.svc.store.sessionKeys ::
          r.svc.store.sessionKeys[t.Session()] > t.expiresAt - SECOND)
    && (forall c | c in r.pending :: r.pending[c].token.Session() !in r.svc.store.sessionKeys)
  }

  ghost predicate Steady(r: System) {
    OwnKeysLast(r) && SessionKeysLast(r)
  }

  lemma CalmLapsesNot(r: System, op: Op)
    requires OwnKeysLast(r) && SessionKeysLast(r) && Calm(r, op)
    ensures !LapsedUse(r, op)
  {
  }

  lemma CalmLogoutKeepsKeys(r: System, op: Op)
    requires r.svc.store.Redis? && SessionKeysLast(r) && Calm(r, op) && op.LogoutSession?
    ensures Step(r, op).0.svc.store.Redis? && SessionKeysLast(Step(r, op).0)
  {
    DeadlineBounds(op.token.expiresAt, op.now);
  }

  lemma CalmKeepsSessionKeys(r: System, op: Op)
    requires r.svc.store.Redis? && IdsInv(r) && SessionKeysLast(r) && !LapsedUse(r, op) && !op.LogoutSession?
    ensures Step(r, op).0.svc.store.Redis? && SessionKeysLast(Step(r, op).0)
  {
    var after := Step(r, op).0;
    if op.Finish? && Possible(r, op) {
      var session := r.pending[op.call].token.Session();
      assert forall t | t in after.svc.issued :: t in r.svc.issued || t.Session() == session;
    }
  }

  lemma CalmStep(r: System, op: Op)
    requires Steady(r) && Calm(r, op)
    ensures !LapsedUse(r, op) && Steady(Step(r, op).0)
  {
    CalmLapsesNot(r, op);
    StepKeepsOwnKeys(r, op);
    if op.LogoutSession? {
      CalmLogoutKeepsKeys(r, op);
    } else {
      CalmKeepsSessionKeys(r, op);
    }
  }

  lemma {:induction false} CalmRunLapsesNever(r: System, ops: seq<Op>)
    requires Steady(r) && CalmRun(r, ops)
    ensures NoLapse(r, ops)
    decreases |ops|
  {
    if ops != [] {
      CalmStep(r, ops[0]);
      CalmRunLapsesNever(Step(r, ops[0]).0, ops[1..]);
    }
  }

  /** So the answers are the same in every calm run. */
  lemma CalmRunsAgree(settings: Settings, ops: seq<Op>)
    requires CalmRun(Started0(settings, EMPTY_REDIS), ops)
    ensures Answers(Started0(settings, EMPTY_REDIS), ops) == Answers(Started0(settings, EMPTY_MEMORY), ops)
  {
    CalmRunLapsesNever(Started0(settings, EMPTY_REDIS), ops);
    RedisAgreesIff(settings, ops);
  }

  // ---- three runs in which a key lapses ----

  /** The default settings: a quarter of an hour, two weeks, thirty seconds of skew. */
  const DEFAULTS := Settings(900 * SECOND, 14 * DAY, 30 * SECOND)

  const DAY_13: int := 13 * DAY

  const DAY_14: int := 14 * DAY

  const DAY_27: int := 27 * DAY

  /** A session after login at instant 0. */
  function LoggedIn(subject: TokenSubject, store: Store): System {
    Step(Started0(DEFAULTS, store), Login(subject, 0, 1, 0)).0
  }

  function First(subject: TokenSubject): Token {
    Token(Refresh, 1, TokenSubject(subject.identity, []), 0, DAY_14)
  }

  lemma AfterLogin(subject: TokenSubject, store: Store)
    requires store == EMPTY_MEMORY || store == EMPTY_REDIS
    ensures LoggedIn(subject, store) ==
            System(Service(DEFAULTS, store, [Token(Access, 0, subject, 0, 900 * SECOND), First(subject)]), 0, map[])
  {
  }

  /** The refresh token is rotated at `at` into a pair with ids 2 and 3. */
  function RotatedAt(s: System, subject: TokenSubject, at: nat): System {
    Step(Step(s, Begin(0, First(subject), subject, at)).0, Finish(0, 2, 3, at)).0
  }

  function Second(subject: TokenSubject, at: nat): Token {
    Issue(DEFAULTS, subject, 2, 3, at).refresh
  }

  lemma AfterRotation(subject: TokenSubject, store: Store, at: nat)
    requires store == EMPTY_MEMORY || store == EMPTY_REDIS
    requires at <= DAY_13
    ensures var s := LoggedIn(subject, store);
            RotatedAt(s, subject, at) ==
            System(Service(DEFAULTS, WithToken(store, 1, DAY_14, at),
                           s.svc.issued + [Issue(DEFAULTS, subject, 2, 3, at).access, Second(subject, at)]), at, map[])
  {
    AfterLogin(subject, store);
    var s := LoggedIn(subject, store);
    assert First(subject) == s.svc.issued[1];
    assert Step(s, Begin(0, First(subject), subject, at)).0 == System(s.svc, at, map[0 := Rotation(First(subject), subject)]);
  }

  /** A token whose session key is gone, and which never had one of its own, passes over Redis alone. */
  lemma GoneKeyDecides(s: System, t: Token, now: int)
    requires s.clock <= now && Decode(s.svc.settings, s.svc.issued, t, Refresh, now).None?
    requires t.id !in StoredIds(s.svc.store) && t.Session() in StoredSessions(s.svc.store)
    requires s.svc.store.Redis? ==> s.svc.store.sessionKeys[t.Session()] <= now
    ensures Step(s, VerifyOp(t, Refresh, now)).1 == if s.svc.store.Redis? then Verified else Refused(RevokedToken)
  {
  }

  /** A logout between the two phases of a rotation. */
  function HalfDone(subject: TokenSubject, store: Store): System {
    var s1 := Step(LoggedIn(subject, store), Begin(0, First(subject), subject, 1_000_000)).0;
    var s2 := Step(s1, LogoutSession(First(subject), 2_000_000)).0;
    Step(s2, Finish(0, 2, 3, 5_000_000)).0
  }

  lemma AfterHalfDone(subject: TokenSubject, store: Store)
    requires store == EMPTY_MEMORY || store == EMPTY_REDIS
    ensures var s := HalfDone(subject, store);
            Second(subject, 5_000_000) in s.svc.issued && s.clock == 5_000_000 &&
            s.svc == Service(DEFAULTS, WithToken(WithSession(store, subject.identity.session, DAY_14, 2_000_000), 1, DAY_14, 5_000_000), s.svc.issued)
  {
    AfterLogin(subject, store);
    var s := LoggedIn(subject, store);
    assert First(subject) == s.svc.issued[1];
    var s1 := System(s.svc, 1_000_000, map[0 := Rotation(First(subject), subject)]);
    var s2 := System(s.svc.(store := WithSession(store, subject.identity.session, DAY_14, 2_000_000)), 2_000_000, s1.pending);
    assert Step(s, Begin(0, First(subject), subject, 1_000_000)).0 == s1;
    assert Step(s1, LogoutSession(First(subject), 2_000_000)).0 == s2;
    assert Step(s2, Finish(0, 2, 3, 5_000_000)).0.svc.issued[3] == Second(subject, 5_000_000);
  }

  /** The pair such a rotation still issues outlives the Redis key, which was measured by the older token, but not
      the in-memory entry. */
  lemma HalfDoneRotationOutlivesKey(subject: TokenSubject, store: Store)
    requires store == EMPTY_MEMORY || store == EMPTY_REDIS
    ensures Step(HalfDone(subject, store), VerifyOp(Second(subject, 5_000_000), Refresh, DAY_14 + SECOND)).1 ==
            if store.Redis? then Verified else Refused(RevokedToken)
  {
    AfterHalfDone(subject, store);
    GoneKeyDecides(HalfDone(subject, store), Second(subject, 5_000_000), DAY_14 + SECOND);
  }

  /** A rotation on day 13, a logout with the new refresh token, and another with the one rotated away. */
  function LoggedOutTwice(subject: TokenSubject, store: Store): System {
    var s1 := RotatedAt(LoggedIn(subject, store), subject, DAY_13);
    var s2 := Step(s1, LogoutSession(Second(subject, DAY_13), DAY_13 + SECOND)).0;
    Step(s2, LogoutSession(First(subject), DAY_13 + 2 * SECOND)).0
  }

  lemma AfterTwoLogouts(subject: TokenSubject, store: Store)
    requires store == EMPTY_MEMORY || store == EMPTY_REDIS
    ensures var s, session := LoggedOutTwice(subject, store), subject.identity.session;
            Second(subject, DAY_13) in s.svc.issued && s.clock == DAY_13 + 2 * SECOND &&
            s.svc == Service(DEFAULTS, WithSession(WithSession(WithToken(store, 1, DAY_14, DAY_13), session, DAY_27, DAY_13 + SECOND),
                                                   session, DAY_14, DAY_13 + 2 * SECOND), s.svc.issued)
  {
    AfterLogin(subject, store);
    AfterRotation(subject, store, DAY_13);
    var s1 := RotatedAt(LoggedIn(subject, store), subject, DAY_13);
    assert Second(subject, DAY_13) == s1.svc.issued[3] && First(subject) == s1.svc.issued[1];
    var s2 := s1.(svc := s1.svc.(store := WithSession(s1.svc.store, subject.identity.session, DAY_27, DAY_13 + SECOND)), clock := DAY_13 + SECOND);
    assert Step(s1, LogoutSession(Second(subject, DAY_13), DAY_13 + SECOND)).0 == s2;
  }

  lemma SecondOnDay13(subject: TokenSubject)
    ensures Second(subject, DAY_13) == Token(Refresh, 3, TokenSubject(subject.identity, []), DAY_13, DAY_27)
  {
  }

  /** The second logout shortens the session key the first one set, and the newest refresh token is good again. */
  lemma SecondLogoutShortensKey(subject: TokenSubject, store: Store)
    requires store == EMPTY_MEMORY || store == EMPTY_REDIS
    ensures Second(subject, DAY_13).expiresAt == DAY_27
    ensures Step(LoggedOutTwice(subject, store), VerifyOp(Second(subject, DAY_13), Refresh, DAY_14)).1 ==
            if store.Redis? then Verified else Refused(RevokedToken)
  {
    SecondOnDay13(subject);
    AfterTwoLogouts(subject, store);
    GoneKeyDecides(LoggedOutTwice(subject, store), Second(subject, DAY_13), DAY_14);
  }

  /** A refresh token that has been rotated is rotated again inside the clock skew after its expiry. */
  lemma ReplayInSkew(subject: TokenSubject, store: Store)
    requires store == EMPTY_MEMORY || store == EMPTY_REDIS
    ensures var s1 := RotatedAt(LoggedIn(subject, store), subject, SECOND);
            var (s2, begun) := Step(s1, Begin(0, First(subject), subject, DAY_14 + SECOND));
            var replay := Step(s2, Finish(0, 4, 5, DAY_14 + SECOND)).1;
            if store.Redis? then replay.Issued? else begun == Refused(RevokedToken) && replay == Ignored
  {
    AfterLogin(subject, store);
    AfterRotation(subject, store, SECOND);
    var s1 := RotatedAt(LoggedIn(subject, store), subject, SECOND);
    assert First(subject) == s1.svc.issued[1];
    assert Deadline(DAY_14, SECOND) == DAY_14;
  }

  /** Two rotations of a refresh token are verified and one of them is finished. */
  function TwiceBegun(subject: TokenSubject, store: Store): System {
    RotatedAt(Step(LoggedIn(subject, store), Begin(1, First(subject), subject, SECOND)).0, subject, SECOND)
  }

  lemma AfterTwiceBegun(subject: TokenSubject, store: Store)
    requires store == EMPTY_MEMORY || store == EMPTY_REDIS
    ensures var s := TwiceBegun(subject, store);
            s == System(Service(DEFAULTS, WithToken(store, 1, DAY_14, SECOND), s.svc.issued), SECOND, map[1 := Rotation(First(subject), subject)]) &&
            forall t | t in s.svc.issued :: t.id < 4
  {
    AfterLogin(subject, store);
    var s := LoggedIn(subject, store);
    assert First(subject) == s.svc.issued[1];
    var begun := Rotation(First(subject), subject);
    var s1 := System(s.svc, SECOND, map[1 := begun]);
    assert Step(s, Begin(1, First(subject), subject, SECOND)).0 == s1;
    assert Step(s1, Begin(0, First(subject), subject, SECOND)).0 == System(s.svc, SECOND, map[1 := begun, 0 := begun]);
    assert map[1 := begun, 0 := begun] - {0} == map[1 := begun];
  }

  /** The other is finished on day 27, long after expiry and skew: the completion of a rotation does not look at the
      expiry again. */
  lemma ReplayLongAfter(subject: TokenSubject, store: Store)
    requires store == EMPTY_MEMORY || store == EMPTY_REDIS
    ensures var replay := Step(TwiceBegun(subject, store), Finish(1, 4, 5, DAY_27)).1;
            if store.Redis? then replay.Issued? else replay == Refused(RevokedToken)
  {
    AfterTwiceBegun(subject, store);
    assert Deadline(DAY_14, SECOND) == DAY_14;
  }
}
