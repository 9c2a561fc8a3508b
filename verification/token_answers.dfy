/** What every operation of the token service answers, in terms of the run so far: which tokens were given out, when,
    and what was revoked since. */
module TokenAnswers {
  import opened Wrappers
  import opened Clock
  import opened Revocations
  import opened JwtTokens
  import opened TokenProtocol

  predicate In(t: Token, pair: Pair) {
    t == pair.access || t == pair.refresh
  }

  /** Some login or rotation of the run answered with the token. */
  predicate GivenOut(answers: seq<Answer>, t: Token) {
    exists i | 0 <= i < |answers| :: answers[i].Issued? && In(t, answers[i].pair)
  }

  lemma StepIssues(s: System, op: Op, t: Token)
    ensures var (next, answer) := Step(s, op);
            t in next.svc.issued <==> t in s.svc.issued || (answer.Issued? && In(t, answer.pair))
  {
  }

  lemma {:induction false} IssuedIff(s: System, ops: seq<Op>, t: Token)
    ensures t in Run(s, ops).svc.issued <==> t in s.svc.issued || GivenOut(Answers(s, ops), t)
    decreases |ops|
  {
    if ops != [] {
      var (next, answer) := Step(s, ops[0]);
      StepIssues(s, ops[0], t);
      IssuedIff(next, ops[1..], t);
      var later, all := Answers(next, ops[1..]), Answers(s, ops);
      assert all == [answer] + later;
      if GivenOut(later, t) {
        var i :| 0 <= i < |later| && later[i].Issued? && In(t, later[i].pair);
        assert all[i + 1] == later[i];
      }
      if answer.Issued? && In(t, answer.pair) {
        assert all[0] == answer;
      }
      assert GivenOut(all, t) <==> (answer.Issued? && In(t, answer.pair)) || GivenOut(later, t);
    }
  }

  /** What is wrong with a presented token, whatever was revoked: it was not given out or is of the other kind, has
      expired, or comes from the future. */
  function Fault(settings: Settings, answers: seq<Answer>, t: Token, kind: TokenKind, now: int): Option<TokenError> {
    if !GivenOut(answers, t) || t.kind != kind then Some(InvalidToken)
    else if now >= t.expiresAt + settings.skew then Some(ExpiredToken)
    else if now < t.issuedAt - settings.skew then Some(InvalidToken)
    else None
  }

  /** The last write on the token's id, or the last logout of its session, is live. */
  predicate Revoked(s0: System, ops: seq<Op>, t: Token, now: int) {
    Live(s0.svc.store, LastTokenWrite(s0, ops, t.id), now) || Live(s0.svc.store, LastSessionWrite(s0, ops, t.Session()), now)
  }

  /** A run from the start of either store. */
  predicate Starts(s0: System) {
    s0 == Started0(s0.svc.settings, s0.svc.store) && (s0.svc.store == EMPTY_MEMORY || s0.svc.store == EMPTY_REDIS)
  }

  lemma RunFacts(s0: System, ops: seq<Op>, t: Token, kind: TokenKind, now: int)
    requires Starts(s0)
    ensures var svc := Run(s0, ops).svc;
            svc.settings == s0.svc.settings &&
            Decode(svc.settings, svc.issued, t, kind, now) == Fault(s0.svc.settings, Answers(s0, ops), t, kind, now) &&
            HoldsToken(svc.store, t.id, now) == Live(s0.svc.store, LastTokenWrite(s0, ops, t.id), now) &&
            HoldsSession(svc.store, t.Session(), now) == Live(s0.svc.store, LastSessionWrite(s0, ops, t.Session()), now)
  {
    IssuedIff(s0, ops, t);
    RunWrites(s0, ops, t.id, now);
    RunWrites(s0, ops, t.Session(), now);
  }

  /** Verification, in every reachable state of either store. */
  lemma VerifiedIff(s0: System, ops: seq<Op>, t: Token, kind: TokenKind, now: int)
    requires Starts(s0) && Run(s0, ops).clock <= now
    ensures var answer := Step(Run(s0, ops), VerifyOp(t, kind, now)).1;
            var fault := Fault(s0.svc.settings, Answers(s0, ops), t, kind, now);
            && (answer == Verified <==> fault == None && !Revoked(s0, ops, t, now))
            && (fault.Some? ==> answer == Refused(fault.value))
            && (fault == None && Revoked(s0, ops, t, now) ==> answer == Refused(RevokedToken))
  {
    RunFacts(s0, ops, t, kind, now);
  }

  /** The first phase of a rotation: a good refresh token, presented with its own identity. */
  lemma StartedIff(s0: System, ops: seq<Op>, call: nat, t: Token, subject: TokenSubject, now: int)
    requires Starts(s0) && Run(s0, ops).clock <= now && call !in Run(s0, ops).pending
    ensures var (after, answer) := Step(Run(s0, ops), Begin(call, t, subject, now));
            var fault := Fault(s0.svc.settings, Answers(s0, ops), t, Refresh, now);
            && (answer == Started <==> fault == None && !Revoked(s0, ops, t, now) && t.subject.identity == subject.identity)
            && (fault.Some? ==> answer == Refused(fault.value))
            && (fault == None && Revoked(s0, ops, t, now) ==> answer == Refused(RevokedToken))
            && (fault == None && !Revoked(s0, ops, t, now) && answer != Started ==> answer == Refused(InvalidToken))
            && (answer == Started ==> after.pending == Run(s0, ops).pending[call := Rotation(t, subject)])
  {
    RunFacts(s0, ops, t, Refresh, now);
  }

  /** `stamp` is `instant` cut to whole seconds. */
  predicate CutTo(instant: int, stamp: int) {
    stamp % SECOND == 0 && stamp <= instant < stamp + SECOND
  }

  /** A pair made for a subject: both tokens are its, the access token alone with its scopes, each with its own id
      and its own time to live from now on. */
  predicate MadeFor(pair: Pair, settings: Settings, subject: TokenSubject, accessId: Id, refreshId: Id, now: int) {
    && pair.access.kind == Access && pair.access.id == accessId && pair.access.subject == subject
    && pair.refresh.kind == Refresh && pair.refresh.id == refreshId && pair.refresh.subject == TokenSubject(subject.identity, [])
    && CutTo(now, pair.access.issuedAt) && CutTo(now + settings.accessTtl, pair.access.expiresAt)
    && CutTo(now, pair.refresh.issuedAt) && CutTo(now + settings.refreshTtl, pair.refresh.expiresAt)
  }

  lemma IssueMakes(settings: Settings, subject: TokenSubject, accessId: Id, refreshId: Id, now: int)
    requires settings.Valid() && now >= 0
    ensures MadeFor(Issue(settings, subject, accessId, refreshId, now), settings, subject, accessId, refreshId, now)
  {
  }

  /** A login gives out a pair for its subject. */
  lemma LoginGives(s0: System, ops: seq<Op>, op: Op)
    requires Starts(s0) && s0.svc.settings.Valid() && op.Login? && Possible(Run(s0, ops), op)
    ensures var answer := Step(Run(s0, ops), op).1;
            answer.Issued? && MadeFor(answer.pair, s0.svc.settings, op.subject, op.accessId, op.refreshId, op.now)
  {
    RunWrites(s0, ops, 0, 0);
    ClockRuns(s0, ops);
    IssueMakes(s0.svc.settings, op.subject, op.accessId, op.refreshId, op.now);
  }

  lemma {:induction false} ClockRuns(s: System, ops: seq<Op>)
    ensures Run(s, ops).clock >= s.clock
    decreases |ops|
  {
    if ops != [] {
      ClockRuns(Step(s, ops[0]).0, ops[1..]);
    }
  }

  /** The second phase gives out a pair for the subject of the first one exactly when the last write on the token's id
      is not live. */
  lemma RotatedIff(s0: System, ops: seq<Op>, op: Op)
    requires Starts(s0) && s0.svc.settings.Valid() && op.Finish? && Possible(Run(s0, ops), op)
    ensures var answer := Step(Run(s0, ops), op).1;
            var Rotation(t, subject) := Run(s0, ops).pending[op.call];
            if Live(s0.svc.store, LastTokenWrite(s0, ops, t.id), op.now) then answer == Refused(RevokedToken)
            else answer.Issued? && MadeFor(answer.pair, s0.svc.settings, subject, op.accessId, op.refreshId, op.now)
  {
    var Rotation(t, subject) := Run(s0, ops).pending[op.call];
    RunFacts(s0, ops, t, Refresh, op.now);
    ClockRuns(s0, ops);
    IssueMakes(s0.svc.settings, subject, op.accessId, op.refreshId, op.now);
  }

  /** Both logouts take any token of their kind that is inside its lifetime, even a revoked one. */
  lemma LoggedOutIff(s0: System, ops: seq<Op>, t: Token, now: int)
    requires Starts(s0) && Run(s0, ops).clock <= now
    ensures var fault := Fault(s0.svc.settings, Answers(s0, ops), t, Access, now);
            Step(Run(s0, ops), LogoutAccess(t, now)).1 == if fault == None then Done else Refused(fault.value)
    ensures var fault := Fault(s0.svc.settings, Answers(s0, ops), t, Refresh, now);
            Step(Run(s0, ops), LogoutSession(t, now)).1 == if fault == None then Done else Refused(fault.value)
  {
    RunFacts(s0, ops, t, Access, now);
    RunFacts(s0, ops, t, Refresh, now);
  }
}
