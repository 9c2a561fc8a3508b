/** Runs of logins with right and wrong passwords in any order, over either store
    (src/aipy/modules/identity/infrastructure/login_lockout.py, apps/api/routes/auth.py). */
module LockoutRuns {
  import opened Wrappers
  import opened Clock
  import opened Lockout

  datatype Try = Try(attempt: Attempt, fits: bool)

  /** The state of a key after some logins on it ... */
  function AfterTries(c: Config, k: KeyState, tries: seq<Try>): KeyState {
    if tries == [] then k
    else
      var last := tries[|tries| - 1];
      Login(c, AfterTries(c, k, tries[..|tries| - 1]), last.attempt, last.fits).0
  }

  /** ... and what they were told. */
  function Outcomes(c: Config, k: KeyState, tries: seq<Try>): (r: seq<LoginOutcome>)
    ensures |r| == |tries|
  {
    if tries == [] then []
    else
      var earlier, last := tries[..|tries| - 1], tries[|tries| - 1];
      Outcomes(c, k, earlier) + [Login(c, AfterTries(c, k, earlier), last.attempt, last.fits).1]
  }

  /** The wrong passwords recorded since the last success. */
  function FailuresSince(outcomes: seq<LoginOutcome>): nat {
    if outcomes == [] then 0
    else
      match outcomes[|outcomes| - 1]
      case LoggedIn => 0
      case WrongPassword => FailuresSince(outcomes[..|outcomes| - 1]) + 1
      case Blocked => FailuresSince(outcomes[..|outcomes| - 1])
  }

  /** What a login is told: nothing but the lock keeps the right password out, and nothing lets a wrong one in. */
  lemma ToldIff(c: Config, k: KeyState, a: Attempt, fits: bool)
    ensures Login(c, k, a, fits).1 == if IsLocked(k, a.checked) then Blocked else if fits then LoggedIn else WrongPassword
  {
  }

  /** What the state of a key owes to its history. */
  predicate Earned(c: Config, k: KeyState, failures: nat) {
    match k
    case InMemory(attempts, until) => c.kind.Memory? && attempts <= failures && (until.Some? ==> failures >= c.maxAttempts)
    case InRedis(counter, lockKey) =>
      c.kind.Redis? && (counter.Some? ==> counter.value.count <= failures) && (lockKey.Some? ==> failures >= c.maxAttempts)
  }

  lemma {:induction false} TriesEarn(c: Config, tries: seq<Try>)
    ensures Earned(c, AfterTries(c, c.Blank(), tries), FailuresSince(Outcomes(c, c.Blank(), tries)))
  {
    if tries != [] {
      TriesEarn(c, tries[..|tries| - 1]);
      var told := Outcomes(c, c.Blank(), tries);
      assert told[..|told| - 1] == Outcomes(c, c.Blank(), tries[..|tries| - 1]);
    }
  }

  /** A key is locked only when at least `maxAttempts` wrong passwords were recorded since the last success. */
  lemma LockedIsEarned(c: Config, tries: seq<Try>, now: int)
    requires IsLocked(AfterTries(c, c.Blank(), tries), now)
    ensures FailuresSince(Outcomes(c, c.Blank(), tries)) >= c.maxAttempts
  {
    TriesEarn(c, tries);
  }

  /** Logins split into earlier and later ones. */
  lemma {:induction false} TriesSplit(c: Config, k: KeyState, earlier: seq<Try>, later: seq<Try>)
    ensures AfterTries(c, k, earlier + later) == AfterTries(c, AfterTries(c, k, earlier), later)
    ensures Outcomes(c, k, earlier + later) == Outcomes(c, k, earlier) + Outcomes(c, AfterTries(c, k, earlier), later)
    decreases |later|
  {
    if later == [] {
      assert earlier + later == earlier;
    } else {
      assert (earlier + later)[..|earlier + later| - 1] == earlier + later[..|later| - 1];
      TriesSplit(c, k, earlier, later[..|later| - 1]);
    }
  }

  /** After a success every later outcome is that of a key never tried before. */
  lemma SuccessForgets(c: Config, earlier: seq<Try>, success: Try, later: seq<Try>)
    requires Login(c, AfterTries(c, c.Blank(), earlier), success.attempt, success.fits).1 == LoggedIn
    ensures Outcomes(c, c.Blank(), earlier + [success] + later) == Outcomes(c, c.Blank(), earlier + [success]) + Outcomes(c, c.Blank(), later)
  {
    TriesSplit(c, c.Blank(), earlier + [success], later);
    assert (earlier + [success])[..|earlier + [success]| - 1] == earlier;
  }

  /** A lock turns away every login up to its end, none of them prolongs it, and it ends after exactly the span. */
  lemma {:induction false} LockLasts(c: Config, k: KeyState, a: Attempt, later: seq<Try>, now: int)
    requires PutsLock(c, k, a) && k.InMemory? == c.kind.Memory?
    requires forall i | 0 <= i < |later| :: later[i].attempt.checked < a.recorded + c.Span()
    ensures forall i | 0 <= i < |later| :: Outcomes(c, Login(c, k, a, false).0, later)[i] == Blocked
    ensures IsLocked(AfterTries(c, Login(c, k, a, false).0, later), now) <==> now < a.recorded + c.Span()
  {
    if later != [] {
      LockLasts(c, k, a, later[..|later| - 1], later[|later| - 1].attempt.checked);
      LockLasts(c, k, a, later[..|later| - 1], now);
    }
  }

  /** How many failures count against a key that is not locked: over memory all since the last success or lock, over
      Redis those whose counter has not expired. */
  function Counted(k: KeyState, now: int): nat {
    match k
    case InMemory(attempts, _) => attempts
    case InRedis(counter, _) => if counter.Some? && now < counter.value.expiresAt then counter.value.count else 0
  }

  /** A wrong password on a key that is not locked counts one more, and puts a lock exactly when that spends the budget. */
  lemma FailureCounts(c: Config, k: KeyState, a: Attempt)
    requires k.InMemory? == c.kind.Memory? && !IsLocked(k, a.checked) && a.checked <= a.recorded
    ensures PutsLock(c, k, a) <==> Counted(k, a.recorded) + 1 >= c.maxAttempts
    ensures !PutsLock(c, k, a) && c.Span() > 0 ==> Counted(Login(c, k, a, false).0, a.recorded) == Counted(k, a.recorded) + 1
  {
  }

  /** Over Redis a count lasts until exactly one span after the first failure in it; later failures do not prolong it. */
  lemma RedisForgets(c: Config, k: KeyState, a: Attempt, now: int)
    requires c.kind.Redis? && k.InRedis? && !IsLocked(k, a.checked) && a.checked <= a.recorded <= now && !PutsLock(c, k, a)
    ensures var live := k.counter.Some? && a.recorded < k.counter.value.expiresAt;
            var ends := if live then k.counter.value.expiresAt else a.recorded + c.Span();
            Counted(Login(c, k, a, false).0, now) == if now < ends then Counted(k, a.recorded) + 1 else 0
  {
  }

  /** How long locks last: the window over memory; over Redis its whole seconds, and at least one. */
  lemma SpanIs(c: Config)
    ensures c.kind.Memory? ==> c.Span() == c.window
    ensures c.kind.Redis? && c.window < SECOND ==> c.Span() == SECOND
    ensures c.kind.Redis? && c.window >= SECOND ==> c.window - SECOND < c.Span() <= c.window && c.Span() % SECOND == 0
  {
  }
}
