/** Login brute-force protection over a process-local store and over Redis
    (src/aipy/modules/identity/infrastructure/login_lockout.py, apps/api/routes/auth.py). */
module Lockout {
  import opened Wrappers
  import opened Clock

  /** What a lockout remembers about one key. */
  datatype KeyState =
    | InMemory(attempts: nat, lockedUntil: Option<int>)
    | InRedis(counter: Option<Counter>, lockKey: Option<int>)

  /** An INCR counter and the instant its key expires. */
  datatype Counter = Counter(count: nat, expiresAt: int)

  datatype Kind = Memory | Redis

  datatype Config = Config(kind: Kind, maxAttempts: int, window: int) {
    /** How long a lock, or a Redis counter, lasts: Redis takes whole seconds, and at least one. */
    function Span(): int {
      match kind
      case Memory => window
      case Redis =>
        var seconds := TruncatedSeconds(window);
        if seconds > 1 then seconds * SECOND else SECOND
    }

    /** A key nothing is known about. */
    function Blank(): KeyState {
      if kind.Memory? then InMemory(0, None) else InRedis(None, None)
    }
  }

  /** `_forget_expired`; Redis drops expired keys by itself. */
  function Forget(k: KeyState, now: int): KeyState {
    match k
    case InMemory(_, until) => if until.Some? && until.value <= now then k.(lockedUntil := None) else k
    case InRedis(counter, lockKey) =>
      InRedis(if counter.Some? && counter.value.expiresAt <= now then None else counter,
              if lockKey.Some? && lockKey.value <= now then None else lockKey)
  }

  predicate IsLocked(k: KeyState, now: int) {
    var live := Forget(k, now);
    if live.InMemory? then live.lockedUntil.Some? else live.lockKey.Some?
  }

  /** `record_failure`. */
  function Fail(c: Config, k: KeyState, now: int): KeyState {
    match Forget(k, now)
    case InMemory(attempts, until) =>
      if attempts + 1 >= c.maxAttempts then InMemory(0, Some(now + c.Span())) else InMemory(attempts + 1, until)
    case InRedis(counter, lockKey) =>
      var next := if counter.Some? then counter.value.(count := counter.value.count + 1) else Counter(1, now + c.Span());
      if next.count >= c.maxAttempts then InRedis(None, Some(now + c.Span())) else InRedis(Some(next), lockKey)
  }

  /** One login: when the lock is looked at, and when, after the password has been hashed, a failure is recorded. */
  datatype Attempt = Attempt(checked: int, recorded: int)

  datatype LoginOutcome = Blocked | WrongPassword | LoggedIn

  /** The `login` route on one key: a locked key is refused before the password is looked at. */
  function Login(c: Config, k: KeyState, a: Attempt, passwordFits: bool): (KeyState, LoginOutcome) {
    if IsLocked(k, a.checked) then (Forget(k, a.checked), Blocked)
    else if passwordFits then (c.Blank(), LoggedIn)
    else (Fail(c, Forget(k, a.checked), a.recorded), WrongPassword)
  }

  class InMemoryLoginLockout {
    const maxAttempts: int
    const window: int
    var attempts: map<string, nat>
    var lockedUntil: map<string, int>

    function Configuration(): Config {
      Config(Memory, maxAttempts, window)
    }

    function Key(key: string): KeyState
      reads this
    {
      InMemory(if key in attempts then attempts[key] else 0, if key in lockedUntil then Some(lockedUntil[key]) else None)
    }

    constructor (maxAttempts: int, window: int)
      ensures Configuration() == Config(Memory, maxAttempts, window) && forall key :: Key(key) == Configuration().Blank()
    {
      this.maxAttempts, this.window := maxAttempts, window;
      attempts, lockedUntil := map[], map[];
    }

    method ForgetExpired(key: string, now: int)
      modifies this
      ensures Key(key) == Forget(old(Key(key)), now)
      ensures forall other | other != key :: Key(other) == old(Key(other))
    {
      if key in lockedUntil && lockedUntil[key] <= now {
        lockedUntil := lockedUntil - {key};
      }
    }

    method CheckLocked(key: string, now: int) returns (locked: bool)
      modifies this
      ensures locked == IsLocked(old(Key(key)), now)
      ensures Key(key) == Forget(old(Key(key)), now)
      ensures forall other | other != key :: Key(other) == old(Key(other))
    {
      ForgetExpired(key, now);
      locked := key in lockedUntil;
    }

    method RecordFailure(key: string, now: int)
      modifies this
      ensures Key(key) == Fail(Configuration(), old(Key(key)), now)
      ensures forall other | other != key :: Key(other) == old(Key(other))
    {
      ForgetExpired(key, now);
      var count := (if key in attempts then attempts[key] else 0) + 1;
      if count >= maxAttempts {
        attempts := attempts - {key};
        lockedUntil := lockedUntil[key := now + window];
      } else {
        attempts := attempts[key := count];
      }
    }

    method Reset(key: string)
      modifies this
      ensures Key(key) == Configuration().Blank()
      ensures forall other | other != key :: Key(other) == old(Key(other))
    {
      attempts := attempts - {key};
      lockedUntil := lockedUntil - {key};
    }

    /** The `login` route up to the password verdict. */
    method AttemptLogin(key: string, a: Attempt, passwordFits: bool) returns (outcome: LoginOutcome)
      modifies this
      ensures (Key(key), outcome) == Login(Configuration(), old(Key(key)), a, passwordFits)
      ensures forall other | other != key :: Key(other) == old(Key(other))
    {
      var locked := CheckLocked(key, a.checked);
      if locked {
        return Blocked;
      }
      if passwordFits {
        Reset(key);
        return LoggedIn;
      }
      RecordFailure(key, a.recorded);
      return WrongPassword;
    }
  }

  class RedisLoginLockout {
    const maxAttempts: int
    const window: int
    var counters: map<string, Counter>
    var lockKeys: map<string, int>

    function Configuration(): Config {
      Config(Redis, maxAttempts, window)
    }

    function Key(key: string): KeyState
      reads this
    {
      InRedis(if key in counters then Some(counters[key]) else None, if key in lockKeys then Some(lockKeys[key]) else None)
    }

    constructor (maxAttempts: int, window: int)
      ensures Configuration() == Config(Redis, maxAttempts, window) && forall key :: Key(key) == Configuration().Blank()
    {
      this.maxAttempts, this.window := maxAttempts, window;
      counters, lockKeys := map[], map[];
    }

    /** Redis expiring the keys of one login key by itself. */
    method Expire(key: string, now: int)
      modifies this
      ensures Key(key) == Forget(old(Key(key)), now)
      ensures forall other | other != key :: Key(other) == old(Key(other))
    {
      if key in counters && counters[key].expiresAt <= now {
        counters := counters - {key};
      }
      if key in lockKeys && lockKeys[key] <= now {
        lockKeys := lockKeys - {key};
      }
    }

    method CheckLocked(key: string, now: int) returns (locked: bool)
      modifies this
      ensures locked == IsLocked(old(Key(key)), now)
      ensures Key(key) == Forget(old(Key(key)), now)
      ensures forall other | other != key :: Key(other) == old(Key(other))
    {
      Expire(key, now);
      locked := key in lockKeys;
    }

    /** INCR, EXPIRE on the first failure, then SETEX and DEL when the budget is spent. */
    method RecordFailure(key: string, now: int)
      modifies this
      ensures Key(key) == Fail(Configuration(), old(Key(key)), now)
      ensures forall other | other != key :: Key(other) == old(Key(other))
    {
      Expire(key, now);
      var span := Configuration().Span();
      if key in counters {
        counters := counters[key := counters[key].(count := counters[key].count + 1)];
      } else {
        counters := counters[key := Counter(1, now + span)];
      }
      if counters[key].count >= maxAttempts {
        lockKeys := lockKeys[key := now + span];
        counters := counters - {key};
      }
    }

    method Reset(key: string)
      modifies this
      ensures Key(key) == Configuration().Blank()
      ensures forall other | other != key :: Key(other) == old(Key(other))
    {
      counters := counters - {key};
      lockKeys := lockKeys - {key};
    }

    method AttemptLogin(key: string, a: Attempt, passwordFits: bool) returns (outcome: LoginOutcome)
      modifies this
      ensures (Key(key), outcome) == Login(Configuration(), old(Key(key)), a, passwordFits)
      ensures forall other | other != key :: Key(other) == old(Key(other))
    {
      var locked := CheckLocked(key, a.checked);
      if locked {
        return Blocked;
      }
      if passwordFits {
        Reset(key);
        return LoggedIn;
      }
      RecordFailure(key, a.recorded);
      return WrongPassword;
    }
  }

  // ---- how many passwords can be tried ----

  predicate Sorted(times: seq<int>) {
    forall i, j | 0 <= i < j < |times| :: times[i] <= times[j]
  }

  /** Logins one after the other. */
  predicate Sequential(attempts: seq<Attempt>) {
    && (forall i | 0 <= i < |attempts| :: attempts[i].checked <= attempts[i].recorded)
    && (forall i, j | 0 <= i < j < |attempts| :: attempts[i].recorded <= attempts[j].checked)
  }

  /** The state of a key after logins with wrong passwords ... */
  function After(c: Config, attempts: seq<Attempt>): KeyState {
    if attempts == [] then c.Blank()
    else Login(c, After(c, attempts[..|attempts| - 1]), attempts[|attempts| - 1], false).0
  }

  /** ... and the instants at which a password that was really checked turned out wrong. */
  function Checks(c: Config, attempts: seq<Attempt>): seq<int> {
    if attempts == [] then []
    else
      var earlier, last := attempts[..|attempts| - 1], attempts[|attempts| - 1];
      if Login(c, After(c, earlier), last, false).1.Blocked? then Checks(c, earlier) else Checks(c, earlier) + [last.recorded]
  }

  /** `starts` cuts a list of checks into batches of at most `size`, each starting at least `span` after the
      one before. */
  ghost predicate Batched(size: int, span: int, checks: seq<int>, starts: seq<nat>) {
    && (checks == [] <==> starts == [])
    && (starts != [] ==> starts[0] == 0)
    && (forall b | 0 <= b < |starts| :: starts[b] < |checks|)
    && (forall a, b | 0 <= a < b < |starts| && b == a + 1 ::
          starts[a] < starts[b] <= starts[a] + size && checks[starts[b]] >= checks[starts[a]] + span)
    && (starts != [] ==> |checks| <= starts[|starts| - 1] + size)
  }

  /** The last batch: its size so far, and the earliest instant at which another may start. */
  datatype Batch = Batch(size: nat, nextStart: int)

  function LastBatch(span: int, checks: seq<int>, starts: seq<nat>): Option<Batch>
    requires forall b | 0 <= b < |starts| :: starts[b] < |checks|
  {
    if starts == [] then None
    else
      var start := starts[|starts| - 1];
      Some(Batch(|checks| - start, checks[start] + span))
  }

  /** What a key's state says at `now` about the last batch of its checks. */
  predicate Follows(c: Config, k: KeyState, last: Option<Batch>, now: int) {
    if last.None? then k == c.Blank()
    else
      var Batch(size, nextStart) := last.value;
      match k
      case InMemory(attempts, until) =>
        c.kind.Memory? &&
        if attempts > 0 then attempts == size < c.maxAttempts && until.None?
        else if until.Some? then until.value >= nextStart
        else now >= nextStart
      case InRedis(counter, lockKey) =>
        c.kind.Redis? &&
        if counter.Some? then counter.value == Counter(size, nextStart) && size < c.maxAttempts && lockKey.None?
        else if lockKey.Some? then lockKey.value >= nextStart
        else now >= nextStart
  }

  /** Another wrong password is refused, joins the last batch while it has room, or starts one when it may. */
  lemma KeyStep(c: Config, k: KeyState, last: Option<Batch>, before: int, a: Attempt) returns (joins: bool, next: Option<Batch>)
    requires c.maxAttempts >= 1 && c.Span() > 0 && before <= a.checked <= a.recorded && Follows(c, k, last, before)
    requires last.Some? ==> before + c.Span() >= last.value.nextStart
    ensures Follows(c, Login(c, k, a, false).0, next, a.recorded)
    ensures Login(c, k, a, false).1.Blocked? ==> next == last
    ensures !Login(c, k, a, false).1.Blocked? && joins ==>
              last.Some? && last.value.size < c.maxAttempts && next == Some(Batch(last.value.size + 1, last.value.nextStart))
    ensures !Login(c, k, a, false).1.Blocked? && !joins ==>
              next == Some(Batch(1, a.recorded + c.Span())) && (last.Some? ==> a.recorded >= last.value.nextStart)
  {
    var live := Forget(k, a.recorded);
    joins := last.Some? && if live.InMemory? then live.attempts > 0 else live.counter.Some?;
    next := if IsLocked(k, a.checked) then last
            else if joins then Some(Batch(last.value.size + 1, last.value.nextStart))
            else Some(Batch(1, a.recorded + c.Span()));
  }

  lemma JoinBatch(size: int, span: int, checks: seq<int>, starts: seq<nat>, now: int)
    requires Batched(size, span, checks, starts) && starts != [] && LastBatch(span, checks, starts).value.size < size
    ensures Batched(size, span, checks + [now], starts)
    ensures var last := LastBatch(span, checks, starts).value;
            LastBatch(span, checks + [now], starts) == Some(Batch(last.size + 1, last.nextStart))
  {
  }

  lemma StartBatch(size: int, span: int, checks: seq<int>, starts: seq<nat>, now: int)
    requires size >= 1 && Batched(size, span, checks, starts)
    requires starts != [] ==> now >= LastBatch(span, checks, starts).value.nextStart
    ensures Batched(size, span, checks + [now], starts + [|checks|])
    ensures LastBatch(span, checks + [now], starts + [|checks|]) == Some(Batch(1, now + span))
  {
  }

  /** Checks are recorded in order. */
  lemma {:induction false} ChecksAreAttempts(c: Config, attempts: seq<Attempt>)
    requires Sequential(attempts)
    ensures Sorted(Checks(c, attempts)) && |Checks(c, attempts)| <= |attempts|
    ensures Checks(c, attempts) != [] ==>
              attempts != [] && Checks(c, attempts)[|Checks(c, attempts)| - 1] <= attempts[|attempts| - 1].recorded
  {
    if attempts != [] {
      ChecksAreAttempts(c, attempts[..|attempts| - 1]);
    }
  }

  /** The batches of some checks, followed by a state that has seen instant `before`. */
  ghost predicate Tracks(c: Config, k: KeyState, checks: seq<int>, starts: seq<nat>, before: int) {
    && Batched(c.maxAttempts, c.Span(), checks, starts)
    && Follows(c, k, LastBatch(c.Span(), checks, starts), before)
  }

  lemma TrackStep(c: Config, k: KeyState, checks: seq<int>, starts: seq<nat>, before: int, a: Attempt) returns (next: seq<nat>)
    requires c.maxAttempts >= 1 && c.Span() > 0 && before <= a.checked <= a.recorded && Sorted(checks)
    requires Tracks(c, k, checks, starts, before) && (checks != [] ==> checks[|checks| - 1] <= before)
    ensures var (k', outcome) := Login(c, k, a, false);
            Tracks(c, k', if outcome.Blocked? then checks else checks + [a.recorded], next, a.recorded)
  {
    var joins, last := KeyStep(c, k, LastBatch(c.Span(), checks, starts), before, a);
    next := starts;
    if !Login(c, k, a, false).1.Blocked? {
      if joins {
        JoinBatch(c.maxAttempts, c.Span(), checks, starts, a.recorded);
      } else {
        StartBatch(c.maxAttempts, c.Span(), checks, starts, a.recorded);
        next := starts + [|checks|];
      }
    }
  }

  /** The checks of every run of wrong passwords fall into batches. */
  lemma {:induction false} ChecksAreBatched(c: Config, attempts: seq<Attempt>) returns (starts: seq<nat>)
    requires c.maxAttempts >= 1 && c.Span() > 0 && Sequential(attempts)
    ensures Tracks(c, After(c, attempts), Checks(c, attempts), starts, if attempts == [] then 0 else attempts[|attempts| - 1].recorded)
  {
    if attempts == [] {
      starts := [];
    } else {
      var earlier, a := attempts[..|attempts| - 1], attempts[|attempts| - 1];
      starts := ChecksAreBatched(c, earlier);
      ChecksAreAttempts(c, earlier);
      var before := if earlier == [] then a.checked else earlier[|earlier| - 1].recorded;
      starts := TrackStep(c, After(c, earlier), Checks(c, earlier), starts, before, a);
    }
  }

  /** `n` batches on, at least `n` spans have passed. */
  lemma {:induction false} BatchesSpread(size: int, span: int, checks: seq<int>, starts: seq<nat>, b: nat, n: nat)
    requires Batched(size, span, checks, starts) && b + n < |starts|
    ensures checks[starts[b + n]] >= checks[starts[b]] + n * span
    ensures starts[b] <= starts[b + n] <= starts[b] + n * size
  {
    if n > 0 {
      BatchesSpread(size, span, checks, starts, b, n - 1);
      assert n * span == (n - 1) * span + span;
      assert n * size == (n - 1) * size + size;
    }
  }

  /** The batch a check belongs to. */
  lemma BatchOf(size: int, span: int, checks: seq<int>, starts: seq<nat>, i: nat) returns (b: nat)
    requires Batched(size, span, checks, starts) && i < |checks|
    ensures b < |starts| && starts[b] <= i < starts[b] + size && (b + 1 < |starts| ==> i < starts[b + 1])
  {
    b := |starts| - 1;
    while i < starts[b]
      invariant b < |starts| && i < starts[b] + size && (b + 1 < |starts| ==> i < starts[b + 1])
    {
      b := b - 1;
    }
  }

  lemma WholeSpans(n: nat, span: int, duration: nat)
    requires span > 0 && n * span <= duration
    ensures n <= duration / span
  {
    var q := duration / span;
    assert duration == q * span + duration % span;
    assert q * span + span == (q + 1) * span;
    if n > q {
      Scaled(span, q + 1, n);
    }
  }

  /** A stretch that reaches from one batch into the `n`-th after it is at least `n - 1` spans long. */
  lemma StretchBound(size: int, span: int, checks: seq<int>, starts: seq<nat>, i: nat, j: nat, b: nat, n: nat)
    requires Batched(size, span, checks, starts) && Sorted(checks) && i <= j < |checks| && n > 0 && b + n < |starts|
    requires starts[b] <= i < starts[b + 1] && starts[b + n] <= j < starts[b + n] + size
    ensures j - i + 1 <= size * (n + 1) && (n - 1) * span <= checks[j] - checks[i]
  {
    BatchesSpread(size, span, checks, starts, b, n);
    BatchesSpread(size, span, checks, starts, b + 1, n - 1);
    assert checks[i] <= checks[starts[b + 1]] && checks[starts[b + n]] <= checks[j];
    assert size * (n + 1) == n * size + size;
  }

  /** Batches bound the checks in a stretch of time. */
  lemma BatchedBound(size: int, span: int, checks: seq<int>, starts: seq<nat>, i: nat, j: nat, duration: nat)
    requires size >= 1 && span > 0 && Batched(size, span, checks, starts) && Sorted(checks)
    requires i <= j < |checks| && checks[j] - checks[i] <= duration
    ensures j - i + 1 <= size * (duration / span + 2)
  {
    var b := BatchOf(size, span, checks, starts, i);
    var d := BatchOf(size, span, checks, starts, j);
    if b < d {
      StretchBound(size, span, checks, starts, i, j, b, d - b);
      WholeSpans(d - b - 1, span, duration);
      Scaled(size, d - b + 1, duration / span + 2);
    } else {
      BatchesSpread(size, span, checks, starts, d, b - d);
      Scaled(size, 1, duration / span + 2);
    }
  }

  /** Whichever store is used, the passwords really checked for one key over any stretch of time `duration`,
      in any run of logins none of which succeeds, number at most `maxAttempts * (duration / span + 2)`. */
  lemma ChecksAreBounded(c: Config, span: int, attempts: seq<Attempt>, i: nat, j: nat, duration: nat)
    requires c.maxAttempts >= 1 && span == c.Span() > 0 && Sequential(attempts)
    requires i <= j < |Checks(c, attempts)| && Checks(c, attempts)[j] - Checks(c, attempts)[i] <= duration
    ensures j - i + 1 <= c.maxAttempts * (duration / span + 2)
  {
    var starts := ChecksAreBatched(c, attempts);
    ChecksAreAttempts(c, attempts);
    BatchedBound(c.maxAttempts, span, Checks(c, attempts), starts, i, j, duration);
  }

  lemma Scaled(a: int, b: int, c: int)
    requires a >= 0 && b <= c
    ensures a * b <= a * c
  {
  }

  /** A failure that spends the budget and puts a lock on the key. */
  predicate PutsLock(c: Config, k: KeyState, a: Attempt) {
    var (after, outcome) := Login(c, k, a, false);
    outcome.WrongPassword? && if after.InMemory? then after.attempts == 0 else after.counter.None?
  }

  /** A lock holds from the moment it is put for every window over Redis, and over memory exactly for positive ones. */
  lemma PutLockHoldsIff(c: Config, k: KeyState, a: Attempt)
    requires PutsLock(c, k, a) && k.InMemory? == c.kind.Memory?
    ensures IsLocked(Login(c, k, a, false).0, a.recorded) <==> c.kind.Redis? || c.window > 0
  {
  }

  /** What a lock in memory that never holds looks like. */
  predicate NeverHolds(k: KeyState, now: int) {
    k.InMemory? && (k.lockedUntil.Some? ==> k.lockedUntil.value <= now)
  }

  /** So over memory a window that is not positive leaves the number of checks without any bound: every wrong
      password of every run is checked. */
  lemma {:induction false} NoWindowNoBound(c: Config, attempts: seq<Attempt>)
    requires c.kind.Memory? && c.window <= 0 && Sequential(attempts)
    ensures |Checks(c, attempts)| == |attempts|
    ensures if attempts == [] then After(c, attempts) == c.Blank() else NeverHolds(After(c, attempts), attempts[|attempts| - 1].recorded)
  {
    if attempts != [] {
      NoWindowNoBound(c, attempts[..|attempts| - 1]);
    }
  }

  // ---- the two stores compared ----

  /** Whether a lock has ever been put. */
  predicate EverLocked(c: Config, attempts: seq<Attempt>) {
    attempts != [] &&
    (EverLocked(c, attempts[..|attempts| - 1]) || PutsLock(c, After(c, attempts[..|attempts| - 1]), attempts[|attempts| - 1]))
  }

  /** One failure on both sides while neither has put a lock: Redis counts no more than memory. */
  lemma FailTogether(memory: Config, redis: Config, failures: nat, counter: Option<Counter>, a: Attempt)
    requires memory.kind.Memory? && redis.kind.Redis? && memory.maxAttempts == redis.maxAttempts
    requires counter.Some? ==> counter.value.count <= failures
    ensures var k, l := InMemory(failures, None), InRedis(counter, None);
            var m, r := Login(memory, k, a, false).0, Login(redis, l, a, false).0;
            PutsLock(memory, k, a) || (!PutsLock(redis, l, a) && m.InMemory? && m.lockedUntil.None? && r.InRedis? && r.lockKey.None? &&
                                       (r.counter.Some? ==> r.counter.value.count <= m.attempts))
  {
  }

  /** As long as memory has put no lock, neither has Redis, and its counter is no larger. */
  lemma {:induction false} RedisLags(memory: Config, redis: Config, attempts: seq<Attempt>)
    requires memory.kind.Memory? && redis.kind.Redis? && memory.maxAttempts == redis.maxAttempts
    requires !EverLocked(memory, attempts)
    ensures !EverLocked(redis, attempts)
    ensures var m, r := After(memory, attempts), After(redis, attempts);
            m.InMemory? && m.lockedUntil.None? && r.InRedis? && r.lockKey.None? &&
            (r.counter.Some? ==> r.counter.value.count <= m.attempts)
  {
    if attempts != [] {
      var earlier, a := attempts[..|attempts| - 1], attempts[|attempts| - 1];
      RedisLags(memory, redis, earlier);
      FailTogether(memory, redis, After(memory, earlier).attempts, After(redis, earlier).counter, a);
    }
  }

  /** On the same wrong passwords the in-memory lockout has put a lock whenever the Redis lockout has, whatever
      their windows, since only the Redis counter forgets before a lock. */
  lemma MemoryLocksNoLater(maxAttempts: int, window: int, redisWindow: int, attempts: seq<Attempt>)
    requires EverLocked(Config(Redis, maxAttempts, redisWindow), attempts)
    ensures EverLocked(Config(Memory, maxAttempts, window), attempts)
  {
    if !EverLocked(Config(Memory, maxAttempts, window), attempts) {
      RedisLags(Config(Memory, maxAttempts, window), Config(Redis, maxAttempts, redisWindow), attempts);
    }
  }
}
