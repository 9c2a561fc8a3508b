/** The two revocation stores (src/aipy/modules/identity/infrastructure/in_memory_revocations.py and
    redis_revocations.py). */
module Revocations {
  import opened Wrappers
  import opened Clock

  const MIN_TTL_SECONDS: int := 60

  function Ttl(expiresAt: int, now: int): int {
    var seconds := TruncatedSeconds(expiresAt - now);
    if seconds > MIN_TTL_SECONDS then seconds else MIN_TTL_SECONDS
  }

  /** When an entry set at `now` for a token expiring at `expiresAt` disappears from Redis. */
  function Deadline(expiresAt: int, now: int): int {
    now + Ttl(expiresAt, now) * SECOND
  }

  /** The contents of a store; a Redis key exists strictly before its deadline. */
  datatype Store =
    | Memory(tokens: set<Id>, sessions: set<Id>)
    | Redis(tokenKeys: map<Id, int>, sessionKeys: map<Id, int>)

  predicate HoldsToken(s: Store, id: Id, now: int) {
    match s
    case Memory(tokens, _) => id in tokens
    case Redis(keys, _) => id in keys && now < keys[id]
  }

  predicate HoldsSession(s: Store, session: Id, now: int) {
    match s
    case Memory(_, sessions) => session in sessions
    case Redis(_, keys) => session in keys && now < keys[session]
  }

  function WithToken(s: Store, id: Id, expiresAt: int, now: int): Store {
    match s
    case Memory(tokens, sessions) => Memory(tokens + {id}, sessions)
    case Redis(keys, sessionKeys) => Redis(keys[id := Deadline(expiresAt, now)], sessionKeys)
  }

  function WithSession(s: Store, session: Id, expiresAt: int, now: int): Store {
    match s
    case Memory(tokens, sessions) => Memory(tokens, sessions + {session})
    case Redis(keys, sessionKeys) => Redis(keys, sessionKeys[session := Deadline(expiresAt, now)])
  }

  class InMemoryTokenRevocations {
    var tokens: set<Id>
    var sessions: set<Id>

    function Contents(): Store
      reads this
    {
      Memory(tokens, sessions)
    }

    constructor ()
      ensures Contents() == Memory({}, {})
    {
      tokens, sessions := {}, {};
    }

    method IsTokenRevoked(id: Id) returns (revoked: bool)
      ensures forall now :: revoked == HoldsToken(Contents(), id, now)
    {
      revoked := id in tokens;
    }

    method IsSessionRevoked(session: Id) returns (revoked: bool)
      ensures forall now :: revoked == HoldsSession(Contents(), session, now)
    {
      revoked := session in sessions;
    }

    method RevokeToken(id: Id)
      modifies this
      ensures forall expiresAt, now :: Contents() == WithToken(old(Contents()), id, expiresAt, now)
    {
      tokens := tokens + {id};
    }

    method ConsumeRefreshToken(id: Id) returns (consumed: bool)
      modifies this
      ensures consumed == (id !in old(tokens))
      ensures consumed ==> forall expiresAt, now :: Contents() == WithToken(old(Contents()), id, expiresAt, now)
      ensures !consumed ==> Contents() == old(Contents())
    {
      if id in tokens {
        return false;
      }
      tokens := tokens + {id};
      return true;
    }

    method RevokeSession(session: Id)
      modifies this
      ensures forall expiresAt, now :: Contents() == WithSession(old(Contents()), session, expiresAt, now)
    {
      sessions := sessions + {session};
    }
  }

  class RedisTokenRevocations {
    var tokenKeys: map<Id, int>
    var sessionKeys: map<Id, int>

    function Contents(): Store
      reads this
    {
      Redis(tokenKeys, sessionKeys)
    }

    constructor ()
      ensures Contents() == Redis(map[], map[])
    {
      tokenKeys, sessionKeys := map[], map[];
    }

    method IsTokenRevoked(id: Id, now: int) returns (revoked: bool)
      ensures revoked == HoldsToken(Contents(), id, now)
    {
      revoked := id in tokenKeys && now < tokenKeys[id];
    }

    method IsSessionRevoked(session: Id, now: int) returns (revoked: bool)
      ensures revoked == HoldsSession(Contents(), session, now)
    {
      revoked := session in sessionKeys && now < sessionKeys[session];
    }

    /** SETEX. */
    method RevokeToken(id: Id, expiresAt: int, now: int)
      modifies this
      ensures Contents() == WithToken(old(Contents()), id, expiresAt, now)
    {
      var ttl := Ttl(expiresAt, now);
      tokenKeys := tokenKeys[id := now + ttl * SECOND];
    }

    /** SET with NX and EX: nothing happens while the key exists. */
    method ConsumeRefreshToken(id: Id, expiresAt: int, now: int) returns (consumed: bool)
      modifies this
      ensures consumed == !HoldsToken(old(Contents()), id, now)
      ensures Contents() == if consumed then WithToken(old(Contents()), id, expiresAt, now) else old(Contents())
    {
      var ttl := Ttl(expiresAt, now);
      if id in tokenKeys && now < tokenKeys[id] {
        return false;
      }
      tokenKeys := tokenKeys[id := now + ttl * SECOND];
      return true;
    }

    method RevokeSession(session: Id, expiresAt: int, now: int)
      modifies this
      ensures Contents() == WithSession(old(Contents()), session, expiresAt, now)
    {
      var ttl := Ttl(expiresAt, now);
      sessionKeys := sessionKeys[session := now + ttl * SECOND];
    }
  }

  /** The one call site both stores serve: the repository port the token service is given. */
  datatype Port = OnMemory(memory: InMemoryTokenRevocations) | OnRedis(redis: RedisTokenRevocations) {
    function Object(): object {
      match this
      case OnMemory(memory) => memory
      case OnRedis(redis) => redis
    }

    function Contents(): Store
      reads Object()
    {
      match this
      case OnMemory(memory) => memory.Contents()
      case OnRedis(redis) => redis.Contents()
    }

    method TokenRevoked(id: Id, now: int) returns (revoked: bool)
      ensures revoked == HoldsToken(Contents(), id, now)
    {
      match this
      case OnMemory(memory) => revoked := memory.IsTokenRevoked(id);
      case OnRedis(redis) => revoked := redis.IsTokenRevoked(id, now);
    }

    method SessionRevoked(session: Id, now: int) returns (revoked: bool)
      ensures revoked == HoldsSession(Contents(), session, now)
    {
      match this
      case OnMemory(memory) => revoked := memory.IsSessionRevoked(session);
      case OnRedis(redis) => revoked := redis.IsSessionRevoked(session, now);
    }

    method RevokeToken(id: Id, expiresAt: int, now: int)
      modifies Object()
      ensures Contents() == WithToken(old(Contents()), id, expiresAt, now)
    {
      match this
      case OnMemory(memory) => memory.RevokeToken(id);
      case OnRedis(redis) => redis.RevokeToken(id, expiresAt, now);
    }

    method ConsumeRefreshToken(id: Id, expiresAt: int, now: int) returns (consumed: bool)
      modifies Object()
      ensures consumed == !HoldsToken(old(Contents()), id, now)
      ensures Contents() == if consumed then WithToken(old(Contents()), id, expiresAt, now) else old(Contents())
    {
      match this
      case OnMemory(memory) => consumed := memory.ConsumeRefreshToken(id);
      case OnRedis(redis) => consumed := redis.ConsumeRefreshToken(id, expiresAt, now);
    }

    method RevokeSession(session: Id, expiresAt: int, now: int)
      modifies Object()
      ensures Contents() == WithSession(old(Contents()), session, expiresAt, now)
    {
      match this
      case OnMemory(memory) => memory.RevokeSession(session);
      case OnRedis(redis) => redis.RevokeSession(session, expiresAt, now);
    }
  }

  /** An entry outlives its token up to less than its last second, or lasts exactly a minute if that is longer. */
  lemma DeadlineBounds(expiresAt: int, now: int)
    ensures Deadline(expiresAt, now) > expiresAt - SECOND
    ensures Deadline(expiresAt, now) >= now + 60 * SECOND
    ensures expiresAt - now <= 60 * SECOND ==> Deadline(expiresAt, now) == now + 60 * SECOND
    ensures expiresAt - now >= 60 * SECOND ==> Deadline(expiresAt, now) <= expiresAt && (Deadline(expiresAt, now) - now) % SECOND == 0
  {
  }
}
