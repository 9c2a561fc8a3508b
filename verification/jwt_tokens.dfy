/** Access and rotating refresh tokens (src/aipy/modules/identity/infrastructure/jwt_tokens.py). Signing is
    perfect: a presented token is genuine exactly when the service issued it, and then it is its claims. */
module JwtTokens {
  import opened Wrappers
  import opened Clock
  import opened Revocations

  datatype Settings = Settings(accessTtl: int, refreshTtl: int, skew: int) {
    /** The validators of `JwtTokenSettings`. */
    predicate Valid() {
      accessTtl > 0 && refreshTtl > 0 && skew >= 0
    }
  }

  datatype TokenKind = Access | Refresh

  datatype Identity = Identity(tenant: Id, actor: Id, isService: bool, session: Id)

  /** `scopes` are the role, team and workspace ids; only access tokens carry them. */
  datatype TokenSubject = TokenSubject(identity: Identity, scopes: seq<Id>)

  datatype Token = Token(kind: TokenKind, id: Id, subject: TokenSubject, issuedAt: int, expiresAt: int) {
    function Session(): Id {
      subject.identity.session
    }
  }

  datatype TokenError = InvalidToken | ExpiredToken | RevokedToken

  datatype Pair = Pair(access: Token, refresh: Token)

  /** `_encode` stores instants as whole seconds. */
  function WholeSeconds(instant: int): int {
    TruncatedSeconds(instant) * SECOND
  }

  function Issue(settings: Settings, subject: TokenSubject, accessId: Id, refreshId: Id, now: int): Pair {
    Pair(Token(Access, accessId, subject, WholeSeconds(now), WholeSeconds(now + settings.accessTtl)),
         Token(Refresh, refreshId, TokenSubject(subject.identity, []), WholeSeconds(now), WholeSeconds(now + settings.refreshTtl)))
  }

  /** `_decode`. */
  function Decode(settings: Settings, issued: seq<Token>, token: Token, kind: TokenKind, now: int): Option<TokenError> {
    if token !in issued || token.kind != kind then Some(InvalidToken)
    else if token.expiresAt <= now - settings.skew then Some(ExpiredToken)
    else if token.issuedAt > now + settings.skew then Some(InvalidToken)
    else None
  }

  datatype Service = Service(settings: Settings, store: Store, issued: seq<Token>)

  /** `verify_access_token` and `verify_refresh_token`. */
  function Verify(s: Service, token: Token, kind: TokenKind, now: int): Option<TokenError> {
    var error := Decode(s.settings, s.issued, token, kind, now);
    if error.Some? then error
    else if HoldsToken(s.store, token.id, now) || HoldsSession(s.store, token.Session(), now) then Some(RevokedToken)
    else None
  }

  /** `rotate_token_pair` up to the consumption of the refresh token. */
  function BeginRotation(s: Service, token: Token, subject: TokenSubject, now: int): Option<TokenError> {
    var error := Verify(s, token, Refresh, now);
    if error.Some? then error
    else if token.subject.identity != subject.identity then Some(InvalidToken)
    else None
  }

  /** The rest of `rotate_token_pair`: consume atomically, then issue. */
  function FinishRotation(s: Service, token: Token, subject: TokenSubject, accessId: Id, refreshId: Id, now: int)
    : (Service, Result<Pair, TokenError>)
  {
    if HoldsToken(s.store, token.id, now) then (s, Err(RevokedToken))
    else
      var pair := Issue(s.settings, subject, accessId, refreshId, now);
      (s.(store := WithToken(s.store, token.id, token.expiresAt, now), issued := s.issued + [pair.access, pair.refresh]),
       Ok(pair))
  }

  function RevokeAccess(s: Service, token: Token, now: int): (Service, Option<TokenError>) {
    var error := Decode(s.settings, s.issued, token, Access, now);
    (if error.Some? then s else s.(store := WithToken(s.store, token.id, token.expiresAt, now)), error)
  }

  function RevokeSession(s: Service, token: Token, now: int): (Service, Option<TokenError>) {
    var error := Decode(s.settings, s.issued, token, Refresh, now);
    (if error.Some? then s else s.(store := WithSession(s.store, token.Session(), token.expiresAt, now)), error)
  }

  /** The service object. `issued` stands for the signing key; clock readings and fresh ids come in as arguments. */
  class JwtTokenService {
    const settings: Settings
    const revocations: Port
    var issued: seq<Token>

    function View(): Service
      reads this, revocations.Object()
    {
      Service(settings, revocations.Contents(), issued)
    }

    constructor (settings: Settings, revocations: Port)
      requires settings.Valid()
      ensures View() == Service(settings, revocations.Contents(), []) && this.revocations == revocations
    {
      this.settings, this.revocations, issued := settings, revocations, [];
    }

    method IssueTokenPair(subject: TokenSubject, accessId: Id, refreshId: Id, now: int) returns (pair: Pair)
      modifies this
      ensures pair == Issue(settings, subject, accessId, refreshId, now)
      ensures View() == old(View()).(issued := old(issued) + [pair.access, pair.refresh])
    {
      pair := Issue(settings, subject, accessId, refreshId, now);
      issued := issued + [pair.access, pair.refresh];
    }

    method VerifyToken(token: Token, kind: TokenKind, now: int) returns (error: Option<TokenError>)
      ensures error == Verify(View(), token, kind, now)
    {
      error := Decode(settings, issued, token, kind, now);
      if error.None? {
        var revoked := revocations.TokenRevoked(token.id, now);
        if !revoked {
          revoked := revocations.SessionRevoked(token.Session(), now);
        }
        if revoked {
          error := Some(RevokedToken);
        }
      }
    }

    /** `now` is the clock at verification and `later` the clock when the token is consumed. */
    method RotateTokenPair(token: Token, subject: TokenSubject, accessId: Id, refreshId: Id, now: int, later: int)
      returns (result: Result<Pair, TokenError>)
      modifies this, revocations.Object()
      ensures match BeginRotation(old(View()), token, subject, now)
              case Some(error) => View() == old(View()) && result == Err(error)
              case None => (View(), result) == FinishRotation(old(View()), token, subject, accessId, refreshId, later)
    {
      var error := VerifyToken(token, Refresh, now);
      if error.Some? {
        return Err(error.value);
      }
      if token.subject.identity != subject.identity {
        return Err(InvalidToken);
      }
      var consumed := revocations.ConsumeRefreshToken(token.id, token.expiresAt, later);
      if !consumed {
        return Err(RevokedToken);
      }
      var pair := IssueTokenPair(subject, accessId, refreshId, later);
      return Ok(pair);
    }

    method RevokeAccessToken(token: Token, now: int) returns (error: Option<TokenError>)
      modifies revocations.Object()
      ensures (View(), error) == RevokeAccess(old(View()), token, now)
    {
      error := Decode(settings, issued, token, Access, now);
      if error.None? {
        revocations.RevokeToken(token.id, token.expiresAt, now);
      }
    }

    method RevokeWholeSession(token: Token, now: int) returns (error: Option<TokenError>)
      modifies revocations.Object()
      ensures (View(), error) == RevokeSession(old(View()), token, now)
    {
      error := Decode(settings, issued, token, Refresh, now);
      if error.None? {
        revocations.RevokeSession(token.Session(), token.expiresAt, now);
      }
    }

    /** The `logout` route: both cookies are optional, token errors are suppressed, and each revocation reads the
        clock for itself. */
    method Logout(access: Option<Token>, refresh: Option<Token>, now: int, later: int)
      modifies revocations.Object()
      ensures var s := if access.None? then old(View()) else RevokeAccess(old(View()), access.value, now).0;
              View() == if refresh.None? then s else RevokeSession(s, refresh.value, later).0
    {
      if access.Some? {
        var suppressed := RevokeAccessToken(access.value, now);
      }
      if refresh.Some? {
        var suppressed := RevokeWholeSession(refresh.value, later);
      }
    }
  }

  // ---- how far the two stores agree about one entry ----

  /** The verdicts on a token whose id was stored at `entered` differ between the stores exactly from the
      moment the Redis key goes until the token expires (skew included). */
  lemma VerdictsDifferIff(settings: Settings, token: Token, issued: seq<Token>, entered: int, t: int)
    requires settings.Valid() && token in issued && entered <= t && token.issuedAt <= t + settings.skew
    ensures var memory := Service(settings, WithToken(Memory({}, {}), token.id, token.expiresAt, entered), issued);
            var redis := Service(settings, WithToken(Redis(map[], map[]), token.id, token.expiresAt, entered), issued);
            Verify(memory, token, token.kind, t).Some? &&
            (Verify(redis, token, token.kind, t) != Verify(memory, token, token.kind, t) <==>
             Deadline(token.expiresAt, entered) <= t < token.expiresAt + settings.skew)
  {
  }

  /** That window is shorter than the skew plus a second, and empty when the entry is at most a minute older
      than the last instant at which the token could pass. */
  lemma WindowIsShort(settings: Settings, token: Token, entered: int)
    requires settings.Valid()
    ensures token.expiresAt + settings.skew - Deadline(token.expiresAt, entered) < settings.skew + SECOND
    ensures token.expiresAt + settings.skew - entered <= MIN_TTL_SECONDS * SECOND ==>
              token.expiresAt + settings.skew <= Deadline(token.expiresAt, entered)
  {
  }

  lemma WholeSecondsMonotone(a: int, b: int)
    requires a <= b
    ensures WholeSeconds(a) <= WholeSeconds(b)
  {
  }

  /** A login's refresh token outlasts its access token, at whatever instant, exactly when its TTL is no shorter. */
  lemma RefreshOutlastsAccessIff(settings: Settings, subject: TokenSubject, accessId: Id, refreshId: Id)
    requires settings.Valid()
    ensures (forall now: nat :: Issue(settings, subject, accessId, refreshId, now).access.expiresAt <=
                                Issue(settings, subject, accessId, refreshId, now).refresh.expiresAt) <==>
            settings.accessTtl <= settings.refreshTtl
  {
    if settings.accessTtl <= settings.refreshTtl {
      forall now: nat
        ensures Issue(settings, subject, accessId, refreshId, now).access.expiresAt <=
                Issue(settings, subject, accessId, refreshId, now).refresh.expiresAt
      {
        WholeSecondsMonotone(now + settings.accessTtl, now + settings.refreshTtl);
      }
    } else {
      // the instant at which the access expiry falls on a whole second
      var k := settings.accessTtl / SECOND + 1;
      var now: nat := k * SECOND - settings.accessTtl;
      assert now + settings.accessTtl == k * SECOND;
      assert (k * SECOND) / SECOND == k;
      assert now + settings.refreshTtl < k * SECOND;
      assert (now + settings.refreshTtl) / SECOND < k;
      var pair := Issue(settings, subject, accessId, refreshId, now);
      assert pair.access.expiresAt > pair.refresh.expiresAt;
    }
  }
}
