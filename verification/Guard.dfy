/** The JWT guard of a protected route. */
module Guard {
  import opened Options
  import opened Clock
  import opened AccessTokens
  import opened Blocklist
  import Decimals

  datatype Principal = Principal(
    user: nat,
    jti: string,
    issuedAt: int,
    expiresAt: int,
    roles: set<string>,
    permissions: set<string>)

  function Authenticate(store: Store, payload: Payload, now: int, redisUp: bool): Result<Principal, TokenError> {
    match Decode(payload, now)
    case Err(e) => Err(e)
    case Ok(claims) =>
      match Decimals.Read(claims.subject)
      case None => Err(InvalidToken)
      case Some(user) =>
        if user == 0 || IsBlocked(store, claims.tokenId, user, claims.issuedAt, now, redisUp) then Err(InvalidToken)
        else Ok(Principal(user, claims.tokenId, claims.issuedAt, claims.expiresAt, claims.roles, claims.permissions))
  }

  /** `require_permission(code)` on an authenticated request. */
  predicate Permits(result: Result<Principal, TokenError>, code: string) {
    result.Ok? && code in result.value.permissions
  }

  ghost predicate Accepts(cfg: Settings, store: Store, g: Grant, now: int, redisUp: bool) {
    Authenticate(store, Encode(cfg, g), now, redisUp).Ok?
  }

  ghost predicate IdealAccepts(cfg: Settings, revocations: set<Revocation>, g: Grant, now: int) {
    now < Expiry(cfg, g) && !IdealBlocked(revocations, g)
  }

  /** On an issued token the guard answers from the granted identity, roles and permissions. */
  lemma AuthenticateGrant(cfg: Settings, store: Store, g: Grant, now: int, redisUp: bool)
    requires g.jti != "" && 0 < g.user && g.at <= now
    ensures
      var issuedAt := FloorSeconds(g.at) * SECOND;
      Authenticate(store, Encode(cfg, g), now, redisUp) ==
        if now < Expiry(cfg, g) && !IsBlocked(store, g.jti, g.user, issuedAt, now, redisUp) then
          Ok(Principal(g.user, g.jti, issuedAt, Expiry(cfg, g), g.roles, g.permissions))
        else Err(InvalidToken)
  {
    TokenInstants(cfg, g);
    DecodeEncode(cfg, g, now);
    Decimals.ReadShow(g.user);
  }

  /**
   * The guard accepts an issued token until one access lifetime after its truncated issue time, unless a
   * Redis that answers holds a key of the token, or an epoch of the user above the issue time.
   */
  lemma GuardReadsKeys(cfg: Settings, store: Store, g: Grant, now: int, redisUp: bool)
    requires g.jti != "" && 0 < g.user && g.at <= now
    ensures Accepts(cfg, store, g, now, redisUp) <==>
      && now < IssuedAt(g) + cfg.accessSeconds * SECOND
      && !(redisUp && Live(store, TokenKey(g.jti), now))
      && !(redisUp && Live(store, EpochKey(g.user), now) && IssuedAt(g) < store[EpochKey(g.user)].value * SECOND)
  {
    TokenInstants(cfg, g);
    AuthenticateGrant(cfg, store, g, now, redisUp);
  }

  /**
   * Any payload, one that was not granted included: it authenticates exactly if it decodes, its subject is
   * the decimal text of a positive user id, and neither key blocks it; the principal is what it claims.
   */
  lemma AuthenticatesIff(store: Store, payload: Payload, now: int, redisUp: bool, p: Principal)
    ensures Authenticate(store, payload, now, redisUp) == Ok(p) <==>
      exists subject ::
        && Decode(payload, now) ==
             Ok(Claims(subject, p.expiresAt, p.issuedAt, p.jti, p.roles, p.permissions))
        && Decimals.Read(subject) == Some(p.user) && 0 < p.user
        && !(redisUp && Live(store, TokenKey(p.jti), now))
        && !(redisUp && Live(store, EpochKey(p.user), now) && p.issuedAt < store[EpochKey(p.user)].value * SECOND)
  {
    if Decode(payload, now).Ok? { var subject := Decode(payload, now).value.subject; }
  }

  /** A permission check passes exactly for an accepted token that was granted with the code. */
  lemma PermitsGranted(cfg: Settings, store: Store, g: Grant, now: int, redisUp: bool, code: string)
    requires g.jti != "" && 0 < g.user && g.at <= now
    ensures Permits(Authenticate(store, Encode(cfg, g), now, redisUp), code) <==>
              Accepts(cfg, store, g, now, redisUp) && code in g.permissions
  {
    AuthenticateGrant(cfg, store, g, now, redisUp);
  }

  /** With Redis out of reach every unexpired token is accepted, whatever was revoked. */
  lemma GuardFailsOpen(cfg: Settings, store: Store, g: Grant, now: int)
    requires g.jti != "" && 0 < g.user && g.at <= now
    ensures Accepts(cfg, store, g, now, false) <==> now < IssuedAt(g) + cfg.accessSeconds * SECOND
  {
    GuardReadsKeys(cfg, store, g, now, false);
  }
}
