/** Over whole runs: the guard refuses what was revoked, and only that. */
module RevocationTheorems {
  import opened Clock
  import opened AccessTokens
  import opened RefreshTokens
  import opened Blocklist
  import opened Guard
  import opened Sessions
  import opened Runs

  /** What the run keeps, seen from the guard. */
  lemma GrantsUsable(cfg: Settings, w: World, g: Grant, now: int)
    requires Good(cfg, w) && g in w.past.grants && w.now <= now
    ensures g.jti != "" && 0 < g.user && g.at <= now
  {
  }

  /**
   * While Redis answers, the guard accepts a token exactly when a store that never forgets a
   * revocation would: neither the expiry of a key nor the overwriting of a user's single epoch
   * loses a revocation that matters.
   */
  lemma GuardRefinesIdeal(cfg: Settings, w: World, g: Grant, now: int)
    requires Reachable(cfg, w, true)
    requires g in w.past.grants && w.now <= now
    ensures Accepts(cfg, w.core.store, g, now, true) <==> IdealAccepts(cfg, w.past.revoked, g, now)
  {
    ReachableIsGood(cfg, w, true);
    GuardAgrees(cfg, w, g, now);
  }

  lemma GuardAgrees(cfg: Settings, w: World, g: Grant, now: int)
    requires Good(cfg, w) && Agreeing(cfg, w)
    requires g in w.past.grants && w.now <= now
    ensures Accepts(cfg, w.core.store, g, now, true) <==> IdealAccepts(cfg, w.past.revoked, g, now)
  {
    GrantsUsable(cfg, w, g, now);
    AuthenticateGrant(cfg, w.core.store, g, now, true);
    if now < Expiry(cfg, g) {
      CompleteLater(cfg, w.core.store, w.past.revoked, w.past.grants, w.past.grants, w.now, now);
      BlockedAgrees(cfg, w.core.store, w.past.revoked, w.past.grants, g, now);
    }
  }

  /** Whatever writes Redis loses and whatever reads fail, the guard refuses no token the ideal store accepts. */
  lemma FaultsNeverRefuse(cfg: Settings, w: World, g: Grant, now: int, redisUp: bool)
    requires Reachable(cfg, w, false)
    requires g in w.past.grants && w.now <= now && IdealAccepts(cfg, w.past.revoked, g, now)
    ensures Accepts(cfg, w.core.store, g, now, redisUp)
  {
    ReachableIsGood(cfg, w, false);
    GrantsUsable(cfg, w, g, now);
    AuthenticateGrant(cfg, w.core.store, g, now, redisUp);
    if IsBlocked(w.core.store, g.jti, g.user, FloorSeconds(g.at) * SECOND, now, redisUp) {
      BlockedOnlyIfRevoked(w.core.store, w.past.revoked, g, now, redisUp);
    }
  }

  /** In every reachable state a guard whose read of Redis fails accepts exactly the unexpired tokens. */
  lemma UnreadableRedisAccepts(cfg: Settings, w: World, g: Grant, now: int)
    requires Reachable(cfg, w, false) && g in w.past.grants && w.now <= now
    ensures Accepts(cfg, w.core.store, g, now, false) <==> now < IssuedAt(g) + cfg.accessSeconds * SECOND
  {
    ReachableIsGood(cfg, w, false);
    GrantsUsable(cfg, w, g, now);
    GuardFailsOpen(cfg, w.core.store, g, now);
  }

  /** Revocations are never withdrawn. */
  lemma {:induction false} PastGrows(cfg: Settings, w: World, es: seq<Event>)
    ensures w.past.revoked <= Exec(cfg, w, es).past.revoked
    ensures w.past.grants <= Exec(cfg, w, es).past.grants
    ensures w.past.families <= Exec(cfg, w, es).past.families
    decreases |es|
  {
    if es != [] {
      PastGrows(cfg, Step(cfg, w, es[0]), es[1..]);
    }
  }

  /** A token that a revocation at `at` may concern has expired one access lifetime later. */
  lemma ExpiredByThen(cfg: Settings, store: Store, g: Grant, at: int, now: int, redisUp: bool)
    requires g.jti != "" && 0 < g.user && g.at <= now
    requires g.at <= at || FloorSeconds(g.at) < CeilSeconds(at)
    requires at + cfg.accessSeconds * SECOND <= now
    ensures !Accepts(cfg, store, g, now, redisUp)
  {
    AuthenticateGrant(cfg, store, g, now, redisUp);
  }

  /** The revocation concerns the token. */
  predicate Concerns(r: Revocation, g: Grant) {
    match r
    case TokenRevoked(jti) => g.jti == jti
    case UserRevoked(user, at) => g.user == user && FloorSeconds(g.at) < CeilSeconds(at)
  }

  lemma RevokedNow(cfg: Settings, c: Core, r: Request, t: Span, v: Revocation)
    requires v in Serve(cfg, c, r, t).revoked
    ensures v.UserRevoked? ==> v.at == t.start
    ensures v.TokenRevoked? ==> r.OnLogout? && v.jti == r.logout.access.jti
  {
    if r.OnRefresh? { RotateCases(c.db, RotationOf(cfg, r.refresh, t.start)); }
  }

  /**
   * Whatever Redis loses, a revocation takes full effect one access lifetime later: when a call at T
   * revokes tokens, none that the revocation concerns is accepted at or after T plus the lifetime, in
   * any continuation of the run, by any read of Redis.
   */
  lemma ExposureBound(cfg: Settings, w: World, e: Event, after: seq<Event>, v: Revocation, g: Grant,
                      now: int, redisUp: bool)
    requires Reachable(cfg, w, false) && Enabled(w, e) && v in Serve(cfg, w.core, e.request, e.time).revoked
    requires Legal(cfg, Step(cfg, w, e), after)
    requires
      var later := Exec(cfg, Step(cfg, w, e), after);
      g in later.past.grants && Concerns(v, g) && later.now <= now
    requires e.time.start + cfg.accessSeconds * SECOND <= now
    ensures !Accepts(cfg, Exec(cfg, Step(cfg, w, e), after).core.store, g, now, redisUp)
  {
    var next := Step(cfg, w, e);
    var later := Exec(cfg, next, after);
    ReachableIsGood(cfg, w, false);
    StepKeepsGood(cfg, w, e);
    RunKeepsGood(cfg, next, after);
    RevokedNow(cfg, w.core, e.request, e.time, v);
    if v.TokenRevoked? {
      PastGrows(cfg, next, after);
      assert e.request.logout.access in later.past.grants;
    }
    GrantsUsable(cfg, later, g, now);
    ExpiredByThen(cfg, later.core.store, g, e.time.start, now, redisUp);
  }

  /** A revocation asked for once is refused by the guard in every later state of every run. */
  lemma RevokedForEver(cfg: Settings, w: World, es: seq<Event>, g: Grant, now: int)
    requires Good(cfg, w) && Agreeing(cfg, w)
    requires Legal(cfg, w, es) && AllAnswered(es)
    requires IdealBlocked(w.past.revoked, g)
    requires g in Exec(cfg, w, es).past.grants && Exec(cfg, w, es).now <= now
    ensures !Accepts(cfg, Exec(cfg, w, es).core.store, g, now, true)
  {
    PastGrows(cfg, w, es);
    RunKeepsGood(cfg, w, es);
    GuardAgrees(cfg, Exec(cfg, w, es), g, now);
  }

  lemma LogoutRevokesToken(cfg: Settings, w: World, e: Event)
    requires e.request.OnLogout?
    ensures TokenRevoked(e.request.logout.access.jti) in Step(cfg, w, e).past.revoked
  {
  }

  /** After a logout the bearer's access token is refused at every later instant of every continuation. */
  lemma LogoutSealsToken(cfg: Settings, w: World, e: Event, after: seq<Event>, now: int)
    requires Reachable(cfg, w, true)
    requires e.request.OnLogout? && Enabled(w, e) && RedisAnswers(e.request)
    requires Legal(cfg, Step(cfg, w, e), after) && AllAnswered(after)
    requires Exec(cfg, Step(cfg, w, e), after).now <= now
    ensures !Accepts(cfg, Exec(cfg, Step(cfg, w, e), after).core.store, e.request.logout.access, now, true)
  {
    ReachableIsGood(cfg, w, true);
    StepKeepsGood(cfg, w, e);
    LogoutRevokesToken(cfg, w, e);
    PastGrows(cfg, w, [e]);
    PastGrows(cfg, Step(cfg, w, e), after);
    RevokedForEver(cfg, Step(cfg, w, e), after, e.request.logout.access, now);
  }
}
