/** Over whole runs: how stale a permission can be that the guard honours. */
module AccessTheorems {
  import opened Clock
  import opened AccessTokens
  import opened RefreshTokens
  import opened Guard
  import opened Accounts
  import opened Sessions
  import opened Runs
  import opened RevocationTheorems

  /** The worlds a run goes through, the first and the last included. */
  ghost function Trace(cfg: Settings, w: World, es: seq<Event>): (trace: seq<World>)
    ensures |trace| == |es| + 1 && trace[0] == w
    decreases |es|
  {
    if es == [] then [w] else [w] + Trace(cfg, Step(cfg, w, es[0]), es[1..])
  }

  /** At the instant of the grant the user held exactly these roles, and through them these permissions. */
  ghost predicate HeldWhenGranted(w: World, g: Grant) {
    w.now == g.at && CarriesHeld(w.core.accounts, g)
  }

  lemma NewGrantHeld(cfg: Settings, w: World, e: Event, g: Grant)
    requires g in Step(cfg, w, e).past.grants && g !in w.past.grants
    ensures HeldWhenGranted(Step(cfg, w, e), g)
  {
    if e.request.OnRefresh? {
      RotateCases(w.core.db, RotationOf(cfg, e.request.refresh, e.time.start));
    }
    GrantForCarriesHeld(w.core.accounts, g.user, g.at, g.jti);
  }

  lemma {:induction false} GrantedAlongTrace(cfg: Settings, w: World, es: seq<Event>, g: Grant) returns (k: nat)
    requires g in Exec(cfg, w, es).past.grants && g !in w.past.grants
    ensures k <= |es| && HeldWhenGranted(Trace(cfg, w, es)[k], g)
    decreases |es|
  {
    var next := Step(cfg, w, es[0]);
    if g in next.past.grants {
      NewGrantHeld(cfg, w, es[0], g);
      k := 1;
    } else {
      var k0 := GrantedAlongTrace(cfg, next, es[1..], g);
      k := k0 + 1;
    }
  }

  /**
   * A permission that the guard honours now was linked to a role of the user, and that role to the user,
   * at some point of the run less than one access lifetime ago, in any state of Redis.
   */
  lemma PermissionStaleness(cfg: Settings, w0: World, es: seq<Event>, g: Grant, now: int, redisUp: bool, code: string)
      returns (k: nat)
    requires Initial(w0) && Legal(cfg, w0, es)
    requires g in Exec(cfg, w0, es).past.grants && Exec(cfg, w0, es).now <= now
    requires Permits(Authenticate(Exec(cfg, w0, es).core.store, Encode(cfg, g), now, redisUp), code)
    ensures k <= |es|
    ensures HoldsPermission(Trace(cfg, w0, es)[k].core.accounts, g.user, code)
    ensures Trace(cfg, w0, es)[k].now <= now < Trace(cfg, w0, es)[k].now + cfg.accessSeconds * SECOND
  {
    InitialIsGood(cfg, w0);
    RunKeepsGood(cfg, w0, es);
    var w := Exec(cfg, w0, es);
    GrantsUsable(cfg, w, g, now);
    AuthenticateGrant(cfg, w.core.store, g, now, redisUp);
    k := GrantedAlongTrace(cfg, w0, es, g);
  }
}
