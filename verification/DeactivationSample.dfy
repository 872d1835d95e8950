/** A run in which a deactivated user goes on with its session. */
module DeactivationSample {
  import opened Options
  import opened Clock
  import opened RefreshTokens
  import opened Blocklist
  import opened Accounts
  import opened Sessions
  import opened Runs
  import opened DeactivationTheorems

  function At(r: Request, at: int): Event {
    Event(r, Span(at, at), NO_FAULTS)
  }

  const DAYS: Settings := Settings(900, 604_800_000_000)

  /** One active user and nothing issued. */
  function SampleWorld(): World {
    World(Core(Db(map[], 0), map[], Directory(map[1 := User("a", "p", true)], 2, map[], map[], {}, {})), [], 0,
          Past({}, {}, {}, []))
  }

  /** A login after ten seconds, a deactivation at half past the twentieth, a refresh at the twenty-first. */
  function SampleLogin(): Event {
    At(OnLogin(LoginArgs("a", true, NOBODY, "h0", 0, "j0")), 10 * SECOND)
  }

  function SampleBan(): Event {
    At(OnUpdate(UpdateArgs(1, None, None, Some(false), NOBODY, true)), 20 * SECOND + SECOND / 2)
  }

  function SampleRefresh(): Event {
    At(OnRefresh(RefreshArgs("h0", "h1", NOBODY, "j1", true, false, true)), 21 * SECOND)
  }

  function SampleRow(): Row {
    Row(1, "h0", 0, None, None, None, 10 * SECOND + DAYS.refreshLifetime, None)
  }

  /** The world after the login, as far as it matters. */
  ghost predicate LoggedIn(w: World) {
    && w.core.db == Db(map[0 := SampleRow()], 1) && w.core.accounts == SampleWorld().core.accounts
    && w.now == 10 * SECOND && w.past.revoked == {}
    && forall g :: g in w.past.grants ==> g.jti == "j0"
  }

  lemma SampleLoginServed()
    ensures
      var w0, e := SampleWorld(), SampleLogin();
      var s := Serve(DAYS, w0.core, e.request, e.time);
      && s.core == w0.core.(db := Db(map[0 := SampleRow()], 1)) && s.revoked == {}
      && s.reply.Issued? && s.reply.grant.jti == "j0"
  {
    var d := SampleWorld().core.accounts;
    assert 1 in UsersByEmail(d, CanonicalEmail("a")) by { assert CanonicalEmail("a") == "a"; }
    assert Credentials(d, "a") == Some(1);
    assert !HashTaken(map[], "h0");
  }

  lemma SampleLoginStep()
    ensures Initial(SampleWorld()) && Enabled(SampleWorld(), SampleLogin())
    ensures LoggedIn(Step(DAYS, SampleWorld(), SampleLogin()))
  {
    SampleLoginServed();
  }

  lemma OneStepIsReachable(cfg: Settings, w: World, e: Event)
    requires Initial(w) && Enabled(w, e) && RedisAnswers(e.request)
    ensures Reachable(cfg, Step(cfg, w, e), true)
  {
    OneEventRun(cfg, w, e);
    assert AllAnswered([e]);
  }

  lemma SampleBanServed(w: World)
    requires LoggedIn(w)
    ensures Deactivates(DAYS, w, SampleBan(), 1)
  {
    assert UsersByEmail(w.core.accounts, "a") <= {1};
    assert "email" !in FieldsOf(SampleBan().request.update);
    BannedFields(SampleBan().request.update);
  }

  lemma SampleRefreshReady(w: World)
    requires w.core.db == Db(map[0 := SampleRow()], 1) && w.now <= 21 * SECOND
    requires w.past.revoked == {UserRevoked(1, SampleBan().time.start)}
    requires forall g :: g in w.past.grants ==> g.jti == "j0"
    ensures Enabled(w, SampleRefresh()) && RotatesRowOf(DAYS, w, SampleRefresh(), 1)
    ensures LatestRevocation(w.past, 1, SampleBan().time.start)
  {
    assert w.core.db.rows[0].hash == "h0";
    assert Find(w.core.db.rows, "h0") == Some(0);
    assert "j0" != "j1";
  }

  /** The user is inactive after `ban`, yet `e` hands it a pair whose access token the guard accepts. */
  ghost predicate SessionOutlives(cfg: Settings, w: World, ban: Event, e: Event, u: nat) {
    var banned := Step(cfg, w, ban);
    && Deactivates(cfg, w, ban, u) && Enabled(banned, e)
    && u in banned.core.accounts.users && !banned.core.accounts.users[u].active
    && AdmitsAtOnce(cfg, banned, e, u)
  }

  lemma SampleBanLeaves(w: World)
    requires LoggedIn(w)
    ensures
      var banned := Step(DAYS, w, SampleBan());
      && 1 in banned.core.accounts.users
      && banned.core.db == w.core.db && banned.now == SampleBan().time.finish
      && banned.past.grants == w.past.grants && banned.past.revoked == {UserRevoked(1, SampleBan().time.start)}
  {
    SampleBanServed(w);
    BanEffects(DAYS, w, SampleBan(), 1);
  }

  lemma SampleBanned(w: World)
    requires LoggedIn(w)
    ensures
      var banned := Step(DAYS, w, SampleBan());
      && 1 in banned.core.accounts.users
      && Enabled(banned, SampleRefresh()) && RotatesRowOf(DAYS, banned, SampleRefresh(), 1)
      && LatestRevocation(banned.past, 1, SampleBan().time.start)
  {
    SampleBanLeaves(w);
    SampleRefreshReady(Step(DAYS, w, SampleBan()));
  }

  /** `DeactivatedUserRefreshes` with nothing in between, at a later whole second. */
  lemma LoggedInSessionGoesOn(w: World)
    requires LoggedIn(w) && Reachable(DAYS, w, true)
    ensures SessionOutlives(DAYS, w, SampleBan(), SampleRefresh(), 1)
  {
    SampleBanServed(w);
    SampleBanned(w);
    var banned := Step(DAYS, w, SampleBan());
    assert Exec(DAYS, banned, []) == banned && Legal(DAYS, banned, []) && AllAnswered([]) && NoneReactivates([], 1);
    assert CeilSeconds(20 * SECOND + SECOND / 2) == 21;
    DeactivatedUserRefreshes(DAYS, w, SampleBan(), [], SampleRefresh(), 1);
  }

  /** The run exists: a user logs in, is deactivated, and half a second later refreshes its session. */
  lemma BannedSessionGoesOn()
    ensures Initial(SampleWorld()) && Enabled(SampleWorld(), SampleLogin())
    ensures SessionOutlives(DAYS, Step(DAYS, SampleWorld(), SampleLogin()), SampleBan(), SampleRefresh(), 1)
  {
    SampleLoginStep();
    OneStepIsReachable(DAYS, SampleWorld(), SampleLogin());
    LoggedInSessionGoesOn(Step(DAYS, SampleWorld(), SampleLogin()));
  }
}
