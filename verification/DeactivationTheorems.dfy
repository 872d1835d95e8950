/** Over whole runs: what deactivating or deleting a user ends, and exactly when it ends its sessions. */
module DeactivationTheorems {
  import opened Options
  import opened Clock
  import opened AccessTokens
  import opened RefreshTokens
  import opened FamilyChains
  import opened Blocklist
  import opened Guard
  import opened Accounts
  import opened AuditLog
  import opened Sessions
  import opened Runs
  import opened RevocationTheorems
  import opened FamilyTheorems
  import opened Fresh

  /** The user is deactivated, or has been deleted; ids are not used twice. */
  ghost predicate Barred(d: Directory, u: nat) {
    u < d.nextUserId && (u in d.users ==> !d.users[u].active)
  }

  predicate Reactivates(e: Event, u: nat) {
    e.request.OnUpdate? && e.request.update.user == u && e.request.update.active == Some(true)
  }

  predicate NoneReactivates(es: seq<Event>, u: nat) {
    forall k :: 0 <= k < |es| ==> !Reactivates(es[k], u)
  }

  lemma UpdateKeepsBarred(d: Directory, q: UpdateArgs, u: nat)
    requires Barred(d, u) && !(q.user == u && q.active == Some(true))
    ensures Barred(Accounts.UpdateUser(d, q.user, FieldsOf(q)).0, u)
  {
    var fields := FieldsOf(q);
    assert q.active.None? ==> "is_active" !in fields;
    assert q.active.Some? ==> "is_active" in fields && fields["is_active"] == FlagCell(q.active.value);
  }

  lemma RegisterKeepsBarred(c: Core, email: string, hash: string, name: string, context: Context, u: nat)
    requires Barred(c.accounts, u)
    ensures Barred(Sessions.Register(c, email, hash, name, context).core.accounts, u)
  {
  }

  lemma StepKeepsBarred(cfg: Settings, w: World, e: Event, u: nat)
    requires Barred(w.core.accounts, u) && !Reactivates(e, u)
    ensures Barred(Step(cfg, w, e).core.accounts, u)
  {
    match e.request {
      case OnUpdate(q) => UpdateKeepsBarred(w.core.accounts, q, u);
      case OnRegister(email, hash, name, context) => RegisterKeepsBarred(w.core, email, hash, name, context, u);
      case _ =>
    }
  }

  lemma {:induction false} RunKeepsBarred(cfg: Settings, w: World, es: seq<Event>, u: nat)
    requires Barred(w.core.accounts, u) && NoneReactivates(es, u)
    ensures Barred(Exec(cfg, w, es).core.accounts, u)
    decreases |es|
  {
    if es != [] {
      StepKeepsBarred(cfg, w, es[0], u);
      assert NoneReactivates(es[1..], u);
      RunKeepsBarred(cfg, Step(cfg, w, es[0]), es[1..], u);
    }
  }

  // ---------------------------------------------------------------- what a barred user is still issued

  /** The refresh presents a row of user `u` that can be rotated. */
  ghost predicate RotatesRowOf(cfg: Settings, w: World, e: Event, u: nat) {
    && e.request.OnRefresh?
    && var a := RotationOf(cfg, e.request.refresh, e.time.start);
       && Consumable(w.core.db, a) && !HashTaken(w.core.db.rows, a.replacement)
       && w.core.db.rows[Find(w.core.db.rows, a.hash).value].user == u
  }

  /** The call hands the user an access token. */
  ghost predicate IssuesTo(cfg: Settings, w: World, e: Event, u: nat) {
    var reply := Serve(cfg, w.core, e.request, e.time).reply;
    reply.Issued? && reply.grant.user == u
  }

  /** A barred user cannot log in, but nothing keeps it from refreshing. */
  lemma BarredIssuesByRefresh(cfg: Settings, w: World, e: Event, u: nat)
    requires Barred(w.core.accounts, u)
    ensures IssuesTo(cfg, w, e, u) <==> RotatesRowOf(cfg, w, e, u)
  {
    if e.request.OnRefresh? {
      RotateCases(w.core.db, RotationOf(cfg, e.request.refresh, e.time.start));
    }
  }

  /** No row of the user can be rotated any more. */
  ghost predicate NoLiveRow(rows: Rows, u: nat, now: int) {
    forall i :: i in rows && rows[i].user == u ==> rows[i].revoked.Some? || rows[i].expires <= now
  }

  ghost predicate NoNewGrant(past: Past, after: Past, u: nat) {
    forall g :: g in after.grants && g.user == u ==> g in past.grants
  }

  lemma StepGrants(cfg: Settings, w: World, e: Event, u: nat)
    requires !IssuesTo(cfg, w, e, u)
    ensures NoNewGrant(w.past, Step(cfg, w, e).past, u)
  {
  }

  lemma RefreshLeavesNoLiveRow(cfg: Settings, w: World, e: Event, u: nat)
    requires Enabled(w, e) && e.request.OnRefresh? && NoLiveRow(w.core.db.rows, u, w.now)
    ensures NoLiveRow(Step(cfg, w, e).core.db.rows, u, e.time.finish) && !RotatesRowOf(cfg, w, e, u)
  {
    RotateCases(w.core.db, RotationOf(cfg, e.request.refresh, e.time.start));
  }

  lemma OthersLeaveNoLiveRow(cfg: Settings, w: World, e: Event, u: nat)
    requires Barred(w.core.accounts, u)
    requires Enabled(w, e) && !e.request.OnRefresh? && NoLiveRow(w.core.db.rows, u, w.now)
    ensures NoLiveRow(Step(cfg, w, e).core.db.rows, u, e.time.finish)
  {
  }

  /** One call hands a barred user without a live row nothing, and leaves it without one. */
  lemma StepLeavesNoLiveRow(cfg: Settings, w: World, e: Event, u: nat)
    requires Barred(w.core.accounts, u) && NoLiveRow(w.core.db.rows, u, w.now) && Enabled(w, e)
    ensures NoLiveRow(Step(cfg, w, e).core.db.rows, u, e.time.finish)
    ensures NoNewGrant(w.past, Step(cfg, w, e).past, u)
  {
    if e.request.OnRefresh? {
      RefreshLeavesNoLiveRow(cfg, w, e, u);
    } else {
      OthersLeaveNoLiveRow(cfg, w, e, u);
    }
    BarredIssuesByRefresh(cfg, w, e, u);
    StepGrants(cfg, w, e, u);
  }

  /** In any continuation that does not activate it again, a barred user without a live row is issued nothing. */
  lemma {:induction false} RunLeavesNoLiveRow(cfg: Settings, w: World, es: seq<Event>, u: nat)
    requires Barred(w.core.accounts, u) && NoLiveRow(w.core.db.rows, u, w.now)
    requires Legal(cfg, w, es) && NoneReactivates(es, u)
    ensures NoNewGrant(w.past, Exec(cfg, w, es).past, u)
    decreases |es|
  {
    if es != [] {
      StepLeavesNoLiveRow(cfg, w, es[0], u);
      StepKeepsBarred(cfg, w, es[0], u);
      assert NoneReactivates(es[1..], u);
      RunLeavesNoLiveRow(cfg, Step(cfg, w, es[0]), es[1..], u);
    }
  }

  // ---------------------------------------------------------------- every stored device can be presented again

  /** Every stored device hash is the hash of some user agent. */
  ghost predicate Presentable(rows: Rows) {
    forall i :: i in rows ==> exists agent :: DeviceHash(agent) == rows[i].device
  }

  lemma RotateKeepsPresentable(db: Db, a: RotateArgs, agent: Option<string>)
    requires Presentable(db.rows) && a.device == DeviceHash(agent)
    ensures Presentable(Rotate(db, a).0.rows)
  {
    RotateCases(db, a);
  }

  lemma OthersKeepPresentable(cfg: Settings, c: Core, r: Request, t: Span)
    requires Presentable(c.db.rows) && !r.OnRefresh?
    ensures Presentable(Serve(cfg, c, r, t).core.db.rows)
  {
  }

  lemma StepKeepsPresentable(cfg: Settings, w: World, e: Event)
    requires Presentable(w.core.db.rows)
    ensures Presentable(Step(cfg, w, e).core.db.rows)
  {
    if e.request.OnRefresh? {
      var q := e.request.refresh;
      RotateKeepsPresentable(w.core.db, RotationOf(cfg, q, e.time.start), q.context.userAgent);
    } else {
      OthersKeepPresentable(cfg, w.core, e.request, e.time);
    }
  }

  lemma {:induction false} RunKeepsPresentable(cfg: Settings, w: World, es: seq<Event>)
    requires Presentable(w.core.db.rows)
    ensures Presentable(Exec(cfg, w, es).core.db.rows)
    decreases |es|
  {
    if es != [] {
      StepKeepsPresentable(cfg, w, es[0]);
      RunKeepsPresentable(cfg, Step(cfg, w, es[0]), es[1..]);
    }
  }

  lemma ReachableIsPresentable(cfg: Settings, w: World)
    requires Reachable(cfg, w, false)
    ensures Presentable(w.core.db.rows)
  {
    var w0, es :| Initial(w0) && Legal(cfg, w0, es) && w == Exec(cfg, w0, es);
    RunKeepsPresentable(cfg, w0, es);
  }

  // ---------------------------------------------------------------- exactly when a deactivation ends the sessions

  const NOBODY: Context := Context(None, None, None, None, None)

  const NO_FAULTS: (Fault, Fault) := (Fault(false, false, false), Fault(false, false, false))

  lemma FreshJtiExists(past: Past) returns (jti: string)
    ensures FreshJti(past, jti)
  {
    var granted := set g | g in past.grants :: g.jti;
    var blocked := set r | r in past.revoked && r.TokenRevoked? :: r.jti;
    jti := FreshText(granted + blocked);
    forall r | r in past.revoked && r.TokenRevoked? ensures r.jti != jti { assert r.jti in blocked; }
    assert forall g :: g in past.grants ==> g.jti in granted;
  }

  /** A live row can be refreshed at once, from the device it is bound to, whatever the binding switch is. */
  lemma LiveRowRefreshes(cfg: Settings, w: World, i: nat, bind: bool, finish: int) returns (e: Event)
    requires UniqueHashes(w.core.db.rows) && Presentable(w.core.db.rows) && w.now <= finish
    requires i in w.core.db.rows && w.core.db.rows[i].revoked.None? && w.now < w.core.db.rows[i].expires
    ensures Enabled(w, e) && e.time.finish == finish
    ensures e.request.OnRefresh? && e.request.refresh.bindDevice == bind && RedisAnswers(e.request)
    ensures RotatesRowOf(cfg, w, e, w.core.db.rows[i].user)
  {
    var rows := w.core.db.rows;
    var agent :| DeviceHash(agent) == rows[i].device;
    var stored := set k | k in rows :: rows[k].hash;
    var replacement := FreshText(stored);
    assert forall k :: k in rows ==> rows[k].hash in stored;
    var jti := FreshJtiExists(w.past);
    var q := RefreshArgs(rows[i].hash, replacement, NOBODY.(userAgent := agent), jti, bind, false, true);
    e := Event(OnRefresh(q), Span(w.now, finish), NO_FAULTS);
    assert Find(rows, rows[i].hash) == Some(i);
  }

  /** The binding switch stands as given at every refresh of the run; without a value, it stands in any way. */
  predicate SwitchedAs(es: seq<Event>, switch: Option<bool>) {
    switch.Some? ==>
      forall k :: 0 <= k < |es| && es[k].request.OnRefresh? ==> es[k].request.refresh.bindDevice == switch.value
  }

  /** One way for the switch to stand. */
  function SettingOf(switch: Option<bool>): bool {
    if switch.Some? then switch.value else true
  }

  /** No continuation hands the user another access token, unless it activates the user again. */
  ghost predicate Silent(cfg: Settings, w: World, u: nat, switch: Option<bool>) {
    forall es :: Legal(cfg, w, es) && NoneReactivates(es, u) && SwitchedAs(es, switch) ==>
      NoNewGrant(w.past, Exec(cfg, w, es).past, u)
  }

  lemma RefreshIsNewGrant(cfg: Settings, w: World, e: Event, u: nat)
    requires Enabled(w, e) && RotatesRowOf(cfg, w, e, u)
    ensures !NoNewGrant(w.past, Step(cfg, w, e).past, u)
  {
    RefreshIssues(cfg, w, e);
    var grant := Serve(cfg, w.core, e.request, e.time).reply.grant;
    assert grant in Step(cfg, w, e).past.grants && grant.jti == e.request.refresh.jti;
  }

  lemma OneEventRun(cfg: Settings, w: World, e: Event)
    requires Enabled(w, e)
    ensures Legal(cfg, w, [e]) && Exec(cfg, w, [e]) == Step(cfg, w, e)
  {
    assert [e][1..] == [] && Legal(cfg, Step(cfg, w, e), []);
    assert Exec(cfg, w, [e]) == Exec(cfg, Step(cfg, w, e), [e][1..]);
  }

  lemma RefreshBreaksSilence(cfg: Settings, w: World, e: Event, u: nat, switch: Option<bool>)
    requires Enabled(w, e) && RotatesRowOf(cfg, w, e, u)
    requires switch.Some? ==> e.request.refresh.bindDevice == switch.value
    ensures !Silent(cfg, w, u, switch)
  {
    RefreshIsNewGrant(cfg, w, e, u);
    OneEventRun(cfg, w, e);
    assert NoneReactivates([e], u) && SwitchedAs([e], switch);
  }

  /** A barred user gets no further token, in any continuation, if and only if it has no live row. */
  lemma BarredIsSilentIff(cfg: Settings, w: World, u: nat, switch: Option<bool>)
    requires UniqueHashes(w.core.db.rows) && Presentable(w.core.db.rows) && Barred(w.core.accounts, u)
    ensures Silent(cfg, w, u, switch) <==> NoLiveRow(w.core.db.rows, u, w.now)
  {
    var rows := w.core.db.rows;
    if NoLiveRow(rows, u, w.now) {
      forall es | Legal(cfg, w, es) && NoneReactivates(es, u) && SwitchedAs(es, switch)
        ensures NoNewGrant(w.past, Exec(cfg, w, es).past, u)
      {
        RunLeavesNoLiveRow(cfg, w, es, u);
      }
    } else {
      var i :| i in rows && rows[i].user == u && rows[i].revoked.None? && w.now < rows[i].expires;
      var e := LiveRowRefreshes(cfg, w, i, SettingOf(switch), w.now);
      RefreshBreaksSilence(cfg, w, e, u, switch);
    }
  }

  /** The administrator deactivates the user, and the call succeeds. */
  ghost predicate Deactivates(cfg: Settings, w: World, ban: Event, u: nat) {
    && Enabled(w, ban) && ban.request.OnUpdate?
    && ban.request.update.user == u && ban.request.update.active == Some(false)
    && Serve(cfg, w.core, ban.request, ban.time).reply.Done?
  }

  lemma BanEffects(cfg: Settings, w: World, ban: Event, u: nat)
    requires WellFormed(w.core.accounts) && Deactivates(cfg, w, ban, u)
    ensures Barred(Step(cfg, w, ban).core.accounts, u) && u in Step(cfg, w, ban).core.accounts.users
    ensures Step(cfg, w, ban).core.db == w.core.db && Step(cfg, w, ban).now == ban.time.finish
    ensures Step(cfg, w, ban).past.revoked == w.past.revoked + {UserRevoked(u, ban.time.start)}
    ensures Step(cfg, w, ban).past.grants == w.past.grants
  {
    BannedFields(ban.request.update);
  }

  lemma BannedFields(q: UpdateArgs)
    requires q.active == Some(false)
    ensures "is_active" in FieldsOf(q) && FieldsOf(q)["is_active"] == FlagCell(false)
  {
  }

  lemma RefreshIssues(cfg: Settings, w: World, e: Event)
    requires Enabled(w, e) && e.request.OnRefresh?
    requires
      var a := RotationOf(cfg, e.request.refresh, e.time.start);
      Consumable(w.core.db, a) && !HashTaken(w.core.db.rows, a.replacement)
    ensures
      var s := Serve(cfg, w.core, e.request, e.time);
      var a := RotationOf(cfg, e.request.refresh, e.time.start);
      && s.reply.Issued? && s.revoked == {}
      && s.reply.grant.user == w.core.db.rows[Find(w.core.db.rows, a.hash).value].user
      && s.reply.grant.at == e.time.finish
      && Step(cfg, w, e).past.revoked == w.past.revoked
      && s.reply.grant in Step(cfg, w, e).past.grants
      && TokenRevoked(s.reply.grant.jti) !in w.past.revoked
  {
    RotateCases(w.core.db, RotationOf(cfg, e.request.refresh, e.time.start));
    assert w.past.revoked + {} == w.past.revoked;
  }

  /**
   * Exactly when a deactivation ends the user's sessions, read from the table it finds and whatever Redis
   * does: when every row of the user is revoked or has expired by the time the call is done.  A live row
   * can still be refreshed although the user is inactive.
   */
  lemma DeactivationEndsSessionsIff(cfg: Settings, w: World, ban: Event, u: nat, switch: Option<bool>)
    requires Reachable(cfg, w, false) && Deactivates(cfg, w, ban, u)
    ensures Silent(cfg, Step(cfg, w, ban), u, switch) <==> NoLiveRow(w.core.db.rows, u, ban.time.finish)
  {
    ReachableIsGood(cfg, w, false);
    StepKeepsGood(cfg, w, ban);
    BanEffects(cfg, w, ban, u);
    ReachableIsPresentable(cfg, w);
    BarredIsSilentIff(cfg, Step(cfg, w, ban), u, switch);
  }

  // ---------------------------------------------------------------- which of the tokens are accepted

  /** The latest revocation of the user is the one at `at`. */
  ghost predicate LatestRevocation(past: Past, u: nat, at: int) {
    && UserRevoked(u, at) in past.revoked
    && forall earlier :: UserRevoked(u, earlier) in past.revoked ==> earlier <= at
  }

  /** The call hands the user an access token that the guard accepts at once. */
  ghost predicate AdmitsAtOnce(cfg: Settings, w: World, e: Event, u: nat) {
    && IssuesTo(cfg, w, e, u)
    && Accepts(cfg, Step(cfg, w, e).core.store, Serve(cfg, w.core, e.request, e.time).reply.grant, e.time.finish, true)
  }

  /**
   * Of a user deactivated at T and neither activated again nor revoked once more, at any later point of
   * the run: a call hands it a token exactly if it refreshes a row of the user that can be rotated, and
   * that token is accepted exactly from the next whole second after T on.
   */
  lemma DeactivatedUserRefreshes(cfg: Settings, w: World, ban: Event, between: seq<Event>, e: Event, u: nat)
    requires Reachable(cfg, w, true) && Deactivates(cfg, w, ban, u) && RedisAnswers(ban.request)
    requires Legal(cfg, Step(cfg, w, ban), between) && AllAnswered(between) && NoneReactivates(between, u)
    requires LatestRevocation(Exec(cfg, Step(cfg, w, ban), between).past, u, ban.time.start)
    requires Enabled(Exec(cfg, Step(cfg, w, ban), between), e) && RedisAnswers(e.request)
    ensures
      var later := Exec(cfg, Step(cfg, w, ban), between);
      && Barred(later.core.accounts, u)
      && (IssuesTo(cfg, later, e, u) <==> RotatesRowOf(cfg, later, e, u))
      && (AdmitsAtOnce(cfg, later, e, u) <==>
            RotatesRowOf(cfg, later, e, u) && CeilSeconds(ban.time.start) * SECOND <= e.time.finish)
  {
    ReachableIsGood(cfg, w, true);
    StepKeepsGood(cfg, w, ban);
    BanEffects(cfg, w, ban, u);
    RunKeepsBarred(cfg, Step(cfg, w, ban), between, u);
    RunKeepsGood(cfg, Step(cfg, w, ban), between);
    var later := Exec(cfg, Step(cfg, w, ban), between);
    BarredIssuesByRefresh(cfg, later, e, u);
    if RotatesRowOf(cfg, later, e, u) { RefreshAfterBan(cfg, later, e, u, ban.time.start); }
  }

  /** Against the ideal store, right when it is granted: only the latest revocation of the user counts. */
  lemma IdealAcceptsNew(cfg: Settings, revoked: set<Revocation>, g: Grant, at: int)
    requires TokenRevoked(g.jti) !in revoked && UserRevoked(g.user, at) in revoked
    requires forall earlier :: UserRevoked(g.user, earlier) in revoked ==> earlier <= at
    ensures IdealAccepts(cfg, revoked, g, g.at) <==> CeilSeconds(at) * SECOND <= g.at
  {
    EpochRounding(g.at, at);
    forall earlier | UserRevoked(g.user, earlier) in revoked ensures CeilSeconds(earlier) <= CeilSeconds(at) {
      assert earlier <= at;
    }
  }

  /** A refresh by user `u`, whose latest revocation was at `at`. */
  lemma RefreshAfterBan(cfg: Settings, w: World, e: Event, u: nat, at: int)
    requires Good(cfg, w) && Agreeing(cfg, w) && LatestRevocation(w.past, u, at)
    requires Enabled(w, e) && RedisAnswers(e.request) && RotatesRowOf(cfg, w, e, u)
    ensures AdmitsAtOnce(cfg, w, e, u) <==> CeilSeconds(at) * SECOND <= e.time.finish
  {
    RefreshIssues(cfg, w, e);
    var grant := Serve(cfg, w.core, e.request, e.time).reply.grant;
    StepKeepsGood(cfg, w, e);
    GuardAgrees(cfg, Step(cfg, w, e), grant, e.time.finish);
    IdealAcceptsNew(cfg, w.past.revoked, grant, at);
  }

  // ---------------------------------------------------------------- exactly when it locks the user out

  /** No access token ever granted to the user is accepted any more. */
  ghost predicate AllRefused(cfg: Settings, w: World, u: nat) {
    forall g, now :: g in w.past.grants && g.user == u && w.now <= now ==> !Accepts(cfg, w.core.store, g, now, true)
  }

  /** In every continuation, while Redis answers and until the user is activated again. */
  ghost predicate LockedOut(cfg: Settings, w: World, u: nat, switch: Option<bool>) {
    forall es :: Legal(cfg, w, es) && AllAnswered(es) && NoneReactivates(es, u) && SwitchedAs(es, switch) ==>
      AllRefused(cfg, Exec(cfg, w, es), u)
  }

  /** What a deactivation leaves, as the halves of `DeactivationLocksOutIff` need it. */
  ghost predicate JustBanned(cfg: Settings, w: World, u: nat, at: int) {
    && Good(cfg, w) && Agreeing(cfg, w) && Presentable(w.core.db.rows)
    && Barred(w.core.accounts, u) && LatestRevocation(w.past, u, at)
    && forall g :: g in w.past.grants ==> g.at < at
  }

  lemma NoLiveRowLocksOut(cfg: Settings, w: World, es: seq<Event>, u: nat, at: int)
    requires JustBanned(cfg, w, u, at) && NoLiveRow(w.core.db.rows, u, w.now)
    requires Legal(cfg, w, es) && AllAnswered(es) && NoneReactivates(es, u)
    ensures AllRefused(cfg, Exec(cfg, w, es), u)
  {
    RunLeavesNoLiveRow(cfg, w, es, u);
    RefusedForEver(cfg, w, es, u, at);
  }

  /** A refresh of the live row that is done at a late enough instant. */
  lemma LiveRowAdmits(cfg: Settings, w: World, u: nat, at: int, i: nat, switch: Option<bool>)
    requires JustBanned(cfg, w, u, at)
    requires i in w.core.db.rows && w.core.db.rows[i].user == u
    requires w.core.db.rows[i].revoked.None? && w.now < w.core.db.rows[i].expires
    ensures !LockedOut(cfg, w, u, switch)
  {
    var e := LiveRowRefreshes(cfg, w, i, SettingOf(switch), Max(w.now, CeilSeconds(at) * SECOND));
    RefreshAfterBan(cfg, w, e, u, at);
    AdmissionBreaksLockout(cfg, w, e, u, switch);
  }

  lemma AdmissionBreaksLockout(cfg: Settings, w: World, e: Event, u: nat, switch: Option<bool>)
    requires Enabled(w, e) && RotatesRowOf(cfg, w, e, u) && RedisAnswers(e.request) && AdmitsAtOnce(cfg, w, e, u)
    requires switch.Some? ==> e.request.refresh.bindDevice == switch.value
    ensures !LockedOut(cfg, w, u, switch)
  {
    RefreshIssues(cfg, w, e);
    assert !AllRefused(cfg, Step(cfg, w, e), u);
    OneEventRun(cfg, w, e);
    assert AllAnswered([e]) && NoneReactivates([e], u) && SwitchedAs([e], switch);
  }

  /**
   * While Redis answers, a deactivation is final exactly under the same condition: then no access token
   * of the user is accepted again, old or new, and otherwise one is in some continuation.
   */
  lemma DeactivationLocksOutIff(cfg: Settings, w: World, ban: Event, u: nat, switch: Option<bool>)
    requires Reachable(cfg, w, true) && Deactivates(cfg, w, ban, u) && RedisAnswers(ban.request)
    requires w.now < ban.time.start
    ensures LockedOut(cfg, Step(cfg, w, ban), u, switch) <==> NoLiveRow(w.core.db.rows, u, ban.time.finish)
  {
    var banned := Step(cfg, w, ban);
    BanIsJust(cfg, w, ban, u);
    if NoLiveRow(w.core.db.rows, u, ban.time.finish) {
      forall es | Legal(cfg, banned, es) && AllAnswered(es) && NoneReactivates(es, u) && SwitchedAs(es, switch)
        ensures AllRefused(cfg, Exec(cfg, banned, es), u)
      {
        NoLiveRowLocksOut(cfg, banned, es, u, ban.time.start);
      }
    } else {
      var i :| i in banned.core.db.rows && banned.core.db.rows[i].user == u
               && banned.core.db.rows[i].revoked.None? && banned.now < banned.core.db.rows[i].expires;
      LiveRowAdmits(cfg, banned, u, ban.time.start, i, switch);
    }
  }

  lemma BanIsJust(cfg: Settings, w: World, ban: Event, u: nat)
    requires Reachable(cfg, w, true) && Deactivates(cfg, w, ban, u) && RedisAnswers(ban.request)
    requires w.now < ban.time.start
    ensures JustBanned(cfg, Step(cfg, w, ban), u, ban.time.start)
    ensures Step(cfg, w, ban).core.db == w.core.db && Step(cfg, w, ban).now == ban.time.finish
  {
    ReachableIsGood(cfg, w, true);
    AnsweredIsReachable(cfg, w);
    ReachableIsPresentable(cfg, w);
    StepKeepsGood(cfg, w, ban);
    BanEffects(cfg, w, ban, u);
  }

  // ---------------------------------------------------------------- deletion

  /** The user has been deleted. */
  ghost predicate Gone(d: Directory, u: nat) {
    u < d.nextUserId && u !in d.users
  }

  lemma UpdateKeepsGone(d: Directory, q: UpdateArgs, u: nat)
    requires Gone(d, u)
    ensures Gone(Accounts.UpdateUser(d, q.user, FieldsOf(q)).0, u)
  {
  }

  lemma RegisterKeepsGone(c: Core, email: string, hash: string, name: string, context: Context, u: nat)
    requires Gone(c.accounts, u)
    ensures Gone(Sessions.Register(c, email, hash, name, context).core.accounts, u)
  {
  }

  lemma StepKeepsGone(cfg: Settings, w: World, e: Event, u: nat)
    requires Gone(w.core.accounts, u)
    ensures Gone(Step(cfg, w, e).core.accounts, u)
  {
    match e.request {
      case OnUpdate(q) => UpdateKeepsGone(w.core.accounts, q, u);
      case OnRegister(email, hash, name, context) => RegisterKeepsGone(w.core, email, hash, name, context, u);
      case _ =>
    }
  }

  lemma {:induction false} GoneIsSilent(cfg: Settings, w: World, es: seq<Event>, u: nat)
    requires Gone(w.core.accounts, u) && NoLiveRow(w.core.db.rows, u, w.now) && Legal(cfg, w, es)
    ensures NoNewGrant(w.past, Exec(cfg, w, es).past, u)
    decreases |es|
  {
    if es != [] {
      StepLeavesNoLiveRow(cfg, w, es[0], u);
      StepKeepsGone(cfg, w, es[0], u);
      GoneIsSilent(cfg, Step(cfg, w, es[0]), es[1..], u);
    }
  }

  /** Deleting a user removes its refresh tokens, so none of its families issues a pair again. */
  lemma DeletionEndsFamilies(cfg: Settings, w: World, e: Event, es: seq<Event>, i: nat)
    requires Reachable(cfg, w, false) && Enabled(w, e) && e.request.OnDelete? && e.request.user in w.core.accounts.users
    requires i in w.core.db.rows && w.core.db.rows[i].user == e.request.user
    requires Legal(cfg, Step(cfg, w, e), es)
    ensures
      var f, after := w.core.db.rows[i].family, Step(cfg, w, e);
      && Dead(Exec(cfg, after, es).core.db.rows, f)
      && PairsOf(Exec(cfg, after, es).past.pairs, f) == PairsOf(w.past.pairs, f)
  {
    ReachableIsGood(cfg, w, false);
    StepKeepsGood(cfg, w, e);
    DeletedFamily(w.core.db, cfg.refreshLifetime, w.now, i);
    SpentForEver(cfg, Step(cfg, w, e), es, w.core.db.rows[i].family);
  }

  /**
   * A deleted user is never granted another access token, but the deletion writes nothing to Redis: the
   * guard answers for every access token what it answered before.
   */
  lemma DeletedUserKeepsTokens(cfg: Settings, w: World, e: Event, es: seq<Event>)
    requires Reachable(cfg, w, false) && Enabled(w, e) && e.request.OnDelete? && e.request.user in w.core.accounts.users
    requires Legal(cfg, Step(cfg, w, e), es)
    ensures
      var after := Step(cfg, w, e);
      && NoNewGrant(w.past, Exec(cfg, after, es).past, e.request.user)
      && (forall g, now, redisUp ::
            Accepts(cfg, after.core.store, g, now, redisUp) <==> Accepts(cfg, w.core.store, g, now, redisUp))
  {
    ReachableIsGood(cfg, w, false);
    GoneIsSilent(cfg, Step(cfg, w, e), es, e.request.user);
  }

  lemma DeletedFamily(db: Db, lifetime: int, now: int, i: nat)
    requires Sound(db, lifetime, now) && i in db.rows
    ensures Dead(RefreshTokens.DeleteUser(db.rows, db.rows[i].user), db.rows[i].family)
  {
    assert RowSound(db.rows, i, lifetime);
    forall j: nat | InFamily(db.rows, j, db.rows[i].family) ensures db.rows[j].user == db.rows[i].user {
      assert SameFamily(i, db.rows[i], j, db.rows[j]);
    }
  }
}
