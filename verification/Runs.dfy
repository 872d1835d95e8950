/** Runs of service calls, what they leave behind, and the invariants every run keeps. */
module Runs {
  import opened Clock
  import opened AccessTokens
  import opened RefreshTokens
  import opened Blocklist
  import opened Accounts
  import opened AuditLog
  import opened Sessions

  datatype Request =
    | OnLogin(login: LoginArgs)
    | OnRefresh(refresh: RefreshArgs)
    | OnLogout(logout: LogoutArgs)
    | OnLogoutAll(user: nat, context: Context, redisUp: bool)
    | OnUpdate(update: UpdateArgs)
    | OnDelete(user: nat, context: Context)
    | OnAssign(user: nat, role: nat, context: Context)
    | OnRegister(email: string, passwordHash: string, roleName: string, context: Context)
    | EditAccess(roles: map<nat, string>, permissions: map<nat, string>,
                 userRoles: set<(nat, nat)>, rolePermissions: set<(nat, nat)>)

  /** A request, its clock readings, and the database faults its audit recordings meet. */
  datatype Event = Event(request: Request, time: Span, faults: (Fault, Fault))

  /** `EditAccess` is the database being edited from elsewhere: migrations, or the admin site. */
  ghost function Serve(cfg: Settings, c: Core, r: Request, t: Span): Served {
    match r
    case OnLogin(q) => Sessions.Login(cfg, c, q, t)
    case OnRefresh(q) => Sessions.Refresh(cfg, c, q, t)
    case OnLogout(q) => Sessions.Logout(cfg, c, q, t)
    case OnLogoutAll(user, context, redisUp) => Sessions.LogoutAll(cfg, c, user, context, redisUp, t)
    case OnUpdate(q) => Sessions.UpdateUser(cfg, c, q, t)
    case OnDelete(user, context) => Sessions.DeleteUser(c, user, context)
    case OnAssign(user, role, context) => Sessions.AssignRole(c, user, role, context)
    case OnRegister(email, hash, name, context) => Sessions.Register(c, email, hash, name, context)
    case EditAccess(roles, permissions, userRoles, rolePermissions) =>
      var accounts := c.accounts.(roles := roles, permissions := permissions,
                                  userRoles := userRoles, rolePermissions := rolePermissions);
      Served(c.(accounts := accounts), Done, [], {})
  }

  /** A token pair handed out for a family: at login, or at a rotation. */
  datatype Pair = Pair(family: Family, atLogin: bool)

  /** What has happened so far: families opened, access tokens granted, revocations asked for, pairs handed out. */
  datatype Past = Past(families: set<Family>, grants: set<Grant>, revoked: set<Revocation>, pairs: seq<Pair>)

  datatype World = World(core: Core, log: seq<LogEntry>, now: int, past: Past)

  function EmailsOf(d: Directory): Emails {
    map u | u in d.users :: d.users[u].email
  }

  function RecordAll(log: seq<LogEntry>, calls: seq<Call>, emails: Emails, faults: (Fault, Fault)): seq<LogEntry> {
    if calls == [] then log
    else if |calls| == 1 then Recorded(log, calls[0], emails, faults.0)
    else Recorded(Recorded(log, calls[0], emails, faults.0), calls[1], emails, faults.1)
  }

  /** The same with the warnings of the handlers. */
  function RecordTrail(trail: Trail, calls: seq<Call>, emails: Emails, faults: (Fault, Fault)): Trail {
    if calls == [] then trail
    else
      var first := RecordEvent(trail, calls[0], emails, faults.0).0;
      if |calls| == 1 then first else RecordEvent(first, calls[1], emails, faults.1).0
  }

  function Remember(past: Past, r: Request, s: Served): Past {
    var families := if r.OnLogin? then past.families + {r.login.family} else past.families;
    match s.reply
    case Issued(grant, token) =>
      Past(families, past.grants + {grant}, past.revoked + s.revoked,
           past.pairs + [Pair(token.row.family, token.row.parent.None?)])
    case _ => Past(families, past.grants, past.revoked + s.revoked, past.pairs)
  }

  ghost function Step(cfg: Settings, w: World, e: Event): World {
    var s := Serve(cfg, w.core, e.request, e.time);
    World(s.core, RecordAll(w.log, s.calls, EmailsOf(s.core.accounts), e.faults), e.time.finish,
          Remember(w.past, e.request, s))
  }

  /**
   * A step remembers exactly what its call did: the grant and the pair of a reply that issues, what was
   * revoked, and the family of a login.
   */
  lemma StepRemembers(cfg: Settings, w: World, e: Event)
    ensures
      var s, past, after := Serve(cfg, w.core, e.request, e.time), w.past, Step(cfg, w, e);
      && after.core == s.core && after.now == e.time.finish
      && (forall g :: g in after.past.grants <==> g in past.grants || (s.reply.Issued? && g == s.reply.grant))
      && (forall v :: v in after.past.revoked <==> v in past.revoked || v in s.revoked)
      && (forall f :: f in after.past.families <==>
            f in past.families || (e.request.OnLogin? && f == e.request.login.family))
      && after.past.pairs == (if !s.reply.Issued? then past.pairs
                              else past.pairs + [Pair(s.reply.token.row.family, s.reply.token.row.parent.None?)])
  {
  }

  /** The entries of the trail are those of the log. */
  lemma TrailIsLog(trail: Trail, calls: seq<Call>, emails: Emails, faults: (Fault, Fault))
    ensures RecordTrail(trail, calls, emails, faults).entries == RecordAll(trail.entries, calls, emails, faults)
  {
    if calls != [] {
      NoRaiseEscapes(trail, calls[0], emails, faults.0);
      if |calls| > 1 { NoRaiseEscapes(RecordEvent(trail, calls[0], emails, faults.0).0, calls[1], emails, faults.1); }
    }
  }

  /** Without faults the entries of a call are appended in its order. */
  lemma EntriesInOrder(log: seq<LogEntry>, calls: seq<Call>, emails: Emails, faults: (Fault, Fault))
    requires !Loses(faults.0) && !Loses(faults.1)
    ensures |calls| == 0 ==> RecordAll(log, calls, emails, faults) == log
    ensures |calls| == 1 ==> RecordAll(log, calls, emails, faults) == log + [NewEntry(calls[0], emails, faults.0)]
    ensures |calls| == 2 ==>
              RecordAll(log, calls, emails, faults) ==
                log + [NewEntry(calls[0], emails, faults.0), NewEntry(calls[1], emails, faults.1)]
  {
  }

  // ---------------------------------------------------------------- which events can happen

  /** `uuid4` ids are new, and never empty. */
  ghost predicate FreshJti(past: Past, jti: string) {
    && jti != ""
    && TokenRevoked(jti) !in past.revoked
    && forall g :: g in past.grants ==> g.jti != jti
  }

  /**
   * The clock does not go back, generated ids are new, only granted tokens authenticate a logout,
   * and an edit of the role tables obeys their constraints.
   */
  ghost predicate Enabled(w: World, e: Event) {
    && w.now <= e.time.start <= e.time.finish
    && match e.request
       case OnLogin(q) => q.family !in w.past.families && FreshJti(w.past, q.jti)
       case OnRefresh(q) => FreshJti(w.past, q.jti)
       case OnLogout(q) => q.access in w.past.grants
       case EditAccess(roles, _, links, _) =>
         UniqueNames(roles) && forall link :: link in links ==> link.0 in w.core.accounts.users
       case _ => true
  }

  ghost function Exec(cfg: Settings, w: World, es: seq<Event>): World
    decreases |es|
  {
    if es == [] then w else Exec(cfg, Step(cfg, w, es[0]), es[1..])
  }

  ghost predicate Legal(cfg: Settings, w: World, es: seq<Event>)
    decreases |es|
  {
    es == [] || (Enabled(w, es[0]) && Legal(cfg, Step(cfg, w, es[0]), es[1..]))
  }

  /** Redis answers every write of the call. */
  predicate RedisAnswers(r: Request) {
    match r
    case OnRefresh(q) => q.redisUp
    case OnLogout(q) => q.redisUp
    case OnLogoutAll(_, _, redisUp) => redisUp
    case OnUpdate(q) => q.redisUp
    case _ => true
  }

  predicate AllAnswered(es: seq<Event>) {
    forall k :: 0 <= k < |es| ==> RedisAnswers(es[k].request)
  }

  /** Nothing issued and nothing stored; any accounts. */
  ghost predicate Initial(w: World) {
    && w.core.db == Db(map[], 0)
    && w.core.store == map[]
    && WellFormed(w.core.accounts)
    && w.log == []
    && w.past == Past({}, {}, {}, [])
  }

  // ---------------------------------------------------------------- the invariant

  ghost predicate RowsKnown(c: Core, families: set<Family>) {
    forall i :: i in c.db.rows ==> c.db.rows[i].family in families && c.db.rows[i].user in c.accounts.users
  }

  ghost predicate GrantsKnown(past: Past, now: int) {
    && (forall g :: g in past.grants ==> g.jti != "" && 0 < g.user && g.at <= now)
    && (forall g, h :: g in past.grants && h in past.grants && g.jti == h.jti ==> g == h)
    && (forall user, at :: UserRevoked(user, at) in past.revoked ==> at <= now)
  }

  /** Kept by every legal run, whatever Redis loses. */
  ghost predicate Good(cfg: Settings, w: World) {
    && Sound(w.core.db, cfg.refreshLifetime, w.now)
    && WellFormed(w.core.accounts)
    && RowsKnown(w.core, w.past.families)
    && GrantsKnown(w.past, w.now)
    && NoFalseKey(w.core.store, w.past.revoked)
  }

  /** Kept while Redis loses no write. */
  ghost predicate Agreeing(cfg: Settings, w: World) {
    Complete(cfg, w.core.store, w.past.revoked, w.past.grants, w.now)
  }

  lemma AccountsKept(cfg: Settings, w: World, e: Event)
    requires Good(cfg, w) && Enabled(w, e)
    ensures WellFormed(Step(cfg, w, e).core.accounts)
  {
    var d := w.core.accounts;
    match e.request {
      case OnUpdate(q) => UpdateKeepsWellFormed(d, q.user, FieldsOf(q));
      case OnDelete(user, _) => DeleteKeepsWellFormed(d, user);
      case OnRegister(email, hash, name, _) =>
        forall r { CreateKeepsWellFormed(d, email, hash, r); }
      case _ =>
    }
  }

  lemma TableKept(cfg: Settings, w: World, e: Event)
    requires Good(cfg, w) && Enabled(w, e)
    ensures Sound(Step(cfg, w, e).core.db, cfg.refreshLifetime, e.time.finish)
  {
    var c, t, life := w.core, e.time, cfg.refreshLifetime;
    SoundLater(c.db, life, w.now, t.start);
    if e.request.OnLogin? {
      LoginKeepsSound(cfg, c, e.request.login, t);
    } else if e.request.OnRefresh? {
      RotateKeepsSound(c.db, RotationOf(cfg, e.request.refresh, t.start), life);
    } else {
      OthersKeepSound(cfg, c, e.request, t);
    }
    SoundLater(Serve(cfg, c, e.request, t).core.db, life, t.start, t.finish);
  }

  lemma LoginKeepsSound(cfg: Settings, c: Core, q: LoginArgs, t: Span)
    requires Sound(c.db, cfg.refreshLifetime, t.start)
    requires forall i :: i in c.db.rows ==> c.db.rows[i].family != q.family
    ensures Sound(Sessions.Login(cfg, c, q, t).core.db, cfg.refreshLifetime, t.start)
  {
    var found := Credentials(c.accounts, q.email);
    if found.Some? { RootKeepsSound(c.db, RootRow(cfg, found.value, q, t.start), cfg.refreshLifetime, t.start); }
  }

  lemma OthersKeepSound(cfg: Settings, c: Core, r: Request, t: Span)
    requires Sound(c.db, cfg.refreshLifetime, t.start) && !r.OnLogin? && !r.OnRefresh?
    ensures Sound(Serve(cfg, c, r, t).core.db, cfg.refreshLifetime, t.start)
  {
    var life := cfg.refreshLifetime;
    match r
    case OnLogout(q) =>
      var found := Find(c.db.rows, q.hash);
      if found.Some? { RevokeKeepsSound(c.db, OneRow(found.value), t.finish, life, t.start); }
    case OnLogoutAll(user, _, _) => RevokeKeepsSound(c.db, AllOfUser(user), t.start, life, t.start);
    case OnDelete(user, _) => DeleteKeepsSound(c.db, user, life, t.start);
    case _ =>
  }

  /** Rows of known families and users, none of whose users has gone. */
  lemma RowsKnownFrom(c: Core, families: set<Family>, after: Core, more: set<Family>)
    requires RowsKnown(c, families) && families <= more
    requires forall i :: i in after.db.rows ==>
               || (i in c.db.rows && after.db.rows[i].family == c.db.rows[i].family
                   && after.db.rows[i].user == c.db.rows[i].user)
               || (after.db.rows[i].family in more && after.db.rows[i].user in c.accounts.users)
    requires forall i :: i in after.db.rows && after.db.rows[i].user in c.accounts.users ==>
               after.db.rows[i].user in after.accounts.users
    ensures RowsKnown(after, more)
  {
  }

  lemma RefreshRows(c: Core, a: RotateArgs, families: set<Family>)
    requires RowsKnown(c, families) && forall i :: i in c.db.rows ==> i < c.db.nextId
    ensures RowsKnown(c.(db := Rotate(c.db, a).0), families)
  {
    RotateCases(c.db, a);
    RowsKnownFrom(c, families, c.(db := Rotate(c.db, a).0), families);
  }

  lemma RowsStayKnown(cfg: Settings, w: World, e: Event)
    requires Good(cfg, w) && Enabled(w, e)
    ensures RowsKnown(Step(cfg, w, e).core, Step(cfg, w, e).past.families)
  {
    if e.request.OnRefresh? {
      RefreshedRows(cfg, w.core, e.request.refresh, e.time, w.past.families);
    } else {
      OtherRows(cfg, w.core, e.request, e.time, w.past.families);
    }
  }

  lemma RefreshedRows(cfg: Settings, c: Core, q: RefreshArgs, t: Span, families: set<Family>)
    requires RowsKnown(c, families) && forall i :: i in c.db.rows ==> i < c.db.nextId
    ensures RowsKnown(Sessions.Refresh(cfg, c, q, t).core, families)
  {
    RefreshRows(c, RotationOf(cfg, q, t.start), families);
  }

  lemma OtherRows(cfg: Settings, c: Core, r: Request, t: Span, families: set<Family>)
    requires RowsKnown(c, families) && !r.OnRefresh?
    ensures RowsKnown(Serve(cfg, c, r, t).core, if r.OnLogin? then families + {r.login.family} else families)
  {
    match r
    case OnLogin(q) => LoginRows(cfg, c, q, t, families);
    case OnUpdate(q) => UpdateRows(cfg, c, q, t, families);
    case OnRegister(email, hash, name, context) => RegisterRows(c, email, hash, name, context, families);
    case _ =>
  }

  lemma LoginRows(cfg: Settings, c: Core, q: LoginArgs, t: Span, families: set<Family>)
    requires RowsKnown(c, families)
    ensures RowsKnown(Sessions.Login(cfg, c, q, t).core, families + {q.family})
  {
  }

  lemma UpdateRows(cfg: Settings, c: Core, q: UpdateArgs, t: Span, families: set<Family>)
    requires RowsKnown(c, families)
    ensures RowsKnown(Sessions.UpdateUser(cfg, c, q, t).core, families)
  {
    assert Sessions.UpdateUser(cfg, c, q, t).core.accounts.users.Keys == c.accounts.users.Keys;
  }

  lemma RegisterRows(c: Core, email: string, hash: string, name: string, context: Context, families: set<Family>)
    requires RowsKnown(c, families)
    ensures RowsKnown(Sessions.Register(c, email, hash, name, context).core, families)
  {
  }

  /** What a call may add to the past. */
  ghost predicate AddsKnown(past: Past, s: Served, finish: int) {
    && (s.reply.Issued? ==>
          && FreshJti(past, s.reply.grant.jti) && 0 < s.reply.grant.user && s.reply.grant.at <= finish)
    && (forall user, at :: UserRevoked(user, at) in s.revoked ==> at <= finish)
  }

  lemma RefreshAddsKnown(cfg: Settings, c: Core, q: RefreshArgs, t: Span, past: Past)
    requires FreshJti(past, q.jti) && t.start <= t.finish
    requires forall i :: i in c.db.rows ==> 0 < c.db.rows[i].user
    ensures AddsKnown(past, Sessions.Refresh(cfg, c, q, t), t.finish)
  {
    RotateCases(c.db, RotationOf(cfg, q, t.start));
  }

  lemma OthersAddKnown(cfg: Settings, c: Core, r: Request, t: Span, past: Past)
    requires !r.OnRefresh? && t.start <= t.finish && WellFormed(c.accounts)
    requires r.OnLogin? ==> FreshJti(past, r.login.jti)
    ensures AddsKnown(past, Serve(cfg, c, r, t), t.finish)
  {
  }

  lemma RememberKeepsKnown(past: Past, now: int, r: Request, s: Served, finish: int)
    requires GrantsKnown(past, now) && now <= finish && AddsKnown(past, s, finish)
    ensures GrantsKnown(Remember(past, r, s), finish)
  {
  }

  lemma GrantsStayKnown(cfg: Settings, w: World, e: Event)
    requires Good(cfg, w) && Enabled(w, e)
    ensures GrantsKnown(Step(cfg, w, e).past, e.time.finish)
  {
    if e.request.OnRefresh? {
      RefreshAddsKnown(cfg, w.core, e.request.refresh, e.time, w.past);
    } else {
      OthersAddKnown(cfg, w.core, e.request, e.time, w.past);
    }
    RememberKeepsKnown(w.past, w.now, e.request, Serve(cfg, w.core, e.request, e.time), e.time.finish);
  }

  /** What a call owes the two revocation stores, given what it did. */
  ghost predicate StoresServed(cfg: Settings, store: Store, revoked: set<Revocation>, grants: set<Grant>, s: Served,
                               now: int, redisUp: bool)
  {
    var all := revoked + s.revoked;
    && (NoFalseKey(store, revoked) ==> NoFalseKey(s.core.store, all))
    && (redisUp && Complete(cfg, store, revoked, grants, now) ==> Complete(cfg, s.core.store, all, grants, now))
  }

  lemma RefreshServesStores(cfg: Settings, c: Core, q: RefreshArgs, t: Span, revoked: set<Revocation>,
                            grants: set<Grant>)
    requires forall user, at :: UserRevoked(user, at) in revoked ==> at <= t.start
    requires t.start <= t.finish
    ensures StoresServed(cfg, c.store, revoked, grants, Sessions.Refresh(cfg, c, q, t), t.finish, q.redisUp)
  {
    var s := Sessions.Refresh(cfg, c, q, t);
    if user, at :| s.revoked == {UserRevoked(user, at)} {
      RevokeUserAgrees(cfg, c.store, revoked, grants, user, t.start, t.finish, q.redisUp);
    } else {
      assert revoked + s.revoked == revoked;
    }
  }

  lemma OthersServeStores(cfg: Settings, c: Core, r: Request, t: Span, revoked: set<Revocation>, grants: set<Grant>)
    requires forall user, at :: UserRevoked(user, at) in revoked ==> at <= t.start
    requires forall g, h :: g in grants && h in grants && g.jti == h.jti ==> g == h
    requires r.OnLogout? ==> r.logout.access in grants
    requires t.start <= t.finish && !r.OnRefresh?
    ensures StoresServed(cfg, c.store, revoked, grants, Serve(cfg, c, r, t), t.finish, RedisAnswers(r))
  {
    assert revoked + {} == revoked;
    match r {
      case OnLogout(q) => BlockTokenAgrees(cfg, c.store, revoked, grants, q.access, t.start, t.finish, q.redisUp);
      case OnLogoutAll(user, _, redisUp) =>
        RevokeUserAgrees(cfg, c.store, revoked, grants, user, t.start, t.finish, redisUp);
      case OnUpdate(q) => RevokeUserAgrees(cfg, c.store, revoked, grants, q.user, t.start, t.finish, q.redisUp);
      case _ =>
    }
  }

  lemma KeysStayTrue(cfg: Settings, w: World, e: Event)
    requires Good(cfg, w) && Enabled(w, e)
    ensures NoFalseKey(Step(cfg, w, e).core.store, Step(cfg, w, e).past.revoked)
    ensures Agreeing(cfg, w) && RedisAnswers(e.request) ==>
              Complete(cfg, Step(cfg, w, e).core.store, Step(cfg, w, e).past.revoked, w.past.grants, e.time.finish)
  {
    if Agreeing(cfg, w) {
      CompleteLater(cfg, w.core.store, w.past.revoked, w.past.grants, w.past.grants, w.now, e.time.finish);
    }
    if e.request.OnRefresh? {
      RefreshServesStores(cfg, w.core, e.request.refresh, e.time, w.past.revoked, w.past.grants);
    } else {
      OthersServeStores(cfg, w.core, e.request, e.time, w.past.revoked, w.past.grants);
    }
  }

  /** One call keeps the invariant, and keeps the two revocation stores in agreement. */
  lemma StepKeepsGood(cfg: Settings, w: World, e: Event)
    requires Good(cfg, w) && Enabled(w, e)
    ensures Good(cfg, Step(cfg, w, e))
    ensures Agreeing(cfg, w) && RedisAnswers(e.request) ==> Agreeing(cfg, Step(cfg, w, e))
  {
    TableKept(cfg, w, e);
    AccountsKept(cfg, w, e);
    RowsStayKnown(cfg, w, e);
    GrantsStayKnown(cfg, w, e);
    KeysStayTrue(cfg, w, e);
    if Agreeing(cfg, w) && RedisAnswers(e.request) {
      AgreementKept(cfg, w, e);
    }
  }

  lemma AgreementKept(cfg: Settings, w: World, e: Event)
    requires Enabled(w, e)
    requires Complete(cfg, Step(cfg, w, e).core.store, Step(cfg, w, e).past.revoked, w.past.grants, e.time.finish)
    ensures Agreeing(cfg, Step(cfg, w, e))
  {
    var after := Step(cfg, w, e);
    CompleteLater(cfg, after.core.store, after.past.revoked, w.past.grants, after.past.grants, after.now, after.now);
  }

  lemma {:induction false} RunKeepsGood(cfg: Settings, w: World, es: seq<Event>)
    requires Good(cfg, w) && Legal(cfg, w, es)
    ensures Good(cfg, Exec(cfg, w, es))
    ensures Agreeing(cfg, w) && AllAnswered(es) ==> Agreeing(cfg, Exec(cfg, w, es))
    decreases |es|
  {
    if es != [] {
      StepKeepsGood(cfg, w, es[0]);
      assert AllAnswered(es) ==> RedisAnswers(es[0].request) && AllAnswered(es[1..]);
      RunKeepsGood(cfg, Step(cfg, w, es[0]), es[1..]);
    }
  }

  lemma InitialIsGood(cfg: Settings, w: World)
    requires Initial(w)
    ensures Good(cfg, w) && Agreeing(cfg, w)
  {
  }

  /** Some legal run leads here; with `answered`, one in which Redis loses no write. */
  ghost predicate Reachable(cfg: Settings, w: World, answered: bool) {
    exists w0, es :: Initial(w0) && Legal(cfg, w0, es) && (answered ==> AllAnswered(es)) && w == Exec(cfg, w0, es)
  }

  lemma ReachableIsGood(cfg: Settings, w: World, answered: bool)
    requires Reachable(cfg, w, answered)
    ensures Good(cfg, w)
    ensures answered ==> Agreeing(cfg, w)
  {
    var w0, es :| Initial(w0) && Legal(cfg, w0, es) && (answered ==> AllAnswered(es)) && w == Exec(cfg, w0, es);
    InitialIsGood(cfg, w0);
    RunKeepsGood(cfg, w0, es);
  }
}
