/**
 * Service calls as ordered effects, any of which an exception of the audit log would cut short.
 *
 * A call writes its stores and records its audit entries in the order of the source, and only then
 * answers.  An exception that leaves a recording ends the call there: what comes later is not done
 * and the caller gets no answer.  The theorems say what the handlers inside the recording make of
 * that, and tie the calls to their simple form `Serve`, which knows nothing of exceptions.
 */
module AuditEffects {
  import opened Options
  import opened Clock
  import opened RefreshTokens
  import opened Blocklist
  import opened Accounts
  import opened AuditLog
  import opened Sessions
  import opened Runs

  datatype Effect =
    | SaveTable(db: Db)
    | SaveAccounts(accounts: Directory)
    | SetTokenKey(jti: string, ttl: int)
    | SetEpoch(user: nat, at: int)
    | RecordEntry(call: Call)

  /** The effects of a call in order, and its answer once they are done. */
  datatype Plan = Plan(effects: seq<Effect>, reply: Reply)

  // ---------------------------------------------------------------- the calls

  function Entries(calls: seq<Call>): (r: seq<Effect>)
    ensures |r| == |calls| && forall k :: 0 <= k < |calls| ==> r[k] == RecordEntry(calls[k])
  {
    seq(|calls|, k requires 0 <= k < |calls| => RecordEntry(calls[k]))
  }

  ghost function LoginPlan(cfg: Settings, c: Core, q: LoginArgs, t: Span): Plan {
    var found := Credentials(c.accounts, q.email);
    if found.None? || !c.accounts.users[found.value].active || !q.passwordOk then
      Plan([RecordEntry(LoginFailureCall(q))], Refused(BadCredentials))
    else
      var user := found.value;
      var (db, created) := Insert(c.db, RootRow(cfg, user, q, t.start));
      match created
      case Err(_) => Plan([SaveTable(db)], Refused(Integrity))
      case Ok(dto) =>
        Plan([SaveTable(db), RecordEntry(LoginSuccessCall(q, user, c.accounts.users[user].email))],
             Issued(GrantFor(c.accounts, user, t.finish, q.jti), dto))
  }

  /** The user's epoch is written before the alarm is recorded. */
  function AlarmPlan(q: RefreshArgs, t: Span, db: Db, token: Dto, action: Action, failure: Failure): Plan {
    Plan([SaveTable(db), SetEpoch(token.row.user, t.start), RecordEntry(AlarmCall(q, token.row, action))],
         Refused(failure))
  }

  /** The pair is handed out after the refresh has been recorded. */
  ghost function RefreshPlan(cfg: Settings, c: Core, q: RefreshArgs, t: Span): Plan {
    var (db, result) := Rotate(c.db, RotationOf(cfg, q, t.start));
    match result
    case Err(_) => Plan([SaveTable(db)], Refused(Integrity))
    case Ok(rotation) =>
      match rotation.outcome
      case BindingMismatch => AlarmPlan(q, t, db, rotation.token.value, TokenBindingMismatch, MismatchedDevice)
      case Reused => AlarmPlan(q, t, db, rotation.token.value, TokenReuseDetected, ReusedToken)
      case Rotated =>
        var token := rotation.token.value;
        var user := token.row.user;
        Plan([SaveTable(db)] + Entries(IpChangeCalls(q, user, rotation.previousIp)) +
             [RecordEntry(RefreshedCall(q, token.row))],
             Issued(GrantFor(c.accounts, user, t.finish, q.jti), token))
      case _ => Plan([SaveTable(db)], Refused(BadToken))
  }

  ghost function LogoutPlan(cfg: Settings, c: Core, q: LogoutArgs, t: Span): Plan {
    var block := SetTokenKey(q.access.jti, RemainingTtl(Expiry(cfg, q.access), t.start));
    match Find(c.db.rows, q.hash)
    case None => Plan([block], Done)
    case Some(i) =>
      var row := c.db.rows[i];
      Plan([block, SaveTable(c.db.(rows := RevokeAll(c.db.rows, OneRow(i), t.finish))),
            RecordEntry(LogoutCall(q, row))],
           Done)
  }

  function LogoutAllPlan(c: Core, user: nat, context: Context, t: Span): Plan {
    Plan([SetEpoch(user, t.start), SaveTable(c.db.(rows := RevokeAll(c.db.rows, AllOfUser(user), t.start))),
          RecordEntry(LogoutAllCall(user, context))],
         Done)
  }

  /** The user is saved first, then the epoch of a deactivation is written, then the update is recorded. */
  function UpdatePlan(c: Core, q: UpdateArgs, t: Span): Plan {
    var fields := FieldsOf(q);
    if fields == map[] then Plan([], if q.user in c.accounts.users then Done else Refused(NoSuchResource))
    else
      var (accounts, result) := Accounts.UpdateUser(c.accounts, q.user, fields);
      match result
      case Err(e) => Plan([], Refused(FailureOf(e)))
      case Ok(_) =>
        Plan([SaveAccounts(accounts)] + (if q.active == Some(false) then [SetEpoch(q.user, t.start)] else []) +
             [RecordEntry(UpdateCall(q))],
             Done)
  }

  function DeletePlan(c: Core, user: nat, context: Context): Plan {
    if user !in c.accounts.users then Plan([], Refused(NoSuchResource))
    else
      Plan([SaveAccounts(Accounts.DeleteUser(c.accounts, user)),
            SaveTable(c.db.(rows := RefreshTokens.DeleteUser(c.db.rows, user))),
            RecordEntry(DeleteCall(user, context))],
           Done)
  }

  function AssignPlan(c: Core, user: nat, role: nat, context: Context): Plan {
    if user !in c.accounts.users || role !in c.accounts.roles then Plan([], Refused(NoSuchResource))
    else
      Plan([SaveAccounts(Accounts.AssignRole(c.accounts, user, role)),
            RecordEntry(AssignCall(user, role, c.accounts.roles[role], context))],
           Done)
  }

  ghost function RegisterPlan(c: Core, email: string, passwordHash: string, name: string, context: Context): Plan {
    match DefaultRole(c.accounts, name)
    case None => Plan([], Refused(NoRole))
    case Some(role) =>
      var (accounts, result) := CreateUserWithRole(c.accounts, email, passwordHash, role);
      match result
      case Err(e) => Plan([SaveAccounts(accounts)], Refused(FailureOf(e)))
      case Ok(id) =>
        Plan([SaveAccounts(accounts), RecordEntry(RegisterCall(id, email, context))], Done)
  }

  ghost function PlanOf(cfg: Settings, c: Core, r: Request, t: Span): Plan {
    match r
    case OnLogin(q) => LoginPlan(cfg, c, q, t)
    case OnRefresh(q) => RefreshPlan(cfg, c, q, t)
    case OnLogout(q) => LogoutPlan(cfg, c, q, t)
    case OnLogoutAll(user, context, _) => LogoutAllPlan(c, user, context, t)
    case OnUpdate(q) => UpdatePlan(c, q, t)
    case OnDelete(user, context) => DeletePlan(c, user, context)
    case OnAssign(user, role, context) => AssignPlan(c, user, role, context)
    case OnRegister(email, hash, name, context) => RegisterPlan(c, email, hash, name, context)
    case EditAccess(roles, permissions, userRoles, rolePermissions) =>
      var accounts := c.accounts.(roles := roles, permissions := permissions,
                                  userRoles := userRoles, rolePermissions := rolePermissions);
      Plan([SaveAccounts(accounts)], Done)
  }

  // ---------------------------------------------------------------- performing effects

  /** The stores and what the recordings have left. */
  datatype Site = Site(core: Core, trail: Trail)

  /** What surrounds the effects: when the call is done, and whether Redis answers. */
  datatype Surroundings = Surroundings(finish: int, redisUp: bool)

  function Around(e: Event): Surroundings {
    Surroundings(e.time.finish, RedisAnswers(e.request))
  }

  function Write(cfg: Settings, c: Core, x: Effect, at: Surroundings): Core {
    match x
    case SaveTable(db) => c.(db := db)
    case SaveAccounts(accounts) => c.(accounts := accounts)
    case SetTokenKey(jti, ttl) => c.(store := BlockToken(c.store, jti, ttl, at.finish, at.redisUp))
    case SetEpoch(user, t) => c.(store := RevokeUser(c.store, user, t, AccessTtl(cfg), at.finish, at.redisUp))
    case RecordEntry(_) => c
  }

  /** A recording with its outer handler, or just the statements inside it. */
  function Recording(trail: Trail, call: Call, emails: Emails, fault: Fault, handled: bool)
      : (Trail, Result<(), Exception>)
  {
    if handled then RecordEvent(trail, call, emails, fault) else Attempt(trail, call, emails, fault)
  }

  /** The effects one by one.  An exception that leaves a recording is all the caller gets. */
  function Perform(cfg: Settings, s: Site, effects: seq<Effect>, reply: Reply, at: Surroundings,
                   faults: (Fault, Fault), handled: bool): (Site, Result<Reply, Exception>)
    decreases |effects|
  {
    if effects == [] then (s, Ok(reply))
    else if effects[0].RecordEntry? then
      var (trail, outcome) := Recording(s.trail, effects[0].call, EmailsOf(s.core.accounts), faults.0, handled);
      match outcome
      case Err(e) => (s.(trail := trail), Err(e))
      case Ok(_) => Perform(cfg, s.(trail := trail), effects[1..], reply, at, (faults.1, faults.1), handled)
    else
      Perform(cfg, s.(core := Write(cfg, s.core, effects[0], at)), effects[1..], reply, at, faults, handled)
  }

  /** One service call, with the exceptions its recordings meet. */
  ghost function Answer(cfg: Settings, s: Site, e: Event, handled: bool): (Site, Result<Reply, Exception>) {
    var plan := PlanOf(cfg, s.core, e.request, e.time);
    Perform(cfg, s, plan.effects, plan.reply, Around(e), e.faults, handled)
  }

  // ---------------------------------------------------------------- every store is written before anything is recorded

  function WriteAll(cfg: Settings, c: Core, writes: seq<Effect>, at: Surroundings): Core
    decreases |writes|
  {
    if writes == [] then c else WriteAll(cfg, Write(cfg, c, writes[0], at), writes[1..], at)
  }

  predicate NoEntry(writes: seq<Effect>) {
    forall k :: 0 <= k < |writes| ==> !writes[k].RecordEntry?
  }

  lemma {:induction false} PerformWrites(cfg: Settings, s: Site, writes: seq<Effect>, rest: seq<Effect>, reply: Reply,
                                         at: Surroundings, faults: (Fault, Fault), handled: bool)
    requires NoEntry(writes)
    ensures Perform(cfg, s, writes + rest, reply, at, faults, handled) ==
              Perform(cfg, Site(WriteAll(cfg, s.core, writes, at), s.trail), rest, reply, at, faults, handled)
    decreases |writes|
  {
    if writes == [] {
      assert writes + rest == rest;
    } else {
      assert (writes + rest)[1..] == writes[1..] + rest;
      PerformWrites(cfg, s.(core := Write(cfg, s.core, writes[0], at)), writes[1..], rest, reply, at, faults, handled);
    }
  }

  /** The effects of a call are store writes followed by the entries that the simple form names. */
  ghost predicate Splits(cfg: Settings, c: Core, plan: Plan, s: Served, at: Surroundings, writes: seq<Effect>) {
    && plan.effects == writes + Entries(s.calls) && NoEntry(writes) && plan.reply == s.reply
    && WriteAll(cfg, c, writes, at) == s.core && |s.calls| <= 2
  }

  lemma WriteOne(cfg: Settings, c: Core, x: Effect, at: Surroundings)
    ensures WriteAll(cfg, c, [x], at) == Write(cfg, c, x, at)
  {
    assert [x][1..] == [];
  }

  lemma WriteTwo(cfg: Settings, c: Core, x: Effect, y: Effect, at: Surroundings)
    ensures WriteAll(cfg, c, [x, y], at) == Write(cfg, Write(cfg, c, x, at), y, at)
  {
    assert [x, y][1..] == [y];
    WriteOne(cfg, Write(cfg, c, x, at), y, at);
  }

  lemma RefreshSplits(cfg: Settings, c: Core, q: RefreshArgs, t: Span) returns (writes: seq<Effect>)
    ensures Splits(cfg, c, RefreshPlan(cfg, c, q, t), Sessions.Refresh(cfg, c, q, t),
                   Surroundings(t.finish, q.redisUp), writes)
  {
    RotateCases(c.db, RotationOf(cfg, q, t.start));
    var at, plan, s := Surroundings(t.finish, q.redisUp), RefreshPlan(cfg, c, q, t), Sessions.Refresh(cfg, c, q, t);
    WriteOne(cfg, c, plan.effects[0], at);
    writes := [plan.effects[0]];
    if |plan.effects| == 3 && plan.effects[1].SetEpoch? {
      WriteTwo(cfg, c, plan.effects[0], plan.effects[1], at);
      writes := [plan.effects[0], plan.effects[1]];
    }
    assert plan.effects == writes + Entries(s.calls);
  }

  lemma LoginSplits(cfg: Settings, c: Core, q: LoginArgs, t: Span) returns (writes: seq<Effect>)
    ensures Splits(cfg, c, LoginPlan(cfg, c, q, t), Sessions.Login(cfg, c, q, t), Surroundings(t.finish, true), writes)
  {
    var at, plan, s := Surroundings(t.finish, true), LoginPlan(cfg, c, q, t), Sessions.Login(cfg, c, q, t);
    WriteOne(cfg, c, plan.effects[0], at);
    writes := if plan.effects[0].RecordEntry? then [] else [plan.effects[0]];
    assert plan.effects == writes + Entries(s.calls);
  }

  lemma LogoutSplits(cfg: Settings, c: Core, q: LogoutArgs, t: Span) returns (writes: seq<Effect>)
    ensures Splits(cfg, c, LogoutPlan(cfg, c, q, t), Sessions.Logout(cfg, c, q, t),
                   Surroundings(t.finish, q.redisUp), writes)
  {
    var at, plan, s := Surroundings(t.finish, q.redisUp), LogoutPlan(cfg, c, q, t), Sessions.Logout(cfg, c, q, t);
    WriteOne(cfg, c, plan.effects[0], at);
    writes := [plan.effects[0]];
    if |plan.effects| == 3 {
      WriteTwo(cfg, c, plan.effects[0], plan.effects[1], at);
      writes := [plan.effects[0], plan.effects[1]];
    }
    assert plan.effects == writes + Entries(s.calls);
  }

  lemma UpdateSplits(cfg: Settings, c: Core, q: UpdateArgs, t: Span) returns (writes: seq<Effect>)
    ensures Splits(cfg, c, UpdatePlan(c, q, t), Sessions.UpdateUser(cfg, c, q, t),
                   Surroundings(t.finish, q.redisUp), writes)
  {
    if FieldsOf(q) != map[] && Accounts.UpdateUser(c.accounts, q.user, FieldsOf(q)).1.Ok? {
      writes := SavedUserSplits(cfg, c, q, t);
    } else {
      writes := [];
      assert Entries([]) == [];
    }
  }

  lemma SavedUserSplits(cfg: Settings, c: Core, q: UpdateArgs, t: Span) returns (writes: seq<Effect>)
    requires FieldsOf(q) != map[] && Accounts.UpdateUser(c.accounts, q.user, FieldsOf(q)).1.Ok?
    ensures Splits(cfg, c, UpdatePlan(c, q, t), Sessions.UpdateUser(cfg, c, q, t),
                   Surroundings(t.finish, q.redisUp), writes)
  {
    var accounts := Accounts.UpdateUser(c.accounts, q.user, FieldsOf(q)).0;
    var plan, s := UpdatePlan(c, q, t), Sessions.UpdateUser(cfg, c, q, t);
    writes := UpdateWrites(cfg, c, accounts, q, t);
    assert Entries(s.calls) == [RecordEntry(s.calls[0])];
    assert plan.effects == writes + [RecordEntry(s.calls[0])];
  }

  /** The two writes of an update, the second only on deactivation. */
  lemma UpdateWrites(cfg: Settings, c: Core, accounts: Directory, q: UpdateArgs, t: Span) returns (writes: seq<Effect>)
    ensures writes == [SaveAccounts(accounts)] + (if q.active == Some(false) then [SetEpoch(q.user, t.start)] else [])
    ensures NoEntry(writes)
    ensures
      var store := if q.active == Some(false) then
                     RevokeUser(c.store, q.user, t.start, AccessTtl(cfg), t.finish, q.redisUp) else c.store;
      WriteAll(cfg, c, writes, Surroundings(t.finish, q.redisUp)) == c.(accounts := accounts, store := store)
  {
    var at := Surroundings(t.finish, q.redisUp);
    writes := [SaveAccounts(accounts)];
    if q.active == Some(false) {
      WriteTwo(cfg, c, SaveAccounts(accounts), SetEpoch(q.user, t.start), at);
      writes := [SaveAccounts(accounts), SetEpoch(q.user, t.start)];
    } else {
      WriteOne(cfg, c, SaveAccounts(accounts), at);
    }
  }

  lemma RegisterSplits(cfg: Settings, c: Core, email: string, hash: string, name: string, context: Context,
                       at: Surroundings)
      returns (writes: seq<Effect>)
    requires UniqueNames(c.accounts.roles)
    ensures Splits(cfg, c, RegisterPlan(c, email, hash, name, context),
                   Sessions.Register(c, email, hash, name, context), at, writes)
  {
    var plan, s := RegisterPlan(c, email, hash, name, context), Sessions.Register(c, email, hash, name, context);
    writes := [];
    if plan.effects != [] {
      WriteOne(cfg, c, plan.effects[0], at);
      writes := [plan.effects[0]];
    }
    assert plan.effects == writes + Entries(s.calls);
  }

  lemma LogoutAllSplits(cfg: Settings, c: Core, user: nat, context: Context, redisUp: bool, t: Span)
      returns (writes: seq<Effect>)
    ensures Splits(cfg, c, LogoutAllPlan(c, user, context, t), Sessions.LogoutAll(cfg, c, user, context, redisUp, t),
                   Surroundings(t.finish, redisUp), writes)
  {
    var plan := LogoutAllPlan(c, user, context, t);
    WriteTwo(cfg, c, plan.effects[0], plan.effects[1], Surroundings(t.finish, redisUp));
    writes := [plan.effects[0], plan.effects[1]];
    assert plan.effects == writes + Entries(Sessions.LogoutAll(cfg, c, user, context, redisUp, t).calls);
  }

  lemma DeleteSplits(cfg: Settings, c: Core, user: nat, context: Context, at: Surroundings)
      returns (writes: seq<Effect>)
    ensures Splits(cfg, c, DeletePlan(c, user, context), Sessions.DeleteUser(c, user, context), at, writes)
  {
    var plan := DeletePlan(c, user, context);
    writes := [];
    if plan.effects != [] {
      WriteTwo(cfg, c, plan.effects[0], plan.effects[1], at);
      writes := [plan.effects[0], plan.effects[1]];
    }
    assert plan.effects == writes + Entries(Sessions.DeleteUser(c, user, context).calls);
  }

  lemma AssignSplits(cfg: Settings, c: Core, user: nat, role: nat, context: Context, at: Surroundings)
      returns (writes: seq<Effect>)
    ensures Splits(cfg, c, AssignPlan(c, user, role, context), Sessions.AssignRole(c, user, role, context), at, writes)
  {
    var plan := AssignPlan(c, user, role, context);
    writes := [];
    if plan.effects != [] {
      WriteOne(cfg, c, plan.effects[0], at);
      writes := [plan.effects[0]];
    }
    assert plan.effects == writes + Entries(Sessions.AssignRole(c, user, role, context).calls);
  }

  lemma EditSplits(cfg: Settings, c: Core, r: Request, t: Span) returns (writes: seq<Effect>)
    requires r.EditAccess?
    ensures Splits(cfg, c, PlanOf(cfg, c, r, t), Serve(cfg, c, r, t), Surroundings(t.finish, true), writes)
  {
    writes := PlanOf(cfg, c, r, t).effects;
    WriteOne(cfg, c, writes[0], Surroundings(t.finish, true));
    assert writes == writes + Entries([]);
  }

  lemma PlanSplits(cfg: Settings, c: Core, e: Event) returns (writes: seq<Effect>)
    requires UniqueNames(c.accounts.roles)
    ensures Splits(cfg, c, PlanOf(cfg, c, e.request, e.time), Serve(cfg, c, e.request, e.time), Around(e), writes)
  {
    match e.request
    case OnLogin(q) => writes := LoginSplits(cfg, c, q, e.time);
    case OnRefresh(q) => writes := RefreshSplits(cfg, c, q, e.time);
    case OnLogout(q) => writes := LogoutSplits(cfg, c, q, e.time);
    case OnUpdate(q) => writes := UpdateSplits(cfg, c, q, e.time);
    case OnRegister(email, hash, name, context) =>
      writes := RegisterSplits(cfg, c, email, hash, name, context, Around(e));
    case OnLogoutAll(user, context, redisUp) => writes := LogoutAllSplits(cfg, c, user, context, redisUp, e.time);
    case OnDelete(user, context) => writes := DeleteSplits(cfg, c, user, context, Around(e));
    case OnAssign(user, role, context) => writes := AssignSplits(cfg, c, user, role, context, Around(e));
    case EditAccess(_, _, _, _) => writes := EditSplits(cfg, c, e.request, e.time);
  }

  // ---------------------------------------------------------------- the recordings of one call

  predicate LosesOne(calls: seq<Call>, faults: (Fault, Fault)) {
    || (|calls| >= 1 && Loses(faults.0))
    || (|calls| >= 2 && Loses(faults.1))
  }

  /** Entries and warnings together: one for each event that was to be recorded. */
  function Accounted(trail: Trail): nat {
    |trail.entries| + LostEvents(trail.warnings)
  }

  lemma PerformEntry(cfg: Settings, s: Site, call: Call, rest: seq<Effect>, reply: Reply, at: Surroundings,
                     faults: (Fault, Fault), handled: bool)
    ensures
      var (trail, outcome) := Recording(s.trail, call, EmailsOf(s.core.accounts), faults.0, handled);
      Perform(cfg, s, [RecordEntry(call)] + rest, reply, at, faults, handled) ==
        if outcome.Err? then (s.(trail := trail), Err(Exception))
        else Perform(cfg, s.(trail := trail), rest, reply, at, (faults.1, faults.1), handled)
  {
    assert ([RecordEntry(call)] + rest)[1..] == rest;
  }

  /** With the handlers every recording of the call is made or given up, and the answer stands. */
  lemma HandledEntries(cfg: Settings, s: Site, calls: seq<Call>, reply: Reply, at: Surroundings, faults: (Fault, Fault))
    requires |calls| <= 2
    ensures
      var (after, answer) := Perform(cfg, s, Entries(calls), reply, at, faults, true);
      && after.core == s.core && answer == Ok(reply)
      && after.trail == RecordTrail(s.trail, calls, EmailsOf(s.core.accounts), faults)
      && after.trail.entries == RecordAll(s.trail.entries, calls, EmailsOf(s.core.accounts), faults)
      && Accounted(after.trail) == Accounted(s.trail) + |calls|
  {
    if calls != [] {
      var emails := EmailsOf(s.core.accounts);
      assert Entries(calls) == [RecordEntry(calls[0])] + Entries(calls[1..]);
      PerformEntry(cfg, s, calls[0], Entries(calls[1..]), reply, at, faults, true);
      NoRaiseEscapes(s.trail, calls[0], emails, faults.0);
      if |calls| == 2 {
        var next := s.(trail := RecordEvent(s.trail, calls[0], emails, faults.0).0);
        assert Entries(calls[1..]) == [RecordEntry(calls[1])] + [];
        PerformEntry(cfg, next, calls[1], [], reply, at, (faults.1, faults.1), true);
        NoRaiseEscapes(next.trail, calls[1], emails, faults.1);
      } else {
        assert Entries(calls[1..]) == [];
      }
    }
  }

  /** Without the outer handler the answer stands exactly if no entry is lost. */
  lemma UnhandledEntries(cfg: Settings, s: Site, calls: seq<Call>, reply: Reply, at: Surroundings,
                         faults: (Fault, Fault))
    requires |calls| <= 2
    ensures
      var (after, answer) := Perform(cfg, s, Entries(calls), reply, at, faults, false);
      after.core == s.core && answer == if LosesOne(calls, faults) then Err(Exception) else Ok(reply)
  {
    if calls != [] {
      var emails := EmailsOf(s.core.accounts);
      assert Entries(calls) == [RecordEntry(calls[0])] + Entries(calls[1..]);
      PerformEntry(cfg, s, calls[0], Entries(calls[1..]), reply, at, faults, false);
      AttemptWrites(s.trail, calls[0], emails, faults.0);
      if |calls| == 2 {
        var next := s.(trail := Attempt(s.trail, calls[0], emails, faults.0).0);
        assert Entries(calls[1..]) == [RecordEntry(calls[1])] + [];
        PerformEntry(cfg, next, calls[1], [], reply, at, (faults.1, faults.1), false);
        AttemptWrites(next.trail, calls[1], emails, faults.1);
      } else {
        assert Entries(calls[1..]) == [];
      }
    }
  }

  // ---------------------------------------------------------------- one call

  /**
   * A service call with all its ordered effects and every exception its recordings can meet does to the
   * tables and to Redis what its simple form does, and gives the same answer; each of its events is
   * accounted for in the trail.
   */
  lemma AnswerIsServed(cfg: Settings, s: Site, e: Event)
    requires UniqueNames(s.core.accounts.roles)
    ensures
      var served := Serve(cfg, s.core, e.request, e.time);
      var (after, answer) := Answer(cfg, s, e, true);
      && after.core == served.core && answer == Ok(served.reply)
      && after.trail == RecordTrail(s.trail, served.calls, EmailsOf(served.core.accounts), e.faults)
      && after.trail.entries == RecordAll(s.trail.entries, served.calls, EmailsOf(served.core.accounts), e.faults)
      && Accounted(after.trail) == Accounted(s.trail) + |served.calls|
  {
    var served := Serve(cfg, s.core, e.request, e.time);
    var writes := PlanSplits(cfg, s.core, e);
    PerformWrites(cfg, s, writes, Entries(served.calls), served.reply, Around(e), e.faults, true);
    HandledEntries(cfg, Site(served.core, s.trail), served.calls, served.reply, Around(e), e.faults);
  }

  /**
   * What the outer handler is worth.  Without it the tables and Redis would still be as they should,
   * since every store is written before anything is recorded; but the caller would lose the answer,
   * and with it a rotated pair, exactly when the recording of one of the call's events fails.
   */
  lemma AnswerWithoutHandler(cfg: Settings, s: Site, e: Event)
    requires UniqueNames(s.core.accounts.roles)
    ensures
      var served := Serve(cfg, s.core, e.request, e.time);
      var (after, answer) := Answer(cfg, s, e, false);
      && after.core == served.core
      && answer == if LosesOne(served.calls, e.faults) then Err(Exception) else Ok(served.reply)
  {
    var served := Serve(cfg, s.core, e.request, e.time);
    var writes := PlanSplits(cfg, s.core, e);
    PerformWrites(cfg, s, writes, Entries(served.calls), served.reply, Around(e), e.faults, false);
    UnhandledEntries(cfg, Site(served.core, s.trail), served.calls, served.reply, Around(e), e.faults);
  }

  // ---------------------------------------------------------------- runs

  /** The calls of a run one after the other, and what their callers got. */
  ghost function Replay(cfg: Settings, s: Site, es: seq<Event>): (Site, seq<Result<Reply, Exception>>)
    decreases |es|
  {
    if es == [] then (s, [])
    else
      var (next, answer) := Answer(cfg, s, es[0], true);
      var (last, answers) := Replay(cfg, next, es[1..]);
      (last, [answer] + answers)
  }

  ghost function Replies(cfg: Settings, w: World, es: seq<Event>): seq<Result<Reply, Exception>>
    decreases |es|
  {
    if es == [] then []
    else [Ok(Serve(cfg, w.core, es[0].request, es[0].time).reply)] + Replies(cfg, Step(cfg, w, es[0]), es[1..])
  }

  /**
   * The run with effects and exceptions is the run of the other theorems: it ends in the same tables,
   * the same Redis and the same log, and no caller gets an exception of the audit log.
   */
  lemma {:induction false} ReplayIsExec(cfg: Settings, w: World, trail: Trail, es: seq<Event>)
    requires Good(cfg, w) && Legal(cfg, w, es) && trail.entries == w.log
    ensures
      var (last, answers) := Replay(cfg, Site(w.core, trail), es);
      && last.core == Exec(cfg, w, es).core && last.trail.entries == Exec(cfg, w, es).log
      && answers == Replies(cfg, w, es)
    decreases |es|
  {
    if es != [] {
      AnswerIsServed(cfg, Site(w.core, trail), es[0]);
      StepKeepsGood(cfg, w, es[0]);
      var (next, answer) := Answer(cfg, Site(w.core, trail), es[0], true);
      assert next == Site(Step(cfg, w, es[0]).core, next.trail);
      ReplayIsExec(cfg, Step(cfg, w, es[0]), next.trail, es[1..]);
    }
  }

  /** Two runs of the same requests at the same instants that may differ in their audit faults. */
  ghost predicate SameRequests(es: seq<Event>, fs: seq<Event>) {
    |es| == |fs| && forall k :: 0 <= k < |es| ==> es[k].request == fs[k].request && es[k].time == fs[k].time
  }

  /** Whether a run is legal, what it leaves in the stores and what it answers depends on requests and instants only. */
  lemma {:induction false} SameRequestsSameRun(cfg: Settings, w: World, v: World, es: seq<Event>, fs: seq<Event>)
    requires SameRequests(es, fs) && w.(log := v.log) == v && Legal(cfg, w, es)
    ensures Legal(cfg, v, fs)
    ensures Exec(cfg, w, es).core == Exec(cfg, v, fs).core && Replies(cfg, w, es) == Replies(cfg, v, fs)
    decreases |es|
  {
    if es != [] {
      assert es[0].request == fs[0].request && es[0].time == fs[0].time;
      assert SameRequests(es[1..], fs[1..]) by {
        forall k | 0 <= k < |es| - 1 ensures es[1..][k] == es[k + 1] && fs[1..][k] == fs[k + 1] {}
      }
      SameRequestsSameRun(cfg, Step(cfg, w, es[0]), Step(cfg, v, fs[0]), es[1..], fs[1..]);
    }
  }

  /**
   * Audit exceptions interfere with nothing: two runs of the same requests, performed effect by effect,
   * that differ in which lookups, sanitizations and writes of the audit log raise end with the same
   * tables and the same Redis, and every caller gets the same answer, which is never an exception.
   */
  lemma AuditNonInterference(cfg: Settings, w: World, es: seq<Event>, fs: seq<Event>, s: Trail, v: Trail)
    requires Good(cfg, w) && Legal(cfg, w, es) && SameRequests(es, fs)
    ensures
      var (one, answers) := Replay(cfg, Site(w.core, s), es);
      var (other, others) := Replay(cfg, Site(w.core, v), fs);
      && one.core == other.core && answers == others
      && forall k :: 0 <= k < |answers| ==> answers[k].Ok?
  {
    var w1, w2 := w.(log := s.entries), w.(log := v.entries);
    SameRequestsSameRun(cfg, w, w1, es, es);
    SameRequestsSameRun(cfg, w, w2, es, fs);
    ReplayIsExec(cfg, w1, s, es);
    ReplayIsExec(cfg, w2, v, fs);
    RepliesAreOk(cfg, w1, es);
  }

  lemma {:induction false} RepliesAreOk(cfg: Settings, w: World, es: seq<Event>)
    ensures forall k :: 0 <= k < |Replies(cfg, w, es)| ==> Replies(cfg, w, es)[k].Ok?
    decreases |es|
  {
    if es != [] { RepliesAreOk(cfg, Step(cfg, w, es[0]), es[1..]); }
  }
}
