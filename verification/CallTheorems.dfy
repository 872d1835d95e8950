/**
 * What each service call answers, writes and records, read from the stores it finds.
 *
 * The conditions and the effects are stated on the tables themselves, so that they tie down the calls
 * whose whole runs the other theorems are about.
 */
module CallTheorems {
  import opened Options
  import opened Clock
  import opened AccessTokens
  import opened RefreshTokens
  import opened Blocklist
  import opened Accounts
  import opened AccountTheorems
  import opened AuditLog
  import opened Sessions
  import opened SortedStrings
  import Sanitizer

  /** One entry: what was done by whom, from the surroundings of the request, and how it ended. */
  ghost predicate Records(s: Served, action: Action, actor: Option<nat>, c: Context, target: Option<nat>,
                          success: bool)
  {
    && |s.calls| == 1
    && Reports(s.calls[0], action, actor, c, target, success)
  }

  ghost predicate Reports(call: Call, action: Action, actor: Option<nat>, c: Context, target: Option<nat>,
                          success: bool)
  {
    && call.action == action && call.context.actor == actor && call.target == target && call.success == success
    && call.context.ip == c.ip && call.context.userAgent == c.userAgent && call.context.requestId == c.requestId
  }

  /** The metadata holds the one entry. */
  predicate Tells(call: Call, key: string, value: Sanitizer.Value) {
    call.metadata == Some([Sanitizer.Entry(key, value)])
  }

  /** Exactly the unrevoked rows among `hit` are now revoked at `at`; no other row or column has changed. */
  ghost predicate RevokedThere(rows: Rows, after: Rows, hit: set<nat>, at: int) {
    && after.Keys == rows.Keys
    && forall i :: i in rows ==>
         after[i] == if i in hit && rows[i].revoked.None? then rows[i].(revoked := Some(at)) else rows[i]
  }

  // ---------------------------------------------------------------- login

  /** User `u` has the address, is active, and the password is right. */
  ghost predicate MayLogIn(d: Directory, q: LoginArgs, u: nat) {
    u in d.users && d.users[u].email == CanonicalEmail(q.email) && d.users[u].active && q.passwordOk
  }

  lemma FoundMayLogIn(d: Directory, q: LoginArgs)
    requires WellFormed(d)
    ensures
      var found := Credentials(d, q.email);
      forall u: nat :: MayLogIn(d, q, u) <==>
        found == Some(u) && d.users[found.value].active && q.passwordOk
  {
    forall u | u in UsersByEmail(d, CanonicalEmail(q.email)) ensures Credentials(d, q.email) == Some(u) {}
  }

  /** The row a login stores and the grant it makes. */
  ghost predicate OpensSession(cfg: Settings, d: Directory, q: LoginArgs, t: Span, reply: Reply, id: nat) {
    && reply.Issued?
    && MayLogIn(d, q, reply.grant.user)
    && reply.grant.at == t.finish && reply.grant.jti == q.jti && CarriesHeld(d, reply.grant)
    && reply.token == Dto(id, Row(reply.grant.user, q.hash, q.family, None, DeviceHash(q.context.userAgent),
                                  q.context.ip, t.start + cfg.refreshLifetime, None))
  }

  /**
   * A login succeeds exactly if an active user has the address, the password is right and the hash is
   * free.  It then stores the root of the family and grants what the user holds; otherwise no row is
   * stored.
   */
  lemma LoginReplies(cfg: Settings, c: Core, q: LoginArgs, t: Span)
    requires WellFormed(c.accounts)
    ensures
      var s := Sessions.Login(cfg, c, q, t);
      var known := exists u :: MayLogIn(c.accounts, q, u);
      var free := forall i :: i in c.db.rows ==> c.db.rows[i].hash != q.hash;
      && (s.reply.Issued? <==> known && free)
      && (s.reply == Refused(BadCredentials) <==> !known)
      && (s.reply == Refused(Integrity) <==> known && !free)
      && (s.reply.Issued? ==>
            && OpensSession(cfg, c.accounts, q, t, s.reply, c.db.nextId)
            && s.core.db == Db(c.db.rows[c.db.nextId := s.reply.token.row], c.db.nextId + 1))
      && (!s.reply.Issued? ==> s.core.db.rows == c.db.rows)
      && (!known ==> s.core == c)
      && (s.reply == Refused(Integrity) ==> s.core.db.nextId == c.db.nextId + 1)
      && s.core.store == c.store && s.core.accounts == c.accounts && s.revoked == {}
  {
    FoundMayLogIn(c.accounts, q);
    var found := Credentials(c.accounts, q.email);
    if found.Some? { GrantForCarriesHeld(c.accounts, found.value, t.finish, q.jti); }
  }

  /** A login records its success under the user, or its failure under the address that was given. */
  lemma LoginRecords(cfg: Settings, c: Core, q: LoginArgs, t: Span)
    requires WellFormed(c.accounts)
    ensures
      var s := Sessions.Login(cfg, c, q, t);
      match s.reply
      case Issued(grant, _) =>
        && Records(s, LoginSuccess, Some(grant.user), q.context, None, true) && s.calls[0].metadata == None
        && s.calls[0].context.email == Some(CanonicalEmail(q.email))
      case Refused(failure) =>
        if failure == BadCredentials then
          && Records(s, LoginFailure, q.context.actor, q.context, None, false)
          && Tells(s.calls[0], "email", Sanitizer.Text(q.email))
        else s.calls == []
      case Done => false
  {
  }

  // ---------------------------------------------------------------- refresh

  /** The child of row `i`, issued to its owner, and bound to the device of its parent or else to the presented one. */
  ghost predicate ContinuesSession(cfg: Settings, c: Core, q: RefreshArgs, t: Span, reply: Reply, i: nat)
    requires i in c.db.rows
  {
    var row := c.db.rows[i];
    && reply.Issued?
    && reply.grant.user == row.user && reply.grant.at == t.finish && reply.grant.jti == q.jti
    && CarriesHeld(c.accounts, reply.grant)
    && reply.token == Dto(c.db.nextId,
                          Row(row.user, q.replacement, row.family, Some(i),
                              if row.device.Some? then row.device else DeviceHash(q.context.userAgent),
                              q.context.ip, t.start + cfg.refreshLifetime, None))
  }

  /**
   * A refresh that issues consumes the presented row and stores its child: the owner, the family and a
   * device once set stay, an unset device is the presented one, and the expiry is a full lifetime away.
   */
  lemma RefreshContinues(cfg: Settings, c: Core, q: RefreshArgs, t: Span, i: nat)
    requires UniqueHashes(c.db.rows) && i in c.db.rows && c.db.rows[i].hash == q.hash
    requires c.db.rows[i].device != Some("") && Sessions.Refresh(cfg, c, q, t).reply.Issued?
    ensures
      var s := Sessions.Refresh(cfg, c, q, t);
      && ContinuesSession(cfg, c, q, t, s.reply, i)
      && s.core.db == Db(c.db.rows[i := c.db.rows[i].(revoked := Some(t.start))][c.db.nextId := s.reply.token.row],
                         c.db.nextId + 1)
      && s.core.store == c.store && s.core.accounts == c.accounts && s.revoked == {}
  {
    RotateCases(c.db, RotationOf(cfg, q, t.start));
    GrantForCarriesHeld(c.accounts, c.db.rows[i].user, t.finish, q.jti);
  }

  /**
   * It records the refresh under the family, and before it a change of address: when addresses are
   * watched and the one stored with the presented row is known and another.
   */
  lemma RefreshRecords(cfg: Settings, c: Core, q: RefreshArgs, t: Span, i: nat)
    requires UniqueHashes(c.db.rows) && i in c.db.rows && c.db.rows[i].hash == q.hash
    requires Sessions.Refresh(cfg, c, q, t).reply.Issued?
    ensures
      var calls, row := Sessions.Refresh(cfg, c, q, t).calls, c.db.rows[i];
      var changed := q.bindIp && row.ip.Some? && row.ip != q.context.ip;
      && |calls| == (if changed then 2 else 1)
      && Reports(calls[|calls| - 1], TokenRefreshed, Some(row.user), q.context, None, true)
      && Tells(calls[|calls| - 1], "family_id", Sanitizer.Uuid(row.family))
      && (changed ==>
            && Reports(calls[0], TokenIpChanged, Some(row.user), q.context, None, true)
            && calls[0].metadata == Some([Sanitizer.Entry("previous_ip", Sanitizer.Masked(row.ip)),
                                          Sanitizer.Entry("presented_ip", Sanitizer.Masked(q.context.ip))]))
  {
    RotateCases(c.db, RotationOf(cfg, q, t.start));
  }

  ghost function FamilyRows(rows: Rows, f: Family): set<nat> {
    set i | i in rows && rows[i].family == f
  }

  /** Detected reuse and a device mismatch revoke the family of the presented row and the user's access tokens. */
  lemma RefreshAlarms(cfg: Settings, c: Core, q: RefreshArgs, t: Span, i: nat)
    requires UniqueHashes(c.db.rows) && i in c.db.rows && c.db.rows[i].hash == q.hash
    requires Sessions.Refresh(cfg, c, q, t).reply in {Refused(ReusedToken), Refused(MismatchedDevice)}
    ensures
      var s, row := Sessions.Refresh(cfg, c, q, t), c.db.rows[i];
      && RevokedThere(c.db.rows, s.core.db.rows, FamilyRows(c.db.rows, row.family), t.start)
      && s.core.db.nextId == c.db.nextId && s.core.accounts == c.accounts
      && s.core.store == Blocklist.RevokeUser(c.store, row.user, t.start, cfg.accessSeconds, t.finish, q.redisUp)
      && s.revoked == {UserRevoked(row.user, t.start)}
  {
    RotateCases(c.db, RotationOf(cfg, q, t.start));
    FamilyIsRevoked(c.db.rows, c.db.rows[i].family, t.start);
  }

  lemma FamilyIsRevoked(rows: Rows, f: Family, at: int)
    ensures RevokedThere(rows, RevokeAll(rows, WholeFamily(f), at), FamilyRows(rows, f), at)
  {
  }

  /** They record the failure under the user and the family. */
  lemma AlarmRecords(cfg: Settings, c: Core, q: RefreshArgs, t: Span, i: nat)
    requires UniqueHashes(c.db.rows) && i in c.db.rows && c.db.rows[i].hash == q.hash
    requires Sessions.Refresh(cfg, c, q, t).reply in {Refused(ReusedToken), Refused(MismatchedDevice)}
    ensures
      var s, row := Sessions.Refresh(cfg, c, q, t), c.db.rows[i];
      var action := if s.reply == Refused(ReusedToken) then TokenReuseDetected else TokenBindingMismatch;
      && Records(s, action, Some(row.user), q.context, None, false)
      && Tells(s.calls[0], "family_id", Sanitizer.Uuid(row.family))
  {
    RotateCases(c.db, RotationOf(cfg, q, t.start));
  }

  /** Every other refused refresh leaves the rows, Redis and the audit log as they were. */
  lemma RefreshRefusals(cfg: Settings, c: Core, q: RefreshArgs, t: Span)
    requires Sessions.Refresh(cfg, c, q, t).reply in {Refused(BadToken), Refused(Integrity)}
    ensures
      var s := Sessions.Refresh(cfg, c, q, t);
      && s.core.db.rows == c.db.rows && s.core.store == c.store && s.core.accounts == c.accounts
      && s.core.db.nextId == c.db.nextId + (if s.reply == Refused(Integrity) then 1 else 0)
      && s.calls == [] && s.revoked == {}
  {
    RotateCases(c.db, RotationOf(cfg, q, t.start));
  }

  // ---------------------------------------------------------------- logout

  /**
   * A logout always succeeds.  It blocks the access token for what is left of its life and, if the
   * presented token is stored, revokes that row alone and records the logout.
   */
  lemma LogoutEffects(cfg: Settings, c: Core, q: LogoutArgs, t: Span)
    requires UniqueHashes(c.db.rows)
    ensures
      var s := Sessions.Logout(cfg, c, q, t);
      var left := RemainingTtl(IssuedAt(q.access) + cfg.accessSeconds * SECOND, t.start);
      && s.reply == Done && s.core.accounts == c.accounts && s.core.db.nextId == c.db.nextId
      && s.core.store == Blocklist.BlockToken(c.store, q.access.jti, left, t.finish, q.redisUp)
      && s.revoked == {TokenRevoked(q.access.jti)}
      && (forall i :: i in c.db.rows && c.db.rows[i].hash == q.hash ==>
            && RevokedThere(c.db.rows, s.core.db.rows, {i}, t.finish)
            && Records(s, Action.Logout, Some(c.db.rows[i].user), q.context, None, true)
            && Tells(s.calls[0], "family_id", Sanitizer.Uuid(c.db.rows[i].family)))
      && ((forall i :: i in c.db.rows ==> c.db.rows[i].hash != q.hash) ==> s.core.db == c.db && s.calls == [])
  {
    TokenInstants(cfg, q.access);
  }

  ghost function UserRows(rows: Rows, user: nat): set<nat> {
    set i | i in rows && rows[i].user == user
  }

  /** A logout of all sessions revokes every row of the user and the access tokens, and records it. */
  lemma LogoutAllEffects(cfg: Settings, c: Core, user: nat, context: Context, redisUp: bool, t: Span)
    ensures
      var s := Sessions.LogoutAll(cfg, c, user, context, redisUp, t);
      && s.reply == Done && s.core.accounts == c.accounts && s.core.db.nextId == c.db.nextId
      && RevokedThere(c.db.rows, s.core.db.rows, UserRows(c.db.rows, user), t.start)
      && s.core.store == Blocklist.RevokeUser(c.store, user, t.start, cfg.accessSeconds, t.finish, redisUp)
      && s.revoked == {UserRevoked(user, t.start)}
      && Records(s, Action.Logout, Some(user), context, None, true)
      && Tells(s.calls[0], "scope", Sanitizer.Text("all"))
  {
  }

  // ---------------------------------------------------------------- administration

  /** Nothing but the account tables has changed, and nothing was revoked. */
  ghost predicate OnlyAccounts(c: Core, s: Served) {
    s.core.db == c.db && s.core.store == c.store && s.revoked == {}
  }

  /** The address the update asks for is that of another user. */
  ghost predicate TakenByOther(d: Directory, q: UpdateArgs) {
    q.email.Some? && exists u :: u in d.users && u != q.user && d.users[u].email == CanonicalEmail(q.email.value)
  }

  /** The row after an update: what was given, and the rest as it was. */
  ghost predicate Updated(row: User, after: User, q: UpdateArgs) {
    && after.email == (if q.email.Some? then CanonicalEmail(q.email.value) else row.email)
    && after.passwordHash == (if q.password.Some? then q.password.value else row.passwordHash)
    && after.active == (if q.active.Some? then q.active.value else row.active)
  }

  lemma GivenFields(q: UpdateArgs)
    ensures Typed(FieldsOf(q))
    ensures "email" in FieldsOf(q) <==> q.email.Some?
    ensures "password" in FieldsOf(q) <==> q.password.Some?
    ensures "is_active" in FieldsOf(q) <==> q.active.Some?
    ensures q.email.Some? ==> FieldsOf(q)["email"] == TextCell(q.email.value)
    ensures q.password.Some? ==> FieldsOf(q)["password"] == TextCell(q.password.value)
    ensures q.active.Some? ==> FieldsOf(q)["is_active"] == FlagCell(q.active.value)
    ensures FieldsOf(q) == map[] <==> q.email.None? && q.password.None? && q.active.None?
  {
    assert q.email.Some? ==> "email" in FieldsOf(q);
    assert q.password.Some? ==> "password" in FieldsOf(q);
    assert q.active.Some? ==> "is_active" in FieldsOf(q);
  }

  /** The reply and the account tables after an update. */
  ghost predicate UpdateAnswers(d: Directory, q: UpdateArgs, reply: Reply, after: Directory) {
    && (reply == Refused(NoSuchResource) <==> q.user !in d.users)
    && (reply == Refused(EmailExists) <==> q.user in d.users && TakenByOther(d, q))
    && (reply == Done <==> q.user in d.users && !TakenByOther(d, q))
    && (reply != Done ==> after == d)
    && (reply == Done ==>
          && q.user in after.users && Updated(d.users[q.user], after.users[q.user], q)
          && (forall u :: u != q.user ==> Unchanged(d, after, u))
          && (forall name :: HoldsRole(after, q.user, name) <==> HoldsRole(d, q.user, name))
          && (forall code :: HoldsPermission(after, q.user, code) <==> HoldsPermission(d, q.user, code)))
  }

  lemma UpdateOfNothing(cfg: Settings, c: Core, q: UpdateArgs, t: Span)
    requires FieldsOf(q) == map[]
    ensures UpdateAnswers(c.accounts, q, Sessions.UpdateUser(cfg, c, q, t).reply, c.accounts)
  {
    GivenFields(q);
    forall u ensures Unchanged(c.accounts, c.accounts, u) {}
  }

  lemma UpdateOfColumns(cfg: Settings, c: Core, q: UpdateArgs, t: Span)
    requires WellFormed(c.accounts) && FieldsOf(q) != map[]
    ensures
      var after := Accounts.UpdateUser(c.accounts, q.user, FieldsOf(q)).0;
      UpdateAnswers(c.accounts, q, Sessions.UpdateUser(cfg, c, q, t).reply, after)
  {
    GivenFields(q);
    UpdateWritesColumns(c.accounts, q.user, FieldsOf(q));
    assert Clashes(c.accounts, q.user, FieldsOf(q)) <==> TakenByOther(c.accounts, q);
  }

  /**
   * An update is refused exactly for a missing user, or for the address of another user, and then changes
   * nothing.  Otherwise it writes the columns that were given and no others.
   */
  lemma UpdateReplies(cfg: Settings, c: Core, q: UpdateArgs, t: Span)
    requires WellFormed(c.accounts)
    ensures
      var s := Sessions.UpdateUser(cfg, c, q, t);
      UpdateAnswers(c.accounts, q, s.reply, s.core.accounts)
  {
    if FieldsOf(q) == map[] { UpdateOfNothing(cfg, c, q, t); } else { UpdateOfColumns(cfg, c, q, t); }
  }

  /** A deactivation that succeeds revokes the user's access tokens; no other update revokes anything. */
  lemma UpdateRevokes(cfg: Settings, c: Core, q: UpdateArgs, t: Span)
    ensures
      var s := Sessions.UpdateUser(cfg, c, q, t);
      && s.core.db == c.db
      && if s.reply == Done && q.active == Some(false) then
           && s.revoked == {UserRevoked(q.user, t.start)}
           && s.core.store ==
                Blocklist.RevokeUser(c.store, q.user, t.start, cfg.accessSeconds, t.finish, q.redisUp)
         else s.core.store == c.store && s.revoked == {}
  {
    if q.active == Some(false) { NotEmpty(q); }
  }

  lemma NotEmpty(q: UpdateArgs)
    requires q.active.Some?
    ensures FieldsOf(q) != map[]
  {
    assert "is_active" in FieldsOf(q);
  }

  /** The names of the columns that were given, in the order of the alphabet. */
  function GivenNames(q: UpdateArgs): seq<string> {
    (if q.email.Some? then ["email"] else []) + (if q.active.Some? then ["is_active"] else []) +
    (if q.password.Some? then ["password"] else [])
  }

  lemma NamesInOrder(q: UpdateArgs)
    ensures Sorted(FieldsOf(q).Keys) == GivenNames(q)
  {
    GivenFields(q);
    var names := GivenNames(q);
    assert Ordered(names);
    forall x ensures x in names <==> x in FieldsOf(q).Keys {}
    OrderedOnce(Sorted(FieldsOf(q).Keys), names);
  }

  /** It records the names of the columns, unless none was given; a refusal records nothing. */
  lemma UpdateRecords(cfg: Settings, c: Core, q: UpdateArgs, t: Span)
    ensures
      var s := Sessions.UpdateUser(cfg, c, q, t);
      if s.reply != Done || GivenNames(q) == [] then s.calls == []
      else
        && Records(s, UserUpdate, q.context.actor, q.context, Some(q.user), true)
        && Tells(s.calls[0], "changed_fields", Sanitizer.ListOf(TextValues(GivenNames(q))))
  {
    GivenFields(q);
    NamesInOrder(q);
  }

  /** A row that is left keeps its parent, unless that was a row of the user; nothing else of it changes. */
  ghost predicate Orphaned(rows: Rows, user: nat, row: Row, after: Row) {
    if row.parent.Some? && row.parent.value in UserRows(rows, user) then after == row.(parent := None) else after == row
  }

  /** A deletion is refused exactly for a missing user; it takes the user, the links and the rows. */
  lemma DeleteReplies(c: Core, user: nat, context: Context)
    ensures
      var s := Sessions.DeleteUser(c, user, context);
      && (s.reply == Done <==> user in c.accounts.users)
      && (s.reply != Done ==> s == Served(c, Refused(NoSuchResource), [], {}))
      && (s.reply == Done ==>
            && s.core.store == c.store && s.revoked == {} && s.core.db.nextId == c.db.nextId
            && s.core.db.rows.Keys == c.db.rows.Keys - UserRows(c.db.rows, user)
            && (forall i :: i in s.core.db.rows ==> Orphaned(c.db.rows, user, c.db.rows[i], s.core.db.rows[i]))
            && user !in s.core.accounts.users
            && (forall name :: !HoldsRole(s.core.accounts, user, name))
            && (forall u :: u != user ==> Unchanged(c.accounts, s.core.accounts, u))
            && Records(s, UserDelete, context.actor, context, Some(user), true))
  {
    DeletionTakesRoles(c.accounts, user);
  }

  /** An assignment is refused exactly for a missing user or role; it gives the role and what it carries. */
  lemma AssignReplies(c: Core, user: nat, role: nat, context: Context)
    ensures
      var s := Sessions.AssignRole(c, user, role, context);
      && (s.reply == Done <==> user in c.accounts.users && role in c.accounts.roles)
      && (s.reply != Done ==> s == Served(c, Refused(NoSuchResource), [], {}))
      && (s.reply == Done ==>
            && OnlyAccounts(c, s) && s.core.accounts.users == c.accounts.users
            && (forall u, name :: HoldsRole(s.core.accounts, u, name) <==>
                  HoldsRole(c.accounts, u, name) || (u == user && name == c.accounts.roles[role]))
            && (forall u, code :: HoldsPermission(s.core.accounts, u, code) <==>
                  HoldsPermission(c.accounts, u, code) || (u == user && Carries(c.accounts, role, code)))
            && Records(s, RoleAssign, context.actor, context, Some(user), true)
            && s.calls[0].metadata == Some([Sanitizer.Entry("role_id", Sanitizer.Number(role)),
                                            Sanitizer.Entry("role_name", Sanitizer.Text(c.accounts.roles[role]))]))
  {
    if user in c.accounts.users && role in c.accounts.roles { AssignmentGivesRole(c.accounts, user, role); }
  }

  /** The user that a registration has created, with the role of that name and nothing else. */
  ghost predicate Registered(d: Directory, after: Directory, email: string, passwordHash: string, roleName: string,
                             id: nat)
  {
    && id !in d.users && id in after.users
    && after.users[id] == User(CanonicalEmail(email), passwordHash, true)
    && (forall name :: HoldsRole(after, id, name) <==> name == roleName)
    && (forall code :: HoldsPermission(after, id, code) <==>
          exists role :: role in d.roles && d.roles[role] == roleName && Carries(d, role, code))
    && (forall u :: u != id ==> Unchanged(d, after, u))
  }

  /**
   * A registration is refused exactly when no role has the configured name, or when the address is taken.
   * It creates an active user with that role and no session, and records it under the new user.
   */
  lemma RegisterReplies(c: Core, email: string, passwordHash: string, roleName: string, context: Context)
    requires WellFormed(c.accounts)
    ensures
      var s := Sessions.Register(c, email, passwordHash, roleName, context);
      var d := c.accounts;
      var named := exists role :: role in d.roles && d.roles[role] == roleName;
      var taken := exists u :: u in d.users && d.users[u].email == CanonicalEmail(email);
      && OnlyAccounts(c, s)
      && (s.reply == Refused(NoRole) <==> !named)
      && (s.reply == Refused(EmailExists) <==> named && taken)
      && (s.reply == Done <==> named && !taken)
      && (s.reply != Done ==> s.calls == [] && forall u :: Unchanged(d, s.core.accounts, u))
      && (s.reply == Done ==>
            && |s.calls| == 1 && s.calls[0].context.actor.Some?
            && Registered(d, s.core.accounts, email, passwordHash, roleName, s.calls[0].context.actor.value)
            && Records(s, Action.Register, s.calls[0].context.actor, context, None, true)
            && s.calls[0].context.email == Some(CanonicalEmail(email)) && s.calls[0].metadata == None)
  {
    match DefaultRole(c.accounts, roleName)
    case None =>
      assert forall role :: role in c.accounts.roles && c.accounts.roles[role] == roleName ==>
                role in RolesByName(c.accounts, roleName);
    case Some(role) => RegistrationGivesRole(c.accounts, email, passwordHash, role);
  }
}
