/**
 * What each service call does to the database, to Redis and to the accounts, as one step.
 *
 * A call reads the clock when it starts and again when it is done; nothing else runs in between.
 * Audit entries are returned as calls: `AuditEffects` proves that recording them, in the order of the
 * source and with every exception it can meet, does not affect the rest.
 */
module Sessions {
  import opened Options
  import opened Clock
  import opened Texts
  import opened AccessTokens
  import opened RefreshTokens
  import opened Blocklist
  import opened Accounts
  import opened AuditLog
  import opened SortedStrings
  import Sanitizer

  datatype Core = Core(db: Db, store: Store, accounts: Directory)

  datatype Failure =
    | BadCredentials | BadToken | ReusedToken | MismatchedDevice
    | EmailExists | NoSuchResource | NoRole | Integrity
    | AuditRaised

  datatype Reply = Issued(grant: Grant, token: Dto) | Refused(failure: Failure) | Done

  /** The two clock readings of a call. */
  datatype Span = Span(start: int, finish: int)

  datatype Served = Served(core: Core, reply: Reply, calls: seq<Call>, revoked: set<Revocation>)

  /** The SHA-256 of the normalised user agent; the digest itself is abstracted away. */
  function DeviceHash(userAgent: Option<string>): (r: Option<string>)
    ensures r != Some("")
  {
    if userAgent.None? then None
    else
      var normalized := Lower(Strip(userAgent.value));
      if normalized == "" then None else Some(normalized)
  }

  /** No agent, or one of blanks only, has no hash; case does not matter to the others, and all else does. */
  lemma DeviceOfAgent(a: string, b: string)
    ensures DeviceHash(None) == None
    ensures DeviceHash(Some(a)) == None <==> Blank(a)
    ensures Tight(a) && Tight(b) && a != "" && b != "" ==>
              (DeviceHash(Some(a)) == DeviceHash(Some(b)) <==> Lower(a) == Lower(b))
  {
    StripBlank(a);
    if Tight(a) && Tight(b) {
      StripTight(a);
      StripTight(b);
    }
  }

  /** Nor do blanks around an agent. */
  lemma DeviceIgnoresBlanks(a: string, blanks: string)
    requires Blank(blanks)
    ensures DeviceHash(Some(blanks + a)) == DeviceHash(Some(a)) == DeviceHash(Some(a + blanks))
  {
    StripBeside(a, blanks);
  }

  function FamilyMetadata(f: Family): Option<seq<Sanitizer.Entry>> {
    Some([Sanitizer.Entry("family_id", Sanitizer.Uuid(f))])
  }

  function AsActor(c: Context, user: nat): Context {
    c.(actor := Some(user))
  }

  /** The grant made to a user from the roles it holds when the token is encoded. */
  function GrantFor(d: Directory, user: nat, at: int, jti: string): Grant {
    Grant(user, RoleNames(d, user), PermissionCodes(d, user), at, jti)
  }

  /** The grant carries exactly the roles and permissions that its user holds through role links. */
  ghost predicate CarriesHeld(d: Directory, g: Grant) {
    && (forall name :: name in g.roles <==> HoldsRole(d, g.user, name))
    && (forall code :: code in g.permissions <==> HoldsPermission(d, g.user, code))
  }

  lemma GrantForCarriesHeld(d: Directory, user: nat, at: int, jti: string)
    ensures CarriesHeld(d, GrantFor(d, user, at, jti))
  {
    forall text { RolesAndPermissionsHeld(d, user, text); }
  }

  // ---------------------------------------------------------------- login

  datatype LoginArgs = LoginArgs(
    email: string, passwordOk: bool, context: Context, hash: string, family: Family, jti: string)

  ghost function Credentials(d: Directory, email: string): (r: Option<nat>)
    ensures r.Some? ==> r.value in d.users && d.users[r.value].email == CanonicalEmail(email)
    ensures r.None? <==> UsersByEmail(d, CanonicalEmail(email)) == {}
  {
    if u :| u in UsersByEmail(d, CanonicalEmail(email)) then Some(u) else None
  }

  function RootRow(cfg: Settings, user: nat, q: LoginArgs, at: int): Row {
    Row(user, q.hash, q.family, None, DeviceHash(q.context.userAgent), q.context.ip, at + cfg.refreshLifetime, None)
  }

  function LoginFailureCall(q: LoginArgs): Call {
    Call(LoginFailure, q.context, None, false, Some([Sanitizer.Entry("email", Sanitizer.Text(q.email))]))
  }

  function LoginSuccessCall(q: LoginArgs, user: nat, email: string): Call {
    Call(LoginSuccess, AsActor(q.context, user).(email := Some(email)), None, true, None)
  }

  ghost function Login(cfg: Settings, c: Core, q: LoginArgs, t: Span): Served {
    var found := Credentials(c.accounts, q.email);
    if found.None? || !c.accounts.users[found.value].active || !q.passwordOk then
      Served(c, Refused(BadCredentials), [LoginFailureCall(q)], {})
    else
      var user := found.value;
      var (db, created) := Insert(c.db, RootRow(cfg, user, q, t.start));
      match created
      case Err(_) => Served(c.(db := db), Refused(Integrity), [], {})
      case Ok(dto) =>
        Served(c.(db := db), Issued(GrantFor(c.accounts, user, t.finish, q.jti), dto),
               [LoginSuccessCall(q, user, c.accounts.users[user].email)], {})
  }

  // ---------------------------------------------------------------- refresh

  datatype RefreshArgs = RefreshArgs(
    hash: string, replacement: string, context: Context, jti: string,
    bindDevice: bool, bindIp: bool, redisUp: bool)

  function RotationOf(cfg: Settings, q: RefreshArgs, at: int): RotateArgs {
    RotateArgs(q.hash, q.replacement, at + cfg.refreshLifetime, at, q.bindDevice,
               DeviceHash(q.context.userAgent), q.context.ip)
  }

  function AlarmCall(q: RefreshArgs, row: Row, action: Action): Call {
    Call(action, AsActor(q.context, row.user), None, false, FamilyMetadata(row.family))
  }

  function RefreshedCall(q: RefreshArgs, row: Row): Call {
    Call(TokenRefreshed, AsActor(q.context, row.user), None, true, FamilyMetadata(row.family))
  }

  /** The alarm raised when a rotation ends in reuse or in a device mismatch. */
  function Alarm(cfg: Settings, c: Core, q: RefreshArgs, t: Span, token: Dto, action: Action, failure: Failure)
      : Served
  {
    var user := token.row.user;
    Served(
      c.(store := RevokeUser(c.store, user, t.start, AccessTtl(cfg), t.finish, q.redisUp)),
      Refused(failure),
      [AlarmCall(q, token.row, action)],
      {UserRevoked(user, t.start)})
  }

  function IpChangeCalls(q: RefreshArgs, user: nat, previous: Option<string>): seq<Call> {
    if q.bindIp && previous.Some? && previous != q.context.ip then
      var metadata := Some([Sanitizer.Entry("previous_ip", Sanitizer.Masked(previous)),
                            Sanitizer.Entry("presented_ip", Sanitizer.Masked(q.context.ip))]);
      [Call(TokenIpChanged, AsActor(q.context, user), None, true, metadata)]
    else []
  }

  ghost function Refresh(cfg: Settings, c: Core, q: RefreshArgs, t: Span): Served {
    var (db, result) := Rotate(c.db, RotationOf(cfg, q, t.start));
    var after := c.(db := db);
    match result
    case Err(_) => Served(after, Refused(Integrity), [], {})
    case Ok(rotation) =>
      match rotation.outcome
      case BindingMismatch => Alarm(cfg, after, q, t, rotation.token.value, TokenBindingMismatch, MismatchedDevice)
      case Reused => Alarm(cfg, after, q, t, rotation.token.value, TokenReuseDetected, ReusedToken)
      case Rotated =>
        var token := rotation.token.value;
        Served(after, Issued(GrantFor(c.accounts, token.row.user, t.finish, q.jti), token),
               IpChangeCalls(q, token.row.user, rotation.previousIp) + [RefreshedCall(q, token.row)], {})
      case _ => Served(after, Refused(BadToken), [], {})
  }

  // ---------------------------------------------------------------- logout

  /** Logout of the bearer of access token `access`, presenting a refresh token. */
  datatype LogoutArgs = LogoutArgs(access: Grant, hash: string, context: Context, redisUp: bool)

  function LogoutCall(q: LogoutArgs, row: Row): Call {
    Call(Action.Logout, AsActor(q.context, row.user), None, true, FamilyMetadata(row.family))
  }

  ghost function Logout(cfg: Settings, c: Core, q: LogoutArgs, t: Span): Served {
    var ttl := RemainingTtl(Expiry(cfg, q.access), t.start);
    var store := BlockToken(c.store, q.access.jti, ttl, t.finish, q.redisUp);
    var found := Find(c.db.rows, q.hash);
    var revoked := {TokenRevoked(q.access.jti)};
    if found.None? then Served(c.(store := store), Done, [], revoked)
    else
      var row := c.db.rows[found.value];
      var db := c.db.(rows := RevokeAll(c.db.rows, OneRow(found.value), t.finish));
      Served(c.(store := store, db := db), Done, [LogoutCall(q, row)], revoked)
  }

  function LogoutAllCall(user: nat, context: Context): Call {
    var metadata := Some([Sanitizer.Entry("scope", Sanitizer.Text("all"))]);
    Call(Action.Logout, AsActor(context, user), None, true, metadata)
  }

  function LogoutAll(cfg: Settings, c: Core, user: nat, context: Context, redisUp: bool, t: Span): Served {
    Served(
      c.(store := RevokeUser(c.store, user, t.start, AccessTtl(cfg), t.finish, redisUp),
         db := c.db.(rows := RevokeAll(c.db.rows, AllOfUser(user), t.start))),
      Done,
      [LogoutAllCall(user, context)],
      {UserRevoked(user, t.start)})
  }

  // ---------------------------------------------------------------- administration

  datatype UpdateArgs = UpdateArgs(
    user: nat, email: Option<string>, password: Option<string>, active: Option<bool>, context: Context, redisUp: bool)

  function FieldsOf(q: UpdateArgs): Fields {
    (if q.email.Some? then map["email" := TextCell(q.email.value)] else map[]) +
    (if q.password.Some? then map["password" := TextCell(q.password.value)] else map[]) +
    (if q.active.Some? then map["is_active" := FlagCell(q.active.value)] else map[])
  }

  function TextValues(list: seq<string>): (r: seq<Sanitizer.Value>)
    ensures |r| == |list| && forall k :: 0 <= k < |list| ==> r[k] == Sanitizer.Text(list[k])
  {
    seq(|list|, k requires 0 <= k < |list| => Sanitizer.Text(list[k]))
  }

  function FailureOf(e: AccountError): Failure {
    match e
    case EmailTaken => EmailExists
    case NotFound => NoSuchResource
  }

  function UpdateCall(q: UpdateArgs): Call {
    var names := TextValues(Sorted(FieldsOf(q).Keys));
    Call(UserUpdate, q.context, Some(q.user), true,
         Some([Sanitizer.Entry("changed_fields", Sanitizer.ListOf(names))]))
  }

  function UpdateUser(cfg: Settings, c: Core, q: UpdateArgs, t: Span): Served {
    var fields := FieldsOf(q);
    if fields == map[] then
      Served(c, if q.user in c.accounts.users then Done else Refused(NoSuchResource), [], {})
    else
      var (accounts, result) := Accounts.UpdateUser(c.accounts, q.user, fields);
      match result
      case Err(e) => Served(c, Refused(FailureOf(e)), [], {})
      case Ok(_) =>
        var banned := q.active == Some(false);
        Served(
          c.(accounts := accounts,
             store := if banned then RevokeUser(c.store, q.user, t.start, AccessTtl(cfg), t.finish, q.redisUp)
                      else c.store),
          Done,
          [UpdateCall(q)],
          if banned then {UserRevoked(q.user, t.start)} else {})
  }

  function DeleteCall(user: nat, context: Context): Call {
    Call(UserDelete, context, Some(user), true, None)
  }

  function DeleteUser(c: Core, user: nat, context: Context): Served {
    if user !in c.accounts.users then Served(c, Refused(NoSuchResource), [], {})
    else
      Served(
        c.(accounts := Accounts.DeleteUser(c.accounts, user),
           db := c.db.(rows := RefreshTokens.DeleteUser(c.db.rows, user))),
        Done,
        [DeleteCall(user, context)],
        {})
  }

  function AssignCall(user: nat, role: nat, name: string, context: Context): Call {
    var metadata := Some([Sanitizer.Entry("role_id", Sanitizer.Number(role)),
                          Sanitizer.Entry("role_name", Sanitizer.Text(name))]);
    Call(RoleAssign, context, Some(user), true, metadata)
  }

  function AssignRole(c: Core, user: nat, role: nat, context: Context): Served {
    if user !in c.accounts.users || role !in c.accounts.roles then Served(c, Refused(NoSuchResource), [], {})
    else
      Served(c.(accounts := Accounts.AssignRole(c.accounts, user, role)), Done,
             [AssignCall(user, role, c.accounts.roles[role], context)], {})
  }

  /** The role of the configured name, if there is one. */
  ghost function DefaultRole(d: Directory, name: string): (r: Option<nat>)
    ensures r.Some? ==> r.value in RolesByName(d, name)
    ensures r.None? <==> RolesByName(d, name) == {}
  {
    if role :| role in RolesByName(d, name) then Some(role) else None
  }

  function RegisterCall(id: nat, email: string, context: Context): Call {
    Call(Action.Register, AsActor(context, id).(email := Some(CanonicalEmail(email))), None, true, None)
  }

  /** Registration under the role whose name the settings give. */
  ghost function Register(c: Core, email: string, passwordHash: string, roleName: string, context: Context): Served {
    match DefaultRole(c.accounts, roleName)
    case None => Served(c, Refused(NoRole), [], {})
    case Some(role) =>
      var (accounts, result) := CreateUserWithRole(c.accounts, email, passwordHash, role);
      match result
      case Err(e) => Served(c.(accounts := accounts), Refused(FailureOf(e)), [], {})
      case Ok(id) => Served(c.(accounts := accounts), Done, [RegisterCall(id, email, context)], {})
  }
}
