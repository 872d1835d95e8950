/** The authentication and administration services: ordered writes to the stores they share. */
module Services {
  import opened Options
  import opened Clock
  import opened SortedStrings
  import opened AccessTokens
  import opened RefreshTokens
  import opened RefreshTokenRepositories
  import opened Blocklist
  import opened BlocklistServices
  import opened Accounts
  import opened AccountStores
  import opened AuditLog
  import opened Sessions
  import opened Runs
  import Sanitizer

  /** The encoded access token, and the refresh token by its hash. */
  datatype TokenPair = TokenPair(access: Payload, refresh: string)

  predicate AnswersPair(cfg: Settings, result: Result<TokenPair, Failure>, reply: Reply) {
    match reply
    case Issued(grant, token) => result == Ok(TokenPair(Encode(cfg, grant), token.row.hash))
    case Refused(failure) => result == Err(failure)
    case Done => false
  }

  predicate AnswersUnit(result: Result<(), Failure>, reply: Reply) {
    match reply
    case Issued(_, _) => false
    case Refused(failure) => result == Err(failure)
    case Done => result == Ok(())
  }

  class AuthService {
    const cfg: Settings
    const accounts: AccountStore
    const tokens: RefreshTokenRepository
    const blocklist: BlocklistService
    const audit: AuditService

    constructor (cfg: Settings, accounts: AccountStore, tokens: RefreshTokenRepository,
                 blocklist: BlocklistService, audit: AuditService)
      ensures this.cfg == cfg && this.accounts == accounts && this.tokens == tokens
      ensures this.blocklist == blocklist && this.audit == audit
    {
      this.cfg, this.accounts, this.tokens, this.blocklist, this.audit := cfg, accounts, tokens, blocklist, audit;
    }

    ghost predicate Valid()
      reads this, accounts, tokens
    {
      tokens.Valid() && WellFormed(accounts.Data())
    }

    ghost function State(): Core
      reads this, accounts, tokens, blocklist
    {
      Core(tokens.Table(), blocklist.store, accounts.Data())
    }

    function Emails(): AuditLog.Emails
      reads this, accounts
    {
      EmailsOf(accounts.Data())
    }

    method Login(q: LoginArgs, t: Span, faults: (Fault, Fault)) returns (result: Result<TokenPair, Failure>)
      requires Valid()
      modifies tokens, audit
      ensures Valid()
      ensures
        var s := Sessions.Login(cfg, old(State()), q, t);
        && State() == s.core && AnswersPair(cfg, result, s.reply)
        && audit.Current() == RecordTrail(old(audit.Current()), s.calls, Emails(), faults)
    {
      var email := CanonicalEmail(q.email);
      if user :| user in accounts.users && accounts.users[user].email == email {
        assert Credentials(accounts.Data(), q.email) == Some(user) by {
          assert user in UsersByEmail(accounts.Data(), email);
        }
        if accounts.users[user].active && q.passwordOk {
          result := IssueTokenPair(user, q, t);
          if result.Ok? {
            var context := AsActor(q.context, user).(email := Some(accounts.users[user].email));
            var recorded := audit.Record(Call(LoginSuccess, context, None, true, None), Emails(), faults.0);
            result := if recorded.Ok? then result else Err(AuditRaised);
          }
          return;
        }
      }
      var metadata := Some([Sanitizer.Entry("email", Sanitizer.Text(q.email))]);
      var recorded := audit.Record(Call(LoginFailure, q.context, None, false, metadata), Emails(), faults.0);
      result := Err(if recorded.Ok? then BadCredentials else AuditRaised);
    }

    /** Stores the root of a new family and encodes an access token. */
    method IssueTokenPair(user: nat, q: LoginArgs, t: Span) returns (result: Result<TokenPair, Failure>)
      requires Valid()
      modifies tokens
      ensures Valid()
      ensures
        var (db, created) := Insert(old(tokens.Table()), RootRow(cfg, user, q, t.start));
        && tokens.Table() == db
        && result == match created
                     case Err(_) => Err(Integrity)
                     case Ok(dto) =>
                       Ok(TokenPair(Encode(cfg, GrantFor(accounts.Data(), user, t.finish, q.jti)), dto.row.hash))
    {
      var roles, permissions := RoleNames(accounts.Data(), user), PermissionCodes(accounts.Data(), user);
      var created := tokens.Create(
        Row(user, q.hash, q.family, None, DeviceHash(q.context.userAgent), q.context.ip,
            t.start + cfg.refreshLifetime, None));
      if created.Err? { return Err(Integrity); }
      result := Ok(TokenPair(Encode(cfg, Grant(user, roles, permissions, t.finish, q.jti)), created.value.row.hash));
    }

    method Refresh(q: RefreshArgs, t: Span, faults: (Fault, Fault)) returns (result: Result<TokenPair, Failure>)
      requires Valid()
      modifies tokens, blocklist, audit
      ensures Valid()
      ensures
        var s := Sessions.Refresh(cfg, old(State()), q, t);
        && State() == s.core && AnswersPair(cfg, result, s.reply)
        && audit.Current() == RecordTrail(old(audit.Current()), s.calls, Emails(), faults)
    {
      RotateCases(tokens.Table(), RotationOf(cfg, q, t.start));
      var rotated := tokens.Rotate(RotationOf(cfg, q, t.start));
      if rotated.Err? { return Err(Integrity); }
      var rotation := rotated.value;
      if rotation.outcome == BindingMismatch {
        var raised := RaiseAlarm(q, t, rotation.token.value, TokenBindingMismatch, faults.0);
        return Err(if raised.Ok? then MismatchedDevice else AuditRaised);
      }
      if rotation.outcome == Reused {
        var raised := RaiseAlarm(q, t, rotation.token.value, TokenReuseDetected, faults.0);
        return Err(if raised.Ok? then ReusedToken else AuditRaised);
      }
      if rotation.outcome in {Outcome.Missing, Expired} { return Err(BadToken); }
      result := AnswerRotated(q, t, rotation.token.value, rotation.previousIp, faults);
    }

    /** After a rotation: a changed address is recorded, the access token encoded, the rotation recorded. */
    method AnswerRotated(q: RefreshArgs, t: Span, token: Dto, previousIp: Option<string>, faults: (Fault, Fault))
        returns (result: Result<TokenPair, Failure>)
      modifies audit
      ensures
        var grant := GrantFor(accounts.Data(), token.row.user, t.finish, q.jti);
        result == Ok(TokenPair(Encode(cfg, grant), token.row.hash))
      ensures
        var user := token.row.user;
        var refreshed := Call(TokenRefreshed, AsActor(q.context, user), None, true, FamilyMetadata(token.row.family));
        var calls := IpChangeCalls(q, user, previousIp) + [refreshed];
        audit.Current() == RecordTrail(old(audit.Current()), calls, Emails(), faults)
    {
      var user := token.row.user;
      var changed := RecordAddressChange(q, user, previousIp, faults.0);
      result := Err(AuditRaised);
      if changed.Ok? {
        var d := accounts.Data();
        var access := Encode(cfg, Grant(user, RoleNames(d, user), PermissionCodes(d, user), t.finish, q.jti));
        var fault := if IpChangeCalls(q, user, previousIp) == [] then faults.0 else faults.1;
        var refreshed := Call(TokenRefreshed, AsActor(q.context, user), None, true, FamilyMetadata(token.row.family));
        var recorded := audit.Record(refreshed, Emails(), fault);
        if recorded.Ok? { result := Ok(TokenPair(access, token.row.hash)); }
      }
    }

    /** Records that the address has changed, if addresses are watched. */
    method RecordAddressChange(q: RefreshArgs, user: nat, previousIp: Option<string>, fault: Fault)
        returns (outcome: Result<(), Exception>)
      modifies audit
      ensures outcome == Ok(())
      ensures
        var calls := IpChangeCalls(q, user, previousIp);
        audit.Current() == RecordTrail(old(audit.Current()), calls, Emails(), (fault, fault))
    {
      outcome := Ok(());
      if q.bindIp && previousIp.Some? && previousIp != q.context.ip {
        var metadata := Some([Sanitizer.Entry("previous_ip", Sanitizer.Masked(previousIp)),
                              Sanitizer.Entry("presented_ip", Sanitizer.Masked(q.context.ip))]);
        outcome := audit.Record(Call(TokenIpChanged, AsActor(q.context, user), None, true, metadata), Emails(), fault);
      }
    }

    /** The user's epoch first, then the entry. */
    method RaiseAlarm(q: RefreshArgs, t: Span, token: Dto, action: Action, fault: Fault)
        returns (outcome: Result<(), Exception>)
      modifies blocklist, audit
      ensures outcome == Ok(())
      ensures blocklist.store ==
                RevokeUser(old(blocklist.store), token.row.user, t.start, AccessTtl(cfg), t.finish, q.redisUp)
      ensures
        var alarm := Call(action, AsActor(q.context, token.row.user), None, false, FamilyMetadata(token.row.family));
        audit.Current() == RecordEvent(old(audit.Current()), alarm, Emails(), fault).0
    {
      blocklist.RevokeUser(token.row.user, t.start, AccessTtl(cfg), t.finish, q.redisUp);
      var alarm := Call(action, AsActor(q.context, token.row.user), None, false, FamilyMetadata(token.row.family));
      outcome := audit.Record(alarm, Emails(), fault);
    }

    method Register(email: string, passwordHash: string, roleName: string, context: Context, faults: (Fault, Fault))
        returns (result: Result<(), Failure>)
      requires Valid()
      modifies accounts, audit
      ensures Valid()
      ensures
        var s := Sessions.Register(old(State()), email, passwordHash, roleName, context);
        && State() == s.core && AnswersUnit(result, s.reply)
        && audit.Current() == RecordTrail(old(audit.Current()), s.calls, Emails(), faults)
    {
      if role :| role in accounts.roles && accounts.roles[role] == roleName {
        assert RolesByName(accounts.Data(), roleName) == {role};
        CreateKeepsWellFormed(accounts.Data(), email, passwordHash, role);
        var created := accounts.CreateUserWithRole(email, passwordHash, role);
        if created.Err? { return Err(FailureOf(created.error)); }
        var actor := AsActor(context, created.value).(email := Some(CanonicalEmail(email)));
        var recorded := audit.Record(Call(Action.Register, actor, None, true, None), Emails(), faults.0);
        return if recorded.Ok? then Ok(()) else Err(AuditRaised);
      }
      assert RolesByName(accounts.Data(), roleName) == {};
      result := Err(NoRole);
    }

    method Logout(q: LogoutArgs, t: Span, faults: (Fault, Fault)) returns (result: Result<(), Failure>)
      requires Valid()
      modifies tokens, blocklist, audit
      ensures Valid()
      ensures
        var s := Sessions.Logout(cfg, old(State()), q, t);
        && State() == s.core && AnswersUnit(result, s.reply)
        && audit.Current() == RecordTrail(old(audit.Current()), s.calls, Emails(), faults)
    {
      var ttl := RemainingTtl(ExpirySeconds(cfg, q.access) * SECOND, t.start);
      blocklist.BlockToken(q.access.jti, ttl, t.finish, q.redisUp);
      result := Ok(());
      var token := tokens.GetByHash(q.hash);
      if token.Some? {
        tokens.Revoke(token.value.id, t.finish);
        var row := token.value.row;
        var ended := Call(Action.Logout, AsActor(q.context, row.user), None, true, FamilyMetadata(row.family));
        var recorded := audit.Record(ended, Emails(), faults.0);
        result := if recorded.Ok? then Ok(()) else Err(AuditRaised);
      }
    }

    method LogoutAll(user: nat, context: Context, redisUp: bool, t: Span, faults: (Fault, Fault))
        returns (result: Result<(), Failure>)
      requires Valid()
      modifies tokens, blocklist, audit
      ensures Valid()
      ensures
        var s := Sessions.LogoutAll(cfg, old(State()), user, context, redisUp, t);
        && State() == s.core && AnswersUnit(result, s.reply)
        && audit.Current() == RecordTrail(old(audit.Current()), s.calls, Emails(), faults)
    {
      blocklist.RevokeUser(user, t.start, AccessTtl(cfg), t.finish, redisUp);
      tokens.RevokeUser(user, t.start);
      var metadata := Some([Sanitizer.Entry("scope", Sanitizer.Text("all"))]);
      var ended := Call(Action.Logout, AsActor(context, user), None, true, metadata);
      var recorded := audit.Record(ended, Emails(), faults.0);
      result := if recorded.Ok? then Ok(()) else Err(AuditRaised);
    }
  }

  class AdminService {
    const auth: AuthService

    constructor (auth: AuthService)
      ensures this.auth == auth
    {
      this.auth := auth;
    }

    /** The dictionary of changed columns, filled one argument at a time. */
    method CollectFields(q: UpdateArgs) returns (fields: Fields)
      ensures fields == FieldsOf(q)
    {
      fields := map[];
      if q.email.Some? { fields := fields["email" := TextCell(q.email.value)]; }
      if q.password.Some? { fields := fields["password" := TextCell(q.password.value)]; }
      if q.active.Some? { fields := fields["is_active" := FlagCell(q.active.value)]; }
    }

    method UpdateUser(q: UpdateArgs, t: Span, faults: (Fault, Fault)) returns (result: Result<(), Failure>)
      requires auth.Valid()
      modifies auth.accounts, auth.blocklist, auth.audit
      ensures auth.Valid()
      ensures
        var s := Sessions.UpdateUser(auth.cfg, old(auth.State()), q, t);
        && auth.State() == s.core && AnswersUnit(result, s.reply)
        && auth.audit.Current() == RecordTrail(old(auth.audit.Current()), s.calls, auth.Emails(), faults)
    {
      var fields := CollectFields(q);
      if fields == map[] {
        return if q.user in auth.accounts.users then Ok(()) else Err(NoSuchResource);
      }
      UpdateKeepsWellFormed(auth.accounts.Data(), q.user, fields);
      var updated := auth.accounts.Update(q.user, fields);
      if updated.Err? { return Err(FailureOf(updated.error)); }
      if q.active == Some(false) {
        auth.blocklist.RevokeUser(q.user, t.start, AccessTtl(auth.cfg), t.finish, q.redisUp);
      }
      var changed := Some([Sanitizer.Entry("changed_fields", Sanitizer.ListOf(TextValues(Sorted(fields.Keys))))]);
      var update := Call(Action.UserUpdate, q.context, Some(q.user), true, changed);
      var recorded := auth.audit.Record(update, auth.Emails(), faults.0);
      result := if recorded.Ok? then Ok(()) else Err(AuditRaised);
    }

    method DeleteUser(user: nat, context: Context, faults: (Fault, Fault)) returns (result: Result<(), Failure>)
      requires auth.Valid()
      modifies auth.accounts, auth.tokens, auth.audit
      ensures auth.Valid()
      ensures
        var s := Sessions.DeleteUser(old(auth.State()), user, context);
        && auth.State() == s.core && AnswersUnit(result, s.reply)
        && auth.audit.Current() == RecordTrail(old(auth.audit.Current()), s.calls, auth.Emails(), faults)
    {
      DeleteKeepsWellFormed(auth.accounts.Data(), user);
      var deleted := auth.accounts.Delete(user);
      if !deleted { return Err(NoSuchResource); }
      auth.tokens.DeleteOwnedBy(user);
      var recorded := auth.audit.Record(Call(UserDelete, context, Some(user), true, None), auth.Emails(), faults.0);
      result := if recorded.Ok? then Ok(()) else Err(AuditRaised);
    }

    method AssignRole(user: nat, role: nat, context: Context, faults: (Fault, Fault))
        returns (result: Result<(), Failure>)
      requires auth.Valid()
      modifies auth.accounts, auth.audit
      ensures auth.Valid()
      ensures
        var s := Sessions.AssignRole(old(auth.State()), user, role, context);
        && auth.State() == s.core && AnswersUnit(result, s.reply)
        && auth.audit.Current() == RecordTrail(old(auth.audit.Current()), s.calls, auth.Emails(), faults)
    {
      if user !in auth.accounts.users || role !in auth.accounts.roles { return Err(NoSuchResource); }
      auth.accounts.AssignRole(user, role);
      var metadata := Some([Sanitizer.Entry("role_id", Sanitizer.Number(role)),
                            Sanitizer.Entry("role_name", Sanitizer.Text(auth.accounts.roles[role]))]);
      var recorded := auth.audit.Record(Call(RoleAssign, context, Some(user), true, metadata), auth.Emails(), faults.0);
      result := if recorded.Ok? then Ok(()) else Err(AuditRaised);
    }
  }
}
