# Session protocol of the Django Ninja RBAC backend, in Dafny

The backend keeps its sessions in two stores. A PostgreSQL table holds hashed refresh tokens: a login
opens a *family*, a refresh consumes the one unrevoked row of a family and inserts its child, and a
token that is presented twice, or from another device, revokes the whole family. Redis holds
revocations of access tokens, which are otherwise stateless: one expiring key per token and one
expiring, overwritten epoch per user. The authentication service and the JWT guard tie the two
together. This project models those parts, the metadata sanitizer of the audit log and the scan of
forwarded addresses, and proves what they promise over whole runs and under every schedule of
concurrent rotations.

## How the model is built

Every file holds the module of its name.

| files | what they hold |
|---|---|
| `Options`, `Clock`, `Texts`, `SortedStrings`, `Fresh` | options and results, the clock, strings, sorted sets, values not yet in use |
| `RefreshTokens`, `FamilyChains` | the refresh-token table, its statements, its invariant, and the chain it implies |
| `RefreshTokenRepositories` | the repository object, proved against the statements |
| `Decimals`, `AccessTokens` | claims: decimal subject, encoding, decoding |
| `Blocklist`, `Guard`, `BlocklistServices` | the Redis keys and the ideal store; the guard; the blocklist object |
| `Accounts`, `AccountTheorems`, `AccountStores` | users, roles, permissions, and who holds what; the account tables as an object |
| `SensitiveKeys`, `Sanitizer`, `AuditLog` | the key classifier, the sanitizer, the audit log and its service |
| `ClientAddress` | the forwarded-address scan |
| `Sessions`, `CallTheorems`, `Services` | each service call as one step, and what it answers, writes and records; the service objects |
| `Runs` | runs of calls and the invariant they keep |
| `AuditEffects` | the calls as ordered effects that an exception of the audit log would cut short |
| `RevocationTheorems`, `FamilyTheorems`, `DeviceTheorems`, `LedgerTheorems`, `AccessTheorems` | theorems over runs |
| `DeactivationTheorems`, `DeactivationSample` | what deactivation and deletion end, and exactly when; a run |
| `RotationSchedule`, `RotationTheorems`, `SerialRotation` | rotations and logouts statement by statement, under any schedule |
| `PresenterTheorems` | what each concurrent presenter of a token gets |
| `SweepCoverage`, `SweepEvasions` | what every sweep guarantees, and how a rotation that commits first evades one |
| `FamilySweeps`, `UserSweeps` | exactly when a family revocation, or a logout of all sessions, is certain to end what it sweeps |

Conventions:

- Time is integer microseconds on one clock that never goes back. A service call is one step that
  reads the clock when it starts and when it is done; in between nothing else runs. The access
  lifetime is a whole positive number of seconds, since the settings only accept minutes, hours and
  days. A Redis key set at `t` with lifetime `s` seconds is readable while `now < t + s`.
- A raw refresh token is represented by its hash, a device hash by the normalised user agent: SHA-256
  is taken to be injective. Only tokens that the service granted decode. Family ids and token ids are
  new when they are generated; refresh-token hashes may collide, in which case the insert fails.
- The repository, the blocklist, the account tables, the audit log and the services are classes whose
  methods update their fields. Each method equates the new state with a pure function of the old
  state, and the theorems are about those functions.
- An exception is a result that the caller has to look at: a recording of the audit log can raise in
  its lookup, its sanitization or its write, and `AuditEffects` and the service methods pass a raise on
  by skipping what comes after it. `Serve` is the simple form of a call without exceptions, over which
  the theorems about runs are stated; `ReplayIsExec` ties the two together.
- In the schedules of statements the instant of a rotation is read before its transaction begins, as
  in the source, so it may lie before the instants of statements that have already run. The device
  hash that a rotation presents is absent or non-empty there as well.
- `Good` is the invariant of every run, whatever Redis loses. `Agreeing` is the further half that
  needs every Redis write to have been answered.
- `EditAccess` lets role tables change from outside the services (migrations, the admin site), so
  that permissions can also be taken away.

## What came out

- **The two revocation stores agree.** While Redis answers, the guard accepts a token exactly when a
  store that never forgets would (`GuardRefinesIdeal`). Under faults only one direction is left: it
  never refuses a token the ideal store accepts (`FaultsNeverRefuse`), and a revoked token dies of
  age at most one access lifetime later (`ExposureBound`). With Redis out of reach it accepts exactly
  the unexpired tokens (`GuardFailsOpen`).
- **At most one rotation per token, always.** Under every schedule of statements
  (`RotatedAtMostOnce`), and under every schedule each family of the committed rows stays one chain of
  one user with at most one unrevoked row, its tip (`CommittedFamilies`).
- **The second presenter gets to know.** A presenter that finds the row locked waits; it ends with the
  outcome that the committed row gives when nobody else has it locked (`OutcomeWasJust`), and rolls back
  only when it is made to or when its insert collides (`RolledBackOnlyBy`). So who presents a token that
  another rotation consumes meanwhile ends with detected reuse and nothing else, under every schedule,
  and can always be brought there (`SecondPresenterReportsReuse`, `NoWaitIsForEver`).
- **The first device that identifies itself in a session is the last.** Once it has been issued a pair,
  no refresh with the binding switch on that presents another device, or none, is issued one
  (`DeviceIsFinal`).
- **Detected reuse can miss a child; a device mismatch cannot.** The row lock covers the presented row
  only, and the `UPDATE` of the family does not see a sibling's uncommitted child.
  `SweepEndsFamilyIff` says exactly when a family revocation is certain to end the family, read from
  the table when it begins: when the family has no unrevoked row, or when the presented row is the
  unrevoked one. The second is every device mismatch. So only the detection of reuse can fail, and
  only in a family that still has an unrevoked row, by a rotation of that row that commits first
  (`SurvivorWasRotated`); `ReuseCanLeaveLiveRow` runs through such a schedule. The rotation that evades
  the sweep is one the service issues: a full refresh lifetime, the binding switch as it stands, the
  device the row is bound to. The promise of ADR 0002 that reuse revokes the
  whole family holds without exception when each call is one step (`TheftEndsFamily`).
- **A logout of all sessions can miss a child in the same way.** Its `UPDATE` locks nothing first, so
  it is certain to end every session exactly if every row of the user is revoked already
  (`LogoutAllEndsSessionsIff`). When each call is one step it is final
  (`LogoutAllEndsFamilies`, `LogoutAllRefusesTokens`).
- **Audit failures change nothing but the audit log.** A lookup, a sanitization or a write that raises
  is caught inside the recording (`NoRaiseEscapes`), so every call writes the same tables and the same
  Redis and gives the same answer (`AuditNonInterference`). Without the outer handler a caller would
  lose its answer, and a rotated pair with it, but no store would differ, since all stores are written
  before anything is recorded (`AnswerWithoutHandler`).
- **Deactivation ends the sessions only if there is none to refresh.** It writes the epoch and leaves
  the refresh tokens, and `refresh` does not look at the active flag. So an inactive user cannot log in
  but can refresh (`BarredIssuesByRefresh`). `DeactivationEndsSessionsIff` gives the exact condition on
  the table: no continuation grants the user another access token if and only if every row of the user
  is revoked or has expired when the call is done. While Redis answers, the same condition decides
  whether the user is locked out, that is, whether every token it ever had or gets is refused from then
  on (`DeactivationLocksOutIff`). A refreshed token is accepted exactly from the next whole second after
  the deactivation on (`DeactivatedUserRefreshes`; `BannedSessionGoesOn` is such a run).
- **Deletion ends the families, not the tokens.** A deleted user is never granted another access token
  (`DeletionEndsFamilies`, `DeletedUserKeepsTokens`), but nothing is written to Redis: the guard answers
  for every token what it answered before.
- **Logout ends a family only with its tip.** It revokes the presented row alone
  (`LogoutEndsFamily`).
- ADR 0008 gives every blocklist key the full access lifetime; the code gives a token key the
  remaining lifetime of the token, rounded up, and the model follows the code.

## Model

| member | source | states |
|---|---|---|
| RefreshTokenRepositories.RefreshTokenRepository.Rotate | apps/authz/repositories/refresh_tokens.py:98-150 | the transaction with its five outcomes leaves the table and returns the result of the one-step rotation; a hash collision restores the rows |
| RefreshTokenRepositories.RefreshTokenRepository.GetByHash | apps/authz/repositories/refresh_tokens.py:29-34 | answers the row with the hash, if there is one |
| RefreshTokenRepositories.RefreshTokenRepository.Create | apps/authz/repositories/refresh_tokens.py:36-57 | inserts a row under the next id unless the hash is taken |
| RefreshTokenRepositories.RefreshTokenRepository.Revoke | apps/authz/repositories/refresh_tokens.py:59-63 | revokes one row if it is unrevoked and touches no other |
| RefreshTokenRepositories.RefreshTokenRepository.RevokeFamily | apps/authz/repositories/refresh_tokens.py:65-69 | revokes exactly the unrevoked rows of a family |
| RefreshTokenRepositories.RefreshTokenRepository.RevokeUser | apps/authz/repositories/refresh_tokens.py:71-75 | revokes exactly the unrevoked rows of a user |
| RefreshTokenRepositories.RefreshTokenRepository.DeleteOwnedBy | apps/authz/models.py:62-69 | the cascade of a user deletion, with orphaned children losing their parent link |
| RefreshTokens.RotateKeepsSound | apps/authz/repositories/refresh_tokens.py:114-150 | rotation keeps the table invariant: one owner and one chain per family, at most one unrevoked row which is its last, inherited device, sliding expiry |
| RefreshTokens.RevokeKeepsSound | apps/authz/repositories/refresh_tokens.py:59-75 | each revoking query keeps the table invariant |
| RefreshTokens.RootKeepsSound | apps/authz/services/auth.py:222-236 | inserting the root of a new family keeps the table invariant |
| RefreshTokens.DeleteKeepsSound | apps/authz/models.py:62-69 | the cascade keeps the table invariant and changes no surviving row |
| FamilyChains.FamilyIsOneChain | apps/authz/repositories/refresh_tokens.py:137-145 | the rows of a family form one parent chain from a single root; only the tip can be unrevoked |
| FamilyChains.DeviceAndExpiryAlongChain | apps/authz/repositories/refresh_tokens.py:137-145 | a device hash once set is the one of all later rows, and expiries never move back |
| FamilyChains.RotationsWithinLifetime | apps/authz/repositories/refresh_tokens.py:121-145 | consecutive rows were issued less than a refresh lifetime apart, and the parent was revoked when the child was issued |
| Clock.EpochRounding | apps/authz/security/blocklist.py:40-54 | with the issue time rounded down and the epoch up, every token issued before a revocation is below the epoch, none from the next whole second on is, and the excess is under a second |
| Decimals.ReadShow | apps/authz/api/auth.py:53-58 | the user id survives its text form in the subject claim |
| SortedStrings.Sorted | apps/authz/security/jwt.py:48-49 | the set listed in strictly increasing order with exactly its elements |
| AccessTokens.TokenInstants | apps/authz/security/jwt.py:39-46 | the issue time is the instant without its fraction of a second, the expiry one access lifetime later |
| AccessTokens.DecodesIff | apps/authz/security/jwt.py:55-99 | exactly which payloads decode: six claims of the right types, non-empty texts, and an instant from the issue time up to the expiry |
| AccessTokens.DecodeEncode | apps/authz/security/jwt.py:29-99 | a granted token decodes to its subject, roles and permissions until one access lifetime after its truncated issue time, and not from then on |
| BlocklistServices.BlocklistService.BlockToken | apps/authz/security/blocklist.py:26-33 | sets the token key for the lifetime, unless the lifetime is not positive or Redis fails |
| BlocklistServices.BlocklistService.RevokeUser | apps/authz/security/blocklist.py:35-44 | overwrites the user's epoch with the instant rounded up |
| BlocklistServices.BlocklistService.IsBlocked | apps/authz/security/blocklist.py:46-57 | blocked by a live token key, or by a live epoch above the issue time; a failed read blocks nothing |
| Blocklist.KeysAfterWrite | apps/authz/security/blocklist.py:26-44 | a write that Redis answers leaves the one key for exactly its lifetime and no other changed; a lost or useless one changes nothing |
| Blocklist.RevokeUserAgrees | apps/authz/security/blocklist.py:35-44 | overwriting the epoch with a later one keeps both halves of the agreement with the ideal store |
| Blocklist.BlockTokenAgrees | apps/authz/services/auth.py:192-193 | a logout's token key, computed at one instant and written at a later one, keeps both halves of the agreement |
| Blocklist.TokenKeyLifetime | apps/authz/api/routers/auth.py:52-53 | no key is written only for an expired token; otherwise it lives at least to the expiry, and less than a second longer when written at once |
| Blocklist.BlockedAgrees | apps/authz/security/blocklist.py:46-57 | on an unexpired token the lookup and the ideal store agree |
| Guard.AuthenticateGrant | apps/authz/api/auth.py:49-68 | on a granted token the guard answers with exactly the granted identity, roles and permissions until expiry or block |
| Guard.GuardReadsKeys | apps/authz/security/blocklist.py:46-57 | an issued token is accepted until one access lifetime after its truncated issue time, unless a Redis that answers holds its key or an epoch above that time |
| Guard.GuardFailsOpen | apps/authz/security/blocklist.py:55-57 | with Redis out of reach exactly the unexpired tokens are accepted, whatever the store holds |
| Guard.AuthenticatesIff | apps/authz/api/auth.py:49-68 | exactly which payloads authenticate, and as whom |
| Guard.PermitsGranted | apps/authz/api/auth.py:71-77 | a permission check passes exactly for an accepted token that was granted with the code |
| RevocationTheorems.UnreadableRedisAccepts | apps/authz/security/blocklist.py:55-57 | in every reachable state a guard whose read fails accepts exactly the unexpired tokens |
| RevocationTheorems.GuardRefinesIdeal | apps/authz/api/auth.py:49-68 | in every reachable state with Redis answering, the guard accepts exactly what a store that never forgets accepts |
| RevocationTheorems.FaultsNeverRefuse | apps/authz/security/blocklist.py:30-57 | whatever writes are lost and reads fail, no token the ideal store accepts is refused |
| RevocationTheorems.ExposureBound | apps/authz/security/jwt.py:43-46 | when a call at T revokes tokens, none of them is accepted at or after T plus the access lifetime, in any continuation and whatever Redis loses |
| RevocationTheorems.RevokedForEver | apps/authz/security/blocklist.py:35-57 | a revocation once asked for is honoured in every later state |
| RevocationTheorems.LogoutSealsToken | apps/authz/api/routers/auth.py:91-101 | after a logout the bearer's access token is refused at every later instant of every run |
| SensitiveKeys.SensitiveIffSegment | apps/audit/services.py:19-21 | the pattern flags a key exactly when a segment of the rewritten key is a sensitive word ignoring case |
| SensitiveKeys.RewriteProperties | apps/audit/services.py:118-120 | the camel-case rewrite only inserts underscores, leaves no hump, and is idempotent |
| SensitiveKeys.RewritePuts | apps/audit/services.py:119 | the rewritten key is the key with one underscore in each hump and nothing else |
| SensitiveKeys.WordIsFlagged | apps/audit/services.py:19-21 | a sensitive word is flagged alone and behind or before either delimiter |
| SensitiveKeys.CamelWordIsFlagged | apps/audit/services.py:118-120 | and with a capital at the end of a camel-case key |
| SensitiveKeys.CredentialKeys | apps/audit/services.py:19-21 | the five words of the pattern are flagged |
| Sanitizer.SanitizedShape | apps/audit/services.py:106-111 | a leaf is kept as it is, a mapping keeps its plain keys in order, a list or tuple becomes a list of the same length |
| Sanitizer.LeavesKept | apps/audit/services.py:83-91 | every leaf behind plain keys is still there, unchanged |
| Sanitizer.SanitizedPaths | apps/audit/services.py:83-111 | a path through plain keys leads to the sanitized value it led to before; a path through a sensitive key leads nowhere |
| Sanitizer.SanitizeTwice | apps/audit/services.py:106-111 | sanitizing a value twice is sanitizing it once |
| Sanitizer.SanitizeItems | apps/audit/services.py:109-110 | lists keep their length and order |
| AuditLog.AuditService.FillActorEmail | apps/audit/services.py:69-80 | fills a missing actor email; a lookup that raises leaves a warning and the context as it was |
| AuditLog.AuditService.TryRecord | apps/audit/services.py:48-63 | lookup, sanitization and write in order, ended by the first exception that is not caught |
| AuditLog.AuditService.Record | apps/audit/services.py:36-67 | appends one sanitized entry, or a warning when sanitizing or writing raises, and raises nothing itself |
| AuditLog.NoRaiseEscapes | apps/audit/services.py:48-80 | whatever raises, no exception leaves a recording, and each call leaves either its entry or one warning that it was lost |
| AuditLog.EntryTellsCall | apps/audit/services.py:48-63 | a recording appends one entry with the action, actor, email, target, outcome, address, cut user agent and request id of the call |
| AuditLog.WarningsTell | apps/audit/services.py:64-77 | the warnings of a recording: one for a lookup that raises, one for an entry that is lost |
| AuditLog.StoredField | apps/audit/services.py:50-52 | an entry answers for a key what the caller passed, unless the key is sensitive |
| ClientAddress.PeerAnswers | apps/audit/context.py:42-52 | without a peer there is no address; an unparsable peer is answered as it is; behind an untrusted peer, and without a header or a client entry in it, the answer is the peer |
| ClientAddress.EntriesBetweenCommas | apps/audit/context.py:53 | the entries are what stands between the commas, in order |
| ClientAddress.ForwardedClient | apps/audit/context.py:52-61 | behind a trusted peer the answer is the rightmost entry that parses and is not a trusted proxy |
| ClientAddress.ScanFallsBack | apps/audit/context.py:55-62 | with no such entry the answer is the peer |
| ClientAddress.PrefixIgnored | apps/audit/context.py:40-62 | text and a comma in front of a header that has such an entry never change the answer |
| Accounts.RolesAndPermissionsHeld | apps/authz/repositories/rbac.py:66-76 | the queries answer exactly the roles the user is linked to and the permissions linked to those roles |
| AccountTheorems.CanonicalSpelling | apps/accounts/models.py:16-18 | an address in canonical form is the given one in lower case, without the blanks around it |
| AccountTheorems.RegistrationGivesRole | apps/authz/repositories/rbac.py:24-32 | a registration succeeds exactly for a free address; the new user is active, has the password hash and holds exactly the one role |
| AccountTheorems.AssignmentGivesRole | apps/authz/repositories/rbac.py:78-81 | a role link gives that user the role and what it carries, and nobody anything else |
| AccountTheorems.GrantGivesPermission | apps/authz/repositories/rbac.py:83-90 | a permission link gives the permission to exactly the users with the role |
| AccountTheorems.DeletionTakesRoles | apps/accounts/repositories/users.py:62-65 | a deleted user is gone and holds nothing; everybody else is as before |
| AccountTheorems.UpdateWritesColumns | apps/accounts/repositories/users.py:53-60 | an update fails exactly on a missing user or another user's address; otherwise it writes the given columns and no other |
| Accounts.CreateKeepsWellFormed | apps/authz/repositories/rbac.py:24-32 | creating a user with its role keeps ids in sequence and emails unique |
| Accounts.UpdateKeepsWellFormed | apps/accounts/repositories/users.py:53-60 | updating a user keeps emails unique |
| AccountStores.AccountStore.CreateUserWithRole | apps/authz/repositories/rbac.py:24-32 | inserts the user and its role link together, or neither when the email is taken |
| AccountStores.AccountStore.AssignRole | apps/authz/repositories/rbac.py:78-81 | adds the role link if it is missing |
| AccountStores.AccountStore.GrantPermission | apps/authz/repositories/rbac.py:83-90 | adds the permission link if it is missing |
| AccountStores.AccountStore.Update | apps/accounts/repositories/users.py:53-60 | writes the given columns, with the email in canonical form and unique |
| AccountStores.AccountStore.Delete | apps/accounts/repositories/users.py:62-65 | removes the user and its role links |
| Sessions.DeviceHash | apps/authz/security/binding.py:8-12 | a device hash is absent or non-empty |
| Sessions.DeviceOfAgent | apps/authz/security/binding.py:8-12 | it is absent exactly for no agent or one of blanks only; case does not matter to it, and everything else does |
| Sessions.DeviceIgnoresBlanks | apps/authz/security/binding.py:10-12 | nor do blanks around the agent |
| CallTheorems.LoginReplies | apps/authz/services/auth.py:84-100 | a login succeeds exactly if an active user has the address, the password is right and the hash is free; the grant and the root row it makes; otherwise no row is stored |
| CallTheorems.LoginRecords | apps/authz/services/auth.py:91-104 | success is recorded under the user, failure under the given address |
| CallTheorems.RefreshContinues | apps/authz/services/auth.py:107-177 | a refresh that issues consumes the presented row and stores its child: owner, family and a set device stay, an unset one is the presented one, the expiry is a full lifetime away; the grant |
| CallTheorems.RefreshRecords | apps/authz/services/auth.py:152-180 | the refresh is recorded, and before it a changed address exactly when addresses are watched and a known one differs |
| CallTheorems.RefreshAlarms | apps/authz/services/auth.py:119-146 | reuse and mismatch revoke exactly the unrevoked rows of the family and the user's access tokens |
| CallTheorems.AlarmRecords | apps/authz/services/auth.py:126-131 | and record the failure under the user and the family |
| CallTheorems.RefreshRefusals | apps/authz/services/auth.py:147-148 | every other refusal changes no row, writes nothing to Redis and records nothing |
| CallTheorems.LogoutEffects | apps/authz/services/auth.py:183-202 | a logout always succeeds, blocks the access token for what is left of its life and revokes the presented row alone |
| CallTheorems.LogoutAllEffects | apps/authz/services/auth.py:204-213 | a logout of all sessions revokes exactly the unrevoked rows of the user and the access tokens |
| CallTheorems.UpdateReplies | apps/accounts/services/admin.py:113-137 | an update is refused exactly for a missing user or another user's address; it writes what was given, and a re-activation activates |
| CallTheorems.UpdateRevokes | apps/accounts/services/admin.py:138-143 | a deactivation revokes the user's access tokens, and no other update revokes anything |
| CallTheorems.UpdateRecords | apps/accounts/services/admin.py:144-150 | the names of the given columns are recorded in order |
| CallTheorems.DeleteReplies | apps/accounts/services/admin.py:153-162 | a deletion is refused exactly for a missing user; it takes the user, the links and exactly the user's rows |
| CallTheorems.AssignReplies | apps/accounts/services/admin.py:164-177 | an assignment is refused exactly for a missing user or role; it gives the role and what it carries |
| CallTheorems.RegisterReplies | apps/authz/services/auth.py:60-82 | a registration is refused exactly without the configured role or for a taken address; it creates an active user with that role |
| Services.AuthService.Login | apps/authz/services/auth.py:84-105 | the stores, the pair and the audit log after a login, accepted or refused |
| Services.AuthService.IssueTokenPair | apps/authz/services/auth.py:222-244 | stores the root row and encodes the user's roles and permissions |
| Services.AuthService.Refresh | apps/authz/services/auth.py:107-181 | the stores, the reply and the audit log after a refresh, for each outcome and whatever audit accesses fail |
| Services.AuthService.AnswerRotated | apps/authz/services/auth.py:152-181 | after a rotation the pair is returned whatever the recordings meet: a changed address first, then the refresh |
| Services.AuthService.RecordAddressChange | apps/authz/services/auth.py:152-164 | one entry when addresses are watched and a known one differs, otherwise none |
| Services.AuthService.RaiseAlarm | apps/authz/services/auth.py:119-146 | reuse and mismatch write the user's epoch and then one audit entry |
| Services.AuthService.Register | apps/authz/services/auth.py:60-82 | the accounts, the answer and the audit trail after a registration; a missing default role and a taken email are told apart |
| Services.AuthService.Logout | apps/authz/services/auth.py:183-202 | blocks the access token, revokes the presented row if there is one, records it |
| Services.AuthService.LogoutAll | apps/authz/services/auth.py:204-213 | writes the epoch and revokes every row of the user |
| Services.AdminService.CollectFields | apps/accounts/services/admin.py:123-129 | the dictionary of the columns that were given |
| Services.AdminService.UpdateUser | apps/accounts/services/admin.py:113-151 | updates the user, and writes the epoch exactly on deactivation |
| Services.AdminService.DeleteUser | apps/accounts/services/admin.py:153-162 | removes the user with its links and rows, and writes nothing to Redis |
| Services.AdminService.AssignRole | apps/accounts/services/admin.py:164-177 | links an existing role to an existing user |
| Runs.StepKeepsGood | apps/authz/services/auth.py:84-213 | every call keeps the invariant of both stores, and their agreement when Redis answers |
| Runs.RunKeepsGood | apps/authz/services/auth.py:84-213 | so does every run |
| Runs.ReachableIsGood | apps/authz/services/auth.py:84-213 | hence the invariant holds in every state a legal run leads to, and the agreement when Redis answered throughout |
| FamilyTheorems.ReachableFamilies | apps/authz/repositories/refresh_tokens.py:36-150 | in every reachable state every family is one chain whose only unrevoked row is its tip |
| FamilyTheorems.ReachableDevices | apps/authz/repositories/refresh_tokens.py:123-145 | in every reachable state devices and expiries behave along a family as in the chain, whatever the switch was |
| FamilyTheorems.BoundRotationPresentsDevice | apps/authz/repositories/refresh_tokens.py:123-133 | with the switch on, a bound row rotates only for its device |
| DeviceTheorems.RunKeepsBound | apps/authz/repositories/refresh_tokens.py:137-145 | a family whose rotatable row is bound to a device stays so in every run |
| DeviceTheorems.DeviceIsFinal | apps/authz/repositories/refresh_tokens.py:123-145 | once a login or a refresh of an unbound family has issued a pair to a device, no refresh with the switch on from another one, or from none, is issued a pair for that family at any later point |
| FamilyTheorems.StepKeepsSpent | apps/authz/repositories/refresh_tokens.py:114-122 | a call revives no revoked or expired family and hands out no pair for it |
| FamilyTheorems.SpentForEver | apps/authz/repositories/refresh_tokens.py:114-150 | nor does any run; a family without unrevoked rows never has one again |
| FamilyTheorems.UnrotatedFamilyEnds | apps/authz/repositories/refresh_tokens.py:121-122 | a family left unrotated until its tip expires never issues a pair again |
| FamilyTheorems.LogoutEndsFamily | apps/authz/services/auth.py:194-197 | a logout ends the family exactly when it presents the unrevoked tip, or the family had ended |
| FamilyTheorems.TheftEndsFamily | apps/authz/services/auth.py:119-146 | after reuse or mismatch the family is revoked and silent for ever and the other families are untouched, whatever Redis does |
| FamilyTheorems.TheftResponse | apps/authz/services/auth.py:119-146 | and while Redis answers, every access token of the user granted before T is refused for ever as well |
| FamilyTheorems.LogoutAllEndsFamilies | apps/authz/services/auth.py:204-208 | after a logout of all sessions no family the user has rows in hands out a pair again, whatever Redis does |
| FamilyTheorems.LogoutAllRefusesTokens | apps/authz/services/auth.py:204-208 | and while Redis answers, every access token granted to the user before it is refused for ever |
| FamilyTheorems.RevokedRowIsFrozen | apps/authz/repositories/refresh_tokens.py:59-75 | once revoked a row is never written again in any run, and its id is never reused |
| FamilyTheorems.RefreshReplies | apps/authz/repositories/refresh_tokens.py:109-150 | each reply of a refresh happens exactly under its condition on the presented row |
| FamilyTheorems.ReplayDetected | apps/authz/repositories/refresh_tokens.py:114-120 | a consumed or revoked token is reported as reused at every later point of every run while its row is stored |
| LedgerTheorems.RowsReconcile | apps/authz/services/auth.py:98-181 | without user deletion a family has as many rows as pairs handed out: one login and its rotations |
| LedgerTheorems.LogReconciles | apps/authz/services/auth.py:166-181 | if no audit write fails the log holds one refresh entry per row that is not a root |
| LedgerTheorems.FamilyIdIsPlain | apps/audit/services.py:118-120 | the key that names the family survives the sanitizer |
| AccessTheorems.PermissionStaleness | apps/authz/api/auth.py:71-77 | a permission the guard honours was linked to a role of the user less than one access lifetime ago |
| AccessTheorems.GrantedAlongTrace | apps/authz/repositories/rbac.py:66-76 | a grant carries exactly the roles its user was linked to at its instant, and the permissions linked to those |
| DeactivationTheorems.BarredIssuesByRefresh | apps/authz/services/auth.py:90-118 | an inactive or deleted user is refused a login and handed a token exactly by refreshing a row that can be rotated |
| DeactivationTheorems.RunLeavesNoLiveRow | apps/authz/services/auth.py:84-181 | an inactive user without a live row is granted nothing in any continuation that does not activate it again |
| DeactivationTheorems.DeactivationEndsSessionsIff | apps/accounts/services/admin.py:123-143 | a deactivation ends the user's sessions in every continuation, whatever Redis loses, exactly if every row of the user is revoked or has expired when it is done |
| DeactivationTheorems.DeactivationLocksOutIff | apps/accounts/services/admin.py:138-143 | while Redis answers, exactly then every access token of the user, old or new, is refused until it is activated again |
| DeactivationTheorems.DeactivatedUserRefreshes | apps/accounts/services/admin.py:138-143 | at any later point before a re-activation or a further revocation, a call hands the inactive user a token exactly if it refreshes a row that can be rotated, accepted exactly from the next whole second after the deactivation on |
| DeactivationTheorems.DeletionEndsFamilies | apps/accounts/services/admin.py:153-162 | deletion ends the user's families for ever |
| DeactivationTheorems.DeletedUserKeepsTokens | apps/accounts/services/admin.py:153-162 | a deleted user is granted nothing in any continuation, and the deletion changes no answer of the guard |
| DeactivationSample.BannedSessionGoesOn | apps/authz/services/auth.py:107-118 | a run of login, deactivation and refresh in which the inactive user gets an accepted access token |
| AuditEffects.AnswerIsServed | apps/authz/services/auth.py:84-213 | a call performed effect by effect, with every exception its recordings meet, does and answers what its simple form does; every event is accounted for |
| AuditEffects.AnswerWithoutHandler | apps/audit/services.py:64-67 | without the outer handler the stores would be the same and the answer lost exactly when an entry is lost |
| AuditEffects.ReplayIsExec | apps/authz/services/auth.py:84-213 | runs with effects and exceptions end as the runs of the other theorems |
| AuditEffects.AuditNonInterference | apps/audit/services.py:48-80 | runs of the same requests that differ in what raises end with the same tables and Redis and the same answers, none of them an exception |
| RotationSchedule.ActKeepsInv | apps/authz/repositories/refresh_tokens.py:98-150 | every statement of every concurrent rotation keeps the invariant, and committed rows only gain a revocation |
| RotationSchedule.PlayKeepsInv | apps/common/db.py:11-15 | so does every schedule of statements, commits and rollbacks |
| RotationTheorems.StartIsSound | apps/authz/models.py:59-80 | a table that satisfies the table invariant starts the machine |
| RotationTheorems.RotatedAtMostOnce | apps/authz/repositories/refresh_tokens.py:107-150 | under every schedule a presented hash is rotated by at most one transaction |
| RotationTheorems.CommittedRows | apps/authz/repositories/refresh_tokens.py:135-145 | at every point each row has at most one child, and a committed revocation never changes |
| RotationTheorems.CommittedFamilies | apps/authz/repositories/refresh_tokens.py:98-150 | at every point of every schedule each family is one chain of one owner, and only its tip can be unrevoked |
| RotationTheorems.CommittedDevices | apps/authz/repositories/refresh_tokens.py:123-145 | at every point of every schedule a device hash once set in a family is the hash of every later row, however the switch stood |
| PresenterTheorems.OutcomeWasJust | apps/authz/repositories/refresh_tokens.py:109-133 | under every schedule a presenter decides on the outcome that the committed row gives while nobody else has it locked |
| PresenterTheorems.RolledBackOnlyBy | apps/common/db.py:11-15 | a rotation rolls back only when it is made to, or when its hash is stored already at its insert |
| PresenterTheorems.SecondPresenterReportsReuse | apps/authz/repositories/refresh_tokens.py:109-120 | who presents a token that another rotation consumed meanwhile ends with detected reuse and nothing else, and can always be brought there |
| PresenterTheorems.NoWaitIsForEver | apps/authz/repositories/refresh_tokens.py:98-150 | every unfinished transaction can be brought to an end without being rolled back |
| RotationTheorems.CollisionLeavesRowLive | apps/common/db.py:11-15 | a failed insert leaves the presented row unrevoked and unlocked |
| RotationTheorems.RevokedOnlyBy | apps/authz/repositories/refresh_tokens.py:114-136 | under every schedule a row becomes revoked only by a logout of it or by the commit of its rotation or of a sweep that marked it, and is until then as it was |
| RotationTheorems.RolledBackHashStaysLive | apps/common/db.py:11-15 | a hash whose transactions have all rolled back is still live, unless it was logged out or its family or its user swept |
| SweepCoverage.SweepRevokesWhatItSaw | apps/authz/repositories/refresh_tokens.py:65-75 | whatever else runs, a committed sweep of a family or of a user has revoked every row its snapshot saw |
| SweepCoverage.DeadUnderSchedule | apps/authz/repositories/refresh_tokens.py:114-145 | under every schedule a family without an unrevoked row never has one again |
| SweepCoverage.SurvivorWasRotated | apps/authz/repositories/refresh_tokens.py:110-145 | if a family still has an unrevoked row after a sweep of its tip has committed, a rotation of that tip has committed too |
| SweepEvasions.SweepEvaded | apps/authz/repositories/refresh_tokens.py:110-145 | from any sweep that waits for an unrevoked row it does not hold, a schedule of rotations the service can issue in which it commits and a child of the row stays unrevoked |
| FamilySweeps.SweepEndsFamilyIff | apps/authz/repositories/refresh_tokens.py:114-133 | a sweep ends its family in every continuation in which it commits exactly if, when it begins, the family has no unrevoked row or the presented one is unrevoked; for any refresh lifetime and binding switch |
| UserSweeps.LogoutAllEndsSessionsIff | apps/authz/repositories/refresh_tokens.py:71-75 | a logout of all sessions leaves no family of the user with an unrevoked row, in every continuation in which it commits, exactly if it finds every row of the user revoked |
| FamilySweeps.ReuseCanLeaveLiveRow | apps/authz/repositories/refresh_tokens.py:110-120 | a schedule in which detected reuse leaves an unrevoked row in the family |
| SerialRotation.LogoutAndLoginAlone | apps/authz/repositories/refresh_tokens.py:36-63 | a logout of an unlocked row and the insert of a login do at once what their one-step forms do |
| SerialRotation.LogoutAllAlone | apps/authz/repositories/refresh_tokens.py:71-75 | run alone, the statement of a logout of all sessions revokes exactly the unrevoked rows of the user |
| SerialRotation.RotationAlone | apps/authz/repositories/refresh_tokens.py:98-150 | the statements of one rotation, run alone, do what the one-step rotation does |

## Left out

- Signatures, SHA-256, Argon2 and random generation: hashes are injective, generated ids are new, the password check is a given answer.
- Interleaving of service calls above the rotation transaction, including the lookup-then-revoke of `logout` and Redis writes that reach Redis out of order: a call is one step.
- User deletion concurrent with rotations, statement by statement: the schedules hold rotations, logouts of one row and of all rows of a user, and logins.
- A clock in the schedules: a statement may carry any instant, so expiries are not ordered along a family there.
- Lock waiting is modelled as an action that has no effect yet; deadlock detection only as the possibility that any transaction rolls back.
- Database failures outside the audit log, such as a failing role lookup after a committed rotation.
- Decimals.ReadShow: only plain decimal subjects are read, because only granted tokens decode; Python's `int` also takes signs, blanks and underscores.
- Lower-casing of emails and user agents changes ASCII letters only.
- Administrative user creation: a registration by another actor, with its own audit entry.
- Parsing, printing and masking of IP addresses and the network tests: given functions, or a marked value in the audit metadata.
- Metadata keys that are not strings: they are one of the ways in which sanitizing can raise.
- HTTP routing, schemas, error messages, throttling, pagination, audit-log listing, settings validation, migrations and role seeding: no deep state.
