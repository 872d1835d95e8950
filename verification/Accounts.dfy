/** Users, roles and permissions, and the statements that change them. */
module Accounts {
  import opened Options
  import opened Texts

  datatype User = User(email: string, passwordHash: string, active: bool)

  datatype Directory = Directory(
    users: map<nat, User>,
    nextUserId: nat,
    roles: map<nat, string>,
    permissions: map<nat, string>,
    userRoles: set<(nat, nat)>,
    rolePermissions: set<(nat, nat)>)

  datatype AccountError = EmailTaken | NotFound

  /** A column update given to `aupdate`. */
  datatype Cell = TextCell(text: string) | FlagCell(flag: bool)

  type Fields = map<string, Cell>

  /** `normalize_email`: an address with an `@` is stripped of blanks around it, and all is lower-cased. */
  function CanonicalEmail(email: string): string {
    Lower(if '@' in email then Strip(email) else email)
  }

  function UsersByEmail(d: Directory, email: string): (r: set<nat>)
    ensures forall u :: u in r <==> u in d.users && d.users[u].email == email
  {
    set u | u in d.users && d.users[u].email == email
  }

  function RolesByName(d: Directory, name: string): (r: set<nat>)
    ensures forall i :: i in r <==> i in d.roles && d.roles[i] == name
  {
    set i | i in d.roles && d.roles[i] == name
  }

  function RoleNames(d: Directory, user: nat): set<string> {
    set link | link in d.userRoles && link.0 == user && link.1 in d.roles :: d.roles[link.1]
  }

  /** The distinct codes reached from the user through role links and permission links. */
  function PermissionCodes(d: Directory, user: nat): set<string> {
    set link, grant |
      && link in d.userRoles && grant in d.rolePermissions
      && link.0 == user && grant.0 == link.1 && grant.1 in d.permissions ::
      d.permissions[grant.1]
  }

  /** The user has a role of that name, through a role link. */
  ghost predicate HoldsRole(d: Directory, user: nat, name: string) {
    exists role :: (user, role) in d.userRoles && role in d.roles && d.roles[role] == name
  }

  /** The permission of that code is linked to the role. */
  ghost predicate Carries(d: Directory, role: nat, code: string) {
    exists p :: (role, p) in d.rolePermissions && p in d.permissions && d.permissions[p] == code
  }

  /** The user has the permission, through a link to a role that carries it. */
  ghost predicate HoldsPermission(d: Directory, user: nat, code: string) {
    exists role :: (user, role) in d.userRoles && Carries(d, role, code)
  }

  /** The two queries answer exactly what the user holds. */
  lemma RolesAndPermissionsHeld(d: Directory, user: nat, text: string)
    ensures text in RoleNames(d, user) <==> HoldsRole(d, user, text)
    ensures text in PermissionCodes(d, user) <==> HoldsPermission(d, user, text)
  {
    if HoldsRole(d, user, text) {
      var role :| (user, role) in d.userRoles && role in d.roles && d.roles[role] == text;
      assert (user, role).1 == role;
    }
    if HoldsPermission(d, user, text) {
      var role :| (user, role) in d.userRoles && Carries(d, role, text);
      var p :| (role, p) in d.rolePermissions && p in d.permissions && d.permissions[p] == text;
      assert (user, role).1 == (role, p).0 && (role, p).1 == p;
    }
    if text in PermissionCodes(d, user) {
      var link, grant :| link in d.userRoles && grant in d.rolePermissions && link.0 == user && grant.0 == link.1
                         && grant.1 in d.permissions && d.permissions[grant.1] == text;
      assert (link.0, link.1) == link && (grant.0, grant.1) == grant;
      assert Carries(d, link.1, text);
    }
    if text in RoleNames(d, user) {
      var link :| link in d.userRoles && link.0 == user && link.1 in d.roles && d.roles[link.1] == text;
      assert (link.0, link.1) == link;
    }
  }

  /** The user row and its role link are inserted in one transaction. */
  function CreateUserWithRole(d: Directory, email: string, passwordHash: string, role: nat)
      : (Directory, Result<nat, AccountError>)
  {
    var canonical := CanonicalEmail(email);
    if UsersByEmail(d, canonical) != {} then
      (d.(nextUserId := d.nextUserId + 1), Err(EmailTaken))
    else
      var id := d.nextUserId;
      (d.(users := d.users[id := User(canonical, passwordHash, true)],
          nextUserId := id + 1,
          userRoles := d.userRoles + {(id, role)}),
       Ok(id))
  }

  function AssignRole(d: Directory, user: nat, role: nat): Directory {
    d.(userRoles := d.userRoles + {(user, role)})
  }

  function GrantPermission(d: Directory, role: nat, permission: nat): Directory {
    d.(rolePermissions := d.rolePermissions + {(role, permission)})
  }

  /** Deleting a user cascades to its role links. */
  function DeleteUser(d: Directory, user: nat): Directory {
    d.(users := d.users - {user}, userRoles := set link | link in d.userRoles && link.0 != user)
  }

  function TextOr(fields: Fields, column: string, current: string): string {
    if column in fields && fields[column].TextCell? then fields[column].text else current
  }

  function FlagOr(fields: Fields, column: string, current: bool): bool {
    if column in fields && fields[column].FlagCell? then fields[column].flag else current
  }

  /** `aupdate`: the email is canonicalised and must stay unique. */
  function UpdateUser(d: Directory, user: nat, fields: Fields): (Directory, Result<User, AccountError>) {
    if user !in d.users then (d, Err(NotFound))
    else
      var current := d.users[user];
      var email := if "email" in fields then CanonicalEmail(TextOr(fields, "email", current.email)) else current.email;
      if !(UsersByEmail(d, email) <= {user}) then (d, Err(EmailTaken))
      else
        var row := User(email, TextOr(fields, "password", current.passwordHash),
                        FlagOr(fields, "is_active", current.active));
        (d.(users := d.users[user := row]), Ok(row))
  }

  /** Ids come from a sequence that starts at one; emails and role names are unique. */
  ghost predicate WellFormed(d: Directory) {
    && 0 < d.nextUserId
    && (forall u :: u in d.users ==> 0 < u < d.nextUserId)
    && (forall u, v :: u in d.users && v in d.users && d.users[u].email == d.users[v].email ==> u == v)
    && (forall link :: link in d.userRoles ==> link.0 in d.users)
    && UniqueNames(d.roles)
  }

  ghost predicate UniqueNames(roles: map<nat, string>) {
    forall i, j :: i in roles && j in roles && roles[i] == roles[j] ==> i == j
  }

  lemma CreateKeepsWellFormed(d: Directory, email: string, passwordHash: string, role: nat)
    requires WellFormed(d)
    ensures WellFormed(CreateUserWithRole(d, email, passwordHash, role).0)
  {
    var (after, result) := CreateUserWithRole(d, email, passwordHash, role);
    if result.Ok? {
      forall u | u in d.users ensures d.users[u].email != CanonicalEmail(email) {
        assert u !in UsersByEmail(d, CanonicalEmail(email));
      }
    }
  }

  lemma UpdateKeepsWellFormed(d: Directory, user: nat, fields: Fields)
    requires WellFormed(d)
    ensures WellFormed(UpdateUser(d, user, fields).0)
  {
    var (after, result) := UpdateUser(d, user, fields);
    if result.Ok? {
      var email := result.value.email;
      forall u | u in d.users && u != user ensures d.users[u].email != email {
        assert u !in UsersByEmail(d, email);
      }
    }
  }

  lemma DeleteKeepsWellFormed(d: Directory, user: nat)
    requires WellFormed(d)
    ensures WellFormed(DeleteUser(d, user))
  {
  }
}
