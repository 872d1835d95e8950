/** The account tables behind the user and RBAC repositories, updated in place. */
module AccountStores {
  import opened Options
  import opened Accounts

  class AccountStore {
    var users: map<nat, User>
    var nextUserId: nat
    var roles: map<nat, string>
    var permissions: map<nat, string>
    var userRoles: set<(nat, nat)>
    var rolePermissions: set<(nat, nat)>

    function Data(): Directory
      reads this
    {
      Directory(users, nextUserId, roles, permissions, userRoles, rolePermissions)
    }

    constructor (d: Directory)
      ensures Data() == d
    {
      users, nextUserId, roles := d.users, d.nextUserId, d.roles;
      permissions, userRoles, rolePermissions := d.permissions, d.userRoles, d.rolePermissions;
    }

    method CreateUserWithRole(email: string, passwordHash: string, role: nat)
        returns (result: Result<nat, AccountError>)
      modifies this`users, this`nextUserId, this`userRoles
      ensures (Data(), result) == Accounts.CreateUserWithRole(old(Data()), email, passwordHash, role)
    {
      var canonical := CanonicalEmail(email);
      var taken := exists u | u in users :: users[u].email == canonical;
      var id := nextUserId;
      nextUserId := nextUserId + 1;
      if taken {
        assert UsersByEmail(old(Data()), canonical) != {} by {
          var u :| u in users && users[u].email == canonical;
          assert u in UsersByEmail(old(Data()), canonical);
        }
        return Err(EmailTaken);
      }
      users := users[id := User(canonical, passwordHash, true)];
      userRoles := userRoles + {(id, role)};
      result := Ok(id);
    }

    method AssignRole(user: nat, role: nat)
      modifies this`userRoles
      ensures Data() == Accounts.AssignRole(old(Data()), user, role)
    {
      if (user, role) !in userRoles {
        userRoles := userRoles + {(user, role)};
      }
    }

    method GrantPermission(role: nat, permission: nat)
      modifies this`rolePermissions
      ensures Data() == Accounts.GrantPermission(old(Data()), role, permission)
    {
      if (role, permission) !in rolePermissions {
        rolePermissions := rolePermissions + {(role, permission)};
      }
    }

    method Update(user: nat, fields: Fields) returns (result: Result<User, AccountError>)
      modifies this`users
      ensures (Data(), result) == Accounts.UpdateUser(old(Data()), user, fields)
    {
      if user !in users { return Err(NotFound); }
      var row := users[user];
      if "email" in fields {
        row := row.(email := CanonicalEmail(TextOr(fields, "email", row.email)));
      }
      var clash := exists u | u in users :: u != user && users[u].email == row.email;
      if clash {
        assert !(UsersByEmail(old(Data()), row.email) <= {user}) by {
          var u :| u in users && u != user && users[u].email == row.email;
          assert u in UsersByEmail(old(Data()), row.email);
        }
        return Err(EmailTaken);
      }
      row := row.(passwordHash := TextOr(fields, "password", row.passwordHash));
      row := row.(active := FlagOr(fields, "is_active", row.active));
      users := users[user := row];
      result := Ok(row);
    }

    method Delete(user: nat) returns (deleted: bool)
      modifies this`users, this`userRoles
      ensures deleted <==> user in old(users)
      ensures Data() == if deleted then Accounts.DeleteUser(old(Data()), user) else old(Data())
    {
      deleted := user in users;
      if deleted {
        users := users - {user};
        userRoles := set link | link in userRoles && link.0 != user;
      }
    }
  }
}
