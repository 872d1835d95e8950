/** What the account statements do to who exists, who may log in, and who holds which role and permission. */
module AccountTheorems {
  import opened Options
  import opened Texts
  import opened Accounts

  /** Case and surrounding blanks do not matter in an address. */
  lemma CanonicalSpelling(email: string)
    ensures forall k :: 0 <= k < |CanonicalEmail(email)| ==> !('A' <= CanonicalEmail(email)[k] <= 'Z')
    ensures '@' !in email ==> SameButForCase(email, CanonicalEmail(email))
    ensures '@' in email ==>
              exists i, j :: 0 <= i <= j <= |email| && SameButForCase(email[i..j], CanonicalEmail(email))
                             && Blank(email[..i]) && Blank(email[j..]) && Tight(email[i..j])
  {
    if '@' in email {
      var i, j := StripMeaning(email);
      LowerMeaning(email[i..j]);
    } else {
      LowerMeaning(email);
    }
  }

  lemma LowerMeaning(s: string)
    ensures SameButForCase(s, Lower(s))
    ensures forall k :: 0 <= k < |s| ==> !('A' <= Lower(s)[k] <= 'Z')
  {
  }

  /** The letters of `lower` are those of `s`, lower-cased. */
  ghost predicate SameButForCase(s: string, lower: string) {
    && |s| == |lower|
    && forall k :: 0 <= k < |s| ==>
         lower[k] as int == if 'A' <= s[k] <= 'Z' then s[k] as int + 32 else s[k] as int
  }

  ghost predicate Unchanged(d: Directory, after: Directory, u: nat) {
    && (u in after.users <==> u in d.users)
    && (u in d.users ==> after.users[u] == d.users[u])
    && (forall name :: HoldsRole(after, u, name) <==> HoldsRole(d, u, name))
    && (forall code :: HoldsPermission(after, u, code) <==> HoldsPermission(d, u, code))
  }

  lemma SameLinks(d: Directory, after: Directory, u: nat)
    requires after.roles == d.roles && after.permissions == d.permissions && after.rolePermissions == d.rolePermissions
    requires forall role :: (u, role) in after.userRoles <==> (u, role) in d.userRoles
    ensures forall name :: HoldsRole(after, u, name) <==> HoldsRole(d, u, name)
    ensures forall code :: HoldsPermission(after, u, code) <==> HoldsPermission(d, u, code)
  {
    forall role, code ensures Carries(after, role, code) <==> Carries(d, role, code) {}
  }

  /**
   * A registration succeeds exactly if the address is free.  The new user is active, has the address in
   * canonical form and the given password hash, and holds the one role it was created with and what that
   * role carries; everybody else is as before.
   */
  lemma RegistrationGivesRole(d: Directory, email: string, passwordHash: string, role: nat)
    requires WellFormed(d) && role in d.roles
    ensures
      var (after, result) := CreateUserWithRole(d, email, passwordHash, role);
      && (result.Ok? <==> forall u :: u in d.users ==> d.users[u].email != CanonicalEmail(email))
      && (result.Err? ==>
            result.error == EmailTaken && after.nextUserId == d.nextUserId + 1 && forall u :: Unchanged(d, after, u))
      && (result.Ok? ==>
            && result.value !in d.users && result.value in after.users
            && after.users[result.value] == User(CanonicalEmail(email), passwordHash, true)
            && (forall name :: HoldsRole(after, result.value, name) <==> name == d.roles[role])
            && (forall code :: HoldsPermission(after, result.value, code) <==> Carries(d, role, code))
            && (forall u :: u != result.value ==> Unchanged(d, after, u)))
  {
    var (after, result) := CreateUserWithRole(d, email, passwordHash, role);
    assert result.Ok? <==> UsersByEmail(d, CanonicalEmail(email)) == {};
    if result.Err? {
      forall u ensures Unchanged(d, after, u) { SameLinks(d, after, u); }
    } else {
      NewUserLinks(d, after, result.value, role);
      forall u | u != result.value ensures Unchanged(d, after, u) { SameLinks(d, after, u); }
    }
  }

  lemma NewUserLinks(d: Directory, after: Directory, id: nat, role: nat)
    requires role in d.roles && after.userRoles == d.userRoles + {(id, role)}
    requires forall link :: link in d.userRoles ==> link.0 != id
    requires after.roles == d.roles && after.permissions == d.permissions && after.rolePermissions == d.rolePermissions
    ensures forall name :: HoldsRole(after, id, name) <==> name == d.roles[role]
    ensures forall code :: HoldsPermission(after, id, code) <==> Carries(d, role, code)
  {
    assert (id, role) in after.userRoles;
    forall r | (id, r) in after.userRoles ensures r == role { assert (id, r) in d.userRoles ==> (id, r).0 != id; }
    forall r, code ensures Carries(after, r, code) <==> Carries(d, r, code) {}
  }

  /** Linking a role to a user gives that user the role and what it carries, and changes nothing else. */
  lemma AssignmentGivesRole(d: Directory, user: nat, role: nat)
    requires role in d.roles
    ensures
      var after := Accounts.AssignRole(d, user, role);
      && after.users == d.users
      && (forall u, name ::
            HoldsRole(after, u, name) <==> HoldsRole(d, u, name) || (u == user && name == d.roles[role]))
      && (forall u, code ::
            HoldsPermission(after, u, code) <==> HoldsPermission(d, u, code) || (u == user && Carries(d, role, code)))
  {
    var after := Accounts.AssignRole(d, user, role);
    assert (user, role) in after.userRoles;
    forall r, code ensures Carries(after, r, code) <==> Carries(d, r, code) {}
  }

  /** Linking a permission to a role gives it to exactly the users with that role. */
  lemma GrantGivesPermission(d: Directory, role: nat, permission: nat)
    requires permission in d.permissions
    ensures
      var after := Accounts.GrantPermission(d, role, permission);
      && after.users == d.users
      && (forall u, name :: HoldsRole(after, u, name) <==> HoldsRole(d, u, name))
      && (forall u: nat, code ::
            HoldsPermission(after, u, code) <==>
              HoldsPermission(d, u, code) || ((u, role) in d.userRoles && code == d.permissions[permission]))
  {
    var after := Accounts.GrantPermission(d, role, permission);
    forall r, code
      ensures Carries(after, r, code) <==> Carries(d, r, code) || (r == role && code == d.permissions[permission])
    {
      assert (role, permission) in after.rolePermissions;
    }
  }

  /** A deleted user is gone and holds nothing; everybody else is as before. */
  lemma DeletionTakesRoles(d: Directory, user: nat)
    ensures
      var after := Accounts.DeleteUser(d, user);
      && user !in after.users
      && (forall name :: !HoldsRole(after, user, name)) && (forall code :: !HoldsPermission(after, user, code))
      && (forall u :: u != user ==> Unchanged(d, after, u))
  {
    var after := Accounts.DeleteUser(d, user);
    forall u | u != user ensures Unchanged(d, after, u) { SameLinks(d, after, u); }
  }

  /** The address the update asks for is that of another user. */
  ghost predicate Clashes(d: Directory, user: nat, fields: Fields) {
    && "email" in fields && fields["email"].TextCell?
    && exists u :: u in d.users && u != user && d.users[u].email == CanonicalEmail(fields["email"].text)
  }

  /** Each column holds text or a flag, as the schema has it. */
  ghost predicate Typed(fields: Fields) {
    && ("email" in fields ==> fields["email"].TextCell?)
    && ("password" in fields ==> fields["password"].TextCell?)
    && ("is_active" in fields ==> fields["is_active"].FlagCell?)
  }

  /**
   * An update fails exactly on a missing user or on the address of another user, and then changes nothing.
   * Otherwise it writes the columns it was given, the address in canonical form, and no other column or user.
   */
  lemma UpdateWritesColumns(d: Directory, user: nat, fields: Fields)
    requires WellFormed(d) && Typed(fields)
    ensures
      var (after, result) := Accounts.UpdateUser(d, user, fields);
      && (result == Err(NotFound) <==> user !in d.users)
      && (result == Err(EmailTaken) <==> user in d.users && Clashes(d, user, fields))
      && (result.Err? ==> after == d)
      && (result.Ok? ==>
            && user in d.users && user in after.users && result.value == after.users[user]
            && after.users[user].email ==
                 (if "email" in fields then CanonicalEmail(fields["email"].text) else d.users[user].email)
            && after.users[user].passwordHash ==
                 (if "password" in fields then fields["password"].text else d.users[user].passwordHash)
            && after.users[user].active ==
                 (if "is_active" in fields then fields["is_active"].flag else d.users[user].active)
            && (forall u :: u != user ==> Unchanged(d, after, u))
            && (forall name :: HoldsRole(after, user, name) <==> HoldsRole(d, user, name))
            && (forall code :: HoldsPermission(after, user, code) <==> HoldsPermission(d, user, code)))
  {
    var (after, result) := Accounts.UpdateUser(d, user, fields);
    if user in d.users {
      var email := if "email" in fields then CanonicalEmail(fields["email"].text) else d.users[user].email;
      assert UsersByEmail(d, email) <= {user} <==> !Clashes(d, user, fields) by {
        if u :| u in UsersByEmail(d, email) && u != user { assert u in d.users; }
      }
      forall u ensures u != user ==> Unchanged(d, after, u) { SameLinks(d, after, u); }
      SameLinks(d, after, user);
    }
  }
}
