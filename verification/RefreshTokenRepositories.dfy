/** The repository over the refresh-token table, updated in place and proved against the statements. */
module RefreshTokenRepositories {
  import opened Options
  import opened RefreshTokens

  class RefreshTokenRepository {
    var rows: Rows
    var nextId: nat

    /** What the database guarantees of the table whatever the application does. */
    ghost predicate Valid()
      reads this
    {
      && UniqueHashes(rows)
      && forall i :: i in rows ==> i < nextId
    }

    ghost function Table(): Db
      reads this
    {
      Db(rows, nextId)
    }

    constructor ()
      ensures Valid() && Table() == Db(map[], 0)
    {
      rows, nextId := map[], 0;
    }

    method GetByHash(hash: string) returns (token: Option<Dto>)
      requires Valid()
      ensures token == match Find(rows, hash) case None => None case Some(i) => Some(Dto(i, rows[i]))
    {
      if i :| i in rows && rows[i].hash == hash {
        token := Some(Dto(i, rows[i]));
      } else {
        token := None;
      }
    }

    method Create(row: Row) returns (result: Result<Dto, DbError>)
      requires Valid()
      modifies this
      ensures Valid() && (Table(), result) == Insert(old(Table()), row)
    {
      if i :| i in rows && rows[i].hash == row.hash {
        nextId := nextId + 1;
        return Err(IntegrityError);
      }
      rows := rows[nextId := row];
      result := Ok(Dto(nextId, row));
      nextId := nextId + 1;
    }

    method Revoke(id: nat, at: int)
      requires Valid()
      modifies this`rows
      ensures Valid() && rows == RevokeAll(old(rows), OneRow(id), at)
    {
      if id in rows && rows[id].revoked.None? {
        rows := rows[id := rows[id].(revoked := Some(at))];
      }
    }

    method RevokeFamily(family: Family, at: int)
      requires Valid()
      modifies this`rows
      ensures Valid() && rows == RevokeAll(old(rows), WholeFamily(family), at)
    {
      var live := set i | i in rows && rows[i].family == family && rows[i].revoked.None?;
      rows := map i | i in rows :: if i in live then rows[i].(revoked := Some(at)) else rows[i];
    }

    method RevokeUser(user: nat, at: int)
      requires Valid()
      modifies this`rows
      ensures Valid() && rows == RevokeAll(old(rows), AllOfUser(user), at)
    {
      var live := set i | i in rows && rows[i].user == user && rows[i].revoked.None?;
      rows := map i | i in rows :: if i in live then rows[i].(revoked := Some(at)) else rows[i];
    }

    /** The cascade of a user deletion, run by the database. */
    method DeleteOwnedBy(user: nat)
      requires Valid()
      modifies this`rows
      ensures Valid() && rows == DeleteUser(old(rows), user)
    {
      var gone := set i | i in rows && rows[i].user == user;
      var kept := rows - gone;
      rows := map i | i in kept ::
        if kept[i].parent.Some? && kept[i].parent.value in gone then kept[i].(parent := None) else kept[i];
    }

    /** The rotation transaction: a failed insert restores the rows the transaction began with. */
    method Rotate(a: RotateArgs) returns (result: Result<Rotation, DbError>)
      requires Valid()
      modifies this
      ensures Valid() && (Table(), result) == RefreshTokens.Rotate(old(Table()), a)
    {
      var found := GetByHash(a.hash);
      if found.None? {
        return Ok(Rotation(Missing, None, None));
      }
      var token := found.value;
      if token.row.revoked.Some? {
        RevokeFamily(token.row.family, a.at);
        return Ok(Rotation(Reused, Some(token), None));
      }
      if token.row.expires <= a.at {
        return Ok(Rotation(Expired, None, None));
      }
      if a.bindDevice && token.row.device.Some? && token.row.device != a.device {
        RevokeFamily(token.row.family, a.at);
        return Ok(Rotation(BindingMismatch, Some(token), None));
      }
      var savepoint := rows;
      rows := rows[token.id := token.row.(revoked := Some(a.at))];
      var device := if token.row.device.Some? && token.row.device.value != "" then token.row.device else a.device;
      var replacement := Create(
        Row(token.row.user, a.replacement, token.row.family, Some(token.id), device, a.ip, a.replacementExpires, None));
      if replacement.Err? {
        rows := savepoint;
        return Err(replacement.error);
      }
      result := Ok(Rotation(Rotated, Some(replacement.value), token.row.ip));
    }
  }
}
