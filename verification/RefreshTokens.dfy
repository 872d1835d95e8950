/**
 * The refresh-token table and the statements run against it, one transaction at a time.
 *
 * A login opens a family with a root row; rotation consumes the one unrevoked row of a family and
 * inserts its child; the other statements only revoke or delete rows.
 */
module RefreshTokens {
  import opened Options

  type Family = nat

  datatype Row = Row(
    user: nat,
    hash: string,
    family: Family,
    parent: Option<nat>,
    device: Option<string>,
    ip: Option<string>,
    expires: int,
    revoked: Option<int>)

  type Rows = map<nat, Row>

  /** The table and its id sequence; a failed insert burns an id. */
  datatype Db = Db(rows: Rows, nextId: nat)

  /** What the repository hands out: a detached copy of a row. */
  datatype Dto = Dto(id: nat, row: Row)

  datatype DbError = IntegrityError

  datatype Outcome = Rotated | Missing | Expired | Reused | BindingMismatch

  datatype Rotation = Rotation(outcome: Outcome, token: Option<Dto>, previousIp: Option<string>)

  datatype RotateArgs = RotateArgs(
    hash: string,
    replacement: string,
    replacementExpires: int,
    at: int,
    bindDevice: bool,
    device: Option<string>,
    ip: Option<string>)

  /** The three revoking queries filter on a row id, on a family or on a user. */
  datatype Target = OneRow(id: nat) | WholeFamily(family: Family) | AllOfUser(user: nat)

  predicate Hits(target: Target, id: nat, row: Row) {
    match target
    case OneRow(i) => id == i
    case WholeFamily(f) => row.family == f
    case AllOfUser(u) => row.user == u
  }

  /** `filter(target, revoked_at__isnull=True).update(revoked_at=at)` */
  function RevokeAll(rows: Rows, target: Target, at: int): Rows {
    map i | i in rows ::
      if Hits(target, i, rows[i]) && rows[i].revoked.None? then rows[i].(revoked := Some(at)) else rows[i]
  }

  /** Deleting a user cascades to the rows; a surviving child of a deleted row loses its parent link. */
  function DeleteUser(rows: Rows, user: nat): Rows {
    map i | i in rows && rows[i].user != user ::
      var parent := rows[i].parent;
      if parent.Some? && parent.value in rows && rows[parent.value].user == user
      then rows[i].(parent := None) else rows[i]
  }

  predicate HashTaken(rows: Rows, hash: string) {
    exists i | i in rows :: rows[i].hash == hash
  }

  ghost function Find(rows: Rows, hash: string): (r: Option<nat>)
    ensures r.Some? ==> r.value in rows && rows[r.value].hash == hash
    ensures r.None? <==> !HashTaken(rows, hash)
  {
    if HashTaken(rows, hash) then
      var i :| i in rows && rows[i].hash == hash;
      Some(i)
    else None
  }

  /** An insert obeys the unique constraint on the hash. */
  function Insert(db: Db, row: Row): (Db, Result<Dto, DbError>) {
    if HashTaken(db.rows, row.hash) then
      (db.(nextId := db.nextId + 1), Err(IntegrityError))
    else
      (Db(db.rows[db.nextId := row], db.nextId + 1), Ok(Dto(db.nextId, row)))
  }

  /** `device_hash or presented`: an empty hash counts as absent. */
  function OrElse(device: Option<string>, presented: Option<string>): Option<string> {
    if device.Some? && device.value != "" then device else presented
  }

  function Replacement(id: nat, row: Row, a: RotateArgs): Row {
    Row(row.user, a.replacement, row.family, Some(id), OrElse(row.device, a.device), a.ip, a.replacementExpires, None)
  }

  predicate DeviceMismatch(row: Row, a: RotateArgs) {
    a.bindDevice && row.device.Some? && row.device != a.device
  }

  /** One rotation transaction; an integrity error rolls the row update back. */
  ghost function Rotate(db: Db, a: RotateArgs): (Db, Result<Rotation, DbError>) {
    match Find(db.rows, a.hash)
    case None => (db, Ok(Rotation(Missing, None, None)))
    case Some(i) =>
      var row := db.rows[i];
      var swept := db.(rows := RevokeAll(db.rows, WholeFamily(row.family), a.at));
      if row.revoked.Some? then (swept, Ok(Rotation(Reused, Some(Dto(i, row)), None)))
      else if row.expires <= a.at then (db, Ok(Rotation(Expired, None, None)))
      else if DeviceMismatch(row, a) then (swept, Ok(Rotation(BindingMismatch, Some(Dto(i, row)), None)))
      else
        var consumed := db.(rows := db.rows[i := row.(revoked := Some(a.at))]);
        var (inserted, result) := Insert(consumed, Replacement(i, row, a));
        match result
        case Err(e) => (Db(db.rows, inserted.nextId), Err(e))
        case Ok(dto) => (inserted, Ok(Rotation(Rotated, Some(dto), row.ip)))
  }

  // ---------------------------------------------------------------- the table invariant

  /** The unique constraint. */
  ghost predicate UniqueHashes(rows: Rows) {
    forall i, j :: i in rows && j in rows && rows[i].hash == rows[j].hash ==> i == j
  }

  /**
   * Rows `i` and `j` of one family: same owner, ids that follow the chain, and an unrevoked row
   * that comes after every other row.
   */
  ghost predicate SameFamily(i: nat, a: Row, j: nat, b: Row) {
    && a.user == b.user
    && (a.parent.None? ==> i <= j)
    && (a.parent.Some? ==> j <= a.parent.value || i <= j)
    && (a.revoked.None? ==> j <= i)
  }

  /** `child` was created by rotating `parent`, less than a refresh lifetime after it. */
  ghost predicate Follows(parent: Row, child: Row, lifetime: int) {
    && parent.family == child.family
    && parent.revoked == Some(child.expires - lifetime)
    && child.expires - lifetime < parent.expires <= child.expires
    && (parent.device.Some? ==> child.device == parent.device)
  }

  /** Row `i` agrees with every row of its family, and its parent is an earlier row of the same family. */
  ghost predicate RowLinked(rows: Rows, i: nat)
    requires i in rows
  {
    var row := rows[i];
    && (forall j :: j in rows && rows[j].family == row.family ==> SameFamily(i, row, j, rows[j]))
    && (row.parent.Some? ==>
          row.parent.value < i && row.parent.value in rows && rows[row.parent.value].family == row.family)
  }

  /** The shape of the families: one owner and one chain each, and no unrevoked row but the last. */
  ghost predicate Chained(rows: Rows) {
    forall i :: i in rows ==> RowLinked(rows, i)
  }

  ghost predicate RowSound(rows: Rows, i: nat, lifetime: int)
    requires i in rows
  {
    var row := rows[i];
    && row.device != Some("")
    && RowLinked(rows, i)
    && (row.parent.Some? ==> Follows(rows[row.parent.value], row, lifetime))
  }

  /** Holds of the table after every transaction. */
  ghost predicate Sound(db: Db, lifetime: int, now: int) {
    && UniqueHashes(db.rows)
    && (forall i :: i in db.rows ==> i < db.nextId && db.rows[i].expires <= now + lifetime)
    && (forall i :: i in db.rows ==> RowSound(db.rows, i, lifetime))
  }

  lemma SoundLater(db: Db, lifetime: int, now: int, later: int)
    requires Sound(db, lifetime, now) && now <= later
    ensures Sound(db, lifetime, later)
  {
  }

  lemma RevokeKeepsSound(db: Db, target: Target, at: int, lifetime: int, now: int)
    requires Sound(db, lifetime, now)
    ensures Sound(db.(rows := RevokeAll(db.rows, target, at)), lifetime, now)
  {
    var rows := RevokeAll(db.rows, target, at);
    forall i | i in rows ensures RowSound(rows, i, lifetime) {
      assert RowSound(db.rows, i, lifetime);
      assert rows[i] == db.rows[i].(revoked := rows[i].revoked);
      forall j | j in rows && rows[j].family == rows[i].family ensures SameFamily(i, rows[i], j, rows[j]) {
        assert rows[j] == db.rows[j].(revoked := rows[j].revoked);
        assert SameFamily(i, db.rows[i], j, db.rows[j]);
      }
    }
  }

  lemma DeleteKeepsSound(db: Db, user: nat, lifetime: int, now: int)
    requires Sound(db, lifetime, now)
    ensures Sound(db.(rows := DeleteUser(db.rows, user)), lifetime, now)
    ensures forall i :: i in db.rows && db.rows[i].user != user ==> DeleteUser(db.rows, user)[i] == db.rows[i]
  {
    var rows := DeleteUser(db.rows, user);
    forall i | i in rows ensures RowSound(rows, i, lifetime) && rows[i] == db.rows[i] {
      assert RowSound(db.rows, i, lifetime);
    }
  }

  /** A login inserts the root of a family that has no rows. */
  lemma RootKeepsSound(db: Db, root: Row, lifetime: int, now: int)
    requires Sound(db, lifetime, now)
    requires root.parent.None? && root.revoked.None? && root.device != Some("") && root.expires <= now + lifetime
    requires forall i :: i in db.rows ==> db.rows[i].family != root.family
    ensures Sound(Insert(db, root).0, lifetime, now)
  {
    var rows := Insert(db, root).0.rows;
    forall i | i in rows ensures RowSound(rows, i, lifetime) {
      assert i in db.rows ==> RowSound(db.rows, i, lifetime);
    }
  }

  ghost function Consumed(db: Db, i: nat, a: RotateArgs): Rows
    requires i in db.rows
  {
    db.rows[i := db.rows[i].(revoked := Some(a.at))][db.nextId := Replacement(i, db.rows[i], a)]
  }

  /** The cases of a rotation, read off the row it finds. */
  ghost predicate Consumable(db: Db, a: RotateArgs) {
    var found := Find(db.rows, a.hash);
    && found.Some?
    && db.rows[found.value].revoked.None?
    && a.at < db.rows[found.value].expires
    && !DeviceMismatch(db.rows[found.value], a)
  }

  lemma RotateCases(db: Db, a: RotateArgs)
    ensures
      var (after, result) := Rotate(db, a);
      var found := Find(db.rows, a.hash);
      if Consumable(db, a) && !HashTaken(db.rows, a.replacement) then
        && after == Db(Consumed(db, found.value, a), db.nextId + 1)
        && result == Ok(Rotation(Rotated, Some(Dto(db.nextId, Replacement(found.value, db.rows[found.value], a))),
                                 db.rows[found.value].ip))
      else
        && (result.Err? <==> Consumable(db, a))
        && (result.Ok? ==> result.value.outcome != Rotated)
        && (result.Ok? ==> (result.value.token.Some? <==> result.value.outcome in {Reused, BindingMismatch}))
        && if result.Ok? && result.value.token.Some? then
             && after == db.(rows := RevokeAll(db.rows, WholeFamily(result.value.token.value.row.family), a.at))
             && found.Some? && result.value.token == Some(Dto(found.value, db.rows[found.value]))
           else after.rows == db.rows && db.nextId <= after.nextId
  {
    if Consumable(db, a) {
      var i := Find(db.rows, a.hash).value;
      var consumed := db.rows[i := db.rows[i].(revoked := Some(a.at))];
      assert HashTaken(consumed, a.replacement) <==> HashTaken(db.rows, a.replacement) by {
        assert forall k :: k in db.rows ==> consumed[k].hash == db.rows[k].hash;
        if HashTaken(db.rows, a.replacement) {
          var k :| k in db.rows && db.rows[k].hash == a.replacement;
          assert k in consumed;
        }
      }
    }
  }

  lemma RotateKeepsSound(db: Db, a: RotateArgs, lifetime: int)
    requires Sound(db, lifetime, a.at)
    requires a.replacementExpires == a.at + lifetime && a.device != Some("")
    ensures Sound(Rotate(db, a).0, lifetime, a.at)
  {
    RotateCases(db, a);
    var (after, result) := Rotate(db, a);
    if Consumable(db, a) && !HashTaken(db.rows, a.replacement) {
      ConsumeKeepsSound(db, Find(db.rows, a.hash).value, a, lifetime);
    } else if result.Ok? && result.value.token.Some? {
      RevokeKeepsSound(db, WholeFamily(result.value.token.value.row.family), a.at, lifetime, a.at);
    } else {
      BurnKeepsSound(db, after.nextId, lifetime, a.at);
    }
  }

  lemma BurnKeepsSound(db: Db, nextId: nat, lifetime: int, now: int)
    requires Sound(db, lifetime, now) && db.nextId <= nextId
    ensures Sound(db.(nextId := nextId), lifetime, now)
  {
  }

  lemma ConsumeKeepsSound(db: Db, i: nat, a: RotateArgs, lifetime: int)
    requires Sound(db, lifetime, a.at) && i in db.rows
    requires db.rows[i].revoked.None? && a.at < db.rows[i].expires
    requires a.replacementExpires == a.at + lifetime && a.device != Some("")
    requires !HashTaken(db.rows, a.replacement)
    ensures Sound(Db(Consumed(db, i, a), db.nextId + 1), lifetime, a.at)
  {
    var rows := Consumed(db, i, a);
    forall j | j in rows ensures RowSound(rows, j, lifetime) {
      ConsumeKeepsRow(db, i, a, lifetime, j);
    }
  }

  lemma ConsumeKeepsRow(db: Db, i: nat, a: RotateArgs, lifetime: int, j: nat)
    requires Sound(db, lifetime, a.at) && i in db.rows
    requires db.rows[i].revoked.None? && a.at < db.rows[i].expires
    requires a.replacementExpires == a.at + lifetime && a.device != Some("")
    requires j in Consumed(db, i, a)
    ensures RowSound(Consumed(db, i, a), j, lifetime)
  {
    var rows := Consumed(db, i, a);
    assert RowSound(db.rows, i, lifetime);
    assert j in db.rows ==> RowSound(db.rows, j, lifetime);
    forall k | k in rows && rows[k].family == rows[j].family ensures SameFamily(j, rows[j], k, rows[k]) {
      if k in db.rows && db.rows[k].family == db.rows[i].family {
        assert SameFamily(i, db.rows[i], k, db.rows[k]);
      }
      if j in db.rows && db.rows[j].family == db.rows[i].family {
        assert SameFamily(j, db.rows[j], i, db.rows[i]);
      }
    }
  }
}
