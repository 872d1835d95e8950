/** What the table invariant says about a whole family, read from its root to its tip. */
module FamilyChains {
  import opened Options
  import opened RefreshTokens

  ghost predicate InFamily(rows: Rows, i: nat, f: Family) {
    i in rows && rows[i].family == f
  }

  /**
   * `ids` enumerates the rows of family `f` with ids below `bound`: it starts at the one root, each
   * further row is the child of the row before it, and every row but the last is revoked.
   */
  ghost predicate IsChain(rows: Rows, f: Family, bound: nat, ids: seq<nat>) {
    && (forall k :: 0 <= k < |ids| ==> ids[k] < bound && InFamily(rows, ids[k], f))
    && (forall i: nat :: i < bound && InFamily(rows, i, f) ==> i in ids)
    && (ids != [] ==> rows[ids[0]].parent.None?)
    && (forall k, m :: 0 <= k < m < |ids| ==> Precedes(ids[k], rows[ids[k]], m == k + 1, ids[m], rows[ids[m]]))
  }

  /** Row `i` comes before row `j` of the same family, `next` when immediately. */
  ghost predicate Precedes(i: nat, before: Row, next: bool, j: nat, after: Row) {
    && i < j
    && before.user == after.user
    && before.revoked.Some?
    && (next ==> after.parent == Some(i))
  }

  /** Every row of the family is revoked. */
  ghost predicate Dead(rows: Rows, f: Family) {
    forall i :: InFamily(rows, i, f) ==> rows[i].revoked.Some?
  }

  lemma {:induction false} ChainBelow(rows: Rows, f: Family, bound: nat) returns (ids: seq<nat>)
    requires Chained(rows)
    ensures IsChain(rows, f, bound, ids)
  {
    if bound == 0 {
      ids := [];
    } else {
      ids := ChainBelow(rows, f, bound - 1);
      if InFamily(rows, bound - 1, f) {
        NextRow(rows, f, ids, bound - 1);
        ids := Extended(rows, f, bound, ids, bound - 1);
      }
    }
  }

  /** Row `i` is the child of the last row before it, and all rows before it are revoked. */
  lemma NextRow(rows: Rows, f: Family, ids: seq<nat>, i: nat)
    requires Chained(rows) && IsChain(rows, f, i, ids) && InFamily(rows, i, f)
    ensures rows[i].parent == if ids == [] then None else Some(ids[|ids| - 1])
    ensures forall k :: 0 <= k < |ids| ==> rows[ids[k]].revoked.Some? && rows[ids[k]].user == rows[i].user
  {
    var row := rows[i];
    assert RowLinked(rows, i);
    forall k | 0 <= k < |ids|
      ensures InFamily(rows, ids[k], f) && SameFamily(i, row, ids[k], rows[ids[k]])
      ensures rows[ids[k]].revoked.Some?
    {
      assert RowLinked(rows, ids[k]);
      assert SameFamily(ids[k], rows[ids[k]], i, row);
    }
    if ids != [] {
      var last := |ids| - 1;
      assert SameFamily(i, row, ids[last], rows[ids[last]]);
      var p := row.parent.value;
      assert InFamily(rows, p, f) && ids[last] <= p;
      var k :| 0 <= k < |ids| && ids[k] == p;
      assert k < last ==> Precedes(ids[k], rows[ids[k]], last == k + 1, ids[last], rows[ids[last]]);
    } else if row.parent.Some? {
      assert InFamily(rows, row.parent.value, f);
    }
  }

  lemma Extended(rows: Rows, f: Family, bound: nat, ids: seq<nat>, i: nat) returns (longer: seq<nat>)
    requires bound == i + 1 && IsChain(rows, f, i, ids) && InFamily(rows, i, f)
    requires rows[i].parent == if ids == [] then None else Some(ids[|ids| - 1])
    requires forall k :: 0 <= k < |ids| ==> rows[ids[k]].revoked.Some? && rows[ids[k]].user == rows[i].user
    ensures IsChain(rows, f, bound, longer)
  {
    longer := ids + [i];
    assert forall k :: 0 <= k < |ids| ==> longer[k] == ids[k];
    assert longer[|ids|] == i;
  }

  /** Every family of a chained table is one chain from a single root; only its tip can be unrevoked. */
  lemma FamilyIsOneChain(rows: Rows, bound: nat, f: Family) returns (ids: seq<nat>)
    requires Chained(rows) && forall i :: i in rows ==> i < bound
    ensures IsChain(rows, f, bound, ids)
    ensures forall i :: InFamily(rows, i, f) ==> i in ids
    ensures forall i :: InFamily(rows, i, f) && rows[i].revoked.None? ==> i == ids[|ids| - 1]
  {
    ids := ChainBelow(rows, f, bound);
    forall i: nat | InFamily(rows, i, f)
      ensures i in ids && (rows[i].revoked.None? ==> i == ids[|ids| - 1])
    {
      assert i < bound;
      var k :| 0 <= k < |ids| && ids[k] == i;
      var last := |ids| - 1;
      if k < last {
        assert Precedes(ids[k], rows[ids[k]], last == k + 1, ids[last], rows[ids[last]]);
      }
    }
  }

  /** A sound table is chained. */
  lemma SoundIsChained(db: Db, lifetime: int, now: int)
    requires Sound(db, lifetime, now)
    ensures Chained(db.rows)
  {
    forall i | i in db.rows ensures RowLinked(db.rows, i) {
      assert RowSound(db.rows, i, lifetime);
    }
  }

  /** A device hash is never empty, and a child has the one of its parent once that is set. */
  ghost predicate RowBound(rows: Rows, i: nat)
    requires i in rows
  {
    var row := rows[i];
    && row.device != Some("")
    && (row.parent.Some? && row.parent.value in rows && rows[row.parent.value].device.Some? ==>
          row.device == rows[row.parent.value].device)
  }

  ghost predicate Bound(rows: Rows) {
    forall i :: i in rows ==> RowBound(rows, i)
  }

  /** A sound table is bound. */
  lemma SoundIsBound(db: Db, lifetime: int, now: int)
    requires Sound(db, lifetime, now)
    ensures Bound(db.rows)
  {
    forall i | i in db.rows ensures RowBound(db.rows, i) {
      assert RowSound(db.rows, i, lifetime);
    }
  }

  /** Once set, the device hash of a family is the one of every later row. */
  lemma {:induction false} DeviceAlongChain(rows: Rows, i: nat, j: nat)
    requires Chained(rows) && Bound(rows)
    requires i in rows && j in rows && rows[i].family == rows[j].family && i <= j
    ensures rows[i].device.Some? ==> rows[j].device == rows[i].device
    decreases j
  {
    if i < j {
      assert RowLinked(rows, j) && RowBound(rows, j);
      assert SameFamily(j, rows[j], i, rows[i]);
      DeviceAlongChain(rows, i, rows[j].parent.value);
    }
  }

  /** No row has two children, and a row with a child is revoked. */
  ghost predicate OneChild(rows: Rows) {
    && (forall c :: c in rows && rows[c].parent.Some? ==>
          rows[c].parent.value in rows && rows[rows[c].parent.value].revoked.Some?)
    && (forall c, d :: c in rows && d in rows && rows[c].parent.Some? && rows[c].parent == rows[d].parent ==> c == d)
  }

  lemma ChainedHasOneChild(rows: Rows)
    requires Chained(rows)
    ensures OneChild(rows)
  {
    forall c, d | c in rows && d in rows && rows[c].parent.Some? && rows[c].parent == rows[d].parent ensures c == d {
      assert RowLinked(rows, c) && RowLinked(rows, d);
      assert SameFamily(c, rows[c], d, rows[d]) && SameFamily(d, rows[d], c, rows[c]);
    }
    forall c | c in rows && rows[c].parent.Some?
      ensures rows[c].parent.value in rows && rows[rows[c].parent.value].revoked.Some?
    {
      var p := rows[c].parent.value;
      assert RowLinked(rows, c) && RowLinked(rows, p);
      assert SameFamily(p, rows[p], c, rows[c]);
    }
  }

  /** Two unrevoked rows of one family are the same row. */
  lemma OneUnrevoked(rows: Rows, i: nat, j: nat)
    requires Chained(rows) && i in rows && j in rows && rows[i].family == rows[j].family
    requires rows[i].revoked.None? && rows[j].revoked.None?
    ensures i == j
  {
    assert RowLinked(rows, i) && RowLinked(rows, j);
    assert SameFamily(i, rows[i], j, rows[j]) && SameFamily(j, rows[j], i, rows[i]);
  }

  /**
   * From root to tip a family's device hash is absent for a prefix and then one fixed value, and its
   * expiry never moves back.
   */
  lemma {:induction false} DeviceAndExpiryAlongChain(db: Db, lifetime: int, now: int, i: nat, j: nat)
    requires Sound(db, lifetime, now)
    requires i in db.rows && j in db.rows && db.rows[i].family == db.rows[j].family && i <= j
    ensures db.rows[i].device.Some? ==> db.rows[j].device == db.rows[i].device
    ensures db.rows[i].expires <= db.rows[j].expires
    decreases j
  {
    if i < j {
      assert RowSound(db.rows, j, lifetime);
      assert SameFamily(j, db.rows[j], i, db.rows[i]);
      var p := db.rows[j].parent.value;
      DeviceAndExpiryAlongChain(db, lifetime, now, i, p);
    }
  }

  /**
   * Consecutive rows of a family were issued less than a refresh lifetime apart: a row expires one
   * lifetime after it was issued, and its parent was revoked at exactly that instant.
   */
  lemma RotationsWithinLifetime(db: Db, lifetime: int, now: int, f: Family) returns (ids: seq<nat>)
    requires Sound(db, lifetime, now)
    ensures IsChain(db.rows, f, db.nextId, ids)
    ensures forall k, m :: 0 <= k < m < |ids| && m == k + 1 ==>
              && ids[k] in db.rows && ids[m] in db.rows
              && db.rows[ids[k]].revoked == Some(db.rows[ids[m]].expires - lifetime)
              && 0 <= db.rows[ids[m]].expires - db.rows[ids[k]].expires < lifetime
  {
    SoundIsChained(db, lifetime, now);
    ids := FamilyIsOneChain(db.rows, db.nextId, f);
    forall k, m | 0 <= k < m < |ids| && m == k + 1
      ensures ids[k] in db.rows && ids[m] in db.rows && Follows(db.rows[ids[k]], db.rows[ids[m]], lifetime)
    {
      assert Precedes(ids[k], db.rows[ids[k]], true, ids[m], db.rows[ids[m]]);
      assert RowSound(db.rows, ids[m], lifetime);
    }
  }
}
