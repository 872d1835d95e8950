/** What concurrent rotations guarantee under every schedule, and what they do not. */
module RotationTheorems {
  import opened RefreshTokens
  import opened FamilyChains
  import opened RotationSchedule

  /** The machine over a table, before any transaction. */
  function Start(db: Db): Machine {
    Machine(db.rows, db.nextId, map[], map[])
  }

  lemma StartIsSound(db: Db, lifetime: int, now: int)
    requires Sound(db, lifetime, now)
    ensures Inv(Start(db))
  {
    SoundIsChained(db, lifetime, now);
    SoundIsBound(db, lifetime, now);
  }

  /** However many transactions present a hash, at most one commits a rotation of it. */
  lemma RotatedAtMostOnce(db: Db, lifetime: int, now: int, schedule: seq<Action>, t: TxId, u: TxId)
    requires Sound(db, lifetime, now)
    requires
      var txs := Play(Start(db), schedule).txs;
      t in txs && u in txs && txs[t].EndedRotated? && txs[u].EndedRotated? && txs[t].a.hash == txs[u].a.hash
    ensures t == u
  {
    StartIsSound(db, lifetime, now);
    PlayKeepsInv(Start(db), schedule);
    var m := Play(Start(db), schedule);
    assert TxSound(m, m.txs[t]) && TxSound(m, m.txs[u]);
    assert t != u ==> Apart(m.txs[t], m.txs[u]);
  }

  /**
   * At every point of every schedule each committed row has at most one child, and from there on a
   * committed row is never written again except by the one update that revokes it.
   */
  lemma CommittedRows(db: Db, lifetime: int, now: int, before: seq<Action>, after: seq<Action>)
    requires Sound(db, lifetime, now)
    ensures
      var m := Play(Start(db), before);
      && OneChild(m.rows) && UniqueHashes(m.rows)
      && RowsGrow(m.rows, Play(m, after).rows, {})
  {
    StartIsSound(db, lifetime, now);
    PlayKeepsInv(Start(db), before);
    ChainedHasOneChild(Play(Start(db), before).rows);
    PlayKeepsInv(Play(Start(db), before), after);
  }

  /**
   * At every point of every schedule each family of the committed rows has one owner and is one chain
   * from a single root, and its only unrevoked row, if any, is the tip.
   */
  lemma CommittedFamilies(db: Db, lifetime: int, now: int, schedule: seq<Action>, f: Family) returns (ids: seq<nat>)
    requires Sound(db, lifetime, now)
    ensures
      var m := Play(Start(db), schedule);
      && IsChain(m.rows, f, m.nextId, ids)
      && (forall i :: InFamily(m.rows, i, f) ==> i in ids)
      && (forall i :: InFamily(m.rows, i, f) && m.rows[i].revoked.None? ==> i == ids[|ids| - 1])
  {
    StartIsSound(db, lifetime, now);
    PlayKeepsInv(Start(db), schedule);
    var m := Play(Start(db), schedule);
    ids := FamilyIsOneChain(m.rows, m.nextId, f);
  }

  /**
   * At every point of every schedule a device hash once set in a family is the hash of every later
   * committed row, however the binding switch stood at each rotation.
   */
  lemma CommittedDevices(db: Db, lifetime: int, now: int, schedule: seq<Action>, i: nat, j: nat)
    requires Sound(db, lifetime, now)
    requires
      var rows := Play(Start(db), schedule).rows;
      i in rows && j in rows && rows[i].family == rows[j].family && i <= j && rows[i].device.Some?
    ensures Play(Start(db), schedule).rows[j].device == Play(Start(db), schedule).rows[i].device
  {
    StartIsSound(db, lifetime, now);
    PlayKeepsInv(Start(db), schedule);
    DeviceAlongChain(Play(Start(db), schedule).rows, i, j);
  }

  // ---------------------------------------------------------------- what revokes a row

  /** A hash collision rolls the rotation back: the presented row is still unrevoked, and unlocked. */
  lemma CollisionLeavesRowLive(m: Machine, t: TxId)
    requires Inv(m) && t in m.txs && m.txs[t].Consuming?
    requires HashTaken(m.rows, m.txs[t].a.replacement) && !HashPending(m, m.txs[t].a.replacement)
    ensures
      var after, id := Act(m, InsertChild(t)), m.txs[t].id;
      && after.txs[t].RolledBack? && after.rows == m.rows
      && id in after.rows && after.rows[id].hash == m.txs[t].a.hash && after.rows[id].revoked.None?
      && id !in after.locks
  {
    assert TxSound(m, m.txs[t]) && m.txs[t].id in Holds(m.txs[t]);
  }

  /** The action is a logout of row `i`, or the commit of its rotation or of a sweep that marked it. */
  ghost predicate Revokes(m: Machine, x: Action, i: nat) {
    match x
    case LogoutRow(row, _) => row == i
    case Commit(t) =>
      t in m.txs &&
      ((m.txs[t].Inserted? && m.txs[t].id == i) ||
       (Sweeps(m.txs[t]) && m.txs[t].todo == {} && i in m.txs[t].marked))
    case _ => false
  }

  lemma ActRevokes(m: Machine, x: Action, i: nat)
    requires TxsSound(m) && m.nextId !in m.rows && i in m.rows && m.rows[i].revoked.None?
    requires i in Act(m, x).rows && Act(m, x).rows[i].revoked.Some?
    ensures Revokes(m, x, i)
  {
    if x.Commit? && x.t in m.txs { assert TxSound(m, m.txs[x.t]); }
  }

  /** Action `k` of the schedule revokes row `i`, which is until then as it was. */
  ghost predicate RevokedAt(m: Machine, schedule: seq<Action>, k: nat, i: nat)
    requires k < |schedule| && i in m.rows
  {
    var before := Play(m, schedule[..k]);
    var after := Act(before, schedule[k]);
    && Inv(before) && i in before.rows && before.rows[i] == m.rows[i]
    && Revokes(before, schedule[k], i)
    && i in after.rows && after.rows[i].revoked.Some?
  }

  lemma RevokedLater(m: Machine, schedule: seq<Action>, k: nat, i: nat)
    requires 0 < k < |schedule| && i in m.rows && i in Act(m, schedule[0]).rows
    requires Act(m, schedule[0]).rows[i] == m.rows[i]
    requires RevokedAt(Act(m, schedule[0]), schedule[1..], k - 1, i)
    ensures RevokedAt(m, schedule, k, i)
  {
    assert schedule[..k][1..] == schedule[1..][..k - 1];
  }

  /**
   * Under every schedule a committed row becomes revoked only by a logout of that row, by the commit
   * of its rotation, or by the commit of a sweep that marked it; never by a transaction that rolls back.
   */
  lemma {:induction false} RevokedOnlyBy(m: Machine, schedule: seq<Action>, i: nat) returns (k: nat)
    requires Inv(m) && i in m.rows && m.rows[i].revoked.None?
    requires i in Play(m, schedule).rows && Play(m, schedule).rows[i].revoked.Some?
    ensures k < |schedule| && RevokedAt(m, schedule, k, i)
    decreases |schedule|
  {
    var next := Act(m, schedule[0]);
    ActKeepsInv(m, schedule[0]);
    if next.rows[i].revoked.Some? {
      ActRevokes(m, schedule[0], i);
      k := 0;
    } else {
      var k0 := RevokedOnlyBy(next, schedule[1..], i);
      k := k0 + 1;
      RevokedLater(m, schedule, k, i);
    }
  }

  /** The action is one of transaction `t`, once it has begun. */
  predicate Moves(x: Action, t: TxId) {
    match x
    case SelectForUpdate(u) => u == t
    case NextStatement(u) => u == t
    case SweepRow(u, _) => u == t
    case InsertChild(u) => u == t
    case Commit(u) => u == t
    case Rollback(u) => u == t
    case _ => false
  }

  lemma OnlyOwnActions(m: Machine, x: Action, t: TxId)
    requires t in m.txs && !Moves(x, t)
    ensures t in Act(m, x).txs && Act(m, x).txs[t] == m.txs[t]
  {
  }

  lemma ActFinished(m: Machine, x: Action, t: TxId)
    requires t in m.txs && !Unfinished(m.txs[t])
    ensures t in Act(m, x).txs && Act(m, x).txs[t] == m.txs[t]
  {
  }

  lemma {:induction false} FinishedStays(m: Machine, schedule: seq<Action>, t: TxId)
    requires t in m.txs && !Unfinished(m.txs[t])
    ensures t in Play(m, schedule).txs && Play(m, schedule).txs[t] == m.txs[t]
    decreases |schedule|
  {
    if schedule != [] {
      ActFinished(m, schedule[0], t);
      FinishedStays(Act(m, schedule[0]), schedule[1..], t);
    }
  }

  /** The transaction presents the hash. */
  predicate Presents(tx: Tx, hash: string) {
    !tx.Clearing? && !tx.Cleared? && !tx.Cancelled? && tx.a.hash == hash
  }

  /** The transaction was a sweep of the rows of family `f`, or of the rows of user `u`, and has committed. */
  ghost predicate SweptBy(rows: Rows, tx: Tx, f: Family, u: nat) {
    || tx == Cleared(u)
    || (tx.Ended? && tx.outcome in {Reused, BindingMismatch} &&
        exists j: nat :: InFamily(rows, j, f) && rows[j].hash == tx.a.hash)
  }

  /** The transaction has rotated the row, or was a sweep that covers it. */
  ghost predicate Ends(m: Machine, t: TxId, row: Row) {
    && t in m.txs && !Unfinished(m.txs[t])
    && ((m.txs[t].EndedRotated? && m.txs[t].a.hash == row.hash) || SweptBy(m.rows, m.txs[t], row.family, row.user))
  }

  lemma CommitEnds(m: Machine, t: TxId, i: nat)
    requires TxsSound(m) && i in m.rows && Revokes(m, Commit(t), i)
    requires RowsGrow(m.rows, Act(m, Commit(t)).rows, {})
    ensures Ends(Act(m, Commit(t)), t, m.rows[i])
  {
    assert TxSound(m, m.txs[t]);
    if m.txs[t].Sweeping? {
      assert InFamily(Act(m, Commit(t)).rows, m.txs[t].id, m.rows[i].family);
    }
  }

  lemma EndsStays(m: Machine, schedule: seq<Action>, t: TxId, row: Row)
    requires Ends(m, t, row) && RowsGrow(m.rows, Play(m, schedule).rows, {})
    ensures Ends(Play(m, schedule), t, row)
  {
    FinishedStays(m, schedule, t);
    if m.txs[t].Ended? {
      var j: nat :| InFamily(m.rows, j, row.family) && m.rows[j].hash == m.txs[t].a.hash;
      assert InFamily(Play(m, schedule).rows, j, row.family);
    }
  }

  /**
   * A hash whose transactions have all rolled back, by a collision or otherwise, is still live: its
   * row is what it was unless it was logged out or a sweep of its family or of its user has committed.
   */
  lemma RolledBackHashStaysLive(m: Machine, schedule: seq<Action>, i: nat)
    requires Inv(m) && i in m.rows && m.rows[i].revoked.None?
    requires forall k :: 0 <= k < |schedule| && schedule[k].LogoutRow? ==> schedule[k].row != i
    requires
      var last := Play(m, schedule);
      && (forall t :: t in last.txs && Presents(last.txs[t], m.rows[i].hash) ==> last.txs[t].RolledBack?)
      && (forall t :: t in last.txs ==> !SweptBy(last.rows, last.txs[t], m.rows[i].family, m.rows[i].user))
    ensures i in Play(m, schedule).rows && Play(m, schedule).rows[i] == m.rows[i]
  {
    var last := Play(m, schedule);
    PlayKeepsInv(m, schedule);
    if last.rows[i].revoked.Some? {
      var k := RevokedOnlyBy(m, schedule, i);
      RevokedByEnd(m, schedule, i, k);
    }
  }

  lemma RevokedByEnd(m: Machine, schedule: seq<Action>, i: nat, k: nat)
    requires k < |schedule| && i in m.rows && RevokedAt(m, schedule, k, i) && !schedule[k].LogoutRow?
    ensures Ends(Play(m, schedule), schedule[k].t, m.rows[i])
  {
    var before, x, rest := Play(m, schedule[..k]), schedule[k], schedule[k + 1..];
    PlayAround(m, schedule, k);
    ActKeepsInv(before, x);
    CommitEnds(before, x.t, i);
    PlayKeepsInv(Act(before, x), rest);
    EndsStays(Act(before, x), rest, x.t, m.rows[i]);
  }
}
