/** What runs with no other transaction in between is what the one-step form does. */
module SerialRotation {
  import opened Options
  import opened RefreshTokens
  import opened RotationSchedule

  /** How the transaction ended, against the result of the one-step rotation. */
  ghost predicate Reports(tx: Tx, a: RotateArgs, result: Result<Rotation, DbError>) {
    match result
    case Err(_) => tx == RolledBack(a)
    case Ok(rotation) =>
      if rotation.outcome == Rotated then
        tx.EndedRotated? && tx.a == a && rotation.token.Some? && tx.child == rotation.token.value.id
      else tx == Ended(a, rotation.outcome)
  }

  ghost predicate Agrees(after: Machine, m: Machine, t: TxId, a: RotateArgs) {
    var (db, result) := Rotate(Db(m.rows, m.nextId), a);
    && after.rows == db.rows && after.nextId == db.nextId && after.locks == map[]
    && t in after.txs && Reports(after.txs[t], a, result)
  }

  ghost function SweptOnce(m: Machine, t: TxId, row: nat): (next: Machine)
    requires t in m.txs && Sweeps(m.txs[t]) && row in m.txs[t].todo
    requires row in m.rows && m.rows[row].revoked.None? && MayLock(m, row, t)
    ensures next == Act(m, SweepRow(t, row))
    ensures |next.txs[t].todo| < |m.txs[t].todo|
  {
    var tx := m.txs[t];
    assert |tx.todo - {row}| < |tx.todo|;
    m.(locks := m.locks[row := t], txs := m.txs[t := Further(tx, tx.todo - {row}, tx.marked + {row})])
  }

  /** The sweep is over: everything that was to do is marked, and nothing else changed. */
  ghost predicate SweptAll(m: Machine, t: TxId, after: Machine)
    requires t in m.txs && Sweeps(m.txs[t])
  {
    var tx := m.txs[t];
    && after.rows == m.rows && after.nextId == m.nextId
    && after.txs == m.txs[t := Further(tx, {}, tx.marked + tx.todo)]
    && OnlyLocker(after, t)
  }

  ghost predicate OnlyLocker(m: Machine, t: TxId) {
    forall i :: i in m.locks ==> m.locks[i] == t
  }

  lemma SweptAllStep(m: Machine, t: TxId, row: nat, after: Machine)
    requires t in m.txs && Sweeps(m.txs[t]) && row in m.txs[t].todo
    requires row in m.rows && m.rows[row].revoked.None? && MayLock(m, row, t)
    requires SweptAll(SweptOnce(m, t, row), t, after)
    ensures SweptAll(m, t, after)
  {
    var tx := m.txs[t];
    assert (tx.marked + {row}) + (tx.todo - {row}) == tx.marked + tx.todo;
  }

  /** The sweep by the only transaction that holds locks. */
  lemma {:induction false} SweepAlone(m: Machine, t: TxId) returns (s: seq<Action>)
    requires t in m.txs && Sweeps(m.txs[t]) && OnlyLocker(m, t)
    requires forall i :: i in m.txs[t].todo ==> i in m.rows && m.rows[i].revoked.None?
    ensures SweptAll(m, t, Play(m, s))
    decreases |m.txs[t].todo|
  {
    var tx := m.txs[t];
    if tx.todo == {} {
      s := [];
      assert tx.marked + tx.todo == tx.marked;
    } else {
      var row :| row in tx.todo;
      var next := SweptOnce(m, t, row);
      var rest := SweepAlone(next, t);
      s := [SweepRow(t, row)] + rest;
      PlayOne(m, SweepRow(t, row), rest);
      SweptAllStep(m, t, row, Play(next, rest));
    }
  }

  /** Up to the decision that follows the locked read. */
  lemma ReadAlone(m: Machine, t: TxId, a: RotateArgs, i: nat)
    requires t !in m.txs && m.locks == map[] && Find(m.rows, a.hash) == Some(i) && a.device != Some("")
    ensures
      Play(m, [Begin(t, a), SelectForUpdate(t), NextStatement(t)]) ==
        m.(locks := map[i := t], txs := m.txs[t := Branch(m, Locked(a, i))])
  {
    PlayThree(m, Begin(t, a), SelectForUpdate(t), NextStatement(t));
    var begun := Act(m, Begin(t, a));
    var locked := Act(begun, SelectForUpdate(t));
    assert locked == m.(locks := map[i := t], txs := m.txs[t := Locked(a, i)]);
    assert m.txs[t := Locked(a, i)][t := Branch(m, Locked(a, i))] == m.txs[t := Branch(m, Locked(a, i))];
  }

  lemma SweepAndCommit(m: Machine, t: TxId, a: RotateArgs, i: nat, outcome: Outcome, live: set<nat>)
      returns (s: seq<Action>)
    requires i in m.rows && m.locks == map[]
    requires live == set k | k in m.rows && m.rows[k].family == m.rows[i].family && m.rows[k].revoked.None?
    ensures
      var start := m.(locks := map[i := t], txs := m.txs[t := Sweeping(a, i, outcome, m.rows.Keys, live, {})]);
      var after := Play(start, s);
      && after.rows == RevokeAll(m.rows, WholeFamily(m.rows[i].family), a.at) && after.nextId == m.nextId
      && after.locks == map[] && after.txs == m.txs[t := Ended(a, outcome)]
  {
    var start := m.(locks := map[i := t], txs := m.txs[t := Sweeping(a, i, outcome, m.rows.Keys, live, {})]);
    var sweeps := SweepAlone(start, t);
    s := sweeps + [Commit(t)];
    PlayLast(start, sweeps, Commit(t));
    var swept := Play(start, sweeps);
    assert swept.txs[t] == Sweeping(a, i, outcome, m.rows.Keys, {}, {} + live);
    assert {} + live == live;
    var after := Act(swept, Commit(t));
    assert after.locks == map[];
    assert after.rows == RevokeAll(m.rows, WholeFamily(m.rows[i].family), a.at);
  }

  lemma ConsumeAlone(m: Machine, t: TxId, a: RotateArgs, i: nat) returns (s: seq<Action>)
    requires i in m.rows && m.locks == map[] && t !in m.txs && Find(m.rows, a.hash) == Some(i)
    requires forall u :: u in m.txs ==> !m.txs[u].Inserted?
    requires Consumable(Db(m.rows, m.nextId), a) && forall k :: k in m.rows ==> k < m.nextId
    ensures
      var start := m.(locks := map[i := t], txs := m.txs[t := Consuming(a, i)]);
      Agrees(Play(start, s), m, t, a)
  {
    var db := Db(m.rows, m.nextId);
    RotateCases(db, a);
    var start := m.(locks := map[i := t], txs := m.txs[t := Consuming(a, i)]);
    assert !HashPending(start, a.replacement);
    s := [InsertChild(t)];
    PlayLast(start, [], InsertChild(t));
    assert [] + s == s;
    var inserted := Act(start, InsertChild(t));
    if HashTaken(m.rows, a.replacement) {
      assert inserted.locks == map[];
    } else {
      PlayLast(start, s, Commit(t));
      s := s + [Commit(t)];
      var after := Act(inserted, Commit(t));
      assert after.rows == Consumed(db, i, a);
      assert after.locks == map[];
    }
  }

  lemma NothingHeld(m: Machine)
    requires LocksHeld(m) && m.locks == map[]
    ensures forall u :: u in m.txs ==> !m.txs[u].Inserted?
  {
    forall u | u in m.txs ensures Holds(m.txs[u]) <= m.locks.Keys {}
    assert forall u :: u in m.txs && m.txs[u].Inserted? ==> m.txs[u].id in Holds(m.txs[u]);
  }

  /** No row to lock: the transaction ends at once. */
  lemma MissingAlone(m: Machine, t: TxId, a: RotateArgs) returns (s: seq<Action>)
    requires m.locks == map[] && t !in m.txs && Find(m.rows, a.hash) == None && a.device != Some("")
    ensures Agrees(Play(m, s), m, t, a)
  {
    s := [Begin(t, a), SelectForUpdate(t), Commit(t)];
    PlayThree(m, s[0], s[1], s[2]);
    assert Act(Act(Act(m, s[0]), s[1]), s[2]).locks == map[];
  }

  /** The statements that follow the decision. */
  lemma BranchAlone(m: Machine, t: TxId, a: RotateArgs, i: nat) returns (s: seq<Action>)
    requires i in m.rows && m.locks == map[] && t !in m.txs && Find(m.rows, a.hash) == Some(i)
    requires forall u :: u in m.txs ==> !m.txs[u].Inserted?
    requires forall k :: k in m.rows ==> k < m.nextId
    ensures Agrees(Play(m.(locks := map[i := t], txs := m.txs[t := Branch(m, Locked(a, i))]), s), m, t, a)
  {
    var tx := Branch(m, Locked(a, i));
    var start := m.(locks := map[i := t], txs := m.txs[t := tx]);
    if tx.Sweeping? {
      s := SweepAndCommit(m, t, a, i, tx.outcome, tx.todo);
    } else if tx.Idle? {
      s := [Commit(t)];
      PlayLast(start, [], Commit(t));
      assert [] + s == s && Act(start, Commit(t)).locks == map[];
    } else {
      s := ConsumeAlone(m, t, a, i);
    }
  }

  /** The statements of one rotation, run alone, do what `Rotate` does in one step. */
  lemma RotationAlone(m: Machine, t: TxId, a: RotateArgs) returns (s: seq<Action>)
    requires Inv(m) && m.locks == map[] && t !in m.txs && a.device != Some("")
    ensures Agrees(Play(m, s), m, t, a)
  {
    NothingHeld(m);
    match Find(m.rows, a.hash)
    case None =>
      s := MissingAlone(m, t, a);
    case Some(i) =>
      var read := [Begin(t, a), SelectForUpdate(t), NextStatement(t)];
      ReadAlone(m, t, a, i);
      var rest := BranchAlone(m, t, a, i);
      s := read + rest;
      PlayAppend(m, read, rest);
  }

  /** The statement of a logout of all sessions, run alone, revokes every unrevoked row of the user. */
  lemma LogoutAllAlone(m: Machine, t: TxId, user: nat, at: int) returns (s: seq<Action>)
    requires m.locks == map[] && t !in m.txs
    ensures
      var after := Play(m, s);
      && after.rows == RevokeAll(m.rows, AllOfUser(user), at) && after.nextId == m.nextId
      && after.locks == map[] && after.txs == m.txs[t := Cleared(user)]
  {
    var begun := Act(m, ClearUser(t, user, at));
    var live := begun.txs[t].todo;
    var sweeps := SweepAlone(begun, t);
    var rest := sweeps + [Commit(t)];
    s := [ClearUser(t, user, at)] + rest;
    PlayOne(m, ClearUser(t, user, at), rest);
    PlayLast(begun, sweeps, Commit(t));
    var swept := Play(begun, sweeps);
    assert {} + live == live;
    assert swept.txs[t] == Clearing(user, at, m.rows.Keys, {}, live);
    var after := Act(swept, Commit(t));
    assert after.locks == map[];
    assert after.rows == RevokeAll(m.rows, AllOfUser(user), at);
  }

  /** A logout of an unlocked row, and a login that opens a family under a hash of its own, are done at once. */
  lemma LogoutAndLoginAlone(m: Machine, row: nat, at: int, root: Row)
    requires row !in m.locks
    requires root.parent.None? && root.revoked.None? && root.device != Some("")
    requires forall i :: i in m.rows ==> m.rows[i].family != root.family && m.rows[i].hash != root.hash
    requires forall t :: t in m.txs && m.txs[t].Inserted? ==> m.txs[t].a.replacement != root.hash
    ensures Act(m, LogoutRow(row, at)) == m.(rows := RevokeAll(m.rows, OneRow(row), at))
    ensures
      var db := Insert(Db(m.rows, m.nextId), root).0;
      Act(m, LoginRow(root)) == m.(rows := db.rows, nextId := db.nextId)
  {
    assert !HashTaken(m.rows, root.hash) && !HashPending(m, root.hash);
  }
}
