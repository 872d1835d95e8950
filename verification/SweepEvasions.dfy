/** How a rotation of a row that a sweep waits for can commit first, and its child survive the sweep. */
module SweepEvasions {
  import opened Options
  import opened Fresh
  import opened RefreshTokens
  import opened FamilyChains
  import opened RotationSchedule

  /** What the service passes to a rotation: a full refresh lifetime, and the binding switch of the settings. */
  predicate Issuable(a: RotateArgs, lifetime: int, bind: bool) {
    a.replacementExpires == a.at + lifetime && a.bindDevice == bind && a.device != Some("")
  }

  predicate AllIssuable(schedule: seq<Action>, lifetime: int, bind: bool) {
    forall k :: 0 <= k < |schedule| && schedule[k].Begin? ==> Issuable(schedule[k].a, lifetime, bind)
  }

  predicate NoneBegins(schedule: seq<Action>) {
    forall k :: 0 <= k < |schedule| ==> !schedule[k].Begin?
  }

  /** Nothing in the schedule makes the transaction roll back. */
  predicate NoneUndoes(schedule: seq<Action>, t: TxId) {
    forall k :: 0 <= k < |schedule| ==> schedule[k] != Rollback(t)
  }

  /** A hash that is neither stored nor about to be. */
  lemma FreshHash(m: Machine) returns (hash: string)
    ensures !HashTaken(m.rows, hash) && !HashPending(m, hash)
  {
    var stored := set i | i in m.rows :: m.rows[i].hash;
    var pending := set t | t in m.txs && m.txs[t].Inserted? :: m.txs[t].a.replacement;
    hash := FreshText(stored + pending);
    forall i | i in m.rows ensures m.rows[i].hash != hash {
      assert m.rows[i].hash in stored;
    }
    forall t | t in m.txs && m.txs[t].Inserted? ensures m.txs[t].a.replacement != hash {
      assert m.txs[t].a.replacement in pending;
    }
  }

  // ---------------------------------------------------------------- a sweep that runs to its end

  lemma RollbackFrees(m: Machine, t: TxId, row: nat)
    requires LocksOwned(m) && t in m.txs && row in m.locks && m.locks[row] != t
    ensures
      var after := Act(m, Rollback(m.locks[row]));
      && after.rows == m.rows && after.nextId == m.nextId && row !in after.locks
      && t in after.txs && after.txs[t] == m.txs[t]
  {
    assert Owns(m.txs[m.locks[row]], row);
  }

  /** Nobody but the transaction has the row locked, and neither the rows nor the transaction have changed. */
  ghost predicate Freed(m: Machine, after: Machine, t: TxId, row: nat)
    requires t in m.txs
  {
    && after.rows == m.rows && after.nextId == m.nextId && MayLock(after, row, t)
    && t in after.txs && after.txs[t] == m.txs[t]
  }

  /** Whoever else has locked the row rolls back. */
  lemma FreeRow(m: Machine, t: TxId, row: nat) returns (s: seq<Action>)
    requires Inv(m) && t in m.txs
    ensures NoneBegins(s) && NoneUndoes(s, t)
    ensures Inv(Play(m, s)) && Freed(m, Play(m, s), t, row)
  {
    s := [];
    if row in m.locks && m.locks[row] != t {
      s := [Rollback(m.locks[row])];
      PlaySingle(m, s[0]);
      RollbackFrees(m, t, row);
      RollbackKeepsInv(m, m.locks[row]);
    }
  }

  /** A row that may be locked by the transaction and is not held by it is not locked. */
  lemma NotHeldNotLocked(m: Machine, t: TxId, row: nat)
    requires LocksOwned(m) && t in m.txs && !m.txs[t].Idle? && row !in Holds(m.txs[t]) && MayLock(m, row, t)
    ensures row !in m.locks
  {
  }

  /** The sweep is under way, and the rows in `kept` are unrevoked and none of its business. */
  ghost predicate Spares(m: Machine, t: TxId, kept: set<nat>) {
    && t in m.txs && Sweeps(m.txs[t])
    && forall i :: i in kept ==>
         i in m.rows && m.rows[i].revoked.None? && i !in m.txs[t].todo && i !in m.txs[t].marked
  }

  /** The sweep has committed, and the rows in `kept` are what they were. */
  ghost predicate EndsSparing(m: Machine, after: Machine, t: TxId, kept: set<nat>)
    requires t in m.txs && Sweeps(m.txs[t])
  {
    && t in after.txs
    && after.txs[t] == (match m.txs[t]
                        case Sweeping(a, _, outcome, _, _, _) => Ended(a, outcome)
                        case Clearing(user, _, _, _, _) => Cleared(user))
    && forall i :: i in kept && i in m.rows ==> i in after.rows && after.rows[i] == m.rows[i]
  }

  lemma CommitSpares(m: Machine, t: TxId, kept: set<nat>)
    requires Spares(m, t, kept) && m.txs[t].todo == {}
    ensures EndsSparing(m, Act(m, Commit(t)), t, kept)
  {
  }

  lemma SweepSpares(m: Machine, t: TxId, kept: set<nat>, row: nat)
    requires Spares(m, t, kept) && CanSweep(m, t, row)
    ensures
      var after := Act(m, SweepRow(t, row));
      && Spares(after, t, kept) && after.rows == m.rows && SameSweep(m.txs[t], after.txs[t])
      && |after.txs[t].todo| < |m.txs[t].todo|
  {
    assert |m.txs[t].todo - {row}| < |m.txs[t].todo|;
  }

  /** What a sweep is for does not change while it goes on. */
  ghost predicate SameSweep(tx: Tx, further: Tx) {
    || (tx.Sweeping? && further.Sweeping? && further.a == tx.a && further.id == tx.id && further.outcome == tx.outcome)
    || (tx.Clearing? && further.Clearing? && further.user == tx.user)
  }

  lemma TodoIsStored(m: Machine, t: TxId)
    requires TxsSound(m) && t in m.txs && Sweeps(m.txs[t])
    ensures m.txs[t].todo <= m.rows.Keys && m.txs[t].marked <= m.rows.Keys
  {
    assert TxSound(m, m.txs[t]);
  }

  /** The sweep has one row less to do. */
  ghost predicate GoesFurther(m: Machine, after: Machine, t: TxId, kept: set<nat>)
    requires t in m.txs && Sweeps(m.txs[t])
  {
    && Spares(after, t, kept) && after.rows == m.rows && SameSweep(m.txs[t], after.txs[t])
    && |after.txs[t].todo| < |m.txs[t].todo|
  }

  lemma FreedRowIsSwept(m: Machine, freed: Machine, t: TxId, kept: set<nat>, row: nat)
    requires Inv(freed) && Spares(m, t, kept) && row in m.txs[t].todo && row in m.rows && Freed(m, freed, t, row)
    ensures Inv(Act(freed, SweepRow(t, row))) && GoesFurther(m, Act(freed, SweepRow(t, row)), t, kept)
  {
    SweepSpares(freed, t, kept, row);
    SweepKeepsInv(freed, t, row);
  }

  /** One more row of the sweep, once every other holder of its lock has rolled back. */
  lemma SweepGoesFurther(m: Machine, t: TxId, kept: set<nat>, row: nat) returns (s: seq<Action>)
    requires Inv(m) && Spares(m, t, kept) && row in m.txs[t].todo && row in m.rows
    ensures NoneBegins(s) && NoneUndoes(s, t)
    ensures Inv(Play(m, s)) && GoesFurther(m, Play(m, s), t, kept)
  {
    var s1 := FreeRow(m, t, row);
    s := s1 + [SweepRow(t, row)];
    PlayLast(m, s1, SweepRow(t, row));
    FreedRowIsSwept(m, Play(m, s1), t, kept, row);
  }

  lemma EndsSparingFrom(m: Machine, further: Machine, after: Machine, t: TxId, kept: set<nat>)
    requires t in m.txs && t in further.txs && SameSweep(m.txs[t], further.txs[t]) && further.rows == m.rows
    requires EndsSparing(further, after, t, kept)
    ensures EndsSparing(m, after, t, kept)
  {
  }

  lemma FreeRowIsSwept(m: Machine, t: TxId, kept: set<nat>, row: nat)
    requires Inv(m) && Spares(m, t, kept) && CanSweep(m, t, row)
    ensures
      var after := Act(m, SweepRow(t, row));
      && Inv(after) && Spares(after, t, kept) && after.rows == m.rows && SameSweep(m.txs[t], after.txs[t])
      && |after.txs[t].todo| < |m.txs[t].todo|
  {
    SweepSpares(m, t, kept, row);
    ActKeepsInv(m, SweepRow(t, row));
  }

  lemma SomeRowGoesFurther(m: Machine, t: TxId, kept: set<nat>) returns (s: seq<Action>)
    requires Inv(m) && Spares(m, t, kept) && m.txs[t].todo != {}
    ensures NoneBegins(s) && NoneUndoes(s, t)
    ensures Inv(Play(m, s)) && GoesFurther(m, Play(m, s), t, kept)
  {
    TodoIsStored(m, t);
    var row :| row in m.txs[t].todo;
    s := SweepGoesFurther(m, t, kept, row);
  }

  lemma FurtherEnds(m: Machine, s: seq<Action>, rest: seq<Action>, t: TxId, kept: set<nat>)
    requires t in m.txs && Sweeps(m.txs[t]) && GoesFurther(m, Play(m, s), t, kept)
    requires EndsSparing(Play(m, s), Play(Play(m, s), rest), t, kept)
    ensures EndsSparing(m, Play(m, s + rest), t, kept)
  {
    PlayAppend(m, s, rest);
    EndsSparingFrom(m, Play(m, s), Play(m, s + rest), t, kept);
  }

  /** Row by row the sweep can always run to its commit. */
  lemma {:induction false} SweepCanEnd(m: Machine, t: TxId, kept: set<nat>) returns (s: seq<Action>)
    requires Inv(m) && Spares(m, t, kept)
    ensures NoneBegins(s) && NoneUndoes(s, t)
    ensures EndsSparing(m, Play(m, s), t, kept)
    decreases |m.txs[t].todo|
  {
    if m.txs[t].todo == {} {
      s := [Commit(t)];
      PlaySingle(m, Commit(t));
      CommitSpares(m, t, kept);
    } else {
      var s1 := SomeRowGoesFurther(m, t, kept);
      var rest := SweepCanEnd(Play(m, s1), t, kept);
      s := s1 + rest;
      FurtherEnds(m, s1, rest, t, kept);
    }
  }

  // ---------------------------------------------------------------- a rotation that commits first

  /** A rotation of the tip from its own device, whose instant was read before the tip expired. */
  function Evasion(m: Machine, tip: nat, hash: string, lifetime: int, bind: bool): RotateArgs
    requires tip in m.rows
  {
    var row := m.rows[tip];
    RotateArgs(row.hash, hash, row.expires - 1 + lifetime, row.expires - 1, bind, row.device, None)
  }

  lemma LockTip(m: Machine, begun: Machine, tip: nat, u: TxId, a: RotateArgs)
    requires UniqueHashes(m.rows) && tip in m.rows && m.rows[tip].hash == a.hash && tip !in m.locks
    requires begun == m.(txs := m.txs[u := Begun(a)])
    ensures Act(begun, SelectForUpdate(u)) == begun.(locks := m.locks[tip := u], txs := begun.txs[u := Locked(a, tip)])
  {
    assert Find(m.rows, a.hash) == Some(tip);
  }

  /** A new transaction locks the tip and consumes it. */
  lemma ConsumeTip(m: Machine, tip: nat, u: TxId, a: RotateArgs) returns (s: seq<Action>)
    requires UniqueHashes(m.rows) && tip in m.rows && m.rows[tip].revoked.None? && tip !in m.locks && u !in m.txs
    requires a.hash == m.rows[tip].hash && a.at < m.rows[tip].expires && a.device == m.rows[tip].device
    requires a.device != Some("")
    ensures s == [Begin(u, a), SelectForUpdate(u), NextStatement(u)]
    ensures Play(m, s) == m.(locks := m.locks[tip := u], txs := m.txs[u := Consuming(a, tip)])
  {
    s := [Begin(u, a), SelectForUpdate(u), NextStatement(u)];
    PlayThree(m, s[0], s[1], s[2]);
    var begun := m.(txs := m.txs[u := Begun(a)]);
    assert Act(m, s[0]) == begun;
    var locked := m.(locks := m.locks[tip := u], txs := m.txs[u := Locked(a, tip)]);
    LockTip(m, begun, tip, u, a);
    assert m.txs[u := Begun(a)][u := Locked(a, tip)] == m.txs[u := Locked(a, tip)];
    assert Branch(locked, Locked(a, tip)) == Consuming(a, tip);
    assert m.txs[u := Locked(a, tip)][u := Consuming(a, tip)] == m.txs[u := Consuming(a, tip)];
  }

  ghost predicate CanInsert(m: Machine, u: TxId, tip: nat) {
    && u in m.txs && m.txs[u].Consuming? && m.txs[u].id == tip && tip in m.rows
    && !HashTaken(m.rows, m.txs[u].a.replacement) && !HashPending(m, m.txs[u].a.replacement)
  }

  lemma CommitChildRows(m: Machine, tip: nat, u: TxId)
    requires CanInsert(m, u, tip) && m.nextId !in m.rows
    ensures
      var after := Act(Act(m, InsertChild(u)), Commit(u));
      var row := m.rows[tip].(revoked := Some(m.txs[u].a.at));
      && after.rows == m.rows[tip := row][m.nextId := Replacement(tip, m.rows[tip], m.txs[u].a)]
      && forall t :: t in m.txs && t != u ==> t in after.txs && after.txs[t] == m.txs[t]
  {
  }

  /** It inserts the child under the fresh hash and commits. */
  lemma CommitChild(m: Machine, t: TxId, tip: nat, u: TxId) returns (s: seq<Action>)
    requires Inv(m) && CanInsert(m, u, tip) && t in m.txs && t != u
    ensures NoneBegins(s)
    ensures
      var after := Play(m, s);
      && t in after.txs && after.txs[t] == m.txs[t]
      && InFamily(after.rows, m.nextId, m.rows[tip].family) && after.rows[m.nextId].revoked.None?
  {
    s := [InsertChild(u), Commit(u)];
    PlayLast(m, [InsertChild(u)], Commit(u));
    PlayLast(m, [], InsertChild(u));
    assert [InsertChild(u)] + [Commit(u)] == s && [] + [InsertChild(u)] == [InsertChild(u)];
    CommitChildRows(m, tip, u);
  }

  /** The sweep stands before row `tip` and does not hold it yet. */
  ghost predicate Awaits(m: Machine, t: TxId, tip: nat) {
    && t in m.txs && Sweeps(m.txs[t]) && tip in m.txs[t].todo && tip !in Holds(m.txs[t])
    && tip in m.rows && m.rows[tip].revoked.None?
  }

  /** A new transaction locks the tip of the awaited family and consumes it, and can insert its child. */
  lemma TipIsConsumed(m: Machine, t: TxId, tip: nat, lifetime: int, bind: bool) returns (s: seq<Action>, u: TxId)
    requires Inv(m) && Awaits(m, t, tip) && tip !in m.locks
    ensures AllIssuable(s, lifetime, bind)
    ensures
      var after := Play(m, s);
      && after.rows == m.rows && after.nextId == m.nextId
      && t in after.txs && after.txs[t] == m.txs[t] && u != t && CanInsert(after, u, tip)
  {
    var hash := FreshHash(m);
    u := FreshNat(m.txs.Keys);
    var a := Evasion(m, tip, hash, lifetime, bind);
    assert RowBound(m.rows, tip);
    s := ConsumeTip(m, tip, u, a);
    ConsumingCanInsert(m, tip, u, a);
  }

  lemma ConsumingCanInsert(m: Machine, tip: nat, u: TxId, a: RotateArgs)
    requires tip in m.rows && !HashTaken(m.rows, a.replacement) && !HashPending(m, a.replacement)
    ensures CanInsert(m.(locks := m.locks[tip := u], txs := m.txs[u := Consuming(a, tip)]), u, tip)
  {
  }

  /** The tip is consumed and its child is committed, while the sweep stands where it stood. */
  lemma TipIsRotated(m: Machine, t: TxId, tip: nat, lifetime: int, bind: bool) returns (s: seq<Action>, child: nat)
    requires Inv(m) && Awaits(m, t, tip) && tip !in m.locks
    ensures AllIssuable(s, lifetime, bind)
    ensures
      var after := Play(m, s);
      && Inv(after) && t in after.txs && after.txs[t] == m.txs[t] && child !in m.rows
      && InFamily(after.rows, child, m.rows[tip].family) && after.rows[child].revoked.None?
  {
    var s1, u := TipIsConsumed(m, t, tip, lifetime, bind);
    var m1 := Play(m, s1);
    PlayKeepsInv(m, s1);
    var s2 := CommitChild(m1, t, tip, u);
    s, child := s1 + s2, m1.nextId;
    PlayAppend(m, s1, s2);
    PlayKeepsInv(m1, s2);
  }

  /** Nobody but the sweep can stand in the way of the tip, and the sweep does not hold it. */
  lemma FreeTip(m: Machine, t: TxId, tip: nat) returns (s: seq<Action>)
    requires Inv(m) && Awaits(m, t, tip)
    ensures NoneBegins(s)
    ensures
      var after := Play(m, s);
      && Inv(after) && after.rows == m.rows && Awaits(after, t, tip) && tip !in after.locks
  {
    s := FreeRow(m, t, tip);
    var after := Play(m, s);
    NotHeldNotLocked(after, t, tip);
  }

  /**
   * From any state in which a sweep waits for an unrevoked row it does not hold: a schedule of rotations
   * the service can issue in which the sweep commits and a child of that row stays unrevoked.
   */
  lemma SweepEvaded(m: Machine, t: TxId, tip: nat, lifetime: int, bind: bool)
      returns (schedule: seq<Action>, child: nat)
    requires Inv(m) && Awaits(m, t, tip)
    ensures AllIssuable(schedule, lifetime, bind)
    ensures
      var after := Play(m, schedule);
      && Committed(after, t)
      && InFamily(after.rows, child, m.rows[tip].family) && after.rows[child].revoked.None?
  {
    var s1 := FreeTip(m, t, tip);
    var m1 := Play(m, s1);
    var s2, i := TipIsRotated(m1, t, tip, lifetime, bind);
    TodoIsStored(m1, t);
    var m2 := Play(m1, s2);
    var s3 := SweepCanEnd(m2, t, {i});
    schedule, child := s1 + (s2 + s3), i;
    PlayAppend(m, s1, s2 + s3);
    PlayAppend(m1, s2, s3);
  }
}
