/** A family sweep against concurrent rotations: exactly when it ends the family whatever else runs. */
module FamilySweeps {
  import opened Options
  import opened RefreshTokens
  import opened FamilyChains
  import opened RotationSchedule
  import opened RotationTheorems
  import opened SweepCoverage
  import opened SweepEvasions

  // ---------------------------------------------------------------- sweeps that end the family

  /**
   * The sweep from row `id` has ended the family or has rolled back, or it goes on and cannot be
   * evaded: the transaction holds the family's one unrevoked row, or there is none.
   */
  ghost predicate Inescapable(m: Machine, t: TxId, id: nat) {
    && t in m.txs && id in m.rows
    && match m.txs[t]
       case Sweeping(_, presented, outcome, _, _, _) =>
         presented == id && (outcome == BindingMismatch || Dead(m.rows, m.rows[id].family))
       case Ended(_, _) => Dead(m.rows, m.rows[id].family)
       case RolledBack(_) => true
       case _ => false
  }

  /** A sweep goes on with the same snapshot, rolls back, or commits. */
  lemma SweepGoesOn(m: Machine, x: Action, t: TxId)
    requires t in m.txs && m.txs[t].Sweeping?
    ensures t in Act(m, x).txs && SweepStep(m, Act(m, x), t)
  {
  }

  ghost predicate SweepStep(m: Machine, after: Machine, t: TxId)
    requires t in m.txs && m.txs[t].Sweeping? && t in after.txs
  {
    var tx, next := m.txs[t], after.txs[t];
    || (next.Sweeping? && next.id == tx.id && next.outcome == tx.outcome && next.seen == tx.seen)
    || next == RolledBack(tx.a)
    || (next == Ended(tx.a, tx.outcome) && tx.todo == {} && after.rows == CommitRows(m, tx))
  }

  /** The presented row is the only unrevoked one, and it is marked. */
  lemma MismatchCommitEnds(m: Machine, tx: Tx)
    requires Chained(m.rows) && tx.Sweeping? && TxSound(m, tx) && tx.outcome == BindingMismatch && tx.todo == {}
    ensures Dead(CommitRows(m, tx), m.rows[tx.id].family)
  {
    ConsumedIsTip(m.rows, tx.id);
    assert tx.id in tx.marked;
    forall j: nat | InFamily(CommitRows(m, tx), j, m.rows[tx.id].family) ensures CommitRows(m, tx)[j].revoked.Some? {
      assert InFamily(m.rows, j, m.rows[tx.id].family);
    }
  }

  lemma ActInescapable(m: Machine, x: Action, t: TxId, id: nat)
    requires TxsSound(m) && Chained(m.rows) && RowsGrow(m.rows, Act(m, x).rows, {}) && Inescapable(m, t, id)
    ensures Inescapable(Act(m, x), t, id)
  {
    var tx, f := m.txs[t], m.rows[id].family;
    if Dead(m.rows, f) { ActKeepsDead(m, x, f, id); }
    if tx.Sweeping? {
      SweepGoesOn(m, x, t);
      assert TxSound(m, tx);
      if !Dead(m.rows, f) && tx.todo == {} { MismatchCommitEnds(m, tx); }
    } else {
      ActFinished(m, x, t);
    }
  }

  lemma {:induction false} PlayInescapable(m: Machine, schedule: seq<Action>, t: TxId, id: nat)
    requires Inv(m) && Inescapable(m, t, id)
    ensures Inescapable(Play(m, schedule), t, id)
    ensures Play(m, schedule).rows[id].family == m.rows[id].family
    decreases |schedule|
  {
    if schedule != [] {
      ActKeepsInv(m, schedule[0]);
      ActInescapable(m, schedule[0], t, id);
      PlayInescapable(Act(m, schedule[0]), schedule[1..], t, id);
    }
  }

  // ---------------------------------------------------------------- exactly when

  /** If the sweep commits in this continuation, it leaves the family without an unrevoked row. */
  ghost predicate EndsIn(m: Machine, t: TxId, f: Family, schedule: seq<Action>) {
    Committed(Play(m, schedule), t) ==> Dead(Play(m, schedule).rows, f)
  }

  /** So it does whatever rotations the service begins with that refresh lifetime and that binding switch. */
  ghost predicate AlwaysEnds(m: Machine, t: TxId, f: Family, lifetime: int, bind: bool) {
    forall schedule :: AllIssuable(schedule, lifetime, bind) ==> EndsIn(m, t, f, schedule)
  }

  /** The state right after a transaction has locked its row, decided on a sweep and taken its snapshot. */
  ghost predicate SweepBegins(m: Machine, t: TxId) {
    t in m.txs && m.txs[t].Locked? && m.txs[t].id in m.rows && Branch(m, m.txs[t]).Sweeping?
  }

  lemma SnapshotTodo(m: Machine, t: TxId)
    requires Inv(m) && SweepBegins(m, t)
    ensures
      var id, todo := m.txs[t].id, Branch(m, m.txs[t]).todo;
      && (forall i :: i in todo <==> InFamily(m.rows, i, m.rows[id].family) && m.rows[i].revoked.None?)
      && (todo == {} <==> Dead(m.rows, m.rows[id].family))
      && (todo == {id} <==> m.rows[id].revoked.None?)
      && (todo == {} || exists tip :: todo == {tip})
  {
    var id, todo := m.txs[t].id, Branch(m, m.txs[t]).todo;
    forall i, j | i in todo && j in todo ensures i == j { OneUnrevoked(m.rows, i, j); }
    if tip :| tip in todo { assert todo == {tip}; }
  }

  /**
   * Exactly when a sweep ends its family whatever else runs, read from its snapshot: when nothing is
   * left to revoke, or when the one row to revoke is the presented one, whose lock the transaction
   * holds.  So a device mismatch always ends the family, and detected reuse does unless the family
   * has an unrevoked row: then a rotation of that row can commit first and its child survives.  The
   * first half holds for any rotations at all, the second has one that the service can issue.
   */
  lemma SweepEndsFamilyIff(m: Machine, t: TxId, lifetime: int, bind: bool)
    requires Inv(m) && SweepBegins(m, t)
    ensures
      var begun := Act(m, NextStatement(t));
      var id, todo := m.txs[t].id, begun.txs[t].todo;
      && (todo == {} || todo == {id} ==> forall schedule :: EndsIn(begun, t, m.rows[id].family, schedule))
      && (AlwaysEnds(begun, t, m.rows[id].family, lifetime, bind) <==> todo == {} || todo == {id})
      && (todo == {} || todo == {id} <==> Dead(m.rows, m.rows[id].family) || m.rows[id].revoked.None?)
  {
    var begun := Act(m, NextStatement(t));
    var id, todo := m.txs[t].id, begun.txs[t].todo;
    SnapshotTodo(m, t);
    ActKeepsInv(m, NextStatement(t));
    assert TxSound(begun, begun.txs[t]);
    if todo == {} || todo == {id} {
      forall schedule ensures EndsIn(begun, t, m.rows[id].family, schedule) {
        PlayInescapable(begun, schedule, t, id);
      }
    } else {
      var tip :| todo == {tip};
      assert tip in todo;
      var schedule, child := SweepEvaded(begun, t, tip, lifetime, bind);
      assert !EndsIn(begun, t, m.rows[id].family, schedule);
    }
  }

  // ---------------------------------------------------------------- an instance

  function SampleArgs(hash: string, replacement: string): RotateArgs {
    RotateArgs(hash, replacement, 12, 2, true, None, None)
  }

  /** A family of two rows: a rotated root and its unrevoked child. */
  function SampleDb(): Db {
    Db(map[0 := Row(1, "a", 0, None, None, None, 10, Some(1)),
           1 := Row(1, "b", 0, Some(0), None, None, 11, None)], 2)
  }

  lemma SampleIsSound()
    ensures Sound(SampleDb(), 10, 1)
  {
    var rows := SampleDb().rows;
    assert RowSound(rows, 0, 10) && RowSound(rows, 1, 10);
  }

  /** Transaction 1 rotates the child while transaction 2 presents the root again. */
  function SampleSchedule(): seq<Action> {
    [Begin(1, SampleArgs("b", "c")), SelectForUpdate(1), NextStatement(1), InsertChild(1),
     Begin(2, SampleArgs("a", "d")), SelectForUpdate(2), NextStatement(2),
     Commit(1), SweepRow(2, 1), Commit(2)]
  }

  /** The child is revoked and its own child inserted, both uncommitted. */
  function SampleInserted(): Machine {
    Machine(SampleDb().rows, 3, map[1 := 1], map[1 := Inserted(SampleArgs("b", "c"), 1, 2)])
  }

  /** The sweep of the family has begun; its snapshot holds the two committed rows. */
  function SampleSweeping(): Machine {
    Machine(SampleDb().rows, 3, map[1 := 1, 0 := 2],
            map[1 := Inserted(SampleArgs("b", "c"), 1, 2),
                2 := Sweeping(SampleArgs("a", "d"), 0, Reused, {0, 1}, {1}, {})])
  }

  /** The rotation has committed. */
  function SampleRotated(): Machine {
    Machine(SampleDb().rows[1 := SampleDb().rows[1].(revoked := Some(2))]
                           [2 := Row(1, "c", 0, Some(1), None, None, 12, None)],
            3, map[0 := 2],
            map[1 := EndedRotated(SampleArgs("b", "c"), 1, 2),
                2 := Sweeping(SampleArgs("a", "d"), 0, Reused, {0, 1}, {1}, {})])
  }

  lemma FindUnique(rows: Rows, id: nat, hash: string)
    requires UniqueHashes(rows) && id in rows && rows[id].hash == hash
    ensures Find(rows, hash) == Some(id)
  {
  }

  lemma SampleStart()
    ensures Act(Act(Act(Act(Start(SampleDb()), Begin(1, SampleArgs("b", "c"))), SelectForUpdate(1)), NextStatement(1)),
                InsertChild(1)) == SampleInserted()
  {
    SampleIsSound();
    var m, a := Start(SampleDb()), SampleArgs("b", "c");
    FindUnique(m.rows, 1, "b");
    var locked := Machine(m.rows, 2, map[1 := 1], map[1 := Locked(a, 1)]);
    assert Act(Act(m, Begin(1, a)), SelectForUpdate(1)) == locked;
    var consuming := Machine(m.rows, 2, map[1 := 1], map[1 := Consuming(a, 1)]);
    assert Act(locked, NextStatement(1)) == consuming;
    assert !HashTaken(m.rows, "c") && !HashPending(consuming, "c");
  }

  lemma SampleSecond()
    ensures Act(Act(Act(SampleInserted(), Begin(2, SampleArgs("a", "d"))), SelectForUpdate(2)), NextStatement(2)) ==
              SampleSweeping()
  {
    SampleIsSound();
    var m, b := SampleInserted(), SampleArgs("a", "d");
    FindUnique(m.rows, 0, "a");
    var locked := Machine(m.rows, 3, map[1 := 1, 0 := 2],
                          map[1 := Inserted(SampleArgs("b", "c"), 1, 2), 2 := Locked(b, 0)]);
    assert Act(Act(m, Begin(2, b)), SelectForUpdate(2)) == locked;
    SampleBranch(locked);
  }

  lemma SampleBranch(m: Machine)
    requires m.rows == SampleDb().rows
    ensures Branch(m, Locked(SampleArgs("a", "d"), 0)) == Sweeping(SampleArgs("a", "d"), 0, Reused, {0, 1}, {1}, {})
  {
    assert (set i | i in m.rows && m.rows[i].family == 0 && m.rows[i].revoked.None?) == {1};
    assert m.rows.Keys == {0, 1};
  }

  lemma SampleCommit()
    ensures Act(SampleSweeping(), Commit(1)) == SampleRotated()
  {
    var m := SampleSweeping();
    assert CommitRows(m, m.txs[1]) == SampleRotated().rows;
    assert Act(m, Commit(1)).locks == map[0 := 2];
  }

  /** The sweep finds the one row it waited for already revoked, and commits. */
  lemma SampleEnd()
    ensures
      var m := Act(Act(SampleRotated(), SweepRow(2, 1)), Commit(2));
      && 2 in m.txs && m.txs[2] == Ended(SampleArgs("a", "d"), Reused)
      && InFamily(m.rows, 2, 0) && m.rows[2].revoked.None?
  {
    var swept := Act(SampleRotated(), SweepRow(2, 1));
    assert swept.txs[2] == Sweeping(SampleArgs("a", "d"), 0, Reused, {0, 1}, {}, {});
  }

  lemma PlayTen(m: Machine, s: seq<Action>)
    requires |s| == 10
    ensures
      var half := Act(Act(Act(Act(Act(m, s[0]), s[1]), s[2]), s[3]), s[4]);
      Play(m, s) == Act(Act(Act(Act(Act(half, s[5]), s[6]), s[7]), s[8]), s[9])
  {
    PlayTwo(m, s);
    PlayTwo(Act(Act(m, s[0]), s[1]), s[2..]);
    var m4 := Act(Act(Act(Act(m, s[0]), s[1]), s[2]), s[3]);
    assert s[2..][2..] == s[4..];
    PlayTwo(m4, s[4..]);
    var m6 := Act(Act(m4, s[4]), s[5]);
    assert s[4..][2..] == s[6..];
    PlayTwo(m6, s[6..]);
    var m8 := Act(Act(m6, s[6]), s[7]);
    assert s[6..][2..] == s[8..];
    PlayTwo(m8, s[8..]);
  }

  lemma PlayTwo(m: Machine, s: seq<Action>)
    requires |s| >= 2
    ensures Play(m, s) == Play(Act(Act(m, s[0]), s[1]), s[2..])
  {
    assert s[1..][1..] == s[2..] && s[1..][0] == s[1];
  }

  /**
   * So detected reuse can leave a live row behind: the sweep of transaction 2 does not see the child
   * that transaction 1 has inserted and not yet committed.
   */
  lemma ReuseCanLeaveLiveRow()
    ensures Sound(SampleDb(), 10, 1)
    ensures
      var m := Play(Start(SampleDb()), SampleSchedule());
      && 2 in m.txs && m.txs[2] == Ended(SampleArgs("a", "d"), Reused)
      && InFamily(m.rows, 2, 0) && m.rows[2].revoked.None?
  {
    SampleIsSound();
    PlayTen(Start(SampleDb()), SampleSchedule());
    SampleStart();
    SampleSecond();
    SampleCommit();
    SampleEnd();
  }
}
