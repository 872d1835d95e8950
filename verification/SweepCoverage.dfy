/**
 * What every sweep guarantees under every schedule: what its snapshot saw is revoked when it commits,
 * and what survives it was rotated in between.
 */
module SweepCoverage {
  import opened RefreshTokens
  import opened FamilyChains
  import opened RotationSchedule
  import opened RotationTheorems

  // ---------------------------------------------------------------- what the snapshot saw

  /** Row `i` is one the sweep filters for. */
  ghost predicate Filters(m: Machine, tx: Tx, i: nat)
    requires i in m.rows && Sweeps(tx)
  {
    match tx
    case Sweeping(_, id, _, _, _, _) => id in m.rows && m.rows[i].family == m.rows[id].family
    case Clearing(user, _, _, _, _) => m.rows[i].user == user
  }

  /** The sweep has yet to revoke some of the rows in `goal`, has rolled back, or has revoked them. */
  ghost predicate SweepCovers(m: Machine, t: TxId, goal: set<nat>) {
    && t in m.txs && goal <= m.rows.Keys
    && var tx := m.txs[t];
       if Sweeps(tx) then
         forall i :: i in goal ==> m.rows[i].revoked.Some? || i in tx.todo || i in tx.marked
       else
         && !Unfinished(tx)
         && (Committed(m, t) ==> forall i :: i in goal ==> m.rows[i].revoked.Some?)
  }

  lemma ActCovers(m: Machine, x: Action, t: TxId, goal: set<nat>)
    requires RowsGrow(m.rows, Act(m, x).rows, {}) && SweepCovers(m, t, goal)
    ensures SweepCovers(Act(m, x), t, goal)
  {
    if !Sweeps(m.txs[t]) { ActFinished(m, x, t); }
  }

  lemma {:induction false} PlayCovers(m: Machine, schedule: seq<Action>, t: TxId, goal: set<nat>)
    requires Inv(m) && SweepCovers(m, t, goal)
    ensures SweepCovers(Play(m, schedule), t, goal)
    decreases |schedule|
  {
    if schedule != [] {
      ActKeepsInv(m, schedule[0]);
      ActCovers(m, schedule[0], t, goal);
      PlayCovers(Act(m, schedule[0]), schedule[1..], t, goal);
    }
  }

  /** Whatever else runs, a sweep that commits has revoked every row it filters for that its snapshot saw. */
  lemma SweepRevokesWhatItSaw(m: Machine, schedule: seq<Action>, t: TxId, i: nat)
    requires Inv(m) && t in m.txs && Sweeps(m.txs[t]) && Committed(Play(m, schedule), t)
    requires i in m.txs[t].seen && i in m.rows && Filters(m, m.txs[t], i)
    ensures i in Play(m, schedule).rows && Play(m, schedule).rows[i].revoked.Some?
  {
    assert TxSound(m, m.txs[t]);
    PlayCovers(m, schedule, t, {i});
  }

  // ---------------------------------------------------------------- families without an unrevoked row

  /** What an action can add to the committed rows. */
  ghost predicate AddsRow(m: Machine, after: Machine, j: nat)
    requires j in after.rows
  {
    || (forall i :: i in m.rows ==> m.rows[i].family != after.rows[j].family)
    || (exists t :: t in m.txs && m.txs[t].Inserted? && m.txs[t].id in m.rows
                    && m.rows[m.txs[t].id].family == after.rows[j].family)
  }

  lemma ActAddsRow(m: Machine, x: Action, j: nat)
    requires j in Act(m, x).rows && j !in m.rows
    ensures AddsRow(m, Act(m, x), j)
  {
    if x.Commit? {
      assert x.t in m.txs && m.txs[x.t].Inserted?;
    } else {
      assert x.LoginRow?;
    }
  }

  lemma DeadHasNoPendingChild(m: Machine, f: Family)
    requires TxsSound(m) && Dead(m.rows, f)
    ensures forall t :: t in m.txs && m.txs[t].Inserted? && m.txs[t].id in m.rows ==>
              m.rows[m.txs[t].id].family != f
  {
    forall t | t in m.txs && m.txs[t].Inserted? && m.txs[t].id in m.rows ensures m.rows[m.txs[t].id].family != f {
      assert TxSound(m, m.txs[t]);
    }
  }

  /** A family with rows but no unrevoked one never has one again, whatever is committed. */
  lemma ActKeepsDead(m: Machine, x: Action, f: Family, i: nat)
    requires TxsSound(m) && RowsGrow(m.rows, Act(m, x).rows, {})
    requires InFamily(m.rows, i, f) && Dead(m.rows, f)
    ensures InFamily(Act(m, x).rows, i, f) && Dead(Act(m, x).rows, f)
  {
    var after := Act(m, x);
    DeadHasNoPendingChild(m, f);
    forall j: nat | InFamily(after.rows, j, f) ensures after.rows[j].revoked.Some? {
      if j in m.rows {
        assert InFamily(m.rows, j, f);
      } else {
        ActAddsRow(m, x, j);
      }
    }
  }

  lemma {:induction false} DeadUnderSchedule(m: Machine, schedule: seq<Action>, f: Family, i: nat)
    requires Inv(m) && InFamily(m.rows, i, f) && Dead(m.rows, f)
    ensures InFamily(Play(m, schedule).rows, i, f) && Dead(Play(m, schedule).rows, f)
    decreases |schedule|
  {
    if schedule != [] {
      ActKeepsInv(m, schedule[0]);
      ActKeepsDead(m, schedule[0], f, i);
      DeadUnderSchedule(Act(m, schedule[0]), schedule[1..], f, i);
    }
  }

  // ---------------------------------------------------------------- what survives

  /** The action revokes the row other than by rotating it. */
  ghost predicate RevokesOnly(m: Machine, x: Action, tip: nat) {
    Revokes(m, x, tip) && !(x.Commit? && m.txs[x.t].Inserted?)
  }

  lemma RevokesOnlyAddsNothing(m: Machine, x: Action, tip: nat)
    requires RevokesOnly(m, x, tip)
    ensures Act(m, x).rows.Keys == m.rows.Keys
  {
  }

  /** The unrevoked row of a family is its only one. */
  lemma RevokedTipIsDead(rows: Rows, after: Rows, tip: nat)
    requires Chained(rows) && tip in rows && rows[tip].revoked.None?
    requires RowsGrow(rows, after, {}) && after.Keys == rows.Keys && after[tip].revoked.Some?
    ensures InFamily(after, tip, rows[tip].family) && Dead(after, rows[tip].family)
  {
    ConsumedIsTip(rows, tip);
    forall j: nat | InFamily(after, j, rows[tip].family) ensures after[j].revoked.Some? {
      assert InFamily(rows, j, rows[tip].family);
    }
  }

  lemma RotationEnds(m: Machine, t: TxId, tip: nat)
    requires t in m.txs && m.txs[t].Inserted? && m.txs[t].id == tip
    ensures
      var after := Act(m, Commit(t));
      t in after.txs && after.txs[t].EndedRotated? && after.txs[t].id == tip
  {
  }

  /**
   * If a family still has an unrevoked row after a sweep of its tip has committed, then a rotation of
   * that very row has committed too: nothing else can escape a sweep.
   */
  lemma SurvivorWasRotated(m: Machine, schedule: seq<Action>, t: TxId, tip: nat, j: nat) returns (u: TxId)
    requires Inv(m) && t in m.txs && Sweeps(m.txs[t]) && Committed(Play(m, schedule), t)
    requires tip in m.rows && m.rows[tip].revoked.None? && tip in m.txs[t].seen && Filters(m, m.txs[t], tip)
    requires InFamily(Play(m, schedule).rows, j, m.rows[tip].family) && Play(m, schedule).rows[j].revoked.None?
    ensures u in Play(m, schedule).txs && Play(m, schedule).txs[u].EndedRotated?
    ensures Play(m, schedule).txs[u].id == tip
  {
    SweepRevokesWhatItSaw(m, schedule, t, tip);
    var k := RevokedOnlyBy(m, schedule, tip);
    PlayAround(m, schedule, k);
    u := TipEndsByRotation(Play(m, schedule[..k]), schedule[k], schedule[k + 1..], tip, j);
  }

  lemma DeadHasNoSurvivor(m: Machine, schedule: seq<Action>, f: Family, i: nat, j: nat)
    requires Inv(m) && InFamily(m.rows, i, f) && Dead(m.rows, f) && InFamily(Play(m, schedule).rows, j, f)
    ensures Play(m, schedule).rows[j].revoked.Some?
  {
    DeadUnderSchedule(m, schedule, f, i);
  }

  lemma TipEndsByRotation(m: Machine, x: Action, rest: seq<Action>, tip: nat, j: nat) returns (u: TxId)
    requires Inv(m) && tip in m.rows && m.rows[tip].revoked.None? && Revokes(m, x, tip)
    requires tip in Act(m, x).rows && Act(m, x).rows[tip].revoked.Some?
    requires InFamily(Play(Act(m, x), rest).rows, j, m.rows[tip].family)
    requires Play(Act(m, x), rest).rows[j].revoked.None?
    ensures u in Play(Act(m, x), rest).txs && Play(Act(m, x), rest).txs[u].EndedRotated?
    ensures Play(Act(m, x), rest).txs[u].id == tip
  {
    var next := Act(m, x);
    if RevokesOnly(m, x, tip) {
      ActKeepsInv(m, x);
      RevokesOnlyAddsNothing(m, x, tip);
      RevokedTipIsDead(m.rows, next.rows, tip);
      DeadHasNoSurvivor(next, rest, m.rows[tip].family, tip, j);
      assert false;
    }
    u := x.t;
    RotationEnds(m, u, tip);
    FinishedStays(next, rest, u);
  }
}
