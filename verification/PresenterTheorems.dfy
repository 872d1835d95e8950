/** What each of several concurrent presenters of a refresh token gets, under every schedule. */
module PresenterTheorems {
  import opened Options
  import opened RefreshTokens
  import opened FamilyChains
  import opened RotationSchedule
  import opened RotationTheorems
  import opened SweepEvasions

  // ---------------------------------------------------------------- every outcome is just

  /** The outcome a transaction has decided on, whether it has committed or not. */
  function Verdict(tx: Tx): Option<Outcome> {
    match tx
    case Sweeping(_, _, outcome, _, _, _) => Some(outcome)
    case Idle(_, outcome) => Some(outcome)
    case Ended(_, outcome) => Some(outcome)
    case Consuming(_, _) => Some(Rotated)
    case Inserted(_, _, _) => Some(Rotated)
    case EndedRotated(_, _, _) => Some(Rotated)
    case _ => None
  }

  /** The transaction of a rotation. */
  predicate Rotates(tx: Tx) {
    !tx.Clearing? && !tx.Cleared? && !tx.Cancelled?
  }

  /** The row is bound to another device than the one presented, and the switch is on. */
  predicate OtherDevice(row: Row, a: RotateArgs) {
    a.bindDevice && row.device.Some? && row.device != a.device
  }

  /** The row that was presented gives this outcome. */
  predicate Gives(row: Row, a: RotateArgs, outcome: Outcome) {
    match outcome
    case Missing => false
    case Reused => row.revoked.Some?
    case Expired => row.revoked.None? && row.expires <= a.at
    case BindingMismatch => row.revoked.None? && a.at < row.expires && OtherDevice(row, a)
    case Rotated => row.revoked.None? && a.at < row.expires && !OtherDevice(row, a)
  }

  /**
   * The committed rows give the outcome: no row has the hash, or the row with the hash gives it and is
   * not locked by another transaction.
   */
  ghost predicate Just(m: Machine, t: TxId, a: RotateArgs, outcome: Outcome) {
    if outcome == Missing then forall i :: i in m.rows ==> m.rows[i].hash != a.hash
    else exists i :: i in m.rows && m.rows[i].hash == a.hash && MayLock(m, i, t) && Gives(m.rows[i], a, outcome)
  }

  lemma VerdictAppears(m: Machine, x: Action, t: TxId)
    requires LocksHeld(m) && TxsSound(m) && t in m.txs && Rotates(m.txs[t]) && Verdict(m.txs[t]) == None
    ensures
      var after := Act(m, x);
      && t in after.txs && Rotates(after.txs[t]) && after.txs[t].a == m.txs[t].a
      && (Verdict(after.txs[t]).Some? ==> Just(m, t, m.txs[t].a, Verdict(after.txs[t]).value))
  {
    assert TxSound(m, m.txs[t]);
    assert m.txs[t].Locked? ==> m.txs[t].id in Holds(m.txs[t]);
    if !Moves(x, t) { OnlyOwnActions(m, x, t); }
  }

  lemma VerdictStays(m: Machine, x: Action, t: TxId)
    requires t in m.txs && Rotates(m.txs[t]) && Verdict(m.txs[t]).Some?
    ensures
      var after := Act(m, x);
      && t in after.txs && Rotates(after.txs[t]) && after.txs[t].a == m.txs[t].a
      && (after.txs[t].RolledBack? || Verdict(after.txs[t]) == Verdict(m.txs[t]))
  {
  }

  lemma {:induction false} RolledBackStays(m: Machine, schedule: seq<Action>, t: TxId)
    requires t in m.txs && m.txs[t].RolledBack?
    ensures t in Play(m, schedule).txs && Play(m, schedule).txs[t] == m.txs[t]
  {
    FinishedStays(m, schedule, t);
  }

  lemma {:induction false} VerdictIsKept(m: Machine, schedule: seq<Action>, t: TxId)
    requires t in m.txs && Rotates(m.txs[t]) && Verdict(m.txs[t]).Some?
    ensures
      var last := Play(m, schedule);
      && t in last.txs && Rotates(last.txs[t]) && last.txs[t].a == m.txs[t].a
      && (last.txs[t].RolledBack? || Verdict(last.txs[t]) == Verdict(m.txs[t]))
    decreases |schedule|
  {
    if schedule != [] {
      var next := Act(m, schedule[0]);
      VerdictStays(m, schedule[0], t);
      if next.txs[t].RolledBack? {
        RolledBackStays(next, schedule[1..], t);
      } else {
        VerdictIsKept(next, schedule[1..], t);
      }
    }
  }

  /**
   * Under every schedule a presenter ends with the outcome that the committed table gave at the moment
   * it decided, when nobody else had the row locked; so one that finds the row locked waits.
   */
  lemma {:induction false} OutcomeWasJust(m: Machine, schedule: seq<Action>, t: TxId) returns (k: nat)
    requires Inv(m) && t in m.txs && Rotates(m.txs[t]) && Verdict(m.txs[t]) == None
    requires t in Play(m, schedule).txs && Verdict(Play(m, schedule).txs[t]).Some?
    ensures k < |schedule| && Inv(Play(m, schedule[..k]))
    ensures Rotates(Play(m, schedule).txs[t]) && Play(m, schedule).txs[t].a == m.txs[t].a
    ensures Just(Play(m, schedule[..k]), t, m.txs[t].a, Verdict(Play(m, schedule).txs[t]).value)
    decreases |schedule|
  {
    var next := Act(m, schedule[0]);
    ActKeepsInv(m, schedule[0]);
    VerdictAppears(m, schedule[0], t);
    if Verdict(next.txs[t]).Some? {
      VerdictIsKept(next, schedule[1..], t);
      k := 0;
    } else {
      var k0 := OutcomeWasJust(next, schedule[1..], t);
      k := k0 + 1;
      assert schedule[..k][1..] == schedule[1..][..k0];
    }
  }

  // ---------------------------------------------------------------- what rolls a rotation back

  /** The action rolls the transaction back, or is its insert under a hash that is stored already. */
  ghost predicate RollsBack(m: Machine, x: Action, t: TxId) {
    || x == Rollback(t)
    || (x == InsertChild(t) && t in m.txs && m.txs[t].Consuming?
        && exists i :: i in m.rows && m.rows[i].hash == m.txs[t].a.replacement)
  }

  lemma ActRollsBack(m: Machine, x: Action, t: TxId)
    requires t in m.txs && !m.txs[t].RolledBack? && t in Act(m, x).txs && Act(m, x).txs[t].RolledBack?
    ensures RollsBack(m, x, t)
  {
  }

  /** A rotation never rolls back for having to wait: only when it is made to, or when its insert collides. */
  lemma {:induction false} RolledBackOnlyBy(m: Machine, schedule: seq<Action>, t: TxId) returns (k: nat)
    requires t in m.txs && !m.txs[t].RolledBack?
    requires t in Play(m, schedule).txs && Play(m, schedule).txs[t].RolledBack?
    ensures k < |schedule| && RollsBack(Play(m, schedule[..k]), schedule[k], t)
    decreases |schedule|
  {
    var next := Act(m, schedule[0]);
    assert t in next.txs;
    if next.txs[t].RolledBack? {
      ActRollsBack(m, schedule[0], t);
      k := 0;
    } else {
      var k0 := RolledBackOnlyBy(next, schedule[1..], t);
      k := k0 + 1;
      assert schedule[..k][1..] == schedule[1..][..k0];
    }
  }

  // ---------------------------------------------------------------- the second presenter

  /** The transaction presents row `i`, which is revoked, and is about to report that or has reported it. */
  ghost predicate OnlyReuse(m: Machine, u: TxId, i: nat) {
    && u in m.txs && i in m.rows && m.rows[i].revoked.Some?
    && match m.txs[u]
       case Begun(a) => a.hash == m.rows[i].hash
       case Locked(_, id) => id == i
       case Sweeping(_, id, outcome, _, _, _) => id == i && outcome == Reused
       case Ended(_, outcome) => outcome == Reused
       case _ => false
  }

  lemma OwnActionOnlyReuse(m: Machine, x: Action, u: TxId, i: nat)
    requires UniqueHashes(m.rows) && RowsGrow(m.rows, Act(m, x).rows, {}) && OnlyReuse(m, u, i)
    requires Moves(x, u) && x != Rollback(u)
    ensures OnlyReuse(Act(m, x), u, i) && Act(m, x).txs[u].a == m.txs[u].a
  {
  }

  lemma ActOnlyReuse(m: Machine, x: Action, u: TxId, i: nat)
    requires UniqueHashes(m.rows) && RowsGrow(m.rows, Act(m, x).rows, {}) && OnlyReuse(m, u, i) && x != Rollback(u)
    ensures OnlyReuse(Act(m, x), u, i) && Act(m, x).txs[u].a == m.txs[u].a
  {
    if Moves(x, u) { OwnActionOnlyReuse(m, x, u, i); } else { OnlyOwnActions(m, x, u); }
  }

  lemma {:induction false} PlayOnlyReuse(m: Machine, schedule: seq<Action>, u: TxId, i: nat)
    requires Inv(m) && OnlyReuse(m, u, i) && NoneUndoes(schedule, u)
    ensures OnlyReuse(Play(m, schedule), u, i) && Play(m, schedule).txs[u].a == m.txs[u].a
    decreases |schedule|
  {
    if schedule != [] {
      ActKeepsInv(m, schedule[0]);
      ActOnlyReuse(m, schedule[0], u, i);
      assert NoneUndoes(schedule[1..], u);
      PlayOnlyReuse(Act(m, schedule[0]), schedule[1..], u, i);
    }
  }

  /** The row of a committed rotation is revoked. */
  lemma RotatedRowIsRevoked(m: Machine, t: TxId)
    requires Inv(m) && t in m.txs && m.txs[t].EndedRotated?
    ensures m.txs[t].id in m.rows && m.rows[m.txs[t].id].hash == m.txs[t].a.hash
    ensures m.rows[m.txs[t].id].revoked.Some?
  {
    assert TxSound(m, m.txs[t]);
    ChainedHasOneChild(m.rows);
  }

  /** The presenter gets the lock once nobody else has it, and decides. */
  lemma BegunCanDecide(m: Machine, u: TxId, i: nat) returns (s: seq<Action>)
    requires Inv(m) && OnlyReuse(m, u, i) && m.txs[u].Begun?
    ensures NoneUndoes(s, u)
    ensures Inv(Play(m, s)) && OnlyReuse(Play(m, s), u, i) && Play(m, s).txs[u].Sweeping?
    ensures Play(m, s).txs[u].a == m.txs[u].a
  {
    var s1 := FreeRow(m, u, i);
    var rest := FreeCanDecide(Play(m, s1), u, i);
    s := s1 + rest;
    PlayAppend(m, s1, rest);
  }

  lemma FreeCanDecide(m: Machine, u: TxId, i: nat) returns (s: seq<Action>)
    requires Inv(m) && OnlyReuse(m, u, i) && m.txs[u].Begun? && MayLock(m, i, u)
    ensures NoneUndoes(s, u)
    ensures Inv(Play(m, s)) && OnlyReuse(Play(m, s), u, i) && Play(m, s).txs[u].Sweeping?
    ensures Play(m, s).txs[u].a == m.txs[u].a
  {
    NotHeldNotLocked(m, u, i);
    SelectFinds(m, u, i);
    SelectKeepsInv(m, u);
    var rest := LockedCanDecide(Act(m, SelectForUpdate(u)), u, i);
    s := [SelectForUpdate(u)] + rest;
    PlayOne(m, SelectForUpdate(u), rest);
  }

  lemma SelectFinds(m: Machine, u: TxId, i: nat)
    requires UniqueHashes(m.rows) && OnlyReuse(m, u, i) && m.txs[u].Begun? && i !in m.locks
    ensures
      var after := Act(m, SelectForUpdate(u));
      OnlyReuse(after, u, i) && after.txs[u] == Locked(m.txs[u].a, i)
  {
    assert Find(m.rows, m.txs[u].a.hash) == Some(i);
  }

  lemma LockedCanDecide(m: Machine, u: TxId, i: nat) returns (s: seq<Action>)
    requires Inv(m) && OnlyReuse(m, u, i) && m.txs[u].Locked?
    ensures NoneUndoes(s, u)
    ensures Inv(Play(m, s)) && OnlyReuse(Play(m, s), u, i) && Play(m, s).txs[u].Sweeping?
    ensures Play(m, s).txs[u].a == m.txs[u].a
  {
    s := [NextStatement(u)];
    PlaySingle(m, NextStatement(u));
    NextKeepsInv(m, u);
  }

  /** From any such state the presenter can be driven to its report without rolling it back. */
  lemma ReuseCanBeReported(m: Machine, u: TxId, i: nat) returns (s: seq<Action>)
    requires Inv(m) && OnlyReuse(m, u, i)
    ensures NoneUndoes(s, u)
    ensures u in Play(m, s).txs && Play(m, s).txs[u] == Ended(m.txs[u].a, Reused)
  {
    s := [];
    if m.txs[u].Begun? {
      s := BegunCanDecide(m, u, i);
    } else if m.txs[u].Locked? {
      s := LockedCanDecide(m, u, i);
    }
    var m1 := Play(m, s);
    if m1.txs[u].Sweeping? {
      var rest := SweepCanEnd(m1, u, {});
      PlayAppend(m, s, rest);
      s := s + rest;
    }
  }

  /**
   * Who presents a token that another rotation has consumed meanwhile gets to know it.  Whatever is
   * scheduled from there on, unless the presenter itself is rolled back, it ends with detected reuse and
   * with nothing else, and it can always be brought to that end; its sweep then revokes what it sees.
   */
  lemma SecondPresenterReportsReuse(m: Machine, t: TxId, u: TxId, schedule: seq<Action>) returns (rest: seq<Action>)
    requires Inv(m) && t in m.txs && m.txs[t].EndedRotated?
    requires u in m.txs && m.txs[u].Begun? && m.txs[u].a.hash == m.txs[t].a.hash
    requires NoneUndoes(schedule, u)
    ensures
      var last := Play(m, schedule);
      u in last.txs && (Unfinished(last.txs[u]) || last.txs[u] == Ended(m.txs[u].a, Reused))
    ensures NoneUndoes(rest, u)
    ensures
      var last := Play(m, schedule + rest);
      u in last.txs && last.txs[u] == Ended(m.txs[u].a, Reused)
  {
    var i := m.txs[t].id;
    RotatedRowIsRevoked(m, t);
    PlayOnlyReuse(m, schedule, u, i);
    PlayKeepsInv(m, schedule);
    rest := ReuseCanBeReported(Play(m, schedule), u, i);
    PlayAppend(m, schedule, rest);
  }

  // ---------------------------------------------------------------- no wait is for ever

  /** The schedule brings the transaction to an end without making it roll back. */
  ghost predicate Finishes(m: Machine, s: seq<Action>, t: TxId) {
    NoneUndoes(s, t) && t in Play(m, s).txs && !Unfinished(Play(m, s).txs[t])
  }

  lemma OneActionFinishes(m: Machine, x: Action, t: TxId)
    requires x != Rollback(t) && t in Act(m, x).txs && !Unfinished(Act(m, x).txs[t])
    ensures Finishes(m, [x], t)
  {
    PlaySingle(m, x);
  }

  lemma FinishesAfter(m: Machine, s: seq<Action>, rest: seq<Action>, t: TxId)
    requires NoneUndoes(s, t) && Finishes(Play(m, s), rest, t)
    ensures Finishes(m, s + rest, t)
  {
    PlayAppend(m, s, rest);
  }

  /** The one other insert under the same hash, if there is one, rolls back. */
  lemma FreeHash(m: Machine, t: TxId) returns (s: seq<Action>)
    requires Inv(m) && t in m.txs && m.txs[t].Consuming?
    ensures NoneUndoes(s, t)
    ensures
      var after := Play(m, s);
      && Inv(after) && t in after.txs && after.txs[t] == m.txs[t] && !HashPending(after, m.txs[t].a.replacement)
  {
    s := [];
    if u :| u in m.txs && m.txs[u].Inserted? && m.txs[u].a.replacement == m.txs[t].a.replacement {
      s := [Rollback(u)];
      PlaySingle(m, Rollback(u));
      OtherInsertUndone(m, t, u);
    }
  }

  lemma OtherInsertUndone(m: Machine, t: TxId, u: TxId)
    requires Inv(m) && t in m.txs && m.txs[t].Consuming? && u in m.txs && m.txs[u].Inserted?
    ensures
      var after := Act(m, Rollback(u));
      && Inv(after) && t in after.txs && after.txs[t] == m.txs[t] && !HashPending(after, m.txs[u].a.replacement)
  {
    RollbackKeepsInv(m, u);
    RollbackFreesHash(m, u);
    OnlyOwnActions(m, Rollback(u), t);
  }

  lemma RollbackFreesHash(m: Machine, u: TxId)
    requires TxsApart(m) && u in m.txs && m.txs[u].Inserted?
    ensures !HashPending(Act(m, Rollback(u)), m.txs[u].a.replacement)
  {
    var after := Act(m, Rollback(u));
    forall v | v in after.txs && after.txs[v].Inserted? ensures after.txs[v].a.replacement != m.txs[u].a.replacement {
      assert v != u && Apart(m.txs[u], m.txs[v]);
    }
  }

  /** The insert is done or collides; then the commit. */
  lemma ConsumingCanFinish(m: Machine, t: TxId) returns (s: seq<Action>)
    requires Inv(m) && t in m.txs && m.txs[t].Consuming?
    ensures Finishes(m, s, t)
  {
    var s1 := FreeHash(m, t);
    var rest := InsertCanFinish(Play(m, s1), t);
    FinishesAfter(m, s1, rest, t);
    s := s1 + rest;
  }

  lemma InsertCanFinish(m: Machine, t: TxId) returns (s: seq<Action>)
    requires t in m.txs && m.txs[t].Consuming? && !HashPending(m, m.txs[t].a.replacement)
    ensures Finishes(m, s, t)
  {
    var next := Act(m, InsertChild(t));
    s := [InsertChild(t)];
    if next.txs[t].Inserted? {
      OneActionFinishes(next, Commit(t), t);
      PlaySingle(m, InsertChild(t));
      FinishesAfter(m, s, [Commit(t)], t);
      s := s + [Commit(t)];
    } else {
      OneActionFinishes(m, InsertChild(t), t);
    }
  }

  /** From the decision on. */
  lemma DecidedCanFinish(m: Machine, t: TxId) returns (s: seq<Action>)
    requires Inv(m) && t in m.txs && Unfinished(m.txs[t]) && !m.txs[t].Begun? && !m.txs[t].Locked?
    ensures Finishes(m, s, t)
  {
    if Sweeps(m.txs[t]) {
      s := SweepCanEnd(m, t, {});
    } else if m.txs[t].Consuming? {
      s := ConsumingCanFinish(m, t);
    } else {
      s := [Commit(t)];
      OneActionFinishes(m, Commit(t), t);
    }
  }

  lemma LockedCanFinish(m: Machine, t: TxId) returns (s: seq<Action>)
    requires Inv(m) && t in m.txs && m.txs[t].Locked?
    ensures Finishes(m, s, t)
  {
    assert TxSound(m, m.txs[t]);
    ActKeepsInv(m, NextStatement(t));
    var rest := DecidedCanFinish(Act(m, NextStatement(t)), t);
    PlaySingle(m, NextStatement(t));
    FinishesAfter(m, [NextStatement(t)], rest, t);
    s := [NextStatement(t)] + rest;
  }

  /** With the row free, or no row to lock. */
  lemma FreeCanFinish(m: Machine, t: TxId) returns (s: seq<Action>)
    requires Inv(m) && t in m.txs && m.txs[t].Begun?
    requires forall i :: Find(m.rows, m.txs[t].a.hash) == Some(i) ==> i !in m.locks
    ensures Finishes(m, s, t)
  {
    var next := Act(m, SelectForUpdate(t));
    ActKeepsInv(m, SelectForUpdate(t));
    var rest;
    if next.txs[t].Locked? { rest := LockedCanFinish(next, t); } else { rest := DecidedCanFinish(next, t); }
    PlaySingle(m, SelectForUpdate(t));
    FinishesAfter(m, [SelectForUpdate(t)], rest, t);
    s := [SelectForUpdate(t)] + rest;
  }

  /** Whatever a transaction waits for, it can be brought to an end without being rolled back. */
  lemma NoWaitIsForEver(m: Machine, t: TxId) returns (s: seq<Action>)
    requires Inv(m) && t in m.txs && Unfinished(m.txs[t])
    ensures Finishes(m, s, t)
  {
    if m.txs[t].Begun? {
      var found := Find(m.rows, m.txs[t].a.hash);
      var s1 := FreeRow(m, t, if found.Some? then found.value else 0);
      var m1 := Play(m, s1);
      if found.Some? { NotHeldNotLocked(m1, t, found.value); }
      var rest := FreeCanFinish(m1, t);
      FinishesAfter(m, s1, rest, t);
      s := s1 + rest;
    } else if m.txs[t].Locked? {
      s := LockedCanFinish(m, t);
    } else {
      s := DecidedCanFinish(m, t);
    }
  }
}
