/** A logout of all sessions against concurrent rotations: exactly when it ends every session. */
module UserSweeps {
  import opened RefreshTokens
  import opened FamilyChains
  import opened RotationSchedule
  import opened SweepCoverage
  import opened SweepEvasions

  /** Every family in which the user had a row has no unrevoked row any more. */
  ghost predicate AllDead(rows: Rows, after: Rows, user: nat) {
    forall i :: i in rows && rows[i].user == user ==> Dead(after, rows[i].family)
  }

  /** If the sweep commits in this continuation, it leaves none of the user's families with an unrevoked row. */
  ghost predicate ClearsIn(m: Machine, t: TxId, user: nat, schedule: seq<Action>) {
    Committed(Play(m, schedule), t) ==> AllDead(m.rows, Play(m, schedule).rows, user)
  }

  /** So it does whatever rotations the service begins with that refresh lifetime and that binding switch. */
  ghost predicate AlwaysClears(m: Machine, t: TxId, user: nat, lifetime: int, bind: bool) {
    forall schedule :: AllIssuable(schedule, lifetime, bind) ==> ClearsIn(m, t, user, schedule)
  }

  /** A family belongs to one user. */
  lemma RevokedUserIsDead(rows: Rows, user: nat, i: nat)
    requires Chained(rows) && i in rows && rows[i].user == user
    requires forall k :: k in rows && rows[k].user == user ==> rows[k].revoked.Some?
    ensures Dead(rows, rows[i].family)
  {
    assert RowLinked(rows, i);
    forall j: nat | InFamily(rows, j, rows[i].family) ensures rows[j].revoked.Some? {
      assert SameFamily(i, rows[i], j, rows[j]);
    }
  }

  lemma NothingToClear(m: Machine, schedule: seq<Action>, user: nat)
    requires Inv(m) && forall i :: i in m.rows && m.rows[i].user == user ==> m.rows[i].revoked.Some?
    ensures AllDead(m.rows, Play(m, schedule).rows, user)
  {
    forall i | i in m.rows && m.rows[i].user == user ensures Dead(Play(m, schedule).rows, m.rows[i].family) {
      RevokedUserIsDead(m.rows, user, i);
      DeadUnderSchedule(m, schedule, m.rows[i].family, i);
    }
  }

  lemma ClearAwaits(m: Machine, t: TxId, user: nat, at: int, i: nat)
    requires t !in m.txs && i in m.rows && m.rows[i].user == user && m.rows[i].revoked.None?
    ensures Awaits(Act(m, ClearUser(t, user, at)), t, i)
    ensures Act(m, ClearUser(t, user, at)).rows == m.rows
  {
  }

  /**
   * A logout of all sessions takes no lock before its update, so it is certain to end every session
   * exactly if there is none to end: any unrevoked row it finds can be rotated first, and then the
   * child, which its snapshot does not hold, stays unrevoked.
   */
  lemma LogoutAllEndsSessionsIff(m: Machine, t: TxId, user: nat, at: int, lifetime: int, bind: bool)
    requires Inv(m) && t !in m.txs
    ensures AlwaysClears(Act(m, ClearUser(t, user, at)), t, user, lifetime, bind) <==>
              forall i :: i in m.rows && m.rows[i].user == user ==> m.rows[i].revoked.Some?
  {
    var begun := Act(m, ClearUser(t, user, at));
    ActKeepsInv(m, ClearUser(t, user, at));
    if i :| i in m.rows && m.rows[i].user == user && m.rows[i].revoked.None? {
      ClearAwaits(m, t, user, at, i);
      var schedule, child := SweepEvaded(begun, t, i, lifetime, bind);
      assert !ClearsIn(begun, t, user, schedule);
    } else {
      forall schedule ensures ClearsIn(begun, t, user, schedule) { NothingToClear(begun, schedule, user); }
    }
  }
}
