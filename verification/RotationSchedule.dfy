/**
 * Concurrent rotations and logouts, one SQL statement at a time, under any schedule.
 *
 * A rotation locks the presented row, then either sweeps its family or revokes the row and inserts a
 * child, and then commits or rolls back.  A logout of all sessions sweeps the user's rows without
 * locking anything first.  Writes are invisible until the commit; a row lock is held until the end of
 * its transaction; the unique index on the hash makes an insert wait for an uncommitted one.  An
 * action that has to wait leaves the machine as it is.
 */
module RotationSchedule {
  import opened Options
  import opened RefreshTokens
  import opened FamilyChains

  type TxId = nat

  datatype Tx =
    | Begun(a: RotateArgs)
    | Locked(a: RotateArgs, id: nat)
    | Sweeping(a: RotateArgs, id: nat, outcome: Outcome, seen: set<nat>, todo: set<nat>, marked: set<nat>)
    | Consuming(a: RotateArgs, id: nat)
    | Inserted(a: RotateArgs, id: nat, child: nat)
    | Idle(a: RotateArgs, outcome: Outcome)
    | Ended(a: RotateArgs, outcome: Outcome)
    | EndedRotated(a: RotateArgs, id: nat, child: nat)
    | RolledBack(a: RotateArgs)
    | Clearing(user: nat, at: int, seen: set<nat>, todo: set<nat>, marked: set<nat>)
    | Cleared(user: nat)
    | Cancelled(user: nat)

  /** Committed rows, the id sequence, row locks, and the transactions begun so far. */
  datatype Machine = Machine(rows: Rows, nextId: nat, locks: map<nat, TxId>, txs: map<TxId, Tx>)

  datatype Action =
    | Begin(t: TxId, a: RotateArgs)
    | SelectForUpdate(t: TxId)
    | NextStatement(t: TxId)
    | SweepRow(t: TxId, row: nat)
    | InsertChild(t: TxId)
    | Commit(t: TxId)
    | Rollback(t: TxId)
    | ClearUser(t: TxId, user: nat, at: int)
    | LogoutRow(row: nat, at: int)
    | LoginRow(root: Row)

  predicate Unfinished(tx: Tx) {
    !tx.Ended? && !tx.EndedRotated? && !tx.RolledBack? && !tx.Cleared? && !tx.Cancelled?
  }

  /** A sweep of a family or of a user's rows, under way. */
  predicate Sweeps(tx: Tx) {
    tx.Sweeping? || tx.Clearing?
  }

  /** How an unfinished transaction ends when it rolls back. */
  function Undone(tx: Tx): Tx {
    match tx
    case Clearing(user, _, _, _, _) => Cancelled(user)
    case Cleared(_) => tx
    case Cancelled(_) => tx
    case _ => RolledBack(tx.a)
  }

  /** The child row of an uncommitted insert. */
  function PendingRow(m: Machine, tx: Tx): Row
    requires tx.Inserted? && tx.id in m.rows
  {
    Replacement(tx.id, m.rows[tx.id], tx.a)
  }

  /** Some uncommitted insert has put the hash into the unique index. */
  predicate HashPending(m: Machine, hash: string) {
    exists t | t in m.txs :: m.txs[t].Inserted? && m.txs[t].a.replacement == hash
  }

  /** A login's row: the unrevoked root of a family of its own, under a hash of its own. */
  predicate OpensFamily(m: Machine, root: Row) {
    && root.parent.None? && root.revoked.None? && root.device != Some("")
    && (forall i | i in m.rows :: m.rows[i].family != root.family)
    && !HashTaken(m.rows, root.hash) && !HashPending(m, root.hash)
  }

  predicate MayLock(m: Machine, row: nat, t: TxId) {
    row in m.locks ==> m.locks[row] == t
  }

  /** The row is one that the sweep still has to mark, and it is not locked by another transaction. */
  predicate CanSweep(m: Machine, t: TxId, row: nat) {
    t in m.txs && Sweeps(m.txs[t]) && row in m.txs[t].todo && row in m.rows && MayLock(m, row, t)
  }

  function End(m: Machine, t: TxId, rows: Rows, tx: Tx): Machine {
    m.(rows := rows, locks := map i | i in m.locks && m.locks[i] != t :: m.locks[i], txs := m.txs[t := tx])
  }

  function Move(m: Machine, t: TxId, tx: Tx): Machine {
    m.(txs := m.txs[t := tx])
  }

  /** The statement after the locked read: a family sweep, or the row update. */
  function Branch(m: Machine, tx: Tx): Tx
    requires tx.Locked? && tx.id in m.rows
  {
    var row := m.rows[tx.id];
    var live := set i | i in m.rows && m.rows[i].family == row.family && m.rows[i].revoked.None?;
    if row.revoked.Some? then Sweeping(tx.a, tx.id, Reused, m.rows.Keys, live, {})
    else if row.expires <= tx.a.at then Idle(tx.a, Expired)
    else if DeviceMismatch(row, tx.a) then Sweeping(tx.a, tx.id, BindingMismatch, m.rows.Keys, live, {})
    else Consuming(tx.a, tx.id)
  }

  /** The one statement of a logout of all sessions takes its snapshot. */
  function ClearStart(m: Machine, user: nat, at: int): Tx {
    var live := set i | i in m.rows && m.rows[i].user == user && m.rows[i].revoked.None?;
    Clearing(user, at, m.rows.Keys, live, {})
  }

  /** A sweep that has gone on. */
  function Further(tx: Tx, todo: set<nat>, marked: set<nat>): Tx
    requires Sweeps(tx)
  {
    match tx
    case Sweeping(a, id, outcome, seen, _, _) => Sweeping(a, id, outcome, seen, todo, marked)
    case Clearing(user, at, seen, _, _) => Clearing(user, at, seen, todo, marked)
  }

  /** One row of a sweep: wait for its lock, look again, and mark it if it is still unrevoked. */
  function Swept(m: Machine, t: TxId, row: nat): Machine
    requires t in m.txs && Sweeps(m.txs[t]) && row in m.rows
  {
    var tx := m.txs[t];
    if m.rows[row].revoked.Some? then Move(m, t, Further(tx, tx.todo - {row}, tx.marked))
    else Move(m.(locks := m.locks[row := t]), t, Further(tx, tx.todo - {row}, tx.marked + {row}))
  }

  function RevokeMarked(rows: Rows, marked: set<nat>, at: int): Rows {
    map i | i in rows :: if i in marked then rows[i].(revoked := Some(at)) else rows[i]
  }

  function CommitRows(m: Machine, tx: Tx): Rows {
    match tx
    case Sweeping(a, _, _, _, _, marked) => RevokeMarked(m.rows, marked, a.at)
    case Clearing(_, at, _, _, marked) => RevokeMarked(m.rows, marked, at)
    case Inserted(a, id, child) =>
      if id in m.rows then m.rows[id := m.rows[id].(revoked := Some(a.at))][child := PendingRow(m, tx)] else m.rows
    case _ => m.rows
  }

  ghost function Act(m: Machine, x: Action): Machine {
    match x
    case Begin(t, a) => if t in m.txs || a.device == Some("") then m else Move(m, t, Begun(a))
    case SelectForUpdate(t) =>
      if !(t in m.txs && m.txs[t].Begun?) then m
      else
        (match Find(m.rows, m.txs[t].a.hash)
         case None => Move(m, t, Idle(m.txs[t].a, Missing))
         case Some(id) =>
           if id in m.locks then m else Move(m.(locks := m.locks[id := t]), t, Locked(m.txs[t].a, id)))
    case NextStatement(t) =>
      if !(t in m.txs && m.txs[t].Locked? && m.txs[t].id in m.rows) then m else Move(m, t, Branch(m, m.txs[t]))
    case SweepRow(t, row) =>
      if CanSweep(m, t, row) then Swept(m, t, row) else m
    case InsertChild(t) =>
      if !(t in m.txs && m.txs[t].Consuming?) || HashPending(m, m.txs[t].a.replacement) then m
      else if HashTaken(m.rows, m.txs[t].a.replacement) then
        End(m.(nextId := m.nextId + 1), t, m.rows, RolledBack(m.txs[t].a))
      else Move(m.(nextId := m.nextId + 1), t, Inserted(m.txs[t].a, m.txs[t].id, m.nextId))
    case Commit(t) =>
      if t !in m.txs then m
      else
        (match m.txs[t]
         case Idle(a, outcome) => End(m, t, m.rows, Ended(a, outcome))
         case Sweeping(a, _, outcome, _, todo, _) =>
           if todo != {} then m else End(m, t, CommitRows(m, m.txs[t]), Ended(a, outcome))
         case Clearing(user, _, _, todo, _) =>
           if todo != {} then m else End(m, t, CommitRows(m, m.txs[t]), Cleared(user))
         case Inserted(a, id, child) => End(m, t, CommitRows(m, m.txs[t]), EndedRotated(a, id, child))
         case _ => m)
    case Rollback(t) =>
      if !(t in m.txs && Unfinished(m.txs[t])) then m else End(m, t, m.rows, Undone(m.txs[t]))
    case ClearUser(t, user, at) => if t in m.txs then m else Move(m, t, ClearStart(m, user, at))
    case LogoutRow(row, at) =>
      if row in m.locks then m else m.(rows := RevokeAll(m.rows, OneRow(row), at))
    case LoginRow(root) =>
      if OpensFamily(m, root) then m.(rows := m.rows[m.nextId := root], nextId := m.nextId + 1) else m
  }

  /** The sweep has committed. */
  predicate Committed(m: Machine, t: TxId) {
    t in m.txs && (m.txs[t].Ended? || m.txs[t].Cleared?)
  }

  ghost function Play(m: Machine, schedule: seq<Action>): Machine
    decreases |schedule|
  {
    if schedule == [] then m else Play(Act(m, schedule[0]), schedule[1..])
  }

  // ---------------------------------------------------------------- the invariant

  /** The rows whose locks the transaction relies on. */
  function Holds(tx: Tx): set<nat> {
    match tx
    case Locked(_, id) => {id}
    case Sweeping(_, id, _, _, _, marked) => marked + {id}
    case Consuming(_, id) => {id}
    case Inserted(_, id, _) => {id}
    case Clearing(_, _, _, _, marked) => marked
    case _ => {}
  }

  ghost predicate LocksHeld(m: Machine) {
    forall t, i :: t in m.txs && i in Holds(m.txs[t]) ==> i in m.locks && m.locks[i] == t
  }

  /** A lock belongs to a transaction that holds it, or that found its row expired and is about to end. */
  ghost predicate LocksOwned(m: Machine) {
    forall i :: i in m.locks ==> m.locks[i] in m.txs && Owns(m.txs[m.locks[i]], i)
  }

  predicate Owns(tx: Tx, i: nat) {
    tx.Idle? || i in Holds(tx)
  }

  /** What a transaction knows about the committed rows, thanks to the locks it holds. */
  ghost predicate TxSound(m: Machine, tx: Tx) {
    match tx
    case Begun(a) => a.device != Some("")
    case Locked(a, id) => a.device != Some("") && id in m.rows && m.rows[id].hash == a.hash
    case Consuming(a, id) =>
      a.device != Some("") && id in m.rows && m.rows[id].hash == a.hash && m.rows[id].revoked.None?
    case Inserted(a, id, child) =>
      && a.device != Some("") && id in m.rows && m.rows[id].hash == a.hash && m.rows[id].revoked.None?
      && id < child < m.nextId && child !in m.rows && !HashTaken(m.rows, a.replacement)
    case Sweeping(a, id, outcome, seen, todo, marked) =>
      && id in seen && seen <= m.rows.Keys && todo <= seen && marked <= seen
      && m.rows[id].hash == a.hash && outcome == (if m.rows[id].revoked.Some? then Reused else BindingMismatch)
      && (forall i :: i in todo || i in marked ==> m.rows[i].family == m.rows[id].family)
      && (forall i :: i in marked ==> m.rows[i].revoked.None?)
      && (forall i :: i in seen && m.rows[i].family == m.rows[id].family ==>
            m.rows[i].revoked.Some? || i in todo || i in marked)
    case Clearing(user, _, seen, todo, marked) =>
      && seen <= m.rows.Keys && todo <= seen && marked <= seen
      && (forall i :: i in todo || i in marked ==> m.rows[i].user == user)
      && (forall i :: i in marked ==> m.rows[i].revoked.None?)
      && (forall i :: i in seen && m.rows[i].user == user ==> m.rows[i].revoked.Some? || i in todo || i in marked)
    case EndedRotated(a, id, child) =>
      id in m.rows && m.rows[id].hash == a.hash && child in m.rows && m.rows[child].parent == Some(id)
    case _ => true
  }

  /** Two transactions never share a child id or a pending hash. */
  ghost predicate Apart(x: Tx, y: Tx) {
    && (x.Inserted? && y.Inserted? ==> x.child != y.child && x.a.replacement != y.a.replacement)
    && (x.EndedRotated? && y.EndedRotated? ==> x.child != y.child)
  }

  ghost predicate TxsSound(m: Machine) {
    forall t :: t in m.txs ==> TxSound(m, m.txs[t])
  }

  ghost predicate TxsApart(m: Machine) {
    forall t, u :: t in m.txs && u in m.txs && t != u ==> Apart(m.txs[t], m.txs[u])
  }

  ghost predicate Inv(m: Machine) {
    && UniqueHashes(m.rows)
    && (forall i :: i in m.rows ==> i < m.nextId)
    && Chained(m.rows) && Bound(m.rows)
    && LocksHeld(m)
    && LocksOwned(m)
    && TxsSound(m)
    && TxsApart(m)
  }

  /** Rows stay, and change only by being revoked; the rows in `kept` do not change at all. */
  ghost predicate RowsGrow(rows: Rows, after: Rows, kept: set<nat>) {
    forall i :: i in rows ==>
      && i in after
      && after[i] == rows[i].(revoked := after[i].revoked)
      && (rows[i].revoked.Some? || i in kept ==> after[i] == rows[i])
  }

  /** A transaction that keeps its locks keeps what it knows. */
  lemma TxKept(m: Machine, after: Machine, tx: Tx)
    requires TxSound(m, tx) && RowsGrow(m.rows, after.rows, Holds(tx)) && m.nextId <= after.nextId
    requires tx.Inserted? ==> tx.child !in after.rows && !HashTaken(after.rows, tx.a.replacement)
    ensures TxSound(after, tx)
  {
  }

  /** Only transaction `t` moves; the committed rows stay, and the locks of the others. */
  ghost predicate OnlyMoves(m: Machine, after: Machine, t: TxId) {
    && t in after.txs
    && after.rows == m.rows && m.nextId <= after.nextId
    && (forall u :: u in after.txs && u != t ==> u in m.txs && after.txs[u] == m.txs[u])
    && (forall i :: i in m.locks && m.locks[i] != t ==> i in after.locks && after.locks[i] == m.locks[i])
    && (forall i :: i in Holds(after.txs[t]) ==> i in after.locks && after.locks[i] == t)
    && (forall i :: i in after.locks ==>
          if after.locks[i] == t then Owns(after.txs[t], i) else i in m.locks && m.locks[i] == after.locks[i])
  }

  lemma MoveKeepsLocks(m: Machine, after: Machine, t: TxId)
    requires LocksHeld(m) && LocksOwned(m) && OnlyMoves(m, after, t) && m.txs.Keys <= after.txs.Keys
    ensures LocksHeld(after) && LocksOwned(after)
  {
    forall u, i | u in after.txs && i in Holds(after.txs[u]) ensures i in after.locks && after.locks[i] == u {
      if u != t { assert i in Holds(m.txs[u]); }
    }
    forall i | i in after.locks ensures after.locks[i] in after.txs && Owns(after.txs[after.locks[i]], i) {}
  }

  lemma MoveKeepsSound(m: Machine, after: Machine, t: TxId)
    requires TxsSound(m) && OnlyMoves(m, after, t) && TxSound(after, after.txs[t])
    ensures TxsSound(after)
  {
    forall u | u in after.txs ensures TxSound(after, after.txs[u]) {
      if u != t { TxKept(m, after, m.txs[u]); }
    }
  }

  lemma MoveKeepsInv(m: Machine, after: Machine, t: TxId)
    requires Inv(m) && OnlyMoves(m, after, t) && m.txs.Keys <= after.txs.Keys
    requires TxSound(after, after.txs[t])
    requires forall u :: u in m.txs && u != t ==> Apart(after.txs[t], m.txs[u]) && Apart(m.txs[u], after.txs[t])
    ensures Inv(after)
  {
    MoveKeepsLocks(m, after, t);
    MoveKeepsSound(m, after, t);
  }

  /** A move to a state without a child keeps apart whatever was. */
  lemma QuietMoveKeepsInv(m: Machine, after: Machine, t: TxId)
    requires Inv(m) && OnlyMoves(m, after, t) && m.txs.Keys <= after.txs.Keys
    requires TxSound(after, after.txs[t]) && !after.txs[t].Inserted? && !after.txs[t].EndedRotated?
    ensures Inv(after)
  {
    MoveKeepsInv(m, after, t);
  }

  lemma SelectMoves(m: Machine, t: TxId)
    requires LocksHeld(m) && LocksOwned(m) && t in m.txs && m.txs[t].Begun? && TxSound(m, m.txs[t])
    ensures
      var after := Act(m, SelectForUpdate(t));
      OnlyMoves(m, after, t) && TxSound(after, after.txs[t])
  {
  }

  lemma SelectKeepsInv(m: Machine, t: TxId)
    requires Inv(m)
    ensures Inv(Act(m, SelectForUpdate(t)))
  {
    if t in m.txs && m.txs[t].Begun? {
      SelectMoves(m, t);
      QuietMoveKeepsInv(m, Act(m, SelectForUpdate(t)), t);
    }
  }

  lemma NextMoves(m: Machine, t: TxId)
    requires LocksHeld(m) && LocksOwned(m) && t in m.txs && m.txs[t].Locked? && TxSound(m, m.txs[t])
    ensures
      var after := Act(m, NextStatement(t));
      OnlyMoves(m, after, t) && TxSound(after, after.txs[t])
  {
    assert m.txs[t].id in Holds(m.txs[t]);
  }

  lemma NextKeepsInv(m: Machine, t: TxId)
    requires Inv(m)
    ensures Inv(Act(m, NextStatement(t)))
  {
    if t in m.txs && m.txs[t].Locked? && m.txs[t].id in m.rows {
      NextMoves(m, t);
      QuietMoveKeepsInv(m, Act(m, NextStatement(t)), t);
    }
  }

  lemma SweptSound(m: Machine, t: TxId, row: nat)
    requires CanSweep(m, t, row) && TxSound(m, m.txs[t])
    ensures TxSound(Swept(m, t, row), Swept(m, t, row).txs[t])
  {
  }

  lemma SweptMoves(m: Machine, t: TxId, row: nat)
    requires LocksHeld(m) && LocksOwned(m) && CanSweep(m, t, row)
    ensures OnlyMoves(m, Swept(m, t, row), t)
  {
    var after := Swept(m, t, row);
    forall i | i in Holds(after.txs[t]) ensures i in after.locks && after.locks[i] == t {
      assert i == row || i in Holds(m.txs[t]);
    }
  }

  lemma SweepKeepsInv(m: Machine, t: TxId, row: nat)
    requires Inv(m)
    ensures Inv(Act(m, SweepRow(t, row)))
  {
    if CanSweep(m, t, row) {
      SweptSound(m, t, row);
      SweptMoves(m, t, row);
      QuietMoveKeepsInv(m, Swept(m, t, row), t);
    }
  }

  lemma InsertMoves(m: Machine, t: TxId)
    requires LocksHeld(m) && LocksOwned(m) && TxsSound(m) && (forall i :: i in m.rows ==> i < m.nextId)
    requires t in m.txs && m.txs[t].Consuming? && !HashPending(m, m.txs[t].a.replacement)
    ensures
      var after := Act(m, InsertChild(t));
      OnlyMoves(m, after, t) && TxSound(after, after.txs[t])
  {
    assert TxSound(m, m.txs[t]);
    assert m.txs[t].id in Holds(m.txs[t]);
  }

  lemma InsertApart(m: Machine, t: TxId, u: TxId)
    requires TxsSound(m) && t in m.txs && m.txs[t].Consuming? && !HashPending(m, m.txs[t].a.replacement)
    requires u in m.txs && u != t
    ensures
      var tx := Act(m, InsertChild(t)).txs[t];
      Apart(tx, m.txs[u]) && Apart(m.txs[u], tx)
  {
    assert TxSound(m, m.txs[u]);
  }

  lemma InsertKeepsInv(m: Machine, t: TxId)
    requires Inv(m)
    ensures Inv(Act(m, InsertChild(t)))
  {
    if t in m.txs && m.txs[t].Consuming? && !HashPending(m, m.txs[t].a.replacement) {
      InsertMoves(m, t);
      forall u | u in m.txs && u != t { InsertApart(m, t, u); }
      MoveKeepsInv(m, Act(m, InsertChild(t)), t);
    }
  }

  lemma RollbackMoves(m: Machine, t: TxId)
    requires LocksHeld(m) && LocksOwned(m) && t in m.txs && Unfinished(m.txs[t])
    ensures OnlyMoves(m, Act(m, Rollback(t)), t)
  {
  }

  lemma RollbackKeepsInv(m: Machine, t: TxId)
    requires Inv(m)
    ensures Inv(Act(m, Rollback(t)))
  {
    if t in m.txs && Unfinished(m.txs[t]) {
      RollbackMoves(m, t);
      QuietMoveKeepsInv(m, Act(m, Rollback(t)), t);
    }
  }

  lemma RevokingKeepsTable(rows: Rows, after: Rows)
    requires UniqueHashes(rows) && Chained(rows) && RowsGrow(rows, after, {}) && after.Keys == rows.Keys
    ensures UniqueHashes(after) && Chained(after)
    ensures Bound(rows) ==> Bound(after)
    ensures forall hash :: HashTaken(after, hash) <==> HashTaken(rows, hash)
  {
    forall i | i in after ensures RowLinked(after, i) {
      assert RowLinked(rows, i);
    }
    forall hash ensures HashTaken(after, hash) <==> HashTaken(rows, hash) {
      if i :| i in rows && rows[i].hash == hash { assert after[i].hash == hash; }
      if i :| i in after && after[i].hash == hash { assert rows[i].hash == hash; }
    }
  }

  /** Rows are revoked by a statement that needs no other transaction's locks; the ones in `ended` end. */
  ghost predicate OnlyRevokes(m: Machine, after: Machine, ended: set<TxId>) {
    && m.nextId == after.nextId && after.rows.Keys == m.rows.Keys
    && after.txs.Keys == m.txs.Keys
    && (forall u :: u in m.txs ==>
          if u in ended then after.txs[u].Ended? || after.txs[u].Cleared? else after.txs[u] == m.txs[u])
    && (forall u :: u in m.txs && u !in ended ==> RowsGrow(m.rows, after.rows, Holds(m.txs[u])))
    && RowsGrow(m.rows, after.rows, {})
    && after.locks == map i | i in m.locks && m.locks[i] !in ended :: m.locks[i]
  }

  lemma RevocationsKeepTxs(m: Machine, after: Machine, ended: set<TxId>)
    requires TxsSound(m) && UniqueHashes(m.rows) && Chained(m.rows) && OnlyRevokes(m, after, ended)
    ensures UniqueHashes(after.rows) && Chained(after.rows) && TxsSound(after)
    ensures Bound(m.rows) ==> Bound(after.rows)
  {
    RevokingKeepsTable(m.rows, after.rows);
    forall u | u in after.txs ensures TxSound(after, after.txs[u]) {
      assert TxSound(m, m.txs[u]);
      if u !in ended { TxKept(m, after, m.txs[u]); }
    }
  }

  lemma RevocationsKeepLocks(m: Machine, after: Machine, ended: set<TxId>)
    requires LocksHeld(m) && LocksOwned(m) && OnlyRevokes(m, after, ended)
    ensures LocksHeld(after) && LocksOwned(after)
  {
    forall u, i | u in after.txs && i in Holds(after.txs[u]) ensures i in after.locks && after.locks[i] == u {
      assert u !in ended && i in Holds(m.txs[u]);
    }
    forall i | i in after.locks ensures after.locks[i] in after.txs && Owns(after.txs[after.locks[i]], i) {
      assert m.locks[i] !in ended && Owns(m.txs[m.locks[i]], i);
    }
  }

  lemma RevocationsKeepApart(m: Machine, after: Machine, ended: set<TxId>)
    requires TxsApart(m) && OnlyRevokes(m, after, ended)
    ensures TxsApart(after)
  {
    forall u, v | u in after.txs && v in after.txs && u != v ensures Apart(after.txs[u], after.txs[v]) {
      assert Apart(m.txs[u], m.txs[v]);
    }
  }

  lemma RevocationsKeepInv(m: Machine, after: Machine, ended: set<TxId>)
    requires Inv(m) && OnlyRevokes(m, after, ended)
    ensures Inv(after)
  {
    RevocationsKeepTxs(m, after, ended);
    RevocationsKeepLocks(m, after, ended);
    RevocationsKeepApart(m, after, ended);
  }

  lemma RevokedRowGrows(rows: Rows, row: nat, at: int, kept: set<nat>)
    requires row !in kept
    ensures RowsGrow(rows, RevokeAll(rows, OneRow(row), at), kept)
  {
  }

  lemma LogoutRevokes(m: Machine, row: nat, at: int)
    requires LocksHeld(m) && row !in m.locks
    ensures OnlyRevokes(m, Act(m, LogoutRow(row, at)), {})
  {
    var after := m.(rows := RevokeAll(m.rows, OneRow(row), at));
    assert Act(m, LogoutRow(row, at)) == after;
    forall u | u in m.txs ensures RowsGrow(m.rows, after.rows, Holds(m.txs[u])) {
      assert row !in Holds(m.txs[u]);
      RevokedRowGrows(m.rows, row, at, Holds(m.txs[u]));
    }
    RevokedRowGrows(m.rows, row, at, {});
  }

  lemma LogoutKeepsInv(m: Machine, row: nat, at: int)
    requires Inv(m)
    ensures Inv(Act(m, LogoutRow(row, at)))
  {
    if row !in m.locks {
      LogoutRevokes(m, row, at);
      RevocationsKeepInv(m, Act(m, LogoutRow(row, at)), {});
    }
  }

  lemma LoginKeepsInv(m: Machine, root: Row)
    requires Inv(m)
    ensures Inv(Act(m, LoginRow(root)))
  {
    if OpensFamily(m, root) {
      AddedRowKeepsTable(m.rows, m.nextId, root);
      RootIsBound(m.rows, m.nextId, root);
      LoginKeepsTxs(m, root);
      LoginKeepsLocks(m, root);
    }
  }

  lemma LoginKeepsLocks(m: Machine, root: Row)
    requires LocksHeld(m) && LocksOwned(m) && TxsApart(m)
    ensures
      var after := m.(rows := m.rows[m.nextId := root], nextId := m.nextId + 1);
      LocksHeld(after) && LocksOwned(after) && TxsApart(after)
  {
  }

  lemma RootIsBound(rows: Rows, id: nat, root: Row)
    requires Bound(rows) && Chained(rows) && id !in rows && root.parent.None? && root.device != Some("")
    ensures Bound(rows[id := root])
  {
    var after := rows[id := root];
    forall i | i in after ensures RowBound(after, i) {
      if i in rows { assert RowBound(rows, i) && RowLinked(rows, i); }
    }
  }

  /** The root of a family without rows, or the child of the last row of a fully revoked family. */
  lemma AddedRowKeepsTable(rows: Rows, id: nat, row: Row)
    requires UniqueHashes(rows) && Chained(rows) && id !in rows && !HashTaken(rows, row.hash)
    requires row.parent.None? ==> forall i :: i in rows ==> rows[i].family != row.family
    requires row.parent.Some? ==>
               && row.parent.value in rows && row.parent.value < id
               && rows[row.parent.value].family == row.family && rows[row.parent.value].user == row.user
               && forall i: nat :: InFamily(rows, i, row.family) ==> i <= row.parent.value && rows[i].revoked.Some?
    ensures UniqueHashes(rows[id := row]) && Chained(rows[id := row])
  {
    var after := rows[id := row];
    forall i | i in after ensures RowLinked(after, i) {
      if i in rows {
        assert RowLinked(rows, i);
        assert rows[i].family == row.family ==> InFamily(rows, i, row.family);
      }
      if row.parent.Some? { AddedRowFits(rows, row, row.parent.value); }
    }
  }

  lemma AddedRowFits(rows: Rows, row: Row, p: nat)
    requires Chained(rows) && p in rows && rows[p].family == row.family && rows[p].user == row.user
    ensures forall j :: InFamily(rows, j, row.family) ==> rows[j].user == row.user
  {
    assert RowLinked(rows, p);
    forall j: nat | InFamily(rows, j, row.family) ensures rows[j].user == row.user {
      assert SameFamily(p, rows[p], j, rows[j]);
    }
  }

  lemma LoginKeepsTxs(m: Machine, root: Row)
    requires TxsSound(m) && m.nextId !in m.rows && !HashPending(m, root.hash)
    ensures TxsSound(m.(rows := m.rows[m.nextId := root], nextId := m.nextId + 1))
  {
    var after := m.(rows := m.rows[m.nextId := root], nextId := m.nextId + 1);
    forall u | u in m.txs ensures TxSound(after, m.txs[u]) {
      var tx := m.txs[u];
      assert TxSound(m, tx);
      TxKept(m, after, tx);
    }
  }

  lemma HoldsDisjoint(m: Machine, t: TxId, u: TxId)
    requires LocksHeld(m) && t in m.txs && u in m.txs && t != u
    ensures Holds(m.txs[t]) !! Holds(m.txs[u])
  {
    forall i | i in Holds(m.txs[t]) ensures i !in Holds(m.txs[u]) {
      assert m.locks[i] == t;
    }
  }

  lemma SweepTouchesMarked(m: Machine, tx: Tx, kept: set<nat>)
    requires Sweeps(tx) && TxSound(m, tx) && Holds(tx) !! kept
    ensures RowsGrow(m.rows, CommitRows(m, tx), kept)
    ensures CommitRows(m, tx).Keys == m.rows.Keys
  {
  }

  lemma CommitSweepRevokes(m: Machine, t: TxId)
    requires LocksHeld(m) && t in m.txs && Sweeps(m.txs[t]) && m.txs[t].todo == {} && TxSound(m, m.txs[t])
    ensures OnlyRevokes(m, Act(m, Commit(t)), {t})
  {
    var after := Act(m, Commit(t));
    forall u | u in m.txs && u != t ensures RowsGrow(m.rows, after.rows, Holds(m.txs[u])) {
      HoldsDisjoint(m, t, u);
      SweepTouchesMarked(m, m.txs[t], Holds(m.txs[u]));
    }
    SweepTouchesMarked(m, m.txs[t], {});
  }

  lemma CommitSweepKeepsInv(m: Machine, t: TxId)
    requires Inv(m) && t in m.txs && Sweeps(m.txs[t]) && m.txs[t].todo == {}
    ensures Inv(Act(m, Commit(t)))
    ensures RowsGrow(m.rows, Act(m, Commit(t)).rows, {})
  {
    CommitSweepRevokes(m, t);
    RevocationsKeepInv(m, Act(m, Commit(t)), {t});
  }

  /** An unrevoked row is the last row of its family and the only unrevoked one. */
  lemma ConsumedIsTip(rows: Rows, id: nat)
    requires Chained(rows) && id in rows && rows[id].revoked.None?
    ensures forall i: nat :: InFamily(rows, i, rows[id].family) ==> i <= id && (i != id ==> rows[i].revoked.Some?)
  {
    assert RowLinked(rows, id);
    forall i: nat | InFamily(rows, i, rows[id].family) ensures i <= id && (i != id ==> rows[i].revoked.Some?) {
      assert SameFamily(id, rows[id], i, rows[i]);
      if rows[i].revoked.None? { OneUnrevoked(rows, id, i); }
    }
  }

  /** The child of a rotation is bound to the device of its parent. */
  lemma ReplacementIsBound(rows: Rows, p: nat, a: RotateArgs, child: nat)
    requires Bound(rows) && Chained(rows) && p in rows && child !in rows && a.device != Some("")
    ensures Bound(rows[child := Replacement(p, rows[p], a)])
  {
    var after := rows[child := Replacement(p, rows[p], a)];
    forall i | i in after ensures RowBound(after, i) {
      if i in rows { assert RowBound(rows, i) && RowLinked(rows, i); }
    }
  }

  /** The rows after a rotation commits: its row revoked, its child added. */
  lemma ConsumedTable(m: Machine, t: TxId)
    requires Inv(m) && t in m.txs && m.txs[t].Inserted?
    ensures
      var rows := CommitRows(m, m.txs[t]);
      && UniqueHashes(rows) && Chained(rows) && Bound(rows) && (forall i :: i in rows ==> i < m.nextId)
      && RowsGrow(m.rows, rows, m.rows.Keys - {m.txs[t].id})
  {
    var tx := m.txs[t];
    assert TxSound(m, tx);
    var revoked := m.rows[tx.id := m.rows[tx.id].(revoked := Some(tx.a.at))];
    RevokingKeepsTable(m.rows, revoked);
    ConsumedIsTip(m.rows, tx.id);
    forall i: nat | InFamily(revoked, i, m.rows[tx.id].family) ensures i <= tx.id && revoked[i].revoked.Some? {
      assert InFamily(m.rows, i, m.rows[tx.id].family);
    }
    AddedRowKeepsTable(revoked, tx.child, PendingRow(m, tx));
    ReplacementIsBound(revoked, tx.id, tx.a, tx.child);
  }

  lemma CommitInsertKeepsInv(m: Machine, t: TxId)
    requires Inv(m) && t in m.txs && m.txs[t].Inserted?
    ensures Inv(Act(m, Commit(t)))
    ensures RowsGrow(m.rows, Act(m, Commit(t)).rows, {})
  {
    CommitKeepsTable(m, t);
    CommitKeepsLocks(m, t);
    CommitKeepsSound(m, t);
    CommitKeepsApart(m, t);
  }

  lemma CommitKeepsTable(m: Machine, t: TxId)
    requires Inv(m) && t in m.txs && m.txs[t].Inserted?
    ensures
      var after := Act(m, Commit(t));
      && UniqueHashes(after.rows) && Chained(after.rows) && Bound(after.rows)
      && (forall i :: i in after.rows ==> i < after.nextId)
      && RowsGrow(m.rows, after.rows, m.rows.Keys - {m.txs[t].id})
  {
    ConsumedTable(m, t);
    CommitStoresChild(m, t);
  }

  lemma CommitStoresChild(m: Machine, t: TxId)
    requires t in m.txs && m.txs[t].Inserted?
    ensures Act(m, Commit(t)).rows == CommitRows(m, m.txs[t]) && Act(m, Commit(t)).nextId == m.nextId
  {
  }

  lemma CommitKeepsSound(m: Machine, t: TxId)
    requires LocksHeld(m) && TxsSound(m) && TxsApart(m) && t in m.txs && m.txs[t].Inserted?
    requires RowsGrow(m.rows, Act(m, Commit(t)).rows, m.rows.Keys - {m.txs[t].id})
    ensures TxsSound(Act(m, Commit(t)))
  {
    var after := Act(m, Commit(t));
    forall u | u in after.txs ensures TxSound(after, after.txs[u]) {
      if u == t { assert TxSound(m, m.txs[t]); } else { OtherKeptByCommit(m, t, u); }
    }
  }

  lemma CommitKeepsLocks(m: Machine, t: TxId)
    requires LocksHeld(m) && t in m.txs && m.txs[t].Inserted?
    ensures LocksHeld(Act(m, Commit(t)))
    ensures LocksOwned(m) ==> LocksOwned(Act(m, Commit(t)))
  {
    var after := Act(m, Commit(t));
    forall u, i | u in after.txs && i in Holds(after.txs[u]) ensures i in after.locks && after.locks[i] == u {
      assert i in Holds(m.txs[u]);
    }
  }

  lemma CommitKeepsApart(m: Machine, t: TxId)
    requires TxsSound(m) && TxsApart(m) && t in m.txs && m.txs[t].Inserted?
    ensures TxsApart(Act(m, Commit(t)))
  {
    var after := Act(m, Commit(t));
    forall u, v | u in m.txs && v in m.txs && u != v ensures Apart(after.txs[u], after.txs[v]) {
      assert Apart(m.txs[u], m.txs[v]) && TxSound(m, m.txs[u]) && TxSound(m, m.txs[v]);
    }
  }

  lemma OtherKeptByCommit(m: Machine, t: TxId, u: TxId)
    requires LocksHeld(m) && TxsApart(m) && t in m.txs && m.txs[t].Inserted? && u in m.txs && u != t
    requires TxSound(m, m.txs[t]) && TxSound(m, m.txs[u])
    requires RowsGrow(m.rows, CommitRows(m, m.txs[t]), m.rows.Keys - {m.txs[t].id})
    ensures TxSound(Act(m, Commit(t)), m.txs[u])
  {
    var tx, other, after := m.txs[t], m.txs[u], Act(m, Commit(t));
    assert Apart(other, tx);
    assert tx.id in Holds(tx);
    HoldsDisjoint(m, t, u);
    assert RowsGrow(m.rows, after.rows, Holds(other));
    TxKept(m, after, other);
  }

  lemma CommitIdleMoves(m: Machine, t: TxId)
    requires LocksHeld(m) && LocksOwned(m) && t in m.txs && m.txs[t].Idle?
    ensures OnlyMoves(m, Act(m, Commit(t)), t)
  {
  }

  lemma CommitIdleKeepsInv(m: Machine, t: TxId)
    requires Inv(m) && t in m.txs && m.txs[t].Idle?
    ensures Inv(Act(m, Commit(t)))
    ensures RowsGrow(m.rows, Act(m, Commit(t)).rows, {})
  {
    CommitIdleMoves(m, t);
    QuietMoveKeepsInv(m, Act(m, Commit(t)), t);
  }

  lemma CommitKeepsInv(m: Machine, t: TxId)
    requires Inv(m)
    ensures Inv(Act(m, Commit(t)))
    ensures RowsGrow(m.rows, Act(m, Commit(t)).rows, {})
  {
    if t in m.txs {
      if m.txs[t].Idle? {
        CommitIdleKeepsInv(m, t);
      } else if Sweeps(m.txs[t]) && m.txs[t].todo == {} {
        CommitSweepKeepsInv(m, t);
      } else if m.txs[t].Inserted? {
        CommitInsertKeepsInv(m, t);
      }
    }
  }

  lemma OthersGrow(m: Machine, x: Action)
    requires m.nextId !in m.rows && !x.Commit?
    ensures RowsGrow(m.rows, Act(m, x).rows, {})
  {
  }

  lemma OthersKeepInv(m: Machine, x: Action)
    requires Inv(m) && !x.Commit?
    ensures Inv(Act(m, x))
  {
    match x
    case Begin(t, a) => if t !in m.txs && a.device != Some("") { BeginKeepsInv(m, t, a); }
    case SelectForUpdate(t) => SelectKeepsInv(m, t);
    case NextStatement(t) => NextKeepsInv(m, t);
    case SweepRow(t, row) => SweepKeepsInv(m, t, row);
    case InsertChild(t) => InsertKeepsInv(m, t);
    case Rollback(t) => RollbackKeepsInv(m, t);
    case ClearUser(t, user, at) => if t !in m.txs { ClearKeepsInv(m, t, user, at); }
    case LogoutRow(row, at) => LogoutKeepsInv(m, row, at);
    case LoginRow(root) => LoginKeepsInv(m, root);
  }

  /** Every action keeps the invariant, and committed rows only ever gain a revocation. */
  lemma ActKeepsInv(m: Machine, x: Action)
    requires Inv(m)
    ensures Inv(Act(m, x))
    ensures RowsGrow(m.rows, Act(m, x).rows, {})
  {
    if x.Commit? {
      CommitKeepsInv(m, x.t);
    } else {
      OthersKeepInv(m, x);
      OthersGrow(m, x);
    }
  }

  lemma BeginKeepsInv(m: Machine, t: TxId, a: RotateArgs)
    requires Inv(m) && t !in m.txs && a.device != Some("")
    ensures Inv(Act(m, Begin(t, a)))
  {
    QuietMoveKeepsInv(m, Act(m, Begin(t, a)), t);
  }

  lemma ClearKeepsInv(m: Machine, t: TxId, user: nat, at: int)
    requires Inv(m) && t !in m.txs
    ensures Inv(Act(m, ClearUser(t, user, at)))
  {
    QuietMoveKeepsInv(m, Act(m, ClearUser(t, user, at)), t);
  }

  lemma {:induction false} PlayKeepsInv(m: Machine, schedule: seq<Action>)
    requires Inv(m)
    ensures Inv(Play(m, schedule))
    ensures RowsGrow(m.rows, Play(m, schedule).rows, {})
    decreases |schedule|
  {
    if schedule != [] {
      ActKeepsInv(m, schedule[0]);
      PlayKeepsInv(Act(m, schedule[0]), schedule[1..]);
    }
  }

  lemma {:induction false} PlayAppend(m: Machine, s: seq<Action>, rest: seq<Action>)
    ensures Play(m, s + rest) == Play(Play(m, s), rest)
    decreases |s|
  {
    if s == [] {
      assert s + rest == rest;
    } else {
      assert (s + rest)[1..] == s[1..] + rest;
      PlayAppend(Act(m, s[0]), s[1..], rest);
    }
  }

  lemma PlaySingle(m: Machine, x: Action)
    ensures Play(m, [x]) == Act(m, x)
  {
    assert [x][1..] == [];
  }

  lemma PlayOne(m: Machine, x: Action, rest: seq<Action>)
    ensures Play(m, [x] + rest) == Play(Act(m, x), rest)
  {
    assert ([x] + rest)[1..] == rest;
  }

  /** A schedule around its action number `k`. */
  lemma PlayAround(m: Machine, schedule: seq<Action>, k: nat)
    requires k < |schedule|
    ensures Play(m, schedule) == Play(Act(Play(m, schedule[..k]), schedule[k]), schedule[k + 1..])
  {
    var x, rest := schedule[k], schedule[k + 1..];
    assert schedule == schedule[..k] + ([x] + rest);
    PlayAppend(m, schedule[..k], [x] + rest);
    PlayOne(Play(m, schedule[..k]), x, rest);
  }

  lemma PlayThree(m: Machine, x: Action, y: Action, z: Action)
    ensures Play(m, [x, y, z]) == Act(Act(Act(m, x), y), z)
  {
    assert [x, y, z] == [x] + ([y] + ([z] + []));
    PlayOne(m, x, [y] + ([z] + []));
    PlayOne(Act(m, x), y, [z] + []);
    PlayOne(Act(Act(m, x), y), z, []);
  }

  lemma PlayLast(m: Machine, s: seq<Action>, x: Action)
    ensures Play(m, s + [x]) == Act(Play(m, s), x)
  {
    PlayAppend(m, s, [x]);
    assert [x][1..] == [];
  }
}
