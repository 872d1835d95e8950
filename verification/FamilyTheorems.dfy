/** Over whole runs: families keep their shape, and a family that has ended stays ended. */
module FamilyTheorems {
  import opened Options
  import opened Clock
  import opened RefreshTokens
  import opened FamilyChains
  import opened Blocklist
  import opened Guard
  import opened Sessions
  import opened Runs
  import opened RevocationTheorems

  /** In every reachable state every family is one chain whose only unrevoked row is its tip. */
  lemma ReachableFamilies(cfg: Settings, w: World, f: Family) returns (ids: seq<nat>)
    requires Reachable(cfg, w, false)
    ensures IsChain(w.core.db.rows, f, w.core.db.nextId, ids)
    ensures forall i :: InFamily(w.core.db.rows, i, f) ==> i in ids
    ensures forall i :: InFamily(w.core.db.rows, i, f) && w.core.db.rows[i].revoked.None? ==> i == ids[|ids| - 1]
  {
    ReachableIsGood(cfg, w, false);
    SoundIsChained(w.core.db, cfg.refreshLifetime, w.now);
    ids := FamilyIsOneChain(w.core.db.rows, w.core.db.nextId, f);
  }

  /**
   * In every reachable state, whatever the binding switch was at each call, a device hash once set
   * in a family is the hash of every later row, and expiries never move back.
   */
  lemma ReachableDevices(cfg: Settings, w: World, i: nat, j: nat)
    requires Reachable(cfg, w, false)
    requires i in w.core.db.rows && j in w.core.db.rows && i <= j
    requires w.core.db.rows[i].family == w.core.db.rows[j].family
    ensures w.core.db.rows[i].device.Some? ==> w.core.db.rows[j].device == w.core.db.rows[i].device
    ensures w.core.db.rows[i].expires <= w.core.db.rows[j].expires
  {
    ReachableIsGood(cfg, w, false);
    DeviceAndExpiryAlongChain(w.core.db, cfg.refreshLifetime, w.now, i, j);
  }

  /** With the binding switch on, a rotation of a bound row succeeds only for the device it is bound to. */
  lemma BoundRotationPresentsDevice(cfg: Settings, w: World, e: Event, row: Row)
    requires Reachable(cfg, w, false) && e.request.OnRefresh? && e.request.refresh.bindDevice
    requires Presented(w, e) == Some(row) && row.device.Some?
    requires Serve(cfg, w.core, e.request, e.time).reply.Issued?
    ensures DeviceHash(e.request.refresh.context.userAgent) == row.device
    ensures Serve(cfg, w.core, e.request, e.time).reply.token.row.device == row.device
  {
    ReachableIsGood(cfg, w, false);
    RotateCases(w.core.db, RotationOf(cfg, e.request.refresh, e.time.start));
    assert RowSound(w.core.db.rows, Find(w.core.db.rows, e.request.refresh.hash).value, cfg.refreshLifetime);
  }

  /** No row of the family can be rotated any more: each is revoked or has expired. */
  ghost predicate Spent(rows: Rows, f: Family, now: int) {
    forall i :: InFamily(rows, i, f) ==> rows[i].revoked.Some? || rows[i].expires <= now
  }

  function PairsOf(pairs: seq<Pair>, f: Family): nat {
    if pairs == [] then 0
    else
      var last := |pairs| - 1;
      PairsOf(pairs[..last], f) + if pairs[last].family == f then 1 else 0
  }

  /** A call leaves a spent family spent, a dead one dead, and hands out no pair for it. */
  lemma StepKeepsSpent(cfg: Settings, w: World, e: Event, f: Family)
    requires Good(cfg, w) && Enabled(w, e) && f in w.past.families && Spent(w.core.db.rows, f, w.now)
    ensures
      var after := Step(cfg, w, e);
      && Spent(after.core.db.rows, f, after.now)
      && (Dead(w.core.db.rows, f) ==> Dead(after.core.db.rows, f))
      && PairsOf(after.past.pairs, f) == PairsOf(w.past.pairs, f)
  {
    RowsNeverRevive(cfg, w, e, f);
    OnlyRevokedKeepsSpent(w.core.db.rows, Step(cfg, w, e).core.db.rows, f, w.now, e.time.finish);
    SpentIssuesNothing(cfg, w, e, f);
    var s := Serve(cfg, w.core, e.request, e.time);
    if s.reply.Issued? {
      PairAppended(w.past.pairs, Pair(s.reply.token.row.family, s.reply.token.row.parent.None?), f);
    }
  }

  lemma PairAppended(pairs: seq<Pair>, p: Pair, f: Family)
    ensures PairsOf(pairs + [p], f) == PairsOf(pairs, f) + if p.family == f then 1 else 0
  {
    assert (pairs + [p])[..|pairs|] == pairs;
  }

  lemma SpentIssuesNothing(cfg: Settings, w: World, e: Event, f: Family)
    requires Enabled(w, e) && f in w.past.families && Spent(w.core.db.rows, f, w.now)
    ensures
      var reply := Serve(cfg, w.core, e.request, e.time).reply;
      reply.Issued? ==> reply.token.row.family != f
  {
    if e.request.OnRefresh? {
      var a := RotationOf(cfg, e.request.refresh, e.time.start);
      RotateCases(w.core.db, a);
      if Consumable(w.core.db, a) {
        var i := Find(w.core.db.rows, a.hash).value;
        assert !InFamily(w.core.db.rows, i, f);
      }
    }
  }

  lemma OnlyRevokedKeepsSpent(rows: Rows, after: Rows, f: Family, now: int, later: int)
    requires OnlyRevoked(rows, after, f) && Spent(rows, f, now) && now <= later
    ensures Spent(after, f, later)
    ensures Dead(rows, f) ==> Dead(after, f)
  {
  }

  /** The family gained no row, and no revocation was taken back or overwritten. */
  ghost predicate OnlyRevoked(rows: Rows, after: Rows, f: Family) {
    forall i :: InFamily(after, i, f) ==>
      && InFamily(rows, i, f)
      && after[i].expires == rows[i].expires
      && (rows[i].revoked.Some? ==> after[i].revoked == rows[i].revoked)
  }

  lemma RotateNeverRevives(db: Db, a: RotateArgs, f: Family)
    requires Spent(db.rows, f, a.at) && forall i :: i in db.rows ==> i < db.nextId
    ensures OnlyRevoked(db.rows, Rotate(db, a).0.rows, f)
  {
    RotateCases(db, a);
    if Consumable(db, a) {
      var i := Find(db.rows, a.hash).value;
      assert !InFamily(db.rows, i, f);
    }
  }

  lemma OthersNeverRevive(cfg: Settings, c: Core, r: Request, t: Span, f: Family)
    requires !r.OnRefresh? && (r.OnLogin? ==> r.login.family != f)
    ensures OnlyRevoked(c.db.rows, Serve(cfg, c, r, t).core.db.rows, f)
  {
  }

  lemma RowsNeverRevive(cfg: Settings, w: World, e: Event, f: Family)
    requires forall i :: i in w.core.db.rows ==> i < w.core.db.nextId
    requires Enabled(w, e) && f in w.past.families && Spent(w.core.db.rows, f, w.now)
    ensures OnlyRevoked(w.core.db.rows, Step(cfg, w, e).core.db.rows, f)
  {
    if e.request.OnRefresh? {
      RotateNeverRevives(w.core.db, RotationOf(cfg, e.request.refresh, e.time.start), f);
    } else {
      OthersNeverRevive(cfg, w.core, e.request, e.time, f);
    }
  }

  /** In any continuation of the run. */
  lemma {:induction false} SpentForEver(cfg: Settings, w: World, es: seq<Event>, f: Family)
    requires Good(cfg, w) && Legal(cfg, w, es) && f in w.past.families && Spent(w.core.db.rows, f, w.now)
    ensures
      var after := Exec(cfg, w, es);
      && Spent(after.core.db.rows, f, after.now)
      && (Dead(w.core.db.rows, f) ==> Dead(after.core.db.rows, f))
      && PairsOf(after.past.pairs, f) == PairsOf(w.past.pairs, f)
    decreases |es|
  {
    if es != [] {
      StepKeepsGood(cfg, w, es[0]);
      StepKeepsSpent(cfg, w, es[0], f);
      SpentForEver(cfg, Step(cfg, w, es[0]), es[1..], f);
    }
  }

  /**
   * Left unrotated until the expiry of its last row, a family never issues a pair again: its rows
   * expire one refresh lifetime after they were issued.
   */
  lemma UnrotatedFamilyEnds(cfg: Settings, w: World, after: seq<Event>, f: Family, tip: nat)
    requires Reachable(cfg, w, false) && Legal(cfg, w, after)
    requires InFamily(w.core.db.rows, tip, f) && forall i: nat :: InFamily(w.core.db.rows, i, f) ==> i <= tip
    requires w.core.db.rows[tip].expires <= w.now
    ensures PairsOf(Exec(cfg, w, after).past.pairs, f) == PairsOf(w.past.pairs, f)
  {
    ReachableIsGood(cfg, w, false);
    forall i: nat | InFamily(w.core.db.rows, i, f) ensures w.core.db.rows[i].expires <= w.now {
      DeviceAndExpiryAlongChain(w.core.db, cfg.refreshLifetime, w.now, i, tip);
    }
    SpentForEver(cfg, w, after, f);
  }

  /**
   * A logout revokes one row.  It ends the family exactly when the presented row was the unrevoked
   * tip, or the family had ended before; an older token of a live family leaves it live.
   */
  lemma LogoutEndsFamily(cfg: Settings, w: World, e: Event, i: nat)
    requires Reachable(cfg, w, false) && e.request.OnLogout?
    requires Find(w.core.db.rows, e.request.logout.hash) == Some(i)
    ensures
      var rows, f := w.core.db.rows, w.core.db.rows[i].family;
      Dead(Step(cfg, w, e).core.db.rows, f) <==> rows[i].revoked.None? || Dead(rows, f)
  {
    ReachableIsGood(cfg, w, false);
    RevokingOneRow(w.core.db, cfg.refreshLifetime, w.now, i, e.time.finish);
  }

  lemma RevokingOneRow(db: Db, lifetime: int, now: int, i: nat, at: int)
    requires Sound(db, lifetime, now) && i in db.rows
    ensures
      Dead(RevokeAll(db.rows, OneRow(i), at), db.rows[i].family) <==>
        db.rows[i].revoked.None? || Dead(db.rows, db.rows[i].family)
  {
    var rows, f := db.rows, db.rows[i].family;
    var after := RevokeAll(rows, OneRow(i), at);
    if rows[i].revoked.None? {
      assert RowSound(rows, i, lifetime);
      forall j: nat | InFamily(after, j, f) ensures after[j].revoked.Some? {
        assert RowSound(rows, j, lifetime);
        assert SameFamily(i, rows[i], j, rows[j]) && SameFamily(j, rows[j], i, rows[i]);
      }
    } else {
      assert after == rows;
    }
  }

  /** The row a refresh presents. */
  ghost function Presented(w: World, e: Event): Option<Row>
    requires e.request.OnRefresh?
  {
    match Find(w.core.db.rows, e.request.refresh.hash)
    case None => None
    case Some(i) => Some(w.core.db.rows[i])
  }

  /** A refresh that ended in detected reuse or in a device mismatch. */
  ghost predicate Alarmed(cfg: Settings, w: World, e: Event, row: Row) {
    && e.request.OnRefresh?
    && Presented(w, e) == Some(row)
    && Serve(cfg, w.core, e.request, e.time).reply in {Refused(ReusedToken), Refused(MismatchedDevice)}
  }

  lemma AlarmEffects(cfg: Settings, w: World, e: Event, row: Row)
    requires Alarmed(cfg, w, e, row)
    ensures
      var after := Step(cfg, w, e);
      && after.core.db.rows == RevokeAll(w.core.db.rows, WholeFamily(row.family), e.time.start)
      && UserRevoked(row.user, e.time.start) in after.past.revoked
      && after.past.pairs == w.past.pairs
      && after.past.families == w.past.families
  {
    RotateCases(w.core.db, RotationOf(cfg, e.request.refresh, e.time.start));
  }

  lemma SweptFamily(rows: Rows, f: Family, at: int)
    ensures
      var after := RevokeAll(rows, WholeFamily(f), at);
      && Dead(after, f) && after.Keys == rows.Keys
      && forall i :: i in rows && rows[i].family != f ==> after[i] == rows[i]
  {
  }

  /** After a revocation of a user at `at`, every token of it granted before is refused in every later state. */
  lemma RefusedForEver(cfg: Settings, w: World, es: seq<Event>, user: nat, at: int)
    requires Good(cfg, w) && Agreeing(cfg, w) && Legal(cfg, w, es) && AllAnswered(es)
    requires UserRevoked(user, at) in w.past.revoked
    ensures
      var later := Exec(cfg, w, es);
      forall g, now :: g in later.past.grants && g.user == user && g.at < at && later.now <= now ==>
        !Accepts(cfg, later.core.store, g, now, true)
  {
    var later := Exec(cfg, w, es);
    forall g, now | g in later.past.grants && g.user == user && g.at < at && later.now <= now
      ensures !Accepts(cfg, later.core.store, g, now, true)
    {
      EpochRounding(g.at, at);
      RevokedForEver(cfg, w, es, g, now);
    }
  }

  /** A run in which Redis answered is a run. */
  lemma AnsweredIsReachable(cfg: Settings, w: World)
    requires Reachable(cfg, w, true)
    ensures Reachable(cfg, w, false)
  {
  }

  /**
   * The table's response to a stolen refresh token, whatever Redis does.  After a refresh ends in reuse
   * or mismatch its family is fully revoked in every later state of every run and hands out no pair
   * again, and the rows of the other families are what they were.
   */
  lemma TheftEndsFamily(cfg: Settings, w: World, e: Event, after: seq<Event>, row: Row)
    requires Reachable(cfg, w, false) && Enabled(w, e) && Alarmed(cfg, w, e, row)
    requires Legal(cfg, Step(cfg, w, e), after)
    ensures
      var alarmed := Step(cfg, w, e);
      var later := Exec(cfg, alarmed, after);
      && Dead(later.core.db.rows, row.family)
      && PairsOf(later.past.pairs, row.family) == PairsOf(w.past.pairs, row.family)
      && alarmed.core.db.rows.Keys == w.core.db.rows.Keys
      && (forall i :: i in w.core.db.rows && w.core.db.rows[i].family != row.family ==>
            alarmed.core.db.rows[i] == w.core.db.rows[i])
  {
    ReachableIsGood(cfg, w, false);
    StepKeepsGood(cfg, w, e);
    AlarmEffects(cfg, w, e, row);
    SweptFamily(w.core.db.rows, row.family, e.time.start);
    PresentedIsKnown(cfg, w, e, row);
    SpentForEver(cfg, Step(cfg, w, e), after, row.family);
  }

  /** The access tokens' half, while Redis answers: every one granted before the alarm is refused for ever. */
  lemma TheftRefusesTokens(cfg: Settings, w: World, e: Event, after: seq<Event>, row: Row)
    requires Reachable(cfg, w, true)
    requires Enabled(w, e) && RedisAnswers(e.request) && Alarmed(cfg, w, e, row)
    requires Legal(cfg, Step(cfg, w, e), after) && AllAnswered(after)
    ensures
      var later := Exec(cfg, Step(cfg, w, e), after);
      forall g, now :: g in later.past.grants && g.user == row.user && g.at < e.time.start && later.now <= now ==>
        !Accepts(cfg, later.core.store, g, now, true)
  {
    ReachableIsGood(cfg, w, true);
    StepKeepsGood(cfg, w, e);
    AlarmEffects(cfg, w, e, row);
    RefusedForEver(cfg, Step(cfg, w, e), after, row.user, e.time.start);
  }

  /**
   * The response across both stores.  While Redis answers, a refresh that ends in reuse or mismatch at
   * time T ends its family for ever, and the user's access tokens granted before T are refused for ever.
   */
  lemma TheftResponse(cfg: Settings, w: World, e: Event, after: seq<Event>, row: Row)
    requires Reachable(cfg, w, true)
    requires Enabled(w, e) && RedisAnswers(e.request) && Alarmed(cfg, w, e, row)
    requires Legal(cfg, Step(cfg, w, e), after) && AllAnswered(after)
    ensures
      var alarmed := Step(cfg, w, e);
      var later := Exec(cfg, alarmed, after);
      && Dead(later.core.db.rows, row.family)
      && PairsOf(later.past.pairs, row.family) == PairsOf(w.past.pairs, row.family)
      && (forall g, now :: g in later.past.grants && g.user == row.user && g.at < e.time.start && later.now <= now ==>
            !Accepts(cfg, later.core.store, g, now, true))
      && alarmed.core.db.rows.Keys == w.core.db.rows.Keys
      && (forall i :: i in w.core.db.rows && w.core.db.rows[i].family != row.family ==>
            alarmed.core.db.rows[i] == w.core.db.rows[i])
  {
    AnsweredIsReachable(cfg, w);
    TheftEndsFamily(cfg, w, e, after, row);
    TheftRefusesTokens(cfg, w, e, after, row);
  }

  lemma LogoutAllEffects(cfg: Settings, w: World, e: Event, i: nat)
    requires Sound(w.core.db, cfg.refreshLifetime, w.now) && e.request.OnLogoutAll?
    requires i in w.core.db.rows && w.core.db.rows[i].user == e.request.user
    ensures
      var after := Step(cfg, w, e);
      && Dead(after.core.db.rows, w.core.db.rows[i].family)
      && after.past.pairs == w.past.pairs
      && after.past.families == w.past.families
  {
    assert RowSound(w.core.db.rows, i, cfg.refreshLifetime);
    var rows, f := w.core.db.rows, w.core.db.rows[i].family;
    forall j: nat | InFamily(rows, j, f) ensures rows[j].user == e.request.user {
      assert SameFamily(i, rows[i], j, rows[j]);
    }
  }

  /** After a logout of all sessions no family the user has rows in hands out a pair again, whatever Redis does. */
  lemma LogoutAllEndsFamilies(cfg: Settings, w: World, e: Event, after: seq<Event>, i: nat)
    requires Reachable(cfg, w, false) && Enabled(w, e) && e.request.OnLogoutAll?
    requires i in w.core.db.rows && w.core.db.rows[i].user == e.request.user
    requires Legal(cfg, Step(cfg, w, e), after)
    ensures
      var f, later := w.core.db.rows[i].family, Exec(cfg, Step(cfg, w, e), after);
      && Dead(later.core.db.rows, f)
      && PairsOf(later.past.pairs, f) == PairsOf(w.past.pairs, f)
  {
    ReachableIsGood(cfg, w, false);
    StepKeepsGood(cfg, w, e);
    LogoutAllEffects(cfg, w, e, i);
    SpentForEver(cfg, Step(cfg, w, e), after, w.core.db.rows[i].family);
  }

  /** While Redis answers, every access token granted to the user before T is refused for ever as well. */
  lemma LogoutAllRefusesTokens(cfg: Settings, w: World, e: Event, after: seq<Event>)
    requires Reachable(cfg, w, true) && Enabled(w, e) && e.request.OnLogoutAll? && RedisAnswers(e.request)
    requires Legal(cfg, Step(cfg, w, e), after) && AllAnswered(after)
    ensures
      var later := Exec(cfg, Step(cfg, w, e), after);
      forall g, now :: g in later.past.grants && g.user == e.request.user && g.at < e.time.start && later.now <= now ==>
        !Accepts(cfg, later.core.store, g, now, true)
  {
    ReachableIsGood(cfg, w, true);
    StepKeepsGood(cfg, w, e);
    RefusedForEver(cfg, Step(cfg, w, e), after, e.request.user, e.time.start);
  }

  lemma PresentedIsKnown(cfg: Settings, w: World, e: Event, row: Row)
    requires RowsKnown(w.core, w.past.families) && e.request.OnRefresh? && Presented(w, e) == Some(row)
    ensures row.family in w.past.families
  {
  }

  // ---------------------------------------------------------------- revocation is written once

  lemma RotateWritesOnce(db: Db, a: RotateArgs, i: nat)
    requires i < db.nextId && forall k :: k in db.rows ==> k < db.nextId
    ensures
      var after := Rotate(db, a).0;
      && db.nextId <= after.nextId
      && (i in after.rows ==> i in db.rows)
      && (i in after.rows && db.rows[i].revoked.Some? ==> after.rows[i] == db.rows[i])
  {
    RotateCases(db, a);
  }

  lemma OthersWriteOnce(cfg: Settings, c: Core, r: Request, t: Span, i: nat)
    requires !r.OnRefresh? && !r.OnDelete? && i < c.db.nextId
    ensures
      var after := Serve(cfg, c, r, t).core.db;
      && i < after.nextId
      && (i in after.rows ==> i in c.db.rows)
      && (i in after.rows && c.db.rows[i].revoked.Some? ==> after.rows[i] == c.db.rows[i])
  {
  }

  lemma StepWritesOnce(cfg: Settings, w: World, e: Event, i: nat)
    requires Sound(w.core.db, cfg.refreshLifetime, w.now) && i < w.core.db.nextId
    ensures
      var rows, after := w.core.db.rows, Step(cfg, w, e).core.db;
      && i < after.nextId
      && (i in after.rows ==> i in rows)
      && (i in after.rows && rows[i].revoked.Some? ==> after.rows[i] == rows[i])
  {
    if e.request.OnRefresh? {
      RotateWritesOnce(w.core.db, RotationOf(cfg, e.request.refresh, e.time.start), i);
    } else if e.request.OnDelete? {
      DeleteWritesOnce(cfg, w, e, i);
    } else {
      OthersWriteOnce(cfg, w.core, e.request, e.time, i);
    }
  }

  lemma DeleteWritesOnce(cfg: Settings, w: World, e: Event, i: nat)
    requires Sound(w.core.db, cfg.refreshLifetime, w.now)
    requires e.request.OnDelete?
    ensures
      var rows, after := w.core.db.rows, Sessions.DeleteUser(w.core, e.request.user, e.request.context).core.db;
      && after.nextId == w.core.db.nextId
      && (i in after.rows ==> i in rows && after.rows[i] == rows[i])
  {
    DeleteKeepsSound(w.core.db, e.request.user, cfg.refreshLifetime, w.now);
  }

  /** Once revoked, a row is never written again, and its id is never used for another row. */
  lemma {:induction false} RevokedRowIsFrozen(cfg: Settings, w: World, es: seq<Event>, i: nat)
    requires Good(cfg, w) && Legal(cfg, w, es) && i < w.core.db.nextId
    ensures
      var rows, after := w.core.db.rows, Exec(cfg, w, es).core.db.rows;
      && (i in after ==> i in rows)
      && (i in after && rows[i].revoked.Some? ==> after[i] == rows[i])
    decreases |es|
  {
    if es != [] {
      StepWritesOnce(cfg, w, es[0], i);
      StepKeepsGood(cfg, w, es[0]);
      RevokedRowIsFrozen(cfg, Step(cfg, w, es[0]), es[1..], i);
    }
  }

  // ---------------------------------------------------------------- replies

  /**
   * Every reply of a refresh, by the row it presents.  Reuse is reported of any revoked row, expired
   * or not; a mismatch only of an unrevoked, unexpired, bound row while the switch is on.
   */
  lemma RefreshReplies(cfg: Settings, w: World, e: Event)
    requires e.request.OnRefresh?
    ensures
      var q, reply := e.request.refresh, Serve(cfg, w.core, e.request, e.time).reply;
      match Presented(w, e)
      case None => reply == Refused(BadToken)
      case Some(row) =>
        var usable := row.revoked.None? && e.time.start < row.expires;
        var mismatch := q.bindDevice && row.device.Some? && DeviceHash(q.context.userAgent) != row.device;
        && (reply == Refused(ReusedToken) <==> row.revoked.Some?)
        && (reply == Refused(BadToken) <==> row.revoked.None? && row.expires <= e.time.start)
        && (reply == Refused(MismatchedDevice) <==> usable && mismatch)
        && (reply == Refused(Integrity) <==> usable && !mismatch && HashTaken(w.core.db.rows, q.replacement))
        && (reply.Issued? <==> usable && !mismatch && !HashTaken(w.core.db.rows, q.replacement))
        && (reply.Issued? ==> reply.grant.user == row.user && reply.token.row.hash == q.replacement
                              && reply.token.row.family == row.family && reply.token.row.revoked.None?)
  {
    RotateCases(w.core.db, RotationOf(cfg, e.request.refresh, e.time.start));
  }

  /**
   * A refresh token that has been consumed or revoked is reported as reused whenever it is presented
   * again, at any later point of any run, for as long as its row is stored.
   */
  lemma ReplayDetected(cfg: Settings, w: World, es: seq<Event>, e: Event, i: nat)
    requires Reachable(cfg, w, false) && Legal(cfg, w, es) && Enabled(Exec(cfg, w, es), e)
    requires i in w.core.db.rows && w.core.db.rows[i].revoked.Some? && i in Exec(cfg, w, es).core.db.rows
    requires e.request.OnRefresh? && e.request.refresh.hash == w.core.db.rows[i].hash
    ensures Serve(cfg, Exec(cfg, w, es).core, e.request, e.time).reply == Refused(ReusedToken)
  {
    ReachableIsGood(cfg, w, false);
    RevokedRowIsFrozen(cfg, w, es, i);
    RunKeepsGood(cfg, w, es);
    var later := Exec(cfg, w, es);
    assert Find(later.core.db.rows, e.request.refresh.hash) == Some(i);
    RefreshReplies(cfg, later, e);
  }
}
