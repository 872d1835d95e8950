/** Over whole runs: the device that first identifies itself in a family is the one the family is bound to. */
module DeviceTheorems {
  import opened Options
  import opened Clock
  import opened RefreshTokens
  import opened FamilyChains
  import opened Sessions
  import opened Runs
  import opened FamilyTheorems
  import opened CallTheorems

  /** What the client presented. */
  function PresentedAgent(r: Request): Option<string>
    requires r.OnLogin? || r.OnRefresh?
  {
    if r.OnLogin? then r.login.context.userAgent else r.refresh.context.userAgent
  }

  /** The call issues a pair for family `f`. */
  ghost predicate IssuesFor(cfg: Settings, w: World, e: Event, f: Family) {
    var reply := Serve(cfg, w.core, e.request, e.time).reply;
    reply.Issued? && reply.token.row.family == f
  }

  /** The call presents device `d` and issues the first pair of a family, or the next of a family not yet bound. */
  ghost predicate FirstIdentified(cfg: Settings, w: World, e: Event, f: Family, d: string) {
    && IssuesFor(cfg, w, e, f)
    && (e.request.OnLogin? ||
        (e.request.OnRefresh? && Presented(w, e).Some? && Presented(w, e).value.device == None))
    && DeviceHash(PresentedAgent(e.request)) == Some(d)
  }

  /** The row of the family that can still be rotated, if there is one, is bound to device `d`. */
  ghost predicate BoundTo(rows: Rows, f: Family, d: string) {
    forall i :: InFamily(rows, i, f) ==> rows[i].revoked.Some? || rows[i].device == Some(d)
  }

  /** A session that is opened, or goes on unbound, is bound to the device that was presented. */
  lemma LoginBinds(cfg: Settings, w: World, e: Event, f: Family, d: string)
    requires Good(cfg, w) && Enabled(w, e) && e.request.OnLogin? && FirstIdentified(cfg, w, e, f, d)
    ensures BoundTo(Step(cfg, w, e).core.db.rows, f, d)
  {
    LoginReplies(cfg, w.core, e.request.login, e.time);
  }

  lemma RefreshBinds(cfg: Settings, w: World, e: Event, f: Family, d: string)
    requires Good(cfg, w) && e.request.OnRefresh? && FirstIdentified(cfg, w, e, f, d)
    ensures BoundTo(Step(cfg, w, e).core.db.rows, f, d)
  {
    var rows, i := w.core.db.rows, Find(w.core.db.rows, e.request.refresh.hash).value;
    RefreshReplies(cfg, w, e);
    RefreshContinues(cfg, w.core, e.request.refresh, e.time, i);
    OthersRevoked(w.core.db, cfg.refreshLifetime, w.now, i);
  }

  /** Next to the unrevoked row of a family every other row is revoked. */
  lemma OthersRevoked(db: Db, lifetime: int, now: int, i: nat)
    requires Sound(db, lifetime, now) && i in db.rows && db.rows[i].revoked.None?
    ensures forall j :: InFamily(db.rows, j, db.rows[i].family) && j != i ==> db.rows[j].revoked.Some?
  {
    SoundIsChained(db, lifetime, now);
    forall j: nat | InFamily(db.rows, j, db.rows[i].family) && j != i ensures db.rows[j].revoked.Some? {
      if db.rows[j].revoked.None? { OneUnrevoked(db.rows, i, j); }
    }
  }

  lemma RotateKeepsBound(db: Db, a: RotateArgs, f: Family, d: string)
    requires BoundTo(db.rows, f, d) && d != "" && forall i :: i in db.rows ==> i < db.nextId
    ensures BoundTo(Rotate(db, a).0.rows, f, d)
  {
    RotateCases(db, a);
    if Consumable(db, a) {
      var i := Find(db.rows, a.hash).value;
      assert InFamily(db.rows, i, db.rows[i].family);
    }
  }

  lemma OthersKeepBound(cfg: Settings, c: Core, r: Request, t: Span, f: Family, d: string)
    requires BoundTo(c.db.rows, f, d) && !r.OnRefresh? && (r.OnLogin? ==> r.login.family != f)
    ensures BoundTo(Serve(cfg, c, r, t).core.db.rows, f, d)
  {
    OthersNeverRevive(cfg, c, r, t, f);
  }

  lemma StepKeepsBound(cfg: Settings, w: World, e: Event, f: Family, d: string)
    requires BoundTo(w.core.db.rows, f, d) && d != "" && f in w.past.families && Enabled(w, e)
    requires forall i :: i in w.core.db.rows ==> i < w.core.db.nextId
    ensures BoundTo(Step(cfg, w, e).core.db.rows, f, d)
  {
    if e.request.OnRefresh? {
      RotateKeepsBound(w.core.db, RotationOf(cfg, e.request.refresh, e.time.start), f, d);
    } else {
      OthersKeepBound(cfg, w.core, e.request, e.time, f, d);
    }
  }

  lemma {:induction false} RunKeepsBound(cfg: Settings, w: World, es: seq<Event>, f: Family, d: string)
    requires Good(cfg, w) && Legal(cfg, w, es) && f in w.past.families && BoundTo(w.core.db.rows, f, d) && d != ""
    ensures BoundTo(Exec(cfg, w, es).core.db.rows, f, d)
    decreases |es|
  {
    if es != [] {
      StepKeepsBound(cfg, w, es[0], f, d);
      StepKeepsGood(cfg, w, es[0]);
      StepRemembers(cfg, w, es[0]);
      RunKeepsBound(cfg, Step(cfg, w, es[0]), es[1..], f, d);
    }
  }

  /** With the switch on, a family bound to a device issues nothing to another one. */
  lemma BoundIssuesOnlyThere(cfg: Settings, w: World, e: Event, f: Family, d: string)
    requires BoundTo(w.core.db.rows, f, d) && e.request.OnRefresh? && e.request.refresh.bindDevice
    requires DeviceHash(e.request.refresh.context.userAgent) != Some(d)
    ensures !IssuesFor(cfg, w, e, f)
  {
    RefreshReplies(cfg, w, e);
    var found := Find(w.core.db.rows, e.request.refresh.hash);
    if found.Some? { assert InFamily(w.core.db.rows, found.value, w.core.db.rows[found.value].family); }
  }

  /**
   * Device binding over whole runs.  Once a login, or a refresh of a family without a device, has issued
   * a pair to a client that identifies its device, no refresh with the binding switch on that presents
   * another device, or none, issues a pair for that family at any later point.
   */
  lemma DeviceIsFinal(cfg: Settings, w: World, e: Event, between: seq<Event>, later: Event, f: Family, d: string)
    requires Reachable(cfg, w, false) && Enabled(w, e) && FirstIdentified(cfg, w, e, f, d)
    requires Legal(cfg, Step(cfg, w, e), between)
    requires later.request.OnRefresh? && later.request.refresh.bindDevice
    requires DeviceHash(later.request.refresh.context.userAgent) != Some(d)
    ensures !IssuesFor(cfg, Exec(cfg, Step(cfg, w, e), between), later, f)
  {
    ReachableIsGood(cfg, w, false);
    StepKeepsGood(cfg, w, e);
    StepRemembers(cfg, w, e);
    FamilyIsKnown(cfg, w, e, f);
    if e.request.OnLogin? { LoginBinds(cfg, w, e, f, d); } else { RefreshBinds(cfg, w, e, f, d); }
    RunKeepsBound(cfg, Step(cfg, w, e), between, f, d);
    BoundIssuesOnlyThere(cfg, Exec(cfg, Step(cfg, w, e), between), later, f, d);
  }

  lemma FamilyIsKnown(cfg: Settings, w: World, e: Event, f: Family)
    requires Good(cfg, w) && (e.request.OnLogin? || e.request.OnRefresh?) && IssuesFor(cfg, w, e, f)
    ensures f in Step(cfg, w, e).past.families
  {
    StepRemembers(cfg, w, e);
    if e.request.OnRefresh? {
      RefreshReplies(cfg, w, e);
    } else {
      LoginReplies(cfg, w.core, e.request.login, e.time);
    }
  }
}
