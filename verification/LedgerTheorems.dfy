/** Over whole runs: rows, handed-out pairs and audit entries of a family can be reconciled. */
module LedgerTheorems {
  import opened Options
  import opened Clock
  import opened Texts
  import opened SensitiveKeys
  import opened Sanitizer
  import opened AuditLog
  import opened RefreshTokens
  import opened Sessions
  import opened Runs
  import opened FamilyChains
  import opened FamilyTheorems

  function RowIds(rows: Rows, f: Family): set<nat> {
    set i | i in rows && rows[i].family == f
  }

  function LoginsOf(pairs: seq<Pair>, f: Family): nat {
    if pairs == [] then 0
    else
      var last := |pairs| - 1;
      LoginsOf(pairs[..last], f) + if pairs[last] == Pair(f, true) then 1 else 0
  }

  predicate NoDeletion(es: seq<Event>) {
    forall k :: 0 <= k < |es| ==> !es[k].request.OnDelete?
  }

  /** As many rows as pairs handed out, and one login for a family that has rows. */
  ghost predicate Balanced(rows: Rows, pairs: seq<Pair>) {
    forall f :: |RowIds(rows, f)| == PairsOf(pairs, f) && LoginsOf(pairs, f) == if RowIds(rows, f) == {} then 0 else 1
  }

  /** The rows keep their families. */
  ghost predicate SameFamilies(rows: Rows, after: Rows) {
    forall f :: RowIds(after, f) == RowIds(rows, f)
  }

  /** One row is added, under the family of the token, and a root exactly when the family is new. */
  ghost predicate RowAdded(rows: Rows, after: Rows, token: Dto) {
    && token.id !in rows
    && (token.row.parent.None? <==> RowIds(rows, token.row.family) == {})
    && forall f :: RowIds(after, f) == RowIds(rows, f) + if f == token.row.family then {token.id} else {}
  }

  lemma RotateAddsRow(db: Db, a: RotateArgs)
    requires forall i :: i in db.rows ==> i < db.nextId
    ensures
      var (after, result) := Rotate(db, a);
      if result.Ok? && result.value.outcome == Rotated then
        result.value.token.Some? && RowAdded(db.rows, after.rows, result.value.token.value)
      else SameFamilies(db.rows, after.rows)
  {
    RotateCases(db, a);
    if Consumable(db, a) {
      var i := Find(db.rows, a.hash).value;
      assert i in RowIds(db.rows, db.rows[i].family);
    }
  }

  lemma LoginAddsRow(cfg: Settings, c: Core, q: LoginArgs, t: Span)
    requires forall i :: i in c.db.rows ==> i < c.db.nextId && c.db.rows[i].family != q.family
    ensures
      var s := Sessions.Login(cfg, c, q, t);
      if s.reply.Issued? then RowAdded(c.db.rows, s.core.db.rows, s.reply.token)
      else SameFamilies(c.db.rows, s.core.db.rows)
  {
  }

  lemma OthersAddRow(cfg: Settings, c: Core, r: Request, t: Span)
    requires !r.OnRefresh? && !r.OnDelete?
    requires forall i :: i in c.db.rows ==> i < c.db.nextId && (r.OnLogin? ==> c.db.rows[i].family != r.login.family)
    ensures
      var s := Serve(cfg, c, r, t);
      if s.reply.Issued? then RowAdded(c.db.rows, s.core.db.rows, s.reply.token)
      else SameFamilies(c.db.rows, s.core.db.rows)
  {
    if r.OnLogin? { LoginAddsRow(cfg, c, r.login, t); }
  }

  lemma PairsAppended(pairs: seq<Pair>, p: Pair, f: Family)
    ensures PairsOf(pairs + [p], f) == PairsOf(pairs, f) + if p.family == f then 1 else 0
    ensures LoginsOf(pairs + [p], f) == LoginsOf(pairs, f) + if p == Pair(f, true) then 1 else 0
  {
    PairAppended(pairs, p, f);
    assert (pairs + [p])[..|pairs|] == pairs;
  }

  lemma RowAddedKeepsBalance(rows: Rows, after: Rows, token: Dto, pairs: seq<Pair>)
    requires Balanced(rows, pairs) && RowAdded(rows, after, token)
    ensures Balanced(after, pairs + [Pair(token.row.family, token.row.parent.None?)])
  {
    var all := pairs + [Pair(token.row.family, token.row.parent.None?)];
    forall f
      ensures |RowIds(after, f)| == PairsOf(all, f) && LoginsOf(all, f) == if RowIds(after, f) == {} then 0 else 1
    {
      PairsAppended(pairs, Pair(token.row.family, token.row.parent.None?), f);
      assert token.id !in RowIds(rows, f);
    }
  }

  lemma StepKeepsBalance(cfg: Settings, w: World, e: Event)
    requires Good(cfg, w) && Enabled(w, e) && !e.request.OnDelete?
    requires Balanced(w.core.db.rows, w.past.pairs)
    ensures Balanced(Step(cfg, w, e).core.db.rows, Step(cfg, w, e).past.pairs)
  {
    var s := Serve(cfg, w.core, e.request, e.time);
    if e.request.OnRefresh? {
      RotateAddsRow(w.core.db, RotationOf(cfg, e.request.refresh, e.time.start));
      RotateCases(w.core.db, RotationOf(cfg, e.request.refresh, e.time.start));
    } else {
      OthersAddRow(cfg, w.core, e.request, e.time);
    }
    if s.reply.Issued? {
      RowAddedKeepsBalance(w.core.db.rows, s.core.db.rows, s.reply.token, w.past.pairs);
    } else {
      SameFamiliesKeepBalance(w.core.db.rows, s.core.db.rows, w.past.pairs);
    }
  }

  lemma SameFamiliesKeepBalance(rows: Rows, after: Rows, pairs: seq<Pair>)
    requires Balanced(rows, pairs) && SameFamilies(rows, after)
    ensures Balanced(after, pairs)
  {
  }

  lemma {:induction false} RunKeepsBalance(cfg: Settings, w: World, es: seq<Event>)
    requires Good(cfg, w) && Legal(cfg, w, es) && NoDeletion(es)
    requires Balanced(w.core.db.rows, w.past.pairs)
    ensures Balanced(Exec(cfg, w, es).core.db.rows, Exec(cfg, w, es).past.pairs)
    decreases |es|
  {
    if es != [] {
      assert !es[0].request.OnDelete?;
      assert NoDeletion(es[1..]) by { assert forall k :: 0 < k < |es| ==> es[k] == es[1..][k - 1]; }
      StepKeepsGood(cfg, w, es[0]);
      StepKeepsBalance(cfg, w, es[0]);
      RunKeepsBalance(cfg, Step(cfg, w, es[0]), es[1..]);
    }
  }

  // ---------------------------------------------------------------- the audit log

  /** The entry tells of a refresh of family `f`. */
  predicate TellsRefresh(entry: LogEntry, f: Family) {
    entry.action == TokenRefreshed && FieldOf(entry.metadata, "family_id") == Some(Uuid(f))
  }

  function RefreshesOf(log: seq<LogEntry>, f: Family): nat {
    if log == [] then 0
    else
      var last := |log| - 1;
      RefreshesOf(log[..last], f) + if TellsRefresh(log[last], f) then 1 else 0
  }

  predicate NoLostWrite(es: seq<Event>) {
    forall k :: 0 <= k < |es| ==> !Loses(es[k].faults.0) && !Loses(es[k].faults.1)
  }

  lemma SegmentsOfFamilyId()
    ensures Split("family_id", DELIMITERS) == ["family", "id"]
  {
    SplitWhole("family", DELIMITERS);
    SplitWhole("id", DELIMITERS);
    SplitPrefix("family", '_', "id", DELIMITERS);
    assert "family_id" == "family" + (['_'] + "id");
    assert ["family"] + ["id"] == ["family", "id"];
  }

  lemma FamilyIdHasNoHump(key: string)
    requires key == "family_id"
    ensures Rewrite(key) == key && Chomp(key) == key
  {
    forall k | 0 < k < |key| ensures !IsUpper(key[k]) {}
    RewriteWithoutHumps(key);
  }

  lemma FamilyIdIsPlain()
    ensures !IsSensitive("family_id")
  {
    SensitiveIffSegment("family_id");
    FamilyIdHasNoHump("family_id");
    if HasSegmentIn("family_id", WORDS) {
      SegmentsOfFamilyId();
      NotAWord("family");
      NotAWord("id");
    }
  }

  lemma NotAWord(s: string)
    requires s != "" && s[0] in {'f', 'i'}
    ensures Fold(s) !in WORDS
  {
    assert Fold(s)[0] == FoldChar(s[0]);
  }

  lemma RecordedRefresh(log: seq<LogEntry>, call: Call, emails: Emails, fault: Fault, f: Family)
    requires !Loses(fault)
    requires call.action == TokenRefreshed ==> exists g :: call.metadata == FamilyMetadata(g)
    ensures RefreshesOf(Recorded(log, call, emails, fault), f) ==
              RefreshesOf(log, f) + if call.action == TokenRefreshed && call.metadata == FamilyMetadata(f) then 1 else 0
  {
    var entry := NewEntry(call, emails, fault);
    assert (log + [entry])[..|log|] == log;
    if call.action == TokenRefreshed {
      var g :| call.metadata == FamilyMetadata(g);
      FamilyIdIsPlain();
      StoredField(call, "family_id");
      assert FieldOf(call.metadata.value, "family_id") == Some(Uuid(g));
    }
  }

  predicate CallTells(call: Call, f: Family) {
    call.action == TokenRefreshed && call.metadata == FamilyMetadata(f)
  }

  function CallsOf(calls: seq<Call>, f: Family): nat {
    if calls == [] then 0 else (if CallTells(calls[0], f) then 1 else 0) + CallsOf(calls[1..], f)
  }

  ghost predicate NamesFamily(call: Call) {
    call.action == TokenRefreshed ==> exists g :: call.metadata == FamilyMetadata(g)
  }

  lemma RecordAllCounts(log: seq<LogEntry>, calls: seq<Call>, emails: Emails, faults: (Fault, Fault), f: Family)
    requires |calls| <= 2 && forall k :: 0 <= k < |calls| ==> NamesFamily(calls[k])
    requires !Loses(faults.0) && !Loses(faults.1)
    ensures RefreshesOf(RecordAll(log, calls, emails, faults), f) == RefreshesOf(log, f) + CallsOf(calls, f)
  {
    if calls != [] {
      assert NamesFamily(calls[0]);
      RecordedRefresh(log, calls[0], emails, faults.0, f);
      if |calls| == 2 {
        assert NamesFamily(calls[1]);
        assert calls[1..] == [calls[1]];
        assert CallsOf([calls[1]], f) == if CallTells(calls[1], f) then 1 else 0;
        RecordedRefresh(Recorded(log, calls[0], emails, faults.0), calls[1], emails, faults.1, f);
      } else {
        assert calls[1..] == [];
      }
    }
  }

  /** A call asks for one refresh entry exactly when it hands out a pair by rotation. */
  lemma ServedCalls(cfg: Settings, c: Core, r: Request, t: Span, f: Family)
    ensures
      var s := Serve(cfg, c, r, t);
      && |s.calls| <= 2
      && (forall k :: 0 <= k < |s.calls| ==> NamesFamily(s.calls[k]))
      && CallsOf(s.calls, f) ==
           if s.reply.Issued? && s.reply.token.row.parent.Some? && s.reply.token.row.family == f then 1 else 0
  {
    if r.OnRefresh? {
      RefreshCalls(cfg, c, r.refresh, t, f);
    } else {
      OtherCalls(cfg, c, r, t, f);
    }
  }

  lemma CallsOfOne(x: Call, f: Family)
    ensures CallsOf([x], f) == if CallTells(x, f) then 1 else 0
  {
    assert [x][1..] == [];
  }

  lemma OtherCalls(cfg: Settings, c: Core, r: Request, t: Span, f: Family)
    requires !r.OnRefresh?
    ensures
      var s := Serve(cfg, c, r, t);
      && |s.calls| <= 1
      && (forall k :: 0 <= k < |s.calls| ==> NamesFamily(s.calls[k]))
      && CallsOf(s.calls, f) == 0
      && (s.reply.Issued? ==> s.reply.token.row.parent.None?)
  {
    var s := Serve(cfg, c, r, t);
    if s.calls != [] {
      CallsOfOne(s.calls[0], f);
      assert s.calls == [s.calls[0]];
    }
  }

  lemma RefreshCalls(cfg: Settings, c: Core, q: RefreshArgs, t: Span, f: Family)
    ensures
      var s := Sessions.Refresh(cfg, c, q, t);
      && |s.calls| <= 2
      && (forall k :: 0 <= k < |s.calls| ==> NamesFamily(s.calls[k]))
      && CallsOf(s.calls, f) ==
           if s.reply.Issued? && s.reply.token.row.parent.Some? && s.reply.token.row.family == f then 1 else 0
  {
    RotateCases(c.db, RotationOf(cfg, q, t.start));
    var s := Sessions.Refresh(cfg, c, q, t);
    if s.reply.Issued? {
      var refreshed := s.calls[|s.calls| - 1];
      CallsOfOne(refreshed, f);
      assert refreshed.action == TokenRefreshed && refreshed.metadata == FamilyMetadata(s.reply.token.row.family);
      if |s.calls| == 2 {
        assert s.calls[0].action == TokenIpChanged;
        assert s.calls[1..] == [refreshed];
      } else {
        assert s.calls == [refreshed];
      }
    } else if s.calls != [] {
      CallsOfOne(s.calls[0], f);
      assert s.calls == [s.calls[0]];
    }
  }

  /** One refresh entry for each pair that was not handed out at a login. */
  ghost predicate LogBalanced(log: seq<LogEntry>, pairs: seq<Pair>) {
    forall f :: RefreshesOf(log, f) + LoginsOf(pairs, f) == PairsOf(pairs, f)
  }

  lemma StepKeepsLogBalance(cfg: Settings, w: World, e: Event)
    requires LogBalanced(w.log, w.past.pairs) && !Loses(e.faults.0) && !Loses(e.faults.1)
    ensures LogBalanced(Step(cfg, w, e).log, Step(cfg, w, e).past.pairs)
  {
    var s, after := Serve(cfg, w.core, e.request, e.time), Step(cfg, w, e);
    forall f ensures RefreshesOf(after.log, f) + LoginsOf(after.past.pairs, f) == PairsOf(after.past.pairs, f) {
      ServedCalls(cfg, w.core, e.request, e.time, f);
      RecordAllCounts(w.log, s.calls, EmailsOf(s.core.accounts), e.faults, f);
      if s.reply.Issued? {
        PairsAppended(w.past.pairs, Pair(s.reply.token.row.family, s.reply.token.row.parent.None?), f);
      }
    }
  }

  lemma {:induction false} RunKeepsLogBalance(cfg: Settings, w: World, es: seq<Event>)
    requires LogBalanced(w.log, w.past.pairs) && NoLostWrite(es)
    ensures LogBalanced(Exec(cfg, w, es).log, Exec(cfg, w, es).past.pairs)
    decreases |es|
  {
    if es != [] {
      assert !Loses(es[0].faults.0) && !Loses(es[0].faults.1);
      StepKeepsLogBalance(cfg, w, es[0]);
      RunKeepsLogBalance(cfg, Step(cfg, w, es[0]), es[1..]);
    }
  }

  /**
   * Without user deletion, a family that was opened by a login that succeeded has as many rows as
   * pairs handed out for it: the one of the login and one for each rotation.
   */
  lemma RowsReconcile(cfg: Settings, w0: World, es: seq<Event>, f: Family)
    requires Initial(w0) && Legal(cfg, w0, es) && NoDeletion(es)
    ensures
      var w := Exec(cfg, w0, es);
      && |RowIds(w.core.db.rows, f)| == PairsOf(w.past.pairs, f)
      && LoginsOf(w.past.pairs, f) == if RowIds(w.core.db.rows, f) == {} then 0 else 1
  {
    InitialIsGood(cfg, w0);
    assert forall g :: RowIds(w0.core.db.rows, g) == {};
    RunKeepsBalance(cfg, w0, es);
  }

  /** If no audit write fails either, the log holds one refresh entry for each row but the root. */
  lemma LogReconciles(cfg: Settings, w0: World, es: seq<Event>, f: Family)
    requires Initial(w0) && Legal(cfg, w0, es) && NoDeletion(es) && NoLostWrite(es)
    ensures
      var w := Exec(cfg, w0, es);
      RefreshesOf(w.log, f) == |set i | i in RowIds(w.core.db.rows, f) && w.core.db.rows[i].parent.Some?|
  {
    RowsReconcile(cfg, w0, es, f);
    RunKeepsLogBalance(cfg, w0, es);
    InitialIsGood(cfg, w0);
    RunKeepsGood(cfg, w0, es);
    var w := Exec(cfg, w0, es);
    NonRootRows(w.core.db, cfg.refreshLifetime, w.now, f);
  }

  lemma OneRoot(db: Db, lifetime: int, now: int, i: nat, j: nat)
    requires Sound(db, lifetime, now) && i in db.rows && j in db.rows
    requires db.rows[i].family == db.rows[j].family && db.rows[i].parent.None? && db.rows[j].parent.None?
    ensures i == j
  {
    assert RowSound(db.rows, i, lifetime) && RowSound(db.rows, j, lifetime);
    assert SameFamily(i, db.rows[i], j, db.rows[j]) && SameFamily(j, db.rows[j], i, db.rows[i]);
  }

  /** The family has one row without a parent. */
  lemma RootIsOne(db: Db, lifetime: int, now: int, f: Family, root: nat)
    requires Sound(db, lifetime, now) && root in RowIds(db.rows, f) && db.rows[root].parent.None?
    ensures (set i | i in RowIds(db.rows, f) && db.rows[i].parent.Some?) == RowIds(db.rows, f) - {root}
  {
    forall j | j in RowIds(db.rows, f) && db.rows[j].parent.None? ensures j == root {
      OneRoot(db, lifetime, now, j, root);
    }
  }

  lemma NonRootRows(db: Db, lifetime: int, now: int, f: Family)
    requires Sound(db, lifetime, now)
    ensures
      var all := RowIds(db.rows, f);
      |set i | i in all && db.rows[i].parent.Some?| == |all| - if all == {} then 0 else 1
  {
    var all := RowIds(db.rows, f);
    var children := set i | i in all && db.rows[i].parent.Some?;
    if i :| i in all {
      var root := Root(db, lifetime, now, f, i);
      RootIsOne(db, lifetime, now, f, root);
    } else {
      assert children == {};
    }
  }

  lemma Root(db: Db, lifetime: int, now: int, f: Family, i: nat) returns (root: nat)
    requires Sound(db, lifetime, now) && i in RowIds(db.rows, f)
    ensures root in RowIds(db.rows, f) && db.rows[root].parent.None?
  {
    SoundIsChained(db, lifetime, now);
    var ids := FamilyIsOneChain(db.rows, db.nextId, f);
    assert InFamily(db.rows, i, f) && i in ids;
    root := ids[0];
    assert InFamily(db.rows, root, f);
  }
}
