/** Page exclusivity, target isolation and runtime preservation over every
    interleaving that meets the stated hypotheses. */
module PageExclusive {
  import opened Options
  import opened PageRows
  import opened PageProtocol

  // --------------------------------------------------------------- statements

  /** At most one queued-or-running deployment per page, and while there is one
      the page's row is present with status deploying. */
  ghost predicate Exclusive(w: World) {
    && (forall d, e | 0 <= d < |w.deps| && 0 <= e < |w.deps| && IsActive(w.deps[d].status)
                      && IsActive(w.deps[e].status) ::
          w.deps[d].page == w.deps[e].page ==> d == e)
    && (forall d | 0 <= d < |w.deps| && IsActive(w.deps[d].status) ::
          w.deps[d].page in w.pages && w.pages[w.deps[d].page].status == Deploying)
  }

  /** A run from the moment it has loaded its page until it has closed. */
  predicate HasSnapshot(pc: Actor) {
    pc.Run? || pc.RunClosing?
  }

  function SnapshotPage(pc: Actor): PageId
    requires HasSnapshot(pc)
  {
    if pc.Run? then pc.row.page else pc.page
  }

  /** Such a run's own account and region are the stored ones. */
  ghost predicate TargetIsolated(w: World) {
    forall a | a in w.actors && HasSnapshot(w.actors[a]) ::
      SnapshotPage(w.actors[a]) in w.pages && SameTarget(w.pages[SnapshotPage(w.actors[a])], w.actors[a].snap)
  }

  /** Nothing saved to a page's runtime is ever lost: the stored row has exactly
      what was saved, and so does the row handed to teardown. */
  ghost predicate RuntimeKept(w: World) {
    && (forall p :: p in w.pages ==> p in w.saved && w.pages[p].runtime == w.saved[p])
    && (forall p :: p in w.torn ==> p in w.saved && w.torn[p].runtime == w.saved[p])
  }

  // ---------------------------------------------------- who holds a page's lock

  datatype Holder = ByActor(a: ActorId) | ByDep(d: DepId)

  /** Proof bookkeeping: who put a page into deploying, which deployment of a
      page is its newest, who works on a deployment row, who edits a page. */
  datatype Own = Own(
    page: map<PageId, Holder>,
    newest: map<PageId, DepId>,
    dep: map<DepId, ActorId>,
    edit: map<PageId, ActorId>)

  ghost predicate HeldBy(w: World, own: Own, p: PageId, h: Holder) {
    p in w.pages && w.pages[p].status == Deploying && p in own.page && own.page[p] == h
  }

  ghost predicate WorkedBy(own: Own, d: DepId, a: ActorId) {
    d in own.dep && own.dep[d] == a
  }

  ghost predicate DepOK(w: World, own: Own, d: DepId)
    requires d < |w.deps|
  {
    var p := w.deps[d].page;
    && p in own.newest && d <= own.newest[p]
    && (IsActive(w.deps[d].status) ==> own.newest[p] == d && HeldBy(w, own, p, ByDep(d)))
  }

  /** An actor that alone answers for its page's deploying status. */
  predicate Holds(pc: Actor) {
    pc.TrigMarked? || pc.TrigRestore? || pc.RunClosing? || pc.StaleMarked?
  }

  /** An actor that alone writes a deployment row. */
  predicate Works(pc: Actor) {
    pc.TrigCreated? || pc.TrigUnsent? || pc.RunFresh? || pc.Run?
  }

  ghost predicate HoldOK(w: World, own: Own, a: ActorId)
    requires a in w.actors
  {
    Holds(w.actors[a]) ==> HeldBy(w, own, w.actors[a].page, ByActor(a))
  }

  ghost predicate WorkOK(w: World, own: Own, a: ActorId)
    requires a in w.actors
  {
    var pc := w.actors[a];
    Works(pc) ==>
      && pc.dep < |w.deps|
      && IsActive(w.deps[pc.dep].status)
      && WorkedBy(own, pc.dep, a)
      && (pc.TrigCreated? || pc.TrigUnsent? ==>
            w.deps[pc.dep].page == pc.page && w.deps[pc.dep].status == Queued && pc.dep !in w.sent)
      && (pc.RunFresh? || pc.Run? ==> w.deps[pc.dep] == pc.row && pc.dep in w.sent)
  }

  ghost predicate RunOK(w: World, a: ActorId)
    requires a in w.actors
  {
    var pc := w.actors[a];
    HasSnapshot(pc) ==>
      && SnapshotPage(pc) in w.pages
      && pc.snap.status == Deploying
      && SameTarget(w.pages[SnapshotPage(pc)], pc.snap)
      && (pc.Run? && pc.phase != Doomed ==> pc.snap.runtime == w.pages[SnapshotPage(pc)].runtime)
  }

  ghost predicate EditOK(w: World, own: Own, a: ActorId)
    requires a in w.actors
  {
    var pc := w.actors[a];
    pc.EditLoaded? ==>
      && (pc.page in w.pages || pc.page in w.gone)
      && pc.page in own.edit && own.edit[pc.page] == a
      && (pc.page in w.pages ==>
            SameTarget(w.pages[pc.page], pc.loaded) && w.pages[pc.page].provider == pc.loaded.provider)
      && (pc.retargets <==> !SameTarget(pc.edited, pc.loaded))
      && (pc.edited.cloudAccount != pc.loaded.cloudAccount ==> !CloudProvisioned(pc.loaded))
      && (pc.edited.region != pc.loaded.region ==> BucketName !in pc.loaded.runtime)
  }

  /** The status an actor will put back or leave behind is never deploying. */
  predicate LocalOK(pc: Actor) {
    && (pc.TrigLoaded? || pc.TrigMarked? || pc.TrigRestore? || pc.TrigCreated? || pc.TrigUnsent? ==>
          pc.prev != Deploying)
    && (pc.RunClosing? ==> pc.outcome != Deploying)
  }

  ghost predicate ActorOK(w: World, own: Own, a: ActorId)
    requires a in w.actors
  {
    HoldOK(w, own, a) && WorkOK(w, own, a) && RunOK(w, a) && EditOK(w, own, a) && LocalOK(w.actors[a])
  }

  ghost predicate HistoryOK(w: World) {
    && RuntimeKept(w)
    && (forall p :: p in w.gone ==> p !in w.pages)
    && (forall p :: p in w.torn ==> p in w.gone)
    && (forall d :: d in w.sent ==> d < |w.deps|)
  }

  /** The invariant with one actor's own clause set aside while it is mid-step. */
  ghost predicate InvBut(w: World, own: Own, a: ActorId) {
    && (forall d :: 0 <= d < |w.deps| ==> DepOK(w, own, d))
    && (forall b :: b in w.actors && b != a ==> ActorOK(w, own, b))
    && HistoryOK(w)
  }

  ghost predicate Inv(w: World, own: Own) {
    && (forall d :: 0 <= d < |w.deps| ==> DepOK(w, own, d))
    && (forall a :: a in w.actors ==> ActorOK(w, own, a))
    && HistoryOK(w)
  }

  // -------------------------------------------- what each kind of write keeps

  lemma GotoKeeps(w: World, own: Own, a: ActorId, pc: Actor)
    requires InvBut(w, own, a)
    requires ActorOK(Goto(w, a, pc), own, a)
    ensures Inv(Goto(w, a, pc), own)
  {
    var w' := Goto(w, a, pc);
    forall d | 0 <= d < |w'.deps| ensures DepOK(w', own, d) { assert DepOK(w, own, d); }
    forall b | b in w'.actors ensures ActorOK(w', own, b) { if b != a { assert ActorOK(w, own, b); } }
  }

  lemma DoneKeeps(w: World, own: Own, a: ActorId)
    requires InvBut(w, own, a)
    ensures Inv(Done(w, a), own)
  {
    var w' := Done(w, a);
    forall d | 0 <= d < |w'.deps| ensures DepOK(w', own, d) { assert DepOK(w, own, d); }
    forall b | b in w'.actors ensures ActorOK(w', own, b) { assert ActorOK(w, own, b); }
  }

  /** Neither where files live nor the history of syncs is part of the invariant. */
  lemma OriginKeeps(w: World, own: Own, a: ActorId, origin: map<Target, Content>, untold: map<PageId, Content>)
    requires InvBut(w, own, a)
    ensures InvBut(w.(origin := origin, untold := untold), own, a)
  {
    var w' := w.(origin := origin, untold := untold);
    forall d | 0 <= d < |w'.deps| ensures DepOK(w', own, d) { assert DepOK(w, own, d); }
    forall b | b in w'.actors && b != a ensures ActorOK(w', own, b) { assert ActorOK(w, own, b); }
  }

  /** Sending a message whose row the sender alone works on. */
  lemma SendKeeps(w: World, own: Own, a: ActorId, d: DepId)
    requires InvBut(w, own, a) && WorkedBy(own, d, a) && d < |w.deps|
    ensures InvBut(w.(sent := w.sent + {d}), own, a)
  {
    var w' := w.(sent := w.sent + {d});
    forall e | 0 <= e < |w'.deps| ensures DepOK(w', own, e) { assert DepOK(w, own, e); }
    forall b | b in w'.actors && b != a ensures ActorOK(w', own, b) { assert ActorOK(w, own, b); }
  }

  /** Taking over a row nobody works on, or a page nobody edits. */
  lemma TakeOver(w: World, own: Own, a: ActorId, d: DepId)
    requires Inv(w, own) && a !in w.actors
    requires forall b :: b in w.actors && Works(w.actors[b]) ==> w.actors[b].dep != d
    ensures Inv(w, own.(dep := own.dep[d := a]))
  {
    var own' := own.(dep := own.dep[d := a]);
    forall e | 0 <= e < |w.deps| ensures DepOK(w, own', e) { assert DepOK(w, own, e); }
    forall b | b in w.actors ensures ActorOK(w, own', b) { assert ActorOK(w, own, b); }
  }

  lemma OpenEdit(w: World, own: Own, a: ActorId, p: PageId)
    requires Inv(w, own) && a !in w.actors
    requires forall b :: b in w.actors ==> !(w.actors[b].EditLoaded? && w.actors[b].page == p)
    ensures Inv(w, own.(edit := own.edit[p := a]))
  {
    var own' := own.(edit := own.edit[p := a]);
    forall e | 0 <= e < |w.deps| ensures DepOK(w, own', e) { assert DepOK(w, own, e); }
    forall b | b in w.actors ensures ActorOK(w, own', b) { assert ActorOK(w, own, b); }
  }

  /** Winning TryMarkDeploying makes the actor the page's holder. */
  lemma MarkKeeps(w: World, own: Own, a: ActorId, p: PageId)
    requires InvBut(w, own, a) && NotDeploying(w.pages, p)
    ensures InvBut(SetStatus(w, p, Deploying, true), own.(page := own.page[p := ByActor(a)]), a)
  {
    var w' := SetStatus(w, p, Deploying, true);
    var own' := own.(page := own.page[p := ByActor(a)]);
    forall d | 0 <= d < |w'.deps| ensures DepOK(w', own', d) { assert DepOK(w, own, d); }
    forall b | b in w'.actors && b != a ensures ActorOK(w', own', b) {
      assert ActorOK(w, own, b);
      if Works(w.actors[b]) { assert DepOK(w, own, w.actors[b].dep); }
    }
  }

  /** The holder may move the page to any status. */
  lemma ReleaseKeeps(w: World, own: Own, a: ActorId, p: PageId, status: PageStatus, ok: bool)
    requires InvBut(w, own, a) && HeldBy(w, own, p, ByActor(a))
    ensures InvBut(SetStatus(w, p, status, ok), own, a)
  {
    var w' := SetStatus(w, p, status, ok);
    forall d | 0 <= d < |w'.deps| ensures DepOK(w', own, d) { assert DepOK(w, own, d); }
    forall b | b in w'.actors && b != a ensures ActorOK(w', own, b) {
      assert ActorOK(w, own, b);
      if Works(w.actors[b]) { assert DepOK(w, own, w.actors[b].dep); }
    }
  }

  /** The worker of a row may rewrite it while it stays active ... */
  lemma ActiveRowKeeps(w: World, own: Own, a: ActorId, d: DepId, row: Deployment)
    requires InvBut(w, own, a) && WorkedBy(own, d, a)
    requires d < |w.deps| && IsActive(w.deps[d].status) && IsActive(row.status) && row.page == w.deps[d].page
    ensures InvBut(PutRow(w, d, row, true), own, a)
  {
    var w' := PutRow(w, d, row, true);
    forall e | 0 <= e < |w'.deps| ensures DepOK(w', own, e) { assert DepOK(w, own, e); }
    forall b | b in w'.actors && b != a ensures ActorOK(w', own, b) { assert ActorOK(w, own, b); }
  }

  /** ... and by ending it becomes the page's holder. Stale recovery ends a row
      nobody works on. */
  lemma EndRowKeeps(w: World, own: Own, a: ActorId, d: DepId, row: Deployment)
    requires InvBut(w, own, a)
    requires WorkedBy(own, d, a) || forall b :: b in w.actors && Works(w.actors[b]) ==> w.actors[b].dep != d
    requires d < |w.deps| && IsActive(w.deps[d].status) && !IsActive(row.status) && row.page == w.deps[d].page
    ensures InvBut(PutRow(w, d, row, true), own.(page := own.page[row.page := ByActor(a)]), a)
    ensures HeldBy(PutRow(w, d, row, true), own.(page := own.page[row.page := ByActor(a)]), row.page, ByActor(a))
  {
    var w' := PutRow(w, d, row, true);
    var own' := own.(page := own.page[row.page := ByActor(a)]);
    assert DepOK(w, own, d);
    forall e | 0 <= e < |w'.deps| ensures DepOK(w', own', e) { assert DepOK(w, own, e); }
    forall b | b in w'.actors && b != a ensures ActorOK(w', own', b) { assert ActorOK(w, own, b); }
  }

  /** The holder hands its page over to a freshly queued row. */
  lemma AppendRowKeeps(w: World, own: Own, a: ActorId, row: Deployment)
    requires InvBut(w, own, a) && HeldBy(w, own, row.page, ByActor(a)) && row.status == Queued
    ensures var d := |w.deps|;
      InvBut(w.(deps := w.deps + [row]),
             own.(page := own.page[row.page := ByDep(d)], newest := own.newest[row.page := d], dep := own.dep[d := a]),
             a)
  {
    var d := |w.deps|;
    var w' := w.(deps := w.deps + [row]);
    var own' := own.(page := own.page[row.page := ByDep(d)], newest := own.newest[row.page := d],
                     dep := own.dep[d := a]);
    forall e | 0 <= e < |w'.deps| ensures DepOK(w', own', e) { if e < d { assert DepOK(w, own, e); } }
    forall b | b in w'.actors && b != a ensures ActorOK(w', own', b) { assert ActorOK(w, own, b); }
  }

  /** The run of the page's active row may persist its runtime. */
  lemma SaveKeeps(w: World, own: Own, a: ActorId, d: DepId, field: RuntimeField, id: string, rt: Runtime)
    requires InvBut(w, own, a) && WorkedBy(own, d, a) && d < |w.deps| && IsActive(w.deps[d].status)
    requires w.deps[d].page in w.pages && rt == w.pages[w.deps[d].page].runtime[field := id]
    ensures var p := w.deps[d].page;
      InvBut(w.(pages := WithRuntime(w.pages, p, rt), saved := w.saved[p := w.saved[p][field := id]]), own, a)
  {
    var p := w.deps[d].page;
    var w' := w.(pages := WithRuntime(w.pages, p, rt), saved := w.saved[p := w.saved[p][field := id]]);
    assert DepOK(w, own, d);
    forall e | 0 <= e < |w'.deps| ensures DepOK(w', own, e) { assert DepOK(w, own, e); }
    forall b | b in w'.actors && b != a ensures ActorOK(w', own, b) {
      assert ActorOK(w, own, b);
      if Works(w.actors[b]) { assert DepOK(w, own, w.actors[b].dep); }
    }
  }

  /** The page's only edit may write its settings: the target moves only when
      nothing is deploying. */
  lemma SettingsKeep(w: World, own: Own, a: ActorId, p: PageId, edited: Page)
    requires InvBut(w, own, a) && p in own.edit && own.edit[p] == a
    requires NotDeploying(w.pages, p) || (p in w.pages ==> SameTarget(w.pages[p], edited))
    ensures InvBut(w.(pages := WithSettings(w.pages, p, edited)), own, a)
  {
    var w' := w.(pages := WithSettings(w.pages, p, edited));
    forall e | 0 <= e < |w'.deps| ensures DepOK(w', own, e) { assert DepOK(w, own, e); }
    forall b | b in w'.actors && b != a ensures ActorOK(w', own, b) {
      assert ActorOK(w, own, b);
      if Works(w.actors[b]) { assert DepOK(w, own, w.actors[b].dep); }
    }
  }

  /** A row that is not deploying may go, with its runtime handed to teardown. */
  lemma DeleteKeeps(w: World, own: Own, a: ActorId, p: PageId, torn: map<PageId, Page>)
    requires InvBut(w, own, a) && NotDeploying(w.pages, p)
    requires torn == w.torn || torn == w.torn[p := w.pages[p]]
    ensures InvBut(w.(pages := w.pages - {p}, gone := w.gone + {p}, torn := torn), own, a)
  {
    var w' := w.(pages := w.pages - {p}, gone := w.gone + {p}, torn := torn);
    forall e | 0 <= e < |w'.deps| ensures DepOK(w', own, e) { assert DepOK(w, own, e); }
    forall b | b in w'.actors && b != a ensures ActorOK(w', own, b) {
      assert ActorOK(w, own, b);
      if Works(w.actors[b]) { assert DepOK(w, own, w.actors[b].dep); }
    }
  }

  /** A page under a fresh identifier starts idle with nothing saved. */
  lemma CreateKeeps(w: World, own: Own, p: PageId, page: Page)
    requires Inv(w, own) && p !in w.pages && p !in w.gone && page.runtime == map[]
    ensures Inv(w.(pages := w.pages[p := page], saved := w.saved[p := map[]]), own)
  {
    var w' := w.(pages := w.pages[p := page], saved := w.saved[p := map[]]);
    forall e | 0 <= e < |w'.deps| ensures DepOK(w', own, e) { assert DepOK(w, own, e); }
    forall b | b in w'.actors ensures ActorOK(w', own, b) {
      assert ActorOK(w, own, b);
      if Works(w.actors[b]) { assert DepOK(w, own, w.actors[b].dep); }
    }
  }

  // ------------------------------------------------------------ every step

  lemma TriggerLoadKeeps(w: World, own: Own, l: Label) returns (own': Own)
    requires Inv(w, own) && l.TriggerLoad? && Allowed(w, l)
    ensures Inv(StepTriggerLoad(w, l.a, l.p), own')
  {
    var a := l.a;
    own' := own;
    if StepTriggerLoad(w, l.a, l.p) == w { return; }
    GotoKeeps(w, own, a, TrigLoaded(l.p, w.pages[l.p].status));
  }

  lemma TriggerMarkKeeps(w: World, own: Own, l: Label) returns (own': Own)
    requires Inv(w, own) && l.TriggerMark? && Allowed(w, l)
    ensures Inv(StepTriggerMark(w, l.a), own')
  {
    var a := l.a;
    own' := own;
    if StepTriggerMark(w, l.a) == w { return; }
    assert ActorOK(w, own, a);
    own' := if NotDeploying(w.pages, w.actors[a].page) then own.(page := own.page[w.actors[a].page := ByActor(a)])
            else own;
    var TrigLoaded(p, prev) := w.actors[a];
    if NotDeploying(w.pages, p) {
      MarkKeeps(w, own, a, p);
      GotoKeeps(SetStatus(w, p, Deploying, true), own', a, TrigMarked(p, prev));
    } else {
      DoneKeeps(w, own, a);
    }
  }

  lemma TriggerCreateKeeps(w: World, own: Own, l: Label) returns (own': Own)
    requires Inv(w, own) && l.TriggerCreate? && Allowed(w, l)
    ensures Inv(StepTriggerCreate(w, l.a, l.now, l.ok), own')
  {
    var a := l.a;
    own' := own;
    if StepTriggerCreate(w, l.a, l.now, l.ok) == w { return; }
    assert ActorOK(w, own, a);
    var TrigMarked(p, prev) := w.actors[a];
    if l.ok {
      var row := Deployment(p, Queued, ".", "", "", l.now, None, None);
      var d := |w.deps|;
      own' := own.(page := own.page[p := ByDep(d)], newest := own.newest[p := d], dep := own.dep[d := a]);
      AppendRowKeeps(w, own, a, row);
      GotoKeeps(w.(deps := w.deps + [row]), own', a, TrigCreated(p, prev, |w.deps|));
    } else {
      GotoKeeps(w, own, a, TrigRestore(p, prev));
    }
  }

  lemma TriggerEnqueueKeeps(w: World, own: Own, l: Label) returns (own': Own)
    requires Inv(w, own) && l.TriggerEnqueue? && Allowed(w, l)
    ensures Inv(StepTriggerEnqueue(w, l.a, l.ok), own')
  {
    var a := l.a;
    own' := own;
    if StepTriggerEnqueue(w, l.a, l.ok) == w { return; }
    assert ActorOK(w, own, a);
    var TrigCreated(p, prev, d) := w.actors[a];
    if l.ok {
      SendKeeps(w, own, a, d);
      DoneKeeps(w.(sent := w.sent + {d}), own, a);
    } else {
      GotoKeeps(w, own, a, TrigUnsent(p, prev, d));
    }
  }

  lemma TriggerFailRowKeeps(w: World, own: Own, l: Label) returns (own': Own)
    requires Inv(w, own) && l.TriggerFailRow? && Allowed(w, l)
    ensures Inv(StepTriggerFailRow(w, l.a, l.now, l.ok), own')
  {
    var a := l.a;
    own' := own;
    if StepTriggerFailRow(w, l.a, l.now, l.ok) == w { return; }
    assert ActorOK(w, own, a);
    own' := own.(page := own.page[w.actors[a].page := ByActor(a)]);
    var TrigUnsent(p, prev, d) := w.actors[a];
    EndRowKeeps(w, own, a, d, AsFailed(w.deps[d], l.now));
    GotoKeeps(PutRow(w, d, AsFailed(w.deps[d], l.now), true), own', a, TrigRestore(p, prev));
  }

  lemma TriggerRestoreKeeps(w: World, own: Own, l: Label) returns (own': Own)
    requires Inv(w, own) && l.TriggerRestore? && Allowed(w, l)
    ensures Inv(StepTriggerRestore(w, l.a, l.ok), own')
  {
    var a := l.a;
    own' := own;
    if StepTriggerRestore(w, l.a, l.ok) == w { return; }
    assert ActorOK(w, own, a);
    var TrigRestore(p, prev) := w.actors[a];
    ReleaseKeeps(w, own, a, p, prev, l.ok);
    DoneKeeps(SetStatus(w, p, prev, l.ok), own, a);
  }

  lemma RunLoadKeeps(w: World, own: Own, l: Label) returns (own': Own)
    requires Inv(w, own) && l.RunLoad? && Allowed(w, l)
    ensures Inv(StepRunLoad(w, l.a, l.d), own')
  {
    var a := l.a;
    own' := own;
    if StepRunLoad(w, l.a, l.d) == w { return; }
    own' := own.(dep := own.dep[l.d := a]);
    var d := l.d;
    forall b | b in w.actors && Works(w.actors[b]) ensures w.actors[b].dep != d { assert ActorOK(w, own, b); }
    TakeOver(w, own, a, d);
    GotoKeeps(w, own', a, RunFresh(d, w.deps[d]));
  }

  lemma RunLoadPageKeeps(w: World, own: Own, l: Label) returns (own': Own)
    requires Inv(w, own) && l.RunLoadPage? && Allowed(w, l)
    ensures Inv(StepRunLoadPage(w, l.a), own')
  {
    var a := l.a;
    own' := own;
    if StepRunLoadPage(w, l.a) == w { return; }
    assert ActorOK(w, own, a);
    var RunFresh(d, row) := w.actors[a];
    assert DepOK(w, own, d);
    GotoKeeps(w, own, a, Run(d, row, w.pages[row.page], LoadedPage));
  }

  lemma RunMarkRowKeeps(w: World, own: Own, l: Label) returns (own': Own)
    requires Inv(w, own) && l.RunMarkRow? && Allowed(w, l)
    ensures Inv(StepRunMarkRow(w, l.a, l.now, l.ok), own')
  {
    var a := l.a;
    own' := own;
    if StepRunMarkRow(w, l.a, l.now, l.ok) == w { return; }
    assert ActorOK(w, own, a);
    var Run(d, row, snap, _) := w.actors[a];
    var row' := row.(status := Running, startedAt := Some(l.now));
    ActiveRowKeeps(w, own, a, d, row');
    GotoKeeps(PutRow(w, d, row', true), own, a, Run(d, row', snap, MarkedRow));
  }

  lemma RunMarkPageKeeps(w: World, own: Own, l: Label) returns (own': Own)
    requires Inv(w, own) && l.RunMarkPage? && Allowed(w, l)
    ensures Inv(StepRunMarkPage(w, l.a, l.ok), own')
  {
    var a := l.a;
    own' := own;
    if StepRunMarkPage(w, l.a, l.ok) == w { return; }
    assert ActorOK(w, own, a);
    var Run(d, row, snap, _) := w.actors[a];
    GotoKeeps(w, own, a, Run(d, row, snap.(status := Deploying), Preparing));
  }

  lemma RunPrepareKeeps(w: World, own: Own, l: Label) returns (own': Own)
    requires Inv(w, own) && l.RunPrepare? && Allowed(w, l)
    ensures Inv(StepRunPrepare(w, l.a, l.commit, l.path, l.ok), own')
  {
    var a := l.a;
    own' := own;
    if StepRunPrepare(w, l.a, l.commit, l.path, l.ok) == w { return; }
    assert ActorOK(w, own, a);
    var Run(d, row, snap, _) := w.actors[a];
    var row' := row.(commitSHA := l.commit, publishPath := l.path);
    ActiveRowKeeps(w, own, a, d, row');
    GotoKeeps(PutRow(w, d, row', true), own, a, Run(d, row', snap, Prepared));
  }

  lemma RunLookupKeeps(w: World, own: Own, l: Label) returns (own': Own)
    requires Inv(w, own) && l.RunLookup? && Allowed(w, l)
    ensures Inv(StepRunLookup(w, l.a, l.found), own')
  {
    hide LatestSuccess;
    var a := l.a;
    own' := own;
    if StepRunLookup(w, l.a, l.found) == w { return; }
    assert ActorOK(w, own, a);
    var Run(d, row, snap, _) := w.actors[a];
    if !snap.buildEnabled && row.commitSHA != "" && l.found && DedupMatches(w, row) {
      var ref := w.deps[LatestSuccess(w.deps, row.page).value].providerRef;
      GotoKeeps(w, own, a, Run(d, row, snap, Skipping(ref)));
    } else {
      GotoKeeps(w, own, a, Run(d, row, snap, Cloud));
    }
  }

  lemma SavedKeeps(w: World, own: Own, a: ActorId, field: RuntimeField, id: string)
    requires Inv(w, own) && a in w.actors && w.actors[a].Run? && w.actors[a].phase == Cloud
    ensures Inv(StepRunSave(w, a, field, id, true), own)
  {
    assert ActorOK(w, own, a);
    var Run(d, row, snap, _) := w.actors[a];
    var p, snap' := row.page, snap.(runtime := snap.runtime[field := id]);
    SaveKeeps(w, own, a, d, field, id, snap'.runtime);
    var w' := w.(pages := WithRuntime(w.pages, p, snap'.runtime), saved := w.saved[p := w.saved[p][field := id]]);
    GotoKeeps(w', own, a, Run(d, row, snap', Cloud));
  }

  lemma RunSaveKeeps(w: World, own: Own, l: Label) returns (own': Own)
    requires Inv(w, own) && l.RunSave? && Allowed(w, l)
    ensures Inv(StepRunSave(w, l.a, l.field, l.id, l.ok), own')
  {
    hide Allowed;
    var a := l.a;
    own' := own;
    if StepRunSave(w, l.a, l.field, l.id, l.ok) == w { return; }
    if l.ok {
      SavedKeeps(w, own, a, l.field, l.id);
    } else {
      assert ActorOK(w, own, a);
      var Run(d, row, snap, _) := w.actors[a];
      GotoKeeps(w, own, a, Run(d, row, snap.(runtime := snap.runtime[l.field := l.id]), Doomed));
    }
  }

  lemma RunSyncKeeps(w: World, own: Own, l: Label) returns (own': Own)
    requires Inv(w, own) && l.RunSync? && Allowed(w, l)
    ensures Inv(StepRunSync(w, l.a, l.tag, l.result), own')
  {
    var a := l.a;
    own' := own;
    if StepRunSync(w, l.a, l.tag, l.result) == w { return; }
    assert ActorOK(w, own, a);
    var Run(d, row, snap, _) := w.actors[a];
    var w' := StepRunSync(w, a, l.tag, l.result);
    OriginKeeps(w, own, a, w'.origin, w'.untold);
    var w0 := w.(origin := w'.origin, untold := w'.untold);
    GotoKeeps(w0, own, a, Run(d, row, snap, if l.result.SyncOk? then Synced(l.result.ref) else Doomed));
  }

  lemma RunFailKeeps(w: World, own: Own, l: Label) returns (own': Own)
    requires Inv(w, own) && l.RunFail? && Allowed(w, l)
    ensures Inv(StepRunFail(w, l.a, l.now, l.ok), own')
  {
    var a := l.a;
    own' := own;
    if StepRunFail(w, l.a, l.now, l.ok) == w { return; }
    assert ActorOK(w, own, a);
    own' := own.(page := own.page[w.actors[a].row.page := ByActor(a)]);
    var Run(d, row, snap, _) := w.actors[a];
    EndRowKeeps(w, own, a, d, AsFailed(row, l.now));
    GotoKeeps(PutRow(w, d, AsFailed(row, l.now), true), own', a, RunClosing(row.page, snap, Errored));
  }

  lemma RunSucceedKeeps(w: World, own: Own, l: Label) returns (own': Own)
    requires Inv(w, own) && l.RunSucceed? && Allowed(w, l)
    ensures Inv(StepRunSucceed(w, l.a, l.now, l.ok), own')
  {
    var a := l.a;
    own' := own;
    if StepRunSucceed(w, l.a, l.now, l.ok) == w { return; }
    assert ActorOK(w, own, a);
    own' := own.(page := own.page[w.actors[a].row.page := ByActor(a)]);
    var Run(d, row, snap, phase) := w.actors[a];
    var row' := Succeeded(row, phase.ref, l.now);
    var w' := PutRow(w, d, row', true);
    var untold := if phase.Synced? && !snap.buildEnabled then w.untold - {row.page} else w.untold;
    EndRowKeeps(w, own, a, d, row');
    OriginKeeps(w', own', a, w.origin, untold);
    GotoKeeps(w'.(untold := untold), own', a, RunClosing(row.page, snap, Live));
  }

  lemma RunCloseKeeps(w: World, own: Own, l: Label) returns (own': Own)
    requires Inv(w, own) && l.RunClose? && Allowed(w, l)
    ensures Inv(StepRunClose(w, l.a, l.ok), own')
  {
    var a := l.a;
    own' := own;
    if StepRunClose(w, l.a, l.ok) == w { return; }
    assert ActorOK(w, own, a);
    var RunClosing(p, snap, outcome) := w.actors[a];
    ReleaseKeeps(w, own, a, p, outcome, l.ok);
    DoneKeeps(SetStatus(w, p, outcome, l.ok), own, a);
  }

  lemma StaleMarkKeeps(w: World, own: Own, l: Label) returns (own': Own)
    requires Inv(w, own) && l.StaleMark? && Allowed(w, l)
    ensures Inv(StepStaleMark(w, l.a, l.d, l.now), own')
  {
    var a := l.a;
    own' := own;
    if StepStaleMark(w, l.a, l.d, l.now) == w { return; }
    own' := own.(page := own.page[w.deps[l.d].page := ByActor(a)]);
    var d := l.d;
    forall b | b in w.actors && Works(w.actors[b]) ensures w.actors[b].dep != d { assert ActorOK(w, own, b); }
    EndRowKeeps(w, own, a, d, AsFailed(w.deps[d], l.now));
    GotoKeeps(PutRow(w, d, AsFailed(w.deps[d], l.now), true), own', a, StaleMarked(w.deps[d].page));
  }

  lemma StaleCloseKeeps(w: World, own: Own, l: Label) returns (own': Own)
    requires Inv(w, own) && l.StaleClose? && Allowed(w, l)
    ensures Inv(StepStaleClose(w, l.a, l.ok), own')
  {
    var a := l.a;
    own' := own;
    if StepStaleClose(w, l.a, l.ok) == w { return; }
    assert ActorOK(w, own, a);
    ReleaseKeeps(w, own, a, w.actors[a].page, Errored, l.ok);
    DoneKeeps(SetStatus(w, w.actors[a].page, Errored, l.ok), own, a);
  }

  lemma EditLoadKeeps(w: World, own: Own, l: Label) returns (own': Own)
    requires Inv(w, own) && l.EditLoad? && Allowed(w, l)
    ensures Inv(StepEditLoad(w, l.a, l.p, l.patch), own')
  {
    var a := l.a;
    own' := own;
    if StepEditLoad(w, l.a, l.p, l.patch) == w { return; }
    own' := own.(edit := own.edit[l.p := a]);
    var p := l.p;
    var Plan(edited, retargets) := PlanEdit(w.pages[p], l.patch);
    OpenEdit(w, own, a, p);
    PlanTargets(w.pages[p], l.patch);
    GotoKeeps(w, own', a, EditLoaded(p, w.pages[p], edited, retargets));
  }

  lemma EditWriteKeeps(w: World, own: Own, l: Label) returns (own': Own)
    requires Inv(w, own) && l.EditWrite? && Allowed(w, l)
    ensures Inv(StepEditWrite(w, l.a), own')
  {
    var a := l.a;
    own' := own;
    if StepEditWrite(w, l.a) == w { return; }
    assert ActorOK(w, own, a);
    var EditLoaded(p, _, edited, retargets) := w.actors[a];
    if retargets && !NotDeploying(w.pages, p) {
      DoneKeeps(w, own, a);
    } else {
      SettingsKeep(w, own, a, p, edited);
      DoneKeeps(w.(pages := WithSettings(w.pages, p, edited)), own, a);
    }
  }

  lemma DeleteLoadKeeps(w: World, own: Own, l: Label) returns (own': Own)
    requires Inv(w, own) && l.DeleteLoad? && Allowed(w, l)
    ensures Inv(StepDeleteLoad(w, l.a, l.p), own')
  {
    var a := l.a;
    own' := own;
    if StepDeleteLoad(w, l.a, l.p) == w { return; }
    GotoKeeps(w, own, a, DeleteLoaded(l.p));
  }

  lemma DeleteRowKeeps(w: World, own: Own, l: Label) returns (own': Own)
    requires Inv(w, own) && l.DeleteRow? && Allowed(w, l)
    ensures Inv(StepDeleteRow(w, l.a), own')
  {
    var a := l.a;
    own' := own;
    if StepDeleteRow(w, l.a) == w { return; }
    assert ActorOK(w, own, a);
    var p := w.actors[a].page;
    if NotDeploying(w.pages, p) {
      var torn := if CloudProvisioned(w.pages[p]) then w.torn[p := w.pages[p]] else w.torn;
      DeleteKeeps(w, own, a, p, torn);
      DoneKeeps(w.(pages := w.pages - {p}, gone := w.gone + {p}, torn := torn), own, a);
    } else {
      DoneKeeps(w, own, a);
    }
  }

  lemma CrashKeeps(w: World, own: Own, a: ActorId)
    requires Inv(w, own)
    ensures Inv(Done(w, a), own)
  {
    DoneKeeps(w, own, a);
  }

  /** One step of any kind keeps the invariant under the hypotheses. */
  lemma StepKeepsInv(w: World, own: Own, l: Label) returns (own': Own)
    requires Inv(w, own) && Allowed(w, l)
    ensures Inv(Step(w, l), own')
  {
    hide Inv, InvBut, Allowed;
    own' := own;
    match l
    case CreatePage(p, page) => if StepCreatePage(w, p, page) != w { CreateKeeps(w, own, p, page); }
    case Crash(a) => CrashKeeps(w, own, a);
    case TriggerLoad(_, _) => own' := TriggerLoadKeeps(w, own, l);
    case TriggerMark(_) => own' := TriggerMarkKeeps(w, own, l);
    case TriggerCreate(_, _, _) => own' := TriggerCreateKeeps(w, own, l);
    case TriggerEnqueue(_, _) => own' := TriggerEnqueueKeeps(w, own, l);
    case TriggerFailRow(_, _, _) => own' := TriggerFailRowKeeps(w, own, l);
    case TriggerRestore(_, _) => own' := TriggerRestoreKeeps(w, own, l);
    case RunLoad(_, _) => own' := RunLoadKeeps(w, own, l);
    case RunLoadPage(_) => own' := RunLoadPageKeeps(w, own, l);
    case RunMarkRow(_, _, _) => own' := RunMarkRowKeeps(w, own, l);
    case RunMarkPage(_, _) => own' := RunMarkPageKeeps(w, own, l);
    case RunPrepare(_, _, _, _) => own' := RunPrepareKeeps(w, own, l);
    case RunLookup(_, _) => own' := RunLookupKeeps(w, own, l);
    case RunSave(_, _, _, _) => own' := RunSaveKeeps(w, own, l);
    case RunSync(_, _, _) => own' := RunSyncKeeps(w, own, l);
    case RunFail(_, _, _) => own' := RunFailKeeps(w, own, l);
    case RunSucceed(_, _, _) => own' := RunSucceedKeeps(w, own, l);
    case RunClose(_, _) => own' := RunCloseKeeps(w, own, l);
    case StaleMark(_, _, _) => own' := StaleMarkKeeps(w, own, l);
    case StaleClose(_, _) => own' := StaleCloseKeeps(w, own, l);
    case EditLoad(_, _, _) => own' := EditLoadKeeps(w, own, l);
    case EditWrite(_) => own' := EditWriteKeeps(w, own, l);
    case DeleteLoad(_, _) => own' := DeleteLoadKeeps(w, own, l);
    case DeleteRow(_) => own' := DeleteRowKeeps(w, own, l);
  }

  lemma {:induction false} ExecKeepsInv(w: World, own: Own, ls: seq<Label>) returns (own': Own)
    requires Inv(w, own) && Calm(w, ls)
    ensures Inv(Exec(w, ls), own')
    decreases |ls|
  {
    if |ls| == 0 {
      own' := own;
    } else {
      own' := StepKeepsInv(w, own, ls[0]);
      own' := ExecKeepsInv(Step(w, ls[0]), own', ls[1..]);
    }
  }

  lemma InvMeans(w: World, own: Own)
    requires Inv(w, own)
    ensures Exclusive(w) && TargetIsolated(w) && RuntimeKept(w)
  {
    forall d, e | 0 <= d < |w.deps| && 0 <= e < |w.deps| && IsActive(w.deps[d].status) && IsActive(w.deps[e].status)
      && w.deps[d].page == w.deps[e].page
      ensures d == e
    {
      assert DepOK(w, own, d) && DepOK(w, own, e);
    }
    forall d | 0 <= d < |w.deps| && IsActive(w.deps[d].status)
      ensures w.deps[d].page in w.pages && w.pages[w.deps[d].page].status == Deploying
    {
      assert DepOK(w, own, d);
    }
    forall a | a in w.actors && HasSnapshot(w.actors[a])
      ensures SnapshotPage(w.actors[a]) in w.pages && SameTarget(w.pages[SnapshotPage(w.actors[a])], w.actors[a].snap)
    {
      assert ActorOK(w, own, a);
    }
  }

  lemma {:induction false} CalmPrefix(w: World, ls: seq<Label>, k: nat)
    requires Calm(w, ls) && k <= |ls|
    ensures Calm(w, ls[..k])
    decreases |ls|
  {
    if k > 0 {
      CalmPrefix(Step(w, ls[0]), ls[1..], k - 1);
      assert ls[..k][1..] == ls[1..][..k - 1];
    }
  }

  // ------------------------------------------------------------- main results

  /** At every point of every calm run from an empty database, pages are
      deployed exclusively, live runs keep their target, and saved runtime
      identifiers are kept. */
  lemma PagesAreSafe(ls: seq<Label>, k: nat)
    requires Calm(EMPTY, ls) && k <= |ls|
    ensures Exclusive(Exec(EMPTY, ls[..k]))
    ensures TargetIsolated(Exec(EMPTY, ls[..k]))
    ensures RuntimeKept(Exec(EMPTY, ls[..k]))
  {
    CalmPrefix(EMPTY, ls, k);
    var own := ExecKeepsInv(EMPTY, Own(map[], map[], map[], map[]), ls[..k]);
    InvMeans(Exec(EMPTY, ls[..k]), own);
  }

  /** An edit about to write to a page that is still there. */
  predicate EditPending(w: World, a: ActorId) {
    a in w.actors && w.actors[a].EditLoaded? && w.actors[a].page in w.pages
  }

  /** Its write takes the account away from a page whose stored resources belong to it. */
  predicate MovesPinnedAccount(w: World, a: ActorId)
    requires EditPending(w, a)
  {
    var p := w.actors[a].page;
    var pages := StepEditWrite(w, a).pages;
    CloudProvisioned(w.pages[p]) && p in pages && pages[p].cloudAccount != w.pages[p].cloudAccount
  }

  /** Its write takes the region away from a page whose stored bucket lives there. */
  predicate MovesPinnedRegion(w: World, a: ActorId)
    requires EditPending(w, a)
  {
    var p := w.actors[a].page;
    var pages := StepEditWrite(w, a).pages;
    BucketName in w.pages[p].runtime && p in pages && pages[p].region != w.pages[p].region
  }

  /** A settings write strands a page's resources exactly when its plan repoints
      the column they hang on, no deploy runs, and the stored row pins them now. */
  lemma RetargetStrandsExactly(ls: seq<Label>, a: ActorId)
    requires Calm(EMPTY, ls) && EditPending(Exec(EMPTY, ls), a)
    ensures var w := Exec(EMPTY, ls);
      var EditLoaded(p, loaded, edited, _) := w.actors[a];
      && (MovesPinnedAccount(w, a) <==>
            edited.cloudAccount != loaded.cloudAccount && w.pages[p].status != Deploying
            && CloudProvisioned(w.pages[p]))
      && (MovesPinnedRegion(w, a) <==>
            edited.region != loaded.region && w.pages[p].status != Deploying && BucketName in w.pages[p].runtime)
  {
    hide Step, Calm, CloudProvisioned;
    var own := ExecKeepsInv(EMPTY, Own(map[], map[], map[], map[]), ls);
    assert ActorOK(Exec(EMPTY, ls), own, a);
  }

  /** And then those resources were saved after the edit read the page: the copy
      it planned on showed none of them. */
  lemma RetargetRacedARun(ls: seq<Label>, a: ActorId)
    requires Calm(EMPTY, ls) && EditPending(Exec(EMPTY, ls), a)
    ensures var w := Exec(EMPTY, ls);
      var EditLoaded(p, loaded, _, _) := w.actors[a];
      && (MovesPinnedAccount(w, a) ==> !CloudProvisioned(loaded) && w.pages[p].runtime != loaded.runtime)
      && (MovesPinnedRegion(w, a) ==> BucketName !in loaded.runtime && w.pages[p].runtime != loaded.runtime)
  {
    hide Step, Calm;
    RetargetStrandsExactly(ls, a);
    var own := ExecKeepsInv(EMPTY, Own(map[], map[], map[], map[]), ls);
    assert ActorOK(Exec(EMPTY, ls), own, a);
  }
}
