/** Skipping a sync preserves what a page serves: which successes leave the
    origin holding exactly the files they claim. */
module PageDedup {
  import opened Options
  import opened PageRows
  import opened PageProtocol
  import opened PageExclusive

  // --------------------------------------------------------------- hypotheses

  /** Once something was synced for a page, its target stays. */
  predicate TargetAllowed(w: World, l: Label) {
    match l
    case EditWrite(a) =>
      In(w, a) && w.actors[a].EditLoaded? && w.actors[a].page in w.pages && HasServed(w, w.actors[a].page)
      ==> SameTarget(w.pages[w.actors[a].page], w.actors[a].edited)
    case _ => true
  }

  predicate HasServed(w: World, p: PageId) {
    p in w.untold || LatestSuccess(w.deps, p).Some?
  }

  predicate Homed(w: World, ls: seq<Label>)
    decreases |ls|
  {
    |ls| > 0 ==> Allowed(w, ls[0]) && TargetAllowed(w, ls[0]) && Homed(Step(w, ls[0]), ls[1..])
  }

  /** Besides, no build is ever synced. */
  predicate PlainAllowed(w: World, l: Label) {
    && TargetAllowed(w, l)
    && (l.RunSync? && In(w, l.a) && w.actors[l.a].Run? ==> !w.actors[l.a].snap.buildEnabled)
  }

  predicate Plain(w: World, ls: seq<Label>)
    decreases |ls|
  {
    |ls| > 0 ==> Allowed(w, ls[0]) && PlainAllowed(w, ls[0]) && Plain(Step(w, ls[0]), ls[1..])
  }

  /** Provider deploys are all or nothing, and no run dies between a finished
      sync and the row that records it. */
  predicate RecordingAllowed(w: World, l: Label) {
    match l
    case RunSync(_, _, result) => result.SyncFailed? ==> !result.touched
    case Crash(a) => In(w, a) ==> !(w.actors[a].Run? && w.actors[a].phase.Synced?)
    case _ => true
  }

  predicate Recording(w: World, ls: seq<Label>)
    decreases |ls|
  {
    |ls| > 0 ==> RecordingAllowed(w, ls[0]) && Recording(Step(w, ls[0]), ls[1..])
  }

  // ---------------------------------------------------------------- invariant

  function RowFiles(row: Deployment): Content {
    Files(row.commitSHA, row.publishPath)
  }

  predicate Serving(w: World, t: Target, c: Content) {
    t in w.origin && w.origin[t] == c
  }

  /** What a page's origin holds, read off the rows and the history. */
  ghost predicate PageServes(w: World, p: PageId)
    requires p in w.pages
  {
    var t := TargetOf(p, w.pages[p]);
    var last := LatestSuccess(w.deps, p);
    && (p in w.untold ==> Serving(w, t, w.untold[p]))
    && (p !in w.untold && last.Some? ==> Serving(w, t, RowFiles(w.deps[last.value])))
  }

  ghost predicate ActorServes(w: World, a: ActorId)
    requires a in w.actors
  {
    var pc := w.actors[a];
    pc.Run? ==>
      && (pc.phase.Synced? ==>
            && pc.row.page in w.untold
            && (if pc.snap.buildEnabled then w.untold[pc.row.page].Built?
                else w.untold[pc.row.page] == RowFiles(pc.row)))
      && (pc.phase.Skipping? ==> !pc.snap.buildEnabled && DedupMatches(w, pc.row))
  }

  ghost predicate Known(w: World, p: PageId) {
    p in w.pages || p in w.gone
  }

  /** The invariant with one actor's own clause set aside while it is mid-step. */
  ghost predicate ServesBut(w: World, a: ActorId) {
    && (forall p :: p in w.pages ==> PageServes(w, p))
    && (forall b :: b in w.actors && b != a ==> ActorServes(w, b))
    && (forall p :: p in w.untold ==> Known(w, p))
    && (forall d :: 0 <= d < |w.deps| ==> Known(w, w.deps[d].page))
  }

  ghost predicate Serves(w: World) {
    && (forall p :: p in w.pages ==> PageServes(w, p))
    && (forall a :: a in w.actors ==> ActorServes(w, a))
    && (forall p :: p in w.untold ==> Known(w, p))
    && (forall d :: 0 <= d < |w.deps| ==> Known(w, w.deps[d].page))
  }

  // ------------------------------------------------------- how the lookup moves

  ghost predicate SameLookups(deps: Deployments, deps': Deployments) {
    forall p: PageId ::
      LatestSuccess(deps', p).Some? == LatestSuccess(deps, p).Some?
      && (LatestSuccess(deps, p).Some? ==>
            RowFiles(deps'[LatestSuccess(deps', p).value]) == RowFiles(deps[LatestSuccess(deps, p).value]))
  }

  /** Rewriting a row that neither was nor becomes a success. */
  lemma RewriteKeepsLookups(deps: Deployments, d: DepId, row: Deployment)
    requires d < |deps| && deps[d].status != Success && row.status != Success
    ensures SameLookups(deps, deps[d := row])
  {
    forall p: PageId ensures LatestSuccess(deps[d := row], p) == LatestSuccess(deps, p) {
      LatestSuccessAgrees(deps, deps[d := row], p);
    }
  }

  lemma AppendKeepsLookups(deps: Deployments, row: Deployment)
    requires row.status != Success
    ensures SameLookups(deps, deps + [row])
  {
    forall p: PageId ensures LatestSuccess(deps + [row], p) == LatestSuccess(deps, p) {
      LatestSuccessAgrees(deps, deps + [row], p);
    }
  }

  /** A success on a page's newest row is what the lookup now finds; other pages
      keep theirs. */
  lemma SuccessMovesLookup(deps: Deployments, d: DepId, row: Deployment, p: PageId)
    requires d < |deps| && deps[d].status != Success && row.status == Success && row.page == deps[d].page
    requires p == row.page ==> forall e :: d < e < |deps| ==> deps[e].page != p
    ensures p == row.page ==> LatestSuccess(deps[d := row], p) == Some(d)
    ensures p != row.page ==> LatestSuccess(deps[d := row], p) == LatestSuccess(deps, p)
  {
    if p == row.page {
      assert deps[d := row][d] == row;
      LatestSuccessIsLast(deps[d := row], p);
    } else {
      LatestSuccessAgrees(deps, deps[d := row], p);
    }
  }

  // -------------------------------------------- what each kind of write keeps

  lemma GotoServes(w: World, a: ActorId, pc: Actor)
    requires ServesBut(w, a) && ActorServes(Goto(w, a, pc), a)
    ensures Serves(Goto(w, a, pc))
  {
    hide LatestSuccess;
    var w' := Goto(w, a, pc);
    forall p | p in w'.pages ensures PageServes(w', p) { assert PageServes(w, p); }
    forall b | b in w'.actors ensures ActorServes(w', b) { if b != a { assert ActorServes(w, b); } }
  }

  lemma DoneServes(w: World, a: ActorId)
    requires ServesBut(w, a)
    ensures Serves(Done(w, a))
  {
    hide LatestSuccess;
    var w' := Done(w, a);
    forall p | p in w'.pages ensures PageServes(w', p) { assert PageServes(w, p); }
    forall b | b in w'.actors ensures ActorServes(w', b) { assert ActorServes(w, b); }
  }

  /** Any change of pages that keeps served targets. */
  lemma PagesServe(w: World, a: ActorId, pages: Pages, gone: set<PageId>, torn: map<PageId, Page>)
    requires ServesBut(w, a)
    requires forall p :: p in pages && HasServed(w, p) ==> p in w.pages && SameTarget(pages[p], w.pages[p])
    requires forall p :: Known(w, p) ==> p in pages || p in gone
    ensures ServesBut(w.(pages := pages, gone := gone, torn := torn), a)
  {
    hide LatestSuccess;
    var w' := w.(pages := pages, gone := gone, torn := torn);
    forall p | p in w'.pages ensures PageServes(w', p) { if p in w.pages { assert PageServes(w, p); } }
    forall b | b in w'.actors && b != a ensures ActorServes(w', b) { assert ActorServes(w, b); }
    forall d | 0 <= d < |w'.deps| ensures Known(w', w'.deps[d].page) { assert Known(w, w.deps[d].page); }
  }

  lemma StatusServes(w: World, a: ActorId, p: PageId, status: PageStatus, ok: bool)
    requires ServesBut(w, a)
    ensures ServesBut(SetStatus(w, p, status, ok), a)
  {
    hide LatestSuccess;
    PagesServe(w, a, SetStatus(w, p, status, ok).pages, w.gone, w.torn);
  }

  lemma RowServes(w: World, a: ActorId, d: DepId, row: Deployment)
    requires ServesBut(w, a) && d < |w.deps| && row.page == w.deps[d].page
    requires w.deps[d].status != Success && row.status != Success
    ensures ServesBut(PutRow(w, d, row, true), a)
  {
    RewriteKeepsLookups(w.deps, d, row);
    hide LatestSuccess;
    var w' := PutRow(w, d, row, true);
    forall p | p in w'.pages ensures PageServes(w', p) { assert PageServes(w, p); }
    forall b | b in w'.actors && b != a ensures ActorServes(w', b) { assert ActorServes(w, b); }
    forall e | 0 <= e < |w'.deps| ensures Known(w', w'.deps[e].page) { assert Known(w, w.deps[e].page); }
  }

  lemma AppendServes(w: World, a: ActorId, row: Deployment)
    requires ServesBut(w, a) && Known(w, row.page) && row.status != Success
    ensures ServesBut(w.(deps := w.deps + [row]), a)
  {
    AppendKeepsLookups(w.deps, row);
    hide LatestSuccess;
    var w' := w.(deps := w.deps + [row]);
    forall p | p in w'.pages ensures PageServes(w', p) { assert PageServes(w, p); }
    forall b | b in w'.actors && b != a ensures ActorServes(w', b) { assert ActorServes(w, b); }
    forall e | 0 <= e < |w'.deps| ensures Known(w', w'.deps[e].page) {
      if e < |w.deps| { assert Known(w, w.deps[e].page); }
    }
  }

  /** New origin contents at one page's target, recorded as not yet recorded. */
  lemma WriteOriginServes(w: World, a: ActorId, p: PageId, content: Content)
    requires Serves(w) && p in w.pages
    requires forall b ::
               b in w.actors && b != a && w.actors[b].Run? && w.actors[b].phase.Synced? ==> w.actors[b].row.page != p
    ensures ServesBut(w.(origin := w.origin[TargetOf(p, w.pages[p]) := content], untold := w.untold[p := content]), a)
  {
    hide LatestSuccess;
    var w' := w.(origin := w.origin[TargetOf(p, w.pages[p]) := content], untold := w.untold[p := content]);
    forall q | q in w'.pages ensures PageServes(w', q) { assert PageServes(w, q); }
    forall b | b in w'.actors && b != a ensures ActorServes(w', b) { assert ActorServes(w, b); }
    forall e | 0 <= e < |w'.deps| ensures Known(w', w'.deps[e].page) { assert Known(w, w.deps[e].page); }
  }

  /** A sync by the only run on a page: what it wrote is what is untold. */
  lemma SyncServes(w: World, own: Own, a: ActorId, tag: nat, result: SyncResult)
    requires Serves(w) && a in w.actors && w.actors[a].Run? && ActorOK(w, own, a) && ActorServes(w, a)
    requires ServesBut(w, a)
    requires forall b :: b in w.actors && w.actors[b].Run? && w.actors[b].row.page == w.actors[a].row.page ==> b == a
    ensures Serves(StepRunSync(w, a, tag, result))
  {
    var Run(d, row, snap, phase) := w.actors[a];
    if phase != Cloud { return; }
    var p := row.page;
    var content := if result.SyncFailed? then Mixed else if snap.buildEnabled then Built(tag) else RowFiles(row);
    assert TargetOf(p, snap) == TargetOf(p, w.pages[p]);
    WriteOriginServes(w, a, p, content);
    hide Serves, ServesBut, LatestSuccess;
    var w' := w.(origin := w.origin[TargetOf(p, w.pages[p]) := content], untold := w.untold[p := content]);
    if result.SyncOk? {
      GotoServes(w', a, Run(d, row, snap, Synced(result.ref)));
    } else if result.touched {
      GotoServes(w', a, Run(d, row, snap, Doomed));
    } else {
      GotoServes(w, a, Run(d, row, snap, Doomed));
    }
  }

  /** A success written on a page's newest row, telling what its origin holds,
      leaves nothing about that page untold unless it already was. */
  lemma RecordServes(w: World, a: ActorId, d: DepId, row: Deployment, untold: map<PageId, Content>)
    requires Serves(w) && d < |w.deps| && w.deps[d].status != Success && row.status == Success
             && row.page == w.deps[d].page
    requires forall e :: d < e < |w.deps| ==> w.deps[e].page != row.page
    requires forall b :: b in w.actors && b != a && w.actors[b].Run? ==> w.actors[b].row.page != row.page
    requires untold == w.untold - {row.page} || untold == w.untold
    requires row.page in w.pages && row.page !in untold ==>
               Serving(w, TargetOf(row.page, w.pages[row.page]), RowFiles(row))
    ensures ServesBut(PutRow(w, d, row, true).(untold := untold), a)
  {
    var w' := PutRow(w, d, row, true).(untold := untold);
    forall p: PageId ensures LatestSuccess(w'.deps, p) == if p == row.page then Some(d) else LatestSuccess(w.deps, p) {
      SuccessMovesLookup(w.deps, d, row, p);
    }
    hide LatestSuccess;
    forall p | p in w'.pages ensures PageServes(w', p) { assert PageServes(w, p); }
    forall b | b in w'.actors && b != a ensures ActorServes(w', b) { assert ActorServes(w, b); }
    forall e | 0 <= e < |w'.deps| ensures Known(w', w'.deps[e].page) { assert Known(w, w.deps[e].page); }
  }

  lemma SuccessServes(w: World, own: Own, a: ActorId, now: int)
    requires Serves(w) && a in w.actors && w.actors[a].Run? && ActorOK(w, own, a)
    requires forall b :: b in w.actors && w.actors[b].Run? && w.actors[b].row.page == w.actors[a].row.page ==> b == a
    requires forall e :: w.actors[a].dep < e < |w.deps| ==> w.deps[e].page != w.actors[a].row.page
    ensures Serves(StepRunSucceed(w, a, now, true))
  {
    var Run(d, row, snap, phase) := w.actors[a];
    if !phase.Skipping? && !phase.Synced? { return; }
    assert ActorServes(w, a) && PageServes(w, row.page);
    var row' := Succeeded(row, phase.ref, now);
    var untold := if phase.Synced? && !snap.buildEnabled then w.untold - {row.page} else w.untold;
    RecordServes(w, a, d, row', untold);
    hide Serves, ServesBut, LatestSuccess;
    GotoServes(PutRow(w, d, row', true).(untold := untold), a, RunClosing(row.page, snap, Live));
  }

  /** Exclusivity makes a run alone on its page, on the page's newest row. */
  lemma AloneOnPage(w: World, own: Own, a: ActorId)
    requires Inv(w, own) && a in w.actors && w.actors[a].Run?
    ensures ActorOK(w, own, a) && DepOK(w, own, w.actors[a].dep)
    ensures forall b :: b in w.actors && w.actors[b].Run? && w.actors[b].row.page == w.actors[a].row.page ==> b == a
    ensures forall e :: w.actors[a].dep < e < |w.deps| ==> w.deps[e].page != w.actors[a].row.page
  {
    assert ActorOK(w, own, a);
    assert DepOK(w, own, w.actors[a].dep);
    forall b | b in w.actors && w.actors[b].Run? && w.actors[b].row.page == w.actors[a].row.page ensures b == a {
      assert ActorOK(w, own, b);
      assert DepOK(w, own, w.actors[b].dep);
    }
    forall e | w.actors[a].dep < e < |w.deps| ensures w.deps[e].page != w.actors[a].row.page {
      assert DepOK(w, own, e);
    }
  }

  lemma SentServes(w: World, a: ActorId, d: DepId)
    requires ServesBut(w, a)
    ensures ServesBut(w.(sent := w.sent + {d}), a)
  {
    hide LatestSuccess;
    var w' := w.(sent := w.sent + {d});
    forall p | p in w'.pages ensures PageServes(w', p) { assert PageServes(w, p); }
    forall b | b in w'.actors && b != a ensures ActorServes(w', b) { assert ActorServes(w, b); }
    forall e | 0 <= e < |w'.deps| ensures Known(w', w'.deps[e].page) { assert Known(w, w.deps[e].page); }
  }

  /** A row that stays short of success is written and the actor moves on. */
  lemma RowGotoServes(w: World, a: ActorId, d: DepId, row: Deployment, pc: Actor)
    requires ServesBut(w, a) && d < |w.deps| && row.page == w.deps[d].page
    requires w.deps[d].status != Success && row.status != Success
    requires pc.Run? ==> !pc.phase.Synced? && !pc.phase.Skipping?
    requires !pc.EditLoaded?
    ensures Serves(Goto(PutRow(w, d, row, true), a, pc))
  {
    RowServes(w, a, d, row);
    hide ServesBut, LatestSuccess;
    GotoServes(PutRow(w, d, row, true), a, pc);
  }

  lemma StatusDoneServes(w: World, a: ActorId, p: PageId, status: PageStatus, ok: bool)
    requires ServesBut(w, a)
    ensures Serves(Done(SetStatus(w, p, status, ok), a))
  {
    StatusServes(w, a, p, status, ok);
    hide ServesBut, LatestSuccess;
    DoneServes(SetStatus(w, p, status, ok), a);
  }

  // ------------------------------------------------------------ every step

  lemma TriggerServes(w: World, own: Own, l: Label)
    requires l.TriggerMark? || l.TriggerCreate? || l.TriggerEnqueue? || l.TriggerFailRow? || l.TriggerRestore?
    requires ServesBut(w, l.a) && Serves(w) && RowWriteOk(l) && (In(w, l.a) ==> ActorOK(w, own, l.a))
    ensures Serves(Step(w, l))
  {
    hide Serves, ServesBut, LatestSuccess;
    var a := l.a;
    if !In(w, a) { return; }
    var pc := w.actors[a];
    if l.TriggerMark? && pc.TrigLoaded? {
      if NotDeploying(w.pages, pc.page) {
        StatusServes(w, a, pc.page, Deploying, true);
        GotoServes(SetStatus(w, pc.page, Deploying, true), a, TrigMarked(pc.page, pc.prev));
      } else {
        DoneServes(w, a);
      }
    } else if l.TriggerCreate? && pc.TrigMarked? {
      if l.ok {
        var row := Deployment(pc.page, Queued, ".", "", "", l.now, None, None);
        AppendServes(w, a, row);
        GotoServes(w.(deps := w.deps + [row]), a, TrigCreated(pc.page, pc.prev, |w.deps|));
      } else {
        GotoServes(w, a, TrigRestore(pc.page, pc.prev));
      }
    } else if l.TriggerEnqueue? && pc.TrigCreated? {
      if l.ok {
        SentServes(w, a, pc.dep);
        DoneServes(w.(sent := w.sent + {pc.dep}), a);
      } else {
        GotoServes(w, a, TrigUnsent(pc.page, pc.prev, pc.dep));
      }
    } else if l.TriggerFailRow? && pc.TrigUnsent? {
      RowGotoServes(w, a, pc.dep, AsFailed(w.deps[pc.dep], l.now), TrigRestore(pc.page, pc.prev));
    } else if l.TriggerRestore? && pc.TrigRestore? {
      StatusDoneServes(w, a, pc.page, pc.prev, l.ok);
    }
  }

  lemma RunServes(w: World, own: Own, l: Label)
    requires l.RunMarkRow? || l.RunMarkPage? || l.RunPrepare? || l.RunSave? || l.RunFail? || l.RunClose?
    requires ServesBut(w, l.a) && Serves(w) && RowWriteOk(l)
    requires In(w, l.a) ==> ActorOK(w, own, l.a) && ActorServes(w, l.a)
    ensures Serves(Step(w, l))
  {
    hide Serves, ServesBut, LatestSuccess;
    var a := l.a;
    if !In(w, a) { return; }
    var pc := w.actors[a];
    if l.RunClose? && pc.RunClosing? {
      StatusDoneServes(w, a, pc.page, pc.outcome, l.ok);
    } else if l.RunMarkRow? && pc.Run? && pc.phase == LoadedPage {
      var row := pc.row.(status := Running, startedAt := Some(l.now));
      RowGotoServes(w, a, pc.dep, row, Run(pc.dep, row, pc.snap, MarkedRow));
    } else if l.RunMarkPage? && pc.Run? && pc.phase == MarkedRow {
      GotoServes(w, a, Run(pc.dep, pc.row, pc.snap.(status := Deploying), Preparing));
    } else if l.RunPrepare? && pc.Run? && pc.phase == Preparing {
      var row := pc.row.(commitSHA := l.commit, publishPath := l.path);
      RowGotoServes(w, a, pc.dep, row, Run(pc.dep, row, pc.snap, Prepared));
    } else if l.RunFail? && pc.Run? && pc.phase in {Preparing, Prepared, Cloud, Doomed} {
      RowGotoServes(w, a, pc.dep, AsFailed(pc.row, l.now), RunClosing(pc.row.page, pc.snap, Errored));
    } else if l.RunSave? && pc.Run? && pc.phase == Cloud {
      SaveServes(w, a, l.field, l.id, l.ok);
    }
  }

  lemma SaveServes(w: World, a: ActorId, field: RuntimeField, id: string, ok: bool)
    requires Serves(w) && a in w.actors && w.actors[a].Run? && w.actors[a].phase == Cloud
    ensures Serves(StepRunSave(w, a, field, id, ok))
  {
    hide LatestSuccess;
    var w' := StepRunSave(w, a, field, id, ok);
    assert ActorServes(w, a);
    forall p | p in w'.pages ensures PageServes(w', p) { assert PageServes(w, p); }
    forall b | b in w'.actors ensures ActorServes(w', b) { assert ActorServes(w, b); }
    forall e | 0 <= e < |w'.deps| ensures Known(w', w'.deps[e].page) { assert Known(w, w.deps[e].page); }
  }

  lemma CreateServes(w: World, p: PageId, page: Page)
    requires Serves(w)
    ensures Serves(StepCreatePage(w, p, page))
  {
    hide LatestSuccess;
    var w' := StepCreatePage(w, p, page);
    forall q | q in w'.pages ensures PageServes(w', q) { if q in w.pages { assert PageServes(w, q); } }
    forall b | b in w'.actors ensures ActorServes(w', b) { assert ActorServes(w, b); }
    forall e | 0 <= e < |w'.deps| ensures Known(w', w'.deps[e].page) { assert Known(w, w.deps[e].page); }
  }

  lemma EditServes(w: World, a: ActorId)
    requires Serves(w) && ServesBut(w, a) && TargetAllowed(w, EditWrite(a))
    ensures Serves(StepEditWrite(w, a))
  {
    hide LatestSuccess;
    if In(w, a) && w.actors[a].EditLoaded? {
      var EditLoaded(p, _, edited, retargets) := w.actors[a];
      assert ActorServes(w, a);
      PagesServe(w, a, WithSettings(w.pages, p, edited), w.gone, w.torn);
      hide Serves, ServesBut;
      DoneServes(w, a);
      DoneServes(w.(pages := WithSettings(w.pages, p, edited)), a);
    }
  }

  lemma DeleteServes(w: World, a: ActorId)
    requires Serves(w) && ServesBut(w, a)
    ensures Serves(StepDeleteRow(w, a))
  {
    hide LatestSuccess;
    if In(w, a) && w.actors[a].DeleteLoaded? {
      var p := w.actors[a].page;
      DoneServes(w, a);
      if NotDeploying(w.pages, p) {
        var torn := if CloudProvisioned(w.pages[p]) then w.torn[p := w.pages[p]] else w.torn;
        PagesServe(w, a, w.pages - {p}, w.gone + {p}, torn);
        hide Serves, ServesBut;
        DoneServes(w.(pages := w.pages - {p}, gone := w.gone + {p}, torn := torn), a);
      }
    }
  }

  lemma LoadPageServes(w: World, a: ActorId)
    requires Serves(w) && ServesBut(w, a)
    ensures Serves(StepRunLoadPage(w, a))
  {
    hide LatestSuccess;
    if In(w, a) && w.actors[a].RunFresh? {
      var RunFresh(d, row) := w.actors[a];
      DoneServes(w, a);
      if row.page in w.pages {
        assert PageServes(w, row.page);
        GotoServes(w, a, Run(d, row, w.pages[row.page], LoadedPage));
      }
    }
  }

  lemma LookupServes(w: World, a: ActorId, found: bool)
    requires Serves(w) && ServesBut(w, a)
    ensures Serves(StepRunLookup(w, a, found))
  {
    hide LatestSuccess;
    if In(w, a) && w.actors[a].Run? && w.actors[a].phase == Prepared {
      var Run(d, row, snap, _) := w.actors[a];
      assert ActorServes(w, a);
      hide Serves, ServesBut;
      GotoServes(w, a, Run(d, row, snap, Cloud));
      if !snap.buildEnabled && DedupMatches(w, row) {
        GotoServes(w, a, Run(d, row, snap, Skipping(w.deps[LatestSuccess(w.deps, row.page).value].providerRef)));
      }
    }
  }

  lemma EditLoadServes(w: World, a: ActorId, p: PageId, patch: Patch)
    requires Serves(w) && ServesBut(w, a)
    ensures Serves(StepEditLoad(w, a, p, patch))
  {
    hide LatestSuccess;
    if p in w.pages && PlanEdit(w.pages[p], patch).Plan? {
      assert PageServes(w, p);
      var Plan(edited, retargets) := PlanEdit(w.pages[p], patch);
      GotoServes(w, a, EditLoaded(p, w.pages[p], edited, retargets));
    }
  }

  /** Requests being read, runs being loaded, the sweep, and crashes. */
  lemma OthersServe(w: World, l: Label)
    requires l.TriggerLoad? || l.RunLoad? || l.StaleMark? || l.StaleClose? || l.DeleteLoad? || l.Crash?
    requires Serves(w) && ServesBut(w, l.a)
    ensures Serves(Step(w, l))
  {
    hide Serves, ServesBut, LatestSuccess, PageServes;
    var a := l.a;
    match l
    case TriggerLoad(_, p) => if p in w.pages { GotoServes(w, a, TrigLoaded(p, w.pages[p].status)); }
    case RunLoad(_, d) => if d < |w.deps| { GotoServes(w, a, RunFresh(d, w.deps[d])); }
    case StaleMark(_, d, now) =>
      if StillRunning(w.deps, d) { RowGotoServes(w, a, d, AsFailed(w.deps[d], now), StaleMarked(w.deps[d].page)); }
    case StaleClose(_, ok) =>
      if In(w, a) && w.actors[a].StaleMarked? { StatusDoneServes(w, a, w.actors[a].page, Errored, ok); }
    case DeleteLoad(_, p) => GotoServes(w, a, DeleteLoaded(p));
    case Crash(_) => DoneServes(w, a);
  }

  lemma StepServes(w: World, own: Own, l: Label)
    requires Serves(w) && Inv(w, own) && Allowed(w, l) && TargetAllowed(w, l)
    ensures Serves(Step(w, l))
  {
    if l.CreatePage? { CreateServes(w, l.p, l.page); return; }
    var a := l.a;
    assert ServesBut(w, a);
    if In(w, a) { assert ActorOK(w, own, a) && ActorServes(w, a); }
    if (l.RunSync? || l.RunSucceed?) && In(w, a) && w.actors[a].Run? { AloneOnPage(w, own, a); }
    hide Serves, ServesBut, Inv, ActorOK, ActorServes, DepOK, LatestSuccess;
    match l
    case TriggerMark(_) => TriggerServes(w, own, l);
    case TriggerCreate(_, _, _) => TriggerServes(w, own, l);
    case TriggerEnqueue(_, _) => TriggerServes(w, own, l);
    case TriggerFailRow(_, _, _) => TriggerServes(w, own, l);
    case TriggerRestore(_, _) => TriggerServes(w, own, l);
    case RunMarkRow(_, _, _) => RunServes(w, own, l);
    case RunMarkPage(_, _) => RunServes(w, own, l);
    case RunPrepare(_, _, _, _) => RunServes(w, own, l);
    case RunSave(_, _, _, _) => RunServes(w, own, l);
    case RunFail(_, _, _) => RunServes(w, own, l);
    case RunClose(_, _) => RunServes(w, own, l);
    case RunLoadPage(_) => LoadPageServes(w, a);
    case RunLookup(_, found) => LookupServes(w, a, found);
    case RunSync(_, tag, result) => if In(w, a) && w.actors[a].Run? { SyncServes(w, own, a, tag, result); }
    case RunSucceed(_, now, _) => if In(w, a) && w.actors[a].Run? { SuccessServes(w, own, a, now); }
    case EditLoad(_, p, patch) => EditLoadServes(w, a, p, patch);
    case EditWrite(_) => EditServes(w, a);
    case DeleteRow(_) => DeleteServes(w, a);
    case _ => OthersServe(w, l);
  }

  // -------------------------------------------------- syncs are recorded in time

  predicate SyncedOn(pc: Actor, p: PageId) {
    pc.Run? && pc.phase.Synced? && pc.row.page == p && !pc.snap.buildEnabled
  }

  /** Whatever is untold is about to be recorded by a live run. */
  ghost predicate Pending(w: World) {
    forall p :: p in w.untold ==> exists b :: b in w.actors && SyncedOn(w.actors[b], p)
  }

  ghost predicate Untouched(w: World, w': World, b: ActorId) {
    b in w.actors ==> b in w'.actors && w'.actors[b] == w.actors[b]
  }

  lemma TriggerTouchesOne(w: World, l: Label, b: ActorId)
    requires l.TriggerLoad? || l.TriggerMark? || l.TriggerCreate? || l.TriggerEnqueue? || l.TriggerFailRow?
             || l.TriggerRestore?
    requires l.a != b
    ensures Untouched(w, Step(w, l), b)
    ensures Step(w, l).untold.Keys <= w.untold.Keys
  {
    hide WithStatus, WithRuntime, WithSettings, AsFailed, NotDeploying, CloudProvisioned, PlanEdit, LatestSuccess;
  }

  lemma RunStartTouchesOne(w: World, l: Label, b: ActorId)
    requires l.RunLoad? || l.RunLoadPage? || l.RunMarkRow? || l.RunMarkPage? || l.RunPrepare?
    requires l.a != b
    ensures Untouched(w, Step(w, l), b)
    ensures Step(w, l).untold.Keys <= w.untold.Keys
  {
    hide WithStatus, WithRuntime, WithSettings, AsFailed, NotDeploying, CloudProvisioned, PlanEdit, LatestSuccess;
  }

  lemma RunCloudTouchesOne(w: World, l: Label, b: ActorId)
    requires l.RunLookup? || l.RunSave? || l.RunSync?
    requires l.a != b
    ensures Untouched(w, Step(w, l), b)
    ensures !l.RunSync? ==> Step(w, l).untold.Keys <= w.untold.Keys
  {
    hide WithStatus, WithRuntime, WithSettings, AsFailed, NotDeploying, CloudProvisioned, PlanEdit, LatestSuccess;
  }

  lemma RunEndTouchesOne(w: World, l: Label, b: ActorId)
    requires l.RunFail? || l.RunSucceed? || l.RunClose?
    requires l.a != b
    ensures Untouched(w, Step(w, l), b)
    ensures Step(w, l).untold.Keys <= w.untold.Keys
  {
    hide WithStatus, WithRuntime, WithSettings, AsFailed, NotDeploying, CloudProvisioned, PlanEdit, LatestSuccess;
  }

  lemma EditsTouchOne(w: World, l: Label, b: ActorId)
    requires l.EditLoad? || l.EditWrite? || l.DeleteLoad? || l.DeleteRow?
    requires l.a != b
    ensures Untouched(w, Step(w, l), b)
    ensures Step(w, l).untold.Keys <= w.untold.Keys
  {
    hide WithSettings, NotDeploying, CloudProvisioned, PlanEdit;
  }

  lemma OtherTouchesOne(w: World, l: Label, b: ActorId)
    requires l.StaleMark? || l.StaleClose? || l.Crash?
    requires l.a != b
    ensures Untouched(w, Step(w, l), b)
    ensures Step(w, l).untold.Keys <= w.untold.Keys
  {
    hide WithStatus, AsFailed;
  }

  lemma StepTouchesOneActor(w: World, l: Label, b: ActorId)
    requires !l.CreatePage? ==> l.a != b
    ensures Untouched(w, Step(w, l), b)
    ensures !l.RunSync? ==> Step(w, l).untold.Keys <= w.untold.Keys
  {
    if l.CreatePage? { return; }
    hide Step, Untouched;
    match l
    case TriggerLoad(_, _) => TriggerTouchesOne(w, l, b);
    case TriggerMark(_) => TriggerTouchesOne(w, l, b);
    case TriggerCreate(_, _, _) => TriggerTouchesOne(w, l, b);
    case TriggerEnqueue(_, _) => TriggerTouchesOne(w, l, b);
    case TriggerFailRow(_, _, _) => TriggerTouchesOne(w, l, b);
    case TriggerRestore(_, _) => TriggerTouchesOne(w, l, b);
    case RunLoad(_, _) => RunStartTouchesOne(w, l, b);
    case RunLoadPage(_) => RunStartTouchesOne(w, l, b);
    case RunMarkRow(_, _, _) => RunStartTouchesOne(w, l, b);
    case RunMarkPage(_, _) => RunStartTouchesOne(w, l, b);
    case RunPrepare(_, _, _, _) => RunStartTouchesOne(w, l, b);
    case RunLookup(_, _) => RunCloudTouchesOne(w, l, b);
    case RunSave(_, _, _, _) => RunCloudTouchesOne(w, l, b);
    case RunSync(_, _, _) => RunCloudTouchesOne(w, l, b);
    case RunFail(_, _, _) => RunEndTouchesOne(w, l, b);
    case RunSucceed(_, _, _) => RunEndTouchesOne(w, l, b);
    case RunClose(_, _) => RunEndTouchesOne(w, l, b);
    case EditLoad(_, _, _) => EditsTouchOne(w, l, b);
    case EditWrite(_) => EditsTouchOne(w, l, b);
    case DeleteLoad(_, _) => EditsTouchOne(w, l, b);
    case DeleteRow(_) => EditsTouchOne(w, l, b);
    case _ => OtherTouchesOne(w, l, b);
  }

  /** A run that has synced can only record its success or crash. */
  lemma SyncedRunWaits(w: World, l: Label)
    requires !l.CreatePage? && In(w, l.a) && w.actors[l.a].Run? && w.actors[l.a].phase.Synced?
    requires !l.RunSucceed? && !l.Crash?
    ensures Step(w, l) == w
  {
    hide LatestSuccess;
  }

  lemma SyncGrows(w: World, l: Label, p: PageId)
    requires l.RunSync? && p in Step(w, l).untold && p !in w.untold && RecordingAllowed(w, l) && PlainAllowed(w, l)
    ensures l.a in Step(w, l).actors && SyncedOn(Step(w, l).actors[l.a], p)
  {
  }

  lemma UntoldGrowsBySync(w: World, l: Label, p: PageId)
    requires p in Step(w, l).untold && p !in w.untold && RecordingAllowed(w, l) && PlainAllowed(w, l)
    ensures l.RunSync? && l.a in Step(w, l).actors && SyncedOn(Step(w, l).actors[l.a], p)
  {
    hide Step, RecordingAllowed, PlainAllowed, SyncedOn;
    StepTouchesOneActor(w, l, if l.CreatePage? then 0 else l.a + 1);
    SyncGrows(w, l, p);
  }

  lemma SyncedRunRecords(w: World, l: Label, p: PageId)
    requires l.RunSucceed? && In(w, l.a) && SyncedOn(w.actors[l.a], p)
    ensures p !in Step(w, l).untold
  {
  }

  /** A run synced on a page stays so until it records or crashes. */
  lemma SyncedOnStays(w: World, l: Label, b: ActorId, p: PageId)
    requires b in w.actors && SyncedOn(w.actors[b], p) && RecordingAllowed(w, l)
    requires !l.CreatePage? && l.a == b ==> !l.RunSucceed?
    ensures b in Step(w, l).actors && SyncedOn(Step(w, l).actors[b], p)
  {
    hide Step;
    if l.CreatePage? || l.a != b {
      StepTouchesOneActor(w, l, b);
    } else {
      SyncedRunWaits(w, l);
    }
  }

  lemma StepKeepsPending(w: World, l: Label)
    requires Pending(w) && RecordingAllowed(w, l) && PlainAllowed(w, l)
    ensures Pending(Step(w, l))
  {
    hide Step, RecordingAllowed, PlainAllowed, SyncedOn;
    var w' := Step(w, l);
    forall p | p in w'.untold ensures exists b :: b in w'.actors && SyncedOn(w'.actors[b], p) {
      if p !in w.untold {
        UntoldGrowsBySync(w, l, p);
      } else {
        var b :| b in w.actors && SyncedOn(w.actors[b], p);
        if !l.CreatePage? && l.a == b && l.RunSucceed? {
          SyncedRunRecords(w, l, p);
        } else {
          SyncedOnStays(w, l, b, p);
        }
      }
    }
  }

  // ------------------------------------------------------------- main results

  lemma {:induction false} ExecServes(w: World, own: Own, ls: seq<Label>) returns (own': Own)
    requires Serves(w) && Inv(w, own) && Homed(w, ls)
    ensures Serves(Exec(w, ls)) && Inv(Exec(w, ls), own')
    decreases |ls|
  {
    hide Serves, Inv, Allowed, TargetAllowed;
    if |ls| == 0 {
      own' := own;
    } else {
      StepServes(w, own, ls[0]);
      own' := StepKeepsInv(w, own, ls[0]);
      own' := ExecServes(Step(w, ls[0]), own', ls[1..]);
    }
  }

  lemma {:induction false} ExecKeepsPending(w: World, ls: seq<Label>)
    requires Pending(w) && Recording(w, ls) && Plain(w, ls)
    ensures Pending(Exec(w, ls))
    decreases |ls|
  {
    hide Pending, RecordingAllowed, PlainAllowed, Allowed;
    if |ls| > 0 {
      StepKeepsPending(w, ls[0]);
      ExecKeepsPending(Step(w, ls[0]), ls[1..]);
    }
  }

  lemma {:induction false} PlainIsHomed(w: World, ls: seq<Label>)
    requires Plain(w, ls)
    ensures Homed(w, ls)
    decreases |ls|
  {
    hide Step, Allowed;
    if |ls| > 0 {
      PlainIsHomed(Step(w, ls[0]), ls[1..]);
    }
  }

  /** A run about to record success. */
  predicate Succeeding(w: World, a: ActorId) {
    a in w.actors && w.actors[a].Run? && (w.actors[a].phase.Skipping? || w.actors[a].phase.Synced?)
  }

  /** After the success of `a` is recorded, its target's origin holds exactly the
      files of the commit and folder on the row. */
  ghost predicate ServesItsRow(w: World, a: ActorId)
    requires Succeeding(w, a)
  {
    var Run(_, row, snap, _) := w.actors[a];
    var w' := StepRunSucceed(w, a, 0, true);
    Serving(w', TargetOf(row.page, snap), RowFiles(row))
  }

  /** When a recorded success tells the truth about the origin: never after a
      build, always after a sync of the files, and after a skip unless the last
      sync was never recorded, or was a build, and wrote other files. */
  lemma SuccessMatchesOrigin(ls: seq<Label>, a: ActorId)
    requires Homed(EMPTY, ls) && Succeeding(Exec(EMPTY, ls), a)
    ensures var w := Exec(EMPTY, ls);
      var Run(_, row, snap, phase) := w.actors[a];
      ServesItsRow(w, a) <==>
        && !snap.buildEnabled
        && (phase.Synced? || row.page !in w.untold || w.untold[row.page] == RowFiles(row))
  {
    hide Step, Homed;
    var w := Exec(EMPTY, ls);
    var own := ExecServes(EMPTY, Own(map[], map[], map[], map[]), ls);
    AloneOnPage(w, own, a);
    assert ActorServes(w, a) && PageServes(w, w.actors[a].row.page);
  }

  /** With all-or-nothing provider deploys and no run lost between a sync and its
      record, and no build ever synced, every success leaves its origin holding
      exactly that deployment's files, whether the sync ran or was skipped. */
  lemma DedupPreservesMeaning(ls: seq<Label>, a: ActorId)
    requires Plain(EMPTY, ls) && Recording(EMPTY, ls) && Succeeding(Exec(EMPTY, ls), a)
    ensures ServesItsRow(Exec(EMPTY, ls), a)
  {
    hide Step, Plain, Homed, Recording;
    var w := Exec(EMPTY, ls);
    PlainIsHomed(EMPTY, ls);
    SuccessMatchesOrigin(ls, a);
    ExecKeepsPending(EMPTY, ls);
    var own := ExecServes(EMPTY, Own(map[], map[], map[], map[]), ls);
    AloneOnPage(w, own, a);
    assert ActorServes(w, a);
  }
}
