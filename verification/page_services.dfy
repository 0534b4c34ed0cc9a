/** The page services as straight-line code over the store. Every call, left to
    itself, takes steps of the interleaving model; its contract says how it ends
    whatever the stores, the build and the provider answer. */
module PageServices {
  import opened Options
  import opened PageRows
  import opened PageProtocol
  import opened PageStore

  // ------------------------------------------------------------------ trigger

  datatype TriggerAnswers = TriggerAnswers(createOk: bool, sendOk: bool, rowOk: bool, restoreOk: bool)

  /** How a trigger ends: refused, row not created, job not sent, or queued. */
  datatype Triggered = TriggerRefused | NotCreated | NotSent | Sent(dep: DepId)

  method Trigger(db: PageDatabase, ghost a: ActorId, id: PageId, now: int, o: TriggerAnswers) returns (r: Triggered)
    requires db.Valid() && a !in db.world.actors
    modifies db
    ensures old(db.CalmSoFar()) && (r.NotSent? ==> o.rowOk) ==> db.CalmSoFar()
    ensures db.Valid() && db.world.actors == old(db.world.actors) && db.origin == old(db.origin)
    ensures r.TriggerRefused? <==> !(NotDeploying(old(db.pages), id) && old(db.pages)[id].cloudAccount.Some?)
    ensures r.NotCreated? <==> !r.TriggerRefused? && !o.createOk
    ensures r.NotSent? <==> !r.TriggerRefused? && o.createOk && !o.sendOk
    ensures r.TriggerRefused? || r.NotCreated? ==> db.deps == old(db.deps)
    ensures r.NotSent? && o.rowOk ==> db.deps == old(db.deps) + [AsFailed(QueuedRow(id, now), now)]
    ensures r.NotSent? && !o.rowOk ==> db.deps == old(db.deps) + [QueuedRow(id, now)]
    ensures r.Sent? ==> r.dep == |old(db.deps)| && db.deps == old(db.deps) + [QueuedRow(id, now)]
    ensures r.Sent? ==> db.deps[r.dep] == Deployment(id, Queued, ".", "", "", now, None, None)
    ensures db.sent == if r.Sent? then old(db.sent) + {r.dep} else old(db.sent)
    ensures r.TriggerRefused? ==> db.pages == old(db.pages)
    ensures (r.NotCreated? || r.NotSent?) && o.restoreOk ==> db.pages == old(db.pages)
    ensures r.Sent? || (!r.TriggerRefused? && !o.restoreOk) ==> db.pages == WithStatus(old(db.pages), id, Deploying)
  {
    hide Exec, Step;
    var prev := db.LoadForTrigger(a, id);
    if prev.None? {
      return TriggerRefused;
    }
    var won := db.TryMarkDeploying(a, id, prev.value);
    r := CreateAndSend(db, a, id, prev.value, now, o);
    assert WithStatus(WithStatus(old(db.pages), id, Deploying), id, prev.value) == old(db.pages);
  }

  /** The rest of a trigger that won the page, with the undo of each failure. */
  method CreateAndSend(db: PageDatabase, ghost a: ActorId, id: PageId, prev: PageStatus, now: int, o: TriggerAnswers)
    returns (r: Triggered)
    requires db.Valid() && a in db.world.actors && db.world.actors[a] == TrigMarked(id, prev)
    modifies db`pages, db`deps, db`sent, db`world, db`trace
    ensures old(db.CalmSoFar()) && (r.NotSent? ==> o.rowOk) ==> db.CalmSoFar()
    ensures db.Valid() && db.world.actors == old(db.world.actors) - {a} && !r.TriggerRefused?
    ensures r.NotCreated? <==> !o.createOk
    ensures r.NotSent? <==> o.createOk && !o.sendOk
    ensures r.NotCreated? ==> db.deps == old(db.deps)
    ensures r.NotSent? && o.rowOk ==> db.deps == old(db.deps) + [AsFailed(QueuedRow(id, now), now)]
    ensures r.NotSent? && !o.rowOk ==> db.deps == old(db.deps) + [QueuedRow(id, now)]
    ensures r.Sent? ==> r.dep == |old(db.deps)| && db.deps == old(db.deps) + [QueuedRow(id, now)]
    ensures db.sent == if r.Sent? then old(db.sent) + {r.dep} else old(db.sent)
    ensures db.pages == if r.Sent? || !o.restoreOk then old(db.pages) else WithStatus(old(db.pages), id, prev)
  {
    hide Exec, Step;
    db.CreateDeployment(a, id, prev, now, o.createOk);
    if !o.createOk {
      r := NotCreated;
    } else {
      var d := |db.deps| - 1;
      db.Enqueue(a, id, prev, d, o.sendOk);
      if o.sendOk {
        return Sent(d);
      }
      db.FailUnsent(a, id, prev, d, now, o.rowOk);
      r := NotSent;
    }
    db.RestoreStatus(a, id, prev, o.restoreOk);
  }

  // ---------------------------------------------------------------------- run

  /** Every answer one run can get from outside. `saves` are the runtime columns
      written while provisioning, up to the first failure. */
  datatype RunAnswers = RunAnswers(
    markRowOk: bool, markPageOk: bool,
    prepared: Option<(string, string)>, inputsOk: bool,
    lookupOk: bool, credsOk: bool,
    saves: seq<(RuntimeField, string, bool)>,
    tag: nat, sync: SyncResult,
    outcomeOk: bool, closeOk: bool)

  datatype RunResult = LoadRefused | RunFailed | RunSucceeded

  /** The runtime after incremental saves, in order, up to the first that fails. */
  function SavedTo(runtime: Runtime, saves: seq<(RuntimeField, string, bool)>): Runtime
    decreases |saves|
  {
    if |saves| == 0 || !saves[0].2 then runtime else SavedTo(runtime[saves[0].0 := saves[0].1], saves[1..])
  }

  /** No column is lost, and a column holds what was last saved under it. */
  lemma {:induction false} SavedHolds(runtime: Runtime, saves: seq<(RuntimeField, string, bool)>)
    ensures runtime.Keys <= SavedTo(runtime, saves).Keys
    ensures forall i | 0 <= i < |saves| && (forall j | 0 <= j <= i :: saves[j].2)
                         && (forall j | i < j < |saves| :: saves[j].0 != saves[i].0) ::
              saves[i].0 in SavedTo(runtime, saves) && SavedTo(runtime, saves)[saves[i].0] == saves[i].1
    ensures forall f | f in runtime && (forall j | 0 <= j < |saves| :: saves[j].0 != f) ::
              SavedTo(runtime, saves)[f] == runtime[f]
    decreases |saves|
  {
    if |saves| > 0 && saves[0].2 {
      var next, rest := runtime[saves[0].0 := saves[0].1], saves[1..];
      SavedHolds(next, rest);
      forall i | 0 <= i < |saves| && (forall j | 0 <= j <= i :: saves[j].2)
                   && (forall j | i < j < |saves| :: saves[j].0 != saves[i].0)
        ensures saves[i].0 in SavedTo(runtime, saves) && SavedTo(runtime, saves)[saves[i].0] == saves[i].1
      {
        assert forall j | 0 <= j < |rest| :: rest[j] == saves[j + 1];
        if i > 0 {
          assert rest[i - 1] == saves[i];
        }
      }
    }
  }

  /** The incremental saves of provisioning, in order, stopping at the first that fails. */
  method Provision(db: PageDatabase, ghost a: ActorId, ghost d: DepId, ghost row: Deployment, snap: Page, id: PageId,
                   saves: seq<(RuntimeField, string, bool)>) returns (snap': Page, ok: bool)
    requires db.Valid() && db.At(a, d, row, snap, Cloud) && id == row.page
    requires id in db.pages && db.pages[id].runtime == snap.runtime
    modifies db`pages, db`world, db`trace
    ensures old(db.CalmSoFar()) ==> db.CalmSoFar()
    ensures db.Valid() && db.At(a, d, row, snap', if ok then Cloud else Doomed)
    ensures db.world.actors == old(db.world.actors)[a := db.world.actors[a]]
    ensures ok <==> forall i | 0 <= i < |saves| :: saves[i].2
    ensures snap' == snap.(runtime := snap'.runtime)
    ensures db.pages == WithRuntime(old(db.pages), id, SavedTo(snap.runtime, saves))
  {
    hide Exec, Step;
    snap' := snap;
    var i := 0;
    while i < |saves|
      invariant 0 <= i <= |saves|
      invariant db.Valid() && db.At(a, d, row, snap', Cloud) && (old(db.CalmSoFar()) ==> db.CalmSoFar())
      invariant db.world.actors == old(db.world.actors)[a := db.world.actors[a]]
      invariant forall j | 0 <= j < i :: saves[j].2
      invariant snap' == snap.(runtime := snap'.runtime)
      invariant SavedTo(snap.runtime, saves) == SavedTo(snap'.runtime, saves[i..])
      invariant db.pages == WithRuntime(old(db.pages), id, snap'.runtime)
    {
      ghost var before := snap';
      assert saves[i..][1..] == saves[i + 1..];
      snap' := db.SaveRuntime(a, d, row, snap', id, saves[i]);
      if !saves[i].2 {
        assert db.pages == WithRuntime(old(db.pages), id, before.runtime);
        return snap', false;
      }
      i := i + 1;
    }
    ok := true;
  }

  /** The ending of a run: its row, then its page. */
  method Fail(db: PageDatabase, ghost a: ActorId, d: DepId, row: Deployment, snap: Page, ghost phase: Phase, now: int,
              o: RunAnswers)
    requires db.Valid() && db.At(a, d, row, snap, phase) && phase in {Preparing, Prepared, Cloud, Doomed}
    requires d < |db.deps|
    requires snap.status == Deploying
    modifies db`pages, db`deps, db`world, db`trace
    ensures old(db.CalmSoFar()) && o.outcomeOk ==> db.CalmSoFar()
    ensures db.Valid() && db.world.actors == old(db.world.actors) - {a}
    ensures db.deps == if o.outcomeOk then old(db.deps)[d := AsFailed(row, now)] else old(db.deps)
    ensures db.pages == Closed(old(db.pages), row.page, Errored, o.closeOk)
  {
    hide Exec, Step;
    db.RecordFailure(a, d, row, snap, phase, now, o.outcomeOk);
    db.ClosePage(a, row.page, snap, Errored, o.closeOk);
  }

  method Succeed(db: PageDatabase, ghost a: ActorId, d: DepId, row: Deployment, snap: Page, ghost phase: Phase,
                 ref: string, now: int, o: RunAnswers)
    requires db.Valid() && db.At(a, d, row, snap, phase) && phase in {Skipping(ref), Synced(ref)} && d < |db.deps|
    requires snap.status == Deploying
    modifies db`pages, db`deps, db`world, db`trace
    ensures old(db.CalmSoFar()) && o.outcomeOk ==> db.CalmSoFar()
    ensures db.Valid() && db.world.actors == old(db.world.actors) - {a}
    ensures db.deps == if o.outcomeOk then old(db.deps)[d := Succeeded(row, ref, now)] else old(db.deps)
    ensures db.pages == Closed(old(db.pages), row.page, Live, o.closeOk)
  {
    hide Exec, Step;
    db.RecordSuccess(a, d, row, snap, phase, ref, now, o.outcomeOk);
    db.ClosePage(a, row.page, snap, Live, o.closeOk);
  }

  /** A page's status, when it is written. */
  function Closed(pages: Pages, id: PageId, outcome: PageStatus, closeOk: bool): Pages {
    if closeOk then WithStatus(pages, id, outcome) else pages
  }

  /** Sync, then the matching ending. */
  method SyncAndEnd(db: PageDatabase, ghost a: ActorId, d: DepId, row: Deployment, snap: Page, now: int, o: RunAnswers)
    requires db.Valid() && db.At(a, d, row, snap, Cloud) && d < |db.deps| && snap.status == Deploying
    modifies db
    ensures old(db.CalmSoFar()) && o.outcomeOk ==> db.CalmSoFar()
    ensures db.Valid() && db.world.actors == old(db.world.actors) - {a} && db.sent == old(db.sent)
    ensures o.outcomeOk ==>
              db.deps ==
                old(db.deps)[d := if o.sync.SyncOk? then Succeeded(row, o.sync.ref, now) else AsFailed(row, now)]
    ensures db.pages == Closed(old(db.pages), row.page, if o.sync.SyncOk? then Live else Errored, o.closeOk)
    ensures db.origin == Uploaded(old(db.origin), TargetOf(row.page, snap), Produced(row, snap, o.tag), o.sync)
  {
    hide Exec, Step;
    db.Sync(a, d, row, snap, o.tag, o.sync);
    if o.sync.SyncFailed? {
      Fail(db, a, d, row, snap, Doomed, now, o);
    } else {
      Succeed(db, a, d, row, snap, Synced(o.sync.ref), o.sync.ref, now, o);
    }
  }

  /** Provision first: any failed save ends the run. */
  method CloudPhase(db: PageDatabase, ghost a: ActorId, d: DepId, row: Deployment, snap: Page, now: int, o: RunAnswers)
    returns (r: RunResult)
    requires db.Valid() && db.At(a, d, row, snap, Cloud) && d < |db.deps| && snap.status == Deploying
    requires row.page in db.pages && db.pages[row.page].runtime == snap.runtime
    modifies db
    ensures old(db.CalmSoFar()) && o.outcomeOk ==> db.CalmSoFar()
    ensures db.Valid() && db.world.actors == old(db.world.actors) - {a} && db.sent == old(db.sent)
    ensures r == if CloudSucceeds(o) then RunSucceeded else RunFailed
    ensures o.outcomeOk ==>
              db.deps ==
                old(db.deps)[d := if r.RunSucceeded? then Succeeded(row, o.sync.ref, now) else AsFailed(row, now)]
    ensures db.origin == CloudOrigin(old(db.origin), TargetOf(row.page, snap), Produced(row, snap, o.tag), o)
    ensures db.pages == Closed(WithRuntime(old(db.pages), row.page, CloudRuntime(snap.runtime, o)), row.page,
                               if r.RunSucceeded? then Live else Errored, o.closeOk)
  {
    hide Exec, Step, WithStatus, SavedTo;
    var snap', ok := snap, false;
    assert WithRuntime(db.pages, row.page, snap.runtime) == db.pages;
    if o.credsOk {
      snap', ok := Provision(db, a, d, row, snap, row.page, o.saves);
    }
    if ok {
      SyncAndEnd(db, a, d, row, snap', now, o);
      r := if o.sync.SyncOk? then RunSucceeded else RunFailed;
    } else {
      Fail(db, a, d, row, snap', if o.credsOk then Doomed else Cloud, now, o);
      r := RunFailed;
    }
  }

  /** What the cloud phase leaves in the runtime column. */
  function CloudRuntime(runtime: Runtime, o: RunAnswers): Runtime {
    if o.credsOk then SavedTo(runtime, o.saves) else runtime
  }

  /** Credentials and every save went through, so the provider was asked to sync. */
  predicate Provisions(o: RunAnswers) {
    o.credsOk && forall i | 0 <= i < |o.saves| :: o.saves[i].2
  }

  predicate CloudSucceeds(o: RunAnswers) {
    Provisions(o) && o.sync.SyncOk?
  }

  /** What a sync leaves on the origins. */
  function Uploaded(origin: map<Target, Content>, t: Target, content: Content, sync: SyncResult): map<Target, Content> {
    match sync
    case SyncOk(_) => origin[t := content]
    case SyncFailed(touched) => if touched then origin[t := Mixed] else origin
  }

  /** What the cloud phase leaves on them. */
  function CloudOrigin(origin: map<Target, Content>, t: Target, content: Content, o: RunAnswers): map<Target, Content> {
    if Provisions(o) then Uploaded(origin, t, content, o.sync) else origin
  }

  /** What this run uploads: the build's output, or the files of the commit's folder. */
  function Upload(builds: bool, o: RunAnswers): Content
    requires o.prepared.Some?
  {
    if builds then Built(o.tag) else Files(o.prepared.value.0, o.prepared.value.1)
  }

  /** The sync can be skipped: a page that does not build, a known commit, and a
      latest success with the same commit and folder. */
  predicate SkipsSync(deps: Deployments, page: PageId, builds: bool, inputs: (string, string), lookupOk: bool) {
    var last := LatestSuccess(deps, page);
    && !builds && inputs.0 != "" && lookupOk
    && last.Some? && (deps[last.value].commitSHA, deps[last.value].publishPath) == inputs
  }

  lemma DedupIsSkip(w: World, row: Deployment, snap: Page, found: bool)
    ensures !snap.buildEnabled && row.commitSHA != "" && found && DedupMatches(w, row) <==>
            SkipsSync(w.deps, row.page, snap.buildEnabled, (row.commitSHA, row.publishPath), found)
  {
  }

  /** A row that is no success, before and after, plays no part in it. */
  lemma SkipIgnores(deps: Deployments, deps': Deployments, d: DepId, page: PageId, builds: bool,
                    inputs: (string, string), lookupOk: bool)
    requires |deps'| == |deps| && d < |deps| && forall e: DepId | e < |deps| && e != d :: deps'[e] == deps[e]
    requires deps[d].status != Success && deps'[d].status != Success
    ensures SkipsSync(deps', page, builds, inputs, lookupOk) == SkipsSync(deps, page, builds, inputs, lookupOk)
  {
    LatestSuccessAgrees(deps, deps', page);
  }

  /** The provider's reference of a run that succeeds: the last success's when its
      sync is skipped, its own after a sync; none when it fails. */
  function RefOf(deps: Deployments, page: PageId, builds: bool, o: RunAnswers): Option<string> {
    if o.prepared.None? then None
    else if SkipsSync(deps, page, builds, o.prepared.value, o.lookupOk) then
      Some(deps[LatestSuccess(deps, page).value].providerRef)
    else if CloudSucceeds(o) then Some(o.sync.ref)
    else None
  }

  function RunRuntime(deps: Deployments, page: PageId, builds: bool, runtime: Runtime, o: RunAnswers): Runtime {
    if o.prepared.None? || SkipsSync(deps, page, builds, o.prepared.value, o.lookupOk) then runtime
    else CloudRuntime(runtime, o)
  }

  /** The row of a run that ended: its inputs once its files were produced, its
      reference if it succeeded, and the rest as it was. */
  function Finished(row: Deployment, inputs: Option<(string, string)>, ref: Option<string>, now: int): Deployment {
    Deployment(row.page, if ref.Some? then Success else Failed,
               if inputs.Some? then inputs.value.1 else row.publishPath,
               if inputs.Some? then inputs.value.0 else row.commitSHA,
               if ref.Some? then ref.value else row.providerRef,
               row.createdAt, row.startedAt, Some(now))
  }

  lemma SameRuntime(pages: Pages, id: PageId)
    requires id in pages
    ensures WithRuntime(pages, id, pages[id].runtime) == pages
  {
  }

  /** A run's own row, being no success, plays no part in how it ends either. */
  lemma EndIgnores(deps: Deployments, deps': Deployments, d: DepId, page: PageId, builds: bool, o: RunAnswers)
    requires |deps'| == |deps| && d < |deps| && forall e: DepId | e < |deps| && e != d :: deps'[e] == deps[e]
    requires deps[d].status != Success && deps'[d].status != Success
    ensures RefOf(deps', page, builds, o) == RefOf(deps, page, builds, o)
    ensures forall rt :: RunRuntime(deps', page, builds, rt, o) == RunRuntime(deps, page, builds, rt, o)
    ensures forall origin, snap: Page | snap.buildEnabled == builds ::
              RunOrigin(origin, deps', page, snap, o) == RunOrigin(origin, deps, page, snap, o)
    ensures o.prepared.Some? ==>
              SkipsSync(deps', page, builds, o.prepared.value, o.lookupOk) ==
                SkipsSync(deps, page, builds, o.prepared.value, o.lookupOk)
  {
    if o.prepared.Some? {
      SkipIgnores(deps, deps', d, page, builds, o.prepared.value, o.lookupOk);
      LatestSuccessAgrees(deps, deps', page);
    }
  }

  lemma EndsFinished(row: Deployment, inputs: (string, string), ref: string, now: int)
    ensures Succeeded(row.(commitSHA := inputs.0, publishPath := inputs.1), ref, now)
         == Finished(row, Some(inputs), Some(ref), now)
    ensures AsFailed(row.(commitSHA := inputs.0, publishPath := inputs.1), now)
         == Finished(row, Some(inputs), None, now)
    ensures AsFailed(row, now) == Finished(row, None, None, now)
  {
  }

  /** What the lookup hands on, when it makes the sync unnecessary. */
  lemma SkipHasRef(deps: Deployments, page: PageId, builds: bool, o: RunAnswers)
    requires o.prepared.Some? && SkipsSync(deps, page, builds, o.prepared.value, o.lookupOk)
    ensures LatestSuccess(deps, page).Some?
    ensures RefOf(deps, page, builds, o) == Some(deps[LatestSuccess(deps, page).value].providerRef)
  {
  }

  /** Record the inputs, then skip or go to the cloud. */
  method Publish(db: PageDatabase, ghost a: ActorId, d: DepId, row: Deployment, snap: Page, now: int, o: RunAnswers)
    returns (r: RunResult)
    requires db.Valid() && db.At(a, d, row, snap, Preparing) && d < |db.deps| && snap.status == Deploying
    requires row.page in db.pages && db.pages[row.page].runtime == snap.runtime && db.deps[d].page == row.page
    requires o.prepared.Some?
    requires row.status != Success && db.deps[d].status != Success
    modifies db
    ensures old(db.CalmSoFar()) && o.inputsOk && o.outcomeOk ==> db.CalmSoFar()
    ensures db.Valid() && db.world.actors == old(db.world.actors) - {a} && db.sent == old(db.sent) && !r.LoadRefused?
    ensures r.RunSucceeded? <==>
              SkipsSync(old(db.deps), row.page, snap.buildEnabled, o.prepared.value, o.lookupOk) || CloudSucceeds(o)
    ensures db.origin ==
            if SkipsSync(old(db.deps), row.page, snap.buildEnabled, o.prepared.value, o.lookupOk) then old(db.origin)
            else CloudOrigin(old(db.origin), TargetOf(row.page, snap), Upload(snap.buildEnabled, o), o)
    ensures o.outcomeOk ==>
              var ref := RefOf(old(db.deps), row.page, snap.buildEnabled, o);
              db.deps == old(db.deps)[d := Finished(row, o.prepared, ref, now)]
    ensures db.pages == Closed(WithRuntime(old(db.pages), row.page,
                                           RunRuntime(old(db.deps), row.page, snap.buildEnabled, snap.runtime, o)),
                               row.page, if r.RunSucceeded? then Live else Errored, o.closeOk)
  {
    hide Exec, Step, WithStatus, WithRuntime, LatestSuccess, SkipsSync, CloudOrigin, CloudRuntime, Closed, Finished,
         Succeeded, AsFailed;
    SameRuntime(db.pages, row.page);
    var row1, ref := Decide(db, a, d, row, snap, o);
    if ref.Some? {
      EndsFinished(row, o.prepared.value, ref.value, now);
      Succeed(db, a, d, row1, snap, Skipping(ref.value), ref.value, now, o);
      r := RunSucceeded;
    } else {
      EndsFinished(row, o.prepared.value, if o.sync.SyncOk? then o.sync.ref else "", now);
      r := CloudPhase(db, a, d, row1, snap, now, o);
    }
  }

  /** The inputs recorded, and the reference to reuse, if any. */
  method Decide(db: PageDatabase, ghost a: ActorId, d: DepId, row: Deployment, snap: Page, o: RunAnswers)
    returns (row': Deployment, ref: Option<string>)
    requires db.Valid() && db.At(a, d, row, snap, Preparing) && d < |db.deps| && db.deps[d].page == row.page
    requires o.prepared.Some? && row.status != Success && db.deps[d].status != Success
    modifies db`deps, db`world, db`trace
    ensures old(db.CalmSoFar()) && o.inputsOk ==> db.CalmSoFar()
    ensures db.Valid() && db.At(a, d, row', snap, if ref.Some? then Skipping(ref.value) else Cloud)
    ensures db.world.actors - {a} == old(db.world.actors) - {a}
    ensures row' == row.(commitSHA := o.prepared.value.0, publishPath := o.prepared.value.1)
    ensures db.deps == if o.inputsOk then old(db.deps)[d := row'] else old(db.deps)
    ensures ref == if SkipsSync(old(db.deps), row.page, snap.buildEnabled, o.prepared.value, o.lookupOk)
                   then RefOf(old(db.deps), row.page, snap.buildEnabled, o) else None
    ensures ref.Some? <==> SkipsSync(old(db.deps), row.page, snap.buildEnabled, o.prepared.value, o.lookupOk)
  {
    hide Exec, Step, LatestSuccess, DedupMatches, SkipsSync, RefOf;
    row' := db.RecordInputs(a, d, row, snap, o.prepared.value.0, o.prepared.value.1, o.inputsOk);
    EndIgnores(old(db.deps), db.deps, d, row.page, snap.buildEnabled, o);
    assert (row'.commitSHA, row'.publishPath) == o.prepared.value;
    ref := db.Dedup(a, d, row', snap, o.lookupOk);
    DedupIsSkip(db.world, row', snap, o.lookupOk);
    if ref.Some? {
      SkipHasRef(db.deps, row.page, snap.buildEnabled, o);
    }
  }

  /** Load both rows and mark them; nothing is marked unless both are there. */
  method Begin(db: PageDatabase, ghost a: ActorId, d: DepId, now: int, o: RunAnswers)
    returns (begun: Option<(Deployment, Page)>)
    requires db.Valid() && a !in db.world.actors && d in db.sent
    modifies db`pages, db`deps, db`world, db`trace
    ensures old(db.CalmSoFar()) && o.markRowOk && old(db.NobodyRuns(d)) ==> db.CalmSoFar()
    ensures db.Valid()
    ensures begun.None? <==>
              d >= |old(db.deps)| || IsTerminal(old(db.deps)[d].status) || old(db.deps)[d].page !in old(db.pages)
    ensures begun.None? ==>
              db.deps == old(db.deps) && db.pages == old(db.pages) && db.world.actors == old(db.world.actors)
    ensures begun.Some? ==>
              var (row, snap) := begun.value;
              && db.At(a, d, row, snap, Preparing) && db.world.actors - {a} == old(db.world.actors)
              && row == old(db.deps)[d].(status := Running, startedAt := Some(now))
              && db.deps == (if o.markRowOk then old(db.deps)[d := row] else old(db.deps))
              && snap == old(db.pages)[row.page].(status := Deploying)
              && row.page in db.pages && db.pages == Closed(old(db.pages), row.page, Deploying, o.markPageOk)
  {
    hide Exec, Step, WithStatus;
    var row := db.LoadDeployment(a, d);
    if row.None? {
      return None;
    }
    var snap := db.LoadRunPage(a, d, row.value);
    if snap.None? {
      assert db.world.actors == old(db.world.actors);
      return None;
    }
    MarkKeepsRuntime(old(db.pages), row.value.page, o.markPageOk);
    var row1, snap1 := Mark(db, a, d, row.value, snap.value, now, o);
    begun := Some((row1, snap1));
  }

  /** Mark the row, then the page. */
  method Mark(db: PageDatabase, ghost a: ActorId, d: DepId, row: Deployment, snap: Page, now: int, o: RunAnswers)
    returns (row': Deployment, snap': Page)
    requires db.Valid() && db.At(a, d, row, snap, LoadedPage) && d < |db.deps| && db.deps[d] == row
    requires row.page in db.pages && db.pages[row.page] == snap
    modifies db`pages, db`deps, db`world, db`trace
    ensures old(db.CalmSoFar()) && o.markRowOk ==> db.CalmSoFar()
    ensures db.Valid() && db.At(a, d, row', snap', Preparing) && db.world.actors - {a} == old(db.world.actors) - {a}
    ensures row' == row.(status := Running, startedAt := Some(now)) && snap' == snap.(status := Deploying)
    ensures db.deps == if o.markRowOk then old(db.deps)[d := row'] else old(db.deps)
    ensures db.pages == Closed(old(db.pages), row.page, Deploying, o.markPageOk)
  {
    hide Exec, Step;
    row' := db.MarkRow(a, d, row, snap, now, o.markRowOk);
    snap' := db.MarkPage(a, d, row', snap, row.page, o.markPageOk);
    assert snap.status == Deploying ==> WithStatus(old(db.pages), row.page, Deploying) == old(db.pages);
  }

  /** A whole run of one message. */
  method RunJob(db: PageDatabase, ghost a: ActorId, d: DepId, now: int, o: RunAnswers) returns (r: RunResult)
    requires db.Valid() && a !in db.world.actors && d in db.sent
    modifies db
    ensures old(db.CalmSoFar()) && o.markRowOk && o.inputsOk && o.outcomeOk && old(db.NobodyRuns(d)) ==> db.CalmSoFar()
    ensures db.Valid() && db.world.actors == old(db.world.actors) && db.sent == old(db.sent)
    ensures r.LoadRefused? <==>
              d >= |old(db.deps)| || old(db.deps)[d].status in {Success, Failed, Cancelled}
              || old(db.deps)[d].page !in old(db.pages)
    ensures r.LoadRefused? ==> db.deps == old(db.deps) && db.pages == old(db.pages) && db.origin == old(db.origin)
    ensures r.RunSucceeded? <==>
              && !r.LoadRefused? && o.prepared.Some?
              && var p := old(db.deps)[d].page;
                (SkipsSync(old(db.deps), p, old(db.pages)[p].buildEnabled, o.prepared.value, o.lookupOk)
                 || CloudSucceeds(o))
    ensures !r.LoadRefused? && o.outcomeOk ==>
              var row := old(db.deps)[d];
              var ref := RefOf(old(db.deps), row.page, old(db.pages)[row.page].buildEnabled, o);
              && (ref.Some? <==> r.RunSucceeded?)
              && db.deps == old(db.deps)[d := Finished(row.(startedAt := Some(now)), o.prepared, ref, now)]
    ensures !r.LoadRefused? ==>
              var p := old(db.deps)[d].page;
              var page := old(db.pages)[p];
              db.pages == old(db.pages)[p := page.(
                runtime := RunRuntime(old(db.deps), p, page.buildEnabled, page.runtime, o),
                status := if o.closeOk then (if r.RunSucceeded? then Live else Errored)
                          else if o.markPageOk then Deploying else page.status)]
    ensures !r.LoadRefused? ==>
              var p := old(db.deps)[d].page;
              db.origin == RunOrigin(old(db.origin), old(db.deps), p, old(db.pages)[p], o)
  {
    hide Exec, Step, SkipsSync, LatestSuccess, RunOrigin, CloudSucceeds, RefOf, RunRuntime, Finished, WithStatus,
         WithRuntime, Closed;
    var begun := Begin(db, a, d, now, o);
    if begun.None? {
      return LoadRefused;
    }
    var (row, snap) := begun.value;
    EndIgnores(old(db.deps), db.deps, d, row.page, snap.buildEnabled, o);
    MarkKeepsRuntime(old(db.pages), row.page, o.markPageOk);
    r := RunOn(db, a, d, row, snap, now, o);
    PageEnds(old(db.pages), row.page, o.markPageOk,
             RunRuntime(old(db.deps), row.page, snap.buildEnabled, snap.runtime, o),
             if r.RunSucceeded? then Live else Errored, o.closeOk);
    FinishedIgnoresStatus(old(db.deps)[d], row, o, now);
    OriginIgnoresStatus(old(db.origin), old(db.deps), row.page, old(db.pages)[row.page], o);
    RefMeans(old(db.deps), row.page, snap.buildEnabled, o);
  }

  /** A marked run, to its end. */
  method RunOn(db: PageDatabase, ghost a: ActorId, d: DepId, row: Deployment, snap: Page, now: int, o: RunAnswers)
    returns (r: RunResult)
    requires db.Valid() && db.At(a, d, row, snap, Preparing) && d < |db.deps| && snap.status == Deploying
    requires row.page in db.pages && db.pages[row.page].runtime == snap.runtime && db.deps[d].page == row.page
    requires row.status != Success && db.deps[d].status != Success
    modifies db
    ensures old(db.CalmSoFar()) && o.inputsOk && o.outcomeOk ==> db.CalmSoFar()
    ensures db.Valid() && db.world.actors == old(db.world.actors) - {a} && db.sent == old(db.sent) && !r.LoadRefused?
    ensures r.RunSucceeded? <==> RefOf(old(db.deps), row.page, snap.buildEnabled, o).Some?
    ensures o.outcomeOk ==>
              var ref := RefOf(old(db.deps), row.page, snap.buildEnabled, o);
              db.deps == old(db.deps)[d := Finished(row, o.prepared, ref, now)]
    ensures db.pages == Closed(WithRuntime(old(db.pages), row.page,
                                           RunRuntime(old(db.deps), row.page, snap.buildEnabled, snap.runtime, o)),
                               row.page, if r.RunSucceeded? then Live else Errored, o.closeOk)
    ensures db.origin == RunOrigin(old(db.origin), old(db.deps), row.page, snap, o)
  {
    hide Exec, Step, SkipsSync, LatestSuccess, CloudOrigin, CloudSucceeds, RefOf, RunRuntime, Finished, AsFailed,
         WithStatus, WithRuntime;
    if o.prepared.None? {
      EndsFinished(row, ("", ""), "", now);
      NotPrepared(old(db.deps), row.page, snap, o);
      SameRuntime(db.pages, row.page);
      Fail(db, a, d, row, snap, Preparing, now, o);
      r := RunFailed;
    } else {
      RefMeans(old(db.deps), row.page, snap.buildEnabled, o);
      r := Publish(db, a, d, row, snap, now, o);
    }
  }

  /** What a whole run leaves on the origins. */
  function RunOrigin(origin: map<Target, Content>, deps: Deployments, p: PageId, page: Page, o: RunAnswers)
    : map<Target, Content>
  {
    if o.prepared.None? || SkipsSync(deps, p, page.buildEnabled, o.prepared.value, o.lookupOk) then origin
    else CloudOrigin(origin, TargetOf(p, page), Upload(page.buildEnabled, o), o)
  }

  lemma MarkKeepsRuntime(pages: Pages, p: PageId, markOk: bool)
    requires p in pages
    ensures p in Closed(pages, p, Deploying, markOk)
    ensures Closed(pages, p, Deploying, markOk)[p].runtime == pages[p].runtime
  {
  }

  /** The writes a run makes on its page, taken together. */
  lemma PageEnds(pages: Pages, p: PageId, markOk: bool, runtime: Runtime, outcome: PageStatus, closeOk: bool)
    requires p in pages
    ensures Closed(WithRuntime(Closed(pages, p, Deploying, markOk), p, runtime), p, outcome, closeOk)
         == pages[p := pages[p].(runtime := runtime,
                                 status := if closeOk then outcome
                                           else if markOk then Deploying else pages[p].status)]
  {
  }

  lemma OriginIgnoresStatus(origin: map<Target, Content>, deps: Deployments, p: PageId, page: Page, o: RunAnswers)
    ensures RunOrigin(origin, deps, p, page.(status := Deploying), o) == RunOrigin(origin, deps, p, page, o)
  {
  }

  lemma NotPrepared(deps: Deployments, page: PageId, snap: Page, o: RunAnswers)
    requires o.prepared.None?
    ensures RefOf(deps, page, snap.buildEnabled, o) == None
    ensures RunRuntime(deps, page, snap.buildEnabled, snap.runtime, o) == snap.runtime
    ensures forall origin :: RunOrigin(origin, deps, page, snap, o) == origin
  {
  }

  lemma RefMeans(deps: Deployments, page: PageId, builds: bool, o: RunAnswers)
    ensures RefOf(deps, page, builds, o).Some? <==>
              && o.prepared.Some?
              && (SkipsSync(deps, page, builds, o.prepared.value, o.lookupOk) || CloudSucceeds(o))
  {
  }

  lemma FinishedIgnoresStatus(row0: Deployment, row: Deployment, o: RunAnswers, now: int)
    requires row == row0.(status := Running, startedAt := Some(now))
    ensures forall ref ::
              Finished(row, o.prepared, ref, now) == Finished(row0.(startedAt := Some(now)), o.prepared, ref, now)
  {
  }

  // ------------------------------------------------------------- stale recovery

  /** When a running row last showed a sign of life. */
  function Since(row: Deployment): int {
    if row.startedAt.Some? then row.startedAt.value else row.createdAt
  }

  predicate Overdue(row: Deployment, now: int) {
    row.status == Running && now - Since(row) >= STALE_SECONDS
  }

  /** A row is overdue forty minutes after its run started or, when none has, after
      it was made, and only while it is running. */
  lemma OverdueCountsFrom(row: Deployment, started: int, now: int)
    ensures Overdue(row.(startedAt := Some(started)), now) <==> row.status == Running && now >= started + 2400
    ensures row.startedAt.None? ==> (Overdue(row, now) <==> row.status == Running && now >= row.createdAt + 2400)
  {
  }

  datatype SweepAnswers = SweepAnswers(listOk: bool, markOk: DepId -> bool, pageOk: DepId -> bool)

  /** The rows one sweep fails, out of those it listed. */
  predicate Swept(deps: Deployments, listed: seq<DepId>, now: int, o: SweepAnswers, d: DepId) {
    d in listed && d < |deps| && Overdue(deps[d], now) && o.markOk(d)
  }

  /** Exactly the swept rows failed, exactly their pages were freed. */
  ghost predicate SweptTo(deps: Deployments, pages: Pages, deps': Deployments, pages': Pages, listed: seq<DepId>,
                          now: int, o: SweepAnswers) {
    && |deps'| == |deps| && pages'.Keys == pages.Keys
    && (forall d: DepId | d < |deps| ::
          deps'[d] == if Swept(deps, listed, now, o, d) then deps[d].(status := Failed, finishedAt := Some(now))
                      else deps[d])
    && (forall p | p in pages :: pages'[p] == pages[p] || Freed(deps, pages, pages', listed, now, o, p))
    && (forall d: DepId | Swept(deps, listed, now, o, d) && o.pageOk(d) && deps[d].page in pages ::
          pages'[deps[d].page].status == Errored)
  }

  ghost predicate Freed(deps: Deployments, pages: Pages, pages': Pages, listed: seq<DepId>, now: int, o: SweepAnswers,
                        p: PageId)
    requires p in pages && p in pages'
  {
    && pages'[p] == pages[p].(status := Errored)
    && exists d: DepId :: Swept(deps, listed, now, o, d) && o.pageOk(d) && deps[d].page == p
  }

  lemma SweepNothing(deps: Deployments, pages: Pages, now: int, o: SweepAnswers)
    ensures SweptTo(deps, pages, deps, pages, [], now, o)
  {
  }

  /** One more listed row looked at. */
  lemma SweepOne(deps: Deployments, pages: Pages, deps': Deployments, pages': Pages, listed: seq<DepId>, d: DepId,
                 now: int, o: SweepAnswers)
    requires SweptTo(deps, pages, deps', pages', listed, now, o) && d < |deps| && d !in listed
    ensures var swept := Overdue(deps[d], now) && o.markOk(d);
      SweptTo(deps, pages,
              if swept then deps'[d := AsFailed(deps[d], now)] else deps',
              if swept && o.pageOk(d) then WithStatus(pages', deps[d].page, Errored) else pages',
              listed + [d], now, o)
  {
    var swept := Overdue(deps[d], now) && o.markOk(d);
    var pages2 := if swept && o.pageOk(d) then WithStatus(pages', deps[d].page, Errored) else pages';
    assert forall e: DepId ::
             Swept(deps, listed + [d], now, o, e) <==> Swept(deps, listed, now, o, e) || (e == d && swept);
    forall p | p in pages
      ensures pages2[p] == pages[p] || Freed(deps, pages, pages2, listed + [d], now, o, p)
    {
      if pages'[p] != pages[p] {
        var e: DepId :| Swept(deps, listed, now, o, e) && o.pageOk(e) && deps[e].page == p;
        assert Swept(deps, listed + [d], now, o, e);
      } else if swept && o.pageOk(d) && deps[d].page == p {
        assert Swept(deps, listed + [d], now, o, d);
      }
    }
  }

  /** One listed row: failed and its page freed, if it is overdue and still running. */
  method SweepRow(db: PageDatabase, ghost a: ActorId, d: DepId, now: int, o: SweepAnswers)
    requires db.Valid() && a !in db.world.actors && StillRunning(db.deps, d)
    modifies db`pages, db`deps, db`world, db`trace
    ensures db.Valid() && db.world.actors == old(db.world.actors)
    ensures old(db.CalmSoFar()) && old(db.Quiet()) ==> db.CalmSoFar() && db.Quiet()
    ensures var swept := Overdue(old(db.deps)[d], now) && o.markOk(d);
      && db.deps == (if swept then old(db.deps)[d := AsFailed(old(db.deps)[d], now)] else old(db.deps))
      && db.pages ==
           (if swept && o.pageOk(d) then WithStatus(old(db.pages), old(db.deps)[d].page, Errored) else old(db.pages))
  {
    hide Exec, Step, Calm;
    if Overdue(db.deps[d], now) && o.markOk(d) {
      var p := db.deps[d].page;
      assert db.Quiet() ==> db.NobodyRuns(d);
      var marked := db.MarkTimedOut(a, d, now);
      db.ReleaseTimedOut(a, p, o.pageOk(d));
      assert db.world.actors == old(db.world.actors);
    }
  }

  /** Fails every listed row that is overdue, frees its page, and touches nothing else. */
  method RecoverStale(db: PageDatabase, ghost a: ActorId, now: int, o: SweepAnswers) returns (listed: seq<DepId>)
    requires db.Valid() && a !in db.world.actors
    modifies db`pages, db`deps, db`world, db`trace
    ensures old(db.CalmSoFar()) && old(db.Quiet()) ==> db.CalmSoFar()
    ensures db.Valid() && db.world.actors == old(db.world.actors)
    ensures o.listOk ==> forall d | StillRunning(old(db.deps), d) && d !in listed :: |listed| == 1000
    ensures !o.listOk ==> listed == [] && db.deps == old(db.deps) && db.pages == old(db.pages)
    ensures SweptTo(old(db.deps), old(db.pages), db.deps, db.pages, listed, now, o)
  {
    hide Exec, Step, Calm, SweptTo, WithStatus;
    ghost var deps, pages := db.deps, db.pages;
    SweepNothing(deps, pages, now, o);
    listed := [];
    if !o.listOk {
      return;
    }
    listed := db.ListRunning();
    var i := 0;
    while i < |listed|
      invariant 0 <= i <= |listed| && db.Valid() && db.world.actors == old(db.world.actors)
      invariant old(db.CalmSoFar()) && old(db.Quiet()) ==> db.CalmSoFar() && db.Quiet()
      invariant SweptTo(deps, pages, db.deps, db.pages, listed[..i], now, o)
      invariant |db.deps| == |deps| && forall d: DepId | d < |deps| && d !in listed[..i] :: db.deps[d] == deps[d]
    {
      var d := listed[i];
      assert listed[..i + 1] == listed[..i] + [d];
      assert d !in listed[..i];
      SweepOne(deps, pages, db.deps, db.pages, listed[..i], d, now, o);
      SweepRow(db, a, d, now, o);
      i := i + 1;
    }
    assert listed[..|listed|] == listed;
  }

  // ------------------------------------------------------ settings and removal

  datatype EditResult = EditRefused | EditRaced | Edited

  /** A settings request: the stored runtime and status survive, and a move to
      another target never lands on a page that is deploying. */
  method UpdatePage(db: PageDatabase, ghost a: ActorId, id: PageId, patch: Patch) returns (r: EditResult)
    requires db.Valid() && a !in db.world.actors
    modifies db`pages, db`world, db`trace
    ensures old(db.CalmSoFar()) && old(db.NobodyEdits(id)) ==> db.CalmSoFar()
    ensures db.Valid() && db.world.actors == old(db.world.actors)
    ensures r.Edited? <==> id in old(db.pages) && !TurnsDown(old(db.pages)[id], patch)
    ensures r.Edited? ==> db.pages == old(db.pages)[id := Requested(old(db.pages)[id], patch)]
    ensures r.Edited? && old(db.pages)[id].status == Deploying ==> SameTarget(db.pages[id], old(db.pages)[id])
    ensures !r.Edited? ==> r.EditRefused? && db.pages == old(db.pages)
  {
    hide Exec, Step;
    var plan := db.LoadForEdit(a, id, patch);
    if plan.Refused? {
      return EditRefused;
    }
    PlanTargets(db.pages[id], patch);
    PlanMeans(db.pages[id], patch);
    assert plan.edited == Settled(db.pages[id], plan.edited);
    var applied := db.UpdateSettings(a, id, plan.edited, plan.retargets);
    r := if applied then Edited else EditRaced;
  }

  /** Removal: the row goes away only while no deploy runs, and a row that names
      cloud resources is the one handed to teardown. */
  method DeletePage(db: PageDatabase, ghost a: ActorId, id: PageId) returns (torn: Option<Page>, ok: bool)
    requires db.Valid() && a !in db.world.actors
    modifies db`pages, db`world, db`trace
    ensures old(db.CalmSoFar()) ==> db.CalmSoFar()
    ensures db.Valid() && db.world.actors == old(db.world.actors)
    ensures ok <==> NotDeploying(old(db.pages), id)
    ensures db.pages == if ok then old(db.pages) - {id} else old(db.pages)
    ensures torn.Some? <==>
              && ok
              && var page := old(db.pages)[id];
                if page.provider.AwsCloudFront? then BucketName in page.runtime || DistributionID in page.runtime
                else CFProjectID in page.runtime
    ensures torn.Some? ==> torn.value == old(db.pages)[id]
  {
    hide Exec, Step;
    torn := None;
    ok := db.LoadForDelete(a, id);
    if ok {
      var deleted := db.DeleteIfNotDeploying(a, id);
      torn := if CloudProvisioned(deleted.value) then deleted else None;
    }
  }
}
