/** Every way a page's rows change, as a step machine: HTTP triggers, queue
    workers that may crash and be redelivered, the stale sweep, settings edits
    and deletes, each one store call per step and free to interleave. */
module PageProtocol {
  import opened Options
  import opened PageRows

  type ActorId = nat

  /** Where a page's files live: the page together with its account and region. */
  datatype Target = Target(page: PageId, account: Option<nat>, region: string)

  /** What an origin holds: the files of a commit's folder, the output of a
      build, or the remains of a sync that stopped half way. */
  datatype Content = Files(commit: string, path: string) | Built(tag: nat) | Mixed

  datatype Phase =
    | LoadedPage              // both rows read, nothing written yet
    | MarkedRow               // deployment row written as running
    | Preparing               // page status settled, files being produced
    | Prepared                // commit and path recorded on the row
    | Cloud                   // provisioning and syncing
    | Doomed                  // a provider call failed; only `fail` is left
    | Skipping(ref: string)   // dedup matched
    | Synced(ref: string)     // provider deploy returned

  /** One in-flight request or job: its program counter and its local snapshot. */
  datatype Actor =
    | TrigLoaded(page: PageId, prev: PageStatus)
    | TrigMarked(page: PageId, prev: PageStatus)
    | TrigCreated(page: PageId, prev: PageStatus, dep: DepId)
    | TrigUnsent(page: PageId, prev: PageStatus, dep: DepId)
    | TrigRestore(page: PageId, prev: PageStatus)
    | RunFresh(dep: DepId, row: Deployment)
    | Run(dep: DepId, row: Deployment, snap: Page, phase: Phase)
    | RunClosing(page: PageId, snap: Page, outcome: PageStatus)
    | StaleMarked(page: PageId)
    | EditLoaded(page: PageId, loaded: Page, edited: Page, retargets: bool)
    | DeleteLoaded(page: PageId)

  /** `saved`, `torn` and `untold` are history: no step's guard reads them.
      `saved` accumulates the runtime identifiers persisted so far, `torn` the
      deleted rows handed to teardown, and `untold` what the last sync wrote when
      no recorded success tells: because its success is not recorded yet, or
      because it was a build, which the row does not say. */
  datatype World = World(
    pages: Pages,
    gone: set<PageId>,
    deps: Deployments,
    sent: set<DepId>,
    actors: map<ActorId, Actor>,
    origin: map<Target, Content>,
    saved: map<PageId, Runtime>,
    torn: map<PageId, Page>,
    untold: map<PageId, Content>)

  datatype SyncResult = SyncOk(ref: string) | SyncFailed(touched: bool)

  datatype Label =
    | CreatePage(p: PageId, page: Page)
    | TriggerLoad(a: ActorId, p: PageId)
    | TriggerMark(a: ActorId)
    | TriggerCreate(a: ActorId, now: int, ok: bool)
    | TriggerEnqueue(a: ActorId, ok: bool)
    | TriggerFailRow(a: ActorId, now: int, ok: bool)
    | TriggerRestore(a: ActorId, ok: bool)
    | RunLoad(a: ActorId, d: DepId)
    | RunLoadPage(a: ActorId)
    | RunMarkRow(a: ActorId, now: int, ok: bool)
    | RunMarkPage(a: ActorId, ok: bool)
    | RunPrepare(a: ActorId, commit: string, path: string, ok: bool)
    | RunLookup(a: ActorId, found: bool)
    | RunSave(a: ActorId, field: RuntimeField, id: string, ok: bool)
    | RunSync(a: ActorId, tag: nat, result: SyncResult)
    | RunFail(a: ActorId, now: int, ok: bool)
    | RunSucceed(a: ActorId, now: int, ok: bool)
    | RunClose(a: ActorId, ok: bool)
    | StaleMark(a: ActorId, d: DepId, now: int)
    | StaleClose(a: ActorId, ok: bool)
    | EditLoad(a: ActorId, p: PageId, patch: Patch)
    | EditWrite(a: ActorId)
    | DeleteLoad(a: ActorId, p: PageId)
    | DeleteRow(a: ActorId)
    | Crash(a: ActorId)

  // ------------------------------------------------------------------ helpers

  function Goto(w: World, a: ActorId, pc: Actor): World {
    w.(actors := w.actors[a := pc])
  }

  function Done(w: World, a: ActorId): World {
    w.(actors := w.actors - {a})
  }

  /** A full-row deployment write; a failed one leaves the table alone. */
  function PutRow(w: World, d: DepId, row: Deployment, ok: bool): World {
    if ok && d < |w.deps| then w.(deps := w.deps[d := row]) else w
  }

  function SetStatus(w: World, p: PageId, status: PageStatus, ok: bool): World {
    if ok then w.(pages := WithStatus(w.pages, p, status)) else w
  }

  function TargetOf(p: PageId, page: Page): Target {
    Target(p, page.cloudAccount, page.region)
  }

  predicate In(w: World, a: ActorId) {
    a in w.actors
  }

  // -------------------------------------------------------------------- steps
  // A label that is not enabled leaves the world as it is.

  function StepCreatePage(w: World, p: PageId, page: Page): World {
    if p in w.pages || p in w.gone || page.status != Idle || page.runtime != map[] then w
    else w.(pages := w.pages[p := page], saved := w.saved[p := map[]])
  }

  function StepTriggerLoad(w: World, a: ActorId, p: PageId): World {
    if In(w, a) || p !in w.pages || w.pages[p].status == Deploying || w.pages[p].cloudAccount.None? then w
    else Goto(w, a, TrigLoaded(p, w.pages[p].status))
  }

  function StepTriggerMark(w: World, a: ActorId): World {
    if !In(w, a) || !w.actors[a].TrigLoaded? then w
    else
      var TrigLoaded(p, prev) := w.actors[a];
      if NotDeploying(w.pages, p) then Goto(SetStatus(w, p, Deploying, true), a, TrigMarked(p, prev))
      else Done(w, a)
  }

  function StepTriggerCreate(w: World, a: ActorId, now: int, ok: bool): World {
    if !In(w, a) || !w.actors[a].TrigMarked? then w
    else
      var TrigMarked(p, prev) := w.actors[a];
      if ok then
        Goto(w.(deps := w.deps + [QueuedRow(p, now)]), a, TrigCreated(p, prev, |w.deps|))
      else Goto(w, a, TrigRestore(p, prev))
  }

  /** A failed enqueue sends nothing. */
  function StepTriggerEnqueue(w: World, a: ActorId, ok: bool): World {
    if !In(w, a) || !w.actors[a].TrigCreated? then w
    else
      var TrigCreated(p, prev, d) := w.actors[a];
      if ok then Done(w.(sent := w.sent + {d}), a) else Goto(w, a, TrigUnsent(p, prev, d))
  }

  function StepTriggerFailRow(w: World, a: ActorId, now: int, ok: bool): World {
    if !In(w, a) || !w.actors[a].TrigUnsent? then w
    else
      var TrigUnsent(p, prev, d) := w.actors[a];
      if d >= |w.deps| then w
      else Goto(PutRow(w, d, AsFailed(w.deps[d], now), ok), a, TrigRestore(p, prev))
  }

  function StepTriggerRestore(w: World, a: ActorId, ok: bool): World {
    if !In(w, a) || !w.actors[a].TrigRestore? then w
    else Done(SetStatus(w, w.actors[a].page, w.actors[a].prev, ok), a)
  }

  /** The queue delivers at least once: any message ever sent can start a run. */
  function StepRunLoad(w: World, a: ActorId, d: DepId): World {
    if In(w, a) || d !in w.sent || d >= |w.deps| || IsTerminal(w.deps[d].status) then w
    else Goto(w, a, RunFresh(d, w.deps[d]))
  }

  function StepRunLoadPage(w: World, a: ActorId): World {
    if !In(w, a) || !w.actors[a].RunFresh? then w
    else
      var RunFresh(d, row) := w.actors[a];
      if row.page in w.pages then Goto(w, a, Run(d, row, w.pages[row.page], LoadedPage)) else Done(w, a)
  }

  function StepRunMarkRow(w: World, a: ActorId, now: int, ok: bool): World {
    if !In(w, a) || !w.actors[a].Run? || w.actors[a].phase != LoadedPage then w
    else
      var Run(d, row, snap, _) := w.actors[a];
      var row := row.(status := Running, startedAt := Some(now));
      Goto(PutRow(w, d, row, ok), a, Run(d, row, snap, MarkedRow))
  }

  /** The status write is skipped when the snapshot already says deploying. */
  function StepRunMarkPage(w: World, a: ActorId, ok: bool): World {
    if !In(w, a) || !w.actors[a].Run? || w.actors[a].phase != MarkedRow then w
    else
      var Run(d, row, snap, _) := w.actors[a];
      var w' := if snap.status == Deploying then w else SetStatus(w, row.page, Deploying, ok);
      Goto(w', a, Run(d, row, snap.(status := Deploying), Preparing))
  }

  function StepRunPrepare(w: World, a: ActorId, commit: string, path: string, ok: bool): World {
    if !In(w, a) || !w.actors[a].Run? || w.actors[a].phase != Preparing then w
    else
      var Run(d, row, snap, _) := w.actors[a];
      var row := row.(commitSHA := commit, publishPath := path);
      Goto(PutRow(w, d, row, ok), a, Run(d, row, snap, Prepared))
  }

  /** The success the lookup would return makes a sync unnecessary. */
  predicate DedupMatches(w: World, row: Deployment) {
    var last := LatestSuccess(w.deps, row.page);
    last.Some? && w.deps[last.value].commitSHA == row.commitSHA && w.deps[last.value].publishPath == row.publishPath
  }

  /** `found` false is a lookup that returned an error. */
  function StepRunLookup(w: World, a: ActorId, found: bool): World {
    if !In(w, a) || !w.actors[a].Run? || w.actors[a].phase != Prepared then w
    else
      var Run(d, row, snap, _) := w.actors[a];
      if !snap.buildEnabled && row.commitSHA != "" && found && DedupMatches(w, row) then
        Goto(w, a, Run(d, row, snap, Skipping(w.deps[LatestSuccess(w.deps, row.page).value].providerRef)))
      else Goto(w, a, Run(d, row, snap, Cloud))
  }

  /** One incremental save of the runtime column, carrying the run's own copy. */
  function StepRunSave(w: World, a: ActorId, field: RuntimeField, id: string, ok: bool): World {
    if !In(w, a) || !w.actors[a].Run? || w.actors[a].phase != Cloud then w
    else
      var Run(d, row, snap, _) := w.actors[a];
      var p := row.page;
      var snap := snap.(runtime := snap.runtime[field := id]);
      if !ok then Goto(w, a, Run(d, row, snap, Doomed))
      else
        var history := if p in w.saved then w.saved[p := w.saved[p][field := id]] else w.saved;
        Goto(w.(pages := WithRuntime(w.pages, p, snap.runtime), saved := history), a, Run(d, row, snap, Cloud))
  }

  function StepRunSync(w: World, a: ActorId, tag: nat, result: SyncResult): World {
    if !In(w, a) || !w.actors[a].Run? || w.actors[a].phase != Cloud then w
    else
      var Run(d, row, snap, _) := w.actors[a];
      var t := TargetOf(row.page, snap);
      match result
      case SyncOk(ref) =>
        var content := if snap.buildEnabled then Built(tag) else Files(row.commitSHA, row.publishPath);
        Goto(w.(origin := w.origin[t := content], untold := w.untold[row.page := content]),
             a, Run(d, row, snap, Synced(ref)))
      case SyncFailed(touched) =>
        var w' := if touched then w.(origin := w.origin[t := Mixed], untold := w.untold[row.page := Mixed]) else w;
        Goto(w', a, Run(d, row, snap, Doomed))
  }

  /** `fail` is reachable from every phase between the first row write and an outcome. */
  function StepRunFail(w: World, a: ActorId, now: int, ok: bool): World {
    if !In(w, a) || !w.actors[a].Run? || w.actors[a].phase !in {Preparing, Prepared, Cloud, Doomed} then w
    else
      var Run(d, row, snap, _) := w.actors[a];
      Goto(PutRow(w, d, AsFailed(row, now), ok), a, RunClosing(row.page, snap, Errored))
  }

  function Succeeded(row: Deployment, ref: string, now: int): Deployment {
    row.(status := Success, providerRef := ref, finishedAt := Some(now))
  }

  function StepRunSucceed(w: World, a: ActorId, now: int, ok: bool): World {
    if !In(w, a) || !w.actors[a].Run? || !(w.actors[a].phase.Skipping? || w.actors[a].phase.Synced?) then w
    else
      var Run(d, row, snap, phase) := w.actors[a];
      var w' := PutRow(w, d, Succeeded(row, phase.ref, now), ok);
      var w' := if phase.Synced? && !snap.buildEnabled then w'.(untold := w'.untold - {row.page}) else w';
      Goto(w', a, RunClosing(row.page, snap, Live))
  }

  function StepRunClose(w: World, a: ActorId, ok: bool): World {
    if !In(w, a) || !w.actors[a].RunClosing? then w
    else
      var RunClosing(p, snap, outcome) := w.actors[a];
      Done(if snap.status == outcome then w else SetStatus(w, p, outcome, ok), a)
  }

  function StepStaleMark(w: World, a: ActorId, d: DepId, now: int): World {
    if In(w, a) || !StillRunning(w.deps, d) then w
    else Goto(PutRow(w, d, AsFailed(w.deps[d], now), true), a, StaleMarked(w.deps[d].page))
  }

  function StepStaleClose(w: World, a: ActorId, ok: bool): World {
    if !In(w, a) || !w.actors[a].StaleMarked? then w
    else Done(SetStatus(w, w.actors[a].page, Errored, ok), a)
  }

  function StepEditLoad(w: World, a: ActorId, p: PageId, patch: Patch): World {
    if In(w, a) || p !in w.pages || PlanEdit(w.pages[p], patch).Refused? then w
    else
      var Plan(edited, retargets) := PlanEdit(w.pages[p], patch);
      Goto(w, a, EditLoaded(p, w.pages[p], edited, retargets))
  }

  function StepEditWrite(w: World, a: ActorId): World {
    if !In(w, a) || !w.actors[a].EditLoaded? then w
    else
      var EditLoaded(p, _, edited, retargets) := w.actors[a];
      if retargets && !NotDeploying(w.pages, p) then Done(w, a)
      else Done(w.(pages := WithSettings(w.pages, p, edited)), a)
  }

  function StepDeleteLoad(w: World, a: ActorId, p: PageId): World {
    if In(w, a) || p !in w.pages || w.pages[p].status == Deploying then w
    else Goto(w, a, DeleteLoaded(p))
  }

  /** The deleted row goes to teardown when it names provisioned resources. */
  function StepDeleteRow(w: World, a: ActorId): World {
    if !In(w, a) || !w.actors[a].DeleteLoaded? then w
    else
      var p := w.actors[a].page;
      if !NotDeploying(w.pages, p) then Done(w, a)
      else
        var torn := if CloudProvisioned(w.pages[p]) then w.torn[p := w.pages[p]] else w.torn;
        Done(w.(pages := w.pages - {p}, gone := w.gone + {p}, torn := torn), a)
  }

  function Step(w: World, l: Label): World {
    match l
    case CreatePage(p, page) => StepCreatePage(w, p, page)
    case TriggerLoad(a, p) => StepTriggerLoad(w, a, p)
    case TriggerMark(a) => StepTriggerMark(w, a)
    case TriggerCreate(a, now, ok) => StepTriggerCreate(w, a, now, ok)
    case TriggerEnqueue(a, ok) => StepTriggerEnqueue(w, a, ok)
    case TriggerFailRow(a, now, ok) => StepTriggerFailRow(w, a, now, ok)
    case TriggerRestore(a, ok) => StepTriggerRestore(w, a, ok)
    case RunLoad(a, d) => StepRunLoad(w, a, d)
    case RunLoadPage(a) => StepRunLoadPage(w, a)
    case RunMarkRow(a, now, ok) => StepRunMarkRow(w, a, now, ok)
    case RunMarkPage(a, ok) => StepRunMarkPage(w, a, ok)
    case RunPrepare(a, commit, path, ok) => StepRunPrepare(w, a, commit, path, ok)
    case RunLookup(a, found) => StepRunLookup(w, a, found)
    case RunSave(a, field, id, ok) => StepRunSave(w, a, field, id, ok)
    case RunSync(a, tag, result) => StepRunSync(w, a, tag, result)
    case RunFail(a, now, ok) => StepRunFail(w, a, now, ok)
    case RunSucceed(a, now, ok) => StepRunSucceed(w, a, now, ok)
    case RunClose(a, ok) => StepRunClose(w, a, ok)
    case StaleMark(a, d, now) => StepStaleMark(w, a, d, now)
    case StaleClose(a, ok) => StepStaleClose(w, a, ok)
    case EditLoad(a, p, patch) => StepEditLoad(w, a, p, patch)
    case EditWrite(a) => StepEditWrite(w, a)
    case DeleteLoad(a, p) => StepDeleteLoad(w, a, p)
    case DeleteRow(a) => StepDeleteRow(w, a)
    case Crash(a) => Done(w, a)
  }

  function Exec(w: World, ls: seq<Label>): World
    decreases |ls|
  {
    if |ls| == 0 then w else Exec(Step(w, ls[0]), ls[1..])
  }

  lemma {:induction false} ExecSnoc(w: World, ls: seq<Label>, l: Label)
    ensures Exec(w, ls + [l]) == Step(Exec(w, ls), l)
    decreases |ls|
  {
    hide Step;
    if |ls| == 0 {
      assert (ls + [l])[1..] == [];
    } else {
      assert (ls + [l])[1..] == ls[1..] + [l];
      ExecSnoc(Step(w, ls[0]), ls[1..], l);
    }
  }

  const EMPTY: World := World(map[], {}, [], {}, map[], map[], map[], map[], map[])

  // --------------------------------------------------------------- hypotheses

  predicate WorksOn(pc: Actor, d: DepId) {
    (pc.RunFresh? || pc.Run?) && pc.dep == d
  }

  /** Deployment-row writes succeed. Page-status and runtime writes may fail. */
  predicate RowWriteOk(l: Label) {
    match l
    case TriggerFailRow(_, _, ok) => ok
    case RunMarkRow(_, _, ok) => ok
    case RunPrepare(_, _, _, ok) => ok
    case RunFail(_, _, ok) => ok
    case RunSucceed(_, _, ok) => ok
    case _ => true
  }

  /** No live run is overlapped by its own redelivery or by stale recovery. */
  predicate NoRunOverlap(w: World, l: Label) {
    match l
    case RunLoad(_, d) => forall b :: b in w.actors ==> !WorksOn(w.actors[b], d)
    case StaleMark(_, d, _) => forall b :: b in w.actors ==> !WorksOn(w.actors[b], d)
    case _ => true
  }

  /** Edits to one page do not overlap each other. */
  predicate NoEditOverlap(w: World, l: Label) {
    match l
    case EditLoad(_, p, _) => forall b :: b in w.actors ==> !(w.actors[b].EditLoaded? && w.actors[b].page == p)
    case _ => true
  }

  predicate Allowed(w: World, l: Label) {
    RowWriteOk(l) && NoRunOverlap(w, l) && NoEditOverlap(w, l)
  }

  /** Every step of the run meets the three hypotheses in the world it is taken in. */
  predicate Calm(w: World, ls: seq<Label>)
    decreases |ls|
  {
    |ls| > 0 ==> Allowed(w, ls[0]) && Calm(Step(w, ls[0]), ls[1..])
  }

  lemma {:induction false} CalmSnoc(w: World, ls: seq<Label>, l: Label)
    ensures Calm(w, ls + [l]) <==> Calm(w, ls) && Allowed(Exec(w, ls), l)
    decreases |ls|
  {
    hide Step, Allowed;
    if |ls| == 0 {
      assert [] + [l] == [l] && [l][1..] == [];
      assert Calm(Step(w, l), []);
    } else {
      assert (ls + [l])[1..] == ls[1..] + [l];
      CalmSnoc(Step(w, ls[0]), ls[1..], l);
    }
  }
}
