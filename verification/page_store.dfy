/** The page tables as the services see them: one object whose methods are the
    store's conditional writes. Each write takes the matching step of the
    interleaving model, so the object's history is a run of that model. */
module PageStore {
  import opened Options
  import opened PageRows
  import opened PageProtocol
  import opened PageExclusive

  const STALE_SECONDS := 40 * 60
  const LIST_LIMIT := 1000

  /** What a successful sync of a row uploads. */
  function Produced(row: Deployment, snap: Page, tag: nat): Content {
    if snap.buildEnabled then Built(tag) else Files(row.commitSHA, row.publishPath)
  }

  class PageDatabase {
    var pages: Pages
    var deps: Deployments
    var sent: set<DepId>
    var origin: map<Target, Content>
    ghost var world: World
    ghost var trace: seq<Label>

    /** The tables are what the recorded run of the model makes of an empty database. */
    ghost predicate Valid()
      reads this
    {
      && world == Exec(EMPTY, trace)
      && world.pages == pages
      && world.deps == deps
      && world.sent == sent
      && world.origin == origin
    }

    constructor ()
      ensures Valid() && trace == [] && pages == map[] && deps == []
    {
      pages, deps, sent, origin := map[], [], {}, map[];
      world, trace := EMPTY, [];
    }

    /** The recorded run has met the three hypotheses. */
    ghost predicate CalmSoFar()
      reads this`trace
    {
      Calm(EMPTY, trace)
    }

    /** Moves the model along; the caller makes the tables follow. */
    ghost method Take(l: Label)
      requires world == Exec(EMPTY, trace)
      modifies this`world, this`trace
      ensures world == Step(old(world), l) && world == Exec(EMPTY, trace) && trace == old(trace) + [l]
      ensures CalmSoFar() <==> old(CalmSoFar()) && Allowed(old(world), l)
    {
      hide Step, Allowed;
      ExecSnoc(EMPTY, trace, l);
      CalmSnoc(EMPTY, trace, l);
      world := Step(world, l);
      trace := trace + [l];
    }

    /** So what holds of every calm run holds of the tables. */
    lemma Safe()
      requires Valid() && CalmSoFar()
      ensures Exclusive(world) && TargetIsolated(world) && RuntimeKept(world)
    {
      PagesAreSafe(trace, |trace|);
      assert trace[..|trace|] == trace;
    }

    /** No run of the deployment is under way. */
    ghost predicate NobodyRuns(d: DepId)
      reads this`world
    {
      forall b :: b in world.actors ==> !WorksOn(world.actors[b], d)
    }

    /** No run at all is under way. */
    ghost predicate Quiet()
      reads this`world
    {
      forall b :: b in world.actors ==> !world.actors[b].RunFresh? && !world.actors[b].Run?
    }

    /** No settings request on the page is under way. */
    ghost predicate NobodyEdits(p: PageId)
      reads this`world
    {
      forall b :: b in world.actors ==> !(world.actors[b].EditLoaded? && world.actors[b].page == p)
    }

    // --------------------------------------------------------------- page rows

    /** GetByID for a trigger: leaves with the row unless the trigger is refused. */
    method LoadForTrigger(ghost a: ActorId, id: PageId) returns (prev: Option<PageStatus>)
      requires Valid() && a !in world.actors
      modifies this`world, this`trace
      ensures CalmSoFar() <==> old(CalmSoFar())
      ensures Valid()
      ensures prev.Some? <==> NotDeploying(pages, id) && pages[id].cloudAccount.Some?
      ensures prev.Some? ==>
                prev.value == pages[id].status && world.actors == old(world.actors)[a := TrigLoaded(id, prev.value)]
      ensures prev.None? ==> world.actors == old(world.actors)
    {
      hide Exec, Calm;
      prev := None;
      if id in pages && pages[id].status != Deploying && pages[id].cloudAccount.Some? {
        prev := Some(pages[id].status);
      }
      Take(TriggerLoad(a, id));
    }

    /** A compare-and-set: only the caller that leaves a non-deploying status wins. */
    method TryMarkDeploying(ghost a: ActorId, id: PageId, ghost prev: PageStatus) returns (won: bool)
      requires Valid() && a in world.actors && world.actors[a] == TrigLoaded(id, prev)
      modifies this`pages, this`world, this`trace
      ensures CalmSoFar() <==> old(CalmSoFar())
      ensures Valid()
      ensures won <==> NotDeploying(old(pages), id)
      ensures pages == if won then WithStatus(old(pages), id, Deploying) else old(pages)
      ensures world.actors == if won then old(world.actors)[a := TrigMarked(id, prev)] else old(world.actors) - {a}
    {
      hide Exec, Calm;
      won := id in pages && pages[id].status != Deploying;
      if won {
        pages := pages[id := pages[id].(status := Deploying)];
      }
      Take(TriggerMark(a));
    }

    /** Puts the status a trigger found back. */
    method RestoreStatus(ghost a: ActorId, id: PageId, prev: PageStatus, ok: bool)
      requires Valid() && a in world.actors && world.actors[a] == TrigRestore(id, prev)
      modifies this`pages, this`world, this`trace
      ensures CalmSoFar() <==> old(CalmSoFar())
      ensures Valid() && world.actors == old(world.actors) - {a}
      ensures pages == if ok then WithStatus(old(pages), id, prev) else old(pages)
    {
      hide Exec, Calm;
      if ok && id in pages {
        pages := pages[id := pages[id].(status := prev)];
      }
      Take(TriggerRestore(a, ok));
    }

    /** GetByID for a settings request, which plans its change on the copy read. */
    method LoadForEdit(ghost a: ActorId, id: PageId, patch: Patch) returns (plan: EditPlan)
      requires Valid() && a !in world.actors
      modifies this`world, this`trace
      ensures CalmSoFar() <==> old(CalmSoFar()) && old(NobodyEdits(id))
      ensures Valid()
      ensures plan == if id in pages then PlanEdit(pages[id], patch) else Refused
      ensures plan.Plan? ==>
                world.actors == old(world.actors)[a := EditLoaded(id, pages[id], plan.edited, plan.retargets)]
      ensures plan.Refused? ==> world.actors == old(world.actors)
    {
      hide Exec, Calm;
      plan := if id in pages then PlanEdit(pages[id], patch) else Refused;
      Take(EditLoad(a, id, patch));
    }

    /** Settings columns only. The guarded form refuses while a deploy runs; the
        plain form writes whatever the status is. */
    method UpdateSettings(ghost a: ActorId, id: PageId, edited: Page, guarded: bool) returns (applied: bool)
      requires Valid() && a in world.actors && world.actors[a].EditLoaded?
      requires world.actors[a].page == id && world.actors[a].edited == edited && world.actors[a].retargets == guarded
      modifies this`pages, this`world, this`trace
      ensures CalmSoFar() <==> old(CalmSoFar())
      ensures Valid() && world.actors == old(world.actors) - {a}
      ensures applied <==> id in old(pages) && (guarded ==> old(pages)[id].status != Deploying)
      ensures pages == if applied then WithSettings(old(pages), id, edited) else old(pages)
    {
      hide Exec, Calm;
      applied := id in pages && !(guarded && pages[id].status == Deploying);
      if applied {
        pages := pages[id := Settled(pages[id], edited)];
      }
      Take(EditWrite(a));
    }

    /** GetByID for a delete. */
    method LoadForDelete(ghost a: ActorId, id: PageId) returns (ok: bool)
      requires Valid() && a !in world.actors
      modifies this`world, this`trace
      ensures CalmSoFar() <==> old(CalmSoFar())
      ensures Valid() && (ok <==> NotDeploying(pages, id))
      ensures world.actors == if ok then old(world.actors)[a := DeleteLoaded(id)] else old(world.actors)
    {
      hide Exec, Calm;
      ok := id in pages && pages[id].status != Deploying;
      Take(DeleteLoad(a, id));
    }

    /** Removes the row unless a deploy runs, and hands the removed row back. */
    method DeleteIfNotDeploying(ghost a: ActorId, id: PageId) returns (deleted: Option<Page>)
      requires Valid() && a in world.actors && world.actors[a] == DeleteLoaded(id)
      modifies this`pages, this`world, this`trace
      ensures CalmSoFar() <==> old(CalmSoFar())
      ensures Valid() && world.actors == old(world.actors) - {a}
      ensures deleted.Some? <==> NotDeploying(old(pages), id)
      ensures deleted.Some? ==> deleted.value == old(pages)[id] && pages == old(pages) - {id}
      ensures deleted.Some? && CloudProvisioned(deleted.value) ==> id in world.torn && world.torn[id] == deleted.value
      ensures deleted.None? ==> pages == old(pages)
    {
      hide Exec, Calm;
      deleted := None;
      if id in pages && pages[id].status != Deploying {
        deleted := Some(pages[id]);
        pages := pages - {id};
      }
      Take(DeleteRow(a));
    }

    // --------------------------------------------------------- deployment rows

    method CreateDeployment(ghost a: ActorId, id: PageId, ghost prev: PageStatus, now: int, ok: bool)
      requires Valid() && a in world.actors && world.actors[a] == TrigMarked(id, prev)
      modifies this`deps, this`world, this`trace
      ensures CalmSoFar() <==> old(CalmSoFar())
      ensures Valid()
      ensures deps == if ok then old(deps) + [QueuedRow(id, now)] else old(deps)
      ensures world.actors ==
              old(world.actors)[a := if ok then TrigCreated(id, prev, |old(deps)|) else TrigRestore(id, prev)]
    {
      hide Exec, Calm;
      if ok {
        deps := deps + [QueuedRow(id, now)];
      }
      Take(TriggerCreate(a, now, ok));
    }

    method Enqueue(ghost a: ActorId, ghost id: PageId, ghost prev: PageStatus, d: DepId, ok: bool)
      requires Valid() && a in world.actors && world.actors[a] == TrigCreated(id, prev, d)
      modifies this`sent, this`world, this`trace
      ensures CalmSoFar() <==> old(CalmSoFar())
      ensures Valid() && sent == if ok then old(sent) + {d} else old(sent)
      ensures world.actors == if ok then old(world.actors) - {a} else old(world.actors)[a := TrigUnsent(id, prev, d)]
    {
      hide Exec, Calm;
      if ok {
        sent := sent + {d};
      }
      Take(TriggerEnqueue(a, ok));
    }

    /** Records that a deployment's job was never sent. */
    method FailUnsent(ghost a: ActorId, ghost id: PageId, ghost prev: PageStatus, d: DepId, now: int, ok: bool)
      requires Valid() && a in world.actors && world.actors[a] == TrigUnsent(id, prev, d) && d < |deps|
      modifies this`deps, this`world, this`trace
      ensures CalmSoFar() <==> old(CalmSoFar()) && ok
      ensures Valid() && world.actors == old(world.actors)[a := TrigRestore(id, prev)]
      ensures deps == if ok then old(deps)[d := AsFailed(old(deps)[d], now)] else old(deps)
    {
      hide Exec, Calm;
      if ok {
        deps := deps[d := AsFailed(deps[d], now)];
      }
      Take(TriggerFailRow(a, now, ok));
    }

    /** Fails a deployment row only while it is still running. */
    method MarkTimedOut(ghost a: ActorId, id: DepId, now: int) returns (marked: bool)
      requires Valid() && a !in world.actors
      modifies this`deps, this`world, this`trace
      ensures CalmSoFar() <==> old(CalmSoFar()) && old(NobodyRuns(id))
      ensures Valid()
      ensures marked <==> StillRunning(old(deps), id)
      ensures deps == if marked then old(deps)[id := AsFailed(old(deps)[id], now)] else old(deps)
      ensures world.actors ==
                if marked then old(world.actors)[a := StaleMarked(old(deps)[id].page)] else old(world.actors)
    {
      hide Exec, Calm;
      marked := id < |deps| && deps[id].status == Running;
      if marked {
        deps := deps[id := AsFailed(deps[id], now)];
      }
      Take(StaleMark(a, id, now));
    }

    /** The page status write that follows, needing no read of its own. */
    method ReleaseTimedOut(ghost a: ActorId, id: PageId, ok: bool)
      requires Valid() && a in world.actors && world.actors[a] == StaleMarked(id)
      modifies this`pages, this`world, this`trace
      ensures CalmSoFar() <==> old(CalmSoFar())
      ensures Valid() && world.actors == old(world.actors) - {a}
      ensures pages == if ok then WithStatus(old(pages), id, Errored) else old(pages)
    {
      hide Exec, Calm;
      if ok && id in pages {
        pages := pages[id := pages[id].(status := Errored)];
      }
      Take(StaleClose(a, ok));
    }

    // ---------------------------------------------------------- a run's writes

    /** GetByID of the deployment, refused when it is missing or finished. */
    method LoadDeployment(ghost a: ActorId, d: DepId) returns (row: Option<Deployment>)
      requires Valid() && a !in world.actors && d in sent
      modifies this`world, this`trace
      ensures CalmSoFar() <==> old(CalmSoFar()) && old(NobodyRuns(d))
      ensures Valid()
      ensures row == if d < |deps| && !IsTerminal(deps[d].status) then Some(deps[d]) else None
      ensures world.actors == if row.Some? then old(world.actors)[a := RunFresh(d, row.value)] else old(world.actors)
    {
      hide Exec, Calm;
      row := if d < |deps| && !IsTerminal(deps[d].status) then Some(deps[d]) else None;
      Take(RunLoad(a, d));
    }

    /** GetByID of its page. */
    method LoadRunPage(ghost a: ActorId, ghost d: DepId, row: Deployment) returns (snap: Option<Page>)
      requires Valid() && a in world.actors && world.actors[a] == RunFresh(d, row)
      modifies this`world, this`trace
      ensures CalmSoFar() <==> old(CalmSoFar())
      ensures Valid()
      ensures snap == if row.page in pages then Some(pages[row.page]) else None
      ensures snap.Some? ==> world.actors == old(world.actors)[a := Run(d, row, snap.value, LoadedPage)]
      ensures snap.None? ==> world.actors == old(world.actors) - {a}
    {
      hide Exec, Calm;
      snap := if row.page in pages then Some(pages[row.page]) else None;
      Take(RunLoadPage(a));
    }

    ghost predicate At(a: ActorId, d: DepId, row: Deployment, snap: Page, phase: Phase)
      reads this`world
    {
      a in world.actors && world.actors[a] == Run(d, row, snap, phase)
    }

    method MarkRow(ghost a: ActorId, d: DepId, row: Deployment, ghost snap: Page, now: int, ok: bool)
      returns (row': Deployment)
      requires Valid() && At(a, d, row, snap, LoadedPage) && d < |deps|
      modifies this`deps, this`world, this`trace
      ensures CalmSoFar() <==> old(CalmSoFar()) && ok
      ensures Valid() && row' == row.(status := Running, startedAt := Some(now))
      ensures deps == if ok then old(deps)[d := row'] else old(deps)
      ensures world.actors == old(world.actors)[a := Run(d, row', snap, MarkedRow)]
    {
      hide Exec, Calm;
      row' := row.(status := Running, startedAt := Some(now));
      if ok {
        deps := deps[d := row'];
      }
      Take(RunMarkRow(a, now, ok));
    }

    /** setPageStatus at the start of a run: no write when the copy already says so. */
    method MarkPage(ghost a: ActorId, ghost d: DepId, ghost row: Deployment, snap: Page, id: PageId, ok: bool)
      returns (snap': Page)
      requires Valid() && At(a, d, row, snap, MarkedRow) && id == row.page
      modifies this`pages, this`world, this`trace
      ensures CalmSoFar() <==> old(CalmSoFar())
      ensures Valid() && snap' == snap.(status := Deploying)
      ensures pages == if ok && snap.status != Deploying then WithStatus(old(pages), id, Deploying) else old(pages)
      ensures world.actors == old(world.actors)[a := Run(d, row, snap', Preparing)]
    {
      hide Exec, Calm;
      if ok && snap.status != Deploying && id in pages {
        pages := pages[id := pages[id].(status := Deploying)];
      }
      snap' := snap.(status := Deploying);
      Take(RunMarkPage(a, ok));
    }

    method RecordInputs(ghost a: ActorId, d: DepId, row: Deployment, ghost snap: Page, commit: string, path: string,
                        ok: bool)
      returns (row': Deployment)
      requires Valid() && At(a, d, row, snap, Preparing) && d < |deps|
      modifies this`deps, this`world, this`trace
      ensures CalmSoFar() <==> old(CalmSoFar()) && ok
      ensures Valid() && row' == row.(commitSHA := commit, publishPath := path)
      ensures deps == if ok then old(deps)[d := row'] else old(deps)
      ensures world.actors == old(world.actors)[a := Run(d, row', snap, Prepared)]
    {
      hide Exec, Calm;
      row' := row.(commitSHA := commit, publishPath := path);
      if ok {
        deps := deps[d := row'];
      }
      Take(RunPrepare(a, commit, path, ok));
    }

    /** The dedup decision: the reference to reuse, or none when the cloud phase must run. */
    method Dedup(ghost a: ActorId, ghost d: DepId, row: Deployment, snap: Page, found: bool)
      returns (ref: Option<string>)
      requires Valid() && At(a, d, row, snap, Prepared)
      modifies this`world, this`trace
      ensures CalmSoFar() <==> old(CalmSoFar())
      ensures Valid()
      ensures ref.Some? <==> !snap.buildEnabled && row.commitSHA != "" && found && DedupMatches(world, row)
      ensures ref.Some? ==> ref.value == deps[LatestSuccess(deps, row.page).value].providerRef
      ensures world.actors ==
                old(world.actors)[a := Run(d, row, snap, if ref.Some? then Skipping(ref.value) else Cloud)]
    {
      hide Exec, Calm;
      ref := None;
      if !snap.buildEnabled && row.commitSHA != "" && found {
        var last := GetLatestSuccess(row.page);
        if last.Some? && deps[last.value].commitSHA == row.commitSHA
           && deps[last.value].publishPath == row.publishPath {
          ref := Some(deps[last.value].providerRef);
        }
      }
      Take(RunLookup(a, found));
    }

    /** One incremental save; the run's own copy carries it whether or not it was stored. */
    method SaveRuntime(ghost a: ActorId, ghost d: DepId, ghost row: Deployment, snap: Page, id: PageId,
                       save: (RuntimeField, string, bool))
      returns (snap': Page)
      requires Valid() && At(a, d, row, snap, Cloud) && id == row.page
      modifies this`pages, this`world, this`trace
      ensures CalmSoFar() <==> old(CalmSoFar())
      ensures Valid() && snap' == snap.(runtime := snap.runtime[save.0 := save.1])
      ensures pages == if save.2 then WithRuntime(old(pages), id, snap'.runtime) else old(pages)
      ensures world.actors == old(world.actors)[a := Run(d, row, snap', if save.2 then Cloud else Doomed)]
    {
      hide Exec, Calm;
      snap' := snap.(runtime := snap.runtime[save.0 := save.1]);
      if save.2 && id in pages {
        pages := pages[id := pages[id].(runtime := snap'.runtime)];
      }
      Take(RunSave(a, save.0, save.1, save.2));
    }

    /** The provider's deploy call, and what it leaves on the origin. */
    method Sync(ghost a: ActorId, ghost d: DepId, row: Deployment, snap: Page, tag: nat, result: SyncResult)
      requires Valid() && At(a, d, row, snap, Cloud)
      modifies this`origin, this`world, this`trace
      ensures CalmSoFar() <==> old(CalmSoFar())
      ensures Valid()
      ensures result.SyncOk? ==> origin == old(origin)[TargetOf(row.page, snap) := Produced(row, snap, tag)]
      ensures result.SyncFailed? ==>
                origin == if result.touched then old(origin)[TargetOf(row.page, snap) := Mixed] else old(origin)
      ensures world.actors ==
              old(world.actors)[a := Run(d, row, snap, if result.SyncOk? then Synced(result.ref) else Doomed)]
    {
      hide Exec, Calm;
      var t := TargetOf(row.page, snap);
      if result.SyncOk? {
        origin := origin[t := Produced(row, snap, tag)];
      } else if result.touched {
        origin := origin[t := Mixed];
      }
      Take(RunSync(a, tag, result));
    }

    method RecordFailure(ghost a: ActorId, d: DepId, row: Deployment, ghost snap: Page, ghost phase: Phase, now: int,
                         ok: bool)
      requires Valid() && At(a, d, row, snap, phase) && phase in {Preparing, Prepared, Cloud, Doomed} && d < |deps|
      modifies this`deps, this`world, this`trace
      ensures CalmSoFar() <==> old(CalmSoFar()) && ok
      ensures Valid() && world.actors == old(world.actors)[a := RunClosing(row.page, snap, Errored)]
      ensures deps == if ok then old(deps)[d := AsFailed(row, now)] else old(deps)
    {
      hide Exec, Calm;
      if ok {
        deps := deps[d := AsFailed(row, now)];
      }
      Take(RunFail(a, now, ok));
    }

    method RecordSuccess(ghost a: ActorId, d: DepId, row: Deployment, ghost snap: Page, ghost phase: Phase, ref: string,
                         now: int, ok: bool)
      requires Valid() && At(a, d, row, snap, phase) && phase in {Skipping(ref), Synced(ref)} && d < |deps|
      modifies this`deps, this`world, this`trace
      ensures CalmSoFar() <==> old(CalmSoFar()) && ok
      ensures Valid() && world.actors == old(world.actors)[a := RunClosing(row.page, snap, Live)]
      ensures deps == if ok then old(deps)[d := Succeeded(row, ref, now)] else old(deps)
    {
      hide Exec, Calm;
      if ok {
        deps := deps[d := Succeeded(row, ref, now)];
      }
      Take(RunSucceed(a, now, ok));
    }

    /** setPageStatus at the end of a run. */
    method ClosePage(ghost a: ActorId, id: PageId, snap: Page, outcome: PageStatus, ok: bool)
      requires Valid() && a in world.actors && world.actors[a] == RunClosing(id, snap, outcome)
      modifies this`pages, this`world, this`trace
      ensures CalmSoFar() <==> old(CalmSoFar())
      ensures Valid() && world.actors == old(world.actors) - {a}
      ensures pages == if ok && snap.status != outcome then WithStatus(old(pages), id, outcome) else old(pages)
    {
      hide Exec, Calm;
      if ok && snap.status != outcome && id in pages {
        pages := pages[id := pages[id].(status := outcome)];
      }
      Take(RunClose(a, ok));
    }

    // -------------------------------------------------------------------- reads

    /** Running rows, newest first, at most the sweep's list limit. */
    method ListRunning() returns (ids: seq<DepId>)
      ensures |ids| <= 1000
      ensures forall i | 0 <= i < |ids| :: StillRunning(deps, ids[i])
      ensures forall i, j | 0 <= i < j < |ids| :: ids[i] > ids[j]
      ensures forall d | StillRunning(deps, d) && d !in ids ::
                |ids| == 1000 && forall i | 0 <= i < |ids| :: ids[i] > d
    {
      ids := [];
      var n := |deps|;
      while n > 0 && |ids| < LIST_LIMIT
        invariant 0 <= n <= |deps| && |ids| <= LIST_LIMIT
        invariant forall i | 0 <= i < |ids| :: n <= ids[i] && StillRunning(deps, ids[i])
        invariant forall i, j | 0 <= i < j < |ids| :: ids[i] > ids[j]
        invariant forall d | n <= d && StillRunning(deps, d) :: d in ids
      {
        n := n - 1;
        if deps[n].status == Running {
          ids := ids + [n];
        }
      }
    }

    /** The newest success of a page, newest row first. */
    method GetLatestSuccess(page: PageId) returns (r: Option<DepId>)
      ensures r == LatestSuccess(deps, page)
    {
      var n := |deps|;
      assert deps[..n] == deps;
      while n > 0
        invariant 0 <= n <= |deps|
        invariant LatestSuccess(deps, page) == LatestSuccess(deps[..n], page)
      {
        assert deps[..n][..n - 1] == deps[..n - 1];
        if deps[n - 1].page == page && deps[n - 1].status == Success {
          return Some(n - 1);
        }
        n := n - 1;
      }
      return None;
    }
  }
}
