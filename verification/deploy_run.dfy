/** One run of an application deployment, from the queue message to its outcome.
    Time passes in ticks, one per call; the job's context ends at some tick, by
    a user's cancellation or by the time limit, and from then on every write
    made under it fails. Writes made outside it succeed, except those of a run
    already flagged for cancellation, which are made under the worker's own
    context. */
module DeployRun {
  import opened Options
  import opened DeployStates

  type DepId = nat

  datatype Source = FromGit | FromImage

  datatype App = App(status: AppStatus, image: string, source: Source, noCache: bool)

  datatype Deployment = Deployment(
    app: AppId, status: DeployStatus, commitSHA: string, image: string,
    startedAt: Option<int>, finishedAt: Option<int>, cancelRequested: bool)

  /** When the job's context ends, and whether by the time limit; and whether the
      worker's own context was still alive when the message was taken. */
  datatype Context = Context(endsAt: nat, timeout: bool, parentAlive: bool)

  /** What the outside answers. `live` is the phase seen while finalizing a
      cancellation: none when the target or its status is unavailable. */
  datatype Answers = Answers(
    build: Option<string>, flagAfterBuild: bool, reloadOk: bool,
    registryOk: bool, targetOk: bool, deployOk: bool, flagAfterDeploy: bool,
    live: Option<bool>)

  /** How a run ends. */
  datatype End =
    | NotFound | AlreadyTerminal | AppMissing
    | CancelledBeforeStart | BuildCancelled | BuildFailed | CutAfterBuild | ReloadFailed
    | RegistryFailed | TargetFailed | DeployCancelled | DeployFailed | Deployed

  predicate Cancels(r: End) {
    r in {CancelledBeforeStart, BuildCancelled, CutAfterBuild, DeployCancelled}
  }

  /** Ends whose writes are made under the job's own context. */
  predicate UnderJobContext(r: End) {
    r in {RegistryFailed, TargetFailed, DeployFailed, Deployed}
  }

  function OutcomeOf(r: End): DeployStatus
    requires !r.NotFound? && !r.AlreadyTerminal? && !r.AppMissing?
  {
    if Cancels(r) then Cancelled else if r.Deployed? then Success else Failed
  }

  /** The application status a cancellation leaves. */
  function AfterCancel(live: Option<bool>): AppStatus {
    if live == Some(true) then Running else Idle
  }

  // ----------------------------------------------- what the inputs decide

  /** Deployment `k` is the newest of the application, and succeeded on the commit with an image. */
  ghost predicate SucceededLast(rows: seq<Deployment>, k: DepId, app: AppId, commit: string)
    requires k < |rows|
  {
    && rows[k].app == app && rows[k].status == Success && rows[k].commitSHA == commit && rows[k].image != ""
    && forall j | k < j < |rows| :: rows[j].app != app
  }

  /** A run skips its build when it is not forced, the cache is allowed, its commit
      is known, and a newer deployment of the application succeeded on that commit. */
  ghost predicate SkipsBuild(rows: seq<Deployment>, d: DepId, app: App, force: bool)
    requires d < |rows|
  {
    && app.source.FromGit? && !force && !app.noCache && rows[d].commitSHA != ""
    && exists k :: d < k < |rows| && SucceededLast(rows, k, rows[d].app, rows[d].commitSHA)
  }

  /** The newest deployment that a running one finds is itself or a newer one, and itself never counts. */
  lemma NewestAlwaysBuilds(rows: seq<Deployment>, d: DepId, k: DepId)
    requires d < |rows| && k < |rows| && !IsTerminal(rows[d].status)
    requires SucceededLast(rows, k, rows[d].app, rows[d].commitSHA)
    ensures d < k
  {
  }

  /** A build begun at tick `t` goes through to a deployable image. */
  predicate BuildGoes(o: Answers, c: Context, t: nat) {
    o.build.Some? && o.reloadOk && t + 3 < c.endsAt
  }

  /** It yields an image that is stored on the application. */
  predicate Yields(o: Answers, c: Context, t: nat) {
    o.build.Some? && t + 1 < c.endsAt
  }

  /** How a build that does not go through ends the run. */
  function BuildEnd(o: Answers, c: Context, t: nat): End {
    if Yields(o, c, t) then if t + 3 < c.endsAt then ReloadFailed else CutAfterBuild
    else if t + 2 >= c.endsAt then if c.timeout then BuildFailed else BuildCancelled
    else if t + 3 < c.endsAt && o.flagAfterBuild then BuildCancelled
    else BuildFailed
  }

  /** A build that does not go through counts as cancelled: by any end of the
      context once it has yielded an image; otherwise by a user's, seen as the end
      of the context or, while that lives, as the flag. */
  predicate BuildCounts(o: Answers, c: Context, t: nat) {
    || (o.build.Some? && t + 1 < c.endsAt <= t + 3)
    || ((o.build.None? || c.endsAt <= t + 1) && c.endsAt <= t + 2 && !c.timeout)
    || (o.build.None? && t + 3 < c.endsAt && o.flagAfterBuild)
  }

  /** Deploying from tick `s` counts as cancelled: the call failed, and the context
      had ended, for whatever reason, or the deployment was flagged. */
  predicate DeployCounts(o: Answers, c: Context, s: nat) {
    o.registryOk && o.targetOk && !o.deployOk && (c.endsAt <= s + 2 || o.flagAfterDeploy)
  }

  /** A run that is neither finished nor flagged, with its application there. */
  predicate Starts(rows: seq<Deployment>, apps: map<AppId, App>, d: DepId) {
    d < |rows| && !IsTerminal(rows[d].status) && !rows[d].cancelRequested && rows[d].app in apps
  }

  /** Such a run, begun at tick `t`, comes as far as deploying. */
  ghost predicate Reaches(rows: seq<Deployment>, apps: map<AppId, App>, d: DepId, force: bool, o: Answers, c: Context,
                          t: nat)
    requires Starts(rows, apps, d)
  {
    var app := apps[rows[d].app];
    app.source.FromImage? || SkipsBuild(rows, d, app, force) || BuildGoes(o, c, t)
  }

  /** The tick at which it does: nothing before for an image, one write for a skipped build, four calls for a build. */
  ghost function DeployTick(rows: seq<Deployment>, apps: map<AppId, App>, d: DepId, force: bool, t: nat): nat
    requires Starts(rows, apps, d)
  {
    var app := apps[rows[d].app];
    if app.source.FromImage? then t else if SkipsBuild(rows, d, app, force) then t + 1 else t + 4
  }

  /** How deploying from tick `s` ends, and the tick of that outcome's row write. */
  function DeployEnd(o: Answers, c: Context, s: nat): (End, nat) {
    if !o.registryOk then (RegistryFailed, s + 1)
    else if !o.targetOk then (TargetFailed, s + 1)
    else if o.deployOk then (Deployed, s + 2)
    else if s + 2 >= c.endsAt then (DeployCancelled, s + 2)
    else (if o.flagAfterDeploy then DeployCancelled else DeployFailed, s + 3)
  }

  /** The image a run of deployment `d` works with: the newer deployment's it
      reuses, the one it built, or else `fallback`. */
  ghost predicate IsImage(rows: seq<Deployment>, d: DepId, app: App, force: bool, o: Answers, c: Context, t: nat,
                          fallback: string, image: string)
    requires d < |rows|
  {
    if SkipsBuild(rows, d, app, force) then
      forall k | d < k < |rows| && SucceededLast(rows, k, rows[d].app, rows[d].commitSHA) :: image == rows[k].image
    else image == if app.source.FromGit? && Yields(o, c, t) then o.build.value else fallback
  }

  /** No run makes more calls than this before its last write. */
  const MAX_CALLS := 8

  class Platform {
    var rows: seq<Deployment>
    var apps: map<AppId, App>
    var tick: nat
    var builds: nat
    /** The images handed to the cluster, with their applications. */
    var rollouts: seq<(AppId, string)>

    /** Full-row write of a deployment. */
    method UpdateDeploy(d: DepId, row: Deployment, alive: bool)
      modifies this`rows, this`tick
      ensures tick == old(tick) + 1
      ensures rows == if alive && d < |old(rows)| then old(rows)[d := row] else old(rows)
    {
      if alive && d < |rows| {
        rows := rows[d := row];
      }
      tick := tick + 1;
    }

    /** Status column of an application. */
    method SetAppStatus(id: AppId, status: AppStatus, alive: bool)
      modifies this`apps, this`tick
      ensures tick == old(tick) + 1
      ensures apps == if alive && id in old(apps) then old(apps)[id := old(apps)[id].(status := status)] else old(apps)
    {
      if alive && id in apps {
        apps := apps[id := apps[id].(status := status)];
      }
      tick := tick + 1;
    }

    /** Every column of an application, the status among them. */
    method UpdateApp(id: AppId, app: App, alive: bool)
      modifies this`apps, this`tick
      ensures tick == old(tick) + 1
      ensures apps == if alive && id in old(apps) then old(apps)[id := app] else old(apps)
    {
      if alive && id in apps {
        apps := apps[id := app];
      }
      tick := tick + 1;
    }

    /** The newest deployment of an application, this one included. */
    method GetLatestByApp(id: AppId) returns (r: Option<DepId>)
      ensures r.None? ==> forall k | 0 <= k < |rows| :: rows[k].app != id
      ensures r.Some? ==>
                r.value < |rows| && rows[r.value].app == id && forall k | r.value < k < |rows| :: rows[k].app != id
    {
      var n := |rows|;
      while n > 0
        invariant 0 <= n <= |rows|
        invariant forall k | n <= k < |rows| :: rows[k].app != id
      {
        n := n - 1;
        if rows[n].app == id {
          return Some(n);
        }
      }
      return None;
    }

    /** Cancelled, and the application follows what is live; both writes take
        when the context they are made under is alive. */
    method FinalizeCancelled(d: DepId, row: Deployment, appLoaded: bool, now: int, live: Option<bool>, alive: bool)
      requires d < |rows|
      modifies this`rows, this`apps, this`tick
      ensures rows == if alive then old(rows)[d := row.(status := Cancelled, finishedAt := Some(now))] else old(rows)
      ensures apps.Keys == old(apps).Keys && forall k | k in apps ::
                apps[k] == if alive && k == row.app
                           then old(apps)[k].(status := if appLoaded then AfterCancel(live) else Idle)
                           else old(apps)[k]
    {
      UpdateDeploy(d, row.(status := Cancelled, finishedAt := Some(now)), alive);
      if appLoaded && live == Some(true) {
        SetAppStatus(row.app, Running, alive);
        return;
      }
      SetAppStatus(row.app, Idle, alive);
    }

    /** The two writes of a failure. */
    method FinalizeFailed(d: DepId, row: Deployment, now: int, c: Context, background: bool)
      requires d < |rows|
      modifies this`rows, this`apps, this`tick
      ensures rows ==
                if background || old(tick) < c.endsAt
                then old(rows)[d := row.(status := Failed, finishedAt := Some(now))]
                else old(rows)
      ensures apps == if (background || old(tick) + 1 < c.endsAt) && row.app in old(apps)
                      then old(apps)[row.app := old(apps)[row.app].(status := AppError)] else old(apps)
    {
      UpdateDeploy(d, row.(status := Failed, finishedAt := Some(now)), background || tick < c.endsAt);
      SetAppStatus(row.app, AppError, background || tick < c.endsAt);
    }

    /** Everything but deployment `d` and application `id` is as it was. */
    twostate predicate OnlyTouches(d: DepId, id: AppId)
      reads this
    {
      && |rows| == |old(rows)| && (forall k | 0 <= k < |rows| && k != d :: rows[k] == old(rows)[k])
      && apps.Keys == old(apps).Keys && (forall k | k in apps && k != id :: apps[k] == old(apps)[k])
    }

    /** The builder, and the two rows it writes under the job's context. */
    method Build(d: DepId, row: Deployment, app: App, o: Answers, c: Context) returns (ok: bool, row': Deployment)
      requires d < |rows| && row.app in apps && !IsTerminal(row.status)
      modifies this`rows, this`apps, this`tick, this`builds
      ensures OnlyTouches(d, row.app) && builds == old(builds) + 1
      ensures ok <==> o.build.Some? && old(tick) < c.endsAt
      ensures ok ==> row' == row.(image := o.build.value) && tick == old(tick) + 2
      ensures !ok ==> row' == row && tick == old(tick) + 1
      ensures rows == if old(tick) + (if ok then 1 else 0) < c.endsAt then old(rows)[d := row'] else old(rows)
      ensures apps[row.app] == if ok then app.(image := o.build.value) else old(apps)[row.app]
    {
      builds := builds + 1;
      row' := row;
      if o.build.None? {
        UpdateDeploy(d, row, tick < c.endsAt);
        return false, row';
      }
      if tick >= c.endsAt {
        UpdateApp(row.app, app, false);
        return false, row';
      }
      UpdateApp(row.app, app.(image := o.build.value), true);
      row' := row.(image := o.build.value);
      UpdateDeploy(d, row', tick < c.endsAt);
      ok := true;
    }

    /** Whether the image of the newest deployment can be reused. */
    method CanSkipBuild(row: Deployment, app: App, force: bool) returns (image: Option<string>)
      ensures image.Some? <==> !force && !app.noCache && row.commitSHA != ""
                               && exists k :: 0 <= k < |rows| && SucceededLast(rows, k, row.app, row.commitSHA)
      ensures forall k | 0 <= k < |rows| && SucceededLast(rows, k, row.app, row.commitSHA) ::
                image.Some? ==> image.value == rows[k].image
    {
      image := None;
      if !force && !app.noCache && row.commitSHA != "" {
        var last := GetLatestByApp(row.app);
        if last.Some? && rows[last.value].status == Success && rows[last.value].image != ""
           && rows[last.value].commitSHA == row.commitSHA {
          image := Some(rows[last.value].image);
          assert SucceededLast(rows, last.value, row.app, row.commitSHA);
        }
      }
    }

    /** From a started row to something deployable, or to one of the endings of
        the build, all of which are written outside the job's context. */
    method Prepare(d: DepId, row: Deployment, app: App, force: bool, now: int, o: Answers, c: Context)
      returns (r: Option<End>, row': Deployment, app': App)
      requires d < |rows| && !IsTerminal(row.status) && rows[d] == row.(startedAt := rows[d].startedAt)
      requires row.app in apps && apps[row.app] == app
      modifies this`rows, this`apps, this`tick, this`builds
      ensures OnlyTouches(d, row.app)
      ensures r == if app.source.FromGit? && !SkipsBuild(old(rows), d, app, force) && !BuildGoes(o, c, old(tick))
                   then Some(BuildEnd(o, c, old(tick))) else None
      ensures r.Some? ==> BuildEnded(r.value, row, rows[d], app, apps[row.app], o, c, old(tick), now)
      ensures r.None? ==> rows[d].status == (if builds > old(builds) then Building else row.status)
                          && row' == row.(status := row'.status, image := row'.image)
                          && app' == app.(image := app'.image)
                          && apps[row.app] == (if builds > old(builds) then app' else app)
                          && tick == (if app.source.FromImage? then old(tick)
                                      else if SkipsBuild(old(rows), d, app, force) then old(tick) + 1
                                      else old(tick) + 4)
      ensures builds ==
                if app.source.FromGit? && !SkipsBuild(old(rows), d, app, force) then old(builds) + 1 else old(builds)
      ensures r.None? ==> IsImage(old(rows), d, app, force, o, c, old(tick), app.image, app'.image)
                          && IsImage(old(rows), d, app, force, o, c, old(tick), row.image, row'.image)
    {
      hide BuildEnded, BuildEnd;
      row', app' := row, app;
      r := None;
      if app.source.FromImage? {
        return;
      }
      var reuse := CanSkipBuild(row, app, force);
      forall k | 0 <= k < |rows| && SucceededLast(rows, k, row.app, row.commitSHA) ensures d < k {
        NewestAlwaysBuilds(rows, d, k);
      }
      assert reuse.Some? <==> SkipsBuild(rows, d, app, force);
      if reuse.Some? {
        row', app' := row.(image := reuse.value), app.(image := reuse.value);
        UpdateDeploy(d, row', tick < c.endsAt);
        return;
      }
      r, row', app' := BuildFromSource(d, row, app, now, o, c);
    }

    /** Build, and the endings a failed or cut build can have. */
    method BuildFromSource(d: DepId, row: Deployment, app: App, now: int, o: Answers, c: Context)
      returns (r: Option<End>, row': Deployment, app': App)
      requires d < |rows| && row.app in apps && apps[row.app] == app && !IsTerminal(row.status)
               && rows[d].status == row.status
      modifies this`rows, this`apps, this`tick, this`builds
      ensures OnlyTouches(d, row.app) && builds == old(builds) + 1
      ensures r == if BuildGoes(o, c, old(tick)) then None else Some(BuildEnd(o, c, old(tick)))
      ensures r.Some? ==> BuildEnded(r.value, row, rows[d], app, apps[row.app], o, c, old(tick), now)
      ensures r.None? ==> rows[d].status == Building && tick == old(tick) + 4
                          && row' == row.(status := row'.status, image := o.build.value)
                          && app' == app.(image := o.build.value) && apps[row.app] == app'
    {
      hide BuildEnd, OutcomeOf, Cancels, AfterCancel;
      app' := app;
      row' := row.(status := Building);
      UpdateDeploy(d, row', tick < c.endsAt);
      var ok;
      ok, row' := Build(d, row', app, o, c);
      r := AfterBuild(d, row', ok, now, o, c, old(tick));
      if r.None? {
        app' := apps[row.app];
      }
    }

    /** A build that has returned ends the run, or lets it go on. */
    method AfterBuild(d: DepId, row: Deployment, ok: bool, now: int, o: Answers, c: Context, ghost t: nat)
      returns (r: Option<End>)
      requires d < |rows| && row.app in apps
      requires ok == Yields(o, c, t) && tick == (if ok then t + 3 else t + 2)
      modifies this`rows, this`apps, this`tick
      ensures OnlyTouches(d, row.app)
      ensures r == if BuildGoes(o, c, t) then None else Some(BuildEnd(o, c, t))
      ensures r.None? ==> rows == old(rows) && apps == old(apps) && tick == t + 4
      ensures r.Some? ==>
                var e := BuildEnd(o, c, t);
                && rows[d] == row.(status := OutcomeOf(e), finishedAt := Some(now))
                && apps[row.app] == old(apps)[row.app].(status := if Cancels(e) then AfterCancel(o.live) else AppError)
    {
      hide BuildGoes, BuildEnd, AfterCancel;
      var cancelled, cut, failed := Judge(ok, o, c, t);
      if !cancelled && ok && o.reloadOk {
        return None;
      }
      r := EndBuild(d, row, cancelled, cut, failed, now, o, c);
    }

    /** What a returned build means: a cancellation, a failure, or neither. After
        a failed build only a user's cancellation counts; after a good one any end
        of the context does. */
    method Judge(ok: bool, o: Answers, c: Context, ghost t: nat) returns (cancelled: bool, cut: End, failed: End)
      requires ok == Yields(o, c, t) && tick == (if ok then t + 3 else t + 2)
      modifies this`tick
      ensures !cancelled && ok && o.reloadOk <==> BuildGoes(o, c, t)
      ensures !BuildGoes(o, c, t) ==> BuildEnd(o, c, t) == if cancelled then cut else failed
      ensures cut == (if ok then CutAfterBuild else BuildCancelled)
              && failed == (if ok then ReloadFailed else BuildFailed)
      ensures ok ==> (cancelled <==> old(tick) >= c.endsAt) && (!cancelled ==> tick == old(tick) + 1)
      ensures !ok && old(tick) >= c.endsAt ==> (cancelled <==> !c.timeout)
      ensures !ok && old(tick) + 1 == c.endsAt ==> !cancelled
      ensures !ok && old(tick) + 1 < c.endsAt ==> (cancelled <==> o.flagAfterBuild)
    {
      cut, failed := if ok then CutAfterBuild else BuildCancelled, if ok then ReloadFailed else BuildFailed;
      cancelled := tick >= c.endsAt && (ok || !c.timeout);
      if !cancelled {
        tick := tick + 1;
        cancelled := !ok && tick < c.endsAt && o.flagAfterBuild;
      }
    }

    /** A build's ending is written outside the job's context. */
    method EndBuild(d: DepId, row: Deployment, cancelled: bool, cut: End, failed: End, now: int, o: Answers, c: Context)
      returns (r: Option<End>)
      requires d < |rows| && row.app in apps && cut in {BuildCancelled, CutAfterBuild}
      requires failed in {BuildFailed, ReloadFailed}
      modifies this`rows, this`apps, this`tick
      ensures OnlyTouches(d, row.app) && r == Some(if cancelled then cut else failed)
      ensures rows[d] == row.(status := OutcomeOf(r.value), finishedAt := Some(now))
      ensures apps[row.app] == old(apps)[row.app].(status := if Cancels(r.value) then AfterCancel(o.live) else AppError)
    {
      if cancelled {
        FinalizeCancelled(d, row, true, now, o.live, true);
        return Some(cut);
      }
      FinalizeFailed(d, row, now, c, true);
      return Some(failed);
    }

    /** From a deployable row to the deploy call and its outcome. `at` is the tick
        of the outcome's row write. */
    method Deploy(d: DepId, row: Deployment, app: App, now: int, o: Answers, c: Context) returns (r: End, at: nat)
      requires d < |rows| && row.app in apps && Follows(apps[row.app], app) && !IsTerminal(rows[d].status)
      modifies this`rows, this`apps, this`tick, this`rollouts
      ensures OnlyTouches(d, row.app) && (r, at) == DeployEnd(o, c, old(tick))
      ensures Ended(row, rows[d], r, at, c, now, app.image)
      ensures !IsTerminal(rows[d].status) ==>
                rows[d].status == if old(tick) < c.endsAt then Deploying else old(rows)[d].status
      ensures apps[row.app] == AppAfter(r, at, o.live, c, old(apps)[row.app], app.image)
      ensures rollouts == if o.registryOk && o.targetOk then old(rollouts) + [(row.app, app.image)] else old(rollouts)
    {
      hide AppAfter;
      var row := row.(status := Deploying);
      UpdateDeploy(d, row, tick < c.endsAt);
      if !o.registryOk || !o.targetOk {
        r, at := if o.registryOk then TargetFailed else RegistryFailed, tick;
        FailUnderContext(d, row, app, r, now, o, c);
        return;
      }
      rollouts := rollouts + [(row.app, app.image)];
      tick := tick + 1;
      if o.deployOk {
        r, at := Deployed, tick;
        RecordSuccess(d, row, app, now, o, c);
        return;
      }
      if tick >= c.endsAt {
        r, at := DeployCancelled, tick;
        CancelDeploy(d, row, app, at, now, o, c);
        return;
      }
      tick := tick + 1;
      at := tick;
      if o.flagAfterDeploy {
        r := DeployCancelled;
        CancelDeploy(d, row, app, at, now, o, c);
      } else {
        r := DeployFailed;
        FailUnderContext(d, row, app, r, now, o, c);
      }
    }

    /** A failure whose two writes are made under the job's context. */
    method FailUnderContext(d: DepId, row: Deployment, app: App, r: End, now: int, o: Answers, c: Context)
      requires d < |rows| && row.app in apps && !IsTerminal(rows[d].status)
      requires r in {RegistryFailed, TargetFailed, DeployFailed}
      modifies this`rows, this`apps, this`tick
      ensures OnlyTouches(d, row.app) && Ended(row, rows[d], r, old(tick), c, now, app.image)
      ensures !IsTerminal(rows[d].status) ==> rows[d] == old(rows)[d]
      ensures apps[row.app] == AppAfter(r, old(tick), o.live, c, old(apps)[row.app], app.image)
    {
      FinalizeFailed(d, row, now, c, false);
    }

    /** A cancellation found after the deploy call failed. */
    method CancelDeploy(d: DepId, row: Deployment, app: App, ghost at: nat, now: int, o: Answers, c: Context)
      requires d < |rows| && row.app in apps
      modifies this`rows, this`apps, this`tick
      ensures OnlyTouches(d, row.app) && Ended(row, rows[d], DeployCancelled, at, c, now, app.image)
      ensures apps[row.app] == AppAfter(DeployCancelled, at, o.live, c, old(apps)[row.app], app.image)
    {
      FinalizeCancelled(d, row, true, now, o.live, true);
    }

    /** The row, then the status, then every column of the application from the run's own copy. */
    method RecordSuccess(d: DepId, row: Deployment, app: App, now: int, o: Answers, c: Context)
      requires d < |rows| && row.app in apps && Follows(apps[row.app], app) && !IsTerminal(rows[d].status)
      modifies this`rows, this`apps, this`tick
      ensures OnlyTouches(d, row.app) && Ended(row, rows[d], Deployed, old(tick), c, now, app.image)
      ensures !IsTerminal(rows[d].status) ==> rows[d] == old(rows)[d]
      ensures apps[row.app] == AppAfter(Deployed, old(tick), o.live, c, old(apps)[row.app], app.image)
    {
      UpdateDeploy(d, row.(status := Success, finishedAt := Some(now), image := app.image), tick < c.endsAt);
      SetAppStatus(row.app, Running, tick < c.endsAt);
      UpdateApp(row.app, app, tick < c.endsAt);
    }

    /** executeDeploy: every path ends in exactly one outcome. */
    method Execute(d: DepId, row: Deployment, app: App, force: bool, now: int, o: Answers, c: Context)
      returns (r: End, at: nat)
      requires Starts(rows, apps, d) && rows[d] == row && app == apps[row.app]
      modifies this
      ensures OnlyTouches(d, row.app)
      ensures r !in {NotFound, AlreadyTerminal, AppMissing, CancelledBeforeStart}
      ensures Outcome(old(rows), old(apps), old(tick), rows, apps, d, force, o, c, now, r, at)
      ensures builds ==
                if app.source.FromGit? && !SkipsBuild(old(rows), d, app, force) then old(builds) + 1 else old(builds)
      ensures Rollout(old(rows), old(apps), old(tick), old(rollouts), rollouts, d, force, o, c)
    {
      var end, row', app' := Prepare(d, row.(startedAt := Some(now)), app, force, now, o, c);
      if end.Some? {
        r, at := end.value, tick;
      } else {
        r, at := Deploy(d, row', app', now, o, c);
      }
    }

    /** A whole run of one message: refused untouched, or ended in one outcome that
        its inputs decide. Nothing left over when its context outlasts its calls. */
    method RunDeployJob(d: DepId, force: bool, now: int, o: Answers, c: Context) returns (r: End, at: nat)
      modifies this
      ensures r.NotFound? <==> d >= |old(rows)|
      ensures r.AlreadyTerminal? <==> d < |old(rows)| && IsTerminal(old(rows)[d].status)
      ensures r.CancelledBeforeStart? <==>
                d < |old(rows)| && !IsTerminal(old(rows)[d].status) && old(rows)[d].cancelRequested
      ensures r.AppMissing? <==>
                d < |old(rows)| && !IsTerminal(old(rows)[d].status) && !old(rows)[d].cancelRequested
                && old(rows)[d].app !in old(apps)
      ensures r in {NotFound, AlreadyTerminal, AppMissing} ==> rows == old(rows) && apps == old(apps)
      ensures r.CancelledBeforeStart? ==>
                && OnlyTouches(d, old(rows)[d].app)
                && rows[d] == (if c.parentAlive then old(rows)[d].(status := Cancelled, finishedAt := Some(now))
                               else old(rows)[d])
                && (old(rows)[d].app in apps ==>
                      apps[old(rows)[d].app] ==
                        AppAfter(r, at, o.live, c, old(apps)[old(rows)[d].app], old(apps)[old(rows)[d].app].image))
      ensures !Starts(old(rows), old(apps), d) ==> builds == old(builds) && rollouts == old(rollouts)
      ensures Starts(old(rows), old(apps), d) ==>
                && OnlyTouches(d, old(rows)[d].app)
                && Outcome(old(rows), old(apps), old(tick), rows, apps, d, force, o, c, now, r, at)
                && DecidedByInputs(old(rows), old(apps), old(tick), rows, apps, d, force, o, c)
                && Rollout(old(rows), old(apps), old(tick), old(rollouts), rollouts, d, force, o, c)
      ensures Starts(old(rows), old(apps), d) && c.endsAt > old(tick) + MAX_CALLS ==>
                var id := old(rows)[d].app;
                id in apps && Settled(rows[d], apps[id].status, old(apps)[id].status, o.live, now)
      ensures Starts(old(rows), old(apps), d) ==>
                var app := old(apps)[old(rows)[d].app];
                builds == if app.source.FromGit? && !SkipsBuild(old(rows), d, app, force) then old(builds) + 1
                          else old(builds)
    {
      hide SkipsBuild, SucceededLast, Outcome, Rollout, DecidedByInputs, Settled;
      at := tick;
      if d >= |rows| {
        return NotFound, at;
      }
      var row := rows[d];
      if IsTerminal(row.status) {
        return AlreadyTerminal, at;
      }
      if row.cancelRequested {
        FinalizeCancelled(d, row, row.app in apps, now, o.live, c.parentAlive);
        return CancelledBeforeStart, at;
      }
      if row.app !in apps {
        return AppMissing, at;
      }
      r, at := Execute(d, row, apps[row.app], force, now, o, c);
      OutcomeDecides(old(rows), old(apps), old(tick), rows, apps, d, force, o, c, now, r, at);
      if c.endsAt > old(tick) + MAX_CALLS {
        OutcomeSettles(old(rows), old(apps), old(tick), rows, apps, d, force, o, c, now, r, at);
      }
    }

    /** A user's cancellation: the flag, and at once the outcome when no run has begun. */
    method Cancel(d: DepId, now: int, live: Option<bool>) returns (accepted: bool)
      modifies this`rows, this`apps, this`tick
      ensures accepted <==> d < |old(rows)| && old(rows)[d].status in {Queued, Building, Deploying}
      ensures !accepted ==> rows == old(rows) && apps == old(apps)
      ensures accepted ==> OnlyTouches(d, old(rows)[d].app) && rows[d].cancelRequested
      ensures accepted && old(rows)[d].status == Queued ==>
                && rows[d] == old(rows)[d].(cancelRequested := true, status := Cancelled, finishedAt := Some(now))
                && (old(rows)[d].app in apps ==>
                      apps[old(rows)[d].app] == old(apps)[old(rows)[d].app].(status := AfterCancel(live)))
      ensures accepted && old(rows)[d].status != Queued ==>
                rows[d] == old(rows)[d].(cancelRequested := true) && apps == old(apps)
    {
      if d >= |rows| || IsTerminal(rows[d].status) {
        return false;
      }
      var row := rows[d].(cancelRequested := true);
      UpdateDeploy(d, row, true);
      if row.status == Queued {
        FinalizeCancelled(d, row, row.app in apps, now, live, true);
      }
      accepted := true;
    }
  }

  /** A build that ended the run: its row settled, its application paired, and
      the image it yielded, if any, on both. */
  ghost predicate BuildEnded(r: End, row: Deployment, row': Deployment, app: App, app': App, o: Answers, c: Context,
                             t: nat, now: int)
  {
    && r == BuildEnd(o, c, t)
    && row' == row.(status := OutcomeOf(r), finishedAt := Some(now),
                    image := if Yields(o, c, t) then o.build.value else row.image)
    && app' == app.(status := if Cancels(r) then AfterCancel(o.live) else AppError,
                    image := if Yields(o, c, t) then o.build.value else app.image)
  }

  /** The row settles, with the outcome, a finish time and after a success the
      deployed image, unless its outcome was written under a context that had
      already ended. */
  ghost predicate Ended(row: Deployment, row': Deployment, r: End, at: nat, c: Context, now: int, image: string)
    requires !r.NotFound? && !r.AlreadyTerminal? && !r.AppMissing?
  {
    && (IsTerminal(row'.status) <==> (UnderJobContext(r) ==> at < c.endsAt))
    && (IsTerminal(row'.status) ==>
          row' == row.(status := OutcomeOf(r), finishedAt := Some(now),
                       image := if r.Deployed? then image else row.image))
  }

  /** A copy of an application that differs from the stored row in its image only. */
  predicate Follows(stored: App, copy: App) {
    copy == stored.(image := copy.image)
  }

  /** The application status a run leaves, from the status it found. A success
      ends with a write of every column from the run's own copy, so it puts the
      status it found back unless the context ends just before that write. */
  function StatusAfter(r: End, at: nat, live: Option<bool>, c: Context, found: AppStatus): AppStatus {
    if r.CancelledBeforeStart? && !c.parentAlive then found
    else if Cancels(r) then AfterCancel(live)
    else if r in {BuildFailed, ReloadFailed} then AppError
    else if r in {RegistryFailed, TargetFailed, DeployFailed} && at + 1 < c.endsAt then AppError
    else if r.Deployed? && at + 2 == c.endsAt then Running
    else found
  }

  /** The application a run leaves: that status, and the deployed image once the
      last of the writes of a success was made. */
  function AppAfter(r: End, at: nat, live: Option<bool>, c: Context, found: App, image: string): App {
    found.(status := StatusAfter(r, at, live, c, found.status),
           image := if r.Deployed? && at + 2 < c.endsAt then image else found.image)
  }

  /** Terminal with a finish time, and the application paired with the outcome:
      error after a failure, what is live after a cancellation, and after a
      success running if and only if it was found running. */
  ghost predicate Settled(row: Deployment, status: AppStatus, found: AppStatus, live: Option<bool>, now: int) {
    && IsTerminal(row.status) && row.finishedAt == Some(now)
    && (row.status == Success ==> (status == Running <==> found == Running))
    && (row.status == Failed ==> status == AppError)
    && (row.status == Cancelled ==> status == AfterCancel(live))
  }

  /** Everything a started run leaves on its two rows. */
  ghost predicate Outcome(rows: seq<Deployment>, apps: map<AppId, App>, t: nat, rows': seq<Deployment>,
                          apps': map<AppId, App>, d: DepId, force: bool, o: Answers, c: Context, now: int,
                          r: End, at: nat)
    requires Starts(rows, apps, d)
  {
    var reaches, s := Reaches(rows, apps, d, force, o, c, t), DeployTick(rows, apps, d, force, t);
    var row, app := rows[d].(startedAt := Some(now)), apps[rows[d].app];
    && d < |rows'| && row.app in apps'
    && r == (if reaches then DeployEnd(o, c, s).0 else BuildEnd(o, c, t))
    && (reaches ==> at == DeployEnd(o, c, s).1)
    && var row', app' := rows'[d], apps'[row.app];
    && (IsTerminal(row'.status) <==> (UnderJobContext(r) ==> at < c.endsAt))
    && (IsTerminal(row'.status) ==>
          && row' == row.(status := OutcomeOf(r), finishedAt := Some(now), image := row'.image)
          && IsImage(rows, d, app, force, o, c, t, if r.Deployed? then app.image else row.image, row'.image))
    && (!IsTerminal(row'.status) ==>
          row'.status == if s < c.endsAt then Deploying
                         else if app.source.FromGit? && !SkipsBuild(rows, d, app, force) then Building
                         else row.status)
    && app' == app.(status := StatusAfter(r, at, o.live, c, app.status), image := app'.image)
    && (if SkipsBuild(rows, d, app, force) && !(r.Deployed? && at + 2 < c.endsAt) then app'.image == app.image
        else IsImage(rows, d, app, force, o, c, t, app.image, app'.image))
  }

  /** The cluster is asked once, for the run's image, when the run comes as far as
      deploying and has its registry and its target; otherwise never. */
  ghost predicate Rollout(rows: seq<Deployment>, apps: map<AppId, App>, t: nat, rolled: seq<(AppId, string)>,
                          rolled': seq<(AppId, string)>, d: DepId, force: bool, o: Answers, c: Context)
    requires Starts(rows, apps, d)
  {
    if Reaches(rows, apps, d, force, o, c, t) && o.registryOk && o.targetOk then
      && |rolled'| == |rolled| + 1 && rolled' == rolled + [(rows[d].app, rolled'[|rolled|].1)]
      && IsImage(rows, d, apps[rows[d].app], force, o, c, t, apps[rows[d].app].image, rolled'[|rolled|].1)
    else rolled' == rolled
  }

  /** What a caller can tell of a started run from its inputs alone: whether its
      row settles, as what, and exactly when its application is paired with the
      outcome, a context that ends between two writes included. */
  ghost predicate DecidedByInputs(rows: seq<Deployment>, apps: map<AppId, App>, t: nat, rows': seq<Deployment>,
                                  apps': map<AppId, App>, d: DepId, force: bool, o: Answers, c: Context)
    requires Starts(rows, apps, d)
  {
    var reaches, s := Reaches(rows, apps, d, force, o, c, t), DeployTick(rows, apps, d, force, t);
    var found := apps[rows[d].app].status;
    var asked := reaches && o.registryOk && o.targetOk;
    && d < |rows'| && rows[d].app in apps'
    && var status', app' := rows'[d].status, apps'[rows[d].app].status;
    && (status' == Success <==> asked && o.deployOk && s + 2 < c.endsAt)
    && (status' == Cancelled <==> if reaches then DeployCounts(o, c, s) else BuildCounts(o, c, t))
    && (status' == Failed <==>
          if !reaches then !BuildCounts(o, c, t)
          else if !asked then s + 1 < c.endsAt
          else !o.deployOk && !DeployCounts(o, c, s) && s + 3 < c.endsAt)
    && (status' == Success ==> (app' == Running <==> found == Running || c.endsAt == s + 4))
    && (status' == Failed ==>
          (app' == AppError <==>
             found == AppError || (reaches ==> c.endsAt != if asked then s + 4 else s + 2)))
    && (status' == Cancelled ==> app' == AfterCancel(o.live))
  }

  lemma OutcomeDecides(rows: seq<Deployment>, apps: map<AppId, App>, t: nat, rows': seq<Deployment>,
                       apps': map<AppId, App>, d: DepId, force: bool, o: Answers, c: Context, now: int, r: End, at: nat)
    requires Starts(rows, apps, d) && Outcome(rows, apps, t, rows', apps', d, force, o, c, now, r, at)
    ensures DecidedByInputs(rows, apps, t, rows', apps', d, force, o, c)
  {
    hide SkipsBuild, IsImage;
  }

  lemma OutcomeSettles(rows: seq<Deployment>, apps: map<AppId, App>, t: nat, rows': seq<Deployment>,
                       apps': map<AppId, App>, d: DepId, force: bool, o: Answers, c: Context, now: int, r: End, at: nat)
    requires Starts(rows, apps, d) && Outcome(rows, apps, t, rows', apps', d, force, o, c, now, r, at)
    requires c.endsAt > t + MAX_CALLS
    ensures Settled(rows'[d], apps'[rows[d].app].status, apps[rows[d].app].status, o.live, now)
  {
    hide SkipsBuild, IsImage;
  }
}
