/** The backup service as straight-line code and loops over the backup table.
    Every call, left to itself, takes steps of the backup machine. */
module BackupService {
  import opened BackupProtocol
  import opened BackupKeys

  datatype Phase = StatusError | PhaseRunning | NotDeployed | NotReady

  datatype Storage = StorageError | NoStorage | HasStorage

  /** What a job is told from outside. `phases` are the readiness polls in order,
      at most six of them; the wait after poll number `cancelAt` is cut short. */
  datatype JobAnswers = JobAnswers(
    dbFound: bool, job: JobState, phases: seq<Phase>, cancelAt: nat, storage: Storage,
    newKey: string, mark: Write, buildOk: bool, launchOk: bool, write: Write)

  datatype JobEnd = NotFound | AlreadyTerminal | ReconciledEnd | FailedEnd | Retry | Launched

  const ATTEMPTS := 6

  /** The outcome of the readiness wait: running, failed, or cut short. */
  datatype Ready = Running | Unready | Cut

  /** One of the six polls says running, after only not-ready ones and no cut wait. */
  predicate ComesReady(o: JobAnswers)
    requires |o.phases| >= 6
  {
    exists i | 0 <= i < 6 ::
      o.phases[i].PhaseRunning? && i <= o.cancelAt && forall j | 0 <= j < i :: o.phases[j].NotReady?
  }

  /** Polls say only not ready up to a wait that is cut short; there are five waits. */
  predicate IsCutShort(o: JobAnswers)
    requires |o.phases| >= 6
  {
    o.cancelAt < 5 && forall j | 0 <= j <= o.cancelAt :: o.phases[j].NotReady?
  }

  /** The job of a pending or running row gets as far as asking whether the
      database is ready: a running row's own job has neither succeeded nor broken. */
  predicate Asks(row: Row, o: JobAnswers) {
    o.dbFound && (row.status == Status.Running ==> !o.job.Succeeded? && !o.job.Broken?)
  }

  /** And as far as marking the row. */
  predicate Proceeds(row: Row, o: JobAnswers)
    requires |o.phases| >= 6
  {
    Asks(row, o) && ComesReady(o) && !o.storage.StorageError?
  }

  /** After the mark the upload is built, where there is storage, and the job launched. */
  predicate GoesOut(o: JobAnswers) {
    (o.storage.HasStorage? ==> o.buildOk) && o.launchOk
  }

  /** Polls up to six times; only a last poll that says running lets the job go on. */
  method AwaitReady(o: JobAnswers) returns (r: Ready)
    requires |o.phases| >= 6
    ensures r == Ready.Running <==> ComesReady(o)
    ensures r == Cut <==> IsCutShort(o)
  {
    var i := 0;
    while i < ATTEMPTS
      invariant 0 <= i <= ATTEMPTS
      invariant forall j | 0 <= j < i :: o.phases[j].NotReady?
      invariant i <= o.cancelAt || o.cancelAt >= ATTEMPTS - 1
    {
      match o.phases[i]
      case StatusError => return Unready;
      case NotDeployed => return Unready;
      case PhaseRunning => return Ready.Running;
      case NotReady =>
        if i < ATTEMPTS - 1 && i == o.cancelAt {
          return Cut;
        }
      i := i + 1;
    }
    return Unready;
  }

  class BackupTable {
    var rows: seq<Row>
    var sent: set<BackupId>
    var uploads: set<(BackupId, string)>
    var downloads: set<(BackupId, string)>
    ghost var world: World
    ghost var trace: seq<Label>

    ghost predicate Valid()
      reads this
    {
      && world == Exec(EMPTY, trace)
      && (world.rows, world.sent, world.uploads, world.downloads) == (rows, sent, uploads, downloads)
    }

    constructor ()
      ensures Valid() && trace == []
    {
      rows, sent, uploads, downloads := [], {}, {}, {};
      world, trace := EMPTY, [];
    }

    /** Executions of one job have not overlapped. */
    ghost predicate SerialSoFar()
      reads this`trace
    {
      Serial(EMPTY, trace)
    }

    ghost method Take(l: Label)
      requires world == Exec(EMPTY, trace)
      modifies this`world, this`trace
      ensures world == Step(old(world), l) && world == Exec(EMPTY, trace) && trace == old(trace) + [l]
      ensures SerialSoFar() <==> old(SerialSoFar()) && NoOverlap(old(world), l)
    {
      hide Step, NoOverlap;
      ExecSnoc(EMPTY, trace, l);
      SerialSnoc(EMPTY, trace, l);
      world := Step(world, l);
      trace := trace + [l];
    }

    /** So what holds of every serial run holds of the tables. */
    lemma KeysAreStable()
      requires Valid() && SerialSoFar()
      ensures KeyedWhenLive(world) && TransfersUseKey(world)
      ensures forall b | 0 <= b < |rows| && rows[b].status in {Status.Running, Completed} :: rows[b].filePath != ""
    {
      BackupKeyIsStable(trace, 0);
    }

    /** No execution of the job is under way. */
    ghost predicate NobodyRuns(b: BackupId)
      reads this`world
    {
      forall x | x in world.actors :: !RunsOn(world.actors[x], b)
    }

    /** A whole-row write. */
    method Update(b: BackupId, row: Row, write: Write) returns (ok: bool)
      modifies this`rows
      ensures rows == if write.Refused? || b >= |old(rows)| then old(rows) else old(rows)[b := row]
      ensures ok <==> write.Stored?
    {
      if !write.Refused? && b < |rows| {
        rows := rows[b := row];
      }
      ok := write.Stored?;
    }

    method TriggerBackup(ghost a: ActorId, now: int, sendOk: bool, write: Write) returns (b: BackupId)
      requires Valid() && a !in world.actors
      modifies this
      ensures SerialSoFar() <==> old(SerialSoFar())
      ensures Valid() && world.actors == old(world.actors) && b == |old(rows)|
      ensures sendOk ==> rows == old(rows) + [Row(Pending, "", NoRestore, 0)] && sent == old(sent) + {b}
      ensures !sendOk ==>
                && sent == old(sent)
                && rows == old(rows) + [if write.Refused? then Row(Pending, "", NoRestore, 0)
                                        else Row(Failed, "", NoRestore, now)]
      ensures uploads == old(uploads) && downloads == old(downloads)
    {
      hide Exec, Serial;
      b := |rows|;
      rows := rows + [PENDING];
      Take(TriggerCreate(a));
      if sendOk {
        sent := sent + {b};
      }
      Take(TriggerEnqueue(a, sendOk));
      if !sendOk {
        var ok := Update(b, AsFailed(PENDING, now), write);
        Take(TriggerFailRow(a, now, write));
      }
    }

    /** failDatabaseBackup: records the failure and swallows a failed write. */
    method Fail(ghost a: ActorId, b: BackupId, row: Row, now: int, write: Write)
      requires Valid() && a in world.actors && b < |rows|
      requires world.actors[a] in {RunLoaded(b, row), RunMarked(b, row), RunDoomed(b, row)}
      modifies this`rows, this`world, this`trace
      ensures SerialSoFar() <==> old(SerialSoFar())
      ensures Valid() && world.actors == old(world.actors) - {a}
      ensures rows == if write.Refused? then old(rows) else old(rows)[b := AsFailed(row, now)]
    {
      hide Exec, Serial;
      var ok := Update(b, AsFailed(row, now), write);
      Take(RunFail(a, now, write));
    }

    /** From a ready database to a launched job. */
    method Launch(ghost a: ActorId, b: BackupId, row: Row, now: int, o: JobAnswers) returns (r: JobEnd)
      requires Valid() && a in world.actors && b < |rows| && world.actors[a] == RunLoaded(b, row) && o.newKey != ""
      modifies this
      ensures SerialSoFar() <==> old(SerialSoFar())
      ensures Valid() && world.actors == old(world.actors) - {a} && sent == old(sent) && downloads == old(downloads)
      ensures r ==
                if o.mark != Stored then Retry
                else if (o.storage.HasStorage? ==> o.buildOk) && o.launchOk then Launched
                else FailedEnd
      ensures r == Launched ==> rows == old(rows)[b := Keyed(row, o.newKey)]
      ensures r == FailedEnd ==>
                var kept := Keyed(row, o.newKey);
                rows == old(rows)[b := if o.write.Refused? then kept else AsFailed(kept, now)]
      ensures r == Retry ==> rows == if o.mark.Refused? then old(rows) else old(rows)[b := Keyed(row, o.newKey)]
      ensures uploads ==
                if r != Retry && o.storage.HasStorage? && o.buildOk
                then old(uploads) + {(b, Keyed(row, o.newKey).filePath)}
                else old(uploads)
    {
      hide Exec, Serial;
      var s3Key := row.filePath;
      if s3Key == "" {
        s3Key := o.newKey;
      }
      var marked := row.(status := Status.Running, filePath := s3Key);
      var ok := Update(b, marked, o.mark);
      Take(RunMark(a, o.newKey, o.mark));
      if !ok {
        return Retry;
      }
      if o.storage.HasStorage? && !o.buildOk {
        Fail(a, b, marked, now, o.write);
        return FailedEnd;
      }
      if o.storage.HasStorage? {
        uploads := uploads + {(b, s3Key)};
      }
      Take(RunLaunch(a, o.storage.HasStorage?, o.launchOk));
      if !o.launchOk {
        Fail(a, b, marked, now, o.write);
        return FailedEnd;
      }
      return Launched;
    }

    /** One execution of the backup job. */
    method RunDatabaseBackupJob(ghost a: ActorId, b: BackupId, now: int, o: JobAnswers) returns (r: JobEnd)
      requires Valid() && a !in world.actors && b in sent && o.newKey != "" && |o.phases| >= 6
      modifies this
      ensures old(SerialSoFar()) && old(NobodyRuns(b)) ==> SerialSoFar()
      ensures Valid() && world.actors == old(world.actors) && sent == old(sent) && downloads == old(downloads)
      ensures r == NotFound <==> b >= |old(rows)|
      ensures r == AlreadyTerminal <==> b < |old(rows)| && old(rows)[b].status in {Completed, Failed}
      ensures r in {NotFound, AlreadyTerminal} ==> rows == old(rows) && uploads == old(uploads)
      ensures r !in {NotFound, AlreadyTerminal} ==>
                EndsAs(old(rows)[b], o, r) && b < |rows| && rows == old(rows)[b := rows[b]]
                && Leaves(old(rows)[b], rows[b], now, o)
                && uploads ==
                     if Proceeds(old(rows)[b], o) && o.mark.Stored? && o.storage.HasStorage? && o.buildOk
                     then old(uploads) + {(b, KeyOf(old(rows)[b], o))}
                     else old(uploads)
    {
      hide Exec, Serial, Step, ComesReady, IsCutShort;
      if b >= |rows| {
        return NotFound;
      }
      var row := rows[b];
      if row.status == Completed || row.status == Failed {
        return AlreadyTerminal;
      }
      Load(a, b);
      if !o.dbFound {
        Fail(a, b, row, now, o.write);
        return FailedEnd;
      }
      if row.status == Status.Running && o.job.Succeeded? {
        r := Reconcile(a, b, row, now, o.write);
        return;
      }
      if row.status == Status.Running && o.job.Broken? {
        Fail(a, b, row, now, o.write);
        return FailedEnd;
      }
      var ready := AwaitReady(o);
      if ready.Cut? {
        Drop(a);
        return Retry;
      }
      if ready.Unready? || o.storage.StorageError? {
        Fail(a, b, row, now, o.write);
        return FailedEnd;
      }
      r := Launch(a, b, row, now, o);
    }

    ghost method Load(a: ActorId, b: BackupId)
      requires Valid() && a !in world.actors && b in sent && b < |rows| && rows[b].status !in {Completed, Failed}
      modifies this`world, this`trace
      ensures SerialSoFar() <==> old(SerialSoFar()) && old(NobodyRuns(b))
      ensures Valid() && world.actors == old(world.actors)[a := RunLoaded(b, rows[b])]
    {
      hide Exec, Serial;
      Take(RunLoad(a, b));
    }

    ghost method Drop(a: ActorId)
      requires Valid()
      modifies this`world, this`trace
      ensures SerialSoFar() <==> old(SerialSoFar())
      ensures Valid() && world.actors == old(world.actors) - {a}
    {
      hide Exec, Serial;
      Take(Crash(a));
    }

    /** A redelivery whose job has already finished records that and uploads nothing. */
    method Reconcile(ghost a: ActorId, b: BackupId, row: Row, now: int, write: Write) returns (r: JobEnd)
      requires Valid() && a in world.actors && b < |rows| && world.actors[a] == RunLoaded(b, row)
               && row.status == Status.Running
      modifies this`rows, this`world, this`trace
      ensures SerialSoFar() <==> old(SerialSoFar())
      ensures Valid() && world.actors == old(world.actors) - {a}
      ensures r == if write.Stored? then ReconciledEnd else Retry
      ensures rows == if write.Refused? then old(rows) else old(rows)[b := row.(status := Completed, finishedAt := now)]
    {
      hide Exec, Serial;
      var ok := Update(b, row.(status := Completed, finishedAt := now), write);
      Take(RunReconcile(a, now, write));
      r := if ok then ReconciledEnd else Retry;
    }

    /** One listed copy: reconciled in the list, and written when its job is known. */
    method ReconcileOne(ghost a: ActorId, items: seq<(BackupId, Row)>, i: nat, restores: bool, job: JobState, now: int,
                        write: Write)
      returns (items': seq<(BackupId, Row)>)
      requires Valid() && a in world.actors && world.actors[a] == Listing(items, i, restores) && i < |items|
               && items[i].0 < |rows|
      modifies this`rows, this`world, this`trace
      ensures SerialSoFar() <==> old(SerialSoFar())
      ensures Valid() && world.actors == old(world.actors)[a := Listing(items', i + 1, restores)]
      ensures items' == items[i := (items[i].0, Reconciled(items[i].1, restores, job, now))]
      ensures rows ==
                if Writes(items[i].1, restores, job) && !write.Refused? then old(rows)[items[i].0 := items'[i].1]
                else old(rows)
    {
      hide Exec, Serial;
      var (b, row) := items[i];
      var row' := Reconciled(row, restores, job, now);
      if Writes(row, restores, job) {
        var ok := Update(b, row', write);
      }
      items' := items[i := (b, row')];
      Take(ListStep(a, job, now, write));
    }

    /** One pass over the listed copies: in place in the list, and row by row in the table. */
    method ReconcilePass(ghost a: ActorId, listed: seq<(BackupId, Row)>, restores: bool, jobs: BackupId -> JobState,
                         now: int,
                         write: BackupId -> Write) returns (items: seq<(BackupId, Row)>)
      requires Valid() && a in world.actors && world.actors[a] == Listing(listed, 0, restores)
      requires forall i | 0 <= i < |listed| :: listed[i].0 < |rows|
      requires forall i, j | 0 <= i < j < |listed| :: listed[i].0 != listed[j].0
      modifies this`rows, this`world, this`trace
      ensures SerialSoFar() <==> old(SerialSoFar())
      ensures Valid() && world.actors == old(world.actors)[a := Listing(items, |items|, restores)]
      ensures |items| == |listed| && forall i | 0 <= i < |items| ::
                items[i] == (listed[i].0, Reconciled(listed[i].1, restores, jobs(listed[i].0), now))
      ensures |rows| == |old(rows)|
      ensures forall k | 0 <= k < |rows| && (forall i | 0 <= i < |listed| :: listed[i].0 != k) ::
                rows[k] == old(rows)[k]
      ensures forall i | 0 <= i < |listed| :: listed[i].0 < |rows| && rows[listed[i].0] ==
                PassedRow(old(rows)[listed[i].0], listed[i].1, restores, jobs(listed[i].0), now, write(listed[i].0))
    {
      hide Exec, Serial, Step, Reconciled, Writes;
      items := listed;
      var i := 0;
      while i < |items|
        invariant 0 <= i <= |items| == |listed| && |rows| == |old(rows)| && (SerialSoFar() <==> old(SerialSoFar()))
        invariant Valid() && world.actors == old(world.actors)[a := Listing(items, i, restores)]
        invariant forall k | i <= k < |items| :: items[k] == listed[k]
        invariant forall k | i <= k < |items| :: rows[listed[k].0] == old(rows)[listed[k].0]
        invariant forall k | 0 <= k < i ::
                    items[k] == (listed[k].0, Reconciled(listed[k].1, restores, jobs(listed[k].0), now))
        invariant forall k | 0 <= k < |rows| && (forall j | 0 <= j < |listed| :: listed[j].0 != k) ::
                    rows[k] == old(rows)[k]
        invariant forall k | 0 <= k < i :: rows[listed[k].0] ==
                    PassedRow(old(rows)[listed[k].0], listed[k].1, restores, jobs(listed[k].0), now, write(listed[k].0))
      {
        var b := items[i].0;
        items := ReconcileOne(a, items, i, restores, jobs(b), now, write(b));
        i := i + 1;
      }
    }

    /** The rows a list call returns, after both passes. */
    method ListBackups(ghost a: ActorId, wanted: seq<BackupId>, jobs: BackupId -> JobState,
                       restoreJobs: BackupId -> JobState, now: int,
                       write: BackupId -> Write, write2: BackupId -> Write) returns (items: seq<(BackupId, Row)>)
      requires Valid() && a !in world.actors
      requires forall i | 0 <= i < |wanted| :: wanted[i] < |rows|
      requires forall i, j | 0 <= i < j < |wanted| :: wanted[i] != wanted[j]
      modifies this`rows, this`world, this`trace
      ensures SerialSoFar() <==> old(SerialSoFar())
      ensures Valid() && world.actors == old(world.actors)
      ensures |items| == |wanted| && forall i | 0 <= i < |items| ::
                items[i] ==
                  (wanted[i], BothReconciled(old(rows)[wanted[i]], jobs(wanted[i]), restoreJobs(wanted[i]), now))
      ensures |rows| == |old(rows)| && forall k | 0 <= k < |rows| :: rows[k].filePath == old(rows)[k].filePath
      ensures forall k | 0 <= k < |rows| && k !in wanted :: rows[k] == old(rows)[k]
      ensures (forall b :: !write(b).Refused? && !write2(b).Refused?) ==>
                forall i | 0 <= i < |wanted| :: rows[wanted[i]] == items[i].1
      ensures forall i | 0 <= i < |wanted| ::
                var b, row := wanted[i], old(rows)[wanted[i]];
                rows[b] ==
                  PassedRow(PassedRow(row, row, false, jobs(b), now, write(b)),
                            Reconciled(row, false, jobs(b), now), true, restoreJobs(b), now, write2(b))
    {
      hide Exec, Serial, Step, Reconciled, PassedRow, Writes;
      items := ListRows(a, wanted);
      items := ReconcilePass(a, items, false, jobs, now, write);
      TurnOver(a, items);
      items := ReconcilePass(a, items, true, restoreJobs, now, write2);
      Finish(a, items);
    }

    /** The select behind a list call. */
    method ListRows(ghost a: ActorId, wanted: seq<BackupId>) returns (items: seq<(BackupId, Row)>)
      requires Valid() && a !in world.actors && forall i | 0 <= i < |wanted| :: wanted[i] < |rows|
      modifies this`world, this`trace
      ensures SerialSoFar() <==> old(SerialSoFar())
      ensures Valid() && world.actors == old(world.actors)[a := Listing(items, 0, false)]
      ensures |items| == |wanted| && forall i | 0 <= i < |items| :: items[i] == (wanted[i], rows[wanted[i]])
    {
      hide Exec, Serial;
      items := [];
      var i := |wanted|;
      while i > 0
        invariant 0 <= i <= |wanted| && |items| == |wanted| - i
        invariant forall k | i <= k < |wanted| :: items[k - i] == (wanted[k], rows[wanted[k]])
        invariant items == Copies(rows, wanted[i..])
      {
        i := i - 1;
        assert wanted[i..][1..] == wanted[i + 1..];
        items := [(wanted[i], rows[wanted[i]])] + items;
      }
      assert wanted[0..] == wanted;
      Take(ListLoad(a, wanted));
    }

    ghost method TurnOver(a: ActorId, items: seq<(BackupId, Row)>)
      requires Valid() && a in world.actors && world.actors[a] == Listing(items, |items|, false)
      modifies this`world, this`trace
      ensures SerialSoFar() <==> old(SerialSoFar())
      ensures Valid() && world.actors == old(world.actors)[a := Listing(items, 0, true)]
    {
      hide Exec, Serial;
      Take(ListStep(a, Unknown, 0, Stored));
    }

    ghost method Finish(a: ActorId, items: seq<(BackupId, Row)>)
      requires Valid() && a in world.actors && world.actors[a] == Listing(items, |items|, true)
      modifies this`world, this`trace
      ensures SerialSoFar() <==> old(SerialSoFar())
      ensures Valid() && world.actors == old(world.actors) - {a}
    {
      hide Exec, Serial;
      Take(ListStep(a, Unknown, 0, Stored));
    }

    /** A restore downloads the key on the row; only a completed backup with no
        restore under way starts one. */
    method RestoreBackup(ghost a: ActorId, b: BackupId, running: bool, legacy: string, configured: bool, buildOk: bool,
                         launchOk: bool, write: Write)
      returns (started: bool)
      requires Valid() && a !in world.actors
      modifies this`rows, this`downloads, this`world, this`trace
      ensures SerialSoFar() <==> old(SerialSoFar())
      ensures Valid() && world.actors == old(world.actors)
      ensures started <==>
                running && b < |old(rows)| && old(rows)[b].status == Completed && old(rows)[b].restore != Restoring
                           && configured && buildOk && launchOk
      ensures rows ==
                if started && !write.Refused? then old(rows)[b := old(rows)[b].(restore := Restoring)] else old(rows)
      ensures downloads ==
                if running && b < |old(rows)| && old(rows)[b].status == Completed && old(rows)[b].restore != Restoring
                   && configured && buildOk
                then old(downloads) + {(b, if old(rows)[b].filePath == "" then legacy else old(rows)[b].filePath)}
                else old(downloads)
    {
      hide Exec, Serial, Step;
      started := false;
      if running && b < |rows| && rows[b].status == Completed && rows[b].restore != Restoring && configured && buildOk {
        LoadForRestore(a, b);
        started := LaunchRestore(a, b, rows[b], legacy, launchOk, write);
      }
    }

    ghost method LoadForRestore(a: ActorId, b: BackupId)
      requires Valid() && a !in world.actors && b < |rows| && rows[b].status == Completed
               && rows[b].restore != Restoring
      modifies this`world, this`trace
      ensures SerialSoFar() <==> old(SerialSoFar())
      ensures Valid() && world.actors == old(world.actors)[a := RestoreLoaded(b, rows[b])]
    {
      hide Exec, Serial;
      Take(RestoreLoad(a, b));
    }

    /** Download, launch, and mark; a row without a key falls back to the path old backups used. */
    method LaunchRestore(ghost a: ActorId, b: BackupId, row: Row, legacy: string, launchOk: bool, write: Write)
      returns (started: bool)
      requires Valid() && a in world.actors && world.actors[a] == RestoreLoaded(b, row) && b < |rows|
      modifies this`rows, this`downloads, this`world, this`trace
      ensures SerialSoFar() <==> old(SerialSoFar())
      ensures Valid() && world.actors == old(world.actors) - {a} && started == launchOk
      ensures downloads == old(downloads) + {(b, if row.filePath == "" then legacy else row.filePath)}
      ensures rows == if started && !write.Refused? then old(rows)[b := row.(restore := Restoring)] else old(rows)
    {
      hide Exec, Serial;
      var s3Key := if row.filePath == "" then legacy else row.filePath;
      downloads := downloads + {(b, s3Key)};
      Take(RestoreLaunch(a, legacy, launchOk));
      if launchOk {
        var ok := Update(b, row.(restore := Restoring), write);
        Take(RestoreMark(a, write));
      }
      started := launchOk;
    }
  }

  /** When an execution on a pending or running row ends how. */
  predicate EndsAs(row: Row, o: JobAnswers, r: JobEnd)
    requires |o.phases| >= 6
  {
    var done := o.dbFound && row.status == Status.Running && o.job.Succeeded?;
    && (r == Launched <==> Proceeds(row, o) && o.mark.Stored? && GoesOut(o))
    && (r == ReconciledEnd <==> done && o.write.Stored?)
    && (r == Retry <==>
          (done && !o.write.Stored?) || (Asks(row, o) && IsCutShort(o)) || (Proceeds(row, o) && !o.mark.Stored?))
    && (r == FailedEnd <==>
          || (!o.dbFound || (row.status == Status.Running && o.job.Broken?))
          || (Asks(row, o) && !ComesReady(o) && !IsCutShort(o))
          || (Asks(row, o) && ComesReady(o) && o.storage.StorageError?)
          || (Proceeds(row, o) && o.mark.Stored? && !GoesOut(o)))
  }

  /** The key the row already has, or else the new one. */
  function KeyOf(row: Row, o: JobAnswers): string {
    if row.filePath != "" then row.filePath else o.newKey
  }

  /** What it leaves of the row: running under its key once marked; completed or
      failed, with the time, when that is written; the restore state as it was. */
  predicate Leaves(row: Row, row': Row, now: int, o: JobAnswers)
    requires |o.phases| >= 6
  {
    var marked := Row(Status.Running, KeyOf(row, o), row.restore, row.finishedAt);
    if Proceeds(row, o) then
      row' == if o.mark.Refused? then row
              else if o.mark.Stored? && !GoesOut(o) && !o.write.Refused?
              then Row(Failed, marked.filePath, row.restore, now) else marked
    else if (Asks(row, o) && IsCutShort(o)) || o.write.Refused? then row' == row
    else
      row' == Row(if o.dbFound && row.status == Status.Running && o.job.Succeeded? then Completed else Failed,
                  row.filePath, row.restore, now)
  }

  /** What one pass leaves in the table for a listed row. */
  function PassedRow(stored: Row, copy: Row, restores: bool, job: JobState, now: int, write: Write): (r: Row)
    ensures stored.filePath == copy.filePath ==> r.filePath == stored.filePath
    ensures stored == copy && !write.Refused? ==> r == Reconciled(copy, restores, job, now)
  {
    if Writes(copy, restores, job) && !write.Refused? then Reconciled(copy, restores, job, now) else stored
  }

  /** The outcome of both passes on one row. */
  function BothReconciled(row: Row, job: JobState, restoreJob: JobState, now: int): Row {
    Reconciled(Reconciled(row, false, job, now), true, restoreJob, now)
  }

  /** What a list call makes of a row: a running backup takes the outcome of its
      job, with the time, a running restore the outcome of its own, and neither
      touches the other or anything else. */
  lemma ReconciliationMeans(row: Row, job: JobState, restoreJob: JobState, now: int)
    ensures var after := BothReconciled(row, job, restoreJob, now);
      && (after.status != row.status <==> row.status == Status.Running && (job.Succeeded? || job.Broken?))
      && (after.status != row.status ==>
            after.status == (if job.Succeeded? then Completed else Failed) && after.finishedAt == now)
      && (after.status == row.status ==> after.finishedAt == row.finishedAt)
      && (after.restore != row.restore <==> row.restore == Restoring && (restoreJob.Succeeded? || restoreJob.Broken?))
      && (after.restore != row.restore ==>
            after.restore == if restoreJob.Succeeded? then Restored else RestoreFailed)
      && after.filePath == row.filePath
  {
  }
}
