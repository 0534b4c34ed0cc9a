/** Managed-database backups as a step machine: triggers, redelivered jobs that
    may crash between writes, list calls that reconcile rows, and restores, all
    writing whole rows from their own copies. */
module BackupProtocol {

  type BackupId = nat
  type ActorId = nat

  datatype Status = Pending | Running | Completed | Failed
  datatype RestoreStatus = NoRestore | Restoring | Restored | RestoreFailed

  /** An empty `filePath` is a key not yet chosen. */
  datatype Row = Row(status: Status, filePath: string, restore: RestoreStatus, finishedAt: int)

  const PENDING := Row(Pending, "", NoRestore, 0)

  datatype Actor =
    | TrigCreated(backup: BackupId)
    | TrigUnsent(backup: BackupId)
    | RunLoaded(backup: BackupId, row: Row)
    | RunMarked(backup: BackupId, row: Row)
    | RunDoomed(backup: BackupId, row: Row)
    | Listing(items: seq<(BackupId, Row)>, next: nat, restores: bool)
    | RestoreLoaded(backup: BackupId, row: Row)
    | RestoreStarted(backup: BackupId, row: Row)

  /** `uploads` and `downloads` are the object transfers launched so far. */
  datatype World = World(
    rows: seq<Row>,
    sent: set<BackupId>,
    actors: map<ActorId, Actor>,
    uploads: set<(BackupId, string)>,
    downloads: set<(BackupId, string)>)

  /** How a row write can end: stored, refused, or stored with the reply lost. */
  datatype Write = Stored | Refused | StoredButErred

  /** What the cluster says about a backup or restore job. */
  datatype JobState = Unknown | Active | Succeeded | Broken

  datatype Label =
    | TriggerCreate(a: ActorId)
    | TriggerEnqueue(a: ActorId, ok: bool)
    | TriggerFailRow(a: ActorId, now: int, write: Write)
    | RunLoad(a: ActorId, b: BackupId)
    | RunReconcile(a: ActorId, now: int, write: Write)
    | RunMark(a: ActorId, newKey: string, write: Write)
    | RunLaunch(a: ActorId, storage: bool, ok: bool)
    | RunFail(a: ActorId, now: int, write: Write)
    | ListLoad(a: ActorId, wanted: seq<BackupId>)
    | ListStep(a: ActorId, job: JobState, now: int, write: Write)
    | RestoreLoad(a: ActorId, b: BackupId)
    | RestoreLaunch(a: ActorId, legacy: string, ok: bool)
    | RestoreMark(a: ActorId, write: Write)
    | Crash(a: ActorId)

  function Goto(w: World, a: ActorId, pc: Actor): World {
    w.(actors := w.actors[a := pc])
  }

  function Done(w: World, a: ActorId): World {
    w.(actors := w.actors - {a})
  }

  /** A whole-row write from the writer's own copy. */
  function Put(w: World, b: BackupId, row: Row, write: Write): World {
    if write.Refused? || b >= |w.rows| then w else w.(rows := w.rows[b := row])
  }

  function AsFailed(row: Row, now: int): Row {
    row.(status := Failed, finishedAt := now)
  }

  function StepTriggerCreate(w: World, a: ActorId): World {
    if a in w.actors then w else Goto(w.(rows := w.rows + [PENDING]), a, TrigCreated(|w.rows|))
  }

  /** A failed enqueue sends nothing. */
  function StepTriggerEnqueue(w: World, a: ActorId, ok: bool): World {
    if a !in w.actors || !w.actors[a].TrigCreated? then w
    else
      var b := w.actors[a].backup;
      if ok then Done(w.(sent := w.sent + {b}), a) else Goto(w, a, TrigUnsent(b))
  }

  function StepTriggerFailRow(w: World, a: ActorId, now: int, write: Write): World {
    if a !in w.actors || !w.actors[a].TrigUnsent? then w
    else Done(Put(w, w.actors[a].backup, AsFailed(PENDING, now), write), a)
  }

  function StepRunLoad(w: World, a: ActorId, b: BackupId): World {
    if a in w.actors || b !in w.sent || b >= |w.rows| || w.rows[b].status in {Completed, Failed} then w
    else Goto(w, a, RunLoaded(b, w.rows[b]))
  }

  /** Only a redelivery, which finds the row running, asks the live job first. */
  function StepRunReconcile(w: World, a: ActorId, now: int, write: Write): World {
    if a !in w.actors || !w.actors[a].RunLoaded? || w.actors[a].row.status != Running then w
    else
      var RunLoaded(b, row) := w.actors[a];
      Done(Put(w, b, row.(status := Completed, finishedAt := now), write), a)
  }

  /** The key already on the copy is reused; a new one is taken only when there is none. */
  function Keyed(row: Row, newKey: string): Row {
    row.(status := Running, filePath := if row.filePath == "" then newKey else row.filePath)
  }

  function StepRunMark(w: World, a: ActorId, newKey: string, write: Write): World {
    if a !in w.actors || !w.actors[a].RunLoaded? || newKey == "" then w
    else
      var RunLoaded(b, row) := w.actors[a];
      var w' := Put(w, b, Keyed(row, newKey), write);
      if write.Stored? then Goto(w', a, RunMarked(b, Keyed(row, newKey))) else Done(w', a)
  }

  function StepRunLaunch(w: World, a: ActorId, storage: bool, ok: bool): World {
    if a !in w.actors || !w.actors[a].RunMarked? then w
    else
      var RunMarked(b, row) := w.actors[a];
      var w' := if storage then w.(uploads := w.uploads + {(b, row.filePath)}) else w;
      if ok then Done(w', a) else Goto(w', a, RunDoomed(b, row))
  }

  function StepRunFail(w: World, a: ActorId, now: int, write: Write): World {
    if a !in w.actors || !(w.actors[a].RunLoaded? || w.actors[a].RunMarked? || w.actors[a].RunDoomed?) then w
    else Done(Put(w, w.actors[a].backup, AsFailed(w.actors[a].row, now), write), a)
  }

  function Copies(rows: seq<Row>, wanted: seq<BackupId>): (r: seq<(BackupId, Row)>)
    ensures forall i | 0 <= i < |r| :: r[i].0 < |rows| && r[i].1 == rows[r[i].0]
  {
    if |wanted| == 0 then []
    else (if wanted[0] < |rows| then [(wanted[0], rows[wanted[0]])] else []) + Copies(rows, wanted[1..])
  }

  function StepListLoad(w: World, a: ActorId, wanted: seq<BackupId>): World {
    if a in w.actors then w else Goto(w, a, Listing(Copies(w.rows, wanted), 0, false))
  }

  /** What the job's state makes of a listed copy, in the pass over backups or
      in the pass over restores; none when nothing is written. */
  function Reconciled(row: Row, restores: bool, job: JobState, now: int): (r: Row)
    ensures r.filePath == row.filePath
    ensures !Writes(row, restores, job) ==> r == row
  {
    if job.Unknown? then row
    else if !restores && row.status == Running then
      match job
      case Succeeded => row.(status := Completed, finishedAt := now)
      case Broken => row.(status := Failed, finishedAt := now)
      case _ => row
    else if restores && row.restore == Restoring then
      match job
      case Succeeded => row.(restore := Restored)
      case Broken => row.(restore := RestoreFailed)
      case _ => row
    else row
  }

  predicate Writes(row: Row, restores: bool, job: JobState) {
    !job.Unknown? && (if restores then row.restore == Restoring else row.status == Running)
  }

  function StepListStep(w: World, a: ActorId, job: JobState, now: int, write: Write): World {
    if a !in w.actors || !w.actors[a].Listing? then w
    else
      var Listing(items, next, restores) := w.actors[a];
      if next < |items| then
        var (b, row) := items[next];
        var row' := Reconciled(row, restores, job, now);
        var w' := if Writes(row, restores, job) then Put(w, b, row', write) else w;
        Goto(w', a, Listing(items[next := (b, row')], next + 1, restores))
      else if restores then Done(w, a)
      else Goto(w, a, Listing(items, 0, true))
  }

  function StepRestoreLoad(w: World, a: ActorId, b: BackupId): World {
    if a in w.actors || b >= |w.rows| || w.rows[b].status != Completed || w.rows[b].restore == Restoring then w
    else Goto(w, a, RestoreLoaded(b, w.rows[b]))
  }

  /** The key on the copy, or for a row without one the path old backups used. */
  function StepRestoreLaunch(w: World, a: ActorId, legacy: string, ok: bool): World {
    if a !in w.actors || !w.actors[a].RestoreLoaded? then w
    else
      var RestoreLoaded(b, row) := w.actors[a];
      var key := if row.filePath == "" then legacy else row.filePath;
      var w' := w.(downloads := w.downloads + {(b, key)});
      if ok then Goto(w', a, RestoreStarted(b, row)) else Done(w', a)
  }

  function StepRestoreMark(w: World, a: ActorId, write: Write): World {
    if a !in w.actors || !w.actors[a].RestoreStarted? then w
    else Done(Put(w, w.actors[a].backup, w.actors[a].row.(restore := Restoring), write), a)
  }

  function Step(w: World, l: Label): World {
    match l
    case TriggerCreate(a) => StepTriggerCreate(w, a)
    case TriggerEnqueue(a, ok) => StepTriggerEnqueue(w, a, ok)
    case TriggerFailRow(a, now, write) => StepTriggerFailRow(w, a, now, write)
    case RunLoad(a, b) => StepRunLoad(w, a, b)
    case RunReconcile(a, now, write) => StepRunReconcile(w, a, now, write)
    case RunMark(a, newKey, write) => StepRunMark(w, a, newKey, write)
    case RunLaunch(a, storage, ok) => StepRunLaunch(w, a, storage, ok)
    case RunFail(a, now, write) => StepRunFail(w, a, now, write)
    case ListLoad(a, wanted) => StepListLoad(w, a, wanted)
    case ListStep(a, job, now, write) => StepListStep(w, a, job, now, write)
    case RestoreLoad(a, b) => StepRestoreLoad(w, a, b)
    case RestoreLaunch(a, legacy, ok) => StepRestoreLaunch(w, a, legacy, ok)
    case RestoreMark(a, write) => StepRestoreMark(w, a, write)
    case Crash(a) => Done(w, a)
  }

  function Exec(w: World, ls: seq<Label>): World
    decreases |ls|
  {
    if |ls| == 0 then w else Exec(Step(w, ls[0]), ls[1..])
  }

  lemma {:induction false} ExecSnoc(w: World, ls: seq<Label>, l: Label)
    ensures Exec(w, ls + [l]) == Step(Exec(w, ls), l)
    decreases |ls|
  {
    hide Step;
    if |ls| == 0 {
      assert (ls + [l])[1..] == [];
    } else {
      assert (ls + [l])[1..] == ls[1..] + [l];
      ExecSnoc(Step(w, ls[0]), ls[1..], l);
    }
  }

  const EMPTY := World([], {}, map[], {}, {})

  predicate RunsOn(pc: Actor, b: BackupId) {
    (pc.RunLoaded? || pc.RunMarked? || pc.RunDoomed?) && pc.backup == b
  }

  /** Executions of one job do not overlap. */
  predicate NoOverlap(w: World, l: Label) {
    match l
    case RunLoad(_, b) => forall x :: x in w.actors ==> !RunsOn(w.actors[x], b)
    case _ => true
  }

  predicate Serial(w: World, ls: seq<Label>)
    decreases |ls|
  {
    |ls| > 0 ==> NoOverlap(w, ls[0]) && Serial(Step(w, ls[0]), ls[1..])
  }

  lemma {:induction false} SerialSnoc(w: World, ls: seq<Label>, l: Label)
    ensures Serial(w, ls + [l]) <==> Serial(w, ls) && NoOverlap(Exec(w, ls), l)
    decreases |ls|
  {
    hide Step, NoOverlap;
    if |ls| == 0 {
      assert [] + [l] == [l] && [l][1..] == [];
      assert Serial(Step(w, l), []);
    } else {
      assert (ls + [l])[1..] == ls[1..] + [l];
      SerialSnoc(Step(w, ls[0]), ls[1..], l);
    }
  }
}
