/** The job queue and its consumers: processes that read with a bounded number
    of slots, run jobs side by side, and delete or archive what they ran, while
    processes start, stop, crash and time passes. */
module JobProtocol {

  type MsgId = nat
  type ProcId = nat
  type JobId = nat

  const VISIBILITY := 2400
  const MAX_ATTEMPTS := 5
  const SLOTS := 4

  datatype Msg = Msg(readCt: nat, visibleAt: int, decodes: bool)

  datatype Stage = Running | Deleting | Archiving | Ending

  /** A message in hand: which delivery it is, and when it was read. */
  datatype Job = Job(msg: MsgId, readCt: nat, readAt: int, stage: Stage)

  datatype Reader = Idle | HoldsSlot | Stopped

  datatype Proc = Proc(sem: nat, reader: Reader, jobs: map<JobId, Job>)

  /** `succeeded` and `exhausted` are history: messages with a nil dispatch, and
      messages with a failing dispatch of their fifth or later delivery. */
  datatype World = World(
    now: int,
    sent: set<MsgId>,
    garbled: set<MsgId>,
    queue: map<MsgId, Msg>,
    deleted: set<MsgId>,
    archived: set<MsgId>,
    succeeded: set<MsgId>,
    exhausted: set<MsgId>,
    procs: map<ProcId, Proc>)

  datatype Label =
    | Send(m: MsgId, decodes: bool)
    | Tick(seconds: nat)
    | Start(p: ProcId)
    | Acquire(p: ProcId)
    | ReadNothing(p: ProcId)
    | Read(p: ProcId, j: JobId, m: MsgId)
    | Dispatch(p: ProcId, j: JobId, ok: bool)
    | Dispose(p: ProcId, j: JobId, applied: bool)
    | Release(p: ProcId, j: JobId)
    | Stop(p: ProcId)
    | Kill(p: ProcId)

  function WithProc(w: World, p: ProcId, proc: Proc): World {
    w.(procs := w.procs[p := proc])
  }

  function StepSend(w: World, m: MsgId, decodes: bool): World {
    if m in w.sent then w
    else w.(sent := w.sent + {m}, queue := w.queue[m := Msg(0, w.now, decodes)],
            garbled := if decodes then w.garbled else w.garbled + {m})
  }

  function StepStart(w: World, p: ProcId): World {
    if p in w.procs then w else WithProc(w, p, Proc(0, Idle, map[]))
  }

  /** A slot is taken before anything is read. */
  function StepAcquire(w: World, p: ProcId): World {
    if p !in w.procs || !w.procs[p].reader.Idle? || w.procs[p].sem >= SLOTS then w
    else WithProc(w, p, w.procs[p].(sem := w.procs[p].sem + 1, reader := HoldsSlot))
  }

  function GiveBack(proc: Proc): Proc {
    proc.(sem := if proc.sem > 0 then proc.sem - 1 else 0)
  }

  /** An empty or failed read returns the slot. */
  function StepReadNothing(w: World, p: ProcId): World {
    if p !in w.procs || !w.procs[p].reader.HoldsSlot? then w
    else WithProc(w, p, GiveBack(w.procs[p]).(reader := Idle))
  }

  /** The message is hidden for the visibility timeout and counted as read. One
      whose payload does not decode makes the whole read fail. */
  function StepRead(w: World, p: ProcId, j: JobId, m: MsgId): World {
    if p !in w.procs || !w.procs[p].reader.HoldsSlot? || j in w.procs[p].jobs || m !in w.queue
       || w.queue[m].visibleAt > w.now then w
    else
      var msg := w.queue[m].(readCt := w.queue[m].readCt + 1, visibleAt := w.now + VISIBILITY);
      var w' := w.(queue := w.queue[m := msg]);
      if !msg.decodes then StepReadNothing(w', p)
      else WithProc(w', p,
                    w.procs[p].(reader := Idle, jobs := w.procs[p].jobs[j := Job(m, msg.readCt, w.now, Running)]))
  }

  predicate HasJob(w: World, p: ProcId, j: JobId, stages: set<Stage>) {
    p in w.procs && j in w.procs[p].jobs && w.procs[p].jobs[j].stage in stages
  }

  function SetStage(w: World, p: ProcId, j: JobId, stage: Stage): World
    requires p in w.procs && j in w.procs[p].jobs
  {
    WithProc(w, p, w.procs[p].(jobs := w.procs[p].jobs[j := w.procs[p].jobs[j].(stage := stage)]))
  }

  /** What a finished dispatch asks of the queue. */
  function AfterDispatch(ok: bool, readCt: nat): Stage {
    if ok then Deleting else if readCt >= MAX_ATTEMPTS then Archiving else Ending
  }

  function StepDispatch(w: World, p: ProcId, j: JobId, ok: bool): World {
    if !HasJob(w, p, j, {Running}) then w
    else
      var job := w.procs[p].jobs[j];
      var next := AfterDispatch(ok, job.readCt);
      SetStage(w, p, j, next).(
        succeeded := if next.Deleting? then w.succeeded + {job.msg} else w.succeeded,
        exhausted := if next.Archiving? then w.exhausted + {job.msg} else w.exhausted)
  }

  /** Delete or archive; both do nothing when the message is already gone, and
      either can fail. */
  function StepDispose(w: World, p: ProcId, j: JobId, applied: bool): World {
    if !HasJob(w, p, j, {Deleting, Archiving}) then w
    else
      var job := w.procs[p].jobs[j];
      var w' := SetStage(w, p, j, Ending);
      if !applied || job.msg !in w.queue then w'
      else if job.stage.Deleting? then w'.(queue := w.queue - {job.msg}, deleted := w.deleted + {job.msg})
      else w'.(queue := w.queue - {job.msg}, archived := w.archived + {job.msg})
  }

  function StepRelease(w: World, p: ProcId, j: JobId): World {
    if !HasJob(w, p, j, {Ending}) then w
    else WithProc(w, p, GiveBack(w.procs[p]).(jobs := w.procs[p].jobs - {j}))
  }

  function StepStop(w: World, p: ProcId): World {
    if p !in w.procs || !w.procs[p].reader.Idle? then w else WithProc(w, p, w.procs[p].(reader := Stopped))
  }

  function Step(w: World, l: Label): World {
    match l
    case Send(m, decodes) => StepSend(w, m, decodes)
    case Tick(seconds) => w.(now := w.now + seconds)
    case Start(p) => StepStart(w, p)
    case Acquire(p) => StepAcquire(w, p)
    case ReadNothing(p) => StepReadNothing(w, p)
    case Read(p, j, m) => StepRead(w, p, j, m)
    case Dispatch(p, j, ok) => StepDispatch(w, p, j, ok)
    case Dispose(p, j, applied) => StepDispose(w, p, j, applied)
    case Release(p, j) => StepRelease(w, p, j)
    case Stop(p) => StepStop(w, p)
    case Kill(p) => w.(procs := w.procs - {p})
  }

  function Exec(w: World, ls: seq<Label>): World
    decreases |ls|
  {
    if |ls| == 0 then w else Exec(Step(w, ls[0]), ls[1..])
  }

  const EMPTY := World(0, {}, {}, map[], {}, {}, {}, {}, map[])
}
