/** Deployments of one Cloudflare worker that can be parked until a user
    approves existing buckets: runs, time-outs and concurrent confirmations,
    one store call per step. */
module WorkerProtocol {

  type DepId = nat
  type ActorId = nat
  type Bucket = string

  datatype Status = Queued | Deploying | Success | Failed | Cancelled | NeedsConfirmation

  datatype Dep = Dep(status: Status, pending: seq<Bucket>)

  predicate IsTerminal(s: Status) {
    s in {Success, Failed, Cancelled, NeedsConfirmation}
  }

  datatype Actor =
    | RunFresh(dep: DepId, row: Dep)
    | RunKnows(dep: DepId, row: Dep, known: seq<Bucket>)     // worker row read
    | RunMarked(dep: DepId, row: Dep, known: seq<Bucket>)    // deployment row written as deploying
    | ConfirmLoaded(known: seq<Bucket>)
    | ConfirmSeen(known: seq<Bucket>, dep: DepId, row: Dep)
    | Claimed(known: seq<Bucket>, dep: DepId, row: Dep)
    | Persisted(dep: DepId, row: Dep)
    | Reverting(dep: DepId, row: Dep)
    | Finishing(dep: DepId, row: Dep)

  /** `replacements` is history: parked deployment and its replacement, in order. */
  datatype World = World(
    confirmed: seq<Bucket>,
    deps: seq<Dep>,
    sent: set<DepId>,
    actors: map<ActorId, Actor>,
    replacements: seq<(DepId, DepId)>)

  /** How a trigger ends: queued and sent, refused with no row, or a row that was never sent. */
  datatype TriggerEnd = Sent | NoRow | Unsent(status: Status)

  datatype Label =
    | TriggerNew(end: TriggerEnd)
    | RunLoad(a: ActorId, d: DepId)
    | RunLoadWorker(a: ActorId)
    | RunMark(a: ActorId, ok: bool)
    | RunPark(a: ActorId, pending: seq<Bucket>, ok: bool)
    | RunEnd(a: ActorId, success: bool, ok: bool)
    | TimeOut(d: DepId)
    | ConfirmLoad(a: ActorId)
    | ConfirmSee(a: ActorId)
    | ConfirmClaim(a: ActorId, heard: bool)
    | ConfirmPersist(a: ActorId, stored: bool, heard: bool)
    | ConfirmTrigger(a: ActorId, end: TriggerEnd)
    | ConfirmRevert(a: ActorId, ok: bool)
    | ConfirmFinish(a: ActorId, ok: bool)
    | Crash(a: ActorId)

  function Goto(w: World, a: ActorId, pc: Actor): World {
    w.(actors := w.actors[a := pc])
  }

  function Done(w: World, a: ActorId): World {
    w.(actors := w.actors - {a})
  }

  function Put(w: World, d: DepId, row: Dep, ok: bool): World {
    if ok && d < |w.deps| then w.(deps := w.deps[d := row]) else w
  }

  // ------------------------------------------------------------ confirmed names

  /** The confirmed names followed by the pending names not yet among them. */
  function Union(confirmed: seq<Bucket>, pending: seq<Bucket>): seq<Bucket> {
    if |pending| == 0 then confirmed
    else
      var before := Union(confirmed, pending[..|pending| - 1]);
      if pending[|pending| - 1] in before then before else before + [pending[|pending| - 1]]
  }

  predicate NoDuplicates(s: seq<Bucket>) {
    forall i, j | 0 <= i < j < |s| :: s[i] != s[j]
  }

  // --------------------------------------------------------------------- steps

  function Create(w: World, end: TriggerEnd): World {
    match end
    case Sent => w.(deps := w.deps + [Dep(Queued, [])], sent := w.sent + {|w.deps|})
    case NoRow => w
    case Unsent(status) => w.(deps := w.deps + [Dep(if status.Failed? then Failed else Queued, [])])
  }

  function StepRunLoad(w: World, a: ActorId, d: DepId): World {
    if a in w.actors || d !in w.sent || d >= |w.deps| || IsTerminal(w.deps[d].status) then w
    else Goto(w, a, RunFresh(d, w.deps[d]))
  }

  function StepRunLoadWorker(w: World, a: ActorId): World {
    if a !in w.actors || !w.actors[a].RunFresh? then w
    else Goto(w, a, RunKnows(w.actors[a].dep, w.actors[a].row, w.confirmed))
  }

  function StepRunMark(w: World, a: ActorId, ok: bool): World {
    if a !in w.actors || !w.actors[a].RunKnows? then w
    else
      var RunKnows(d, row, known) := w.actors[a];
      Goto(Put(w, d, row.(status := Deploying), ok), a, RunMarked(d, row.(status := Deploying), known))
  }

  /** The build stopped on existing buckets nobody has approved. */
  function StepRunPark(w: World, a: ActorId, pending: seq<Bucket>, ok: bool): World {
    if a !in w.actors || !w.actors[a].RunMarked? then w
    else Done(Put(w, w.actors[a].dep, Dep(NeedsConfirmation, pending), ok), a)
  }

  function StepRunEnd(w: World, a: ActorId, success: bool, ok: bool): World {
    if a !in w.actors || !w.actors[a].RunMarked? then w
    else Done(Put(w, w.actors[a].dep, w.actors[a].row.(status := if success then Success else Failed), ok), a)
  }

  function StepTimeOut(w: World, d: DepId): World {
    if d >= |w.deps| || w.deps[d].status != Deploying then w else Put(w, d, w.deps[d].(status := Failed), true)
  }

  function StepConfirmLoad(w: World, a: ActorId): World {
    if a in w.actors then w else Goto(w, a, ConfirmLoaded(w.confirmed))
  }

  /** Only the latest deployment can be confirmed, and only while it is parked. */
  function StepConfirmSee(w: World, a: ActorId): World {
    if a !in w.actors || !w.actors[a].ConfirmLoaded? then w
    else if |w.deps| == 0 || w.deps[|w.deps| - 1].status != NeedsConfirmation then Done(w, a)
    else Goto(w, a, ConfirmSeen(w.actors[a].known, |w.deps| - 1, w.deps[|w.deps| - 1]))
  }

  /** A compare-and-set from parked to cancelled; its reply can be lost. */
  function StepConfirmClaim(w: World, a: ActorId, heard: bool): World {
    if a !in w.actors || !w.actors[a].ConfirmSeen? then w
    else
      var ConfirmSeen(known, d, row) := w.actors[a];
      if d >= |w.deps| || w.deps[d].status != NeedsConfirmation then Done(w, a)
      else
        var w' := Put(w, d, w.deps[d].(status := Cancelled), true);
        if heard then Goto(w', a, Claimed(known, d, row.(status := Cancelled))) else Done(w', a)
  }

  /** The worker row is written whole, from the copy read before the claim. */
  function StepConfirmPersist(w: World, a: ActorId, stored: bool, heard: bool): World {
    if a !in w.actors || !w.actors[a].Claimed? then w
    else
      var Claimed(known, d, row) := w.actors[a];
      var w' := if stored then w.(confirmed := Union(known, row.pending)) else w;
      Goto(w', a, if stored && heard then Persisted(d, row) else Reverting(d, row))
  }

  function StepConfirmTrigger(w: World, a: ActorId, end: TriggerEnd): World {
    if a !in w.actors || !w.actors[a].Persisted? then w
    else
      var Persisted(d, row) := w.actors[a];
      var w' := Create(w, end);
      if end.Sent? then Goto(w'.(replacements := w.replacements + [(d, |w.deps|)]), a, Finishing(d, row))
      else Goto(w', a, Reverting(d, row))
  }

  function StepConfirmRevert(w: World, a: ActorId, ok: bool): World {
    if a !in w.actors || !w.actors[a].Reverting? then w
    else Done(Put(w, w.actors[a].dep, w.actors[a].row.(status := NeedsConfirmation), ok), a)
  }

  function StepConfirmFinish(w: World, a: ActorId, ok: bool): World {
    if a !in w.actors || !w.actors[a].Finishing? then w
    else Done(Put(w, w.actors[a].dep, w.actors[a].row, ok), a)
  }

  function Step(w: World, l: Label): World {
    match l
    case TriggerNew(end) => Create(w, end)
    case RunLoad(a, d) => StepRunLoad(w, a, d)
    case RunLoadWorker(a) => StepRunLoadWorker(w, a)
    case RunMark(a, ok) => StepRunMark(w, a, ok)
    case RunPark(a, pending, ok) => StepRunPark(w, a, pending, ok)
    case RunEnd(a, success, ok) => StepRunEnd(w, a, success, ok)
    case TimeOut(d) => StepTimeOut(w, d)
    case ConfirmLoad(a) => StepConfirmLoad(w, a)
    case ConfirmSee(a) => StepConfirmSee(w, a)
    case ConfirmClaim(a, heard) => StepConfirmClaim(w, a, heard)
    case ConfirmPersist(a, stored, heard) => StepConfirmPersist(w, a, stored, heard)
    case ConfirmTrigger(a, end) => StepConfirmTrigger(w, a, end)
    case ConfirmRevert(a, ok) => StepConfirmRevert(w, a, ok)
    case ConfirmFinish(a, ok) => StepConfirmFinish(w, a, ok)
    case Crash(a) => Done(w, a)
  }

  function Exec(w: World, ls: seq<Label>): World
    decreases |ls|
  {
    if |ls| == 0 then w else Exec(Step(w, ls[0]), ls[1..])
  }

  lemma {:induction false} ExecSnoc(w: World, ls: seq<Label>, l: Label)
    ensures Exec(w, ls + [l]) == Step(Exec(w, ls), l)
    decreases |ls|
  {
    hide Step;
    if |ls| == 0 {
      assert (ls + [l])[1..] == [];
    } else {
      assert (ls + [l])[1..] == ls[1..] + [l];
      ExecSnoc(Step(w, ls[0]), ls[1..], l);
    }
  }

  const EMPTY := World([], [], {}, map[], [])

  // --------------------------------------------------------------- hypotheses

  predicate RunsOn(pc: Actor, d: DepId) {
    (pc.RunFresh? || pc.RunKnows? || pc.RunMarked?) && pc.dep == d
  }

  predicate Confirms(pc: Actor) {
    !pc.RunFresh? && !pc.RunKnows? && !pc.RunMarked?
  }

  /** No live run is overlapped by its own redelivery or timed out. */
  predicate NoRunOverlap(w: World, l: Label) {
    match l
    case RunLoad(_, d) => forall x :: x in w.actors ==> !RunsOn(w.actors[x], d)
    case TimeOut(d) => forall x :: x in w.actors ==> !RunsOn(w.actors[x], d)
    case _ => true
  }

  predicate Orderly(w: World, ls: seq<Label>)
    decreases |ls|
  {
    |ls| > 0 ==> NoRunOverlap(w, ls[0]) && Orderly(Step(w, ls[0]), ls[1..])
  }

  /** Confirmations do not overlap. */
  predicate ConfirmsApart(w: World, l: Label) {
    l.ConfirmLoad? ==> forall x :: x in w.actors ==> !Confirms(w.actors[x])
  }

  predicate Apart(w: World, ls: seq<Label>)
    decreases |ls|
  {
    |ls| > 0 ==> ConfirmsApart(w, ls[0]) && Apart(Step(w, ls[0]), ls[1..])
  }

  /** A run parks only for some existing bucket that its own copy of the confirmed
      names does not have. */
  predicate ParksAnew(w: World, l: Label, existing: set<Bucket>) {
    l.RunPark? && l.a in w.actors && w.actors[l.a].RunMarked? ==>
      exists n :: n in l.pending && n in existing && n !in w.actors[l.a].known
  }

  predicate GatedStep(w: World, l: Label, existing: set<Bucket>) {
    ConfirmsApart(w, l) && ParksAnew(w, l, existing)
  }

  predicate Gated(w: World, ls: seq<Label>, existing: set<Bucket>)
    decreases |ls|
  {
    |ls| > 0 ==> GatedStep(w, ls[0], existing) && Gated(Step(w, ls[0]), ls[1..], existing)
  }

  lemma {:induction false} OrderlySnoc(w: World, ls: seq<Label>, l: Label)
    ensures Orderly(w, ls + [l]) <==> Orderly(w, ls) && NoRunOverlap(Exec(w, ls), l)
    decreases |ls|
  {
    hide Step, NoRunOverlap;
    if |ls| == 0 {
      assert [] + [l] == [l] && [l][1..] == [];
      assert Orderly(Step(w, l), []);
    } else {
      assert (ls + [l])[1..] == ls[1..] + [l];
      OrderlySnoc(Step(w, ls[0]), ls[1..], l);
    }
  }
}
