/** Confirming parked buckets as straight-line code over the worker's rows. One
    call, left to itself, takes steps of the worker machine. */
module WorkerService {
  import opened WorkerProtocol
  import opened WorkerConfirm
  import opened WorkerApprovals

  datatype ConfirmAnswers = ConfirmAnswers(claimHeard: bool, stored: bool, heard: bool, end: TriggerEnd, revertOk: bool,
                                           finishOk: bool)

  datatype ConfirmEnd = NothingParked | ClaimLost | Failed | Replaced(next: DepId)

  /** The row a trigger that sends nothing may leave behind. */
  function Unused(end: TriggerEnd): seq<Dep>
  {
    if end.Unsent? then [Dep(if end.status.Failed? then Status.Failed else Queued, [])] else []
  }

  class WorkerTable {
    var confirmed: seq<Bucket>
    var deps: seq<Dep>
    var sent: set<DepId>
    ghost var world: World
    ghost var trace: seq<Label>

    ghost predicate Valid()
      reads this
    {
      world == Exec(EMPTY, trace) && Orderly(EMPTY, trace)
      && (world.confirmed, world.deps, world.sent) == (confirmed, deps, sent)
    }

    constructor ()
      ensures Valid() && trace == []
    {
      confirmed, deps, sent := [], [], {};
      world, trace := EMPTY, [];
    }

    ghost method Take(l: Label)
      requires world == Exec(EMPTY, trace) && Orderly(EMPTY, trace) && NoRunOverlap(world, l)
      modifies this`world, this`trace
      ensures world == Step(old(world), l) && world == Exec(EMPTY, trace) && Orderly(EMPTY, trace)
              && trace == old(trace) + [l]
    {
      hide Step, NoRunOverlap;
      ExecSnoc(EMPTY, trace, l);
      OrderlySnoc(EMPTY, trace, l);
      world := Step(world, l);
      trace := trace + [l];
    }

    /** So what holds of every orderly run holds of the tables at all times. */
    lemma ReplacesOnce()
      requires Valid()
      ensures ReplacedOnce(world) && NoDuplicates(confirmed)
    {
      ConfirmedAtMostOnce(trace);
      ConfirmedStaysDistinct(trace);
    }

    /** The latest deployment's row, when it is parked. */
    method SeeParked(ghost a: ActorId) returns (d: DepId, parked: bool, known: seq<Bucket>)
      requires Valid() && a !in world.actors
      modifies this`world, this`trace
      ensures world.replacements == old(world).replacements
      ensures Valid() && known == confirmed
      ensures parked <==> |deps| > 0 && deps[|deps| - 1].status == NeedsConfirmation
      ensures parked ==> d == |deps| - 1 && world.actors == old(world.actors)[a := ConfirmSeen(known, d, deps[d])]
      ensures !parked ==> world.actors == old(world.actors)
    {
      hide Exec, Orderly;
      known := confirmed;
      Take(ConfirmLoad(a));
      parked := |deps| > 0 && deps[|deps| - 1].status == NeedsConfirmation;
      d := if parked then |deps| - 1 else 0;
      Take(ConfirmSee(a));
    }

    /** Parked to cancelled, for one caller only. */
    method TryClaimNeedsConfirmation(ghost a: ActorId, ghost known: seq<Bucket>, d: DepId, row: Dep, heard: bool)
      returns (claimed: bool)
      requires Valid() && a in world.actors && world.actors[a] == ConfirmSeen(known, d, row)
      modifies this`deps, this`world, this`trace
      ensures world.replacements == old(world).replacements
      ensures Valid()
      ensures claimed <==> d < |old(deps)| && old(deps)[d].status == NeedsConfirmation && heard
      ensures deps == if d < |old(deps)| && old(deps)[d].status == NeedsConfirmation
                      then old(deps)[d := old(deps)[d].(status := Cancelled)] else old(deps)
      ensures world.actors ==
                if claimed then old(world.actors)[a := Claimed(known, d, row.(status := Cancelled))]
                else old(world.actors) - {a}
    {
      hide Exec, Orderly;
      claimed := d < |deps| && deps[d].status == NeedsConfirmation && heard;
      if d < |deps| && deps[d].status == NeedsConfirmation {
        deps := deps[d := deps[d].(status := Cancelled)];
      }
      Take(ConfirmClaim(a, heard));
    }

    /** The approved names, written from the copy read before the claim. */
    method PersistConfirmed(ghost a: ActorId, known: seq<Bucket>, ghost d: DepId, row: Dep, stored: bool, heard: bool)
      returns (ok: bool)
      requires Valid() && a in world.actors && world.actors[a] == Claimed(known, d, row)
      modifies this`confirmed, this`world, this`trace
      ensures world.replacements == old(world).replacements
      ensures Valid() && (ok <==> stored && heard)
      ensures confirmed == if stored then Union(known, row.pending) else old(confirmed)
      ensures world.actors == old(world.actors)[a := if ok then Persisted(d, row) else Reverting(d, row)]
    {
      hide Exec, Orderly, Union;
      var merged := MergeConfirmed(known, row.pending);
      if stored {
        confirmed := merged;
      }
      ok := stored && heard;
      Take(ConfirmPersist(a, stored, heard));
    }

    /** The replacement deployment. */
    method TriggerReplacement(ghost a: ActorId, ghost d: DepId, ghost row: Dep, end: TriggerEnd) returns (next: DepId)
      requires Valid() && a in world.actors && world.actors[a] == Persisted(d, row)
      modifies this`deps, this`sent, this`world, this`trace
      ensures Valid() && next == |old(deps)| && deps == Create(old(world), end).deps
              && sent == Create(old(world), end).sent
      ensures world.actors == old(world.actors)[a := if end.Sent? then Finishing(d, row) else Reverting(d, row)]
      ensures world.replacements == if end.Sent? then old(world).replacements + [(d, next)] else old(world).replacements
    {
      hide Exec, Orderly;
      next := |deps|;
      match end {
        case Sent => deps, sent := deps + [Dep(Queued, [])], sent + {next};
        case NoRow =>
        case Unsent(status) => deps := deps + [Dep(if status.Failed? then Status.Failed else Queued, [])];
      }
      Take(ConfirmTrigger(a, end));
    }

    /** Back to parked, so that the user can try again. */
    method Revert(ghost a: ActorId, d: DepId, row: Dep, ok: bool)
      requires Valid() && a in world.actors && world.actors[a] == Reverting(d, row)
      modifies this`deps, this`world, this`trace
      ensures world.replacements == old(world).replacements
      ensures Valid() && world.actors == old(world.actors) - {a}
      ensures deps == if ok && d < |old(deps)| then old(deps)[d := row.(status := NeedsConfirmation)] else old(deps)
    {
      hide Exec, Orderly;
      if ok && d < |deps| {
        deps := deps[d := row.(status := NeedsConfirmation)];
      }
      Take(ConfirmRevert(a, ok));
    }

    method Finish(ghost a: ActorId, d: DepId, row: Dep, ok: bool)
      requires Valid() && a in world.actors && world.actors[a] == Finishing(d, row)
      modifies this`deps, this`world, this`trace
      ensures world.replacements == old(world).replacements
      ensures Valid() && world.actors == old(world.actors) - {a}
      ensures deps == if ok && d < |old(deps)| then old(deps)[d := row] else old(deps)
    {
      hide Exec, Orderly;
      if ok && d < |deps| {
        deps := deps[d := row];
      }
      Take(ConfirmFinish(a, ok));
    }

    /** After a claim: approve, replace, finish; or put the deployment back. */
    method ReplaceClaimed(ghost a: ActorId, known: seq<Bucket>, d: DepId, row: Dep, o: ConfirmAnswers)
      returns (r: ConfirmEnd)
      requires Valid() && a in world.actors && world.actors[a] == Claimed(known, d, row) && d < |deps|
      modifies this
      ensures Valid() && world.actors == old(world.actors) - {a}
      ensures r == if o.stored && o.heard && o.end.Sent? then Replaced(|old(deps)|) else ConfirmEnd.Failed
      ensures r.Replaced? ==>
                && r.next in sent
                && deps == old(deps)[d := if o.finishOk then row else old(deps)[d]] + [Dep(Queued, [])]
                && confirmed == Union(known, row.pending)
                && world.replacements == old(world).replacements + [(d, r.next)]
      ensures !r.Replaced? ==> sent == old(sent) && world.replacements == old(world).replacements
      ensures !r.Replaced? ==>
                && deps == (if o.revertOk then old(deps)[d := row.(status := NeedsConfirmation)] else old(deps))
                           + (if o.stored && o.heard then Unused(o.end) else [])
                && confirmed == if o.stored then Union(known, row.pending) else old(confirmed)
    {
      hide Exec, Orderly, Step, Union;
      var ok := PersistConfirmed(a, known, d, row, o.stored, o.heard);
      if !ok {
        Revert(a, d, row, o.revertOk);
        return ConfirmEnd.Failed;
      }
      var next := TriggerReplacement(a, d, row, o.end);
      if !o.end.Sent? {
        Revert(a, d, row, o.revertOk);
        return ConfirmEnd.Failed;
      }
      Finish(a, d, row, o.finishOk);
      r := Replaced(next);
    }

    /** One confirmation: the parked deployment ends cancelled with its names
        approved and a replacement queued, or stays parked. */
    method ConfirmR2(ghost a: ActorId, o: ConfirmAnswers) returns (r: ConfirmEnd)
      requires Valid() && a !in world.actors
      modifies this
      ensures Valid() && world.actors == old(world.actors)
      ensures r.NothingParked? <==> |old(deps)| == 0 || old(deps)[|old(deps)| - 1].status != NeedsConfirmation
      ensures r.NothingParked? ==> deps == old(deps) && confirmed == old(confirmed)
      ensures r.Replaced? <==> !r.NothingParked? && o.claimHeard && o.stored && o.heard && o.end.Sent?
      ensures r.Replaced? ==>
                var d := |old(deps)| - 1;
                && r.next == |old(deps)| && r.next in sent
                && deps == old(deps)[d := old(deps)[d].(status := Cancelled)] + [Dep(Queued, [])]
                && confirmed == Union(old(confirmed), old(deps)[d].pending)
                && world.replacements == old(world).replacements + [(d, r.next)]
      ensures r.ClaimLost? <==> !r.NothingParked? && !o.claimHeard
      ensures r.ClaimLost? ==>
                var d := |old(deps)| - 1;
                deps == old(deps)[d := old(deps)[d].(status := Cancelled)] && confirmed == old(confirmed)
      ensures r.Failed? ==>
                var d := |old(deps)| - 1;
                && deps == (if o.revertOk then old(deps) else old(deps)[d := old(deps)[d].(status := Cancelled)])
                           + (if o.stored && o.heard then Unused(o.end) else [])
                && confirmed == if o.stored then Union(old(confirmed), old(deps)[d].pending) else old(confirmed)
      ensures !r.Replaced? ==> world.replacements == old(world).replacements && sent == old(sent)
    {
      hide Exec, Orderly, Step, Union;
      var d, parked, known := SeeParked(a);
      if !parked {
        return NothingParked;
      }
      var row := deps[d];
      var claimed := TryClaimNeedsConfirmation(a, known, d, row, o.claimHeard);
      if !claimed {
        return ClaimLost;
      }
      row := row.(status := Cancelled);
      r := ReplaceClaimed(a, known, d, row, o);
    }
  }
}
