/** Bucket confirmation: one replacement per parked deployment, an ordered
    duplicate-free list of approved names, and a bound on how often a user is asked. */
module WorkerConfirm {
  import opened WorkerProtocol

  // ------------------------------------------------------------ the name list

  /** The union keeps the confirmed names in place, adds exactly the pending
      names, and repeats a name only if it was repeated before. */
  lemma {:induction false} UnionMeans(confirmed: seq<Bucket>, pending: seq<Bucket>)
    ensures confirmed <= Union(confirmed, pending)
    ensures forall n :: n in Union(confirmed, pending) <==> n in confirmed || n in pending
    ensures NoDuplicates(Union(confirmed, pending)) <==> NoDuplicates(confirmed)
  {
    if |pending| > 0 {
      UnionMeans(confirmed, pending[..|pending| - 1]);
    }
  }

  /** New names come in the order they were pending. */
  lemma {:induction false} UnionKeepsOrder(confirmed: seq<Bucket>, pending: seq<Bucket>, i: nat, j: nat)
    requires |confirmed| <= i < j < |Union(confirmed, pending)|
    ensures exists p, q ::
              0 <= p < q < |pending| && pending[p] == Union(confirmed, pending)[i]
              && pending[q] == Union(confirmed, pending)[j]
  {
    if |pending| > 0 {
      var n := |pending| - 1;
      var before := Union(confirmed, pending[..n]);
      UnionMeans(confirmed, pending[..n]);
      if j < |before| {
        UnionKeepsOrder(confirmed, pending[..n], i, j);
        var p, q :| 0 <= p < q < n && pending[..n][p] == before[i] && pending[..n][q] == before[j];
        assert pending[p] == before[i] && pending[q] == before[j];
      } else {
        UnionNew(confirmed, pending[..n], i);
        var p :| 0 <= p < n && pending[..n][p] == before[i];
        assert pending[p] == before[i] && pending[n] == Union(confirmed, pending)[j];
      }
    }
  }

  lemma {:induction false} UnionNew(confirmed: seq<Bucket>, pending: seq<Bucket>, i: nat)
    requires |confirmed| <= i < |Union(confirmed, pending)|
    ensures exists p :: 0 <= p < |pending| && pending[p] == Union(confirmed, pending)[i]
  {
    if |pending| > 0 {
      var n := |pending| - 1;
      var before := Union(confirmed, pending[..n]);
      if i < |before| {
        UnionNew(confirmed, pending[..n], i);
        var p :| 0 <= p < n && pending[..n][p] == before[i];
        assert pending[p] == before[i];
      } else {
        assert pending[n] == Union(confirmed, pending)[i];
      }
    }
  }

  /** The merge as a confirmation runs it: a growing list and a set of names seen. */
  method MergeConfirmed(confirmed: seq<Bucket>, pending: seq<Bucket>) returns (merged: seq<Bucket>)
    ensures merged == Union(confirmed, pending)
  {
    merged := confirmed;
    var seen: set<Bucket> := {};
    for i := 0 to |confirmed|
      invariant seen == set n | n in confirmed[..i]
    {
      assert confirmed[..i + 1] == confirmed[..i] + [confirmed[i]];
      seen := seen + {confirmed[i]};
    }
    assert confirmed[..|confirmed|] == confirmed;
    for i := 0 to |pending|
      invariant merged == Union(confirmed, pending[..i])
      invariant seen == set n | n in merged
    {
      assert pending[..i + 1][..i] == pending[..i];
      if pending[i] !in seen {
        merged := merged + [pending[i]];
        seen := seen + {pending[i]};
      }
    }
    assert pending[..|pending|] == pending;
  }

  // --------------------------------------------- one replacement per deployment

  /** No parked deployment was replaced twice. */
  ghost predicate ReplacedOnce(w: World) {
    forall i, j | 0 <= i < j < |w.replacements| :: w.replacements[i].0 != w.replacements[j].0
  }

  ghost predicate Replaced(w: World, d: DepId) {
    exists i :: 0 <= i < |w.replacements| && w.replacements[i].0 == d
  }

  predicate Holds(pc: Actor) {
    pc.Claimed? || pc.Persisted? || pc.Reverting?
  }

  /** Who may write a deployment row: its run, or the confirmation that claimed it. */
  ghost predicate ActorOK(w: World, own: map<DepId, ActorId>, a: ActorId)
    requires a in w.actors
  {
    var pc := w.actors[a];
    pc.ConfirmLoaded? || (
      && pc.dep < |w.deps|
      && (!Confirms(pc) ==> pc.dep in own && own[pc.dep] == a && w.deps[pc.dep].status in {Queued, Deploying})
      && (Holds(pc) ==> pc.dep in own && own[pc.dep] == a && !Replaced(w, pc.dep))
      && (pc.Finishing? ==> Replaced(w, pc.dep))
      && (Holds(pc) || pc.Finishing? ==> w.deps[pc.dep].status == Cancelled && pc.row.status == Cancelled))
  }

  ghost predicate Inv(w: World, own: map<DepId, ActorId>) {
    && ReplacedOnce(w)
    && (forall i | 0 <= i < |w.replacements| ::
          w.replacements[i].0 < |w.deps| && w.deps[w.replacements[i].0].status == Cancelled)
    && (forall a | a in w.actors :: ActorOK(w, own, a))
  }

  /** A step that writes at most one row, of a deployment nobody else may write. */
  lemma RowStep(w: World, own: map<DepId, ActorId>, w': World, a: ActorId, d: DepId)
    requires Inv(w, own) && d < |w.deps| && w'.replacements == w.replacements
    requires |w'.deps| == |w.deps| && forall k | 0 <= k < |w.deps| && k != d :: w'.deps[k] == w.deps[k]
    requires forall b | b in w'.actors && b != a :: b in w.actors && w'.actors[b] == w.actors[b]
    requires w'.deps[d].status != w.deps[d].status ==>
               !Replaced(w, d)
               && (forall b | b in w.actors && b != a && !w.actors[b].ConfirmLoaded? && !w.actors[b].ConfirmSeen? ::
                     w.actors[b].dep != d)
    requires a in w'.actors ==> ActorOK(w', own, a)
    ensures Inv(w', own)
  {
    assert forall k :: Replaced(w', k) == Replaced(w, k);
    forall b | b in w'.actors ensures ActorOK(w', own, b) {
      assert b != a ==> ActorOK(w, own, b);
    }
    forall i | 0 <= i < |w.replacements| ensures w'.deps[w.replacements[i].0].status == Cancelled {
      assert w.replacements[i].0 == d ==> Replaced(w, d);
    }
  }

  /** The owner of a row is the only actor that writes it. */
  lemma OwnerAlone(w: World, own: map<DepId, ActorId>, a: ActorId)
    requires Inv(w, own) && a in w.actors && (Holds(w.actors[a]) || !Confirms(w.actors[a]))
    ensures ActorOK(w, own, a) && !Replaced(w, w.actors[a].dep)
    ensures forall b | b in w.actors && b != a && !w.actors[b].ConfirmLoaded? && !w.actors[b].ConfirmSeen? ::
              w.actors[b].dep != w.actors[a].dep
  {
    assert ActorOK(w, own, a);
    forall b | b in w.actors && b != a && !w.actors[b].ConfirmLoaded? && !w.actors[b].ConfirmSeen?
      ensures w.actors[b].dep != w.actors[a].dep
    {
      assert ActorOK(w, own, b);
    }
  }

  /** An actor moves on and no row is written. */
  lemma QuietStep(w: World, own: map<DepId, ActorId>, w': World, a: ActorId)
    requires Inv(w, own) && w'.replacements == w.replacements && w'.deps == w.deps
    requires forall b | b in w'.actors && b != a :: b in w.actors && w'.actors[b] == w.actors[b]
    requires a in w'.actors ==> ActorOK(w', own, a)
    ensures Inv(w', own)
  {
    assert forall k :: Replaced(w', k) == Replaced(w, k);
    forall b | b in w'.actors ensures ActorOK(w', own, b) {
      assert b != a ==> ActorOK(w, own, b);
    }
  }

  /** A new row at the end of the table. */
  lemma CreateKeeps(w: World, own: map<DepId, ActorId>, end: TriggerEnd)
    requires Inv(w, own)
    ensures Inv(Create(w, end), own)
  {
    var w' := Create(w, end);
    assert forall k :: Replaced(w', k) == Replaced(w, k);
    forall b | b in w'.actors ensures ActorOK(w', own, b) {
      assert ActorOK(w, own, b);
    }
  }

  /** A row becomes someone's, nobody else being able to write it. */
  lemma TakeOver(w: World, own: map<DepId, ActorId>, a: ActorId, d: DepId)
    requires Inv(w, own)
    requires forall b | b in w.actors && b != a && (Holds(w.actors[b]) || !Confirms(w.actors[b])) ::
               w.actors[b].dep != d
    requires a in w.actors ==> !Holds(w.actors[a]) && Confirms(w.actors[a])
    ensures Inv(w, own[d := a])
  {
    forall b | b in w.actors ensures ActorOK(w, own[d := a], b) {
      assert ActorOK(w, own, b);
    }
  }

  lemma RunStepKeeps(w: World, own: map<DepId, ActorId>, l: Label)
    requires Inv(w, own) && (l.RunLoadWorker? || l.RunMark? || l.RunPark? || l.RunEnd?)
    ensures Inv(Step(w, l), own)
  {
    var w' := Step(w, l);
    if w' != w {
      OwnerAlone(w, own, l.a);
      RowStep(w, own, w', l.a, w.actors[l.a].dep);
    }
  }

  lemma RunLoadKeeps(w: World, own: map<DepId, ActorId>, a: ActorId, d: DepId) returns (own': map<DepId, ActorId>)
    requires Inv(w, own) && NoRunOverlap(w, RunLoad(a, d))
    ensures Inv(StepRunLoad(w, a, d), own')
  {
    own' := own;
    var w' := StepRunLoad(w, a, d);
    if w' != w {
      forall b | b in w.actors && b != a && (Holds(w.actors[b]) || !Confirms(w.actors[b]))
        ensures w.actors[b].dep != d
      {
        assert ActorOK(w, own, b) && !RunsOn(w.actors[b], d);
      }
      TakeOver(w, own, a, d);
      own' := own[d := a];
      assert w.deps[d].status == Queued || w.deps[d].status == Deploying;
      QuietStep(w, own', w', a);
    }
  }

  lemma TimeOutKeeps(w: World, own: map<DepId, ActorId>, d: DepId)
    requires Inv(w, own) && NoRunOverlap(w, TimeOut(d))
    ensures Inv(StepTimeOut(w, d), own)
  {
    var w' := StepTimeOut(w, d);
    if w' != w {
      assert forall k :: Replaced(w', k) == Replaced(w, k);
      forall b | b in w'.actors ensures ActorOK(w', own, b) {
        assert ActorOK(w, own, b) && !RunsOn(w.actors[b], d);
      }
    }
  }

  /** The compare-and-set: the row was parked, so nobody could write it. */
  lemma ClaimKeeps(w: World, own: map<DepId, ActorId>, a: ActorId, heard: bool) returns (own': map<DepId, ActorId>)
    requires Inv(w, own)
    ensures Inv(StepConfirmClaim(w, a, heard), own')
  {
    own' := own;
    var w' := StepConfirmClaim(w, a, heard);
    if w' != w {
      var d := w.actors[a].dep;
      forall b | b in w.actors && b != a && !w.actors[b].ConfirmLoaded? && !w.actors[b].ConfirmSeen?
        ensures d < |w.deps| && w.deps[d].status == NeedsConfirmation ==> w.actors[b].dep != d
      {
        assert ActorOK(w, own, b);
      }
      if d < |w.deps| && w.deps[d].status == NeedsConfirmation {
        TakeOver(w, own, a, d);
        own' := own[d := a];
        RowStep(w, own', w', a, d);
      } else {
        QuietStep(w, own, w', a);
      }
    }
  }

  /** The one step that adds a replacement: its deployment is still unreplaced. */
  lemma ConfirmTriggerKeeps(w: World, own: map<DepId, ActorId>, a: ActorId, end: TriggerEnd)
    requires Inv(w, own)
    ensures Inv(StepConfirmTrigger(w, a, end), own)
  {
    var w' := StepConfirmTrigger(w, a, end);
    if w' != w {
      OwnerAlone(w, own, a);
      var d := w.actors[a].dep;
      CreateKeeps(w, own, end);
      var w1 := Create(w, end);
      if end.Sent? {
        var n := |w.replacements|;
        assert w'.replacements[n].0 == d;
        assert forall k :: Replaced(w', k) <==> Replaced(w, k) || k == d by {
          assert w'.replacements[..n] == w.replacements;
          assert forall i | 0 <= i < n :: w'.replacements[i] == w.replacements[i];
        }
        forall b | b in w'.actors ensures ActorOK(w', own, b) {
          if b != a {
            assert ActorOK(w, own, b);
          }
        }
        forall i, j | 0 <= i < j < |w'.replacements| ensures w'.replacements[i].0 != w'.replacements[j].0 {
          assert w'.replacements[i] == w.replacements[i];
          assert j == n ==> Replaced(w, w.replacements[i].0);
        }
      } else {
        QuietStep(w1, own, w', a);
      }
    }
  }

  lemma ConfirmOthersKeep(w: World, own: map<DepId, ActorId>, l: Label)
    requires Inv(w, own) && (l.ConfirmLoad? || l.ConfirmSee? || l.ConfirmPersist? || l.Crash?)
    ensures Inv(Step(w, l), own)
  {
    var w' := Step(w, l);
    if w' != w {
      if l.a in w.actors {
        assert ActorOK(w, own, l.a);
      }
      QuietStep(w, own, w', l.a);
    }
  }

  lemma ConfirmEndKeeps(w: World, own: map<DepId, ActorId>, l: Label)
    requires Inv(w, own) && (l.ConfirmRevert? || l.ConfirmFinish?)
    ensures Inv(Step(w, l), own)
  {
    var w' := Step(w, l);
    if w' != w {
      assert ActorOK(w, own, l.a);
      if l.ConfirmRevert? {
        OwnerAlone(w, own, l.a);
      }
      RowStep(w, own, w', l.a, w.actors[l.a].dep);
    }
  }

  lemma StepKeepsInv(w: World, own: map<DepId, ActorId>, l: Label) returns (own': map<DepId, ActorId>)
    requires Inv(w, own) && NoRunOverlap(w, l)
    ensures Inv(Step(w, l), own')
  {
    hide Inv, NoRunOverlap;
    own' := own;
    match l
    case TriggerNew(end) => CreateKeeps(w, own, end);
    case RunLoad(a, d) => own' := RunLoadKeeps(w, own, a, d);
    case RunLoadWorker(_) => RunStepKeeps(w, own, l);
    case RunMark(_, _) => RunStepKeeps(w, own, l);
    case RunPark(_, _, _) => RunStepKeeps(w, own, l);
    case RunEnd(_, _, _) => RunStepKeeps(w, own, l);
    case TimeOut(d) => TimeOutKeeps(w, own, d);
    case ConfirmClaim(a, heard) => own' := ClaimKeeps(w, own, a, heard);
    case ConfirmTrigger(a, end) => ConfirmTriggerKeeps(w, own, a, end);
    case ConfirmRevert(_, _) => ConfirmEndKeeps(w, own, l);
    case ConfirmFinish(_, _) => ConfirmEndKeeps(w, own, l);
    case _ => ConfirmOthersKeep(w, own, l);
  }

  lemma {:induction false} ExecKeepsInv(w: World, own: map<DepId, ActorId>, ls: seq<Label>)
    returns (own': map<DepId, ActorId>)
    requires Inv(w, own) && Orderly(w, ls)
    ensures Inv(Exec(w, ls), own')
    decreases |ls|
  {
    hide Inv, Step, NoRunOverlap;
    own' := own;
    if |ls| > 0 {
      own' := StepKeepsInv(w, own, ls[0]);
      own' := ExecKeepsInv(Step(w, ls[0]), own', ls[1..]);
    }
  }

  /** However confirmations interleave, crash and revert, a parked deployment
      gets at most one successful replacement. */
  lemma ConfirmedAtMostOnce(ls: seq<Label>)
    requires Orderly(EMPTY, ls)
    ensures ReplacedOnce(Exec(EMPTY, ls))
  {
    var own := ExecKeepsInv(EMPTY, map[], ls);
  }

  // ------------------------------------------------------ how often a user asks

  /** The approvals behind the last replacement: the existing buckets confirmed
      by then, and the first deployment created since. */
  datatype Round = Round(base: set<Bucket>, since: DepId)

  /** Some existing bucket among the pending names was not approved before this round. */
  ghost predicate AsksAnew(pending: seq<Bucket>, existing: set<Bucket>, g: Round) {
    exists n :: n in pending && n in existing && n !in g.base
  }

  ghost predicate RoundActorOK(w: World, existing: set<Bucket>, g: Round, a: ActorId)
    requires a in w.actors
  {
    match w.actors[a]
    case RunFresh(d, _) => d < |w.deps|
    case RunKnows(d, _, known) => d < |w.deps| && (d >= g.since ==> forall n | n in g.base :: n in known)
    case RunMarked(d, _, known) => d < |w.deps| && (d >= g.since ==> forall n | n in g.base :: n in known)
    case ConfirmLoaded(known) => known == w.confirmed
    case ConfirmSeen(known, d, row) => known == w.confirmed && d >= g.since && AsksAnew(row.pending, existing, g)
    case Claimed(known, d, row) =>
      row.status == Cancelled && known == w.confirmed && d >= g.since && AsksAnew(row.pending, existing, g)
    case Persisted(d, row) =>
      && row.status == Cancelled && d >= g.since && AsksAnew(row.pending, existing, g)
      && forall n | n in row.pending :: n in w.confirmed
    case Reverting(d, row) => d >= g.since && AsksAnew(row.pending, existing, g)
    case Finishing(_, row) => row.status == Cancelled
  }

  ghost predicate RoundInv(w: World, existing: set<Bucket>, g: Round) {
    && |w.replacements| <= |g.base| && g.base <= existing && (forall n | n in g.base :: n in w.confirmed)
    && (if |w.deps| == 0 then g.since == 0 else g.since < |w.deps|)
    && (forall d | g.since <= d < |w.deps| && w.deps[d].status == NeedsConfirmation ::
          AsksAnew(w.deps[d].pending, existing, g))
    && (forall a | a in w.actors :: RoundActorOK(w, existing, g, a))
    && (forall a, b | a in w.actors && b in w.actors && Confirms(w.actors[a]) && Confirms(w.actors[b]) :: a == b)
  }

  /** A step that leaves the list alone and writes no parked row, or one that asks anew. */
  lemma RowRounds(w: World, existing: set<Bucket>, g: Round, w': World, a: ActorId)
    requires RoundInv(w, existing, g) && w'.confirmed == w.confirmed && w'.replacements == w.replacements
             && |w'.deps| >= |w.deps|
    requires forall d | g.since <= d < |w'.deps| && w'.deps[d].status == NeedsConfirmation ::
               AsksAnew(w'.deps[d].pending, existing, g) || (d < |w.deps| && w'.deps[d] == w.deps[d])
    requires forall b | b in w'.actors && b != a :: b in w.actors && w'.actors[b] == w.actors[b]
    requires a in w'.actors ==> RoundActorOK(w', existing, g, a)
    requires a in w'.actors && Confirms(w'.actors[a]) ==>
               (a in w.actors && Confirms(w.actors[a])) || forall b :: b in w.actors ==> !Confirms(w.actors[b])
    ensures RoundInv(w', existing, g)
  {
    forall b | b in w'.actors ensures RoundActorOK(w', existing, g, b) {
      assert b != a ==> RoundActorOK(w, existing, g, b);
    }
  }

  lemma RunRounds(w: World, existing: set<Bucket>, g: Round, l: Label)
    requires RoundInv(w, existing, g) && GatedStep(w, l, existing)
    requires l.RunLoad? || l.RunLoadWorker? || l.RunMark? || l.RunPark? || l.RunEnd?
    ensures RoundInv(Step(w, l), existing, g)
  {
    if l.a in w.actors {
      assert RoundActorOK(w, existing, g, l.a);
    }
    if Step(w, l) != w {
      RowRounds(w, existing, g, Step(w, l), l.a);
    }
  }

  lemma OtherRounds(w: World, existing: set<Bucket>, g: Round, l: Label)
    requires RoundInv(w, existing, g) && (l.TimeOut? || l.TriggerNew? || l.Crash?)
    ensures RoundInv(Step(w, l), existing, g)
  {
    var w' := Step(w, l);
    forall b | b in w'.actors ensures RoundActorOK(w', existing, g, b) {
      assert RoundActorOK(w, existing, g, b);
    }
  }

  lemma ConfirmRounds(w: World, existing: set<Bucket>, g: Round, l: Label)
    requires RoundInv(w, existing, g) && GatedStep(w, l, existing)
    requires l.ConfirmLoad? || l.ConfirmSee? || l.ConfirmClaim? || l.ConfirmRevert? || l.ConfirmFinish?
    ensures RoundInv(Step(w, l), existing, g)
  {
    if l.a in w.actors {
      assert RoundActorOK(w, existing, g, l.a);
    }
    if Step(w, l) != w {
      RowRounds(w, existing, g, Step(w, l), l.a);
    }
  }

  /** Nobody else is confirming, so the list written only grows. */
  lemma PersistRounds(w: World, existing: set<Bucket>, g: Round, a: ActorId, stored: bool, heard: bool)
    requires RoundInv(w, existing, g)
    ensures RoundInv(StepConfirmPersist(w, a, stored, heard), existing, g)
  {
    var w' := StepConfirmPersist(w, a, stored, heard);
    if w' != w {
      assert RoundActorOK(w, existing, g, a);
      UnionMeans(w.actors[a].known, w.actors[a].row.pending);
      forall b | b in w'.actors ensures RoundActorOK(w', existing, g, b) {
        assert RoundActorOK(w, existing, g, b);
      }
    }
  }

  /** A replacement closes a round that approved at least one more existing bucket. */
  lemma TriggerRounds(w: World, existing: set<Bucket>, g: Round, a: ActorId, end: TriggerEnd) returns (g': Round)
    requires RoundInv(w, existing, g)
    ensures RoundInv(StepConfirmTrigger(w, a, end), existing, g')
  {
    g' := g;
    var w' := StepConfirmTrigger(w, a, end);
    if w' != w {
      assert RoundActorOK(w, existing, g, a);
      if end.Sent? {
        assert forall b | b in w.actors && b != a :: RoundActorOK(w, existing, g, b) && !Confirms(w.actors[b]);
        var n :| n in w.actors[a].row.pending && n in existing && n !in g.base;
        var base := set x | x in existing && x in w.confirmed;
        Larger(g.base + {n}, base);
        g' := Round(base, |w.deps|);
        forall b | b in w'.actors ensures RoundActorOK(w', existing, g', b) {
          assert RoundActorOK(w, existing, g, b);
        }
      } else {
        forall b | b in w'.actors ensures RoundActorOK(w', existing, g', b) {
          assert RoundActorOK(w, existing, g, b);
        }
      }
    }
  }

  lemma Larger(a: set<Bucket>, b: set<Bucket>)
    requires a <= b
    ensures |a| <= |b|
  {
    assert b == a + (b - a);
  }

  lemma {:induction false} ExecRounds(w: World, existing: set<Bucket>, g: Round, ls: seq<Label>) returns (g': Round)
    requires RoundInv(w, existing, g) && Gated(w, ls, existing)
    ensures RoundInv(Exec(w, ls), existing, g')
    decreases |ls|
  {
    hide RoundInv, GatedStep;
    g' := g;
    if |ls| > 0 {
      var l := ls[0];
      if l.ConfirmTrigger? {
        g' := TriggerRounds(w, existing, g, l.a, l.end);
      } else if l.ConfirmPersist? {
        PersistRounds(w, existing, g, l.a, l.stored, l.heard);
      } else if l.ConfirmLoad? || l.ConfirmSee? || l.ConfirmClaim? || l.ConfirmRevert? || l.ConfirmFinish? {
        ConfirmRounds(w, existing, g, l);
      } else if l.TimeOut? || l.TriggerNew? || l.Crash? {
        OtherRounds(w, existing, g, l);
      } else {
        RunRounds(w, existing, g, l);
      }
      g' := ExecRounds(Step(w, l), existing, g', ls[1..]);
    }
  }

  /** When confirmations do not overlap and runs park only for existing buckets
      they found unapproved, a user confirms at most once per existing bucket. */
  lemma ConfirmRoundsBounded(ls: seq<Label>, existing: set<Bucket>)
    requires Gated(EMPTY, ls, existing)
    ensures |Exec(EMPTY, ls).replacements| <= |existing|
  {
    var g := ExecRounds(EMPTY, existing, Round({}, 0), ls);
    Larger(g.base, existing);
  }

  // ------------------------------------------------- why confirmations must not overlap

  /** One deployment triggered, run against the current list, and parked. */
  lemma Parked(w: World, a: ActorId, pending: seq<Bucket>) returns (ls: seq<Label>, w': World)
    requires a !in w.actors && forall b | b in w.actors :: Confirms(w.actors[b])
    ensures w' == w.(deps := w.deps + [Dep(NeedsConfirmation, pending)], sent := w.sent + {|w.deps|})
    ensures Exec(w, ls) == w'
  {
    hide Exec;
    var d := |w.deps|;
    var w1 := Create(w, Sent);
    var w2 := StepRunLoad(w1, a, d);
    var w3 := StepRunLoadWorker(w2, a);
    var w4 := StepRunMark(w3, a, true);
    w' := StepRunPark(w4, a, pending, true);
    assert w4.actors - {a} == w.actors;
    assert w'.deps == w.deps + [Dep(NeedsConfirmation, pending)];
    ls := [TriggerNew(Sent), RunLoad(a, d), RunLoadWorker(a), RunMark(a, true), RunPark(a, pending, true)];
    ExecFive(w, ls);
  }

  lemma ExecFive(w: World, ls: seq<Label>)
    requires |ls| == 5
    ensures Exec(w, ls) == Step(Step(Step(Step(Step(w, ls[0]), ls[1]), ls[2]), ls[3]), ls[4])
  {
    hide Step;
    assert ls == ls[..4] + [ls[4]] && ls[..4] == ls[..3] + [ls[3]] && ls[..3] == ls[..2] + [ls[2]];
    assert ls[..2] == ls[..1] + [ls[1]] && ls[..1] == [] + [ls[0]];
    ExecSnoc(w, ls[..4], ls[4]);
    ExecSnoc(w, ls[..3], ls[3]);
    ExecSnoc(w, ls[..2], ls[2]);
    ExecSnoc(w, ls[..1], ls[1]);
    ExecSnoc(w, [], ls[0]);
  }

  lemma {:induction false} ExecAppend(w: World, ls: seq<Label>, ms: seq<Label>)
    ensures Exec(w, ls + ms) == Exec(Exec(w, ls), ms)
    decreases |ls|
  {
    hide Step;
    if |ls| == 0 {
      assert ls + ms == ms;
    } else {
      assert (ls + ms)[1..] == ls[1..] + ms;
      ExecAppend(Step(w, ls[0]), ls[1..], ms);
    }
  }

  /** One confirmation from the latest parked deployment to its persisted names,
      with a copy of the list that may be old. */
  lemma PersistsOldCopy(w: World, a: ActorId, known: seq<Bucket>, pending: seq<Bucket>)
    returns (ls: seq<Label>, w': World)
    requires a in w.actors && w.actors[a] == ConfirmLoaded(known)
    requires |w.deps| > 0 && w.deps[|w.deps| - 1] == Dep(NeedsConfirmation, pending)
    ensures Exec(w, ls) == w' && w'.confirmed == Union(known, pending) && w'.actors.Keys == w.actors.Keys
    ensures (forall b | b in w.actors && b != a :: w'.actors[b] == w.actors[b]) && Confirms(w'.actors[a])
  {
    hide Exec;
    var w1 := StepConfirmSee(w, a);
    var w2 := StepConfirmClaim(w1, a, true);
    var w3 := StepConfirmPersist(w2, a, true, true);
    w' := StepConfirmTrigger(w3, a, NoRow);
    var w5 := StepConfirmTrigger(w', a, NoRow);
    assert w5 == w';
    ls := [ConfirmSee(a), ConfirmClaim(a, true), ConfirmPersist(a, true, true), ConfirmTrigger(a, NoRow),
           ConfirmTrigger(a, NoRow)];
    ExecFive(w, ls);
  }

  /** Two confirmations have read the worker; one of them has approved "x". */
  lemma FirstApproves() returns (ls: seq<Label>, w: World)
    ensures Exec(EMPTY, ls) == w && w.confirmed == ["x"] && w.actors.Keys == {2, 3}
    ensures w.actors[2] == ConfirmLoaded([]) && Confirms(w.actors[3])
  {
    hide Exec;
    var ls1, w1 := Parked(EMPTY, 1, ["x"]);
    ExecSnoc(EMPTY, ls1, ConfirmLoad(2));
    ls1 := ls1 + [ConfirmLoad(2)];
    ExecSnoc(EMPTY, ls1, ConfirmLoad(3));
    ls1 := ls1 + [ConfirmLoad(3)];
    var w2 := Exec(EMPTY, ls1);
    assert w2.actors == map[2 := ConfirmLoaded([]), 3 := ConfirmLoaded([])];
    var ls2, w3 := PersistsOldCopy(w2, 3, [], ["x"]);
    ExecAppend(EMPTY, ls1, ls2);
    ls, w := ls1 + ls2, w3;
    assert ["x"][..0] == [];
    assert Union([], ["x"]) == ["x"];
  }

  /** A confirmation that read the worker before another one finished writes its
      old list back: a bucket already approved is forgotten. */
  lemma OverlapForgetsApproval() returns (ls: seq<Label>, k: nat)
    ensures k <= |ls| && "x" in Exec(EMPTY, ls[..k]).confirmed && "x" !in Exec(EMPTY, ls).confirmed
  {
    hide Exec;
    var first, w1 := FirstApproves();
    var ls2, w2 := Parked(w1, 4, ["y"]);
    ExecAppend(EMPTY, first, ls2);
    var ls3, w3 := PersistsOldCopy(w2, 2, [], ["y"]);
    ExecAppend(EMPTY, first + ls2, ls3);
    ls, k := first + ls2 + ls3, |first|;
    assert ls[..k] == first;
    assert ["y"][..0] == [];
    assert Union([], ["y"]) == ["y"];
  }
}
