/** The approved names over whole runs: never repeated, and forgotten by exactly
    one kind of step, which confirmations that do not overlap never take. */
module WorkerApprovals {
  import opened WorkerProtocol
  import opened WorkerConfirm

  /** A confirmation that still holds the copy of the list it read. */
  predicate Carries(pc: Actor) {
    pc.ConfirmLoaded? || pc.ConfirmSeen? || pc.Claimed?
  }

  // ---------------------------------------------------------- never repeated

  ghost predicate Distinct(w: World) {
    NoDuplicates(w.confirmed) && forall a | a in w.actors && Carries(w.actors[a]) :: NoDuplicates(w.actors[a].known)
  }

  lemma StepKeepsDistinct(w: World, l: Label)
    requires Distinct(w)
    ensures Distinct(Step(w, l))
  {
    hide NoDuplicates, Union;
    if l.ConfirmPersist? && l.a in w.actors && w.actors[l.a].Claimed? {
      UnionMeans(w.actors[l.a].known, w.actors[l.a].row.pending);
    }
  }

  lemma {:induction false} ExecKeepsDistinct(w: World, ls: seq<Label>)
    requires Distinct(w)
    ensures Distinct(Exec(w, ls))
    decreases |ls|
  {
    hide Distinct, Step;
    if |ls| > 0 {
      StepKeepsDistinct(w, ls[0]);
      ExecKeepsDistinct(Step(w, ls[0]), ls[1..]);
    }
  }

  /** Over every run, however confirmations interleave, no name is listed twice. */
  lemma ConfirmedStaysDistinct(ls: seq<Label>)
    ensures NoDuplicates(Exec(EMPTY, ls).confirmed)
  {
    ExecKeepsDistinct(EMPTY, ls);
  }

  // -------------------------------------------------------- never forgotten

  ghost predicate Forgets(w: World, w': World) {
    exists n :: n in w.confirmed && n !in w'.confirmed
  }

  /** A claim about to be persisted from a copy that lacks some approved name,
      which is not among the pending ones either. */
  ghost predicate OutOfDate(w: World, a: ActorId) {
    && a in w.actors && w.actors[a].Claimed?
    && exists n :: n in w.confirmed && n !in w.actors[a].known && n !in w.actors[a].row.pending
  }

  /** The one way a step forgets an approval. */
  lemma ForgetsExactly(w: World, l: Label)
    ensures Forgets(w, Step(w, l)) <==> l.ConfirmPersist? && l.stored && OutOfDate(w, l.a)
  {
    hide Union;
    if l.ConfirmPersist? && l.a in w.actors && w.actors[l.a].Claimed? {
      UnionMeans(w.actors[l.a].known, w.actors[l.a].row.pending);
    } else {
      assert Step(w, l).confirmed == w.confirmed;
    }
  }

  /** Every copy held is the stored list, and one confirmation at most is under way. */
  ghost predicate UpToDate(w: World) {
    && (forall a | a in w.actors && Carries(w.actors[a]) :: w.actors[a].known == w.confirmed)
    && (forall a, b | a in w.actors && b in w.actors && Confirms(w.actors[a]) && Confirms(w.actors[b]) :: a == b)
  }

  lemma StepOnlyAdds(w: World, l: Label)
    requires UpToDate(w) && ConfirmsApart(w, l)
    ensures UpToDate(Step(w, l)) && w.confirmed <= Step(w, l).confirmed
  {
    hide Union;
    if l.ConfirmPersist? && l.a in w.actors && w.actors[l.a].Claimed? {
      UnionMeans(w.actors[l.a].known, w.actors[l.a].row.pending);
    }
  }

  lemma {:induction false} ExecOnlyAdds(w: World, ls: seq<Label>)
    requires UpToDate(w) && Apart(w, ls)
    ensures UpToDate(Exec(w, ls)) && w.confirmed <= Exec(w, ls).confirmed
    decreases |ls|
  {
    hide UpToDate, Step, ConfirmsApart;
    if |ls| > 0 {
      StepOnlyAdds(w, ls[0]);
      ExecOnlyAdds(Step(w, ls[0]), ls[1..]);
    }
  }

  lemma {:induction false} ApartSplit(w: World, ls: seq<Label>, k: nat)
    requires Apart(w, ls) && k <= |ls|
    ensures Apart(w, ls[..k]) && Apart(Exec(w, ls[..k]), ls[k..])
    ensures Exec(w, ls) == Exec(Exec(w, ls[..k]), ls[k..])
    decreases |ls|
  {
    hide Step, ConfirmsApart;
    if k == 0 {
      assert ls[0..] == ls;
    } else {
      ApartSplit(Step(w, ls[0]), ls[1..], k - 1);
      assert ls[..k][1..] == ls[1..][..k - 1] && ls[1..][k - 1..] == ls[k..];
    }
  }

  /** While confirmations do not overlap, the approved names at any point of a
      run are the beginning of the approved names at its end. */
  lemma ApprovalsOnlyGrow(ls: seq<Label>, k: nat)
    requires Apart(EMPTY, ls) && k <= |ls|
    ensures Exec(EMPTY, ls[..k]).confirmed <= Exec(EMPTY, ls).confirmed
  {
    ApartSplit(EMPTY, ls, k);
    ExecOnlyAdds(EMPTY, ls[..k]);
    ExecOnlyAdds(Exec(EMPTY, ls[..k]), ls[k..]);
  }
}
