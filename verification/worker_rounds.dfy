/** How often a user is asked when confirmations do overlap: an account of every
    run, and a run that asks twice for one bucket although nothing is forgotten. */
module WorkerRounds {
  import opened WorkerProtocol
  import opened WorkerConfirm

  // ----------------------------------------------------------------- the account

  /** What a run has come to so far: existing names gained and dropped by its
      persists, replacements whose own persist gained none, and the confirmations
      past a persist that gained some. */
  datatype Ledger = Ledger(gainers: set<ActorId>, gained: nat, dropped: nat, idle: nat)

  const BLANK := Ledger({}, 0, 0, 0)

  function Approved(w: World, existing: set<Bucket>): set<Bucket> {
    set n | n in existing && n in w.confirmed
  }

  predicate IsPersisted(w: World, a: ActorId) {
    a in w.actors && w.actors[a].Persisted?
  }

  /** One more step on the account. */
  function Noted(w: World, l: Label, existing: set<Bucket>, g: Ledger): Ledger {
    var before, after := Approved(w, existing), Approved(Step(w, l), existing);
    Ledger(
      if !l.ConfirmPersist? then g.gainers else if after - before == {} then g.gainers - {l.a} else g.gainers + {l.a},
      g.gained + |after - before|,
      g.dropped + |before - after|,
      if l.ConfirmTrigger? && l.end.Sent? && IsPersisted(w, l.a) && l.a !in g.gainers then g.idle + 1 else g.idle)
  }

  function Account(w: World, ls: seq<Label>, existing: set<Bucket>, g: Ledger): Ledger
    decreases |ls|
  {
    if |ls| == 0 then g else Account(Step(w, ls[0]), ls[1..], existing, Noted(w, ls[0], existing, g))
  }

  /** Confirmations whose gain no replacement has been charged to yet. */
  function Credit(w: World, g: Ledger): set<ActorId> {
    set a | a in g.gainers && IsPersisted(w, a)
  }

  /** The books balance: names held are gains less drops, and every replacement
      is charged to a gain of its own or counted idle. */
  ghost predicate Balanced(w: World, existing: set<Bucket>, g: Ledger) {
    && g.gained == |Approved(w, existing)| + g.dropped
    && |w.replacements| + |Credit(w, g)| <= g.gained + g.idle
  }

  lemma Difference(a: set<Bucket>, b: set<Bucket>)
    ensures |b| + |a - b| == |a| + |b - a|
  {
    assert a == (a * b) + (a - b) && b == (a * b) + (b - a);
  }

  lemma CreditShrinks(a: set<ActorId>, b: set<ActorId>)
    requires a <= b
    ensures |a| <= |b| && (a != b ==> |a| < |b|)
  {
    assert b == a + (b - a);
  }

  lemma OneMore(a: set<ActorId>, b: set<ActorId>, x: ActorId)
    requires b <= a + {x}
    ensures |b| <= |a| + 1
  {
    CreditShrinks(b, a + {x});
    if x in a {
      assert a + {x} == a;
    }
  }

  lemma PersistBalances(w: World, existing: set<Bucket>, g: Ledger, l: Label)
    requires Balanced(w, existing, g) && l.ConfirmPersist?
    ensures Balanced(Step(w, l), existing, Noted(w, l, existing, g))
  {
    var w', g' := Step(w, l), Noted(w, l, existing, g);
    var before, after := Approved(w, existing), Approved(w', existing);
    Difference(before, after);
    if after - before == {} {
      assert Credit(w', g') <= Credit(w, g);
      CreditShrinks(Credit(w', g'), Credit(w, g));
    } else {
      assert |after - before| >= 1;
      OneMore(Credit(w, g), Credit(w', g'), l.a);
    }
  }

  lemma TriggerBalances(w: World, existing: set<Bucket>, g: Ledger, l: Label)
    requires Balanced(w, existing, g) && l.ConfirmTrigger?
    ensures Balanced(Step(w, l), existing, Noted(w, l, existing, g))
  {
    var w', g' := Step(w, l), Noted(w, l, existing, g);
    assert w'.confirmed == w.confirmed && Approved(w', existing) == Approved(w, existing);
    assert Credit(w', g') <= Credit(w, g);
    CreditShrinks(Credit(w', g'), Credit(w, g));
    if IsPersisted(w, l.a) && l.a in g.gainers {
      assert l.a in Credit(w, g) && l.a !in Credit(w', g');
    }
  }

  lemma OthersBalance(w: World, existing: set<Bucket>, g: Ledger, l: Label)
    requires Balanced(w, existing, g) && !l.ConfirmPersist? && !l.ConfirmTrigger?
    ensures Balanced(Step(w, l), existing, Noted(w, l, existing, g))
  {
    var w', g' := Step(w, l), Noted(w, l, existing, g);
    assert w'.confirmed == w.confirmed && Approved(w', existing) == Approved(w, existing);
    assert Credit(w', g') <= Credit(w, g);
    CreditShrinks(Credit(w', g'), Credit(w, g));
  }

  lemma {:induction false} ExecBalances(w: World, ls: seq<Label>, existing: set<Bucket>, g: Ledger)
    requires Balanced(w, existing, g)
    ensures Balanced(Exec(w, ls), existing, Account(w, ls, existing, g))
    decreases |ls|
  {
    hide Balanced, Step, Noted;
    if |ls| > 0 {
      var l := ls[0];
      if l.ConfirmPersist? {
        PersistBalances(w, existing, g, l);
      } else if l.ConfirmTrigger? {
        TriggerBalances(w, existing, g, l);
      } else {
        OthersBalance(w, existing, g, l);
      }
      ExecBalances(Step(w, l), ls[1..], existing, Noted(w, l, existing, g));
    }
  }

  /** In every run, whatever overlaps: a user confirms at most once per existing
      bucket, once more per existing name a persist dropped, and once more per
      replacement whose persist approved nothing new. */
  lemma RoundsAccountedFor(ls: seq<Label>, existing: set<Bucket>)
    ensures var g := Account(EMPTY, ls, existing, BLANK);
      |Exec(EMPTY, ls).replacements| <= |existing| + g.dropped + g.idle
  {
    assert Approved(EMPTY, existing) == {} && Credit(EMPTY, BLANK) == {};
    ExecBalances(EMPTY, ls, existing, BLANK);
    Larger(Approved(Exec(EMPTY, ls), existing), existing);
  }

  // ------------------------------------------------------- asked twice for one bucket

  predicate ParksGated(w: World, ls: seq<Label>, existing: set<Bucket>)
    decreases |ls|
  {
    |ls| > 0 ==> ParksAnew(w, ls[0], existing) && ParksGated(Step(w, ls[0]), ls[1..], existing)
  }

  const B: seq<Bucket> := ["b"]

  /** `ls` goes from `w` to `w'` with runs apart and parked for the bucket "b" only when it is not approved. */
  predicate Goes(w: World, ls: seq<Label>, w': World) {
    Exec(w, ls) == w' && ParksGated(w, ls, {"b"}) && Orderly(w, ls)
  }

  lemma {:induction false} Then(w: World, ls: seq<Label>, w1: World, ms: seq<Label>, w2: World)
    requires Goes(w, ls, w1) && Goes(w1, ms, w2)
    ensures Goes(w, ls + ms, w2)
    decreases |ls|
  {
    hide Step, ParksAnew, NoRunOverlap;
    if |ls| == 0 {
      assert ls + ms == ms;
    } else {
      assert (ls + ms)[1..] == ls[1..] + ms;
      Then(Step(w, ls[0]), ls[1..], w1, ms, w2);
    }
  }

  lemma OneStep(w: World, l: Label)
    requires ParksAnew(w, l, {"b"}) && NoRunOverlap(w, l)
    ensures Goes(w, [l], Step(w, l))
  {
    hide Step, ParksAnew, NoRunOverlap;
    var w' := Step(w, l);
    assert [l][1..] == [];
    assert Exec(w', []) == w' && ParksGated(w', [], {"b"}) && Orderly(w', []);
  }

  /** A deployment triggered, run against the list as it is, and parked for "b". */
  lemma ParkedForB(w: World, a: ActorId) returns (ls: seq<Label>, w': World)
    requires a !in w.actors && w.confirmed == [] && forall b | b in w.actors :: Confirms(w.actors[b])
    ensures Goes(w, ls, w')
    ensures w' == w.(deps := w.deps + [Dep(NeedsConfirmation, B)], sent := w.sent + {|w.deps|})
  {
    hide Goes;
    var d := |w.deps|;
    var w1 := Create(w, Sent);
    OneStep(w, TriggerNew(Sent));
    var w2 := StepRunLoad(w1, a, d);
    OneStep(w1, RunLoad(a, d));
    Then(w, [TriggerNew(Sent)], w1, [RunLoad(a, d)], w2);
    ls := [TriggerNew(Sent)] + [RunLoad(a, d)];
    var w3 := Goto(w2, a, RunKnows(d, Dep(Queued, []), []));
    OneStep(w2, RunLoadWorker(a));
    Then(w, ls, w2, [RunLoadWorker(a)], w3);
    ls := ls + [RunLoadWorker(a)];
    w' := RunAndPark(w3, a, d);
    Then(w, ls, w3, [RunMark(a, true)] + [RunPark(a, B, true)], w');
    ls := ls + ([RunMark(a, true)] + [RunPark(a, B, true)]);
    assert w3.actors - {a} == w.actors;
    assert w'.deps == w.deps + [Dep(NeedsConfirmation, B)];
  }

  lemma RunAndPark(w: World, a: ActorId, d: DepId) returns (w': World)
    requires a in w.actors && w.actors[a] == RunKnows(d, Dep(Queued, []), []) && d < |w.deps|
    ensures Goes(w, [RunMark(a, true)] + [RunPark(a, B, true)], w')
    ensures w' == Done(w, a).(deps := w.deps[d := Dep(NeedsConfirmation, B)])
  {
    hide Goes;
    var w1 := StepRunMark(w, a, true);
    OneStep(w, RunMark(a, true));
    w' := StepRunPark(w1, a, B, true);
    assert ParksAnew(w1, RunPark(a, B, true), {"b"}) by {
      assert "b" in B && "b" !in w1.actors[a].known;
    }
    OneStep(w1, RunPark(a, B, true));
    Then(w, [RunMark(a, true)], w1, [RunPark(a, B, true)], w');
    assert w1.actors - {a} == w.actors - {a};
  }

  /** A confirmation that has seen the latest deployment parked. */
  lemma SeenBy(w: World, a: ActorId) returns (ls: seq<Label>, w': World)
    requires a !in w.actors && |w.deps| > 0 && w.deps[|w.deps| - 1] == Dep(NeedsConfirmation, B)
    ensures Goes(w, ls, w')
    ensures w' == Goto(w, a, ConfirmSeen(w.confirmed, |w.deps| - 1, Dep(NeedsConfirmation, B)))
  {
    hide Goes;
    var w1 := StepConfirmLoad(w, a);
    OneStep(w, ConfirmLoad(a));
    w' := StepConfirmSee(w1, a);
    OneStep(w1, ConfirmSee(a));
    Then(w, [ConfirmLoad(a)], w1, [ConfirmSee(a)], w');
    ls := [ConfirmLoad(a)] + [ConfirmSee(a)];
    assert w1.actors[a := w'.actors[a]] == w.actors[a := w'.actors[a]];
  }

  /** Claimed, approved from an empty copy, and replaced. */
  lemma ReplacedBy(w: World, a: ActorId, d: DepId) returns (ls: seq<Label>, w': World)
    requires a in w.actors && w.actors[a] == ConfirmSeen([], d, Dep(NeedsConfirmation, B))
    requires d < |w.deps| && w.deps[d].status == NeedsConfirmation
    ensures Goes(w, ls, w')
    ensures w'.confirmed == B && w'.replacements == w.replacements + [(d, |w.deps|)]
    ensures w'.deps == w.deps[d := w.deps[d].(status := Cancelled)] + [Dep(Queued, [])]
    ensures forall b | b in w.actors && b != a :: b in w'.actors && w'.actors[b] == w.actors[b]
  {
    hide Goes;
    var w1 := StepConfirmClaim(w, a, true);
    OneStep(w, ConfirmClaim(a, true));
    var w2 := StepConfirmPersist(w1, a, true, true);
    OneStep(w1, ConfirmPersist(a, true, true));
    Then(w, [ConfirmClaim(a, true)], w1, [ConfirmPersist(a, true, true)], w2);
    ls := [ConfirmClaim(a, true)] + [ConfirmPersist(a, true, true)];
    w' := StepConfirmTrigger(w2, a, Sent);
    OneStep(w2, ConfirmTrigger(a, Sent));
    Then(w, ls, w2, [ConfirmTrigger(a, Sent)], w');
    ls := ls + [ConfirmTrigger(a, Sent)];
    assert B[..0] == [];
    assert Union([], B) == B;
  }

  lemma GoesMeans(w: World, ls: seq<Label>, w': World)
    requires Goes(w, ls, w')
    ensures Exec(w, ls) == w' && ParksGated(w, ls, {"b"}) && Orderly(w, ls)
  {
  }

  /** Two confirmations under way at once, each with its own parked deployment:
      two replacements for one existing bucket, and no approval ever forgotten. */
  lemma OverlapAsksTwice() returns (ls: seq<Label>)
    ensures ParksGated(EMPTY, ls, {"b"}) && Orderly(EMPTY, ls)
    ensures |Exec(EMPTY, ls).replacements| == 2 && Exec(EMPTY, ls).confirmed == ["b"]
  {
    hide Goes, Step, Exec;
    var ls1, w1 := ParkedForB(EMPTY, 1);
    var ls2, w2 := SeenBy(w1, 2);
    Then(EMPTY, ls1, w1, ls2, w2);
    var ls3, w3 := ParkedForB(w2, 3);
    Then(EMPTY, ls1 + ls2, w2, ls3, w3);
    var ls4, w4 := SeenBy(w3, 4);
    Then(EMPTY, ls1 + ls2 + ls3, w3, ls4, w4);
    var ls5, w5 := ReplacedBy(w4, 2, 0);
    Then(EMPTY, ls1 + ls2 + ls3 + ls4, w4, ls5, w5);
    var ls6, w6 := ReplacedBy(w5, 4, 1);
    ls := ls1 + ls2 + ls3 + ls4 + ls5;
    Then(EMPTY, ls, w5, ls6, w6);
    ls := ls + ls6;
    GoesMeans(EMPTY, ls, w6);
  }
}
