/** No job is lost or disposed of twice, slots are never over-used, and one
    message is worked on twice at once only past its visibility timeout. */
module JobConservation {
  import opened JobProtocol

  // ---------------------------------------------------------------- statements

  /** Every message ever sent is in exactly one of three places, and left the
      queue only for a reason. */
  ghost predicate Conserved(w: World) {
    && w.sent == w.queue.Keys + w.deleted + w.archived
    && w.queue.Keys !! w.deleted && w.queue.Keys !! w.archived && w.deleted !! w.archived
    && w.deleted <= w.succeeded && w.archived <= w.exhausted
  }

  /** Occupied slots are the running jobs and the slot the reader holds. */
  ghost predicate Bounded(w: World) {
    forall p | p in w.procs ::
      w.procs[p].sem == |w.procs[p].jobs| + (if w.procs[p].reader.HoldsSlot? then 1 else 0) <= 4
  }

  /** Two jobs on one message: the earlier delivery has outlived its visibility timeout. */
  ghost predicate OverlapOnlyWhenOverdue(w: World) {
    forall p, i, q, j | Live(w, p, i) && Live(w, q, j) && (p, i) != (q, j)
                        && TheJob(w, p, i).msg == TheJob(w, q, j).msg ::
      TheJob(w, p, i).readCt != TheJob(w, q, j).readCt
      && (TheJob(w, p, i).readCt < TheJob(w, q, j).readCt ==> w.now - TheJob(w, p, i).readAt >= VISIBILITY)
  }

  /** A message that does not decode is never disposed of, however often it is read. */
  ghost predicate GarbledStays(w: World) {
    forall m | m in w.garbled :: m in w.queue && !w.queue[m].decodes
  }

  predicate Live(w: World, p: ProcId, j: JobId) {
    p in w.procs && j in w.procs[p].jobs
  }

  function TheJob(w: World, p: ProcId, j: JobId): Job
    requires Live(w, p, j)
  {
    w.procs[p].jobs[j]
  }

  // ----------------------------------------------------------------- invariant

  /** A live job against its message: the latest delivery is the one the message
      is hidden for; any earlier one is overdue. */
  ghost predicate JobOK(w: World, p: ProcId, j: JobId)
    requires Live(w, p, j)
  {
    var job := TheJob(w, p, j);
    && job.msg in w.sent && job.msg !in w.garbled && job.readAt <= w.now
    && (job.msg in w.queue ==>
          && job.readCt <= w.queue[job.msg].readCt
          && (job.readCt == w.queue[job.msg].readCt ==> w.queue[job.msg].visibleAt == job.readAt + VISIBILITY)
          && (job.readCt < w.queue[job.msg].readCt ==> job.readAt + VISIBILITY <= w.now))
    && (job.stage.Deleting? ==> job.msg in w.succeeded)
    && (job.stage.Archiving? ==> job.msg in w.exhausted)
  }

  ghost predicate Inv(w: World) {
    && Conserved(w) && GarbledStays(w) && OverlapOnlyWhenOverdue(w)
    && w.garbled <= w.sent
    && (forall p, j | Live(w, p, j) :: JobOK(w, p, j))
  }

  // --------------------------------------------------------------------- steps

  /** Slots, on their own. */
  lemma SlotsKeepBounded(w: World, l: Label)
    requires Bounded(w) && !l.Dispatch? && !l.Dispose?
    ensures Bounded(Step(w, l))
  {
    var w' := Step(w, l);
    if l.Release? && w' != w {
      Shrinks(w.procs[l.p].jobs, l.j);
    }
  }

  lemma StepKeepsBounded(w: World, l: Label)
    requires Bounded(w)
    ensures Bounded(Step(w, l))
  {
    if l.Dispatch? || l.Dispose? {
      var w' := Step(w, l);
      if w' != w {
        assert w'.procs[l.p].jobs.Keys == w.procs[l.p].jobs.Keys;
        SameSize(w'.procs[l.p].jobs, w.procs[l.p].jobs);
      }
    } else {
      SlotsKeepBounded(w, l);
    }
  }

  lemma Shrinks(jobs: map<JobId, Job>, j: JobId)
    requires j in jobs
    ensures |jobs - {j}| == |jobs| - 1
  {
    assert (jobs - {j})[j := jobs[j]] == jobs;
  }

  lemma SameSize(a: map<JobId, Job>, b: map<JobId, Job>)
    requires a.Keys == b.Keys
    ensures |a| == |b|
  {
    assert |a| == |a.Keys| && |b| == |b.Keys|;
  }

  /** A step that leaves the queue and every remaining job as they were. */
  lemma QuietStep(w: World, w': World)
    requires Inv(w) && w' == w.(procs := w'.procs)
    requires forall p, j | Live(w', p, j) :: Live(w, p, j) && TheJob(w', p, j) == TheJob(w, p, j)
    ensures Inv(w')
  {
    forall p, j | Live(w', p, j) ensures JobOK(w', p, j) {
      assert JobOK(w, p, j);
    }
  }

  lemma SendKeeps(w: World, m: MsgId, decodes: bool)
    requires Inv(w)
    ensures Inv(StepSend(w, m, decodes))
  {
    var w' := StepSend(w, m, decodes);
    forall p, j | Live(w', p, j) ensures JobOK(w', p, j) {
      assert Live(w, p, j) && JobOK(w, p, j);
    }
    assert forall p, j | Live(w', p, j) :: Live(w, p, j) && TheJob(w', p, j) == TheJob(w, p, j);
  }

  lemma TickKeeps(w: World, seconds: nat)
    requires Inv(w)
    ensures Inv(w.(now := w.now + seconds))
  {
    var w' := w.(now := w.now + seconds);
    assert forall p, j | Live(w', p, j) :: Live(w, p, j) && TheJob(w', p, j) == TheJob(w, p, j);
    forall p, j | Live(w', p, j) ensures JobOK(w', p, j) {
      assert JobOK(w, p, j);
    }
  }

  /** The step that starts a delivery: every other live job on the message is overdue. */
  lemma ReadKeeps(w: World, p: ProcId, j: JobId, m: MsgId)
    requires Inv(w)
    ensures Inv(StepRead(w, p, j, m))
  {
    var w' := StepRead(w, p, j, m);
    if w' != w {
      assert w'.queue.Keys == w.queue.Keys;
      forall q: ProcId, k: JobId | Live(w', q, k) ensures JobOK(w', q, k) {
        if Live(w, q, k) && (q, k) != (p, j) {
          assert TheJob(w', q, k) == TheJob(w, q, k) && JobOK(w, q, k);
        }
      }
      forall q: ProcId, i: JobId, r: ProcId, k: JobId | Live(w', q, i) && Live(w', r, k) && (q, i) != (r, k)
                                                        && TheJob(w', q, i).msg == TheJob(w', r, k).msg
        ensures TheJob(w', q, i).readCt != TheJob(w', r, k).readCt
        ensures TheJob(w', q, i).readCt < TheJob(w', r, k).readCt ==> w'.now - TheJob(w', q, i).readAt >= VISIBILITY
      {
        if (q, i) != (p, j) {
          assert TheJob(w', q, i) == TheJob(w, q, i) && JobOK(w, q, i) && JobOK(w', q, i);
        }
        if (r, k) != (p, j) {
          assert TheJob(w', r, k) == TheJob(w, r, k) && JobOK(w, r, k) && JobOK(w', r, k);
        }
      }
    }
  }

  lemma JobStepKeeps(w: World, l: Label)
    requires Inv(w) && (l.Dispatch? || l.Dispose?)
    ensures Inv(Step(w, l))
  {
    var w' := Step(w, l);
    if w' != w {
      assert JobOK(w, l.p, l.j);
      assert forall q, k | Live(w', q, k) ::
               Live(w, q, k) && TheJob(w', q, k) == TheJob(w, q, k).(stage := TheJob(w', q, k).stage);
      forall q: ProcId, k: JobId | Live(w', q, k) ensures JobOK(w', q, k) {
        assert JobOK(w, q, k);
      }
    }
  }

  lemma StepKeepsInv(w: World, l: Label)
    requires Inv(w)
    ensures Inv(Step(w, l))
  {
    hide Conserved, OverlapOnlyWhenOverdue, GarbledStays;
    match l
    case Send(m, decodes) => SendKeeps(w, m, decodes);
    case Tick(seconds) => TickKeeps(w, seconds);
    case Read(p, j, m) => ReadKeeps(w, p, j, m);
    case Dispatch(_, _, _) => JobStepKeeps(w, l);
    case Dispose(_, _, _) => JobStepKeeps(w, l);
    case _ => QuietStep(w, Step(w, l));
  }

  lemma {:induction false} ExecKeepsInv(w: World, ls: seq<Label>)
    requires Inv(w) && Bounded(w)
    ensures Inv(Exec(w, ls)) && Bounded(Exec(w, ls))
    decreases |ls|
  {
    hide Inv, Bounded, Step;
    if |ls| > 0 {
      StepKeepsInv(w, ls[0]);
      StepKeepsBounded(w, ls[0]);
      ExecKeepsInv(Step(w, ls[0]), ls[1..]);
    }
  }

  // -------------------------------------------------------------- main results

  /** Over every run of any number of consumers. */
  lemma JobsAreConserved(ls: seq<Label>)
    ensures Conserved(Exec(EMPTY, ls)) && Bounded(Exec(EMPTY, ls)) && GarbledStays(Exec(EMPTY, ls))
  {
    ExecKeepsInv(EMPTY, ls);
  }

  /** While no job outlives the visibility timeout, no message is worked on by two jobs. */
  lemma NoConcurrentRedelivery(ls: seq<Label>)
    requires forall p, j | Live(Exec(EMPTY, ls), p, j) ::
               Exec(EMPTY, ls).now - TheJob(Exec(EMPTY, ls), p, j).readAt < 40 * 60
    ensures forall p, i, q, j | Live(Exec(EMPTY, ls), p, i) && Live(Exec(EMPTY, ls), q, j) && (p, i) != (q, j) ::
              TheJob(Exec(EMPTY, ls), p, i).msg != TheJob(Exec(EMPTY, ls), q, j).msg
  {
    ExecKeepsInv(EMPTY, ls);
  }

  /** A process told to stop takes no more slots. */
  lemma StoppedReadsNoMore(w: World, p: ProcId)
    requires p in w.procs && w.procs[p].reader.Idle?
    ensures var w' := Step(w, Stop(p)); w' == w.(procs := w'.procs) && Step(w', Acquire(p)) == w'
  {
  }

  // ----------------------------------------------------------- jobs that keep failing

  /** One process and one message, after `k` failed deliveries of it, visible again. */
  function Failed(k: nat): World {
    World(2400 * k, {0}, {}, map[0 := Msg(k, 2400 * k, true)], {}, {}, {}, {}, map[0 := Proc(0, Idle, map[])])
  }

  function Archived(): World {
    World(2400 * 5, {0}, {}, map[], {}, {0}, {}, {0}, map[0 := Proc(0, Idle, map[])])
  }

  /** The message is read, its job fails, and the visibility timeout passes. */
  const FAILING := [Acquire(0), Read(0, 0, 0), Dispatch(0, 0, false), Dispose(0, 0, true), Release(0, 0), Tick(2400)]

  function FailingTurns(n: nat): seq<Label> {
    if n == 0 then [] else FailingTurns(n - 1) + FAILING
  }

  lemma {:induction false} ExecConcat(w: World, ls: seq<Label>, ms: seq<Label>)
    ensures Exec(w, ls + ms) == Exec(Exec(w, ls), ms)
    decreases |ls|
  {
    hide Step;
    if |ls| == 0 {
      assert ls + ms == ms;
    } else {
      assert (ls + ms)[1..] == ls[1..] + ms;
      ExecConcat(Step(w, ls[0]), ls[1..], ms);
    }
  }

  lemma ExecOne(w: World, l: Label)
    ensures Exec(w, [l]) == Step(w, l)
  {
    hide Step;
    assert [l][1..] == [];
  }

  lemma TurnFails(k: nat)
    requires k < 5
    ensures Exec(Failed(k), FAILING) == if k < 4 then Failed(k + 1) else Archived()
  {
    hide Exec;
    var w0 := Failed(k);
    var w1 := w0.(procs := map[0 := Proc(1, HoldsSlot, map[])]);
    var msg := Msg(k + 1, 2400 * (k + 1), true);
    var w2 := w0.(queue := map[0 := msg], procs := map[0 := Proc(1, Idle, map[0 := Job(0, k + 1, 2400 * k, Running)])]);
    assert Step(w0, Acquire(0)) == w1 && Step(w1, Read(0, 0, 0)) == w2;
    EndOfTurn(k, w2);
    ExecOne(w0, Acquire(0));
    ExecOne(w1, Read(0, 0, 0));
    var tail := [Dispatch(0, 0, false), Dispose(0, 0, true), Release(0, 0), Tick(2400)];
    ExecConcat(w1, [Read(0, 0, 0)], tail);
    ExecConcat(w0, [Acquire(0)], [Read(0, 0, 0)] + tail);
    assert FAILING == [Acquire(0)] + ([Read(0, 0, 0)] + tail);
  }

  lemma EndOfTurn(k: nat, w: World)
    requires k < 5
    requires w == Failed(k).(queue := map[0 := Msg(k + 1, 2400 * (k + 1), true)],
                             procs := map[0 := Proc(1, Idle, map[0 := Job(0, k + 1, 2400 * k, Running)])])
    ensures Exec(w, [Dispatch(0, 0, false), Dispose(0, 0, true), Release(0, 0), Tick(2400)])
         == if k < 4 then Failed(k + 1) else Archived()
  {
    hide Exec;
    var l1, l2, l3, l4 := Dispatch(0, 0, false), Dispose(0, 0, true), Release(0, 0), Tick(2400);
    var w1 := Step(w, l1);
    var w2 := Step(w1, l2);
    var w3 := Step(w2, l3);
    assert w3.procs == map[0 := Proc(0, Idle, map[])];
    assert Step(w3, l4) == if k < 4 then Failed(k + 1) else Archived();
    hide Step;
    ExecOne(w, l1);
    ExecOne(w1, l2);
    ExecOne(w2, l3);
    ExecOne(w3, l4);
    ExecConcat(w2, [l3], [l4]);
    ExecConcat(w1, [l2], [l3] + [l4]);
    ExecConcat(w, [l1], [l2] + ([l3] + [l4]));
    assert [l1, l2, l3, l4] == [l1] + ([l2] + ([l3] + [l4]));
  }

  /** A job that fails every time is delivered five times, forty minutes apart, and
      is then in the archive, not before. */
  lemma {:induction false} FifthFailureArchives(n: nat)
    requires n <= 5
    ensures var w := Exec(EMPTY, [Send(0, true), Start(0)] + FailingTurns(n));
      if n < 5 then w.queue == map[0 := Msg(n, 2400 * n, true)] && w.archived == {}
      else w.queue == map[] && w.archived == {0}
  {
    hide Exec;
    TurnsFail(n);
    var w1 := Step(EMPTY, Send(0, true));
    assert Step(w1, Start(0)) == Failed(0);
    ExecOne(EMPTY, Send(0, true));
    ExecOne(w1, Start(0));
    ExecConcat(EMPTY, [Send(0, true)], [Start(0)]);
    assert [Send(0, true)] + [Start(0)] == [Send(0, true), Start(0)];
    ExecConcat(EMPTY, [Send(0, true), Start(0)], FailingTurns(n));
  }

  lemma {:induction false} TurnsFail(n: nat)
    requires n <= 5
    ensures Exec(Failed(0), FailingTurns(n)) == if n < 5 then Failed(n) else Archived()
  {
    if n == 0 {
      assert Exec(Failed(0), []) == Failed(0);
    } else {
      hide Exec;
      TurnsFail(n - 1);
      TurnFails(n - 1);
      ExecConcat(Failed(0), FailingTurns(n - 1), FAILING);
    }
  }

  /** A job that outlives the visibility timeout, its process killed or not, is
      delivered to another process all the same. */
  lemma OutlivedJobIsDeliveredAgain(killed: bool)
    ensures var ls := [Send(0, true), Start(0), Acquire(0), Read(0, 0, 0), Tick(2400)]
                      + (if killed then [Kill(0)] else []) + [Start(1), Acquire(1), Read(1, 0, 0)];
      var w := Exec(EMPTY, ls);
      && Live(w, 1, 0) && TheJob(w, 1, 0) == Job(0, 2, 2400, Running)
      && (Live(w, 0, 0) <==> !killed) && (!killed ==> TheJob(w, 0, 0) == Job(0, 1, 0, Running))
  {
    hide Exec;
    var first := [Send(0, true), Start(0), Acquire(0), Read(0, 0, 0), Tick(2400)];
    var w1 := FirstDelivery();
    var kill := if killed then [Kill(0)] else [];
    var w2 := if killed then Step(w1, Kill(0)) else w1;
    if killed {
      ExecOne(w1, Kill(0));
    } else {
      ExecNone(w1);
    }
    var l1, l2, l3 := Start(1), Acquire(1), Read(1, 0, 0);
    var w3 := Step(w2, l1);
    var w4 := Step(w3, l2);
    var w5 := Step(w4, l3);
    assert w5.procs[1].jobs == map[0 := Job(0, 2, 2400, Running)];
    assert 0 in w5.procs <==> !killed;
    hide Step;
    ExecOne(w2, l1);
    ExecOne(w3, l2);
    ExecOne(w4, l3);
    ExecConcat(w3, [l2], [l3]);
    ExecConcat(w2, [l1], [l2] + [l3]);
    assert [l1, l2, l3] == [l1] + ([l2] + [l3]);
    ExecConcat(EMPTY, first, kill);
    ExecConcat(EMPTY, first + kill, [l1, l2, l3]);
  }

  lemma ExecNone(w: World)
    ensures Exec(w, []) == w
  {
  }

  lemma FirstDelivery() returns (w: World)
    ensures w == Exec(EMPTY, [Send(0, true), Start(0), Acquire(0), Read(0, 0, 0), Tick(2400)])
    ensures w == World(2400, {0}, {}, map[0 := Msg(1, 2400, true)], {}, {}, {}, {},
                       map[0 := Proc(1, Idle, map[0 := Job(0, 1, 0, Running)])])
  {
    hide Exec;
    var l1, l2, l3, l4, l5 := Send(0, true), Start(0), Acquire(0), Read(0, 0, 0), Tick(2400);
    var w1 := Step(EMPTY, l1);
    var w2 := Step(w1, l2);
    var w3 := Step(w2, l3);
    var w4 := Step(w3, l4);
    w := Step(w4, l5);
    assert w4.queue == map[0 := Msg(1, 2400, true)];
    assert w4.procs == map[0 := Proc(1, Idle, map[0 := Job(0, 1, 0, Running)])];
    hide Step;
    ExecOne(EMPTY, l1);
    ExecOne(w1, l2);
    ExecOne(w2, l3);
    ExecOne(w3, l4);
    ExecOne(w4, l5);
    ExecConcat(w3, [l4], [l5]);
    ExecConcat(w2, [l3], [l4] + [l5]);
    ExecConcat(w1, [l2], [l3] + ([l4] + [l5]));
    ExecConcat(EMPTY, [l1], [l2] + ([l3] + ([l4] + [l5])));
    assert [l1, l2, l3, l4, l5] == [l1] + ([l2] + ([l3] + ([l4] + [l5])));
  }
}
