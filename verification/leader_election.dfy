/** At most one live leader, and what an election cannot recover from. */
module LeaderElection {
  import opened Options
  import opened LeaderProtocol

  // ---------------------------------------------------------------- statements

  /** An elector that says it leads, on a session the server still has. */
  predicate LiveLeader(w: World, e: ElectorId) {
    e in w.electors && w.electors[e].leader && w.electors[e].conn.Some? && Alive(w, w.electors[e].conn.value)
  }

  ghost predicate SingleLiveLeader(w: World) {
    forall d, e | LiveLeader(w, d) && LiveLeader(w, e) :: d == e
  }

  /** A live leader's session is the lock's holder. */
  ghost predicate LeaderHoldsLock(w: World) {
    forall e | LiveLeader(w, e) :: w.lock.Held? && w.lock.session == w.electors[e].conn.value
  }

  /** The flag is up exactly while a connection is kept. */
  ghost predicate LeaderKeepsConn(w: World) {
    forall e | e in w.electors :: w.electors[e].leader <==> w.electors[e].conn.Some?
  }

  // ----------------------------------------------------------------- invariant

  predicate UsedBy(w: World, s: SessionId, e: ElectorId) {
    s in w.sessions && w.sessions[s].user == Some(e)
  }

  ghost predicate ElectorOK(w: World, e: ElectorId)
    requires e in w.electors
  {
    var x := w.electors[e];
    && (x.leader <==> x.conn.Some?)
    && (x.phase.Pinging? || x.phase.Unlocking? ==> x.leader)
    && (x.phase.WantsConn? || x.phase.Asking? ==> !x.leader)
    && (x.leader ==>
          UsedBy(w, x.conn.value, e) && (Alive(w, x.conn.value) ==> w.lock.Held? && w.lock.session == x.conn.value))
    && (x.phase.Asking? ==> UsedBy(w, x.phase.session, e))
  }

  /** The lock's holder is a session the server still has. */
  ghost predicate Inv(w: World) {
    && (forall e | e in w.electors :: ElectorOK(w, e))
    && (w.lock.Held? ==> Alive(w, w.lock.session) && w.lock.count >= 1)
  }

  lemma StepKeepsInv(w: World, l: Label)
    requires Inv(w)
    ensures Inv(Step(w, l))
  {
    var w' := Step(w, l);
    if !l.SessionDies? && l.e in w.electors {
      assert ElectorOK(w, l.e);
    }
    forall e | e in w'.electors ensures ElectorOK(w', e) {
      assert e in w.electors ==> ElectorOK(w, e);
    }
  }

  lemma {:induction false} ExecKeepsInv(w: World, ls: seq<Label>)
    requires Inv(w)
    ensures Inv(Exec(w, ls))
    decreases |ls|
  {
    hide Inv, Step;
    if |ls| > 0 {
      StepKeepsInv(w, ls[0]);
      ExecKeepsInv(Step(w, ls[0]), ls[1..]);
    }
  }

  // -------------------------------------------------------------- main results

  /** Over every interleaving of ticks, releases, failures and dying sessions. */
  lemma AtMostOneLeader(ls: seq<Label>)
    ensures SingleLiveLeader(Exec(EMPTY, ls)) && LeaderHoldsLock(Exec(EMPTY, ls)) && LeaderKeepsConn(Exec(EMPTY, ls))
  {
    ExecKeepsInv(EMPTY, ls);
    var w := Exec(EMPTY, ls);
    forall d, e | LiveLeader(w, d) && LiveLeader(w, e) ensures d == e {
      assert ElectorOK(w, d) && ElectorOK(w, e);
    }
  }

  /** The lock is held by a live session that sits idle in a pool. */
  ghost predicate Leaked(w: World) {
    w.lock.Held? && Alive(w, w.lock.session) && w.sessions[w.lock.session].user.None?
  }

  /** Steps that neither end the session nor check its connection out again. */
  predicate LeavesAlone(l: Label, s: SessionId) {
    match l
    case GetConn(_, t, _) => t != s
    case SessionDies(t) => t != s
    case _ => true
  }

  predicate AllLeaveAlone(ls: seq<Label>, s: SessionId) {
    forall i | 0 <= i < |ls| :: LeavesAlone(ls[i], s)
  }

  /** A leaked lock shuts every elector out for as long as its session idles. */
  lemma LeakShutsOut(w: World, ls: seq<Label>)
    requires Inv(w) && Leaked(w) && AllLeaveAlone(ls, w.lock.session)
    ensures Leaked(Exec(w, ls)) && forall e :: !LiveLeader(Exec(w, ls), e)
    decreases |ls|
  {
    if |ls| == 0 {
      forall e ensures !LiveLeader(w, e) {
        assert e in w.electors ==> ElectorOK(w, e);
      }
    } else {
      StepKeepsInv(w, ls[0]);
      LeakStays(w, ls[0]);
      assert forall i | 0 <= i < |ls[1..]| :: ls[1..][i] == ls[i + 1];
      LeakShutsOut(Step(w, ls[0]), ls[1..]);
    }
  }

  lemma LeakStays(w: World, l: Label)
    requires Inv(w) && Leaked(w) && LeavesAlone(l, w.lock.session)
    ensures Leaked(Step(w, l)) && Step(w, l).lock.session == w.lock.session
  {
    if !l.SessionDies? && l.e in w.electors {
      assert ElectorOK(w, l.e);
    }
  }

  /** A step that closes a session into the pool with the lock still held: a lost
      or insufficient unlock, a ping that fails on a live session, or a grant
      whose reply is lost. */
  predicate Leaks(w: World, l: Label) {
    match l
    case Unlock(e, reached) =>
      LiveLeader(w, e) && w.electors[e].phase.Unlocking? && (!reached || (w.lock.Held? && w.lock.count > 1))
    case Ping(e, ok) => LiveLeader(w, e) && w.electors[e].phase.Pinging? && !ok
    case TryLock(e, heard) =>
      e in w.electors && w.electors[e].phase.Asking?
      && Alive(w, w.electors[e].phase.session) && CanLock(w, w.electors[e].phase.session) && !heard
    case _ => false
  }

  /** These are all the ways a lock is ever leaked, and each of them leaks it. */
  lemma LeaksExactly(w: World, l: Label)
    requires Inv(w) && !Leaked(w)
    ensures Leaked(Step(w, l)) <==> Leaks(w, l)
  {
    if !l.SessionDies? && l.e in w.electors {
      assert ElectorOK(w, l.e);
    }
  }

  /** A release leaks the lock exactly when its unlock does not get through, or
      the lock had been taken more than once; otherwise it frees it. */
  lemma ReleaseLeaks(w: World, e: ElectorId, reached: bool)
    requires Inv(w) && LiveLeader(w, e) && w.electors[e].phase.Unlocking?
    ensures Leaked(StepUnlock(w, e, reached)) <==> !reached || w.lock.count > 1
    ensures !Leaked(StepUnlock(w, e, reached)) ==> StepUnlock(w, e, reached).lock.Unheld?
  {
    assert ElectorOK(w, e);
    LeaksExactly(w, Unlock(e, reached));
  }

  /** So does a leader whose ping fails on a live session. */
  lemma FailedPingLeaks(w: World, e: ElectorId)
    requires Inv(w) && LiveLeader(w, e) && w.electors[e].phase.Pinging?
    ensures Leaked(StepPing(w, e, false))
  {
    assert ElectorOK(w, e);
  }

  /** A leaked lock is reached: elect, then release with a lost unlock. */
  lemma LeakIsReachable()
    ensures var ls := [NewElector(0), TickBegin(0), GetConn(0, 7, true), TryLock(0, true), ReleaseBegin(0),
                       Unlock(0, false)];
      Leaked(Exec(EMPTY, ls))
  {
    var w1 := Step(Step(EMPTY, NewElector(0)), TickBegin(0));
    var w2 := Step(Step(w1, GetConn(0, 7, true)), TryLock(0, true));
    assert w2.lock == Held(7, 1) && w2.electors[0] == Elector(true, Some(7), Free);
    var w3 := Step(Step(w2, ReleaseBegin(0)), Unlock(0, false));
    assert Leaked(w3);
    assert Exec(EMPTY, [NewElector(0), TickBegin(0), GetConn(0, 7, true), TryLock(0, true), ReleaseBegin(0),
                        Unlock(0, false)]) == w3;
  }
}
