/** Leader election by a session advisory lock: electors in any number of
    processes, a pool of database sessions that survive being closed, failing
    calls and dying sessions. One lock key. */
module LeaderProtocol {
  import opened Options

  type ElectorId = nat
  type SessionId = nat

  /** What an elector is doing with its mutex held; `Free` when it is not. */
  datatype Phase = Free | Pinging | WantsConn | Asking(session: SessionId) | Unlocking

  datatype Elector = Elector(leader: bool, conn: Option<SessionId>, phase: Phase)

  /** A session belongs to one elector while its connection is checked out. */
  datatype Session = Session(alive: bool, user: Option<ElectorId>)

  /** The lock is re-entrant: its holder can take it again, and must give it back as often. */
  datatype Lock = Unheld | Held(session: SessionId, count: nat)

  datatype World = World(electors: map<ElectorId, Elector>, sessions: map<SessionId, Session>, lock: Lock)

  datatype Label =
    | NewElector(e: ElectorId)
    | TickBegin(e: ElectorId)
    | ReleaseBegin(e: ElectorId)
    | Ping(e: ElectorId, ok: bool)
    | GetConn(e: ElectorId, s: SessionId, ok: bool)
    | TryLock(e: ElectorId, heard: bool)
    | Unlock(e: ElectorId, reached: bool)
    | SessionDies(s: SessionId)

  function SetElector(w: World, e: ElectorId, x: Elector): World {
    w.(electors := w.electors[e := x])
  }

  predicate Alive(w: World, s: SessionId) {
    s in w.sessions && w.sessions[s].alive
  }

  /** Closing a checked-out connection puts its session back into the pool, alive
      or not, with whatever locks it holds. */
  function Close(w: World, s: SessionId): World {
    if s in w.sessions then w.(sessions := w.sessions[s := w.sessions[s].(user := None)]) else w
  }

  function StepNewElector(w: World, e: ElectorId): World {
    if e in w.electors then w else SetElector(w, e, Elector(false, None, Free))
  }

  function StepTickBegin(w: World, e: ElectorId): World {
    if e !in w.electors || !w.electors[e].phase.Free? then w
    else SetElector(w, e, w.electors[e].(phase := if w.electors[e].leader then Pinging else WantsConn))
  }

  function StepReleaseBegin(w: World, e: ElectorId): World {
    if e !in w.electors || !w.electors[e].phase.Free? || !w.electors[e].leader then w
    else SetElector(w, e, w.electors[e].(phase := Unlocking))
  }

  /** discardConnLocked, and the end of the call. */
  function Discard(w: World, e: ElectorId): World
    requires e in w.electors
  {
    var w' := if w.electors[e].conn.Some? then Close(w, w.electors[e].conn.value) else w;
    SetElector(w', e, Elector(false, None, Free))
  }

  /** A dead session always fails its ping; a live one may fail it too. */
  function StepPing(w: World, e: ElectorId, ok: bool): World {
    if e !in w.electors || !w.electors[e].phase.Pinging? then w
    else if ok && w.electors[e].conn.Some? && Alive(w, w.electors[e].conn.value)
    then SetElector(w, e, w.electors[e].(phase := Free))
    else Discard(w, e)
  }

  /** A connection on an idle session of the pool, or on a new one. */
  function StepGetConn(w: World, e: ElectorId, s: SessionId, ok: bool): World {
    if e !in w.electors || !w.electors[e].phase.WantsConn? then w
    else if !ok then SetElector(w, e, w.electors[e].(phase := Free))
    else if s !in w.sessions then
      SetElector(w.(sessions := w.sessions[s := Session(true, Some(e))]), e, w.electors[e].(phase := Asking(s)))
    else if w.sessions[s].user.Some? then w
    else SetElector(w.(sessions := w.sessions[s := w.sessions[s].(user := Some(e))]), e,
                    w.electors[e].(phase := Asking(s)))
  }

  predicate CanLock(w: World, s: SessionId) {
    w.lock.Unheld? || w.lock.session == s
  }

  /** pg_try_advisory_lock on a live session; its reply can be lost. */
  function StepTryLock(w: World, e: ElectorId, heard: bool): World {
    if e !in w.electors || !w.electors[e].phase.Asking? then w
    else
      var s := w.electors[e].phase.session;
      var granted := Alive(w, s) && CanLock(w, s);
      var w' := if granted then w.(lock := Held(s, if w.lock.Held? then w.lock.count + 1 else 1)) else w;
      if granted && heard then SetElector(w', e, Elector(true, Some(s), Free))
      else SetElector(Close(w', s), e, w.electors[e].(phase := Free))
  }

  /** pg_advisory_unlock, whose failure is ignored, and the close that follows. */
  function StepUnlock(w: World, e: ElectorId, reached: bool): World {
    if e !in w.electors || !w.electors[e].phase.Unlocking? then w
    else
      var freed := reached && w.electors[e].conn.Some? && Alive(w, w.electors[e].conn.value)
                   && w.lock.Held? && w.lock.session == w.electors[e].conn.value;
      var w' := if freed then w.(lock := if w.lock.count <= 1 then Unheld else w.lock.(count := w.lock.count - 1))
                else w;
      Discard(w', e)
  }

  /** The server drops a session and the locks it holds. */
  function StepSessionDies(w: World, s: SessionId): World {
    if s !in w.sessions then w
    else w.(sessions := w.sessions[s := w.sessions[s].(alive := false)],
            lock := if w.lock.Held? && w.lock.session == s then Unheld else w.lock)
  }

  function Step(w: World, l: Label): World {
    match l
    case NewElector(e) => StepNewElector(w, e)
    case TickBegin(e) => StepTickBegin(w, e)
    case ReleaseBegin(e) => StepReleaseBegin(w, e)
    case Ping(e, ok) => StepPing(w, e, ok)
    case GetConn(e, s, ok) => StepGetConn(w, e, s, ok)
    case TryLock(e, heard) => StepTryLock(w, e, heard)
    case Unlock(e, reached) => StepUnlock(w, e, reached)
    case SessionDies(s) => StepSessionDies(w, s)
  }

  function Exec(w: World, ls: seq<Label>): World
    decreases |ls|
  {
    if |ls| == 0 then w else Exec(Step(w, ls[0]), ls[1..])
  }

  const EMPTY := World(map[], map[], Unheld)
}
