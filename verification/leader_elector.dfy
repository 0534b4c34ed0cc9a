/** One process's elector, as an object with a flag and a connection, over a
    shared database. Each call, left to itself, takes steps of the election machine. */
module LeaderElector {
  import opened Options
  import opened LeaderProtocol
  import opened LeaderElection

  class Database {
    var sessions: map<SessionId, Session>
    var lock: Lock
    ghost var world: World

    ghost predicate Valid()
      reads this
    {
      Inv(world) && world.sessions == sessions && world.lock == lock
    }

    constructor ()
      ensures Valid() && world == EMPTY
    {
      sessions, lock := map[], Unheld;
      world := EMPTY;
    }

    ghost method Take(l: Label)
      requires Inv(world)
      modifies this`world
      ensures world == Step(old(world), l) && Inv(world)
    {
      hide *;
      StepKeepsInv(world, l);
      world := Step(world, l);
    }
  }

  class Elector {
    const id: ElectorId
    const db: Database
    var leader: bool
    var conn: Option<SessionId>

    ghost predicate Mirrors(phase: Phase)
      reads this, db
    {
      id in db.world.electors && db.world.electors[id] == LeaderProtocol.Elector(leader, conn, phase)
    }

    /** Between calls: the database's record of this elector agrees with its fields. */
    ghost predicate Valid()
      reads this, db
    {
      db.Valid() && Mirrors(Free)
    }

    constructor (id: ElectorId, db: Database)
      requires db.Valid() && id !in db.world.electors
      modifies db
      ensures Valid() && this.id == id && this.db == db && !leader
    {
      this.id, this.db := id, db;
      leader, conn := false, None;
      new;
      db.Take(NewElector(id));
    }

    /** Closes the kept connection, whose session goes back to the pool. */
    method DiscardConnLocked()
      requires conn.Some? ==> conn.value in db.sessions
      modifies this`leader, this`conn, db`sessions
      ensures !leader && conn.None?
      ensures db.sessions ==
                if old(conn).Some?
                then old(db.sessions)[old(conn).value := old(db.sessions)[old(conn).value].(user := None)]
                else old(db.sessions)
    {
      if conn.Some? {
        db.sessions := db.sessions[conn.value := db.sessions[conn.value].(user := None)];
        conn := None;
      }
      leader := false;
    }

    /** Renew, when leading: a failed ping steps down. */
    method Renew(pingOk: bool)
      requires Valid() && leader
      modifies this`leader, this`conn, db
      ensures Valid() && db.lock == old(db.lock)
      ensures leader <==> pingOk && LiveLeader(old(db.world), id)
      ensures leader ==> db.sessions == old(db.sessions) && conn == old(conn) && LiveLeader(db.world, id)
    {
      hide Inv;
      Kept();
      var s := conn.value;
      db.Take(TickBegin(id));
      var ok := pingOk && db.sessions[s].alive;
      if !ok {
        DiscardConnLocked();
      }
      db.Take(Ping(id, ok));
    }

    /** A leader has a connection whose session the database knows. */
    lemma Kept()
      requires Valid()
      ensures leader <==> conn.Some?
      ensures conn.Some? ==> conn.value in db.sessions
    {
      assert ElectorOK(db.world, id);
    }

    /** Stand for election on session `s` of the pool, or a new one. */
    method Stand(s: SessionId, connOk: bool, heard: bool)
      requires Valid() && !leader && (s in db.sessions ==> db.sessions[s].user.None?)
      modifies this`leader, this`conn, db
      ensures Valid()
      ensures leader <==>
                connOk && heard && (s in old(db.sessions) ==> old(db.sessions)[s].alive) && CanLock(old(db.world), s)
      ensures leader ==> conn == Some(s) && db.lock.Held? && db.lock.session == s && LiveLeader(db.world, id)
      ensures connOk && !heard && (s in old(db.sessions) ==> old(db.sessions)[s].alive) && CanLock(old(db.world), s) ==>
                Leaked(db.world)
      ensures !connOk ==> db.sessions == old(db.sessions) && db.lock == old(db.lock)
      ensures !CanLock(old(db.world), s) ==> db.lock == old(db.lock)
    {
      hide Inv;
      db.Take(TickBegin(id));
      db.Take(GetConn(id, s, connOk));
      if !connOk {
        return;
      }
      var session := if s in db.sessions then db.sessions[s].(user := Some(id)) else Session(true, Some(id));
      db.sessions := db.sessions[s := session];
      var granted := db.sessions[s].alive && (db.lock.Unheld? || db.lock.session == s);
      if granted {
        db.lock := Held(s, if db.lock.Held? then db.lock.count + 1 else 1);
      }
      if granted && heard {
        conn, leader := Some(s), true;
      } else {
        db.sessions := db.sessions[s := db.sessions[s].(user := None)];
      }
      db.Take(TryLock(id, heard));
    }

    /** One tick under the mutex. */
    method Tick(s: SessionId, pingOk: bool, connOk: bool, heard: bool)
      requires Valid() && (s in db.sessions ==> db.sessions[s].user.None?)
      modifies this`leader, this`conn, db
      ensures Valid()
      ensures leader <==> if old(leader) then pingOk && LiveLeader(old(db.world), id)
                          else (s in old(db.sessions) ==> old(db.sessions)[s].alive) && CanLock(old(db.world), s)
                               && connOk && heard
      ensures leader ==> LiveLeader(db.world, id) && forall e :: e != id ==> !LiveLeader(db.world, e)
    {
      hide Inv;
      if leader {
        Renew(pingOk);
      } else {
        Stand(s, connOk, heard);
      }
      OnlyMe();
    }

    /** After a tick, a leading elector leads alone. */
    lemma OnlyMe()
      requires Valid() && (leader ==> conn.Some? && Alive(db.world, conn.value))
      ensures leader ==> LiveLeader(db.world, id) && forall e :: e != id ==> !LiveLeader(db.world, e)
    {
      assert ElectorOK(db.world, id);
      forall e | e != id ensures leader ==> !LiveLeader(db.world, e) {
        assert e in db.world.electors ==> ElectorOK(db.world, e);
      }
    }

    /** Step down: unlock, whatever comes of it, and close. */
    method Release(reached: bool)
      requires Valid()
      modifies this`leader, this`conn, db
      ensures Valid() && !leader && conn.None?
      ensures !old(leader) ==> db.lock == old(db.lock)
      ensures LiveLeader(old(db.world), id) ==> (Leaked(db.world) <==> !reached || old(db.lock).count > 1)
    {
      Kept();
      if !leader {
        return;
      }
      ghost var w := db.world;
      db.Take(ReleaseBegin(id));
      ghost var w1 := db.world;
      var s := conn.value;
      if reached && db.sessions[s].alive && db.lock.Held? && db.lock.session == s {
        db.lock := if db.lock.count <= 1 then Unheld else db.lock.(count := db.lock.count - 1);
      }
      DiscardConnLocked();
      db.Take(Unlock(id, reached));
      if LiveLeader(w, id) {
        ReleaseLeaks(w1, id, reached);
      }
    }
  }
}
