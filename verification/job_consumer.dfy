/** One worker process against the queue: the read loop's body and the goroutine
    it starts, each as it runs when nothing else moves. */
module JobConsumer {
  import opened JobProtocol
  import opened JobConservation

  datatype Message = Message(id: MsgId, readCt: nat)

  datatype ReadReply = NoMessage | ReadError | Got(msg: Message)

  class Consumer {
    const p: ProcId
    var sem: nat
    var queue: map<MsgId, Msg>
    var deleted: set<MsgId>
    var archived: set<MsgId>
    ghost var world: World

    ghost predicate Valid()
      reads this
    {
      && Inv(world) && Bounded(world)
      && (world.queue, world.deleted, world.archived) == (queue, deleted, archived)
      && p in world.procs && world.procs[p].sem == sem && !world.procs[p].reader.HoldsSlot?
    }

    /** A fresh process on an empty queue. */
    constructor (id: ProcId)
      ensures Valid() && p == id && sem == 0 && queue == map[]
    {
      p, sem, queue, deleted, archived := id, 0, map[], {}, {};
      world := StepStart(EMPTY, id);
    }

    ghost method Take(l: Label)
      requires Inv(world) && Bounded(world)
      modifies this`world
      ensures world == Step(old(world), l) && Inv(world) && Bounded(world)
    {
      hide *;
      StepKeepsInv(world, l);
      StepKeepsBounded(world, l);
      world := Step(world, l);
    }

    /** pgmq.read of one message: hides and counts it before its payload is decoded. */
    method Read(now: int, choice: MsgId, connected: bool) returns (r: ReadReply)
      modifies this`queue
      ensures !connected || choice !in old(queue) || old(queue)[choice].visibleAt > now ==>
                queue == old(queue) && !r.Got?
      ensures connected && choice in old(queue) && old(queue)[choice].visibleAt <= now ==>
                && queue == old(queue)[choice :=
                              Msg(old(queue)[choice].readCt + 1, now + VISIBILITY, old(queue)[choice].decodes)]
                && r == if old(queue)[choice].decodes then Got(Message(choice, old(queue)[choice].readCt + 1))
                        else ReadError
    {
      if !connected {
        return ReadError;
      }
      if choice !in queue || queue[choice].visibleAt > now {
        return NoMessage;
      }
      var msg := Msg(queue[choice].readCt + 1, now + VISIBILITY, queue[choice].decodes);
      queue := queue[choice := msg];
      r := if msg.decodes then Got(Message(choice, msg.readCt)) else ReadError;
    }

    /** One turn of the read loop: a slot first, then one message; the slot stays
        taken exactly when a job was started on it. */
    method Poll(ghost j: JobId, choice: MsgId, now: int, connected: bool) returns (r: ReadReply)
      requires Valid() && world.procs[p].reader.Idle? && sem < SLOTS && j !in world.procs[p].jobs && now == world.now
      modifies this
      ensures Valid() && deleted == old(deleted) && archived == old(archived)
      ensures r.Got? <==> connected && choice in old(queue) && old(queue)[choice].visibleAt <= now
                          && old(queue)[choice].decodes
      ensures r.Got? ==> r.msg == Message(choice, old(queue)[choice].readCt + 1)
      ensures queue == if connected && choice in old(queue) && old(queue)[choice].visibleAt <= now
                       then old(queue)[choice := Msg(old(queue)[choice].readCt + 1, now + VISIBILITY,
                                                     old(queue)[choice].decodes)]
                       else old(queue)
      ensures sem == if r.Got? then old(sem) + 1 else old(sem)
      ensures r.Got? ==> world.procs[p].jobs == old(world).procs[p].jobs[j := Job(r.msg.id, r.msg.readCt, now, Running)]
      ensures !r.Got? ==> world.procs[p].jobs == old(world).procs[p].jobs
    {
      hide Inv, Bounded;
      sem := sem + 1;
      Take(Acquire(p));
      r := Read(now, choice, connected);
      Take(if connected then JobProtocol.Read(p, j, choice) else ReadNothing(p));
      if !r.Got? {
        sem := sem - 1;
        if world.procs[p].reader.HoldsSlot? {
          Take(ReadNothing(p));
        }
      }
    }

    /** processMessage and the release of its slot. */
    method ProcessMessage(ghost j: JobId, msg: Message, ok: bool, applied: bool)
      requires Valid() && Live(world, p, j) && world.procs[p].jobs[j].stage == Running
      requires world.procs[p].jobs[j].msg == msg.id && world.procs[p].jobs[j].readCt == msg.readCt
      modifies this
      ensures Valid() && sem == old(sem) - 1 && world.procs[p].jobs == old(world).procs[p].jobs - {j}
      ensures ok ==> msg.id in world.succeeded
      ensures deleted == if ok && applied && msg.id in old(queue) then old(deleted) + {msg.id} else old(deleted)
      ensures archived ==
                if !ok && msg.readCt >= 5 && applied && msg.id in old(queue)
                then old(archived) + {msg.id}
                else old(archived)
      ensures queue == if applied && (ok || msg.readCt >= 5) then old(queue) - {msg.id} else old(queue)
    {
      hide Inv, Bounded;
      Started(j);
      Take(Dispatch(p, j, ok));
      if ok {
        if applied && msg.id in queue {
          queue, deleted := queue - {msg.id}, deleted + {msg.id};
        }
        Take(Dispose(p, j, applied));
      } else if msg.readCt >= MAX_ATTEMPTS {
        if applied && msg.id in queue {
          queue, archived := queue - {msg.id}, archived + {msg.id};
        }
        Take(Dispose(p, j, applied));
      }
      sem := sem - 1;
      Take(Release(p, j));
    }

    /** A process with a job has a slot taken. */
    lemma Started(j: JobId)
      requires Valid() && Live(world, p, j)
      ensures sem > 0
    {
      hide Inv;
      assert j in world.procs[p].jobs.Keys;
    }
  }
}
