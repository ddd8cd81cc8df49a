/** The coordinator as an object: one method per stretch between two suspension points, each proved to be the
    corresponding step of the barrier. The clock reading of a stretch is a parameter. */
module Coordinator {
  import opened Numbers
  import opened Barrier
  import opened BarrierProgress

  class DistributedCoordinator {
    const ackTimeout: real
    var workers: map<Id, real>
    var acks: map<int, set<Id>>
    var tick: nat
    var publishing: bool
    var waitStarted: real
    var lastObserved: nat
    ghost var published: seq<int>
    ghost var seen: set<Id>

    ghost function Now(): Barrier
      reads this
    {
      Barrier(workers, acks, tick, publishing, waitStarted, lastObserved, published, seen)
    }

    constructor (ackTimeout: real, at: real)
      ensures this.ackTimeout == ackTimeout
      ensures Now() == Started(at) && Consistent(Now())
    {
      this.ackTimeout := ackTimeout;
      workers, acks, tick, publishing := map[], map[], 0, false;
      waitStarted, lastObserved, published, seen := at, 0, [], {};
    }

    /** Any id may acknowledge any tick; only a missing id or tick is refused. An id that is not registered blocks the
        barrier for good, unless the loop is publishing. */
    method HandleTickAcknowledgement(worker: Option<Id>, number: Option<int>)
      modifies this`acks, this`seen
      ensures Now() == Next(ackTimeout, old(Now()), Ack(worker, number))
      ensures forall t, w :: w in AcksFor(acks, t)
                             <==> w in AcksFor(old(acks), t) || (worker == Some(w) && number == Some(t))
      ensures Consistent(old(Now())) && worker.Some? && worker.value !in workers && number == Some(tick)
              ==> forall now :: CanAdvance(ackTimeout, Now(), now) <==> publishing
    {
      if Consistent(Now()) && worker.Some? && worker.value !in workers && number == Some(tick) {
        forall now ensures CanAdvance(ackTimeout, Next(ackTimeout, Now(), Ack(worker, number)), now) <==> publishing {
          StrayAcknowledgementBlocks(ackTimeout, Now(), worker.value, now);
        }
      }
      hide CanAdvance;
      if worker.Some? && number.Some? {
        acks := acks[number.value := AcksFor(acks, number.value) + {worker.value}];
        seen := seen + {worker.value};
      }
    }

    /** A new worker does not unblock the barrier, and is charged with the wait it joins. */
    method SpawnWorker(id: Id, at: real)
      requires id !in seen
      modifies this`workers, this`seen
      ensures Now() == Next(ackTimeout, old(Now()), Spawn(id, at))
      ensures Consistent(old(Now())) ==> Blocked(Now()) == Blocked(old(Now()))
      ensures Consistent(old(Now())) && !publishing ==>
                forall checked :: id in Next(ackTimeout, Now(), Check(checked)).workers
                                  <==> checked - waitStarted < ackTimeout
    {
      if Consistent(Now()) && !publishing {
        forall checked
          ensures id in Next(ackTimeout, Next(ackTimeout, Now(), Spawn(id, at)), Check(checked)).workers
                  <==> checked - waitStarted < ackTimeout
        {
          JoinerSurvivesExactly(ackTimeout, Now(), id, at, checked);
        }
      }
      SpawnLeavesBlocked(Now(), id, at);
      hide Checked, Blocked;
      workers := workers[id := at];
      seen := seen + {id};
    }

    static lemma SpawnLeavesBlocked(s: Barrier, id: Id, at: real)
      requires id !in s.seen
      ensures Consistent(s) ==> Blocked(s.(workers := s.workers[id := at], seen := s.seen + {id})) == Blocked(s)
    {
    }

    /** A registered worker lives on from its heartbeat's own time; nobody else is affected. */
    method HandleWorkerHeartbeat(id: Id, at: real)
      modifies this`workers
      ensures Now() == Next(ackTimeout, old(Now()), Heartbeat(id, at))
      ensures forall w, later :: w in Alive(workers, later)
                <==> w in old(workers) && later - (if w == id then at else old(workers)[w]) <= 15.0
      ensures Blocked(Now()) == Blocked(old(Now()))
    {
      if id in workers { workers := workers[id := at]; }
    }

    /** One pass of the health monitor over a copy of the registered ids. */
    method MonitorWorkerHealth(at: real)
      modifies this`workers
      ensures Now() == Next(ackTimeout, old(Now()), Sweep(at))
      ensures forall id :: id in workers <==> id in old(workers) && at - old(workers)[id] <= 15.0
      ensures forall id <- workers.Keys :: workers[id] == old(workers)[id]
    {
      var todo := workers.Keys;
      while todo != {}
        invariant todo <= workers.Keys <= old(workers).Keys
        invariant forall id <- todo :: workers[id] == old(workers)[id]
        invariant forall id <- old(workers).Keys - todo :: id in workers.Keys <==> id in Alive(old(workers), at).Keys
        invariant forall id <- workers.Keys :: workers[id] == old(workers)[id]
        decreases |todo|
      {
        SomeElement(todo);
        var id :| id in todo;
        if at - workers[id] > HeartbeatLimit { workers := workers - {id}; }
        todo := todo - {id};
      }
      assert workers == Alive(old(workers), at);
    }

    /** Drop the given workers one by one. */
    method RemoveWorkers(failed: set<Id>)
      modifies this`workers
      ensures workers == old(workers) - failed
    {
      var todo := failed;
      while todo != {}
        invariant todo <= failed && workers == old(workers) - (failed - todo)
        decreases |todo|
      {
        SomeElement(todo);
        var id :| id in todo;
        workers := workers - {id};
        todo := todo - {id};
        assert failed - todo == failed - (todo + {id}) + {id};
      }
    }

    /** One pass of the synchronization loop up to its next suspension; true when it has a tick to publish. */
    method CheckTick(at: real) returns (advanced: bool)
      requires !publishing
      modifies this
      ensures Now() == Next(ackTimeout, old(Now()), Check(at))
      ensures advanced == publishing == (tick == old(tick) + 1)
    {
      advanced := false;
      var required := workers.Keys;
      if tick != lastObserved {
        lastObserved := tick;
        waitStarted := at;
      }
      if required == {} { return; }
      var received := AcksFor(acks, tick);
      acks := acks[tick := received];
      if received == required {
        tick := tick + 1;
        publishing := true;
        published := published + [tick];
        advanced := true;
      } else {
        var missing := required - received;
        if missing != {} && at - waitStarted >= ackTimeout {
          RemoveWorkers(missing);
          waitStarted := at;
        }
      }
    }

    /** The publication has returned: forget what was acknowledged for the new tick meanwhile. */
    method ResumeAfterPublication(at: real)
      requires publishing
      modifies this
      ensures Now() == Next(ackTimeout, old(Now()), Resume(at))
      ensures AcksFor(acks, tick) == {}
    {
      acks := acks[tick := {}];
      if tick > 1 { acks := acks - {tick - 1}; }
      waitStarted := at;
      lastObserved := tick;
      publishing := false;
    }
  }
}
