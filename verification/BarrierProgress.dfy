/** When the tick barrier moves on, and exactly when it never will again. */
module BarrierProgress {
  import opened Numbers
  import opened Barrier

  /** The worker set stays as it is, and the current tick is acknowledged by registered workers only. */
  predicate Quiet(s: Barrier, step: Step) {
    match step
    case Ack(worker, tick) => worker.Some? && tick == Some(s.tick) ==> worker.value in s.workers
    case Spawn(_, _) => false
    case Sweep(at) => Alive(s.workers, at) == s.workers
    case _ => true
  }

  /** The loop waits at tick t and only registered workers have acknowledged it. */
  predicate Waiting(s: Barrier, t: nat) {
    && Consistent(s) && !s.publishing && s.tick == t
    && Current(s) <= s.workers.Keys
  }

  /** Nobody's acknowledgement is missing. */
  predicate Settled(s: Barrier) { Current(s) == s.workers.Keys }

  /** A check after the timeout drops exactly the workers that have not acknowledged, and no others. */
  lemma TimeoutDropsMissing(timeout: real, s: Barrier, at: real)
    requires Consistent(s) && !s.publishing && s.workers.Keys != {}
    requires Current(s) != s.workers.Keys && at - s.waitStarted >= timeout
    ensures var r := Next(timeout, s, Check(at));
            && r.workers.Keys == s.workers.Keys * Current(s)
            && (forall w <- r.workers.Keys :: r.workers[w] == s.workers[w])
            && r.tick == s.tick && Current(r) == Current(s)
  {
    var missing := s.workers.Keys - Current(s);
    var kept := s.workers - missing;
    assert kept.Keys == s.workers.Keys * Current(s);
    if missing == {} {
      assert s.workers.Keys * Current(s) == s.workers.Keys;
    }
  }

  lemma QuietStep(timeout: real, s: Barrier, step: Step, t: nat)
    requires Waiting(s, t) && Quiet(s, step)
    ensures var r := Next(timeout, s, step);
            && (r.tick > t || Waiting(r, t))
            && (r.tick == t ==> Settled(r) || (r.waitStarted == s.waitStarted && !Settled(s)))
            && (r.tick == t && step.Check? ==> Settled(r) || step.at - s.waitStarted < timeout)
            && (Settled(s) && step.Check? && s.workers.Keys != {} ==> r.tick > t)
  {
    if step.Check? && s.workers.Keys != {} && !Settled(s) && step.at - s.waitStarted >= timeout {
      TimeoutDropsMissing(timeout, s, step.at);
      assert s.workers.Keys * Current(s) == Current(s);
    }
  }

  lemma {:induction false} TicksNeverFall(timeout: real, start: Barrier, steps: seq<Step>, i: nat, k: nat)
    requires i <= k <= |steps|
    ensures At(timeout, start, steps, i).tick <= At(timeout, start, steps, k).tick
    decreases k
  {
    hide Next;
    if i < k {
      TicksNeverFall(timeout, start, steps, i, k - 1);
      StepAdvances(timeout, At(timeout, start, steps, k - 1), steps[k - 1]);
    }
  }

  /** While the run stays quiet, the timer runs on until the barrier settles, and then it stays settled. */
  lemma {:induction false} QuietRun(timeout: real, start: Barrier, steps: seq<Step>, t: nat, i: nat, k: nat)
    requires i <= k <= |steps|
    requires Waiting(At(timeout, start, steps, i), t)
    requires forall j :: i <= j < k && At(timeout, start, steps, j).tick == t ==>
               Quiet(At(timeout, start, steps, j), steps[j])
    ensures var (s, r) := (At(timeout, start, steps, i), At(timeout, start, steps, k));
            r.tick > t
            || (Waiting(r, t) && (Settled(r) || (r.waitStarted == s.waitStarted && !Settled(s))))
    decreases k
  {
    hide Next, Quiet, Waiting, Settled;
    if i < k {
      QuietRun(timeout, start, steps, t, i, k - 1);
      var before := At(timeout, start, steps, k - 1);
      if before.tick > t {
        TicksNeverFall(timeout, start, steps, k - 1, k);
      } else {
        WaitingAt(before, t);
        QuietStep(timeout, before, steps[k - 1], t);
        WaitingAt(At(timeout, start, steps, k), t);
      }
    }
  }

  lemma WaitingAt(s: Barrier, t: nat)
    ensures Waiting(s, t) ==> s.tick == t
  {
  }

  lemma AtNext(timeout: real, start: Barrier, steps: seq<Step>, k: nat)
    requires k < |steps|
    ensures At(timeout, start, steps, k + 1) == Next(timeout, At(timeout, start, steps, k), steps[k])
  {
  }

  /** Main result: if only registered workers acknowledge the current tick and none is spawned or lost, then once one
      check has come after the timeout, the next check has left the tick behind or finds no worker registered. */
  lemma OneTimeoutSuffices(timeout: real, start: Barrier, steps: seq<Step>, t: nat, first: nat, second: nat)
    requires Waiting(start, t) && first < second < |steps|
    requires forall j :: 0 <= j <= second && At(timeout, start, steps, j).tick == t ==>
               Quiet(At(timeout, start, steps, j), steps[j])
    requires steps[first].Check? && steps[first].at - start.waitStarted >= timeout && steps[second].Check?
    ensures At(timeout, start, steps, second + 1).tick > t || At(timeout, start, steps, second).workers.Keys == {}
  {
    hide Next, Quiet, Settled, Waiting, At;
    CheckSettles(timeout, start, steps, t, first);
    if At(timeout, start, steps, first + 1).tick > t {
      TicksNeverFall(timeout, start, steps, first + 1, second + 1);
    } else {
      SettledCheckAdvances(timeout, start, steps, t, first + 1, second);
    }
  }

  /** A check after the timeout leaves the tick behind or leaves nobody's acknowledgement missing. */
  lemma CheckSettles(timeout: real, start: Barrier, steps: seq<Step>, t: nat, k: nat)
    requires Waiting(start, t) && k < |steps| && steps[k].Check? && steps[k].at - start.waitStarted >= timeout
    requires forall j :: 0 <= j <= k && At(timeout, start, steps, j).tick == t ==>
               Quiet(At(timeout, start, steps, j), steps[j])
    ensures var r := At(timeout, start, steps, k + 1); r.tick > t || (Waiting(r, t) && Settled(r))
  {
    AtNext(timeout, start, steps, k);
    assert At(timeout, start, steps, 0) == start;
    hide Next, Quiet, Settled, Waiting, At;
    var s := At(timeout, start, steps, k);
    QuietRun(timeout, start, steps, t, 0, k);
    WaitingAt(s, t);
    if s.tick > t {
      TicksNeverFall(timeout, start, steps, k, k + 1);
    } else {
      QuietStep(timeout, s, steps[k], t);
      WaitingAt(At(timeout, start, steps, k + 1), t);
    }
  }

  lemma SettledCheckAdvances(timeout: real, start: Barrier, steps: seq<Step>, t: nat, i: nat, k: nat)
    requires i <= k < |steps| && steps[k].Check?
    requires Waiting(At(timeout, start, steps, i), t) && Settled(At(timeout, start, steps, i))
    requires forall j :: i <= j <= k && At(timeout, start, steps, j).tick == t ==>
               Quiet(At(timeout, start, steps, j), steps[j])
    ensures At(timeout, start, steps, k + 1).tick > t || At(timeout, start, steps, k).workers.Keys == {}
  {
    AtNext(timeout, start, steps, k);
    hide Next, Quiet, Settled, Waiting, At;
    var s := At(timeout, start, steps, k);
    QuietRun(timeout, start, steps, t, i, k);
    WaitingAt(s, t);
    if s.tick > t {
      TicksNeverFall(timeout, start, steps, k, k + 1);
    } else {
      QuietStep(timeout, s, steps[k], t);
    }
  }

  /** The clock reading a step takes; a heartbeat carries its sender's time instead. */
  function Reading(step: Step): Option<real> {
    match step
    case Spawn(_, at) => Some(at)
    case Sweep(at) => Some(at)
    case Check(at) => Some(at)
    case Resume(at) => Some(at)
    case _ => None
  }

  /** Readings start at the present and never go back. */
  ghost predicate Timely(now: real, steps: seq<Step>) {
    && (forall i :: 0 <= i < |steps| && Reading(steps[i]).Some? ==> now <= Reading(steps[i]).value)
    && (forall i, j :: 0 <= i < j < |steps| && Reading(steps[i]).Some? && Reading(steps[j]).Some? ==>
          Reading(steps[i]).value <= Reading(steps[j]).value)
  }

  /** Some way of going on from the present leads past the current tick. */
  ghost predicate CanAdvance(timeout: real, s: Barrier, now: real) {
    exists steps :: Run(timeout, s, steps) && Timely(now, steps) && At(timeout, s, steps, |steps|).tick > s.tick
  }

  /** A worker that is not registered is counted among the acknowledgements of the current tick. */
  predicate Poisoned(s: Barrier, w: Id) {
    Consistent(s) && !s.publishing && w in Current(s) && w !in s.workers
  }

  lemma PoisonStays(timeout: real, s: Barrier, step: Step, w: Id)
    requires Poisoned(s, w) && Legal(s, step)
    ensures var r := Next(timeout, s, step); Poisoned(r, w) && r.tick == s.tick
  {
    StepKeepsConsistent(timeout, s, step);
  }

  lemma {:induction false} PoisonedForever(timeout: real, s: Barrier, steps: seq<Step>, w: Id, k: nat)
    requires Poisoned(s, w) && Run(timeout, s, steps) && k <= |steps|
    ensures var r := At(timeout, s, steps, k); Poisoned(r, w) && r.tick == s.tick
    decreases k
  {
    hide Next, Poisoned;
    if k > 0 {
      PoisonedForever(timeout, s, steps, w, k - 1);
      PoisonStays(timeout, At(timeout, s, steps, k - 1), steps[k - 1], w);
    }
  }

  lemma {:induction false} StepFirst(timeout: real, s: Barrier, step: Step, rest: seq<Step>, k: nat)
    requires k <= |rest|
    ensures At(timeout, s, [step] + rest, k + 1) == At(timeout, Next(timeout, s, step), rest, k)
    decreases k
  {
    hide Next;
    if k > 0 {
      StepFirst(timeout, s, step, rest, k - 1);
      assert ([step] + rest)[k] == rest[k - 1];
    } else {
      assert At(timeout, s, [step] + rest, 0) == s;
    }
  }

  lemma RunFirst(timeout: real, s: Barrier, step: Step, rest: seq<Step>)
    requires Legal(s, step) && Run(timeout, Next(timeout, s, step), rest)
    ensures Run(timeout, s, [step] + rest)
  {
    hide Next, Legal;
    var steps := [step] + rest;
    forall k | 0 <= k < |steps| ensures Legal(At(timeout, s, steps, k), steps[k]) {
      if k > 0 {
        StepFirst(timeout, s, step, rest, k - 1);
        assert steps[k] == rest[k - 1];
      } else {
        assert At(timeout, s, steps, 0) == s;
      }
    }
  }

  lemma TimelyFirst(now: real, step: Step, later: real, rest: seq<Step>)
    requires now <= later && Timely(later, rest)
    requires Reading(step).Some? ==> Reading(step).value == later
    ensures Timely(now, [step] + rest)
  {
    hide Reading;
    var steps := [step] + rest;
    assert forall i :: 0 < i < |steps| ==> steps[i] == rest[i - 1];
  }

  /** A step at a later time after which the tick has moved, or still can. */
  lemma AdvanceAfter(timeout: real, s: Barrier, now: real, step: Step, later: real)
    requires Legal(s, step) && now <= later
    requires Reading(step).Some? ==> Reading(step).value == later
    requires var r := Next(timeout, s, step); r.tick > s.tick || CanAdvance(timeout, r, later)
    ensures CanAdvance(timeout, s, now)
  {
    hide Next, Legal, At, Reading, Timely;
    var r := Next(timeout, s, step);
    StepAdvances(timeout, s, step);
    var rest := AdvancingSteps(timeout, r, later, s.tick);
    RunFirst(timeout, s, step, rest);
    StepFirst(timeout, s, step, rest, |rest|);
    TimelyFirst(now, step, later, rest);
    assert Run(timeout, s, [step] + rest);
  }

  lemma AdvancingSteps(timeout: real, r: Barrier, now: real, t: nat) returns (rest: seq<Step>)
    requires r.tick > t || (r.tick == t && CanAdvance(timeout, r, now))
    ensures Run(timeout, r, rest) && Timely(now, rest) && At(timeout, r, rest, |rest|).tick > t
  {
    hide Next, Legal;
    rest := [];
    if r.tick == t {
      rest :| Run(timeout, r, rest) && Timely(now, rest) && At(timeout, r, rest, |rest|).tick > r.tick;
    }
  }

  lemma {:induction false} NextFree(ids: set<Id>) returns (free: Id)
    ensures forall w <- ids :: w < free
    decreases |ids|
  {
    free := 0;
    if ids != {} {
      SomeElement(ids);
      var w :| w in ids;
      free := NextFree(ids - {w});
      assert forall v <- ids :: v == w || v in ids - {w};
      free := if free <= w then w + 1 else free;
    }
  }

  lemma SettledAdvances(timeout: real, s: Barrier, now: real)
    requires !s.publishing && s.workers.Keys != {} && Settled(s)
    ensures CanAdvance(timeout, s, now)
  {
    AdvanceAfter(timeout, s, now, Check(now), now);
  }

  lemma AcknowledgedAdvances(timeout: real, s: Barrier, now: real)
    requires Consistent(s) && !s.publishing && Current(s) != {} && Current(s) <= s.workers.Keys
    ensures CanAdvance(timeout, s, now)
  {
    if Settled(s) {
      SettledAdvances(timeout, s, now);
    } else {
      var later := MaxReal(now, s.waitStarted + timeout);
      TimeoutDropsMissing(timeout, s, later);
      SettledAdvances(timeout, Next(timeout, s, Check(later)), later);
      AdvanceAfter(timeout, s, now, Check(later), later);
    }
  }

  lemma UnacknowledgedAdvances(timeout: real, s: Barrier, now: real)
    requires Consistent(s) && !s.publishing && Current(s) == {}
    ensures CanAdvance(timeout, s, now)
  {
    if s.workers.Keys == {} {
      var id := NextFree(s.seen);
      var spawned := Next(timeout, s, Spawn(id, now));
      var ack := Ack(Some(id), Some(s.tick));
      StepKeepsConsistent(timeout, s, Spawn(id, now));
      StepKeepsConsistent(timeout, spawned, ack);
      AcknowledgedAdvances(timeout, Next(timeout, spawned, ack), now);
      AdvanceAfter(timeout, spawned, now, ack, now);
      AdvanceAfter(timeout, s, now, Spawn(id, now), now);
    } else {
      SomeElement(s.workers.Keys);
      var w :| w in s.workers.Keys;
      var ack := Ack(Some(w), Some(s.tick));
      StepKeepsConsistent(timeout, s, ack);
      AcknowledgedAdvances(timeout, Next(timeout, s, ack), now);
      AdvanceAfter(timeout, s, now, ack, now);
    }
  }

  /** The loop waits, and an id that is not registered is among the acknowledgements of the current tick. */
  predicate Blocked(s: Barrier) { !s.publishing && !(Current(s) <= s.workers.Keys) }

  lemma BlockedStays(timeout: real, s: Barrier, steps: seq<Step>)
    requires Consistent(s) && Blocked(s) && Run(timeout, s, steps)
    ensures At(timeout, s, steps, |steps|).tick == s.tick
  {
    var strays := Current(s) - s.workers.Keys;
    assert forall id <- Current(s) :: id in s.workers.Keys || id in strays;
    SomeElement(strays);
    var w :| w in strays;
    PoisonedForever(timeout, s, steps, w, |steps|);
  }

  /** Main result: from any present, some timely continuation moves the tick exactly when the loop is publishing or
      every id acknowledged for the current tick belongs to a registered worker; otherwise no continuation whatever,
      timely or not, moves it. */
  lemma CanAdvanceExactly(timeout: real, s: Barrier, now: real)
    requires Consistent(s)
    ensures CanAdvance(timeout, s, now) <==> !Blocked(s)
    ensures Blocked(s) ==> forall steps :: Run(timeout, s, steps) ==> At(timeout, s, steps, |steps|).tick == s.tick
  {
    if s.publishing {
      StepKeepsConsistent(timeout, s, Resume(now));
      UnacknowledgedAdvances(timeout, Next(timeout, s, Resume(now)), now);
      AdvanceAfter(timeout, s, now, Resume(now), now);
    } else if Current(s) == {} {
      UnacknowledgedAdvances(timeout, s, now);
    } else if Current(s) <= s.workers.Keys {
      AcknowledgedAdvances(timeout, s, now);
    } else {
      forall steps | Run(timeout, s, steps) ensures At(timeout, s, steps, |steps|).tick == s.tick {
        BlockedStays(timeout, s, steps);
      }
    }
  }

  /** A worker that acknowledged and is then dropped by the health monitor stops the barrier for good. */
  lemma LosingAnAcknowledgedWorkerBlocks(timeout: real, s: Barrier, w: Id, at: real)
    requires Consistent(s) && !s.publishing
    requires w in s.workers && w in Current(s) && at - s.workers[w] > HeartbeatLimit
    ensures var r := Next(timeout, s, Sweep(at)); Blocked(r) && !CanAdvance(timeout, r, at)
  {
    var r := Next(timeout, s, Sweep(at));
    StepKeepsConsistent(timeout, s, Sweep(at));
    assert w in Current(r) && w !in r.workers;
    CanAdvanceExactly(timeout, r, at);
  }

  /** So does an acknowledgement of the current tick from an id that is not registered, except while publishing. */
  lemma StrayAcknowledgementBlocks(timeout: real, s: Barrier, w: Id, now: real)
    requires Consistent(s) && w !in s.workers
    ensures CanAdvance(timeout, Next(timeout, s, Ack(Some(w), Some(s.tick))), now) <==> s.publishing
  {
    var ack := Ack(Some(w), Some(s.tick));
    StepKeepsConsistent(timeout, s, ack);
    assert w in Current(Next(timeout, s, ack));
    CanAdvanceExactly(timeout, Next(timeout, s, ack), now);
  }

  /** A new worker is charged with the whole wait for the current tick, however late in it it joined: whatever the other
      workers did, it survives the next check exactly when that wait has not reached the timeout. */
  lemma JoinerSurvivesExactly(timeout: real, s: Barrier, id: Id, joined: real, at: real)
    requires Consistent(s) && !s.publishing && id !in s.seen
    ensures id in Next(timeout, Next(timeout, s, Spawn(id, joined)), Check(at)).workers
            <==> at - s.waitStarted < timeout
  {
    var spawned := Next(timeout, s, Spawn(id, joined));
    StepKeepsConsistent(timeout, s, Spawn(id, joined));
    assert id in spawned.workers.Keys && id !in Current(spawned);
    if at - s.waitStarted >= timeout { TimeoutDropsMissing(timeout, spawned, at); }
  }

  /** Time spent without workers counts too: checks that find nobody leave the wait running, so after an idle timeout
      the first worker to join is dropped at the next check. */
  lemma IdleTimeCounts(timeout: real, s: Barrier, id: Id, idle: real, joined: real, at: real)
    requires Consistent(s) && !s.publishing && s.workers.Keys == {} && id !in s.seen
    ensures Next(timeout, s, Check(idle)) == s
    ensures var spawned := Next(timeout, Next(timeout, s, Check(idle)), Spawn(id, joined));
            Next(timeout, spawned, Check(at)).workers.Keys == {} <==> at - s.waitStarted >= timeout
  {
    JoinerSurvivesExactly(timeout, s, id, joined, at);
    assert Next(timeout, s, Spawn(id, joined)).workers.Keys == {id};
  }
}
