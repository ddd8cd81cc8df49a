/** The tick barrier: acknowledgements, worker registration, the health monitor and the synchronization loop
    interleave at their suspension points. Each step below is what one of them does between two suspensions. */
module Barrier {
  import opened Numbers

  type Id = nat

  /** Heartbeats per registered worker, acknowledgement sets per tick, the loop's own variables, and history:
      the tick numbers published and every worker id that ever registered or acknowledged. */
  datatype Barrier = Barrier(
    workers: map<Id, real>,
    acks: map<int, set<Id>>,
    tick: nat,
    publishing: bool,
    waitStarted: real,
    lastObserved: nat,
    published: seq<int>,
    seen: set<Id>)

  /** `at` is the clock reading of the step. A message without a worker id or a tick carries None. */
  datatype Step =
    | Ack(worker: Option<Id>, tick: Option<int>)
    | Spawn(id: Id, at: real)
    | Heartbeat(id: Id, at: real)
    | Sweep(at: real)
    | Check(at: real)
    | Resume(at: real)

  const HeartbeatLimit := 15.0

  function Started(at: real): Barrier {
    Barrier(map[], map[], 0, false, at, 0, [], {})
  }

  function AcksFor(acks: map<int, set<Id>>, tick: int): set<Id> {
    if tick in acks then acks[tick] else {}
  }

  function Current(s: Barrier): set<Id> { AcksFor(s.acks, s.tick) }

  function Alive(workers: map<Id, real>, at: real): map<Id, real> {
    map w | w in workers && at - workers[w] <= HeartbeatLimit :: workers[w]
  }

  /** One pass of the loop up to its next suspension: idle, advance and publish, drop late workers, or wait. */
  function Checked(timeout: real, s: Barrier, at: real): Barrier {
    var since := if s.tick != s.lastObserved then at else s.waitStarted;
    var watched := s.(waitStarted := since, lastObserved := s.tick);
    if s.workers.Keys == {} then watched
    else
      var received := Current(s);
      var read := watched.(acks := s.acks[s.tick := received]);
      if received == s.workers.Keys then
        read.(tick := s.tick + 1, publishing := true, published := s.published + [s.tick + 1])
      else if s.workers.Keys - received != {} && at - since >= timeout then
        read.(workers := s.workers - (s.workers.Keys - received), waitStarted := at)
      else read
  }

  /** After the publication: the new tick starts with no acknowledgements and the old tick's are dropped. */
  function Resumed(s: Barrier, at: real): Barrier {
    var cleared := s.acks[s.tick := {}];
    s.(acks := if s.tick > 1 then cleared - {s.tick - 1} else cleared,
       publishing := false, waitStarted := at, lastObserved := s.tick)
  }

  function Next(timeout: real, s: Barrier, step: Step): Barrier {
    match step
    case Ack(worker, tick) =>
      if worker.Some? && tick.Some? then
        s.(acks := s.acks[tick.value := AcksFor(s.acks, tick.value) + {worker.value}], seen := s.seen + {worker.value})
      else s
    case Spawn(id, at) => s.(workers := s.workers[id := at], seen := s.seen + {id})
    case Heartbeat(id, at) => if id in s.workers then s.(workers := s.workers[id := at]) else s
    case Sweep(at) => s.(workers := Alive(s.workers, at))
    case Check(at) => if s.publishing then s else Checked(timeout, s, at)
    case Resume(at) => if s.publishing then Resumed(s, at) else s
  }

  /** A spawned worker gets an id no worker has used before. */
  predicate Legal(s: Barrier, step: Step) {
    step.Spawn? ==> step.id !in s.seen
  }

  /** The state after the first k steps. */
  function At(timeout: real, start: Barrier, steps: seq<Step>, k: nat): Barrier
    requires k <= |steps|
    decreases k
  {
    if k == 0 then start else Next(timeout, At(timeout, start, steps, k - 1), steps[k - 1])
  }

  ghost predicate Run(timeout: real, start: Barrier, steps: seq<Step>) {
    forall k :: 0 <= k < |steps| ==> Legal(At(timeout, start, steps, k), steps[k])
  }

  predicate Consistent(s: Barrier) {
    && (!s.publishing ==> s.lastObserved == s.tick)
    && (s.publishing ==> s.tick >= 1)
    && |s.published| == s.tick && (forall i :: 0 <= i < s.tick ==> s.published[i] == i + 1)
    && s.workers.Keys <= s.seen
    && (forall t <- s.acks.Keys :: s.acks[t] <= s.seen)
  }

  lemma StepKeepsConsistent(timeout: real, s: Barrier, step: Step)
    requires Consistent(s)
    ensures Consistent(Next(timeout, s, step))
  {
  }

  /** Main result: in every interleaving the published tick numbers are 1, 2, 3, ... up to the current tick. */
  lemma {:induction false} PublishedInOrder(timeout: real, start: Barrier, steps: seq<Step>, k: nat)
    requires Consistent(start) && k <= |steps|
    ensures var s := At(timeout, start, steps, k);
            && Consistent(s)
            && |s.published| == s.tick && (forall i :: 0 <= i < s.tick ==> s.published[i] == i + 1)
    decreases k
  {
    hide Next;
    if k > 0 {
      PublishedInOrder(timeout, start, steps, k - 1);
      StepKeepsConsistent(timeout, At(timeout, start, steps, k - 1), steps[k - 1]);
    }
  }

  /** Does this step empty the set kept for tick t? */
  predicate Clears(s: Barrier, step: Step, t: int) {
    step.Resume? && s.publishing && (t == s.tick || (s.tick > 1 && t == s.tick - 1))
  }

  /** Was tick t's set cleared by one of the steps from .. to - 1? */
  ghost predicate ClearedWithin(timeout: real, start: Barrier, steps: seq<Step>, from: nat, to: nat, t: int)
    requires to <= |steps|
  {
    exists j :: from <= j < to && Clears(At(timeout, start, steps, j), steps[j], t)
  }

  /** Step i acknowledges t for worker w, and t's set has not been cleared since. */
  ghost predicate AcksAt(timeout: real, start: Barrier, steps: seq<Step>, i: nat, k: nat, t: int, w: Id)
    requires i < k <= |steps|
  {
    steps[i] == Ack(Some(w), Some(t)) && !ClearedWithin(timeout, start, steps, i + 1, k, t)
  }

  /** Worker w acknowledged t since t's set was last cleared. */
  ghost predicate Acked(timeout: real, start: Barrier, steps: seq<Step>, k: nat, t: int, w: Id)
    requires k <= |steps|
  {
    exists i :: 0 <= i < k && AcksAt(timeout, start, steps, i, k, t, w)
  }

  lemma StepRecords(timeout: real, s: Barrier, step: Step, t: int, w: Id)
    ensures w in AcksFor(Next(timeout, s, step).acks, t)
            <==> step == Ack(Some(w), Some(t)) || (w in AcksFor(s.acks, t) && !Clears(s, step, t))
  {
  }

  lemma AckedNext(timeout: real, start: Barrier, steps: seq<Step>, k: nat, t: int, w: Id)
    requires k < |steps|
    ensures Acked(timeout, start, steps, k + 1, t, w)
            <==> || steps[k] == Ack(Some(w), Some(t))
                 || (Acked(timeout, start, steps, k, t, w) && !Clears(At(timeout, start, steps, k), steps[k], t))
  {
    hide At;
    if steps[k] == Ack(Some(w), Some(t)) {
      assert AcksAt(timeout, start, steps, k, k + 1, t, w);
    }
    if Acked(timeout, start, steps, k, t, w) && !Clears(At(timeout, start, steps, k), steps[k], t) {
      var i :| 0 <= i < k && AcksAt(timeout, start, steps, i, k, t, w);
      assert AcksAt(timeout, start, steps, i, k + 1, t, w);
    }
    if Acked(timeout, start, steps, k + 1, t, w) && steps[k] != Ack(Some(w), Some(t)) {
      var i :| 0 <= i < k + 1 && AcksAt(timeout, start, steps, i, k + 1, t, w);
      assert AcksAt(timeout, start, steps, i, k, t, w);
    }
  }

  /** The stored set for a tick is exactly the ids that acknowledged it since the set was last cleared. */
  lemma {:induction false} AcksExplained(timeout: real, start: Barrier, steps: seq<Step>, k: nat, t: int, w: Id)
    requires start.acks == map[] && k <= |steps|
    ensures w in AcksFor(At(timeout, start, steps, k).acks, t) <==> Acked(timeout, start, steps, k, t, w)
    decreases k
  {
    hide Next;
    if k > 0 {
      AcksExplained(timeout, start, steps, k - 1, t, w);
      StepRecords(timeout, At(timeout, start, steps, k - 1), steps[k - 1], t, w);
      AckedNext(timeout, start, steps, k - 1, t, w);
    }
  }

  lemma StepAdvances(timeout: real, s: Barrier, step: Step)
    ensures var r := Next(timeout, s, step);
            && (r.tick == s.tick || r.tick == s.tick + 1)
            && (r.tick == s.tick + 1 <==>
                step.Check? && !s.publishing && s.workers.Keys != {} && Current(s) == s.workers.Keys)
            && (r.tick == s.tick + 1 ==> r.publishing)
            && (s.publishing && !r.publishing ==> Clears(s, step, s.tick))
            && (!s.publishing && r.publishing ==> r.tick == s.tick + 1)
  {
  }

  /** Main result: the tick moves, by one, exactly at a check of the idle loop with a non-empty worker set that
      equals the set of ids that acknowledged the tick since its set was last cleared. */
  lemma AdvancesExactly(timeout: real, start: Barrier, steps: seq<Step>, k: nat)
    requires start.acks == map[] && k < |steps|
    ensures var s := At(timeout, start, steps, k);
            var r := At(timeout, start, steps, k + 1);
            && (r.tick == s.tick || r.tick == s.tick + 1)
            && (r.tick == s.tick + 1 <==>
                && steps[k].Check? && !s.publishing && s.workers.Keys != {}
                && forall w :: w in s.workers <==> Acked(timeout, start, steps, k, s.tick, w))
  {
    hide Next, Acked;
    var s := At(timeout, start, steps, k);
    StepAdvances(timeout, s, steps[k]);
    forall w ensures w in Current(s) <==> Acked(timeout, start, steps, k, s.tick, w) {
      AcksExplained(timeout, start, steps, k, s.tick, w);
    }
    assert Current(s) == s.workers.Keys <==> forall w :: w in s.workers <==> w in Current(s);
  }

  /** Where the current tick was published, and where its set was cleared once the publication returned. */
  lemma {:induction false} Publication(timeout: real, start: Barrier, steps: seq<Step>, k: nat) returns (p: nat, r: nat)
    requires start.tick == 0 && !start.publishing && k <= |steps|
    requires At(timeout, start, steps, k).tick >= 1
    ensures p < k && At(timeout, start, steps, p).tick + 1 == At(timeout, start, steps, p + 1).tick
    ensures At(timeout, start, steps, p + 1).tick == At(timeout, start, steps, k).tick
    ensures !At(timeout, start, steps, k).publishing ==>
              && p < r < k && At(timeout, start, steps, r).tick == At(timeout, start, steps, k).tick
              && Clears(At(timeout, start, steps, r), steps[r], At(timeout, start, steps, k).tick)
    decreases k
  {
    hide Next;
    var before := At(timeout, start, steps, k - 1);
    StepAdvances(timeout, before, steps[k - 1]);
    if At(timeout, start, steps, k).tick == before.tick + 1 {
      p, r := k - 1, k;
    } else {
      p, r := Publication(timeout, start, steps, k - 1);
      if before.publishing && !At(timeout, start, steps, k).publishing { r := k - 1; }
    }
  }

  /** Main result: to leave tick t >= 1 every registered worker must have acknowledged t after the loop came back
      from publishing t and cleared its set; anything acknowledged between the increment and the clear is lost. */
  lemma AdvanceNeedsFreshAcks(timeout: real, start: Barrier, steps: seq<Step>, k: nat) returns (p: nat, r: nat)
    requires start.acks == map[] && start.tick == 0 && !start.publishing && k < |steps|
    requires At(timeout, start, steps, k).tick >= 1
    requires At(timeout, start, steps, k + 1).tick == At(timeout, start, steps, k).tick + 1
    ensures p < r < k
    ensures At(timeout, start, steps, p + 1).tick == At(timeout, start, steps, p).tick + 1
            == At(timeout, start, steps, k).tick
    ensures At(timeout, start, steps, r).publishing && steps[r].Resume?
    ensures forall w <- At(timeout, start, steps, k).workers.Keys ::
              exists i :: r < i < k && steps[i] == Ack(Some(w), Some(At(timeout, start, steps, k).tick))
  {
    hide Next;
    var s := At(timeout, start, steps, k);
    AdvancesExactly(timeout, start, steps, k);
    p, r := Publication(timeout, start, steps, k);
    forall w <- s.workers.Keys ensures exists i :: r < i < k && steps[i] == Ack(Some(w), Some(s.tick)) {
      assert Acked(timeout, start, steps, k, s.tick, w);
      var i :| 0 <= i < k && AcksAt(timeout, start, steps, i, k, s.tick, w);
      assert i > r;
    }
  }
}
