/** The batcher as an object: each method is a stretch of its loop, of one of its calls, or of a caller's addition,
    and is proved to be the corresponding step of the queue. */
module Batcher {
  import opened Numbers
  import opened Batching
  import opened BatchRun
  import opened BatchLaws

  /** The queue without the requests whose id is given. */
  function Without(pending: seq<Request>, ids: set<string>): seq<Request> {
    if pending == [] then []
    else
      var (rest, last) := (Without(pending[..|pending| - 1], ids), pending[|pending| - 1]);
      if last.id in ids then rest else rest + [last]
  }

  predicate DistinctIds(pending: seq<Request>) {
    forall i, j :: 0 <= i < j < |pending| ==> pending[i].id != pending[j].id
  }

  function IdsOf(requests: seq<Request>): set<string> { set r <- requests :: r.id }

  lemma {:induction false} WithoutNone(pending: seq<Request>, ids: set<string>)
    requires forall r <- pending :: r.id !in ids
    ensures Without(pending, ids) == pending
  {
    if pending != [] { WithoutNone(pending[..|pending| - 1], ids); }
  }

  lemma {:induction false} WithoutAll(pending: seq<Request>, ids: set<string>)
    requires forall r <- pending :: r.id in ids
    ensures Without(pending, ids) == []
  {
    if pending != [] { WithoutAll(pending[..|pending| - 1], ids); }
  }

  lemma {:induction false} WithoutTwice(pending: seq<Request>, ids: set<string>, more: set<string>)
    ensures Without(Without(pending, ids), more) == Without(pending, ids + more)
  {
    if pending != [] {
      var (front, last) := (pending[..|pending| - 1], pending[|pending| - 1]);
      WithoutTwice(front, ids, more);
      var rest := Without(front, ids);
      assert (rest + [last])[..|rest + [last]| - 1] == rest;
    }
  }

  lemma {:induction false} WithoutFirst(pending: seq<Request>, ids: set<string>)
    requires pending != []
    ensures Without(pending, ids)
            == (if pending[0].id in ids then [] else [pending[0]]) + Without(pending[1..], ids)
    decreases |pending|
  {
    var n := |pending| - 1;
    if n > 0 {
      WithoutFirst(pending[..n], ids);
      assert pending[..n][1..] == pending[1..][..n - 1];
    }
  }

  lemma {:induction false} DueAreOf(c: Config, pending: seq<Request>, at: real, room: int)
    ensures forall r <- Due(c, pending, at, room) :: r in pending
    decreases |pending|
  {
    if pending != [] && room > 0 {
      DueAreOf(c, pending[1..], at, if TimedOut(c, pending[0], at) then room - 1 else room);
    }
  }

  lemma OthersDiffer(pending: seq<Request>)
    requires pending != [] && DistinctIds(pending)
    ensures DistinctIds(pending[1..]) && forall r <- pending[1..] :: r.id != pending[0].id
  {
  }

  /** Removing the due requests by id leaves exactly the others, because pending ids are distinct. */
  lemma {:induction false} LeftIsWithout(c: Config, pending: seq<Request>, at: real, room: int)
    requires DistinctIds(pending)
    ensures Left(c, pending, at, room) == Without(pending, IdsOf(Due(c, pending, at, room)))
    decreases |pending|
  {
    hide TimedOut, DistinctIds, Without;
    var due := Due(c, pending, at, room);
    if pending == [] || room <= 0 {
      WithoutNone(pending, IdsOf(due));
    } else {
      var (first, rest) := (pending[0], pending[1..]);
      WithoutFirst(pending, IdsOf(due));
      OthersDiffer(pending);
      if TimedOut(c, first, at) {
        var others := Due(c, rest, at, room - 1);
        LeftIsWithout(c, rest, at, room - 1);
        assert IdsOf([first] + others) == {first.id} + IdsOf(others);
        WithoutTwice(rest, {first.id}, IdsOf(others));
        WithoutNone(rest, {first.id});
      } else {
        LeftIsWithout(c, rest, at, room);
        DueAreOf(c, rest, at, room);
      }
    }
  }

  lemma RemainingIsWithout(c: Config, pending: seq<Request>, at: real)
    requires DistinctIds(pending)
    ensures Remaining(c, pending, at) == Without(pending, IdsOf(Taken(c, pending, at)))
  {
    if Due(c, pending, at, c.limit) == [] {
      WithoutAll(pending, IdsOf(pending));
    } else {
      LeftIsWithout(c, pending, at, c.limit);
    }
  }

  lemma {:induction false} WithoutDistinct(pending: seq<Request>, ids: set<string>)
    requires DistinctIds(pending)
    ensures DistinctIds(Without(pending, ids)) && forall r <- Without(pending, ids) :: r in pending
  {
    if pending != [] {
      var (front, last) := (pending[..|pending| - 1], pending[|pending| - 1]);
      WithoutDistinct(front, ids);
      forall r <- Without(front, ids) ensures r.id != last.id {
        var i :| 0 <= i < |front| && front[i] == r;
        assert pending[i].id != pending[|front|].id;
      }
    }
  }

  /** Exactly this request is no longer in flight, and that much less is left to do. */
  predicate OneLess(before: seq<Task>, after: seq<Task>, r: Request) {
    multiset(InFlight(before)) == multiset(InFlight(after)) + multiset([r]) && Work(after) == Work(before) - 1
  }

  class LLMBatcher {
    const c: Config
    var pending: seq<Request>
    var tasks: seq<Task>
    var busy: bool
    var received: nat
    var batched: nat
    var batches: nat
    var deduplicated: nat
    ghost var added: seq<Request>
    ghost var overwritten: seq<Request>
    ghost var callbacks: seq<Callback>

    ghost function Now(): Queue
      reads this
    {
      Queue(pending, tasks, busy, received, batched, batches, deduplicated, added, overwritten, callbacks)
    }

    ghost predicate Valid()
      reads this
    {
      DistinctIds(pending)
    }

    constructor (c: Config)
      ensures this.c == c && Valid() && Now() == Empty
    {
      this.c := c;
      pending, tasks, busy := [], [], false;
      received, batched, batches, deduplicated := 0, 0, 0, 0;
      added, overwritten, callbacks := [], [], [];
    }

    method AddRequest(id: string, prompt: string, model: string, at: real)
      requires Valid()
      modifies this
      ensures Valid() && Now() == Next(c, old(Now()), Add(id, prompt, model, at))
      ensures var r := Request(id, prompt, model, at, old(received));
              && (forall k :: 0 <= k < |old(pending)| && old(pending)[k].id == id ==> pending == old(pending)[k := r])
              && ((forall other <- old(pending) :: other.id != id) ==> pending == old(pending) + [r])
    {
      var r := Request(id, prompt, model, at, received);
      received := received + 1;
      added := added + [r];
      var i := FindId(pending, id);
      if i < |pending| {
        overwritten := overwritten + [pending[i]];
        pending := pending[i := r];
      } else {
        pending := pending + [r];
      }
    }

    /** The first requests that have timed out, up to the limit; everything when none has. */
    method SelectBatch(at: real) returns (batch: seq<Request>)
      ensures batch == Taken(c, pending, at)
      ensures OldFirst(c, pending, at, batch)
    {
      TakenOldFirst(c, pending, at);
      hide OldFirst;
      batch := [];
      var i := 0;
      while i < |pending| && |batch| < c.limit
        invariant i <= |pending|
        invariant batch + Due(c, pending[i..], at, c.limit - |batch|) == Due(c, pending, at, c.limit)
      {
        assert pending[i..][0] == pending[i] && pending[i..][1..] == pending[i + 1..];
        if TimedOut(c, pending[i], at) { batch := batch + [pending[i]]; }
        i := i + 1;
      }
      if batch == [] { batch := pending; }
    }

    method RemovePending(batch: seq<Request>)
      requires Valid()
      modifies this`pending
      ensures Valid() && pending == Without(old(pending), IdsOf(batch))
    {
      WithoutNone(pending, {});
      assert IdsOf(batch[..0]) == {};
      for i := 0 to |batch|
        invariant Valid()
        invariant pending == Without(old(pending), IdsOf(batch[..i]))
      {
        WithoutTwice(old(pending), IdsOf(batch[..i]), {batch[i].id});
        assert IdsOf(batch[..i + 1]) == IdsOf(batch[..i]) + {batch[i].id};
        WithoutDistinct(pending, {batch[i].id});
        pending := Without(pending, {batch[i].id});
      }
      assert batch[..|batch|] == batch;
    }

    /** Group by model and prompt digest, counting every request whose call was seen before. */
    method OptimizeBatchComposition(batch: seq<Request>) returns (groups: seq<Group>)
      modifies this`deduplicated
      ensures groups == Grouped(c, batch) && deduplicated == old(deduplicated) + Repeats(batch)
    {
      groups := [];
      var digests: map<Call, string> := map[];
      for i := 0 to |batch|
        invariant groups == Grouped(c, batch[..i]) && deduplicated == old(deduplicated) + Repeats(batch[..i])
        invariant forall call :: call in digests <==> SeenCall(batch[..i], call)
        invariant forall call <- digests.Keys :: digests[call] == c.hash(call.prompt + call.model)
      {
        var r := batch[i];
        assert batch[..i + 1][..i] == batch[..i] && batch[..i + 1][i] == r;
        assert batch[..i + 1] == batch[..i] + [r];
        forall call ensures SeenCall(batch[..i + 1], call) <==> SeenCall(batch[..i], call) || CallOf(r) == call {
          SeenNext(batch[..i], r, call);
        }
        if CallOf(r) in digests {
          deduplicated := deduplicated + 1;
        } else {
          digests := digests[CallOf(r) := c.hash(r.prompt + r.model)];
        }
        groups := Grouping(groups, r.model + "_" + digests[CallOf(r)], r);
      }
      assert batch[..|batch|] == batch;
    }

    method UpdateStats(groups: seq<Group>)
      modifies this`batched, this`batches
      ensures batches == old(batches) + |groups| && batched == old(batched) + |Members(groups)|
    {
      batches := batches + |groups|;
      assert groups[..0] == [];
      for i := 0 to |groups|
        invariant batched == old(batched) + |Members(groups[..i])| && batches == old(batches) + |groups|
      {
        assert groups[..i + 1][..i] == groups[..i] && groups[..i + 1][i] == groups[i];
        batched := batched + |groups[i].members|;
      }
      assert groups[..|groups|] == groups;
    }

    method StartTasks(groups: seq<Group>)
      modifies this`tasks
      ensures tasks == TasksFor(groups)
    {
      tasks := [];
      for i := 0 to |groups|
        invariant tasks == TasksFor(groups[..i])
      {
        assert groups[..i + 1][..i] == groups[..i];
        var g := groups[i];
        if g.members != [] { tasks := tasks + [TaskFor(g)]; }
      }
      assert groups[..|groups|] == groups;
    }

    /** One pass of the batching loop, up to where it waits for its calls. */
    method AggregateAndProcess(at: real)
      requires Valid() && !busy
      modifies this
      ensures Valid() && Now() == Next(c, old(Now()), Begin(at))
    {
      hide Taken, Grouped, Remaining, TasksFor, Members, Repeats;
      if pending == [] { return; }
      var batch := SelectBatch(at);
      RemainingIsWithout(c, pending, at);
      RemovePending(batch);
      var groups := OptimizeBatchComposition(batch);
      UpdateStats(groups);
      StartTasks(groups);
      busy := true;
    }

    /** The call of task i came back with content, or failed, or could not be made for lack of an API key. */
    method ReceiveAnswer(i: nat, answer: Answer)
      requires i < |tasks| && tasks[i].answer.None?
      modifies this`tasks
      ensures Now() == Next(c, old(Now()), Return(i, answer))
      ensures multiset(InFlight(tasks)) == multiset(InFlight(old(tasks)))
      ensures Work(tasks) == Work(old(tasks)) - 1
      ensures Conserved(old(Now())) ==> Conserved(Now())
    {
      var answered := tasks[i].(answer := Some(answer));
      InFlightChanged(tasks, i, answered, []);
      WorkChanged(tasks, i, answered);
      if Conserved(Now()) { StepConserves(c, Now(), Return(i, answer)); }
      hide InFlight, Work, Conserved, Begun, Added, Done;
      tasks := tasks[i := tasks[i].(answer := Some(answer))];
    }

    /** Call back the next member of task i; an exception it raises is caught and changes nothing. */
    method InvokeCallback(i: nat, raised: bool)
      requires i < |tasks| && tasks[i].answer.Some? && tasks[i].called < |tasks[i].members|
      modifies this`tasks, this`callbacks
      ensures Now() == Next(c, old(Now()), Notify(i, raised))
      ensures var t := old(tasks)[i];
              var r := t.members[t.called];
              && callbacks == old(callbacks) + [Callback(r, t.call, t.answer.value)]
              && OneLess(old(tasks), tasks, r)
      ensures Conserved(old(Now())) ==> Conserved(Now())
    {
      hide OneLess, Conserved, Next;
      NextCallback(tasks, i);
      NotifyIs(c, Now(), i, raised);
      if Conserved(Now()) { StepConserves(c, Now(), Notify(i, raised)); }
      var t := tasks[i];
      callbacks := callbacks + [Callback(t.members[t.called], t.call, t.answer.value)];
      tasks := tasks[i := t.(called := t.called + 1)];
    }

    static lemma NotifyIs(c: Config, s: Queue, i: nat, raised: bool)
      requires i < |s.tasks| && s.tasks[i].answer.Some? && s.tasks[i].called < |s.tasks[i].members|
      ensures var t := s.tasks[i];
              Next(c, s, Notify(i, raised))
              == s.(tasks := s.tasks[i := t.(called := t.called + 1)],
                    callbacks := s.callbacks + [Callback(t.members[t.called], t.call, t.answer.value)])
    {
    }

    static lemma NextCallback(tasks: seq<Task>, i: nat)
      requires i < |tasks| && tasks[i].called < |tasks[i].members|
      ensures OneLess(tasks, tasks[i := tasks[i].(called := tasks[i].called + 1)], tasks[i].members[tasks[i].called])
    {
      hide InFlight, Work;
      var t := tasks[i];
      var notified := t.(called := t.called + 1);
      assert Uncalled(t) == [t.members[t.called]] + Uncalled(notified);
      InFlightChanged(tasks, i, notified, [t.members[t.called]]);
      WorkChanged(tasks, i, notified);
    }

    /** All calls have been gathered. */
    method FinishRound()
      requires busy && forall i :: 0 <= i < |tasks| ==> Done(tasks[i])
      modifies this`tasks, this`busy
      ensures !busy && Now() == Next(c, old(Now()), Finish)
      ensures InFlight(old(tasks)) == [] && Work(tasks) == 0
      ensures Conserved(old(Now())) ==>
                && Conserved(Now())
                && multiset(added) == multiset(pending) + multiset(overwritten) + multiset(CalledBack(callbacks))
    {
      AllDoneNoneInFlight(tasks);
      if Conserved(Now()) { FinishConserves(c, Now()); }
      hide CalledBack;
      tasks := [];
      busy := false;
    }
  }
}
