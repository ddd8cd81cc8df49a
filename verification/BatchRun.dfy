/** The batch queue over whole runs. Requests may be added at any time; a round takes a batch, makes one call per
    group and calls every member back. The steps are what happens between two suspension points. */
module BatchRun {
  import opened Numbers
  import opened Batching

  /** What a call gave: its content, or the error that is handed to the callbacks instead (also without an API key). */
  datatype Answer = Content(text: string) | Failed(error: string)

  /** A call under way for the members of one group, of whom the first `called` have been called back. */
  datatype Task = Task(call: Call, members: seq<Request>, answer: Option<Answer>, called: nat)

  datatype Callback = Callback(request: Request, call: Call, answer: Answer)

  /** History: every request added, those overwritten by a reused id, and the callbacks made. */
  datatype Queue = Queue(
    pending: seq<Request>,
    tasks: seq<Task>,
    busy: bool,
    received: nat,
    batched: nat,
    batches: nat,
    deduplicated: nat,
    added: seq<Request>,
    overwritten: seq<Request>,
    callbacks: seq<Callback>)

  const Empty := Queue([], [], false, 0, 0, 0, 0, [], [], [])

  /** A callback may raise; the flag says whether it did. */
  datatype Step =
    | Add(id: string, prompt: string, model: string, at: real)
    | Begin(at: real)
    | Return(task: nat, answer: Answer)
    | Notify(task: nat, raised: bool)
    | Finish

  /** Position of the pending request with this id, or the length of the queue. */
  function FindId(pending: seq<Request>, id: string): (i: nat)
    ensures i <= |pending|
    ensures i < |pending| ==> pending[i].id == id
    ensures forall j :: 0 <= j < i ==> pending[j].id != id
    decreases |pending|
  {
    if pending == [] || pending[0].id == id then 0 else FindId(pending[1..], id) + 1
  }

  /** A reused id takes over the place in the queue; the request it replaces is gone. */
  function Added(s: Queue, id: string, prompt: string, model: string, at: real): Queue {
    var r := Request(id, prompt, model, at, s.received);
    var i := FindId(s.pending, id);
    s.(received := s.received + 1, added := s.added + [r],
       pending := if i < |s.pending| then s.pending[i := r] else s.pending + [r],
       overwritten := if i < |s.pending| then s.overwritten + [s.pending[i]] else s.overwritten)
  }

  function TaskFor(g: Group): Task
    requires g.members != []
  {
    Task(CallOf(g.members[0]), g.members, None, 0)
  }

  /** One task per group; the call is made with the first member's prompt and model. */
  function TasksFor(groups: seq<Group>): seq<Task> {
    if groups == [] then []
    else
      var (rest, last) := (TasksFor(groups[..|groups| - 1]), groups[|groups| - 1]);
      if last.members == [] then rest else rest + [TaskFor(last)]
  }

  function Begun(c: Config, s: Queue, at: real): Queue {
    var batch := Taken(c, s.pending, at);
    var groups := Grouped(c, batch);
    s.(pending := Remaining(c, s.pending, at), tasks := TasksFor(groups), busy := true,
       batched := s.batched + |Members(groups)|, batches := s.batches + |groups|,
       deduplicated := s.deduplicated + Repeats(batch))
  }

  predicate Done(t: Task) { t.answer.Some? && t.called == |t.members| }

  function Next(c: Config, s: Queue, step: Step): Queue {
    match step
    case Add(id, prompt, model, at) => Added(s, id, prompt, model, at)
    case Begin(at) => if s.busy || s.pending == [] then s else Begun(c, s, at)
    case Return(i, answer) =>
      if i < |s.tasks| && s.tasks[i].answer.None? then
        s.(tasks := s.tasks[i := s.tasks[i].(answer := Some(answer))])
      else s
    case Notify(i, _) =>
      if i < |s.tasks| && s.tasks[i].answer.Some? && s.tasks[i].called < |s.tasks[i].members| then
        var t := s.tasks[i];
        s.(tasks := s.tasks[i := t.(called := t.called + 1)],
           callbacks := s.callbacks + [Callback(t.members[t.called], t.call, t.answer.value)])
      else s
    case Finish =>
      if s.busy && forall i :: 0 <= i < |s.tasks| ==> Done(s.tasks[i]) then s.(tasks := [], busy := false) else s
  }

  /** The queue after the first k steps. */
  function At(c: Config, start: Queue, steps: seq<Step>, k: nat): Queue
    requires k <= |steps|
    decreases k
  {
    if k == 0 then start else Next(c, At(c, start, steps, k - 1), steps[k - 1])
  }

  function Uncalled(t: Task): seq<Request> { if t.called <= |t.members| then t.members[t.called..] else [] }

  function InFlight(tasks: seq<Task>): seq<Request> {
    if tasks == [] then [] else InFlight(tasks[..|tasks| - 1]) + Uncalled(tasks[|tasks| - 1])
  }

  function CalledBack(callbacks: seq<Callback>): seq<Request> {
    seq(|callbacks|, i requires 0 <= i < |callbacks| => callbacks[i].request)
  }

  /** No task has made more callbacks than it has members. */
  predicate Called(tasks: seq<Task>) {
    forall i :: 0 <= i < |tasks| ==> tasks[i].called <= |tasks[i].members|
  }

  /** Every request ever added is pending, overwritten, in flight or called back, and in exactly one of these once. */
  ghost predicate Conserved(s: Queue) {
    && multiset(s.added) == multiset(s.pending) + multiset(s.overwritten) + multiset(InFlight(s.tasks))
                            + multiset(CalledBack(s.callbacks))
    && (forall i :: 0 <= i < |s.added| ==> s.added[i].serial == i)
    && s.received == |s.added|
    && (!s.busy ==> s.tasks == [])
    && Called(s.tasks)
  }

  lemma Replaced(pending: seq<Request>, i: nat, r: Request)
    requires i < |pending|
    ensures multiset(pending[i := r]) + multiset([pending[i]]) == multiset(pending) + multiset([r])
  {
    assert pending == pending[..i] + [pending[i]] + pending[i + 1..];
    assert pending[i := r] == pending[..i] + [r] + pending[i + 1..];
  }

  lemma AppendConserves(s: Queue, r: Request)
    requires Conserved(s) && r.serial == s.received
    ensures Conserved(s.(received := s.received + 1, added := s.added + [r], pending := s.pending + [r]))
  {
    hide InFlight, CalledBack;
    assert multiset(s.added + [r]) == multiset(s.added) + multiset([r]);
    assert multiset(s.pending + [r]) == multiset(s.pending) + multiset([r]);
  }

  lemma OverwriteConserves(s: Queue, i: nat, r: Request)
    requires Conserved(s) && r.serial == s.received && i < |s.pending|
    ensures Conserved(s.(received := s.received + 1, added := s.added + [r], pending := s.pending[i := r],
                         overwritten := s.overwritten + [s.pending[i]]))
  {
    hide InFlight, CalledBack;
    Replaced(s.pending, i, r);
    assert multiset(s.added + [r]) == multiset(s.added) + multiset([r]);
    assert multiset(s.overwritten + [s.pending[i]]) == multiset(s.overwritten) + multiset([s.pending[i]]);
  }

  lemma AddConserves(s: Queue, id: string, prompt: string, model: string, at: real)
    requires Conserved(s)
    ensures Conserved(Added(s, id, prompt, model, at))
  {
    hide Conserved, FindId;
    var (i, r) := (FindId(s.pending, id), Request(id, prompt, model, at, s.received));
    if i < |s.pending| { OverwriteConserves(s, i, r); } else { AppendConserves(s, r); }
  }

  lemma {:induction false} TasksHoldMembers(groups: seq<Group>)
    ensures InFlight(TasksFor(groups)) == Members(groups) && Called(TasksFor(groups))
  {
    if groups != [] {
      var (front, last) := (groups[..|groups| - 1], groups[|groups| - 1]);
      TasksHoldMembers(front);
      if last.members != [] {
        var tasks := TasksFor(front) + [TaskFor(last)];
        assert tasks[..|tasks| - 1] == TasksFor(front);
        assert Uncalled(TaskFor(last)) == last.members;
      }
    }
  }

  lemma BeginConserves(c: Config, s: Queue, at: real)
    requires Conserved(s) && !s.busy
    ensures Conserved(Begun(c, s, at))
  {
    hide CalledBack, Taken, Remaining, Grouped, TasksFor, Members;
    var batch := Taken(c, s.pending, at);
    RoundSplits(c, s.pending, at);
    GroupsPartition(c, batch);
    TasksHoldMembers(Grouped(c, batch));
  }

  lemma {:induction false} InFlightChanged(tasks: seq<Task>, i: nat, t: Task, gone: seq<Request>)
    requires i < |tasks| && multiset(Uncalled(tasks[i])) == multiset(Uncalled(t)) + multiset(gone)
    ensures multiset(InFlight(tasks)) == multiset(InFlight(tasks[i := t])) + multiset(gone)
    decreases |tasks|
  {
    hide Uncalled;
    var n := |tasks| - 1;
    if i == n {
      assert tasks[i := t][..n] == tasks[..n];
    } else {
      assert tasks[i := t][..n] == tasks[..n][i := t];
      InFlightChanged(tasks[..n], i, t, gone);
    }
  }

  lemma NotifyConserves(s: Queue, i: nat)
    requires Conserved(s)
    requires i < |s.tasks| && s.tasks[i].answer.Some? && s.tasks[i].called < |s.tasks[i].members|
    ensures var t := s.tasks[i];
            Conserved(s.(tasks := s.tasks[i := t.(called := t.called + 1)],
                         callbacks := s.callbacks + [Callback(t.members[t.called], t.call, t.answer.value)]))
  {
    hide InFlight;
    var t := s.tasks[i];
    var r := t.members[t.called];
    assert t.members[t.called..] == [r] + t.members[t.called + 1..];
    InFlightChanged(s.tasks, i, t.(called := t.called + 1), [r]);
    var more := s.callbacks + [Callback(r, t.call, t.answer.value)];
    assert CalledBack(more) == CalledBack(s.callbacks) + [r];
  }

  lemma {:induction false} AllDoneNoneInFlight(tasks: seq<Task>)
    requires forall i :: 0 <= i < |tasks| ==> Done(tasks[i])
    ensures InFlight(tasks) == []
  {
    if tasks != [] { AllDoneNoneInFlight(tasks[..|tasks| - 1]); }
  }

  lemma StepConserves(c: Config, s: Queue, step: Step)
    requires Conserved(s)
    ensures Conserved(Next(c, s, step))
  {
    hide InFlight, CalledBack, Begun, Added, Conserved, Done;
    match step
    case Add(id, prompt, model, at) => AddConserves(s, id, prompt, model, at);
    case Begin(at) => if !s.busy { BeginConserves(c, s, at); }
    case Return(i, answer) => ReturnConserves(c, s, i, answer);
    case Notify(i, _) =>
      if i < |s.tasks| && s.tasks[i].answer.Some? && s.tasks[i].called < |s.tasks[i].members| {
        NotifyConserves(s, i);
      }
    case Finish => FinishConserves(c, s);
  }

  lemma ReturnConserves(c: Config, s: Queue, i: nat, answer: Answer)
    requires Conserved(s)
    ensures Conserved(Next(c, s, Return(i, answer)))
  {
    hide InFlight, CalledBack;
    if i < |s.tasks| && s.tasks[i].answer.None? {
      InFlightChanged(s.tasks, i, s.tasks[i].(answer := Some(answer)), []);
    }
  }

  lemma FinishConserves(c: Config, s: Queue)
    requires Conserved(s)
    ensures Conserved(Next(c, s, Finish))
  {
    hide CalledBack;
    if forall i :: 0 <= i < |s.tasks| ==> Done(s.tasks[i]) { AllDoneNoneInFlight(s.tasks); }
  }

  lemma {:induction false} RunConserves(c: Config, steps: seq<Step>, k: nat)
    requires k <= |steps|
    ensures Conserved(At(c, Empty, steps, k))
    decreases k
  {
    hide Next, Conserved;
    if k > 0 {
      RunConserves(c, steps, k - 1);
      StepConserves(c, At(c, Empty, steps, k - 1), steps[k - 1]);
    } else {
      EmptyConserved();
    }
  }

  lemma EmptyConserved()
    ensures Conserved(Empty)
  {
    assert CalledBack([]) == [];
  }

  lemma {:induction false} AddedOnce(added: seq<Request>, r: Request)
    requires forall i :: 0 <= i < |added| ==> added[i].serial == i
    ensures multiset(added)[r] <= 1
  {
    if added != [] {
      var (front, last) := (added[..|added| - 1], added[|added| - 1]);
      assert added == front + [last];
      AddedOnce(front, r);
      if r == last { assert r !in front; }
    }
  }

  /** Main result: in every run no request is called back twice, and between rounds every request that is neither
      still pending nor overwritten has been called back exactly once, whether or not callbacks raised. */
  lemma CalledBackExactlyOnce(c: Config, steps: seq<Step>, k: nat, r: Request)
    requires k <= |steps| && r in At(c, Empty, steps, k).added
    ensures var s := At(c, Empty, steps, k);
            var times := multiset(CalledBack(s.callbacks))[r];
            && times <= 1
            && (times == 1 <==> r !in s.pending && r !in s.overwritten && r !in InFlight(s.tasks))
            && (!s.busy ==> (times == 1 <==> r !in s.pending && r !in s.overwritten))
  {
    hide At, Next, CalledBack;
    RunConserves(c, steps, k);
    var s := At(c, Empty, steps, k);
    AddedOnce(s.added, r);
    assert r in multiset(s.added);
    assert multiset(s.added)[r] == multiset(s.pending)[r] + multiset(s.overwritten)[r] + multiset(InFlight(s.tasks))[r]
                                   + multiset(CalledBack(s.callbacks))[r];
  }
}
