/** Laws of the batch queue: the counters add up, every callback carries the answer of its own call, and no request
    waits for more rounds than its place in the queue explains. */
module BatchLaws {
  import opened Numbers
  import opened Batching
  import opened BatchRun

  lemma PendingWasAdded(s: Queue)
    requires Conserved(s)
    ensures forall r <- s.pending :: r in s.added
    ensures forall i, j :: 0 <= i < j < |s.pending| ==> s.pending[i] != s.pending[j]
  {
    hide InFlight, CalledBack;
    forall r <- s.pending ensures r in s.added {
      assert multiset(s.pending)[r] >= 1;
      assert r in multiset(s.added);
    }
    assert multiset(s.pending) <= multiset(s.added);
    forall i, j | 0 <= i < j < |s.pending| ensures s.pending[i] != s.pending[j] {
      AddedOnce(s.added, s.pending[i]);
      if s.pending[i] == s.pending[j] { CountedTwice(s.pending, i, j); }
    }
  }

  /** What was received is pending, batched or overwritten; what was batched is a first or a repeated call. */
  predicate Counted(s: Queue) {
    && s.received == |s.added|
    && s.received == |s.pending| + s.batched + |s.overwritten|
    && s.batched == s.deduplicated + s.batches
  }

  lemma TakenWasAdded(c: Config, s: Queue, at: real)
    requires Conserved(s)
    ensures forall r <- Taken(c, s.pending, at) :: r in s.added
  {
    hide Conserved, Taken, Remaining;
    PendingWasAdded(s);
    RoundSplits(c, s.pending, at);
    var batch := Taken(c, s.pending, at);
    forall r <- batch ensures r in s.added {
      assert r in multiset(batch);
      assert r in multiset(s.pending);
    }
  }

  lemma BeginCounts(c: Config, s: Queue, at: real)
    requires Conserved(s) && Counted(s) && Separates(c, s.added)
    ensures Counted(Begun(c, s, at))
  {
    hide Conserved, Separates, Taken, Remaining, Grouped, TasksFor, Members, Repeats, GroupedByCall;
    var batch := Taken(c, s.pending, at);
    var groups := Grouped(c, batch);
    TakenWasAdded(c, s, at);
    RoundSplits(c, s.pending, at);
    GroupsAreCalls(c, s.added, batch);
    GroupsPartition(c, batch);
    assert |Members(groups)| == |multiset(Members(groups))| == |multiset(batch)| == |batch|;
  }

  lemma SeparatesEarlier(c: Config, s: Queue, step: Step)
    requires Separates(c, Next(c, s, step).added)
    ensures Separates(c, s.added)
  {
    hide Taken, Remaining, Grouped, TasksFor;
    var added := Next(c, s, step).added;
    assert forall i :: 0 <= i < |s.added| ==> added[i] == s.added[i];
  }

  lemma StepCounts(c: Config, s: Queue, step: Step)
    requires Conserved(s) && Counted(s) && Separates(c, s.added)
    ensures Counted(Next(c, s, step))
  {
    hide Begun, Conserved, Separates;
    if step.Begin? { BeginCounts(c, s, step.at); }
  }

  /** Main result: at every suspension point of every run the batcher's counters add up. */
  lemma {:induction false} CountersAddUp(c: Config, steps: seq<Step>, k: nat)
    requires k <= |steps| && Separates(c, At(c, Empty, steps, k).added)
    ensures Counted(At(c, Empty, steps, k))
    decreases k
  {
    hide Next, Separates, Conserved, Counted;
    if k > 0 {
      var s := At(c, Empty, steps, k - 1);
      SeparatesEarlier(c, s, steps[k - 1]);
      CountersAddUp(c, steps, k - 1);
      RunConserves(c, steps, k - 1);
      StepCounts(c, s, steps[k - 1]);
    } else {
      assert Counted(Empty) by { EmptyCounted(); }
    }
  }

  lemma EmptyCounted()
    ensures Counted(Empty)
  {
  }

  predicate OwnCall(t: Task) {
    t.members != [] && forall i :: 0 <= i < |t.members| ==> CallOf(t.members[i]) == t.call
  }

  /** Every task makes a call its members asked for, no two tasks make the same call, and every callback names the call
      its request asked for. */
  ghost predicate Faithful(s: Queue) {
    && (forall i :: 0 <= i < |s.tasks| ==> OwnCall(s.tasks[i]))
    && (forall i, j :: 0 <= i < j < |s.tasks| ==> s.tasks[i].call != s.tasks[j].call)
    && (forall i :: 0 <= i < |s.callbacks| ==> CallOf(s.callbacks[i].request) == s.callbacks[i].call)
  }

  lemma {:induction false} TaskOfGroup(groups: seq<Group>, i: nat)
    requires i < |groups| && forall j :: 0 <= j < |groups| ==> groups[j].members != []
    ensures |TasksFor(groups)| == |groups| && TasksFor(groups)[i] == TaskFor(groups[i])
    decreases |groups|
  {
    var n := |groups| - 1;
    if i < n { TaskOfGroup(groups[..n], i); } else if n > 0 { TaskOfGroup(groups[..n], 0); }
  }

  lemma BeginFaithful(c: Config, s: Queue, at: real)
    requires Conserved(s) && Faithful(s) && Separates(c, s.added)
    ensures Faithful(Begun(c, s, at))
  {
    hide Conserved, Separates, Taken, Remaining, Grouped, TasksFor, KeyOf, CallOf;
    var batch := Taken(c, s.pending, at);
    var groups := Grouped(c, batch);
    TakenWasAdded(c, s, at);
    GroupsAreCalls(c, s.added, batch);
    var tasks := TasksFor(groups);
    forall i | 0 <= i < |groups| ensures groups[i].members != [] && groups[i].members[0] in s.added {
      assert Gathers(c, batch, groups[i]);
    }
    if groups == [] { NoTasks(groups); } else { TaskOfGroup(groups, 0); }
    forall i | 0 <= i < |tasks| ensures OwnCall(tasks[i]) {
      TaskOfGroup(groups, i);
      assert Gathers(c, batch, groups[i]);
      AskingIs(batch, tasks[i].call);
    }
    forall i, j | 0 <= i < j < |tasks| ensures tasks[i].call != tasks[j].call {
      TaskOfGroup(groups, i);
      TaskOfGroup(groups, j);
      KeyIdentifiesCall(c, s.added, groups[i].members[0], groups[j].members[0]);
      assert Gathers(c, batch, groups[i]) && Gathers(c, batch, groups[j]);
    }
  }

  lemma NoTasks(groups: seq<Group>)
    ensures groups == [] ==> TasksFor(groups) == []
  {
  }

  lemma StepFaithful(c: Config, s: Queue, step: Step)
    requires Conserved(s) && Faithful(s) && Separates(c, s.added)
    ensures Faithful(Next(c, s, step))
  {
    hide Begun, Conserved, Separates, CallOf, Done;
    if step.Begin? { BeginFaithful(c, s, step.at); }
  }

  /** This step brings the answer to a call that is being made and has none yet. */
  predicate Brings(s: Queue, step: Step, call: Call, answer: Answer) {
    && step.Return? && step.answer == answer
    && step.task < |s.tasks| && s.tasks[step.task].call == call && s.tasks[step.task].answer.None?
  }

  /** One of the first k steps brought this answer to this call. */
  ghost predicate AnsweredBy(c: Config, steps: seq<Step>, k: nat, call: Call, answer: Answer)
    requires k <= |steps|
  {
    exists j :: 0 <= j < k && Brings(At(c, Empty, steps, j), steps[j], call, answer)
  }

  /** A task holds this answer to this call, or it was handed to a callback. */
  ghost predicate Holds(s: Queue, call: Call, answer: Answer) {
    || (exists i :: 0 <= i < |s.tasks| && s.tasks[i].call == call && s.tasks[i].answer == Some(answer))
    || (exists i :: 0 <= i < |s.callbacks| && s.callbacks[i].call == call && s.callbacks[i].answer == answer)
  }

  lemma {:induction false} TasksStartUnanswered(groups: seq<Group>)
    ensures forall i :: 0 <= i < |TasksFor(groups)| ==> TasksFor(groups)[i].answer.None?
  {
    if groups != [] { TasksStartUnanswered(groups[..|groups| - 1]); }
  }

  lemma StepAnswers(c: Config, s: Queue, step: Step, call: Call, answer: Answer)
    ensures Holds(Next(c, s, step), call, answer) ==> Holds(s, call, answer) || Brings(s, step, call, answer)
  {
    TasksStartUnanswered(Grouped(c, Taken(c, s.pending, if step.Begin? then step.at else 0.0)));
    hide Taken, Remaining, Grouped, TasksFor, Members, Repeats, Done;
    var r := Next(c, s, step);
    if i :| 0 <= i < |r.tasks| && r.tasks[i].call == call && r.tasks[i].answer == Some(answer) {
      assert step.Begin? || step.Finish? || i < |s.tasks|;
    } else if i :| 0 <= i < |r.callbacks| && r.callbacks[i].call == call && r.callbacks[i].answer == answer {
      if i < |s.callbacks| { assert s.callbacks[i] == r.callbacks[i]; }
    }
  }

  lemma {:induction false} AnswersBrought(c: Config, steps: seq<Step>, k: nat, call: Call, answer: Answer)
    requires k <= |steps|
    ensures Holds(At(c, Empty, steps, k), call, answer) ==> AnsweredBy(c, steps, k, call, answer)
    decreases k
  {
    hide Next, Holds, Brings;
    if k > 0 {
      AnswersBrought(c, steps, k - 1, call, answer);
      StepAnswers(c, At(c, Empty, steps, k - 1), steps[k - 1], call, answer);
    } else {
      NothingHeld(call, answer);
    }
  }

  lemma NothingHeld(call: Call, answer: Answer)
    ensures !Holds(Empty, call, answer)
  {
  }

  /** Main result: in every run each callback carries an answer that was brought to a call with that request's own
      prompt and model, and the calls made side by side in a round are all different. */
  lemma AnswersAreOwn(c: Config, steps: seq<Step>, k: nat)
    requires k <= |steps| && Separates(c, At(c, Empty, steps, k).added)
    ensures Faithful(At(c, Empty, steps, k))
    ensures forall b <- At(c, Empty, steps, k).callbacks :: AnsweredBy(c, steps, k, CallOf(b.request), b.answer)
  {
    CallsAreOwn(c, steps, k);
    hide At, Next, AnsweredBy, CallOf, OwnCall;
    var s := At(c, Empty, steps, k);
    forall b <- s.callbacks ensures AnsweredBy(c, steps, k, CallOf(b.request), b.answer) {
      var i :| 0 <= i < |s.callbacks| && s.callbacks[i] == b;
      assert Holds(s, b.call, b.answer);
      AnswersBrought(c, steps, k, b.call, b.answer);
    }
  }

  lemma {:induction false} CallsAreOwn(c: Config, steps: seq<Step>, k: nat)
    requires k <= |steps| && Separates(c, At(c, Empty, steps, k).added)
    ensures Faithful(At(c, Empty, steps, k))
    decreases k
  {
    hide Next, Separates, Conserved, Faithful;
    if k > 0 {
      var s := At(c, Empty, steps, k - 1);
      SeparatesEarlier(c, s, steps[k - 1]);
      CallsAreOwn(c, steps, k - 1);
      RunConserves(c, steps, k - 1);
      StepFaithful(c, s, steps[k - 1]);
    } else {
      EmptyFaithful();
    }
  }

  lemma EmptyFaithful()
    ensures Faithful(Empty)
  {
  }

  /** How many rounds were begun among the first k steps. */
  function Rounds(c: Config, start: Queue, steps: seq<Step>, k: nat): nat
    requires k <= |steps|
    decreases k
  {
    if k == 0 then 0
    else
      var s := At(c, start, steps, k - 1);
      Rounds(c, start, steps, k - 1) + if steps[k - 1].Begin? && !s.busy && s.pending != [] then 1 else 0
  }

  lemma {:induction false} LeftIsPart(c: Config, pending: seq<Request>, at: real, room: int)
    ensures forall r <- Left(c, pending, at, room) :: r in pending
    decreases |pending|
  {
    if pending != [] && room > 0 {
      LeftIsPart(c, pending[1..], at, if TimedOut(c, pending[0], at) then room - 1 else room);
    }
  }

  /** A timed-out request that is left behind moved up by the whole batch. */
  lemma {:induction false} MovesUp(c: Config, pending: seq<Request>, at: real, room: nat, r: Request)
    requires r in pending && TimedOut(c, r, at)
    requires forall i, j :: 0 <= i < j < |pending| ==> pending[i] != pending[j]
    ensures var left := Left(c, pending, at, room);
            r in left ==> IndexOf(left, r) + room == IndexOf(pending, r)
    decreases |pending|
  {
    hide TimedOut;
    if room > 0 {
      var rest := pending[1..];
      if pending[0] == r {
        LeftIsPart(c, rest, at, room - 1);
        assert r !in rest;
      } else if TimedOut(c, pending[0], at) {
        MovesUp(c, rest, at, room - 1, r);
      } else {
        MovesUp(c, rest, at, room, r);
      }
    }
  }

  /** Nobody reuses the id of r, and r has waited out the timeout whenever a round begins. */
  predicate Undisturbed(c: Config, step: Step, r: Request) {
    && (step.Add? ==> step.id != r.id)
    && (step.Begin? ==> step.at >= r.arrived + c.timeoutMs / 1000.0)
  }

  /** With rounds already begun, r has left or has at least that many batches fewer ahead of it. */
  predicate Advanced(c: Config, pending: seq<Request>, r: Request, ahead: nat, rounds: nat) {
    r in pending ==> if c.limit >= 1 then IndexOf(pending, r) + c.limit * rounds <= ahead else rounds == 0
  }

  lemma {:induction false} AddKeepsPlace(pending: seq<Request>, i: nat, other: Request, r: Request)
    requires i <= |pending| && other != r && (i < |pending| ==> pending[i] != r)
    ensures var next := if i < |pending| then pending[i := other] else pending + [other];
            && (r in next <==> r in pending)
            && (r in pending ==> IndexOf(next, r) == IndexOf(pending, r))
    decreases |pending|
  {
    var next := if i < |pending| then pending[i := other] else pending + [other];
    if pending != [] && i > 0 {
      AddKeepsPlace(pending[1..], i - 1, other, r);
      assert next == [pending[0]] + if i < |pending| then pending[1..][i - 1 := other] else pending[1..] + [other];
    } else if pending != [] {
      assert next == [other] + pending[1..];
    }
  }

  lemma RoundAdvances(c: Config, s: Queue, at: real, r: Request, ahead: nat, rounds: nat)
    requires Conserved(s) && TimedOut(c, r, at) && Advanced(c, s.pending, r, ahead, rounds)
    ensures Advanced(c, Remaining(c, s.pending, at), r, ahead, rounds + 1)
  {
    hide TimedOut, Conserved;
    PendingWasAdded(s);
    LeftIsPart(c, s.pending, at, c.limit);
    if r in s.pending && c.limit >= 1 { MovesUp(c, s.pending, at, c.limit, r); }
  }

  /** Main result: over any run in which r has waited out the timeout at each round and its id is not reused, r leaves
      the queue within ahead / limit + 1 rounds, and in one round when the limit is not positive. */
  lemma {:induction false} NoStarvation(c: Config, start: Queue, steps: seq<Step>, k: nat, r: Request)
    requires Conserved(start) && r in start.pending && k <= |steps|
    requires forall i :: 0 <= i < k ==> Undisturbed(c, steps[i], r)
    ensures Conserved(At(c, start, steps, k))
    ensures Advanced(c, At(c, start, steps, k).pending, r, IndexOf(start.pending, r), Rounds(c, start, steps, k))
    ensures Rounds(c, start, steps, k) >= (if c.limit >= 1 then IndexOf(start.pending, r) / c.limit + 1 else 1)
            ==> r !in At(c, start, steps, k).pending
    decreases k
  {
    hide Next, Conserved, Undisturbed, Advanced;
    var ahead := IndexOf(start.pending, r);
    if k > 0 {
      NoStarvation(c, start, steps, k - 1, r);
      var s := At(c, start, steps, k - 1);
      StepConserves(c, s, steps[k - 1]);
      StepAdvances(c, s, steps[k - 1], r, ahead, Rounds(c, start, steps, k - 1));
    } else {
      assert Advanced(c, start.pending, r, ahead, 0) by { StartAdvanced(c, start.pending, r); }
    }
    EnoughRounds(c, At(c, start, steps, k).pending, r, ahead, Rounds(c, start, steps, k));
  }

  lemma StartAdvanced(c: Config, pending: seq<Request>, r: Request)
    requires r in pending
    ensures Advanced(c, pending, r, IndexOf(pending, r), 0)
  {
  }

  lemma StepAdvances(c: Config, s: Queue, step: Step, r: Request, ahead: nat, rounds: nat)
    requires Conserved(s) && Undisturbed(c, step, r) && Advanced(c, s.pending, r, ahead, rounds)
    ensures Advanced(c, Next(c, s, step).pending, r, ahead,
                     rounds + if step.Begin? && !s.busy && s.pending != [] then 1 else 0)
  {
    hide Conserved, TimedOut, Remaining, Done, TasksFor;
    match step
    case Add(id, prompt, model, at) =>
      AddKeepsPlace(s.pending, FindId(s.pending, id), Request(id, prompt, model, at, s.received), r);
    case Begin(at) =>
      TimedOutFrom(c, r, at, at);
      RoundAdvances(c, s, at, r, ahead, rounds);
    case _ =>
  }

  lemma EnoughRounds(c: Config, pending: seq<Request>, r: Request, ahead: nat, rounds: nat)
    requires Advanced(c, pending, r, ahead, rounds)
    ensures r in pending ==> rounds < if c.limit >= 1 then ahead / c.limit + 1 else 1
  {
    if r in pending && c.limit >= 1 { WholeBatches(ahead, c.limit, rounds); }
  }

  lemma WholeBatches(ahead: nat, limit: nat, rounds: nat)
    requires limit >= 1 && limit * rounds <= ahead
    ensures rounds <= ahead / limit
  {
    var next := ahead / limit + 1;
    NextMultiple(ahead, limit);
    SmallerFactor(limit, rounds, next);
  }

  lemma NextMultiple(ahead: nat, limit: nat)
    requires limit >= 1
    ensures ahead < limit * (ahead / limit + 1)
  {
    assert ahead == limit * (ahead / limit) + ahead % limit;
  }

  lemma SmallerFactor(limit: nat, a: nat, b: nat)
    requires limit * a < limit * b
    ensures a < b
  {
    assert a >= b ==> limit * (a - b) >= 0;
  }

  function Work(tasks: seq<Task>): nat {
    if tasks == [] then 0
    else
      var last := tasks[|tasks| - 1];
      Work(tasks[..|tasks| - 1]) + |Uncalled(last)| + if last.answer.None? then 1 else 0
  }

  lemma {:induction false} WorkChanged(tasks: seq<Task>, i: nat, t: Task)
    requires i < |tasks|
    ensures Work(tasks[i := t]) - Work(tasks)
            == |Uncalled(t)| + (if t.answer.None? then 1 else 0)
               - |Uncalled(tasks[i])| - (if tasks[i].answer.None? then 1 else 0)
    decreases |tasks|
  {
    hide Uncalled;
    var n := |tasks| - 1;
    if i == n {
      assert tasks[i := t][..n] == tasks[..n];
    } else {
      assert tasks[i := t][..n] == tasks[..n][i := t];
      WorkChanged(tasks[..n], i, t);
    }
  }

  lemma {:induction false} NoWorkMeansDone(tasks: seq<Task>)
    requires Called(tasks)
    ensures Work(tasks) == 0 <==> forall i :: 0 <= i < |tasks| ==> Done(tasks[i])
  {
    if tasks != [] {
      var front := tasks[..|tasks| - 1];
      NoWorkMeansDone(front);
      assert forall i :: 0 <= i < |front| ==> front[i] == tasks[i];
      assert tasks[|tasks| - 1] in tasks;
    }
  }

  /** Main result: in every run, a round under way either can finish, or some task can take a step that leaves less to
      do; no step of any kind leaves more. */
  lemma RoundsComplete(c: Config, steps: seq<Step>, k: nat, other: Step)
    requires k <= |steps| && At(c, Empty, steps, k).busy
    ensures var s := At(c, Empty, steps, k);
            && (Work(s.tasks) == 0 <==> !Next(c, s, Finish).busy)
            && (Work(s.tasks) > 0 ==> exists step :: Work(Next(c, s, step).tasks) < Work(s.tasks))
            && Work(Next(c, s, other).tasks) <= Work(s.tasks)
  {
    hide At, Next, Work;
    RunConserves(c, steps, k);
    var s := At(c, Empty, steps, k);
    RoundProgresses(c, s);
    WorkNeverGrows(c, s, other);
  }

  lemma RoundProgresses(c: Config, s: Queue)
    requires s.busy && Called(s.tasks)
    ensures Work(s.tasks) == 0 <==> !Next(c, s, Finish).busy
    ensures Work(s.tasks) > 0 ==> exists step :: Work(Next(c, s, step).tasks) < Work(s.tasks)
  {
    hide Work, Added, Begun, Uncalled;
    NoWorkMeansDone(s.tasks);
    if Work(s.tasks) > 0 {
      var i :| 0 <= i < |s.tasks| && !Done(s.tasks[i]);
      var step := TaskStep(c, s, i);
    }
  }

  lemma TaskStep(c: Config, s: Queue, i: nat) returns (step: Step)
    requires i < |s.tasks| && !Done(s.tasks[i]) && Called(s.tasks)
    ensures Work(Next(c, s, step).tasks) < Work(s.tasks)
  {
    hide Work, Added, Begun;
    var t := s.tasks[i];
    if t.answer.None? {
      step := Return(i, Failed(""));
      WorkChanged(s.tasks, i, t.(answer := Some(Failed(""))));
    } else {
      step := Notify(i, false);
      WorkChanged(s.tasks, i, t.(called := t.called + 1));
    }
  }

  /** No step of any kind gives a round under way more to do. */
  lemma WorkNeverGrows(c: Config, s: Queue, step: Step)
    requires s.busy && Called(s.tasks)
    ensures Work(Next(c, s, step).tasks) <= Work(s.tasks) && Called(Next(c, s, step).tasks)
  {
    hide Work, Begun, Done;
    NoWorkMeansDone([]);
    match step
    case Return(i, answer) => if i < |s.tasks| { WorkChanged(s.tasks, i, s.tasks[i].(answer := Some(answer))); }
    case Notify(i, _) => if i < |s.tasks| { WorkChanged(s.tasks, i, s.tasks[i].(called := s.tasks[i].called + 1)); }
    case _ =>
  }
}
