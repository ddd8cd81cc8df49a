/** Which pending requests a round takes, and how they are grouped so that equal calls are made once. */
module Batching {

  /** A request as it was added; the serial number tells apart requests that reuse an id. */
  datatype Request = Request(id: string, prompt: string, model: string, arrived: real, serial: nat)

  datatype Call = Call(prompt: string, model: string)

  datatype Group = Group(key: string, members: seq<Request>)

  /** Batch limit, timeout and the prompt hash, whose digests have a fixed length. */
  datatype Config = Config(limit: int, timeoutMs: real, hash: string -> string)

  const DigestLength := 64

  function CallOf(r: Request): Call { Call(r.prompt, r.model) }

  predicate TimedOut(c: Config, r: Request, at: real) { (at - r.arrived) * 1000.0 >= c.timeoutMs }

  /** The first requests that have timed out, at most `room` of them. */
  function Due(c: Config, pending: seq<Request>, at: real, room: int): seq<Request>
    decreases |pending|
  {
    if pending == [] || room <= 0 then []
    else if TimedOut(c, pending[0], at) then [pending[0]] + Due(c, pending[1..], at, room - 1)
    else Due(c, pending[1..], at, room)
  }

  /** The requests `Due` leaves behind, in their order. */
  function Left(c: Config, pending: seq<Request>, at: real, room: int): seq<Request>
    decreases |pending|
  {
    if pending == [] || room <= 0 then pending
    else if TimedOut(c, pending[0], at) then Left(c, pending[1..], at, room - 1)
    else [pending[0]] + Left(c, pending[1..], at, room)
  }

  /** A round takes what is due; when nothing is, it takes everything. */
  function Taken(c: Config, pending: seq<Request>, at: real): seq<Request> {
    var due := Due(c, pending, at, c.limit);
    if due == [] then pending else due
  }

  function Remaining(c: Config, pending: seq<Request>, at: real): seq<Request> {
    if Due(c, pending, at, c.limit) == [] then [] else Left(c, pending, at, c.limit)
  }

  lemma {:induction false} DueAndLeft(c: Config, pending: seq<Request>, at: real, room: int)
    ensures multiset(pending) == multiset(Due(c, pending, at, room)) + multiset(Left(c, pending, at, room))
    decreases |pending|
  {
    if pending != [] && room > 0 {
      assert pending == [pending[0]] + pending[1..];
      DueAndLeft(c, pending[1..], at, if TimedOut(c, pending[0], at) then room - 1 else room);
    }
  }

  /** A round splits the queue: nothing is lost, nothing is taken twice. */
  lemma RoundSplits(c: Config, pending: seq<Request>, at: real)
    ensures multiset(pending) == multiset(Taken(c, pending, at)) + multiset(Remaining(c, pending, at))
    ensures pending != [] ==> Taken(c, pending, at) != []
    ensures |pending| == |Taken(c, pending, at)| + |Remaining(c, pending, at)|
  {
    DueAndLeft(c, pending, at, c.limit);
    var (taken, left) := (Taken(c, pending, at), Remaining(c, pending, at));
    assert |multiset(pending)| == |multiset(taken)| + |multiset(left)|;
  }

  /** What the clock says of a round: with a positive limit, once some request has waited out the timeout, all that are
      taken have, at most the limit of them, and one that has is left only behind a full batch of earlier ones;
      otherwise everything is taken. */
  ghost predicate OldFirst(c: Config, pending: seq<Request>, at: real, batch: seq<Request>) {
    if c.limit > 0 && exists r :: r in pending && at >= r.arrived + c.timeoutMs / 1000.0 then
      && 0 < |batch| <= c.limit
      && (forall r <- batch :: r in pending && at >= r.arrived + c.timeoutMs / 1000.0)
      && (forall r <- pending :: at >= r.arrived + c.timeoutMs / 1000.0 && r !in batch ==>
            |batch| == c.limit && forall other <- batch :: IndexOf(pending, other) < IndexOf(pending, r))
    else batch == pending
  }

  /** A request has timed out from its arrival plus the timeout on, and stays so. */
  lemma TimedOutFrom(c: Config, r: Request, at: real, later: real)
    ensures TimedOut(c, r, at) <==> at >= r.arrived + c.timeoutMs / 1000.0
    ensures TimedOut(c, r, at) && at <= later ==> TimedOut(c, r, later)
  {
  }

  lemma {:induction false} DueAreFirst(c: Config, pending: seq<Request>, at: real, room: int)
    ensures var due := Due(c, pending, at, room);
            && |due| <= (if room > 0 then room else 0)
            && (forall r <- due :: r in pending && TimedOut(c, r, at))
            && (forall r <- pending :: TimedOut(c, r, at) && r !in due && room > 0 ==>
                  |due| == room && forall other <- due :: IndexOf(pending, other) < IndexOf(pending, r))
    decreases |pending|
  {
    hide TimedOut;
    if pending != [] && room > 0 {
      var next := if TimedOut(c, pending[0], at) then room - 1 else room;
      DueAreFirst(c, pending[1..], at, next);
      var (due, rest) := (Due(c, pending, at, room), Due(c, pending[1..], at, next));
      forall r <- pending | TimedOut(c, r, at) && r !in due
        ensures |due| == room && forall other <- due :: IndexOf(pending, other) < IndexOf(pending, r)
      {
        assert r != pending[0] && r in pending[1..] && r !in rest;
      }
    }
  }

  lemma TakenOldFirst(c: Config, pending: seq<Request>, at: real)
    ensures OldFirst(c, pending, at, Taken(c, pending, at))
  {
    DueAreFirst(c, pending, at, c.limit);
    hide Due, TimedOut;
    forall r ensures TimedOut(c, r, at) <==> at >= r.arrived + c.timeoutMs / 1000.0 { TimedOutFrom(c, r, at, at); }
    if Due(c, pending, at, c.limit) != [] {
      assert Due(c, pending, at, c.limit)[0] in pending;
    }
  }

  /** Model, separator and digest of prompt and model together. */
  function KeyOf(c: Config, r: Request): string { r.model + "_" + c.hash(r.prompt + r.model) }

  /** Digests have their fixed length, and no two of these requests collide. */
  ghost predicate Separates(c: Config, requests: seq<Request>) {
    && (forall text :: |c.hash(text)| == DigestLength)
    && forall i, j :: 0 <= i < |requests| && 0 <= j < |requests|
         && c.hash(requests[i].prompt + requests[i].model) == c.hash(requests[j].prompt + requests[j].model)
         ==> requests[i].prompt + requests[i].model == requests[j].prompt + requests[j].model
  }

  /** Two requests share a batch key exactly when they ask for the same call, although the hashed text does not show
      where the prompt ends and the model name begins. */
  lemma KeyIdentifiesCall(c: Config, requests: seq<Request>, a: Request, b: Request)
    requires Separates(c, requests) && a in requests && b in requests
    ensures KeyOf(c, a) == KeyOf(c, b) <==> CallOf(a) == CallOf(b)
  {
    var (i, j) := (IndexOf(requests, a), IndexOf(requests, b));
    var (x, y) := (c.hash(a.prompt + a.model), c.hash(b.prompt + b.model));
    if KeyOf(c, a) == KeyOf(c, b) {
      assert |x| == |y| == DigestLength;
      assert (a.model + "_" + x)[|a.model| + 1..] == x;
      assert (b.model + "_" + y)[|b.model| + 1..] == y;
      assert (a.model + "_" + x)[..|a.model|] == a.model;
      assert (b.model + "_" + y)[..|b.model|] == b.model;
      assert requests[i].prompt + requests[i].model == requests[j].prompt + requests[j].model;
      assert (a.prompt + a.model)[..|a.prompt|] == a.prompt;
      assert (b.prompt + b.model)[..|b.prompt|] == b.prompt;
    }
  }

  function IndexOf(requests: seq<Request>, r: Request): (i: nat)
    requires r in requests
    ensures i < |requests| && requests[i] == r
    decreases |requests|
  {
    if requests[0] == r then 0 else IndexOf(requests[1..], r) + 1
  }

  /** Position of the group with this key, or the number of groups. */
  function FindKey(groups: seq<Group>, key: string): (i: nat)
    ensures i <= |groups|
    ensures i < |groups| ==> groups[i].key == key
    ensures forall j :: 0 <= j < i ==> groups[j].key != key
    decreases |groups|
  {
    if groups == [] || groups[0].key == key then 0 else FindKey(groups[1..], key) + 1
  }

  function Grouping(groups: seq<Group>, key: string, r: Request): seq<Group> {
    var i := FindKey(groups, key);
    if i < |groups| then groups[i := Group(key, groups[i].members + [r])] else groups + [Group(key, [r])]
  }

  /** The batch grouped by key, groups in order of first appearance, members in batch order. */
  function Grouped(c: Config, batch: seq<Request>): seq<Group> {
    if batch == [] then []
    else
      var last := batch[|batch| - 1];
      Grouping(Grouped(c, batch[..|batch| - 1]), KeyOf(c, last), last)
  }

  /** How many requests of the batch ask for a call already seen in it. */
  function Repeats(batch: seq<Request>): nat {
    if batch == [] then 0
    else
      var front := batch[..|batch| - 1];
      Repeats(front) + if SeenCall(front, CallOf(batch[|batch| - 1])) then 1 else 0
  }

  predicate SeenCall(batch: seq<Request>, call: Call) {
    exists i :: 0 <= i < |batch| && CallOf(batch[i]) == call
  }

  function Asking(batch: seq<Request>, call: Call): seq<Request> {
    if batch == [] then []
    else
      var last := batch[|batch| - 1];
      Asking(batch[..|batch| - 1], call) + if CallOf(last) == call then [last] else []
  }

  function Members(groups: seq<Group>): seq<Request> {
    if groups == [] then [] else Members(groups[..|groups| - 1]) + groups[|groups| - 1].members
  }

  lemma {:induction false} MembersChanged(groups: seq<Group>, i: nat, r: Request)
    requires i < |groups|
    ensures multiset(Members(groups[i := groups[i].(members := groups[i].members + [r])]))
            == multiset(Members(groups)) + multiset{r}
    decreases |groups|
  {
    var changed := groups[i := groups[i].(members := groups[i].members + [r])];
    var n := |groups| - 1;
    if i == n {
      assert changed[..n] == groups[..n];
    } else {
      assert changed[..n] == groups[..n][i := groups[i].(members := groups[i].members + [r])];
      MembersChanged(groups[..n], i, r);
    }
  }

  /** Grouping neither loses nor repeats a request. */
  lemma {:induction false} GroupsPartition(c: Config, batch: seq<Request>)
    ensures multiset(Members(Grouped(c, batch))) == multiset(batch)
  {
    if batch != [] {
      var (front, last) := (batch[..|batch| - 1], batch[|batch| - 1]);
      assert batch == front + [last];
      GroupsPartition(c, front);
      var groups := Grouped(c, front);
      var i := FindKey(groups, KeyOf(c, last));
      if i < |groups| {
        MembersChanged(groups, i, last);
      } else {
        var more := groups + [Group(KeyOf(c, last), [last])];
        assert more[..|more| - 1] == groups;
      }
    }
  }

  /** A group holds exactly the requests of the batch that ask for one call, in batch order. */
  ghost predicate Gathers(c: Config, batch: seq<Request>, g: Group) {
    && g.members != [] && g.members[0] in batch
    && g.key == KeyOf(c, g.members[0])
    && g.members == Asking(batch, CallOf(g.members[0]))
  }

  /** One group for every call the batch asks for, and no two groups for the same key. */
  ghost predicate GroupedByCall(c: Config, batch: seq<Request>, groups: seq<Group>) {
    && (forall i :: 0 <= i < |groups| ==> Gathers(c, batch, groups[i]))
    && (forall i, j :: 0 <= i < j < |groups| ==> groups[i].key != groups[j].key)
    && (forall r <- batch :: FindKey(groups, KeyOf(c, r)) < |groups|)
  }

  lemma SeenNext(front: seq<Request>, last: Request, call: Call)
    ensures SeenCall(front + [last], call) <==> SeenCall(front, call) || CallOf(last) == call
  {
    hide CallOf;
    var batch := front + [last];
    if SeenCall(front, call) {
      var i :| 0 <= i < |front| && CallOf(front[i]) == call;
      assert batch[i] == front[i];
    }
    if CallOf(last) == call { assert batch[|front|] == last; }
    if SeenCall(batch, call) && CallOf(last) != call {
      var i :| 0 <= i < |batch| && CallOf(batch[i]) == call;
      assert i < |front| && front[i] == batch[i];
    }
  }

  lemma {:induction false} AskingIs(batch: seq<Request>, call: Call)
    ensures forall r <- Asking(batch, call) :: r in batch && CallOf(r) == call
    ensures Asking(batch, call) != [] <==> SeenCall(batch, call)
  {
    if batch != [] {
      hide SeenCall, CallOf;
      var (front, last) := (batch[..|batch| - 1], batch[|batch| - 1]);
      assert batch == front + [last];
      AskingIs(front, call);
      SeenNext(front, last, call);
    }
  }

  lemma AskingNext(front: seq<Request>, last: Request, call: Call)
    ensures Asking(front + [last], call) == Asking(front, call) + if CallOf(last) == call then [last] else []
  {
    assert (front + [last])[..|front|] == front;
  }

  lemma {:induction false} FindKeyFinds(groups: seq<Group>, key: string, i: nat)
    requires i < |groups| && groups[i].key == key
    ensures FindKey(groups, key) <= i
  {
  }

  lemma GathersNext(c: Config, all: seq<Request>, front: seq<Request>, last: Request, g: Group)
    requires Separates(c, all) && last in all && (forall r <- front :: r in all)
    requires Gathers(c, front, g)
    ensures Gathers(c, front + [last], if g.key == KeyOf(c, last) then Group(g.key, g.members + [last]) else g)
  {
    KeyIdentifiesCall(c, all, g.members[0], last);
    AskingNext(front, last, CallOf(g.members[0]));
    assert (g.members + [last])[0] == g.members[0];
  }

  lemma UnseenCall(c: Config, all: seq<Request>, front: seq<Request>, groups: seq<Group>, last: Request)
    requires Separates(c, all) && last in all && (forall r <- front :: r in all)
    requires GroupedByCall(c, front, groups)
    ensures SeenCall(front, CallOf(last)) <==> FindKey(groups, KeyOf(c, last)) < |groups|
  {
    var i := FindKey(groups, KeyOf(c, last));
    if i < |groups| {
      var first := groups[i].members[0];
      assert Gathers(c, front, groups[i]);
      KeyIdentifiesCall(c, all, first, last);
      assert CallOf(front[IndexOf(front, first)]) == CallOf(last);
    }
    if SeenCall(front, CallOf(last)) {
      var j :| 0 <= j < |front| && CallOf(front[j]) == CallOf(last);
      KeyIdentifiesCall(c, all, front[j], last);
    }
  }

  lemma GroupingKeeps(c: Config, all: seq<Request>, front: seq<Request>, groups: seq<Group>, last: Request)
    requires Separates(c, all) && last in all && (forall r <- front :: r in all)
    requires GroupedByCall(c, front, groups)
    ensures GroupedByCall(c, front + [last], Grouping(groups, KeyOf(c, last), last))
  {
    hide Separates, Gathers, KeyOf, CallOf;
    var key := KeyOf(c, last);
    var i := FindKey(groups, key);
    var next := Grouping(groups, key, last);
    UnseenCall(c, all, front, groups, last);
    forall j | 0 <= j < |next| ensures Gathers(c, front + [last], next[j]) {
      if j < |groups| {
        GathersNext(c, all, front, last, groups[j]);
        if groups[j].key == key { FindKeyFinds(groups, key, j); }
      } else {
        FirstOfItsCall(c, front, last);
      }
    }
    forall j, k | 0 <= j < k < |next| ensures next[j].key != next[k].key {
      if k == |groups| { assert groups[j].key != key; }
    }
    forall r <- front + [last] ensures FindKey(next, KeyOf(c, r)) < |next| {
      if r in front {
        var j := FindKey(groups, KeyOf(c, r));
        assert next[j].key == KeyOf(c, r);
        FindKeyFinds(next, KeyOf(c, r), j);
      } else {
        assert next[i].key == key;
        FindKeyFinds(next, key, i);
      }
    }
  }

  lemma FirstOfItsCall(c: Config, front: seq<Request>, last: Request)
    requires !SeenCall(front, CallOf(last))
    ensures Gathers(c, front + [last], Group(KeyOf(c, last), [last]))
  {
    AskingNext(front, last, CallOf(last));
    AskingIs(front, CallOf(last));
    assert Asking(front, CallOf(last)) == [];
  }

  /** Main result: grouping by batch key is grouping by call, and every request is either the first of its group or
      counted as a duplicate. */
  lemma {:induction false} GroupsAreCalls(c: Config, all: seq<Request>, batch: seq<Request>)
    requires Separates(c, all) && (forall r <- batch :: r in all)
    ensures GroupedByCall(c, batch, Grouped(c, batch))
    ensures |Grouped(c, batch)| + Repeats(batch) == |batch|
  {
    hide Separates, GroupedByCall, Grouping;
    if batch != [] {
      var (front, last) := (batch[..|batch| - 1], batch[|batch| - 1]);
      assert batch == front + [last];
      GroupsAreCalls(c, all, front);
      GroupingKeeps(c, all, front, Grouped(c, front), last);
      UnseenCall(c, all, front, Grouped(c, front), last);
      GroupingCounts(Grouped(c, front), KeyOf(c, last), last);
    } else {
      NoGroups(c);
    }
  }

  lemma NoGroups(c: Config)
    ensures GroupedByCall(c, [], [])
  {
  }

  lemma GroupingCounts(groups: seq<Group>, key: string, r: Request)
    ensures |Grouping(groups, key, r)| == |groups| + if FindKey(groups, key) < |groups| then 0 else 1
  {
  }
}
