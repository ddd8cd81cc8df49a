/** The simulator's random source: an arbitrary stream of draws read through a cursor.
    Every call of the generator takes the next draw; the stream itself stays arbitrary. */
module Rng {
  import opened Numbers

  type Unit = x: real | 0.0 <= x < 1.0 witness 0.0

  type Stream = nat -> Unit

  function Uniform(low: real, high: real, u: Unit): real {
    var width := high - low;
    low + width * u
  }

  function RandInt(low: int, high: int, u: Unit): int {
    low + ((high - low + 1) as real * u).Floor
  }

  lemma ScaledWithin(width: real, u: real)
    requires width >= 0.0 && 0.0 <= u <= 1.0
    ensures 0.0 <= width * u <= width
  {
    assert width * (1.0 - u) >= 0.0;
  }

  lemma ScaledBelow(width: real, u: real)
    requires width > 0.0 && u < 1.0
    ensures width * u < width
  {
    assert width * (1.0 - u) > 0.0;
  }

  lemma UniformBetween(low: real, high: real, u: Unit)
    requires low <= high
    ensures low <= Uniform(low, high, u) <= high
  {
    var width := high - low;
    ScaledWithin(width, u);
    var step := width * u;
    assert Uniform(low, high, u) == low + step;
  }

  lemma UniformAtMost(low: real, high: real, u: Unit, bound: real)
    requires low <= bound && high <= bound
    ensures Uniform(low, high, u) <= bound
  {
    if low <= high { UniformBetween(low, high, u); } else { ScaledWithin(low - high, u); }
  }

  lemma RandIntBetween(low: int, high: int, u: Unit)
    requires low <= high
    ensures low <= RandInt(low, high, u) <= high
  {
    var n := (high - low + 1) as real;
    ScaledWithin(n, u);
    ScaledBelow(n, u);
  }

  /** Each whole number of a range has its own equal part of the draws. */
  predicate DrawnAs(low: int, high: int, u: Unit, k: int) {
    (k - low) as real <= (high - low + 1) as real * u < (k - low + 1) as real
  }

  lemma RandIntExactly(low: int, high: int, u: Unit, k: int)
    requires low <= high
    ensures RandInt(low, high, u) == k <==> DrawnAs(low, high, u, k)
  {
  }

  /** The index random.choice picks in a list of n elements. */
  function Pick(n: nat, u: Unit): (i: nat)
    requires n > 0
    ensures i < n
  {
    RandIntBetween(0, n - 1, u);
    RandInt(0, n - 1, u)
  }

  function Swap<T>(xs: seq<T>, i: nat, j: nat): (ys: seq<T>)
    requires i < |xs| && j < |xs|
    ensures |ys| == |xs| && multiset(ys) == multiset(xs)
  {
    var ys := xs[i := xs[j]][j := xs[i]];
    assert multiset(ys) == multiset(xs);
    ys
  }

  /** random.shuffle from position top down to 1: swap each position with one at or below it. */
  function Shuffled<T>(xs: seq<T>, top: nat, draws: Stream, cursor: nat): (ys: seq<T>)
    requires top < |xs| || top == 0
    ensures multiset(ys) == multiset(xs) && |ys| == |xs|
    decreases top
  {
    if top == 0 then xs
    else Shuffled(Swap(xs, top, Pick(top + 1, draws(cursor))), top - 1, draws, cursor + 1)
  }

  /** The stream reads these draws from the cursor on. */
  ghost predicate Reads(draws: Stream, cursor: nat, us: seq<Unit>) {
    forall i :: 0 <= i < |us| ==> draws(cursor + i) == us[i]
  }

  lemma PickAny(n: nat, i: nat) returns (u: Unit)
    requires i < n
    ensures Pick(n, u) == i
  {
    var x := (i as real + 0.5) / n as real;
    assert x * n as real == i as real + 0.5;
    Compared(1.0, x, n as real);
    u := x;
    RandIntExactly(0, n - 1, u, i);
  }

  lemma FrontMultiset<T>(xs: seq<T>, k: nat)
    requires k <= |xs|
    ensures multiset(xs[..k]) == multiset(xs) - multiset(xs[k..])
  {
    assert xs == xs[..k] + xs[k..];
  }

  /** The element that belongs at the top stands somewhere at or below it. */
  lemma PlaceOf<T>(xs: seq<T>, ys: seq<T>, top: nat) returns (i: nat)
    requires top < |xs| && multiset(xs) == multiset(ys) && |xs| == |ys| && xs[top + 1..] == ys[top + 1..]
    ensures i <= top && xs[i] == ys[top]
  {
    FrontMultiset(xs, top + 1);
    FrontMultiset(ys, top + 1);
    var front := xs[..top + 1];
    assert ys[top] in ys[..top + 1];
    assert ys[top] in multiset(front);
    i :| 0 <= i < top + 1 && front[i] == ys[top];
  }

  lemma SwapPlaces<T>(xs: seq<T>, ys: seq<T>, top: nat, i: nat)
    requires i <= top < |xs| == |ys| && xs[i] == ys[top] && xs[top + 1..] == ys[top + 1..]
    ensures Swap(xs, top, i)[top..] == ys[top..]
  {
    var swapped := Swap(xs, top, i);
    assert forall k :: top < k < |xs| ==> swapped[k] == xs[k] == xs[top + 1..][k - top - 1] == ys[k];
  }

  lemma ReadsRest(draws: Stream, cursor: nat, u: Unit, rest: seq<Unit>)
    requires Reads(draws, cursor, [u] + rest)
    ensures draws(cursor) == u && Reads(draws, cursor + 1, rest)
  {
    var us := [u] + rest;
    assert draws(cursor + 0) == us[0];
    forall k | 0 <= k < |rest| ensures draws(cursor + 1 + k) == rest[k] { assert draws(cursor + (k + 1)) == us[k + 1]; }
  }

  lemma SameList<T>(xs: seq<T>, ys: seq<T>)
    requires |xs| == |ys| > 0 && xs[0] == ys[0] && xs[1..] == ys[1..]
    ensures xs == ys
  {
    assert xs == [xs[0]] + xs[1..] && ys == [ys[0]] + ys[1..];
  }

  /** Main result: a shuffle can bring the list into any order: some draws lead to each. */
  lemma {:induction false} EveryOrderPossible<T>(xs: seq<T>, ys: seq<T>, top: nat) returns (us: seq<Unit>)
    requires top < |xs| && multiset(xs) == multiset(ys) && |xs| == |ys| && xs[top + 1..] == ys[top + 1..]
    ensures |us| == top
    ensures forall draws: Stream, cursor: nat :: Reads(draws, cursor, us) ==> Shuffled(xs, top, draws, cursor) == ys
    decreases top
  {
    hide Swap, Reads, Pick;
    var i := PlaceOf(xs, ys, top);
    if top == 0 {
      us := [];
      SameList(xs, ys);
    } else {
      var u := PickAny(top + 1, i);
      SwapPlaces(xs, ys, top, i);
      var rest := EveryOrderPossible(Swap(xs, top, i), ys, top - 1);
      us := [u] + rest;
      forall draws: Stream, cursor: nat | Reads(draws, cursor, us) ensures Shuffled(xs, top, draws, cursor) == ys {
        ReadsRest(draws, cursor, u, rest);
      }
    }
  }
}
