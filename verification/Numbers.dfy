/** Rounding, bounds and sums shared by the simulator modules. Money is an integer number of cents. */
module Numbers {

  datatype Option<+T> = None | Some(value: T)

  function Min(a: int, b: int): int { if a <= b then a else b }

  function Max(a: int, b: int): int { if a >= b then a else b }

  function MinReal(a: real, b: real): real { if a <= b then a else b }

  function MaxReal(a: real, b: real): real { if a >= b then a else b }

  /** Decimal quantisation with ROUND_HALF_UP: ties move away from zero. */
  function HalfUp(x: real): int {
    if x >= 0.0 then (x + 0.5).Floor else -(0.5 - x).Floor
  }

  /** Python's round and Decimal's default quantisation: ties go to the even neighbour. */
  function HalfEven(x: real): int {
    var low := x.Floor;
    var rest := x - low as real;
    if rest < 0.5 || (rest == 0.5 && low % 2 == 0) then low else low + 1
  }

  /** Python's int() on a float: truncation toward zero. */
  function Truncate(x: real): int {
    if x >= 0.0 then x.Floor else -(-x).Floor
  }

  /** Within half a unit. */
  predicate Near(n: int, x: real) { -0.5 <= n as real - x <= 0.5 }

  /** A share of an amount, to half a unit. */
  predicate NearShare(n: int, amount: int, share: real) { Near(n, amount as real * share) }

  /** Both ways of rounding go to a nearest integer; a tie goes to the even one, or away from zero. */
  lemma HalfEvenNear(x: real)
    ensures Near(HalfEven(x), x)
    ensures HalfEven(x) as real - x == 0.5 || x - HalfEven(x) as real == 0.5 ==> HalfEven(x) % 2 == 0
  {
  }

  lemma HalfUpNear(x: real)
    ensures Near(HalfUp(x), x)
    ensures x >= 0.0 && HalfUp(x) as real - x != 0.5 ==> x - HalfUp(x) as real < 0.5
  {
  }

  lemma HalfEvenWhole(n: int)
    ensures HalfEven(n as real) == n && HalfUp(n as real) == n
  {
  }

  lemma HalfUpBetween(x: real, low: int, high: int)
    requires low as real <= x <= high as real
    ensures low <= HalfUp(x) <= high
  {
  }

  lemma HalfEvenAtMost(x: real, high: int)
    requires x <= high as real
    ensures HalfEven(x) <= high
  {
  }

  lemma HalfEvenAtLeast(x: real, low: int)
    requires low as real <= x
    ensures low <= HalfEven(x)
  {
  }

  /** A set is empty or has an element to choose. */
  lemma SomeElement<T>(xs: set<T>)
    ensures xs == {} || exists x :: x in xs
  {
    assert (forall x :: x !in xs) ==> xs == {};
  }

  function Times(a: real, b: real): real { a * b }

  lemma TimesKeepsOrder(low: real, high: real, factor: real)
    requires low <= high && factor >= 0.0
    ensures Times(low, factor) <= Times(high, factor) && Times(factor, low) <= Times(factor, high)
  {
    var gap := high - low;
    assert gap * factor >= 0.0;
    assert high * factor == low * factor + gap * factor;
  }

  lemma Compared(a: real, b: real, c: real)
    requires c > 0.0
    ensures Times(a, c) <= Times(b, c) <==> a <= b
  {
    if a > b {
      var gap := a - b;
      assert gap * c > 0.0;
      assert a * c == b * c + gap * c;
    } else {
      TimesKeepsOrder(a, b, c);
    }
  }

  /** A share of an amount, rounded to whole units. */
  function RoundedShare(amount: int, share: real): int { HalfEven(Times(amount as real, share)) }

  lemma PartAtMost(whole: real, share: real)
    requires whole >= 0.0 && share <= 1.0
    ensures Times(whole, share) <= whole
    ensures share >= 0.0 ==> Times(whole, share) >= 0.0
  {
    assert whole * (1.0 - share) >= 0.0;
  }

  lemma RoundedShareAtMost(amount: int, share: real)
    requires amount >= 0 && share <= 1.0
    ensures RoundedShare(amount, share) <= amount
  {
    hide HalfEven, Times;
    PartAtMost(amount as real, share);
    HalfEvenAtMost(Times(amount as real, share), amount);
  }

  lemma RoundedShareWithin(amount: int, share: real)
    requires amount >= 0 && 0.0 <= share <= 1.0
    ensures 0 <= RoundedShare(amount, share) <= amount
  {
    hide HalfEven, Times;
    PartAtMost(amount as real, share);
    RoundedShareAtMost(amount, share);
    HalfEvenAtLeast(Times(amount as real, share), 0);
  }

  /** A rounded share is within half a unit of the exact one, and the whole is not rounded at all. */
  lemma RoundedShareNear(amount: int, share: real)
    ensures Near(RoundedShare(amount, share), amount as real * share)
    ensures share == 1.0 ==> RoundedShare(amount, share) == amount
  {
    HalfEvenNear(Times(amount as real, share));
    HalfEvenWhole(amount);
    assert Times(amount as real, 1.0) == amount as real;
    hide HalfEven;
  }

  function Sum(xs: seq<int>): int {
    if xs == [] then 0 else Sum(xs[..|xs| - 1]) + xs[|xs| - 1]
  }

  lemma SumAppend(xs: seq<int>, x: int)
    ensures Sum(xs + [x]) == Sum(xs) + x
  {
    assert (xs + [x])[..|xs|] == xs;
  }

  predicate Distinct<T(==)>(xs: seq<T>) {
    forall i, j :: 0 <= i < j < |xs| ==> xs[i] != xs[j]
  }

  lemma {:induction false} DistinctOnce<T>(xs: seq<T>, x: T)
    requires Distinct(xs)
    ensures multiset(xs)[x] == if x in xs then 1 else 0
  {
    if xs != [] {
      var (front, last) := (xs[..|xs| - 1], xs[|xs| - 1]);
      assert xs == front + [last];
      DistinctOnce(front, x);
    }
  }

  lemma CountedTwice<T>(xs: seq<T>, i: nat, j: nat)
    requires i < j < |xs| && xs[i] == xs[j]
    ensures multiset(xs)[xs[i]] >= 2
  {
    assert xs == xs[..j] + xs[j..];
    assert xs[i] in xs[..j] && xs[j] in xs[j..];
  }

  /** Having no repetition does not depend on the order. */
  lemma DistinctAnyOrder<T>(xs: seq<T>, ys: seq<T>)
    requires Distinct(xs) && multiset(xs) == multiset(ys)
    ensures Distinct(ys)
  {
    forall i, j | 0 <= i < j < |ys| ensures ys[i] != ys[j] {
      DistinctOnce(xs, ys[i]);
      if ys[i] == ys[j] { CountedTwice(ys, i, j); }
    }
  }
}
