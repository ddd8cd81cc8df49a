/** Printing of order, purchase-order and return numbers, and why distinct numbers print differently. */
module Ids {
  import opened Numbers

  /** A day and a position in that day's queue, the two numbers an identifier is printed from. */
  datatype Key = Key(day: nat, slot: nat)

  function Digit(d: nat): char
    requires d < 10
  {
    '0' + d as char
  }

  function Digits(n: nat): string {
    if n < 10 then [Digit(n)] else Digits(n / 10) + [Digit(n % 10)]
  }

  function Zeros(n: nat): string {
    if n == 0 then "" else "0" + Zeros(n - 1)
  }

  /** Decimal digits padded on the left with zeros to at least the given width. */
  function Padded(n: nat, width: nat): string {
    var digits := Digits(n);
    Zeros(if |digits| < width then width - |digits| else 0) + digits
  }

  function OrderId(sequence: nat): string { "ORD-" + Padded(sequence, 7) }

  function Dated(prefix: string, key: Key): string {
    prefix + Padded(key.day, 3) + "-" + Padded(key.slot, 3)
  }

  function PurchaseId(key: Key): string { Dated("PO-", key) }

  function ReturnId(key: Key): string { Dated("RET-", key) }

  /** The number a digit string denotes. */
  function Value(s: string): nat {
    if s == "" then 0
    else 10 * Value(s[..|s| - 1]) + (if '0' <= s[|s| - 1] <= '9' then (s[|s| - 1] - '0') as nat else 0)
  }

  predicate Numeric(s: string) {
    forall i :: 0 <= i < |s| ==> '0' <= s[i] <= '9'
  }

  lemma {:induction false} ZerosAreNothing(n: nat)
    ensures Numeric(Zeros(n)) && Value(Zeros(n)) == 0
  {
    if n > 0 {
      ZerosAreNothing(n - 1);
      ZerosEndInZero(n);
    }
  }

  lemma {:induction false} ZerosEndInZero(n: nat)
    requires n > 0
    ensures Zeros(n) == Zeros(n - 1) + "0"
  {
    if n > 1 { ZerosEndInZero(n - 1); }
  }

  lemma {:induction false} ValueAfterZeros(n: nat, s: string)
    ensures Value(Zeros(n) + s) == Value(s)
  {
    if s == "" {
      assert Zeros(n) + s == Zeros(n);
      ZerosAreNothing(n);
    } else {
      assert (Zeros(n) + s)[..|Zeros(n) + s| - 1] == Zeros(n) + s[..|s| - 1];
      ValueAfterZeros(n, s[..|s| - 1]);
    }
  }

  lemma {:induction false} DigitsDenote(n: nat)
    ensures Numeric(Digits(n)) && Value(Digits(n)) == n
  {
    if n < 10 {
      assert Value(Digits(n)[..0]) == 0;
    } else {
      DigitsDenote(n / 10);
      assert Digits(n)[..|Digits(n)| - 1] == Digits(n / 10);
    }
  }

  lemma PaddedDenotes(n: nat, width: nat)
    ensures Numeric(Padded(n, width)) && Value(Padded(n, width)) == n
  {
    var digits := Digits(n);
    var zeros := if |digits| < width then width - |digits| else 0;
    DigitsDenote(n);
    ZerosAreNothing(zeros);
    ValueAfterZeros(zeros, digits);
  }

  /** Order numbers that differ print differently, whatever their length. */
  lemma OrderIdInjective(a: nat, b: nat)
    requires OrderId(a) == OrderId(b)
    ensures a == b
  {
    assert OrderId(a)[4..] == Padded(a, 7) && OrderId(b)[4..] == Padded(b, 7);
    PaddedDenotes(a, 7);
    PaddedDenotes(b, 7);
  }

  /** The first dash splits digits from the rest in only one way. */
  lemma {:induction false} SplitAtDash(a: string, x: string, b: string, y: string)
    requires Numeric(a) && Numeric(b)
    requires a + "-" + x == b + "-" + y
    ensures a == b && x == y
  {
    assert (a + "-" + x)[0] == (if a == "" then '-' else a[0]);
    assert (b + "-" + y)[0] == (if b == "" then '-' else b[0]);
    if a != "" && b != "" {
      assert (a + "-" + x)[1..] == a[1..] + "-" + x;
      assert (b + "-" + y)[1..] == b[1..] + "-" + y;
      SplitAtDash(a[1..], x, b[1..], y);
      assert a == [a[0]] + a[1..] && b == [b[0]] + b[1..];
    } else {
      assert (a + "-" + x)[1..] == x && (b + "-" + y)[1..] == y;
    }
  }

  lemma PaddedNumeric(n: nat, width: nat)
    ensures Numeric(Padded(n, width))
  {
    PaddedDenotes(n, width);
  }

  lemma PaddedInjective(a: nat, b: nat, width: nat)
    requires Padded(a, width) == Padded(b, width)
    ensures a == b
  {
    PaddedDenotes(a, width);
    PaddedDenotes(b, width);
  }

  lemma StripPrefix(prefix: string, x: string, y: string)
    requires prefix + x == prefix + y
    ensures x == y
  {
    assert (prefix + x)[|prefix|..] == x && (prefix + y)[|prefix|..] == y;
  }

  lemma PrefixFirst(prefix: string, key: Key)
    ensures Dated(prefix, key) == prefix + (Padded(key.day, 3) + "-" + Padded(key.slot, 3))
  {
  }

  /** A dated identifier determines its day and its slot. */
  lemma DatedInjective(prefix: string, a: Key, b: Key)
    requires Dated(prefix, a) == Dated(prefix, b)
    ensures a == b
  {
    hide Padded, Dated;
    var (da, sa) := (Padded(a.day, 3), Padded(a.slot, 3));
    var (db, sb) := (Padded(b.day, 3), Padded(b.slot, 3));
    PrefixFirst(prefix, a);
    PrefixFirst(prefix, b);
    StripPrefix(prefix, da + "-" + sa, db + "-" + sb);
    PaddedNumeric(a.day, 3);
    PaddedNumeric(b.day, 3);
    SplitAtDash(da, sa, db, sb);
    PaddedInjective(a.day, b.day, 3);
    PaddedInjective(a.slot, b.slot, 3);
  }

  lemma DistinctOrderIds(ids: seq<string>)
    requires forall i :: 0 <= i < |ids| ==> ids[i] == OrderId(i + 1)
    ensures Distinct(ids)
  {
    forall i, j | 0 <= i < j < |ids| ensures ids[i] != ids[j] {
      if ids[i] == ids[j] { OrderIdInjective(i + 1, j + 1); }
    }
  }

  lemma DistinctDatedIds(prefix: string, keys: seq<Key>, ids: seq<string>)
    requires |ids| == |keys| && Distinct(keys)
    requires forall i :: 0 <= i < |ids| ==> ids[i] == Dated(prefix, keys[i])
    ensures Distinct(ids)
  {
    forall i, j | 0 <= i < j < |ids| ensures ids[i] != ids[j] {
      if ids[i] == ids[j] { DatedInjective(prefix, keys[i], keys[j]); }
    }
  }
}
