/** Loading saved decisions for replay: the last usable entry of each day, for every day from 1 on. */
module ReplayFile {
  import opened Numbers
  import opened Json
  import opened Decisions

  /** Cutting down an entry raises; the list, its usable entries or a day are missing. */
  datatype Failure = Malformed(entry: nat) | MissingList | NothingUsable | MissingDay(day: int)

  datatype Loaded = Ok(decisions: seq<Json>) | Failed(failure: Failure)

  /** The day of an entry; Python counts True as the integer 1. */
  function DayOf(entry: Json): Option<int> {
    if !entry.Obj? then None
    else
      match Get(entry.fields, "day", Null)
      case Int(day) => if day > 0 then Some(day) else None
      case Bool(yes) => if yes then Some(1) else None
      case _ => None
  }

  /** The decision an entry holds: the saved raw one, else its older form cut down now. */
  function DecisionIn(entry: Json): Option<Json> {
    if !entry.Obj? then None
    else
      var raw := Get(entry.fields, "decisions_raw", Null);
      var older := Get(entry.fields, "decisions", Null);
      if raw.Obj? && raw.fields != [] then Some(raw)
      else if older.Obj? && older.fields != [] then Some(Sanitize(older))
      else None
  }

  predicate HoldsRaw(entry: Json)
    requires entry.Obj?
  {
    var raw := Get(entry.fields, "decisions_raw", Null);
    raw.Obj? && raw.fields != []
  }

  /** A dated entry of the older form whose decision cannot be cut down. */
  predicate Raises(entry: Json) {
    && DayOf(entry).Some? && entry.Obj? && !HoldsRaw(entry)
    && (var older := Get(entry.fields, "decisions", Null);
        older.Obj? && older.fields != [] && TrySanitize(older).None?)
  }

  /** Position of the first entry that raises, or the number of entries. */
  function FirstRaising(entries: seq<Json>): (i: nat)
    ensures i <= |entries|
    ensures i < |entries| ==> Raises(entries[i])
    ensures forall j :: 0 <= j < i ==> !Raises(entries[j])
    decreases |entries|
  {
    if entries == [] || Raises(entries[0]) then 0 else FirstRaising(entries[1..]) + 1
  }

  predicate Usable(entry: Json) { DayOf(entry).Some? && DecisionIn(entry).Some? }

  /** Decisions by day after reading the entries in order: a later entry for a day replaces an earlier one. */
  function ByDay(entries: seq<Json>): map<int, Json> {
    if entries == [] then map[]
    else
      var last := entries[|entries| - 1];
      var rest := ByDay(entries[..|entries| - 1]);
      if Usable(last) then rest[DayOf(last).value := DecisionIn(last).value] else rest
  }

  function LastDay(entries: seq<Json>): int {
    if entries == [] then 0
    else
      var last := entries[|entries| - 1];
      var rest := LastDay(entries[..|entries| - 1]);
      if Usable(last) then Max(rest, DayOf(last).value) else rest
  }

  /** Days |out| + 1 to top in order, failing at the first day without a decision. */
  function Gathered(byDay: map<int, Json>, out: seq<Json>, top: int): (r: Loaded)
    ensures r.Failed? ==> r.failure.MissingDay?
    decreases top - |out|
  {
    if |out| >= top then Ok(out)
    else if |out| + 1 !in byDay then Failed(MissingDay(|out| + 1))
    else Gathered(byDay, out + [byDay[|out| + 1]], top)
  }

  function Load(payload: seq<Field>): Loaded {
    var entries := Get(payload, "decisions", List([]));
    if !entries.List? || entries.items == [] then Failed(MissingList)
    else
      var (byDay, bad) := (ByDay(entries.items), FirstRaising(entries.items));
      if bad < |entries.items| then Failed(Malformed(bad))
      else if byDay.Keys == {} then Failed(NothingUsable)
      else Gathered(byDay, [], LastDay(entries.items))
  }

  /** What an entry says, looked up in the entry itself: its day is a positive integer, or True for 1; its decision is
      the raw one saved, and only without that the older form, cut down. */
  lemma EntryAsWritten(fields: seq<Field>)
    requires DistinctKeys(fields)
    ensures forall n :: Field("day", Int(n)) in fields ==> DayOf(Obj(fields)) == if n > 0 then Some(n) else None
    ensures Field("day", Bool(true)) in fields ==> DayOf(Obj(fields)) == Some(1)
    ensures (forall j :: Field("day", j) in fields ==> !j.Int? && j != Bool(true)) ==> DayOf(Obj(fields)) == None
    ensures forall fs :: Field("decisions_raw", Obj(fs)) in fields && fs != [] ==>
              DecisionIn(Obj(fields)) == Some(Obj(fs))
    ensures (forall fs :: Field("decisions_raw", Obj(fs)) in fields ==> fs == []) ==>
              && (forall fs :: Field("decisions", Obj(fs)) in fields && fs != [] ==>
                    DecisionIn(Obj(fields)) == Some(Sanitize(Obj(fs))))
              && ((forall fs :: Field("decisions", Obj(fs)) in fields ==> fs == []) ==> DecisionIn(Obj(fields)) == None)
  {
    GetFrom(fields, "day", Null);
    GetFrom(fields, "decisions_raw", Null);
    GetFrom(fields, "decisions", Null);
    hide Lookup, Sanitize, DistinctKeys;
    forall key, j | Field(key, j) in fields ensures Get(fields, key, Null) == j { GetIn(fields, key, j, Null); }
    hide Get;
  }

  lemma DayPositive(entry: Json)
    requires DayOf(entry).Some?
    ensures DayOf(entry).value >= 1
  {
    hide Get;
  }

  lemma {:induction false} DaysCovered(entries: seq<Json>)
    ensures forall day <- ByDay(entries).Keys :: 1 <= day <= LastDay(entries)
    ensures if ByDay(entries).Keys == {} then LastDay(entries) == 0 else LastDay(entries) in ByDay(entries)
  {
    hide DayOf, DecisionIn;
    if entries != [] {
      DaysCovered(entries[..|entries| - 1]);
      var last := entries[|entries| - 1];
      if Usable(last) {
        DayPositive(last);
        assert DayOf(last).value in ByDay(entries).Keys;
      }
    }
  }

  /** The decision loaded for a day is that of the last usable entry for it. */
  lemma {:induction false} LastEntryWins(entries: seq<Json>, i: nat)
    requires i < |entries| && Usable(entries[i])
    requires forall k :: i < k < |entries| && Usable(entries[k]) ==> DayOf(entries[k]) != DayOf(entries[i])
    ensures DayOf(entries[i]).value in ByDay(entries)
    ensures ByDay(entries)[DayOf(entries[i]).value] == DecisionIn(entries[i]).value
  {
    if i < |entries| - 1 {
      var front := entries[..|entries| - 1];
      assert forall k :: 0 <= k < |front| ==> front[k] == entries[k];
      LastEntryWins(front, i);
    }
  }

  lemma {:induction false} GatheredAll(byDay: map<int, Json>, out: seq<Json>, top: int)
    requires forall day :: |out| < day <= top ==> day in byDay
    ensures var r := Gathered(byDay, out, top);
            && r.Ok? && |r.decisions| == Max(top, |out|) && r.decisions[..|out|] == out
            && forall day :: |out| < day <= top ==> r.decisions[day - 1] == byDay[day]
    decreases top - |out|
  {
    if |out| < top {
      var next := out + [byDay[|out| + 1]];
      GatheredAll(byDay, next, top);
      var r := Gathered(byDay, next, top);
      assert r.decisions[..|out|] == r.decisions[..|next|][..|out|] == out;
      assert r.decisions[|out|] == r.decisions[..|next|][|out|];
    }
  }

  lemma {:induction false} GatheredFails(byDay: map<int, Json>, out: seq<Json>, top: int, gap: int)
    requires |out| < gap <= top && gap !in byDay
    requires forall day :: |out| < day < gap ==> day in byDay
    ensures Gathered(byDay, out, top) == Failed(MissingDay(gap))
    decreases gap - |out|
  {
    if |out| + 1 < gap { GatheredFails(byDay, out + [byDay[|out| + 1]], top, gap); }
  }

  /** Main result: loading succeeds exactly when no entry raises and every day up to the last usable one has a usable
      entry; an entry raises out of the load exactly when it is the first that cannot be cut down. */
  lemma LoadsExactlyGapless(payload: seq<Field>, entries: seq<Json>)
    requires Get(payload, "decisions", List([])) == List(entries)
    ensures Load(payload).Ok? <==>
            && (forall i :: 0 <= i < |entries| ==> !Raises(entries[i]))
            && ByDay(entries).Keys != {}
            && forall day :: 1 <= day <= LastDay(entries) ==> day in ByDay(entries)
    ensures forall i: nat :: Load(payload) == Failed(Malformed(i)) <==>
              i < |entries| && Raises(entries[i]) && forall j :: 0 <= j < i ==> !Raises(entries[j])
  {
    hide Get, LastDay, Raises;
    if entries != [] {
      hide ByDay;
      var (byDay, top) := (ByDay(entries), LastDay(entries));
      if forall day :: 1 <= day <= top ==> day in byDay {
        GatheredAll(byDay, [], top);
      } else {
        var day :| 1 <= day <= top && day !in byDay;
        FirstGap(byDay, 1, day, top);
      }
    }
  }

  lemma {:induction false} FirstGap(byDay: map<int, Json>, from: int, gap: int, top: int)
    requires 1 <= from <= gap <= top && gap !in byDay
    requires forall day :: 1 <= day < from ==> day in byDay
    ensures Gathered(byDay, [], top).Failed?
    decreases gap - from
  {
    if from in byDay {
      FirstGap(byDay, from + 1, gap, top);
    } else {
      GatheredFails(byDay, [], top, from);
    }
  }

  /** An entry of a saved run for the given day. */
  predicate Saves(entry: Json, day: int, decision: Json) {
    && entry.Obj?
    && Get(entry.fields, "day", Null) == Int(day)
    && Get(entry.fields, "decisions_raw", Null) == Sanitize(decision)
  }

  lemma {:induction false} SavedByDay(entries: seq<Json>, decisions: seq<Json>)
    requires |entries| == |decisions|
    requires forall i :: 0 <= i < |entries| ==> decisions[i].Obj? && Saves(entries[i], i + 1, decisions[i])
    ensures LastDay(entries) == |entries|
    ensures forall day :: 1 <= day <= |entries| ==>
              day in ByDay(entries) && ByDay(entries)[day] == Sanitize(decisions[day - 1])
  {
    hide Sanitize, Saves, Usable;
    if entries != [] {
      var n := |entries| - 1;
      SavedByDay(entries[..n], decisions[..n]);
      SavedUsable(entries[n], n + 1, decisions[n]);
    }
  }

  lemma SavedUsable(entry: Json, day: int, decision: Json)
    requires day >= 1 && decision.Obj? && Saves(entry, day, decision)
    ensures Usable(entry) && DayOf(entry) == Some(day) && DecisionIn(entry) == Some(Sanitize(decision))
  {
    hide Get, ActionableOf;
    SavedHoldsRaw(entry, day, decision);
  }

  lemma SavedHoldsRaw(entry: Json, day: int, decision: Json)
    requires decision.Obj? && Saves(entry, day, decision)
    ensures HoldsRaw(entry) && !Raises(entry)
  {
    hide Get, ActionableOf;
  }

  /** Main result: saving n days and loading them back gives exactly the n cut-down decisions, in day order. */
  lemma SaveThenLoad(payload: seq<Field>, entries: seq<Json>, decisions: seq<Json>)
    requires Get(payload, "decisions", List([])) == List(entries)
    requires |entries| == |decisions| >= 1
    requires forall i :: 0 <= i < |entries| ==> decisions[i].Obj? && Saves(entries[i], i + 1, decisions[i])
    ensures Load(payload) == Ok(seq(|decisions|, i requires 0 <= i < |decisions| => Sanitize(decisions[i])))
  {
    hide Get, ByDay, LastDay, Sanitize, Saves, Raises;
    SavedByDay(entries, decisions);
    var byDay := ByDay(entries);
    assert 1 in byDay;
    forall i | 0 <= i < |entries| ensures !Raises(entries[i]) { SavedHoldsRaw(entries[i], i + 1, decisions[i]); }
    assert FirstRaising(entries) == |entries|;
    GatheredAll(byDay, [], |decisions|);
    var r := Load(payload);
    forall i | 0 <= i < |decisions| ensures r.decisions[i] == Sanitize(decisions[i]) {
      assert r.decisions[(i + 1) - 1] == byDay[i + 1];
    }
    assert r.decisions == seq(|decisions|, i requires 0 <= i < |decisions| => Sanitize(decisions[i]));
  }

  /** The table by day, or the position of the first entry that raises. */
  method ReadEntries(entries: seq<Json>) returns (bad: nat, byDay: map<int, Json>)
    ensures bad == FirstRaising(entries)
    ensures bad == |entries| ==> byDay == ByDay(entries)
  {
    hide Get, Sanitize, TrySanitize;
    byDay := map[];
    for i := 0 to |entries|
      invariant byDay == ByDay(entries[..i])
      invariant forall j :: 0 <= j < i ==> !Raises(entries[j])
    {
      assert entries[..i + 1][..i] == entries[..i];
      if Raises(entries[i]) { return i, byDay; }
      var day := DayOf(entries[i]);
      if day.None? { continue; }
      var found := DecisionIn(entries[i]);
      if found.Some? { byDay := byDay[day.value := found.value]; }
    }
    assert entries[..|entries|] == entries;
    bad := |entries|;
  }

  /** The loader as written: fill a table by day, then walk the days from one to the last. */
  method LoadReplayDecisions(payload: seq<Field>) returns (r: Loaded)
    ensures r == Load(payload)
  {
    hide Get, Raises, ByDay, LastDay;
    var listed := Get(payload, "decisions", List([]));
    if !listed.List? || listed.items == [] { return Failed(MissingList); }
    var entries := listed.items;
    var bad, byDay := ReadEntries(entries);
    if bad < |entries| { return Failed(Malformed(bad)); }
    DaysCovered(entries);
    if byDay.Keys == {} {
      return Failed(NothingUsable);
    }
    var top := Largest(byDay.Keys);
    var out: seq<Json> := [];
    while |out| < top
      invariant Gathered(byDay, out, top) == Gathered(byDay, [], top)
      decreases top - |out|
    {
      if |out| + 1 !in byDay {
        return Failed(MissingDay(|out| + 1));
      }
      out := out + [byDay[|out| + 1]];
    }
    return Ok(out);
  }

  lemma SomeDay(days: set<int>)
    ensures days == {} || exists day :: day in days
  {
    assert (forall day :: day !in days) ==> days == {};
  }

  method Largest(days: set<int>) returns (top: int)
    requires days != {}
    ensures top in days && forall day <- days :: day <= top
  {
    var rest := days;
    SomeDay(rest);
    top :| top in rest;
    while rest != {}
      invariant rest <= days && top in days
      invariant forall day <- days :: day in rest || day <= top
      decreases |rest|
    {
      SomeDay(rest);
      var day :| day in rest;
      if day > top { top := day; }
      rest := rest - {day};
    }
  }
}
