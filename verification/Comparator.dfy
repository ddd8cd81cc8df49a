/** The determinism check: does a replay's payload agree with the live one under a contract? */
module Comparator {
  import opened Numbers
  import opened Json
  import opened JsonPaths

  datatype Contract = Contract(
    moneyTolerance: real,
    ratioTolerance: real,
    results: seq<string>,
    series: seq<string>,
    dayKeys: seq<string>)

  /** Where two payloads differ. */
  datatype Place =
    | Results
    | Result(key: string)
    | Daily
    | Series(name: string)
    | SeriesItem(name: string, index: int)
    | DecisionList
    | Decision(index: int)
    | DecisionRaw(index: int)
    | DecisionResults(index: int)
    | DecisionResult(index: int, key: string)

  predicate IsNumber(j: Json) { j.Int? || j.Float? }

  function Distance(a: real, b: real): real { if a >= b then a - b else b - a }

  predicate ApproxEqual(a: real, b: real, tolerance: real) { Distance(a, b) <= tolerance }

  function ToleranceFor(c: Contract, key: string): real {
    if key == "roi_percent" then c.ratioTolerance else c.moneyTolerance
  }

  /** Numbers agree within tolerance, two integers only exactly, everything else by equality. */
  predicate SameValue(c: Contract, key: string, a: Json, b: Json) {
    if a.Int? && b.Int? then a.i == b.i else SameItem(c, key, a, b)
  }

  /** Inside a daily series integers too are compared within tolerance. */
  predicate SameItem(c: Contract, key: string, a: Json, b: Json) {
    if IsNumber(a) && IsNumber(b) then ApproxEqual(AsReal(a), AsReal(b), ToleranceFor(c, key)) else Equal(a, b)
  }

  predicate SameAtKey(c: Contract, a: seq<Field>, b: seq<Field>, key: string) {
    Has(a, key) && Has(b, key) && SameValue(c, key, Get(a, key, Null), Get(b, key, Null))
  }

  predicate SameSeries(c: Contract, a: seq<Field>, b: seq<Field>, name: string) {
    var (x, y) := (Get(a, name, Null), Get(b, name, Null));
    && x.List? && y.List? && |x.items| == |y.items|
    && forall i :: 0 <= i < |x.items| ==> SameItem(c, name, x.items[i], y.items[i])
  }

  predicate SameDecision(c: Contract, a: Json, b: Json) {
    && a.Obj? && b.Obj?
    && Equal(Get(a.fields, "decisions_raw", Null), Get(b.fields, "decisions_raw", Null))
    && SameDecisionResults(c, Get(a.fields, "results", Obj([])), Get(b.fields, "results", Obj([])))
  }

  predicate SameDecisionResults(c: Contract, a: Json, b: Json) {
    && a.Obj? && b.Obj?
    && forall i :: 0 <= i < |c.dayKeys| ==> SameAtKey(c, a.fields, b.fields, c.dayKeys[i])
  }

  predicate SameResults(c: Contract, a: Json, b: Json) {
    && a.Obj? && b.Obj?
    && forall i :: 0 <= i < |c.results| ==> SameAtKey(c, a.fields, b.fields, c.results[i])
  }

  predicate SameDaily(c: Contract, a: Json, b: Json) {
    && a.Obj? && b.Obj?
    && forall i :: 0 <= i < |c.series| ==> SameSeries(c, a.fields, b.fields, c.series[i])
  }

  predicate SameDecisions(c: Contract, a: Json, b: Json) {
    && a.List? && b.List? && |a.items| == |b.items|
    && forall i :: 0 <= i < |a.items| ==> SameDecision(c, a.items[i], b.items[i])
  }

  /** What the check is for: every required result, series entry and per-day decision agrees. */
  predicate Agree(c: Contract, live: seq<Field>, replay: seq<Field>) {
    && SameResults(c, Get(live, "results", Obj([])), Get(replay, "results", Obj([])))
    && SameDaily(c, Get(live, "daily_performance", Obj([])), Get(replay, "daily_performance", Obj([])))
    && SameDecisions(c, Get(live, "decisions", List([])), Get(replay, "decisions", List([])))
  }

  /** Compare one value: no mismatch exactly when the values agree. */
  method CompareValue(c: Contract, key: string, a: Json, b: Json) returns (ok: bool)
    ensures ok == SameValue(c, key, a, b)
  {
    if IsNumber(a) && IsNumber(b) {
      if a.Int? && b.Int? {
        ok := a.i == b.i;
      } else {
        ok := ApproxEqual(AsReal(a), AsReal(b), ToleranceFor(c, key));
      }
    } else {
      ok := Equal(a, b);
    }
  }

  method CompareKeys(c: Contract, keys: seq<string>, a: seq<Field>, b: seq<Field>) returns (bad: seq<string>)
    ensures bad == [] <==> forall i :: 0 <= i < |keys| ==> SameAtKey(c, a, b, keys[i])
    ensures forall key :: key in bad <==> key in keys && !SameAtKey(c, a, b, key)
  {
    bad := [];
    for n := 0 to |keys|
      invariant forall key :: key in bad <==> key in keys[..n] && !SameAtKey(c, a, b, key)
    {
      var key := keys[n];
      assert keys[..n + 1] == keys[..n] + [key];
      if !Has(a, key) || !Has(b, key) {
        bad := bad + [key];
        continue;
      }
      var ok := CompareValue(c, key, Get(a, key, Null), Get(b, key, Null));
      if !ok {
        bad := bad + [key];
      }
    }
    assert keys[..|keys|] == keys;
    assert bad != [] ==> bad[0] in bad;
  }

  /** Two lists of one length, which can be compared item by item. */
  predicate Comparable(a: Json, b: Json) { a.List? && b.List? && |a.items| == |b.items| }

  /** Is this a place where the named daily series differ? */
  predicate SeriesDiffers(c: Contract, a: seq<Field>, b: seq<Field>, name: string, place: Place) {
    var (x, y) := (Get(a, name, Null), Get(b, name, Null));
    match place
    case Series(n) => n == name && !Comparable(x, y)
    case SeriesItem(n, i) =>
      n == name && Comparable(x, y) && 0 <= i < |x.items| && !SameItem(c, name, x.items[i], y.items[i])
    case _ => false
  }

  predicate DailyDiffers(c: Contract, a: Json, b: Json, place: Place) {
    match place
    case Daily => !a.Obj? || !b.Obj?
    case Series(name) => a.Obj? && b.Obj? && name in c.series && SeriesDiffers(c, a.fields, b.fields, name, place)
    case SeriesItem(name, _) =>
      a.Obj? && b.Obj? && name in c.series && SeriesDiffers(c, a.fields, b.fields, name, place)
    case _ => false
  }

  /** Is this a place where the decisions of one day differ? */
  predicate DecisionDiffers(c: Contract, index: int, a: Json, b: Json, place: Place) {
    match place
    case Decision(i) => i == index && (!a.Obj? || !b.Obj?)
    case DecisionRaw(i) =>
      i == index && a.Obj? && b.Obj?
      && !Equal(Get(a.fields, "decisions_raw", Null), Get(b.fields, "decisions_raw", Null))
    case DecisionResults(i) =>
      i == index && a.Obj? && b.Obj?
      && (!Get(a.fields, "results", Obj([])).Obj? || !Get(b.fields, "results", Obj([])).Obj?)
    case DecisionResult(i, key) =>
      i == index && a.Obj? && b.Obj? && key in c.dayKeys
      && (var (x, y) := (Get(a.fields, "results", Obj([])), Get(b.fields, "results", Obj([])));
          x.Obj? && y.Obj? && !SameAtKey(c, x.fields, y.fields, key))
    case _ => false
  }

  predicate AboutDecision(place: Place) {
    place.Decision? || place.DecisionRaw? || place.DecisionResults? || place.DecisionResult?
  }

  predicate DecisionsDiffer(c: Contract, a: Json, b: Json, place: Place) {
    if place.DecisionList? then !Comparable(a, b)
    else
      && AboutDecision(place) && Comparable(a, b) && 0 <= place.index < |a.items|
      && DecisionDiffers(c, place.index, a.items[place.index], b.items[place.index], place)
  }

  /** Is this a place where the two payloads differ? Without results on both sides nothing else is looked at. */
  predicate Differs(c: Contract, live: seq<Field>, replay: seq<Field>, place: Place) {
    var (a, b) := (Get(live, "results", Obj([])), Get(replay, "results", Obj([])));
    if !a.Obj? || !b.Obj? then place == Results
    else
      || (place.Result? && place.key in c.results && !SameAtKey(c, a.fields, b.fields, place.key))
      || DailyDiffers(c, Get(live, "daily_performance", Obj([])), Get(replay, "daily_performance", Obj([])), place)
      || DecisionsDiffer(c, Get(live, "decisions", List([])), Get(replay, "decisions", List([])), place)
  }

  /** The number a value is. */
  function NumberIn(j: Json): Option<real> {
    match j
    case Int(i) => Some(i as real)
    case Float(r) => Some(r)
    case _ => None
  }

  /** Numbers further apart than the tolerance; of other values, any that differ somewhere inside. */
  ghost predicate Unlike(x: Json, y: Json, tolerance: real) {
    var (a, b) := (NumberIn(x), NumberIn(y));
    if a.Some? && b.Some? then a.value - b.value > tolerance || b.value - a.value > tolerance
    else !SameEverywhere(x, y)
  }

  /** Two integers must be the same. */
  ghost predicate UnlikeExactly(x: Json, y: Json, tolerance: real) {
    if x.Int? && y.Int? then x.i != y.i else Unlike(x, y, tolerance)
  }

  /** The named part of a payload, empty where it is missing. */
  function PartOf(payload: seq<Field>, part: string): Option<seq<Field>> {
    var found := Lookup(payload, part);
    if found.None? then Some([]) else if found.value.Obj? then Some(found.value.fields) else None
  }

  /** The list of decisions, where a payload has one. */
  function DaysOf(payload: seq<Field>): Option<seq<Json>> {
    var found := Lookup(payload, "decisions");
    if found.None? then Some([]) else if found.value.List? then Some(found.value.items) else None
  }

  /** The value stands under the key in the named part of a payload. */
  predicate Stands(payload: seq<Field>, part: string, key: string, x: Json) {
    var fields := PartOf(payload, part);
    fields.Some? && Lookup(fields.value, key) == Some(x)
  }

  predicate StandsOn(payload: seq<Field>, day: int, key: string, x: Json) {
    var days := DaysOf(payload);
    && days.Some? && 0 <= day < |days.value| && days.value[day].Obj?
    && Stands(days.value[day].fields, "results", key, x)
  }

  ghost predicate ResultJudged(c: Contract, live: seq<Field>, replay: seq<Field>, found: seq<Place>, key: string,
                               x: Json, y: Json) {
    Stands(live, "results", key, x) && Stands(replay, "results", key, y) && WellFormed(x) && WellFormed(y) ==>
    (Result(key) in found
     <==> UnlikeExactly(x, y, if key == "roi_percent" then c.ratioTolerance else c.moneyTolerance))
  }

  /** Without an object of results on both sides nothing else is looked at. */
  predicate HaveResults(live: seq<Field>, replay: seq<Field>) {
    PartOf(live, "results").Some? && PartOf(replay, "results").Some?
  }

  ghost predicate ItemJudged(c: Contract, live: seq<Field>, replay: seq<Field>, found: seq<Place>, name: string,
                             xs: seq<Json>, ys: seq<Json>, i: int) {
    && Stands(live, "daily_performance", name, List(xs)) && Stands(replay, "daily_performance", name, List(ys))
    && |xs| == |ys| && 0 <= i < |xs| && WellFormed(xs[i]) && WellFormed(ys[i]) ==>
    (SeriesItem(name, i) in found
     <==> Unlike(xs[i], ys[i], if name == "roi_percent" then c.ratioTolerance else c.moneyTolerance))
  }

  ghost predicate DayJudged(c: Contract, live: seq<Field>, replay: seq<Field>, found: seq<Place>, day: int,
                            key: string, x: Json, y: Json) {
    && StandsOn(live, day, key, x) && StandsOn(replay, day, key, y) && DaysPaired(live, replay)
    && WellFormed(x) && WellFormed(y) ==>
    (DecisionResult(day, key) in found
     <==> UnlikeExactly(x, y, if key == "roi_percent" then c.ratioTolerance else c.moneyTolerance))
  }

  /** What lacks a counterpart is reported too: a required result, series or day's figure that does not stand on both
      sides, series of unequal length, and runs of unequal length. */
  ghost predicate GapsNamed(c: Contract, live: seq<Field>, replay: seq<Field>, found: seq<Place>) {
    if !HaveResults(live, replay) then Results in found
    else
      && (forall key <- c.results :: Result(key) in found || ResultPaired(live, replay, key))
      && (forall name <- c.series :: Series(name) in found || Daily in found || SeriesPaired(live, replay, name))
      && (DecisionList in found || DaysPaired(live, replay))
      && (DaysPaired(live, replay) ==>
            forall key <- c.dayKeys, day :: 0 <= day < |DaysOf(live).value| ==>
              || Decision(day) in found || DecisionResults(day) in found || DecisionResult(day, key) in found
              || DayPaired(live, replay, day, key))
  }

  ghost predicate ResultPaired(live: seq<Field>, replay: seq<Field>, key: string) {
    exists x, y :: Stands(live, "results", key, x) && Stands(replay, "results", key, y)
  }

  ghost predicate DayPaired(live: seq<Field>, replay: seq<Field>, day: int, key: string) {
    exists x, y :: StandsOn(live, day, key, x) && StandsOn(replay, day, key, y)
  }

  ghost predicate SeriesPaired(live: seq<Field>, replay: seq<Field>, name: string) {
    exists xs, ys ::
      && Stands(live, "daily_performance", name, List(xs)) && Stands(replay, "daily_performance", name, List(ys))
      && |xs| == |ys|
  }

  predicate DaysPaired(live: seq<Field>, replay: seq<Field>) {
    DaysOf(live).Some? && DaysOf(replay).Some? && |DaysOf(live).value| == |DaysOf(replay).value|
  }

  /** What the agent decided on a day is compared as a whole. */
  ghost predicate RawJudged(live: seq<Field>, replay: seq<Field>, found: seq<Place>, day: int, x: Json, y: Json) {
    && DaysPaired(live, replay) && 0 <= day < |DaysOf(live).value| && WellFormed(x) && WellFormed(y)
    && (var (a, b) := (DaysOf(live).value[day], DaysOf(replay).value[day]);
        && a.Obj? && b.Obj?
        && Lookup(a.fields, "decisions_raw") == Some(x) && Lookup(b.fields, "decisions_raw") == Some(y)) ==>
    (DecisionRaw(day) in found <==> !SameEverywhere(x, y))
  }

  /** The report names a required value that stands on both sides exactly when the two are further apart than the
      contract tolerates. */
  ghost predicate Judged(c: Contract, live: seq<Field>, replay: seq<Field>, found: seq<Place>) {
    && (forall key <- c.results, x, y :: ResultJudged(c, live, replay, found, key, x, y))
    && (HaveResults(live, replay) ==>
          && (forall name <- c.series, xs, ys, i :: ItemJudged(c, live, replay, found, name, xs, ys, i))
          && (forall key <- c.dayKeys, day, x, y :: DayJudged(c, live, replay, found, day, key, x, y))
          && (forall day, x, y :: RawJudged(live, replay, found, day, x, y)))
  }

  lemma SameExactly(c: Contract, key: string, x: Json, y: Json)
    requires WellFormed(x) && WellFormed(y)
    ensures var tolerance := if key == "roi_percent" then c.ratioTolerance else c.moneyTolerance;
            && (SameValue(c, key, x, y) <==> !UnlikeExactly(x, y, tolerance))
            && (SameItem(c, key, x, y) <==> !Unlike(x, y, tolerance))
  {
    hide Equal, SameEverywhere, WellFormed;
    EqualExactly(x, y);
  }

  lemma EqualSeen(x: Json, y: Json)
    requires WellFormed(x) && WellFormed(y)
    ensures Equal(x, y) <==> SameEverywhere(x, y)
  {
    EqualExactly(x, y);
  }

  /** The report names exactly the places where the payloads differ. */
  ghost predicate Reports(c: Contract, live: seq<Field>, replay: seq<Field>, found: seq<Place>) {
    forall place :: place in found <==> Differs(c, live, replay, place)
  }

  lemma JudgesResult(c: Contract, live: seq<Field>, replay: seq<Field>, found: seq<Place>, key: string, x: Json,
                     y: Json)
    requires Reports(c, live, replay, found) && key in c.results
    ensures ResultJudged(c, live, replay, found, key, x, y)
  {
    hide SameValue, SameItem, Unlike, UnlikeExactly, Lookup, WellFormed, DailyDiffers, DecisionsDiffer;
    if WellFormed(x) && WellFormed(y) { SameExactly(c, key, x, y); }
    assert Result(key) in found <==> Differs(c, live, replay, Result(key));
    OthersSayNothing(c, live, replay, key);
  }

  lemma OthersSayNothing(c: Contract, live: seq<Field>, replay: seq<Field>, key: string)
    ensures forall a, b :: !DailyDiffers(c, a, b, Result(key)) && !DecisionsDiffer(c, a, b, Result(key))
  {
  }

  lemma JudgesItem(c: Contract, live: seq<Field>, replay: seq<Field>, found: seq<Place>, name: string, xs: seq<Json>,
                   ys: seq<Json>, i: int)
    requires Reports(c, live, replay, found) && HaveResults(live, replay) && name in c.series
    ensures ItemJudged(c, live, replay, found, name, xs, ys, i)
  {
    hide SameValue, SameItem, Unlike, Lookup, WellFormed;
    if |xs| == |ys| && 0 <= i < |xs| && WellFormed(xs[i]) && WellFormed(ys[i]) {
      SameExactly(c, name, xs[i], ys[i]);
    }
    assert SeriesItem(name, i) in found <==> Differs(c, live, replay, SeriesItem(name, i));
  }

  lemma DayPlaces(c: Contract, live: seq<Field>, replay: seq<Field>, day: int, place: Place)
    requires HaveResults(live, replay) && DaysPaired(live, replay) && 0 <= day < |DaysOf(live).value|
    requires AboutDecision(place) && place.index == day
    ensures Differs(c, live, replay, place)
            <==> DecisionDiffers(c, day, DaysOf(live).value[day], DaysOf(replay).value[day], place)
  {
    hide SameAtKey, Lookup, DecisionDiffers, SeriesDiffers;
  }

  lemma DayDiffers(c: Contract, day: int, a: seq<Field>, b: seq<Field>, key: string, x: Json, y: Json)
    requires Stands(a, "results", key, x) && Stands(b, "results", key, y) && key in c.dayKeys
    ensures DecisionDiffers(c, day, Obj(a), Obj(b), DecisionResult(day, key)) <==> !SameValue(c, key, x, y)
  {
    hide SameValue, Lookup;
  }

  lemma JudgesDay(c: Contract, live: seq<Field>, replay: seq<Field>, found: seq<Place>, day: int, key: string, x: Json,
                  y: Json)
    requires Reports(c, live, replay, found) && HaveResults(live, replay) && key in c.dayKeys
    ensures DayJudged(c, live, replay, found, day, key, x, y)
  {
    if StandsOn(live, day, key, x) && StandsOn(replay, day, key, y) && DaysPaired(live, replay) {
      DayPlaces(c, live, replay, day, DecisionResult(day, key));
      DayDiffers(c, day, DaysOf(live).value[day].fields, DaysOf(replay).value[day].fields, key, x, y);
    }
    hide SameValue, SameItem, UnlikeExactly, Lookup, WellFormed, DecisionDiffers, Differs, Stands;
    if WellFormed(x) && WellFormed(y) { SameExactly(c, key, x, y); }
    assert DecisionResult(day, key) in found <==> Differs(c, live, replay, DecisionResult(day, key));
  }

  lemma JudgesRaw(c: Contract, live: seq<Field>, replay: seq<Field>, found: seq<Place>, day: int, x: Json, y: Json)
    requires Reports(c, live, replay, found) && HaveResults(live, replay)
    ensures RawJudged(live, replay, found, day, x, y)
  {
    hide Equal, SameEverywhere, Lookup, WellFormed;
    if WellFormed(x) && WellFormed(y) { EqualSeen(x, y); }
    assert DecisionRaw(day) in found <==> Differs(c, live, replay, DecisionRaw(day));
  }

  lemma ReportJudges(c: Contract, live: seq<Field>, replay: seq<Field>, found: seq<Place>)
    requires Reports(c, live, replay, found)
    ensures Judged(c, live, replay, found)
  {
    hide Reports, ResultJudged, ItemJudged, DayJudged, RawJudged, HaveResults;
    forall key <- c.results, x, y ensures ResultJudged(c, live, replay, found, key, x, y) {
      JudgesResult(c, live, replay, found, key, x, y);
    }
    if HaveResults(live, replay) {
      forall name <- c.series, xs, ys, i ensures ItemJudged(c, live, replay, found, name, xs, ys, i) {
        JudgesItem(c, live, replay, found, name, xs, ys, i);
      }
      forall key <- c.dayKeys, day, x, y ensures DayJudged(c, live, replay, found, day, key, x, y) {
        JudgesDay(c, live, replay, found, day, key, x, y);
      }
      forall day, x, y ensures RawJudged(live, replay, found, day, x, y) {
        JudgesRaw(c, live, replay, found, day, x, y);
      }
    }
  }

  lemma NoneUnder(key: string)
    ensures Lookup([], key).None?
  {
  }

  lemma GapInResults(c: Contract, live: seq<Field>, replay: seq<Field>, found: seq<Place>, key: string)
    requires Reports(c, live, replay, found) && HaveResults(live, replay) && key in c.results
    ensures Result(key) in found || ResultPaired(live, replay, key)
  {
    hide SameValue, Lookup, DailyDiffers, DecisionsDiffer;
    assert Result(key) in found <==> Differs(c, live, replay, Result(key));
    var (a, b) := (PartOf(live, "results").value, PartOf(replay, "results").value);
    if Result(key) !in found {
      NoneUnder(key);
      assert Stands(live, "results", key, Lookup(a, key).value);
      assert Stands(replay, "results", key, Lookup(b, key).value);
    }
  }

  lemma GapInSeries(c: Contract, live: seq<Field>, replay: seq<Field>, found: seq<Place>, name: string)
    requires Reports(c, live, replay, found) && HaveResults(live, replay) && name in c.series
    ensures Series(name) in found || Daily in found || SeriesPaired(live, replay, name)
  {
    hide SameItem, Lookup, DecisionsDiffer;
    assert Series(name) in found <==> Differs(c, live, replay, Series(name));
    assert Daily in found <==> Differs(c, live, replay, Daily);
    var (a, b) := (Get(live, "daily_performance", Obj([])), Get(replay, "daily_performance", Obj([])));
    if Series(name) !in found && Daily !in found {
      NoneUnder(name);
      assert Stands(live, "daily_performance", name, List(Get(a.fields, name, Null).items));
      assert Stands(replay, "daily_performance", name, List(Get(b.fields, name, Null).items));
    }
  }

  lemma GapInDay(c: Contract, live: seq<Field>, replay: seq<Field>, found: seq<Place>, key: string, day: int)
    requires Reports(c, live, replay, found) && HaveResults(live, replay) && DaysPaired(live, replay)
    requires key in c.dayKeys && 0 <= day < |DaysOf(live).value|
    ensures || Decision(day) in found || DecisionResults(day) in found || DecisionResult(day, key) in found
            || DayPaired(live, replay, day, key)
  {
    hide SameValue, SameItem, Lookup, Equal, DailyDiffers;
    assert Decision(day) in found <==> Differs(c, live, replay, Decision(day));
    assert DecisionResults(day) in found <==> Differs(c, live, replay, DecisionResults(day));
    assert DecisionResult(day, key) in found <==> Differs(c, live, replay, DecisionResult(day, key));
    var (a, b) := (DaysOf(live).value[day], DaysOf(replay).value[day]);
    if Decision(day) !in found && DecisionResults(day) !in found && DecisionResult(day, key) !in found {
      NoneUnder(key);
      var (x, y) := (Get(a.fields, "results", Obj([])), Get(b.fields, "results", Obj([])));
      assert StandsOn(live, day, key, Lookup(x.fields, key).value);
      assert StandsOn(replay, day, key, Lookup(y.fields, key).value);
    }
  }

  lemma ReportNamesGaps(c: Contract, live: seq<Field>, replay: seq<Field>, found: seq<Place>)
    requires Reports(c, live, replay, found)
    ensures GapsNamed(c, live, replay, found)
  {
    GapsOutside(c, live, replay, found);
    hide Reports, HaveResults, ResultPaired, SeriesPaired, DaysPaired, DayPaired, DaysOf;
    if HaveResults(live, replay) {
      forall key <- c.results ensures Result(key) in found || ResultPaired(live, replay, key) {
        GapInResults(c, live, replay, found, key);
      }
      forall name <- c.series ensures Series(name) in found || Daily in found || SeriesPaired(live, replay, name) {
        GapInSeries(c, live, replay, found, name);
      }
      if DaysPaired(live, replay) {
        forall key <- c.dayKeys, day: int | 0 <= day < |DaysOf(live).value|
          ensures || Decision(day) in found || DecisionResults(day) in found || DecisionResult(day, key) in found
                  || DayPaired(live, replay, day, key)
        {
          GapInDay(c, live, replay, found, key, day);
        }
      }
    }
  }

  lemma GapsOutside(c: Contract, live: seq<Field>, replay: seq<Field>, found: seq<Place>)
    requires Reports(c, live, replay, found)
    ensures DaysPaired(live, replay) ==> DaysOf(live).Some?
    ensures if HaveResults(live, replay) then DecisionList in found || DaysPaired(live, replay) else Results in found
  {
    hide Lookup;
    assert Results in found <==> Differs(c, live, replay, Results);
    assert DecisionList in found <==> Differs(c, live, replay, DecisionList);
  }

  method CompareSeries(c: Contract, a: seq<Field>, b: seq<Field>, name: string) returns (found: seq<Place>)
    ensures found == [] <==> SameSeries(c, a, b, name)
    ensures forall place :: place in found <==> SeriesDiffers(c, a, b, name, place)
  {
    hide Get, Equal;
    found := [];
    var (x, y) := (Get(a, name, Null), Get(b, name, Null));
    if !x.List? || !y.List? || |x.items| != |y.items| {
      return [Series(name)];
    }
    for i := 0 to |x.items|
      invariant found == [] <==> forall k :: 0 <= k < i ==> SameItem(c, name, x.items[k], y.items[k])
      invariant forall place :: place in found <==>
        place.SeriesItem? && place.index < i && SeriesDiffers(c, a, b, name, place)
    {
      if IsNumber(x.items[i]) && IsNumber(y.items[i]) {
        if !ApproxEqual(AsReal(x.items[i]), AsReal(y.items[i]), ToleranceFor(c, name)) {
          found := found + [SeriesItem(name, i)];
        }
      } else if !Equal(x.items[i], y.items[i]) {
        found := found + [SeriesItem(name, i)];
      }
    }
  }

  method CompareDecision(c: Contract, index: int, a: Json, b: Json) returns (found: seq<Place>)
    ensures found == [] <==> SameDecision(c, a, b)
    ensures forall place :: place in found <==> DecisionDiffers(c, index, a, b, place)
  {
    hide Get, Equal, SameAtKey;
    if !a.Obj? || !b.Obj? {
      return [Decision(index)];
    }
    found := [];
    if !Equal(Get(a.fields, "decisions_raw", Null), Get(b.fields, "decisions_raw", Null)) {
      found := found + [DecisionRaw(index)];
    }
    var (x, y) := (Get(a.fields, "results", Obj([])), Get(b.fields, "results", Obj([])));
    if !x.Obj? || !y.Obj? {
      return found + [DecisionResults(index)];
    }
    var bad := CompareKeys(c, c.dayKeys, x.fields, y.fields);
    var places := seq(|bad|, i requires 0 <= i < |bad| => DecisionResult(index, bad[i]));
    forall key ensures DecisionResult(index, key) in places <==> key in bad {
      if key in bad {
        var i :| 0 <= i < |bad| && bad[i] == key;
        assert places[i] == DecisionResult(index, key);
      }
    }
    found := found + places;
  }

  /** Main result: the report is empty exactly when the two payloads agree, and names exactly the places where they
      differ. */
  method CompareLiveAndReplay(c: Contract, live: seq<Field>, replay: seq<Field>)
    returns (ok: bool, mismatches: seq<Place>)
    ensures ok == (mismatches == [])
    ensures ok <==> Agree(c, live, replay)
    ensures Reports(c, live, replay, mismatches)
    ensures Judged(c, live, replay, mismatches) && GapsNamed(c, live, replay, mismatches)
  {
    hide Judged, GapsNamed;
    forall found | Reports(c, live, replay, found)
      ensures Judged(c, live, replay, found) && GapsNamed(c, live, replay, found)
    {
      ReportJudges(c, live, replay, found);
      ReportNamesGaps(c, live, replay, found);
    }
    hide Get, Equal, SameAtKey, SameDaily, SameDecisions, DailyDiffers, DecisionsDiffer;
    var (a, b) := (Get(live, "results", Obj([])), Get(replay, "results", Obj([])));
    if !a.Obj? || !b.Obj? {
      return false, [Results];
    }
    var bad := CompareKeys(c, c.results, a.fields, b.fields);
    mismatches := seq(|bad|, i requires 0 <= i < |bad| => Result(bad[i]));
    forall key ensures Result(key) in mismatches <==> key in bad {
      if key in bad {
        var i :| 0 <= i < |bad| && bad[i] == key;
        assert mismatches[i] == Result(key);
      }
    }

    var (x, y) := (Get(live, "daily_performance", Obj([])), Get(replay, "daily_performance", Obj([])));
    var daily := CompareDaily(c, x, y);
    mismatches := mismatches + daily;

    var (p, q) := (Get(live, "decisions", List([])), Get(replay, "decisions", List([])));
    var decisions := CompareDecisions(c, p, q);
    mismatches := mismatches + decisions;
    ok := mismatches == [];
  }

  method CompareDaily(c: Contract, a: Json, b: Json) returns (found: seq<Place>)
    ensures found == [] <==> SameDaily(c, a, b)
    ensures forall place :: place in found <==> DailyDiffers(c, a, b, place)
  {
    hide SeriesDiffers, SameSeries;
    if !a.Obj? || !b.Obj? {
      return [Daily];
    }
    found := [];
    for i := 0 to |c.series|
      invariant found == [] <==> forall k :: 0 <= k < i ==> SameSeries(c, a.fields, b.fields, c.series[k])
      invariant forall place :: place in found <==>
        exists k :: 0 <= k < i && SeriesDiffers(c, a.fields, b.fields, c.series[k], place)
    {
      var more := CompareSeries(c, a.fields, b.fields, c.series[i]);
      found := found + more;
    }
    forall place ensures place in found <==> DailyDiffers(c, a, b, place) {
      forall name ensures SeriesDiffers(c, a.fields, b.fields, name, place) ==> ForSeries(place, name) {
        NamesItsSeries(c, a.fields, b.fields, name, place);
      }
    }
  }

  predicate ForSeries(place: Place, name: string) {
    (place.Series? && place.name == name) || (place.SeriesItem? && place.name == name)
  }

  lemma NamesItsSeries(c: Contract, a: seq<Field>, b: seq<Field>, name: string, place: Place)
    ensures SeriesDiffers(c, a, b, name, place) ==> ForSeries(place, name)
  {
  }

  method CompareDecisions(c: Contract, a: Json, b: Json) returns (found: seq<Place>)
    ensures found == [] <==> SameDecisions(c, a, b)
    ensures forall place :: place in found <==> DecisionsDiffer(c, a, b, place)
  {
    hide DecisionDiffers, SameDecision;
    if !a.List? || !b.List? || |a.items| != |b.items| {
      return [DecisionList];
    }
    found := [];
    for i := 0 to |a.items|
      invariant found == [] <==> forall k :: 0 <= k < i ==> SameDecision(c, a.items[k], b.items[k])
      invariant forall place :: place in found <==>
        AboutDecision(place) && 0 <= place.index < i
        && DecisionDiffers(c, place.index, a.items[place.index], b.items[place.index], place)
    {
      var more := CompareDecision(c, i, a.items[i], b.items[i]);
      forall place ensures place in more ==> AboutDecision(place) && place.index == i {
        NamesItsDay(c, i, a.items[i], b.items[i], place);
      }
      found := found + more;
    }
  }

  lemma NamesItsDay(c: Contract, index: int, a: Json, b: Json, place: Place)
    ensures DecisionDiffers(c, index, a, b, place) ==> AboutDecision(place) && place.index == index
  {
  }

  /** A value looked up in a well-formed object is well formed. */
  lemma GetWellFormed(fields: seq<Field>, key: string, default: Json)
    requires WellFormed(Obj(fields)) && WellFormed(default)
    ensures WellFormed(Get(fields, key, default))
  {
  }

  lemma SameItemSymmetric(c: Contract, key: string, a: Json, b: Json)
    requires WellFormed(a) && WellFormed(b) && SameItem(c, key, a, b)
    ensures SameItem(c, key, b, a)
  {
    if !(IsNumber(a) && IsNumber(b)) { EqualSymmetric(a, b); }
  }

  lemma SameAtKeySymmetric(c: Contract, a: seq<Field>, b: seq<Field>, key: string)
    requires WellFormed(Obj(a)) && WellFormed(Obj(b)) && SameAtKey(c, a, b, key)
    ensures SameAtKey(c, b, a, key)
  {
    hide WellFormed, Equal;
    GetWellFormed(a, key, Null) by { assert WellFormed(Null) by { NullWellFormed(); } }
    GetWellFormed(b, key, Null);
    var (x, y) := (Get(a, key, Null), Get(b, key, Null));
    if !(x.Int? && y.Int?) { SameItemSymmetric(c, key, x, y); }
  }

  lemma NullWellFormed()
    ensures WellFormed(Null) && WellFormed(Obj([])) && WellFormed(List([]))
    ensures forall b :: WellFormed(Bool(b))
  {
  }

  /** The check does not depend on which payload is called live. */
  lemma AgreeSymmetric(c: Contract, live: seq<Field>, replay: seq<Field>)
    requires WellFormed(Obj(live)) && WellFormed(Obj(replay)) && Agree(c, live, replay)
    ensures Agree(c, replay, live)
  {
    hide WellFormed, Get, SameAtKey, SameSeries, SameDecision;
    NullWellFormed();
    forall key, default | default == Obj([]) || default == List([])
      ensures WellFormed(Get(live, key, default)) && WellFormed(Get(replay, key, default))
    {
      GetWellFormed(live, key, default);
      GetWellFormed(replay, key, default);
    }
    var (a, b) := (Get(live, "results", Obj([])), Get(replay, "results", Obj([])));
    forall i | 0 <= i < |c.results| ensures SameAtKey(c, b.fields, a.fields, c.results[i]) {
      SameAtKeySymmetric(c, a.fields, b.fields, c.results[i]);
    }
    var (x, y) := (Get(live, "daily_performance", Obj([])), Get(replay, "daily_performance", Obj([])));
    forall i | 0 <= i < |c.series| ensures SameSeries(c, y.fields, x.fields, c.series[i]) {
      SameSeriesSymmetric(c, x.fields, y.fields, c.series[i]);
    }
    var (p, q) := (Get(live, "decisions", List([])), Get(replay, "decisions", List([])));
    forall i | 0 <= i < |p.items| ensures SameDecision(c, q.items[i], p.items[i]) {
      ItemWellFormed(p.items, i);
      ItemWellFormed(q.items, i);
      SameDecisionSymmetric(c, p.items[i], q.items[i]);
    }
  }

  lemma ItemWellFormed(items: seq<Json>, i: nat)
    requires i < |items| && WellFormed(List(items))
    ensures WellFormed(items[i])
  {
  }

  lemma SameSeriesSymmetric(c: Contract, a: seq<Field>, b: seq<Field>, name: string)
    requires WellFormed(Obj(a)) && WellFormed(Obj(b)) && SameSeries(c, a, b, name)
    ensures SameSeries(c, b, a, name)
  {
    hide WellFormed, SameItem, Get;
    NullWellFormed();
    GetWellFormed(a, name, Null);
    GetWellFormed(b, name, Null);
    var (x, y) := (Get(a, name, Null), Get(b, name, Null));
    forall i | 0 <= i < |x.items| ensures SameItem(c, name, y.items[i], x.items[i]) {
      ItemWellFormed(x.items, i);
      ItemWellFormed(y.items, i);
      SameItemSymmetric(c, name, x.items[i], y.items[i]);
    }
  }

  lemma SameDecisionSymmetric(c: Contract, a: Json, b: Json)
    requires WellFormed(a) && WellFormed(b) && SameDecision(c, a, b)
    ensures SameDecision(c, b, a)
  {
    hide WellFormed, Get, Equal, SameAtKey;
    NullWellFormed();
    GetWellFormed(a.fields, "decisions_raw", Null);
    GetWellFormed(b.fields, "decisions_raw", Null);
    EqualSymmetric(Get(a.fields, "decisions_raw", Null), Get(b.fields, "decisions_raw", Null));
    GetWellFormed(a.fields, "results", Obj([]));
    GetWellFormed(b.fields, "results", Obj([]));
    var (x, y) := (Get(a.fields, "results", Obj([])), Get(b.fields, "results", Obj([])));
    forall i | 0 <= i < |c.dayKeys| ensures SameAtKey(c, y.fields, x.fields, c.dayKeys[i]) {
      SameAtKeySymmetric(c, x.fields, y.fields, c.dayKeys[i]);
    }
  }

  /** A payload that has everything the contract asks for. */
  predicate Complete(c: Contract, payload: seq<Field>) {
    && CompleteResults(c.results, Get(payload, "results", Obj([])))
    && CompleteDaily(c, Get(payload, "daily_performance", Obj([])))
    && CompleteDecisions(c, Get(payload, "decisions", List([])))
  }

  predicate CompleteResults(keys: seq<string>, a: Json) {
    a.Obj? && forall i :: 0 <= i < |keys| ==> Has(a.fields, keys[i])
  }

  predicate CompleteDaily(c: Contract, a: Json) {
    a.Obj? && forall i :: 0 <= i < |c.series| ==> Get(a.fields, c.series[i], Null).List?
  }

  predicate CompleteDecisions(c: Contract, a: Json) {
    a.List? && forall i :: 0 <= i < |a.items| ==>
      a.items[i].Obj? && CompleteResults(c.dayKeys, Get(a.items[i].fields, "results", Obj([])))
  }

  predicate Tolerant(c: Contract) { c.moneyTolerance >= 0.0 && c.ratioTolerance >= 0.0 }

  lemma SameValueReflexive(c: Contract, key: string, a: Json)
    requires Tolerant(c) && WellFormed(a)
    ensures SameValue(c, key, a, a) && SameItem(c, key, a, a)
  {
    EqualReflexive(a);
  }

  /** A complete payload agrees with itself; an incomplete one does not. */
  lemma AgreeReflexive(c: Contract, payload: seq<Field>)
    requires Tolerant(c) && WellFormed(Obj(payload))
    ensures Agree(c, payload, payload) <==> Complete(c, payload)
  {
    hide WellFormed, Get, SameValue, SameItem, Equal;
    NullWellFormed();
    GetWellFormed(payload, "results", Obj([]));
    GetWellFormed(payload, "daily_performance", Obj([]));
    GetWellFormed(payload, "decisions", List([]));
    ResultsReflexive(c, c.results, Get(payload, "results", Obj([])));
    DailyReflexive(c, Get(payload, "daily_performance", Obj([])));
    DecisionsReflexive(c, Get(payload, "decisions", List([])));
  }

  lemma ResultsReflexive(c: Contract, keys: seq<string>, a: Json)
    requires Tolerant(c) && WellFormed(a)
    ensures CompleteResults(keys, a)
            <==> a.Obj? && forall i :: 0 <= i < |keys| ==> SameAtKey(c, a.fields, a.fields, keys[i])
  {
    hide WellFormed, Get, SameValue;
    if a.Obj? {
      NullWellFormed();
      forall i | 0 <= i < |keys|
        ensures SameAtKey(c, a.fields, a.fields, keys[i]) <==> Has(a.fields, keys[i])
      {
        GetWellFormed(a.fields, keys[i], Null);
        SameValueReflexive(c, keys[i], Get(a.fields, keys[i], Null));
      }
    }
  }

  lemma DailyReflexive(c: Contract, a: Json)
    requires Tolerant(c) && WellFormed(a)
    ensures CompleteDaily(c, a) <==> SameDaily(c, a, a)
  {
    hide WellFormed, Get, SameItem;
    if a.Obj? {
      NullWellFormed();
      forall i | 0 <= i < |c.series|
        ensures SameSeries(c, a.fields, a.fields, c.series[i]) <==> Get(a.fields, c.series[i], Null).List?
      {
        var x := Get(a.fields, c.series[i], Null);
        GetWellFormed(a.fields, c.series[i], Null);
        if x.List? {
          forall k | 0 <= k < |x.items| ensures SameItem(c, c.series[i], x.items[k], x.items[k]) {
            ItemWellFormed(x.items, k);
            SameValueReflexive(c, c.series[i], x.items[k]);
          }
        }
      }
    }
  }

  lemma DecisionsReflexive(c: Contract, a: Json)
    requires Tolerant(c) && WellFormed(a)
    ensures CompleteDecisions(c, a) <==> SameDecisions(c, a, a)
  {
    hide WellFormed, Get, SameAtKey, Equal, CompleteResults;
    if a.List? {
      NullWellFormed();
      forall i | 0 <= i < |a.items|
        ensures SameDecision(c, a.items[i], a.items[i])
                <==> a.items[i].Obj? && CompleteResults(c.dayKeys, Get(a.items[i].fields, "results", Obj([])))
      {
        ItemWellFormed(a.items, i);
        if a.items[i].Obj? {
          var fields := a.items[i].fields;
          GetWellFormed(fields, "decisions_raw", Null);
          EqualReflexive(Get(fields, "decisions_raw", Null));
          GetWellFormed(fields, "results", Obj([]));
          ResultsReflexive(c, c.dayKeys, Get(fields, "results", Obj([])));
        }
      }
    }
  }
}
