/**
 * The pour plan of `Bartender.makeDrink` and the pin actions that carry it out.
 *
 * A recipe is matched against the pumps, giving one (pin, pour time) pair per
 * matching (ingredient, pump) pair; the pairs are sorted stably by time, the
 * largest time is noted as the total, and the times are rewritten as differences
 * from the previous pair. Driving the pins is recorded as a trace of events: one
 * output of all planned pins to LOW (pumps on), then, per pair, a wait of its
 * difference when that is positive and an output of its pin to HIGH (pump off).
 */
module Scheduler {
  import opened Results
  import opened Registry

  /** Seconds of pumping per unit of volume (`FLOW_RATE = 60.0 / 100.0`). */
  const FlowRate: real := 0.6

  /** Seconds of pumping of the cleaning cycle. */
  const CleanSeconds: real := 10.0

  /** One `[pin, time]` entry of `pumpTimes`. */
  datatype PumpTime = PumpTime(pin: int, time: real)

  datatype Level = Low | High

  /** An action towards the hardware. */
  datatype Event =
    | Output(pins: seq<int>, level: Level)   // `GPIO.output(pins, level)`
    | Sleep(duration: real)                  // `sleepAndProgress(..., duration, ...)`
    | Halt                                   // `shutdown`: interrupts off, GPIO released, system halt

  /** The result of the planning part of `makeDrink`. */
  datatype Plan = Plan(steps: seq<PumpTime>, total: real)

  // ---------------------------------------------------------------------------
  // Collecting the entries

  /** The entries the inner loop over the pumps appends for one ingredient. */
  function PortionTimes(p: Portion, cfg: Config): seq<PumpTime> {
    if cfg == [] then []
    else
      var pump := cfg[|cfg| - 1];
      PortionTimes(p, cfg[..|cfg| - 1])
        + (if p.ingredient == pump.value then [PumpTime(pump.pin, p.volume * FlowRate)] else [])
  }

  /** The entries of `pumpTimes` after the nested loops: ingredient by ingredient, pump by pump. */
  function Matches(recipe: Recipe, cfg: Config): seq<PumpTime> {
    if recipe == [] then []
    else Matches(recipe[..|recipe| - 1], cfg) + PortionTimes(recipe[|recipe| - 1], cfg)
  }

  /** Lines 282-287: the nested loops that build `pumpTimes`. */
  method CollectPumpTimes(recipe: Recipe, cfg: Config) returns (pumpTimes: seq<PumpTime>)
    ensures pumpTimes == Matches(recipe, cfg)
  {
    pumpTimes := [];
    for i := 0 to |recipe|
      invariant pumpTimes == Matches(recipe[..i], cfg)
    {
      var ing := recipe[i];
      for j := 0 to |cfg|
        invariant pumpTimes == Matches(recipe[..i], cfg) + PortionTimes(ing, cfg[..j])
      {
        if ing.ingredient == cfg[j].value {
          var waitTime := ing.volume * FlowRate;
          pumpTimes := pumpTimes + [PumpTime(cfg[j].pin, waitTime)];
        }
        assert cfg[..j + 1][..j] == cfg[..j];
      }
      assert cfg[..|cfg|] == cfg;
      assert recipe[..i + 1][..i] == recipe[..i];
    }
    assert recipe[..|recipe|] == recipe;
  }

  /** An ingredient contributes one entry per pump that holds it, so none when no pump does. */
  lemma {:induction false} PortionTimesCount(p: Portion, cfg: Config)
    ensures |PortionTimes(p, cfg)| == PumpCount(p.ingredient, cfg)
  {
    if cfg != [] {
      PortionTimesCount(p, cfg[..|cfg| - 1]);
    }
  }

  /** The plan holds as many entries as `filterDrinks` counts matching (ingredient, pump) pairs. */
  lemma {:induction false} MatchesCount(recipe: Recipe, cfg: Config)
    ensures |Matches(recipe, cfg)| == PresentCount(recipe, cfg)
  {
    if recipe != [] {
      MatchesCount(recipe[..|recipe| - 1], cfg);
      PortionTimesCount(recipe[|recipe| - 1], cfg);
    }
  }

  /** `x` is the entry the loops append for portion `p` and pump `pump`. */
  predicate EntryOf(p: Portion, pump: Pump, x: PumpTime) {
    p.ingredient == pump.value && x == PumpTime(pump.pin, p.volume * FlowRate)
  }

  lemma {:induction false} PortionTimesSound(p: Portion, cfg: Config, x: PumpTime) returns (j: nat)
    requires x in PortionTimes(p, cfg)
    ensures j < |cfg| && EntryOf(p, cfg[j], x)
  {
    var init := cfg[..|cfg| - 1];
    if x in PortionTimes(p, init) {
      j := PortionTimesSound(p, init, x);
      assert init[j] == cfg[j];
    } else {
      j := |cfg| - 1;
    }
  }

  lemma {:induction false} PortionTimesComplete(p: Portion, cfg: Config, j: nat, x: PumpTime)
    requires j < |cfg| && EntryOf(p, cfg[j], x)
    ensures x in PortionTimes(p, cfg)
  {
    var init := cfg[..|cfg| - 1];
    if j < |init| {
      assert init[j] == cfg[j];
      PortionTimesComplete(p, init, j, x);
    }
  }

  lemma {:induction false} MatchesSound(recipe: Recipe, cfg: Config, x: PumpTime) returns (i: nat, j: nat)
    requires x in Matches(recipe, cfg)
    ensures i < |recipe| && j < |cfg| && EntryOf(recipe[i], cfg[j], x)
  {
    var init := recipe[..|recipe| - 1];
    if x in Matches(init, cfg) {
      i, j := MatchesSound(init, cfg, x);
      assert init[i] == recipe[i];
    } else {
      i := |recipe| - 1;
      j := PortionTimesSound(recipe[i], cfg, x);
    }
  }

  lemma {:induction false} MatchesComplete(recipe: Recipe, cfg: Config, i: nat, j: nat, x: PumpTime)
    requires i < |recipe| && j < |cfg| && EntryOf(recipe[i], cfg[j], x)
    ensures x in Matches(recipe, cfg)
  {
    var init := recipe[..|recipe| - 1];
    if i < |init| {
      assert init[i] == recipe[i];
      MatchesComplete(init, cfg, i, j, x);
    } else {
      PortionTimesComplete(recipe[i], cfg, j, x);
    }
  }

  /**
   * An entry is in the plan exactly when some ingredient of the recipe is the
   * `value` of some pump, and the entry pairs that pump's pin with the
   * ingredient's volume times the flow rate.
   */
  lemma MatchesMembers(recipe: Recipe, cfg: Config, x: PumpTime)
    ensures x in Matches(recipe, cfg) <==>
      exists i, j :: 0 <= i < |recipe| && 0 <= j < |cfg| && EntryOf(recipe[i], cfg[j], x)
  {
    if x in Matches(recipe, cfg) {
      var i, j := MatchesSound(recipe, cfg, x);
    }
    if exists i, j :: 0 <= i < |recipe| && 0 <= j < |cfg| && EntryOf(recipe[i], cfg[j], x) {
      var i, j :| 0 <= i < |recipe| && 0 <= j < |cfg| && EntryOf(recipe[i], cfg[j], x);
      MatchesComplete(recipe, cfg, i, j, x);
    }
  }

  // ---------------------------------------------------------------------------
  // `pumpTimes.sort(key=lambda x: x[1])`: a stable sort by time

  predicate SortedByTime(s: seq<PumpTime>) {
    forall i, j :: 0 <= i < j < |s| ==> s[i].time <= s[j].time
  }

  /** Inserts `x` before the first entry that is not earlier: ahead of the entries it ties with. */
  function InsertByTime(x: PumpTime, s: seq<PumpTime>): seq<PumpTime> {
    if s == [] || x.time <= s[0].time then [x] + s
    else [s[0]] + InsertByTime(x, s[1..])
  }

  function SortByTime(s: seq<PumpTime>): seq<PumpTime> {
    if s == [] then [] else InsertByTime(s[0], SortByTime(s[1..]))
  }

  /** The entries of `s` with time `t`, in order. */
  function WithTime(s: seq<PumpTime>, t: real): seq<PumpTime> {
    if s == [] then [] else (if s[0].time == t then [s[0]] else []) + WithTime(s[1..], t)
  }

  predicate AllAtLeast(s: seq<PumpTime>, b: real) {
    forall k :: 0 <= k < |s| ==> b <= s[k].time
  }

  lemma {:induction false} InsertByTimeElems(x: PumpTime, s: seq<PumpTime>)
    ensures multiset(InsertByTime(x, s)) == multiset(s) + multiset{x}
  {
    if s != [] && s[0].time < x.time {
      InsertByTimeElems(x, s[1..]);
      assert s == [s[0]] + s[1..];
    }
  }

  lemma {:induction false} InsertByTimeBound(x: PumpTime, s: seq<PumpTime>, b: real)
    requires AllAtLeast(s, b) && b <= x.time
    ensures AllAtLeast(InsertByTime(x, s), b)
  {
    if s != [] && s[0].time < x.time {
      InsertByTimeBound(x, s[1..], b);
    }
  }

  lemma ConsSorted(h: PumpTime, r: seq<PumpTime>)
    requires SortedByTime(r) && AllAtLeast(r, h.time)
    ensures SortedByTime([h] + r)
  {
    forall i, j | 0 <= i < j < |[h] + r| ensures ([h] + r)[i].time <= ([h] + r)[j].time {
      assert ([h] + r)[j] == r[j - 1];
      if i > 0 {
        assert ([h] + r)[i] == r[i - 1];
      }
    }
  }

  lemma {:induction false} InsertByTimeSorted(x: PumpTime, s: seq<PumpTime>)
    requires SortedByTime(s)
    ensures SortedByTime(InsertByTime(x, s))
  {
    if s == [] || x.time <= s[0].time {
      ConsSorted(x, s);
    } else {
      var tail := s[1..];
      assert SortedByTime(tail);
      InsertByTimeSorted(x, tail);
      assert AllAtLeast(tail, s[0].time);
      InsertByTimeBound(x, tail, s[0].time);
      ConsSorted(s[0], InsertByTime(x, tail));
    }
  }

  /** The sort returns the entries it is given, each as often, with times non-decreasing. */
  lemma {:induction false} SortByTimeSorted(s: seq<PumpTime>)
    ensures SortedByTime(SortByTime(s))
    ensures multiset(SortByTime(s)) == multiset(s)
    ensures |SortByTime(s)| == |s|
  {
    if s != [] {
      SortByTimeSorted(s[1..]);
      InsertByTimeSorted(s[0], SortByTime(s[1..]));
      InsertByTimeElems(s[0], SortByTime(s[1..]));
      assert s == [s[0]] + s[1..];
    }
    assert |multiset(SortByTime(s))| == |multiset(s)|;
  }

  lemma {:induction false} WithTimeAppend(a: seq<PumpTime>, b: seq<PumpTime>, t: real)
    ensures WithTime(a + b, t) == WithTime(a, t) + WithTime(b, t)
  {
    if a == [] {
      assert a + b == b;
    } else {
      var h := if a[0].time == t then [a[0]] else [];
      assert (a + b)[0] == a[0];
      assert (a + b)[1..] == a[1..] + b;
      assert WithTime(a + b, t) == h + WithTime(a[1..] + b, t);
      WithTimeAppend(a[1..], b, t);
      assert WithTime(a, t) == h + WithTime(a[1..], t);
    }
  }

  /** Filtering by time takes apart an entry put in front. */
  lemma WithTimeCons(y: PumpTime, s: seq<PumpTime>, t: real)
    ensures WithTime([y] + s, t) == (if y.time == t then [y] else []) + WithTime(s, t)
  {
    assert ([y] + s)[0] == y;
    assert ([y] + s)[1..] == s;
  }

  lemma {:induction false} InsertByTimeStable(x: PumpTime, s: seq<PumpTime>, t: real)
    ensures WithTime(InsertByTime(x, s), t) == WithTime([x] + s, t)
  {
    if s != [] && s[0].time < x.time {
      var rest := s[1..];
      var r := InsertByTime(x, rest);
      assert s == [s[0]] + rest;
      assert InsertByTime(x, s) == [s[0]] + r;
      var hs := if s[0].time == t then [s[0]] else [];
      var hx := if x.time == t then [x] else [];
      InsertByTimeStable(x, rest, t);
      WithTimeCons(s[0], r, t);
      WithTimeCons(x, rest, t);
      WithTimeCons(x, s, t);
      WithTimeCons(s[0], rest, t);
      assert hs == [] || hx == [];
      assert WithTime(InsertByTime(x, s), t) == hs + (hx + WithTime(rest, t));
      assert WithTime([x] + s, t) == hx + (hs + WithTime(rest, t));
    }
  }

  /** The sort is stable: the entries sharing any one time keep their collection order. */
  lemma {:induction false} SortByTimeStable(s: seq<PumpTime>, t: real)
    ensures WithTime(SortByTime(s), t) == WithTime(s, t)
  {
    if s != [] {
      SortByTimeStable(s[1..], t);
      InsertByTimeStable(s[0], SortByTime(s[1..]), t);
      WithTimeAppend([s[0]], SortByTime(s[1..]), t);
      WithTimeAppend([s[0]], s[1..], t);
      assert s == [s[0]] + s[1..];
    }
  }

  predicate IsMaxTime(m: real, s: seq<PumpTime>) {
    (exists k :: 0 <= k < |s| && s[k].time == m) && forall k :: 0 <= k < |s| ==> s[k].time <= m
  }

  /** The last entry after the sort carries the largest time of the unsorted entries. */
  lemma LastIsMax(s: seq<PumpTime>)
    requires s != []
    ensures |SortByTime(s)| == |s|
    ensures IsMaxTime(SortByTime(s)[|s| - 1].time, s)
  {
    SortByTimeSorted(s);
    var r := SortByTime(s);
    var last := r[|r| - 1];
    assert last in multiset(s);
    forall k | 0 <= k < |s| ensures s[k].time <= last.time {
      assert s[k] in multiset(r);
    }
  }

  // ---------------------------------------------------------------------------
  // Absolute stop times to differences (lines 296-297)

  /** Each time made relative to the entry before it, the first one to `base`. */
  function Offsets(s: seq<PumpTime>, base: real): seq<PumpTime> {
    seq(|s|, i requires 0 <= i < |s| => s[i].(time := s[i].time - (if i == 0 then base else s[i - 1].time)))
  }

  /** The rewritten `pumpTimes`: the first entry keeps its time, each later one loses its predecessor's. */
  function Deltas(s: seq<PumpTime>): seq<PumpTime> {
    Offsets(s, 0.0)
  }

  /** Prefix sums from `base`: the inverse of `Offsets`. */
  function Absolute(d: seq<PumpTime>, base: real): seq<PumpTime> {
    if d == [] then [] else [d[0].(time := base + d[0].time)] + Absolute(d[1..], base + d[0].time)
  }

  /** The sum of the times of `d`. */
  function Total(d: seq<PumpTime>): real {
    if d == [] then 0.0 else Total(d[..|d| - 1]) + d[|d| - 1].time
  }

  /** Lines 296-297: the backward loop, each subtraction reading a predecessor not yet rewritten. */
  method ToRelative(a: array<PumpTime>)
    modifies a
    ensures a[..] == Deltas(old(a[..]))
  {
    ghost var orig := a[..];
    var i := a.Length - 1;
    while i > 0
      invariant 0 <= i + 1 <= a.Length || (a.Length == 0 && i == -1)
      invariant forall k :: 0 <= k <= i && k < a.Length ==> a[k] == orig[k]
      invariant forall k :: i < k < a.Length ==> a[k] == Deltas(orig)[k]
    {
      a[i] := a[i].(time := a[i].time - a[i - 1].time);
      i := i - 1;
    }
    assert a.Length > 0 ==> a[0] == orig[0] == Deltas(orig)[0];
    assert a[..] == Deltas(orig);
  }

  /** The sorted plan copied into an array and rewritten in place by `ToRelative`. */
  method RelativeTimes(sorted: seq<PumpTime>) returns (steps: seq<PumpTime>)
    ensures steps == Deltas(sorted)
  {
    var a := new PumpTime[|sorted|](i requires 0 <= i < |sorted| => sorted[i]);
    assert a[..] == sorted;
    ToRelative(a);
    steps := a[..];
  }

  lemma OffsetsTail(s: seq<PumpTime>, base: real)
    requires s != []
    ensures Offsets(s, base)[1..] == Offsets(s[1..], s[0].time)
  {
  }

  /** Summing the differences back from `base` gives the absolute times again. */
  lemma {:induction false} OffsetsRoundTrip(s: seq<PumpTime>, base: real)
    ensures Absolute(Offsets(s, base), base) == s
    decreases |s|
  {
    if s != [] {
      OffsetsTail(s, base);
      OffsetsRoundTrip(s[1..], s[0].time);
      assert base + (s[0].time - base) == s[0].time;
      assert s == [s[0]] + s[1..];
    }
  }

  /** The prefix sums of the differences are the absolute times (telescoping). */
  lemma {:induction false} DeltasTelescope(s: seq<PumpTime>, k: nat)
    requires k < |s|
    ensures Total(Deltas(s)[..k + 1]) == s[k].time
  {
    var d := Deltas(s);
    assert d[..k + 1][..k] == d[..k];
    if k > 0 {
      DeltasTelescope(s, k - 1);
    } else {
      assert d[..0] == [];
    }
  }

  /** The differences add up to the time of the last entry. */
  lemma DeltasTotal(s: seq<PumpTime>)
    requires s != []
    ensures Total(Deltas(s)) == s[|s| - 1].time
  {
    DeltasTelescope(s, |s| - 1);
    assert Deltas(s)[..|s|] == Deltas(s);
  }

  // ---------------------------------------------------------------------------
  // The planning part of makeDrink (lines 281-297)

  /** The differences of a time-sorted list are non-negative after the first. */
  lemma SortedDeltasNonNegative(s: seq<PumpTime>)
    requires SortedByTime(s)
    ensures |Deltas(s)| == |s|
    ensures forall i :: 0 < i < |s| ==> Deltas(s)[i].time >= 0.0
  {
    forall i | 0 < i < |s| ensures Deltas(s)[i].time >= 0.0 {
      assert s[i - 1].time <= s[i].time;
    }
  }

  /** What the planning steps promise of any non-empty list of entries. */
  lemma PlanFacts(m: seq<PumpTime>)
    requires m != []
    ensures |SortByTime(m)| == |m|
    ensures IsMaxTime(SortByTime(m)[|m| - 1].time, m)
    ensures Total(Deltas(SortByTime(m))) == SortByTime(m)[|m| - 1].time
    ensures |Deltas(SortByTime(m))| == |m|
    ensures forall i :: 0 < i < |m| ==> Deltas(SortByTime(m))[i].time >= 0.0
  {
    SortByTimeSorted(m);
    LastIsMax(m);
    DeltasTotal(SortByTime(m));
    SortedDeltasNonNegative(SortByTime(m));
  }

  /**
   * The plan for a recipe: the matches, sorted stably by time, as differences,
   * with the largest time as the total. With no match at all the source fails
   * at `pumpTimes[-1]`, before any pin is driven.
   */
  method PlanPour(recipe: Recipe, cfg: Config) returns (r: Result<Plan, Error>)
    ensures r.Failure? <==> Matches(recipe, cfg) == []
    ensures r.Failure? ==> r.error == NothingToPour
    ensures r.Success? ==> r.value.steps == Deltas(SortByTime(Matches(recipe, cfg)))
    ensures r.Success? ==> IsMaxTime(r.value.total, Matches(recipe, cfg))
    ensures r.Success? ==> Total(r.value.steps) == r.value.total
    ensures r.Success? ==> |r.value.steps| == |Matches(recipe, cfg)|
    ensures r.Success? ==> forall i :: 0 < i < |r.value.steps| ==> r.value.steps[i].time >= 0.0
  {
    var pumpTimes := CollectPumpTimes(recipe, cfg);
    var sorted := SortByTime(pumpTimes);
    SortByTimeSorted(pumpTimes);
    if |sorted| == 0 {
      return Failure(NothingToPour);
    }
    var totalTime := sorted[|sorted| - 1].time;
    var steps := RelativeTimes(sorted);
    PlanFacts(pumpTimes);
    r := Success(Plan(steps, totalTime));
  }

  // ---------------------------------------------------------------------------
  // Driving the pins (lines 304-310)

  function Pins(s: seq<PumpTime>): seq<int> {
    seq(|s|, i requires 0 <= i < |s| => s[i].pin)
  }

  /** One iteration of the loop over the plan: wait for a positive difference, then stop the pump. */
  function Step(p: PumpTime): seq<Event> {
    (if p.time > 0.0 then [Sleep(p.time)] else []) + [Output([p.pin], High)]
  }

  function StopSteps(d: seq<PumpTime>): seq<Event> {
    if d == [] then [] else Step(d[0]) + StopSteps(d[1..])
  }

  /** Every planned pin to LOW at once, then the stop steps. */
  function PourTrace(d: seq<PumpTime>): seq<Event> {
    [Output(Pins(d), Low)] + StopSteps(d)
  }

  lemma {:induction false} StopStepsAppend(a: seq<PumpTime>, b: seq<PumpTime>)
    ensures StopSteps(a + b) == StopSteps(a) + StopSteps(b)
  {
    if a == [] {
      assert a + b == b;
    } else {
      StopStepsAppend(a[1..], b);
      assert (a + b)[0] == a[0];
      assert (a + b)[1..] == a[1..] + b;
    }
  }

  /** Lines 304-310: start all pumps, then stop them one by one. */
  method Dispense(steps: seq<PumpTime>) returns (events: seq<Event>)
    ensures events == PourTrace(steps)
  {
    events := [Output(Pins(steps), Low)];
    for k := 0 to |steps|
      invariant events == [Output(Pins(steps), Low)] + StopSteps(steps[..k])
    {
      var p := steps[k];
      if p.time > 0.0 {
        events := events + [Sleep(p.time)];
      }
      events := events + [Output([p.pin], High)];
      StopStepsAppend(steps[..k], [p]);
      assert steps[..k + 1] == steps[..k] + [p];
      assert StopSteps([p]) == Step(p);
    }
    assert steps[..|steps|] == steps;
  }

  /**
   * What a trace does over time from `clock`: the pins it stops, each with the
   * time at which it stops them; waits advance the clock.
   */
  function Stops(events: seq<Event>, clock: real): seq<PumpTime> {
    if events == [] then []
    else match events[0]
      case Sleep(t) => Stops(events[1..], clock + t)
      case Output(pins, High) =>
        seq(|pins|, i requires 0 <= i < |pins| => PumpTime(pins[i], clock)) + Stops(events[1..], clock)
      case _ => Stops(events[1..], clock)
  }

  lemma {:induction false} StepsStopAt(s: seq<PumpTime>, base: real)
    requires SortedByTime(s)
    requires s != [] ==> base <= s[0].time
    ensures Stops(StopSteps(Offsets(s, base)), base) == s
    decreases |s|
  {
    if s != [] {
      var o := Offsets(s, base);
      var rest := StopSteps(o[1..]);
      OffsetsTail(s, base);
      assert SortedByTime(s[1..]);
      StepsStopAt(s[1..], s[0].time);
      var high := Output([s[0].pin], High);
      assert seq(1, i requires 0 <= i < 1 => PumpTime([s[0].pin][i], s[0].time)) == [s[0]];
      if o[0].time > 0.0 {
        assert StopSteps(o) == [Sleep(o[0].time), high] + rest;
        assert ([Sleep(o[0].time), high] + rest)[1..] == [high] + rest;
        assert ([high] + rest)[1..] == rest;
        assert base + o[0].time == s[0].time;
      } else {
        assert StopSteps(o) == [high] + rest;
        assert ([high] + rest)[1..] == rest;
      }
      assert s == [s[0]] + s[1..];
    }
  }

  /**
   * Every pump stops at its own planned time: run from time 0, the trace of a
   * sorted plan with non-negative times stops each planned pin, in plan order,
   * at the absolute time of its entry, though the loop only ever waits for
   * differences. Nothing is stopped before the first event has started every
   * planned pump.
   */
  lemma PourStopsAtPlannedTimes(s: seq<PumpTime>)
    requires SortedByTime(s)
    requires forall k :: 0 <= k < |s| ==> s[k].time >= 0.0
    ensures PourTrace(Deltas(s))[0] == Output(Pins(s), Low)
    ensures Stops(PourTrace(Deltas(s)), 0.0) == Stops(StopSteps(Deltas(s)), 0.0) == s
  {
    StepsStopAt(s, 0.0);
    var t := PourTrace(Deltas(s));
    assert t[1..] == StopSteps(Deltas(s));
    assert Pins(Deltas(s)) == Pins(s);
  }

  /** The stop steps switch pins HIGH and wait only for positive differences of the plan; nothing in them switches a pin LOW. */
  lemma {:induction false} StopStepsShape(d: seq<PumpTime>)
    ensures forall e :: e in StopSteps(d) ==>
      (e.Output? && e.level == High && |e.pins| == 1) || (e.Sleep? && e.duration > 0.0)
    ensures forall e :: e in StopSteps(d) && e.Sleep? ==> exists k :: 0 <= k < |d| && d[k].time == e.duration
  {
    if d != [] {
      StopStepsShape(d[1..]);
      forall e | e in StopSteps(d) && e.Sleep?
        ensures exists k :: 0 <= k < |d| && d[k].time == e.duration
      {
        if e in Step(d[0]) {
          assert d[0].time == e.duration;
        } else {
          assert e in StopSteps(d[1..]);
          var k :| 0 <= k < |d[1..]| && d[1..][k].time == e.duration;
          assert d[k + 1].time == e.duration;
        }
      }
    }
  }

  /** The total pumping time of the plan is what the trace waits for, zero differences adding no wait. */
  lemma {:induction false} StopStepsWait(d: seq<PumpTime>)
    requires forall k :: 0 <= k < |d| ==> d[k].time >= 0.0
    ensures Waited(StopSteps(d)) == Total(d)
    decreases |d|
  {
    if d != [] {
      StopStepsWait(d[1..]);
      WaitedAppend(Step(d[0]), StopSteps(d[1..]));
      TotalFront(d);
    }
  }

  /** The sum of all waits of a trace. */
  function Waited(events: seq<Event>): real {
    if events == [] then 0.0
    else (if events[0].Sleep? then events[0].duration else 0.0) + Waited(events[1..])
  }

  lemma {:induction false} WaitedAppend(a: seq<Event>, b: seq<Event>)
    ensures Waited(a + b) == Waited(a) + Waited(b)
  {
    if a == [] {
      assert a + b == b;
    } else {
      WaitedAppend(a[1..], b);
      assert (a + b)[0] == a[0];
      assert (a + b)[1..] == a[1..] + b;
    }
  }

  lemma {:induction false} TotalFront(d: seq<PumpTime>)
    requires d != []
    ensures Total(d) == d[0].time + Total(d[1..])
    decreases |d|
  {
    if |d| > 1 {
      TotalFront(d[..|d| - 1]);
      assert d[..|d| - 1][1..] == d[1..][..|d| - 2];
      assert d[..|d| - 1][0] == d[0];
    } else {
      assert d[..0] == [];
      assert d[1..] == [];
    }
  }

  /** `clean`: all pumps on, ten seconds, all pumps off again. */
  function CleanTrace(pins: seq<int>): (t: seq<Event>)
    ensures Stops(t, 0.0) == seq(|pins|, i requires 0 <= i < |pins| => PumpTime(pins[i], CleanSeconds))
    ensures Waited(t) == CleanSeconds
  {
    var t := [Output(pins, Low), Sleep(CleanSeconds), Output(pins, High)];
    var stopped := seq(|pins|, i requires 0 <= i < |pins| => PumpTime(pins[i], CleanSeconds));
    assert t[1..] == [Sleep(CleanSeconds), Output(pins, High)];
    assert t[1..][1..] == [Output(pins, High)];
    assert t[1..][1..][1..] == [];
    assert Stops(t[1..][1..], CleanSeconds) == stopped + [];
    assert Stops(t[1..], 0.0) == Stops(t[1..][1..], 0.0 + CleanSeconds);
    assert Waited(t[1..][1..]) == 0.0;
    t
  }

  /** The worked example's matches: vodka 45 on pin 5 and soda 90 on pin 6, at 0.6 s per unit. */
  lemma ScrewdriverMatches()
    ensures Matches([Portion("vodka", 45.0), Portion("soda", 90.0)],
                   [Pump("pump_1", "Pump 1", "vodka", 5), Pump("pump_2", "Pump 2", "soda", 6)])
      == [PumpTime(5, 27.0), PumpTime(6, 54.0)]
  {
    var cfg := [Pump("pump_1", "Pump 1", "vodka", 5), Pump("pump_2", "Pump 2", "soda", 6)];
    var recipe := [Portion("vodka", 45.0), Portion("soda", 90.0)];
    assert cfg[..1] == [cfg[0]];
    assert cfg[..1][..0] == [];
    assert recipe[..1] == [recipe[0]];
    assert recipe[..1][..0] == [];
    assert cfg[..1][0] == cfg[0];
    assert PortionTimes(recipe[0], cfg[..1][..0]) == [];
    assert PortionTimes(recipe[0], cfg[..1]) == [PumpTime(5, 27.0)];
    assert PortionTimes(recipe[0], cfg) == [PumpTime(5, 27.0)];
    assert PortionTimes(recipe[1], cfg[..1]) == [];
    assert PortionTimes(recipe[1], cfg) == [PumpTime(6, 54.0)];
    assert Matches(recipe[..1][..0], cfg) == [];
    assert Matches(recipe[..1], cfg) == [PumpTime(5, 27.0)];
  }

  /** The worked example: the pumps start together and stop at 27 s and at 54 s. */
  lemma ScrewdriverPlan()
    ensures var cfg := [Pump("pump_1", "Pump 1", "vodka", 5), Pump("pump_2", "Pump 2", "soda", 6)];
      var recipe := [Portion("vodka", 45.0), Portion("soda", 90.0)];
      var plan := SortByTime(Matches(recipe, cfg));
      && plan == [PumpTime(5, 27.0), PumpTime(6, 54.0)]
      && Deltas(plan) == [PumpTime(5, 27.0), PumpTime(6, 27.0)]
      && PourTrace(Deltas(plan)) ==
           [Output([5, 6], Low), Sleep(27.0), Output([5], High), Sleep(27.0), Output([6], High)]
  {
    ScrewdriverMatches();
    var m := [PumpTime(5, 27.0), PumpTime(6, 54.0)];
    assert m[1..] == [PumpTime(6, 54.0)];
    assert m[1..][1..] == [];
    assert SortByTime(m[1..]) == [PumpTime(6, 54.0)];
    var plan := SortByTime(m);
    assert plan == m;
    var d := Deltas(plan);
    assert d == [PumpTime(5, 27.0), PumpTime(6, 27.0)];
    assert d[1..] == [PumpTime(6, 27.0)];
    assert d[1..][1..] == [];
    assert Step(d[0]) == [Sleep(27.0), Output([5], High)];
    assert StopSteps(d[1..]) == [Sleep(27.0), Output([6], High)] + [];
    assert Pins(d) == [5, 6];
  }
}
