/**
 * Aggregate real-time factors derived from the raw calls and units.
 *
 * The aggregate of a group of calls divides their wall time by the media of their units. It is bounded
 * by the real-time factors the controller reported unit by unit, and for the two-unit calls it is the
 * last arrival of the playback timeline divided by the media that timeline carries.
 */
module BatchResult {
  import opened Basics
  import opened Wrappers
  import opened BatchContracts
  import opened BatchExecution
  import opened BatchMatrix
  import Playback = BatchPlayback
  import Official = BatchOfficial

  // ---------------------------------------------------------------- grouping

  /** The units of call `index`, in order. */
  function UnitsOfCall(units: seq<BatchUnitObservation>, index: int): seq<BatchUnitObservation> {
    if units == [] then []
    else
      var last := units[|units| - 1];
      UnitsOfCall(units[..|units| - 1], index) + (if last.callIndex == index then [last] else [])
  }

  /** The table holds, for every index, the units of that call in order. */
  ghost predicate Tabulates(table: map<int, seq<BatchUnitObservation>>, units: seq<BatchUnitObservation>) {
    forall index {:trigger Lookup(table, index)} :: Lookup(table, index) == UnitsOfCall(units, index)
  }

  method UnitsByCall(units: seq<BatchUnitObservation>) returns (table: map<int, seq<BatchUnitObservation>>)
    ensures Tabulates(table, units)
  {
    table := map[];
    for i := 0 to |units|
      invariant Tabulates(table, units[..i])
    {
      var unit := units[i];
      ghost var before := table;
      table := table[unit.callIndex := Lookup(table, unit.callIndex) + [unit]];
      assert units[..i + 1][..i] == units[..i];
      forall index
        ensures Lookup(table, index) == UnitsOfCall(units[..i + 1], index)
      {
        assert Lookup(before, index) == UnitsOfCall(units[..i], index);
      }
    }
    assert units[..|units|] == units;
  }

  /** The entry of a call; a call without units has none. */
  function Lookup(table: map<int, seq<BatchUnitObservation>>, index: int): seq<BatchUnitObservation> {
    if index in table then table[index] else []
  }

  // ---------------------------------------------------------------- the aggregate

  /** The wall nanoseconds of one call; a call without completion time is skipped, a backward one counts nothing. */
  function CallWall(call: BatchCallObservation): nat {
    if call.completedNanoseconds.None? then 0
    else MaxInt(0, call.completedNanoseconds.value - call.acceptedNanoseconds)
  }

  function UnitMedia(u: BatchUnitObservation): real {
    if u.durationSeconds.Some? then u.durationSeconds.value else 0.0
  }

  function MediaOf(units: seq<BatchUnitObservation>): real {
    if units == [] then 0.0 else MediaOf(units[..|units| - 1]) + UnitMedia(units[|units| - 1])
  }

  function WallTotal(calls: seq<BatchCallObservation>, i: nat): nat
    requires i <= |calls|
    decreases |calls| - i
  {
    if i == |calls| then 0 else CallWall(calls[i]) + WallTotal(calls, i + 1)
  }

  function CallMedia(call: BatchCallObservation, table: map<int, seq<BatchUnitObservation>>): real {
    if call.completedNanoseconds.Some? then MediaOf(Lookup(table, call.callIndex)) else 0.0
  }

  function MediaTotal(calls: seq<BatchCallObservation>, table: map<int, seq<BatchUnitObservation>>, i: nat): real
    requires i <= |calls|
    decreases |calls| - i
  {
    if i == |calls| then 0.0 else CallMedia(calls[i], table) + MediaTotal(calls, table, i + 1)
  }

  function Ratio(wall: int, media: real): (rtf: real)
    ensures wall > 0 && media > 0.0 ==> rtf * media == Seconds(wall)
    ensures wall <= 0 || media <= 0.0 ==> rtf == 0.0
  {
    if wall > 0 && media > 0.0 then Quotient(Seconds(wall), media); Seconds(wall) / media else 0.0
  }

  method AggregateRtf(calls: seq<BatchCallObservation>, table: map<int, seq<BatchUnitObservation>>) returns (rtf: real)
    ensures rtf == Ratio(WallTotal(calls, 0), MediaTotal(calls, table, 0))
  {
    var wall, media := 0, 0.0;
    for i := 0 to |calls|
      invariant WallTotal(calls, 0) == wall + WallTotal(calls, i)
      invariant MediaTotal(calls, table, 0) == media + MediaTotal(calls, table, i)
    {
      var call := calls[i];
      if call.completedNanoseconds.Some? {
        wall := wall + MaxInt(0, call.completedNanoseconds.value - call.acceptedNanoseconds);
        var units := Lookup(table, call.callIndex);
        ghost var before := media;
        for u := 0 to |units|
          invariant media == before + MediaOf(units[..u])
        {
          assert units[..u + 1][..u] == units[..u];
          if units[u].durationSeconds.Some? {
            media := media + units[u].durationSeconds.value;
          }
        }
        assert units[..|units|] == units;
      }
    }
    rtf := Ratio(wall, media);
  }

  // ---------------------------------------------------------------- the observations behind it

  /** The measured calls of one batch size. */
  function CallsOfSize(observations: seq<BatchExecutionObservation>, size: nat, i: nat): seq<BatchCallObservation>
    requires i <= |observations|
    decreases |observations| - i
  {
    if i == |observations| then []
    else
      (if InGroup(observations[i], size) then [observations[i].call] else []) +
      CallsOfSize(observations, size, i + 1)
  }

  predicate InGroup(o: BatchExecutionObservation, size: nat) {
    o.call.phase == BatchPhase.Measured && o.call.batchSize == size
  }

  function AllUnits(observations: seq<BatchExecutionObservation>): seq<BatchUnitObservation> {
    if observations == [] then []
    else AllUnits(observations[..|observations| - 1]) + observations[|observations| - 1].units
  }

  /** Every unit of the observation names its call. */
  ghost predicate NamesItsCall(o: BatchExecutionObservation) {
    forall u :: 0 <= u < |o.units| ==> o.units[u].callIndex == o.call.callIndex
  }

  /** Observations of different calls, each of whose units names its call. */
  ghost predicate Distinguished(observations: seq<BatchExecutionObservation>) {
    && (forall i, j :: 0 <= i < j < |observations| ==> observations[i].call.callIndex != observations[j].call.callIndex)
    && forall i :: 0 <= i < |observations| ==> NamesItsCall(observations[i])
  }

  lemma {:induction false} UnitsOfCallAppend(xs: seq<BatchUnitObservation>, ys: seq<BatchUnitObservation>, index: int)
    ensures UnitsOfCall(xs + ys, index) == UnitsOfCall(xs, index) + UnitsOfCall(ys, index)
  {
    if ys == [] {
      assert xs + ys == xs;
    } else {
      var n := |ys| - 1;
      UnitsOfCallAppend(xs, ys[..n], index);
      assert (xs + ys)[..|xs + ys| - 1] == xs + ys[..n];
    }
  }

  lemma {:induction false} UnitsOfOwnCall(units: seq<BatchUnitObservation>, index: int)
    requires forall u :: 0 <= u < |units| ==> units[u].callIndex == index
    ensures UnitsOfCall(units, index) == units
  {
    if units != [] {
      UnitsOfOwnCall(units[..|units| - 1], index);
    }
  }

  lemma {:induction false} UnitsOfOtherCall(units: seq<BatchUnitObservation>, index: int)
    requires forall u :: 0 <= u < |units| ==> units[u].callIndex != index
    ensures UnitsOfCall(units, index) == []
  {
    if units != [] {
      UnitsOfOtherCall(units[..|units| - 1], index);
    }
  }

  lemma {:induction false} GroupingStep(earlier: seq<BatchUnitObservation>, last: BatchExecutionObservation, index: int)
    requires NamesItsCall(last)
    ensures UnitsOfCall(earlier + last.units, index) ==
      if last.call.callIndex == index then UnitsOfCall(earlier, index) + last.units else UnitsOfCall(earlier, index)
  {
    UnitsOfCallAppend(earlier, last.units, index);
    if last.call.callIndex == index {
      UnitsOfOwnCall(last.units, index);
    } else {
      UnitsOfOtherCall(last.units, index);
    }
    assert UnitsOfCall(earlier, index) + [] == UnitsOfCall(earlier, index);
  }

  lemma {:induction false} OtherCallsHaveNoUnits(observations: seq<BatchExecutionObservation>, index: int)
    requires forall i :: 0 <= i < |observations| ==>
      NamesItsCall(observations[i]) && observations[i].call.callIndex != index
    ensures UnitsOfCall(AllUnits(observations), index) == []
  {
    if observations != [] {
      var n := |observations| - 1;
      OtherCallsHaveNoUnits(observations[..n], index);
      GroupingStep(AllUnits(observations[..n]), observations[n], index);
    }
  }

  lemma {:induction false} FrontDistinguished(observations: seq<BatchExecutionObservation>, n: nat)
    requires Distinguished(observations) && n <= |observations|
    ensures Distinguished(observations[..n])
  {
  }

  lemma {:induction false} NoUnitsBefore(observations: seq<BatchExecutionObservation>, n: nat)
    requires Distinguished(observations) && n < |observations|
    ensures UnitsOfCall(AllUnits(observations[..n]), observations[n].call.callIndex) == []
  {
    var front := observations[..n];
    forall i | 0 <= i < |front|
      ensures NamesItsCall(front[i]) && front[i].call.callIndex != observations[n].call.callIndex
    {
      assert front[i] == observations[i];
    }
    OtherCallsHaveNoUnits(front, observations[n].call.callIndex);
  }

  /** What the last observation adds to the units of call `index`. */
  lemma {:induction false} GroupingOneMore(
    observations: seq<BatchExecutionObservation>, front: seq<BatchExecutionObservation>,
    last: BatchExecutionObservation, index: int)
    requires observations != [] && front == observations[..|observations| - 1]
    requires last == observations[|observations| - 1] && NamesItsCall(last)
    ensures UnitsOfCall(AllUnits(observations), index) ==
      if last.call.callIndex == index then UnitsOfCall(AllUnits(front), index) + last.units
      else UnitsOfCall(AllUnits(front), index)
  {
    GroupingStep(AllUnits(front), last, index);
  }

  lemma {:induction false} GroupingOfLast(observations: seq<BatchExecutionObservation>, n: nat)
    requires Distinguished(observations) && n == |observations| - 1
    ensures UnitsOfCall(AllUnits(observations), observations[n].call.callIndex) == observations[n].units
  {
    NoUnitsBefore(observations, n);
    GroupingOneMore(observations, observations[..n], observations[n], observations[n].call.callIndex);
  }

  /** Grouping by call index recovers exactly the units of each observation. */
  lemma {:induction false} GroupingRecoversUnits(observations: seq<BatchExecutionObservation>, i: nat)
    requires Distinguished(observations) && i < |observations|
    ensures UnitsOfCall(AllUnits(observations), observations[i].call.callIndex) == observations[i].units
    decreases |observations|
  {
    var n := |observations| - 1;
    if i < n {
      FrontDistinguished(observations, n);
      GroupingRecoversUnits(observations[..n], i);
      GroupingOneMore(observations, observations[..n], observations[n], observations[i].call.callIndex);
    } else {
      GroupingOfLast(observations, n);
    }
  }

  // ---------------------------------------------------------------- the bounds

  /** A unit with media whose real-time factor accounts for `wall` seconds. */
  ghost predicate Accounts(u: BatchUnitObservation, wall: real) {
    && u.durationSeconds.Some? && u.requestRtf.Some?
    && u.durationSeconds.value > 0.0
    && u.requestRtf.value * u.durationSeconds.value == wall
  }

  /** A call that published all its units under a clock that did not run backwards. */
  ghost predicate Timely(o: BatchExecutionObservation) {
    && o.call.completedNanoseconds.Some?
    && o.call.completedNanoseconds.value >= o.call.acceptedNanoseconds
    && |o.units| == o.call.batchSize
    && forall u :: 0 <= u < |o.units| ==> Accounts(o.units[u], Seconds(CallWall(o.call)))
  }

  /** What the controller publishes is timely when the clock did not run backwards. */
  lemma {:induction false} PublishedIsTimely(request: BatchGenerationRequest, o: BatchExecutionObservation, first: int)
    requires Mirrors(request, o) && AllPublished(request, o, first)
    requires o.call.completedNanoseconds.value >= o.call.acceptedNanoseconds
    ensures Timely(o) && NamesItsCall(o)
  {
    forall u | 0 <= u < |o.units|
      ensures Accounts(o.units[u], Seconds(CallWall(o.call)))
    {
      assert PublishedAs(
        o.units[u], o.published[u], o.call.completedNanoseconds.value - o.call.acceptedNanoseconds, first + u);
    }
  }

  ghost predicate FactorWithin(u: BatchUnitObservation, low: real, high: real) {
    u.requestRtf.Some? && low <= u.requestRtf.value <= high
  }

  /** Every unit of the observation reports a factor between `low` and `high`. */
  ghost predicate FactorsWithin(o: BatchExecutionObservation, low: real, high: real) {
    forall u :: 0 <= u < |o.units| ==> FactorWithin(o.units[u], low, high)
  }

  /** `count` times the wall time lies between the scaled media. */
  ghost predicate Between(low: real, high: real, media: real, count: real, wall: real) {
    low * media <= count * wall <= high * media
  }

  lemma {:induction false} BetweenOneUnit(u: BatchUnitObservation, wall: real, low: real, high: real)
    requires Accounts(u, wall) && FactorWithin(u, low, high)
    ensures Between(low, high, UnitMedia(u), 1.0, wall)
  {
    var x, d := u.requestRtf.value, u.durationSeconds.value;
    assert (x - low) * d >= 0.0 && (high - x) * d >= 0.0;
  }

  lemma BetweenMoreUnits(low: real, high: real, media: real, count: real, wall: real, d: real)
    requires Between(low, high, media, count, wall) && Between(low, high, d, 1.0, wall)
    ensures Between(low, high, media + d, count + 1.0, wall)
  {
    assert low * (media + d) == low * media + low * d;
    assert high * (media + d) == high * media + high * d;
    assert (count + 1.0) * wall == count * wall + 1.0 * wall;
  }

  lemma BetweenMoreCalls(low: real, high: real, media: real, media': real, count: real, wall: real, wall': real)
    requires Between(low, high, media, count, wall) && Between(low, high, media', count, wall')
    ensures Between(low, high, media + media', count, wall + wall')
  {
    assert low * (media + media') == low * media + low * media';
    assert high * (media + media') == high * media + high * media';
    assert count * (wall + wall') == count * wall + count * wall';
  }

  /** Per call: its wall time, counted once per unit, lies between the scaled media. */
  lemma {:induction false} UnitsBoundWall(units: seq<BatchUnitObservation>, wall: real, low: real, high: real)
    requires forall u :: 0 <= u < |units| ==> Accounts(units[u], wall) && FactorWithin(units[u], low, high)
    ensures Between(low, high, MediaOf(units), |units| as real, wall)
    ensures MediaOf(units) >= 0.0 && (units != [] ==> MediaOf(units) > 0.0)
  {
    if units != [] {
      var n := |units| - 1;
      UnitsBoundWall(units[..n], wall, low, high);
      assert Accounts(units[n], wall);
      BetweenOneUnit(units[n], wall, low, high);
      BetweenMoreUnits(low, high, MediaOf(units[..n]), n as real, wall, UnitMedia(units[n]));
    }
  }

  /** The group's observations are timely, found in the table, and report factors within the bounds. */
  ghost predicate GroupWithin(
    observations: seq<BatchExecutionObservation>, size: nat, table: map<int, seq<BatchUnitObservation>>, low: real,
    high: real)
  {
    forall h :: 0 <= h < |observations| && InGroup(observations[h], size) ==>
      && Timely(observations[h]) && FactorsWithin(observations[h], low, high)
      && Lookup(table, observations[h].call.callIndex) == observations[h].units
  }

  lemma {:induction false} CallBoundsWall(
    o: BatchExecutionObservation, size: nat, table: map<int, seq<BatchUnitObservation>>, low: real, high: real)
    requires InGroup(o, size) && size > 0 && Timely(o) && FactorsWithin(o, low, high)
    requires Lookup(table, o.call.callIndex) == o.units
    ensures Between(low, high, CallMedia(o.call, table), size as real, Seconds(CallWall(o.call)))
    ensures CallMedia(o.call, table) > 0.0
  {
    UnitsBoundWall(o.units, Seconds(CallWall(o.call)), low, high);
  }

  lemma {:induction false} TotalsOfTail(
    call: BatchCallObservation, rest: seq<BatchCallObservation>, table: map<int, seq<BatchUnitObservation>>, i: nat)
    requires i <= |rest|
    ensures WallTotal([call] + rest, i + 1) == WallTotal(rest, i)
    ensures MediaTotal([call] + rest, table, i + 1) == MediaTotal(rest, table, i)
    decreases |rest| - i
  {
    if i < |rest| {
      TotalsOfTail(call, rest, table, i + 1);
    }
  }

  lemma {:induction false} TotalsOfCons(
    call: BatchCallObservation, rest: seq<BatchCallObservation>, table: map<int, seq<BatchUnitObservation>>)
    ensures Seconds(WallTotal([call] + rest, 0)) == Seconds(CallWall(call)) + Seconds(WallTotal(rest, 0))
    ensures MediaTotal([call] + rest, table, 0) == CallMedia(call, table) + MediaTotal(rest, table, 0)
  {
    TotalsOfTail(call, rest, table, 0);
  }

  /** How the totals of the calls from `i` on follow from those of the calls after it. */
  lemma {:induction false} GroupTotals(
    observations: seq<BatchExecutionObservation>, size: nat, table: map<int, seq<BatchUnitObservation>>, i: nat)
    requires i < |observations|
    ensures var calls, rest := CallsOfSize(observations, size, i), CallsOfSize(observations, size, i + 1);
      var call := observations[i].call;
      if InGroup(observations[i], size) then
        && calls != []
        && WallTotal(calls, 0) == CallWall(call) + WallTotal(rest, 0)
        && MediaTotal(calls, table, 0) == CallMedia(call, table) + MediaTotal(rest, table, 0)
      else calls == rest
  {
    var call, rest := observations[i].call, CallsOfSize(observations, size, i + 1);
    if InGroup(observations[i], size) {
      TotalsOfTail(call, rest, table, 0);
    } else {
      assert [] + rest == rest;
    }
  }

  lemma SecondsAdd(x: int, y: int)
    ensures Seconds(x + y) == Seconds(x) + Seconds(y)
  {
  }

  /** The group's total wall time, counted once per unit of a call, lies between the scaled media. */
  lemma {:induction false} GroupBoundsWall(
    observations: seq<BatchExecutionObservation>, size: nat, table: map<int, seq<BatchUnitObservation>>,
    low: real, high: real, i: nat)
    requires i <= |observations| && size > 0 && GroupWithin(observations, size, table, low, high)
    ensures var calls := CallsOfSize(observations, size, i);
      && Between(low, high, MediaTotal(calls, table, 0), size as real, Seconds(WallTotal(calls, 0)))
      && MediaTotal(calls, table, 0) >= 0.0
      && (calls != [] ==> MediaTotal(calls, table, 0) > 0.0)
    decreases |observations| - i
  {
    if i < |observations| {
      var o, rest := observations[i], CallsOfSize(observations, size, i + 1);
      GroupBoundsWall(observations, size, table, low, high, i + 1);
      GroupTotals(observations, size, table, i);
      if InGroup(o, size) {
        CallBoundsWall(o, size, table, low, high);
        SecondsAdd(CallWall(o.call), WallTotal(rest, 0));
        BetweenMoreCalls(low, high, CallMedia(o.call, table), MediaTotal(rest, table, 0), size as real,
                         Seconds(CallWall(o.call)), Seconds(WallTotal(rest, 0)));
      }
    }
  }

  /** `size` times the factor lies between the bounds. */
  ghost predicate ScaledWithin(low: real, size: real, factor: real, high: real) {
    low <= size * factor <= high
  }

  lemma RatioBounds(size: real, wall: nat, media: real, low: real, high: real)
    requires media > 0.0 && Between(low, high, media, size, Seconds(wall))
    ensures ScaledWithin(low, size, Ratio(wall, media), high)
  {
    var ratio := Ratio(wall, media);
    assert ratio * media == Seconds(wall);
    assert size * Seconds(wall) == (size * ratio) * media;
    Cancel(low, size * ratio, media);
    Cancel(size * ratio, high, media);
  }

  lemma Cancel(x: real, y: real, media: real)
    requires media > 0.0 && x * media <= y * media
    ensures x <= y
  {
    assert (y - x) * media >= 0.0;
  }

  lemma {:induction false} TableServesEveryCall(
    observations: seq<BatchExecutionObservation>, table: map<int, seq<BatchUnitObservation>>)
    requires Distinguished(observations) && Tabulates(table, AllUnits(observations))
    ensures forall h :: 0 <= h < |observations| ==>
      Lookup(table, observations[h].call.callIndex) == observations[h].units
  {
    forall h | 0 <= h < |observations|
      ensures Lookup(table, observations[h].call.callIndex) == observations[h].units
    {
      GroupingRecoversUnits(observations, h);
    }
  }

  /**
   * When every measured call of `size` units is complete, `size` times the aggregate real-time factor
   * lies between any bounds of the per-unit factors: between the smallest and the largest for single
   * units, between half the smallest and half the largest for pairs.
   */
  lemma {:induction false} AggregateWithinUnitFactors(
    observations: seq<BatchExecutionObservation>, size: nat, table: map<int, seq<BatchUnitObservation>>,
    low: real, high: real)
    requires Distinguished(observations) && size > 0
    requires Tabulates(table, AllUnits(observations))
    requires forall h :: 0 <= h < |observations| && InGroup(observations[h], size) ==>
      Timely(observations[h]) && FactorsWithin(observations[h], low, high)
    requires CallsOfSize(observations, size, 0) != []
    ensures var calls := CallsOfSize(observations, size, 0);
      ScaledWithin(low, size as real, Ratio(WallTotal(calls, 0), MediaTotal(calls, table, 0)), high)
  {
    TableServesEveryCall(observations, table);
    GroupBoundsWall(observations, size, table, low, high, 0);
    var calls := CallsOfSize(observations, size, 0);
    RatioBounds(size as real, WallTotal(calls, 0), MediaTotal(calls, table, 0), low, high);
  }

  // ---------------------------------------------------------------- the official run

  lemma {:induction false} RunObservedAt(
    requests: seq<BatchGenerationRequest>, i: nat, observations: seq<BatchExecutionObservation>, first: int, h: nat)
    returns (at: int)
    requires i <= |requests| && RunObserved(requests, i, observations, first) && h < |observations|
    ensures i + h < |requests| && ObservationOf(requests[i + h], observations[h], at)
    decreases |requests| - i
  {
    if h == 0 {
      at := first;
    } else {
      at := RunObservedAt(requests, i + 1, observations[1..], first + |observations[0].published|, h - 1);
    }
  }

  /** A run of numbered requests has distinguished observations, and its completed calls are timely. */
  lemma {:induction false} RunIsDistinguished(
    requests: seq<BatchGenerationRequest>, observations: seq<BatchExecutionObservation>, first: int)
    requires RunObserved(requests, 0, observations, first)
    requires forall j :: 0 <= j < |requests| ==> requests[j].callIndex == j
    ensures Distinguished(observations)
    ensures forall h :: 0 <= h < |observations| && Official.CallComplete(observations[h].call) ==>
      Timely(observations[h])
  {
    forall h | 0 <= h < |observations|
      ensures NamesItsCall(observations[h]) && observations[h].call.callIndex == h
      ensures Official.CallComplete(observations[h].call) ==> Timely(observations[h])
    {
      var at := RunObservedAt(requests, 0, observations, first, h);
      if Official.CallComplete(observations[h].call) {
        PublishedIsTimely(requests[h], observations[h], at);
      }
    }
  }

  /** The aggregate of the measured calls of one size in a run of numbered requests. */
  lemma {:induction false} RunAggregateWithinUnitFactors(
    requests: seq<BatchGenerationRequest>, observations: seq<BatchExecutionObservation>, first: int,
    size: nat, table: map<int, seq<BatchUnitObservation>>, low: real, high: real)
    requires RunObserved(requests, 0, observations, first) && size > 0
    requires forall j :: 0 <= j < |requests| ==> requests[j].callIndex == j
    requires Tabulates(table, AllUnits(observations))
    requires forall h :: 0 <= h < |observations| && InGroup(observations[h], size) ==>
      Official.CallComplete(observations[h].call) && FactorsWithin(observations[h], low, high)
    requires CallsOfSize(observations, size, 0) != []
    ensures var calls := CallsOfSize(observations, size, 0);
      ScaledWithin(low, size as real, Ratio(WallTotal(calls, 0), MediaTotal(calls, table, 0)), high)
  {
    RunIsDistinguished(requests, observations, first);
    AggregateWithinUnitFactors(observations, size, table, low, high);
  }

  // ---------------------------------------------------------------- the playback timeline

  /** The unit's reported duration is the duration of its playback arrival. */
  ghost predicate DurationAgrees(u: BatchUnitObservation) {
    u.sampleCount.Some? && u.durationSeconds.Some?
    && u.durationSeconds.value == Playback.Duration(Official.ArrivalOf(u, 0, 0))
  }

  lemma {:induction false} PublishedDurationAgrees(
    u: BatchUnitObservation, output: BatchAudioUnit, wall: int, sequence: int)
    requires PublishedAs(u, output, wall, sequence) && u.sampleRateHz == EXPECTED_SAMPLE_RATE_HZ
    ensures DurationAgrees(u)
  {
    var d := u.durationSeconds.value;
    assert Playback.Duration(Official.ArrivalOf(u, 0, 0)) == output.sampleCount as real / 24_000.0;
  }

  lemma {:induction false} MediaExtends(arrivals: seq<Playback.PlaybackArrival>, next: Playback.PlaybackArrival, i: nat)
    requires i <= |arrivals|
    ensures Playback.Media(arrivals + [next], i) == Playback.Media(arrivals, i)
  {
    if i > 0 {
      MediaExtends(arrivals, next, i - 1);
    }
  }

  lemma {:induction false} MediaOfTail(units: seq<BatchUnitObservation>, u: nat)
    requires u < |units|
    ensures MediaOf(units[u..]) == UnitMedia(units[u]) + MediaOf(units[u + 1..])
    decreases |units| - u
  {
    var n := |units| - 1;
    if u < n {
      MediaOfTail(units[..n], u);
      assert units[u..][..|units[u..]| - 1] == units[..n][u..];
      assert units[u + 1..][..|units[u + 1..]| - 1] == units[..n][u + 1..];
    } else {
      assert units[u..] == [units[u]] && units[u + 1..] == [];
      assert [units[u]][..0] == [];
    }
  }

  /** The arrivals of one call carry its media and come at its completion. */
  lemma {:induction false} UnitArrivalsCarry(
    units: seq<BatchUnitObservation>, u: nat, elapsed: int, arrivals: seq<Playback.PlaybackArrival>)
    requires u <= |units|
    requires forall h :: u <= h < |units| ==> DurationAgrees(units[h])
    ensures var t := Official.UnitArrivals(units, u, elapsed, arrivals);
      t.Some? ==>
        && Playback.Media(t.value, |t.value|) == Playback.Media(arrivals, |arrivals|) + MediaOf(units[u..])
        && Playback.Previous(t.value, |t.value|) ==
           if u < |units| then elapsed else Playback.Previous(arrivals, |arrivals|)
    decreases |units| - u
  {
    if u < |units| && Official.UnitComplete(units[u]) {
      var next := Official.ArrivalOf(units[u], elapsed, |arrivals|);
      UnitArrivalsCarry(units, u + 1, elapsed, arrivals + [next]);
      MediaExtends(arrivals, next, |arrivals|);
      MediaOfTail(units, u);
      assert Playback.Duration(next) == Playback.Duration(Official.ArrivalOf(units[u], 0, 0));
    }
  }

  /** A settled observation reports the durations of its arrivals and is found in the table. */
  ghost predicate Carried(o: BatchExecutionObservation, table: map<int, seq<BatchUnitObservation>>) {
    Official.CallComplete(o.call) ==>
      && |o.units| == o.call.batchSize
      && (forall u :: 0 <= u < |o.units| ==> DurationAgrees(o.units[u]))
      && Lookup(table, o.call.callIndex) == o.units
  }

  /** The timeline ends after the total wall time of the two-unit calls and carries their total media. */
  lemma {:induction false} TimelineCarries(
    observations: seq<BatchExecutionObservation>, i: nat, elapsed: int, arrivals: seq<Playback.PlaybackArrival>,
    table: map<int, seq<BatchUnitObservation>>)
    requires i <= |observations|
    requires forall h :: i <= h < |observations| ==> Carried(observations[h], table)
    requires Playback.Previous(arrivals, |arrivals|) == elapsed
    ensures var t := Official.Timeline(observations, i, elapsed, arrivals);
      var calls := CallsOfSize(observations, 2, i);
      t.Some? ==>
        && Playback.Media(t.value, |t.value|) == Playback.Media(arrivals, |arrivals|) + MediaTotal(calls, table, 0)
        && Playback.Previous(t.value, |t.value|) == elapsed + WallTotal(calls, 0)
    decreases |observations| - i
  {
    if i < |observations| {
      var o := observations[i];
      GroupTotals(observations, 2, table, i);
      if !Official.Relevant(o) {
        TimelineCarries(observations, i + 1, elapsed, arrivals, table);
      } else if Official.CallComplete(o.call) {
        var elapsed' := elapsed + (o.call.completedNanoseconds.value - o.call.acceptedNanoseconds);
        UnitArrivalsCarry(o.units, 0, elapsed', arrivals);
        assert o.units[0..] == o.units;
        var arrivals' := Official.UnitArrivals(o.units, 0, elapsed', arrivals);
        if arrivals'.Some? {
          TimelineCarries(observations, i + 1, elapsed', arrivals'.value, table);
        }
      }
    }
  }

  /**
   * The batch-two aggregate and the playback timeline tell the same story: the aggregate real-time
   * factor is the completion time of the last arrival over the media of the whole timeline.
   */
  lemma {:induction false} AggregateIsTimelineRatio(
    requests: seq<BatchGenerationRequest>, observations: seq<BatchExecutionObservation>, first: int,
    table: map<int, seq<BatchUnitObservation>>)
    requires RunObserved(requests, 0, observations, first)
    requires forall j :: 0 <= j < |requests| ==> requests[j].callIndex == j
    requires Tabulates(table, AllUnits(observations))
    ensures var t := Official.Timeline(observations, 0, 0, []);
      var calls := CallsOfSize(observations, 2, 0);
      t.Some? ==>
        && Playback.Media(t.value, |t.value|) == MediaTotal(calls, table, 0)
        && Playback.Previous(t.value, |t.value|) == WallTotal(calls, 0)
        && Ratio(WallTotal(calls, 0), MediaTotal(calls, table, 0)) ==
           Ratio(Playback.Previous(t.value, |t.value|), Playback.Media(t.value, |t.value|))
  {
    RunIsCarried(requests, observations, first, table);
    TimelineCarries(observations, 0, 0, [], table);
  }

  lemma {:induction false} RunIsCarried(
    requests: seq<BatchGenerationRequest>, observations: seq<BatchExecutionObservation>, first: int,
    table: map<int, seq<BatchUnitObservation>>)
    requires RunObserved(requests, 0, observations, first)
    requires forall j :: 0 <= j < |requests| ==> requests[j].callIndex == j
    requires Tabulates(table, AllUnits(observations))
    ensures forall h :: 0 <= h < |observations| ==> Carried(observations[h], table)
  {
    RunIsDistinguished(requests, observations, first);
    TableServesEveryCall(observations, table);
    forall h | 0 <= h < |observations|
      ensures Carried(observations[h], table)
    {
      if Official.CallComplete(observations[h].call) {
        SettledDurationsAgree(requests, observations, first, h);
      }
    }
  }

  lemma {:induction false} SettledDurationsAgree(
    requests: seq<BatchGenerationRequest>, observations: seq<BatchExecutionObservation>, first: int, h: nat)
    requires RunObserved(requests, 0, observations, first) && h < |observations|
    requires Official.CallComplete(observations[h].call)
    ensures |observations[h].units| == observations[h].call.batchSize
    ensures forall u :: 0 <= u < |observations[h].units| ==> DurationAgrees(observations[h].units[u])
  {
    var o := observations[h];
    var at := RunObservedAt(requests, 0, observations, first, h);
    forall u | 0 <= u < |o.units|
      ensures DurationAgrees(o.units[u])
    {
      var wall := o.call.completedNanoseconds.value - o.call.acceptedNanoseconds;
      assert PublishedAs(o.units[u], o.published[u], wall, at + u);
      PublishedDurationAgrees(o.units[u], o.published[u], wall, at + u);
    }
  }

  // ---------------------------------------------------------------- totals of any run, complete or not

  /** The seconds of the published outputs. */
  function PublishedSeconds(outputs: seq<BatchAudioUnit>): real {
    if outputs == [] then 0.0
    else PublishedSeconds(outputs[..|outputs| - 1]) + outputs[|outputs| - 1].sampleCount as real / 24_000.0
  }

  /** Elapsed nanoseconds of the measured calls of this size from `i` on that have a later completion time. */
  function ElapsedOf(observations: seq<BatchExecutionObservation>, size: nat, i: nat): nat
    requires i <= |observations|
    decreases |observations| - i
  {
    if i == |observations| then 0
    else
      var call := observations[i].call;
      (if call.phase == BatchPhase.Measured && call.batchSize == size && call.completedNanoseconds.Some?
          && call.completedNanoseconds.value > call.acceptedNanoseconds
       then call.completedNanoseconds.value - call.acceptedNanoseconds else 0) + ElapsedOf(observations, size, i + 1)
  }

  /** Seconds published by the measured calls of this size from `i` on. */
  function MediaPublished(observations: seq<BatchExecutionObservation>, size: nat, i: nat): real
    requires i <= |observations|
    decreases |observations| - i
  {
    if i == |observations| then 0.0
    else
      var o := observations[i];
      (if o.call.phase == BatchPhase.Measured && o.call.batchSize == size then PublishedSeconds(o.published) else 0.0) +
      MediaPublished(observations, size, i + 1)
  }

  lemma {:induction false} MediaOfPublished(units: seq<BatchUnitObservation>, outputs: seq<BatchAudioUnit>)
    requires |units| == |outputs|
    requires forall u :: 0 <= u < |units| ==>
      units[u].durationSeconds.Some? && units[u].durationSeconds.value * 24_000.0 == outputs[u].sampleCount as real
    ensures MediaOf(units) == PublishedSeconds(outputs)
  {
    if units != [] {
      MediaOfPublished(units[..|units| - 1], outputs[..|outputs| - 1]);
    }
  }

  lemma {:induction false} MediaOfNothing(units: seq<BatchUnitObservation>)
    requires forall u :: 0 <= u < |units| ==> units[u].durationSeconds == None
    ensures MediaOf(units) == 0.0
  {
    if units != [] {
      MediaOfNothing(units[..|units| - 1]);
    }
  }

  /** The reported media of a call is what it published. */
  lemma {:induction false} ReportedMedia(request: BatchGenerationRequest, o: BatchExecutionObservation, first: int)
    requires ObservationOf(request, o, first)
    ensures (if o.call.completedNanoseconds.Some? then MediaOf(o.units) else 0.0) == PublishedSeconds(o.published)
  {
    if AllPublished(request, o, first) {
      forall u | 0 <= u < |o.units|
        ensures o.units[u].durationSeconds.Some?
        ensures o.units[u].durationSeconds.value * 24_000.0 == o.published[u].sampleCount as real
      {
        assert PublishedAs(
          o.units[u], o.published[u], o.call.completedNanoseconds.value - o.call.acceptedNanoseconds, first + u);
      }
      MediaOfPublished(o.units, o.published);
    } else {
      MediaOfNothing(o.units);
    }
  }

  /** The media looked up for a call is what it published. */
  ghost predicate MediaFound(o: BatchExecutionObservation, table: map<int, seq<BatchUnitObservation>>) {
    CallMedia(o.call, table) == PublishedSeconds(o.published)
  }

  lemma {:induction false} RunMediaFound(
    requests: seq<BatchGenerationRequest>, observations: seq<BatchExecutionObservation>, first: int,
    table: map<int, seq<BatchUnitObservation>>, h: nat)
    requires RunObserved(requests, 0, observations, first) && h < |observations|
    requires Lookup(table, observations[h].call.callIndex) == observations[h].units
    ensures MediaFound(observations[h], table)
  {
    var at := RunObservedAt(requests, 0, observations, first, h);
    ReportedMedia(requests[h], observations[h], at);
  }

  lemma {:induction false} WallFrom(observations: seq<BatchExecutionObservation>, size: nat, i: nat)
    requires i <= |observations|
    ensures WallTotal(CallsOfSize(observations, size, i), 0) == ElapsedOf(observations, size, i)
    decreases |observations| - i
  {
    if i < |observations| {
      WallFrom(observations, size, i + 1);
      GroupTotals(observations, size, map[], i);
    }
  }

  lemma {:induction false} MediaFrom(
    observations: seq<BatchExecutionObservation>, size: nat, table: map<int, seq<BatchUnitObservation>>, i: nat)
    requires i <= |observations|
    requires forall h :: i <= h < |observations| ==> MediaFound(observations[h], table)
    ensures MediaTotal(CallsOfSize(observations, size, i), table, 0) == MediaPublished(observations, size, i)
    decreases |observations| - i
  {
    if i < |observations| {
      MediaFrom(observations, size, table, i + 1);
      GroupTotals(observations, size, table, i);
      assert MediaFound(observations[i], table);
    }
  }

  /**
   * Whatever fails in a run: the wall time behind an aggregate is that of all its calls with a completion
   * time, failed ones included, and the media is exactly what was published.
   */
  lemma {:induction false} TotalsOfRun(
    requests: seq<BatchGenerationRequest>, observations: seq<BatchExecutionObservation>, first: int, size: nat,
    table: map<int, seq<BatchUnitObservation>>)
    requires RunObserved(requests, 0, observations, first)
    requires forall j :: 0 <= j < |requests| ==> requests[j].callIndex == j
    requires Tabulates(table, AllUnits(observations))
    ensures var calls := CallsOfSize(observations, size, 0);
      && WallTotal(calls, 0) == ElapsedOf(observations, size, 0)
      && MediaTotal(calls, table, 0) == MediaPublished(observations, size, 0)
  {
    RunIsDistinguished(requests, observations, first);
    TableServesEveryCall(observations, table);
    forall h | 0 <= h < |observations|
      ensures MediaFound(observations[h], table)
    {
      RunMediaFound(requests, observations, first, table, h);
    }
    WallFrom(observations, size, 0);
    MediaFrom(observations, size, table, 0);
  }

  // ---------------------------------------------------------------- the timeline, arrival by arrival

  /** The calls that playback covers: measured ones of two units. */
  function PlayedBack(observations: seq<BatchExecutionObservation>, i: nat): seq<BatchExecutionObservation>
    requires i <= |observations|
    decreases |observations| - i
  {
    if i == |observations| then []
    else
      var call := observations[i].call;
      (if call.phase == BatchPhase.Measured && call.batchSize == 2 then [observations[i]] else []) +
      PlayedBack(observations, i + 1)
  }

  /** The wall time of the first `count` calls, one after the other. */
  function ElapsedAfter(played: seq<BatchExecutionObservation>, count: nat): int
    requires count <= |played|
  {
    if count == 0 then 0
    else
      var call := played[count - 1].call;
      ElapsedAfter(played, count - 1) +
      if call.completedNanoseconds.Some? then call.completedNanoseconds.value - call.acceptedNanoseconds else 0
  }

  /** Both units of call `c` arrive when all calls up to it have run, numbered by their position. */
  ghost predicate ArrivesWith(
    played: seq<BatchExecutionObservation>, c: nat, u: nat, arrival: Playback.PlaybackArrival)
    requires c < |played|
  {
    && u < |played[c].published|
    && arrival.completionNanoseconds == ElapsedAfter(played, c + 1)
    && arrival.publishedSequence == 2 * c + u
    && arrival.sampleCount == played[c].published[u].sampleCount
    && arrival.sampleRateHz == 24_000 && !arrival.stale
  }

  /** The arrivals of the first `count` calls. */
  ghost predicate Arrivals(
    played: seq<BatchExecutionObservation>, count: nat, arrivals: seq<Playback.PlaybackArrival>)
    requires count <= |played|
  {
    && |arrivals| == 2 * count
    && forall k: nat :: k < |arrivals| ==> ArrivesWith(played, k / 2, k % 2, arrivals[k])
  }

  /** A completed call of two units as the controller reports it. */
  ghost predicate PairPublished(o: BatchExecutionObservation) {
    Official.CallComplete(o.call) ==>
      && |o.units| == |o.published| == 2
      && forall u :: 0 <= u < 2 ==>
           o.units[u].sampleCount == Some(o.published[u].sampleCount) && o.units[u].sampleRateHz == 24_000
  }

  lemma {:induction false} PairArrivals(
    units: seq<BatchUnitObservation>, elapsed: int, arrivals: seq<Playback.PlaybackArrival>)
    requires |units| == 2 && Official.UnitArrivals(units, 0, elapsed, arrivals).Some?
    ensures units[0].sampleCount.Some? && units[1].sampleCount.Some?
    ensures Official.UnitArrivals(units, 0, elapsed, arrivals).value ==
      arrivals +
      [Official.ArrivalOf(units[0], elapsed, |arrivals|), Official.ArrivalOf(units[1], elapsed, |arrivals| + 1)]
  {
    var one := arrivals + [Official.ArrivalOf(units[0], elapsed, |arrivals|)];
    assert Official.UnitArrivals(units, 1, elapsed, one).value ==
      Official.UnitArrivals(units, 2, elapsed, one + [Official.ArrivalOf(units[1], elapsed, |arrivals| + 1)]).value;
  }

  lemma {:induction false} ArrivalsGrow(
    played: seq<BatchExecutionObservation>, count: nat, arrivals: seq<Playback.PlaybackArrival>,
    first: Playback.PlaybackArrival, second: Playback.PlaybackArrival)
    requires count < |played| && Arrivals(played, count, arrivals)
    requires ArrivesWith(played, count, 0, first) && ArrivesWith(played, count, 1, second)
    ensures Arrivals(played, count + 1, arrivals + [first, second])
  {
    var longer := arrivals + [first, second];
    forall k: nat | k < |longer|
      ensures ArrivesWith(played, k / 2, k % 2, longer[k])
    {
      if k < |arrivals| {
        assert longer[k] == arrivals[k];
      }
    }
  }

  lemma {:induction false} TimelineLists(
    observations: seq<BatchExecutionObservation>, i: nat, elapsed: int, arrivals: seq<Playback.PlaybackArrival>,
    played: seq<BatchExecutionObservation>, count: nat)
    requires i <= |observations| && count <= |played| && played[count..] == PlayedBack(observations, i)
    requires forall h :: 0 <= h < |played| ==> PairPublished(played[h])
    requires elapsed == ElapsedAfter(played, count) && Arrivals(played, count, arrivals)
    ensures Official.Timeline(observations, i, elapsed, arrivals).Some? ==>
      Arrivals(played, |played|, Official.Timeline(observations, i, elapsed, arrivals).value)
    decreases |observations| - i
  {
    if i < |observations| {
      var o := observations[i];
      if !Official.Relevant(o) {
        assert [] + PlayedBack(observations, i + 1) == PlayedBack(observations, i + 1);
        TimelineLists(observations, i + 1, elapsed, arrivals, played, count);
      } else if Official.CallComplete(o.call) {
        assert played[count..][0] == o && played[count..][1..] == played[count + 1..];
        assert played[count] == o && PairPublished(played[count]);
        var elapsed' := elapsed + (o.call.completedNanoseconds.value - o.call.acceptedNanoseconds);
        var arrivals' := Official.UnitArrivals(o.units, 0, elapsed', arrivals);
        if arrivals'.Some? {
          PairArrivals(o.units, elapsed', arrivals);
          ArrivalsGrow(played, count, arrivals, Official.ArrivalOf(o.units[0], elapsed', |arrivals|),
            Official.ArrivalOf(o.units[1], elapsed', |arrivals| + 1));
          TimelineLists(observations, i + 1, elapsed', arrivals'.value, played, count + 1);
        }
      }
    }
  }

  lemma {:induction false} PlayedBackOnly(observations: seq<BatchExecutionObservation>, i: nat)
    requires i <= |observations|
    ensures forall o :: o in PlayedBack(observations, i) ==> o in observations && Official.Relevant(o)
    decreases |observations| - i
  {
    if i < |observations| {
      PlayedBackOnly(observations, i + 1);
    }
  }

  lemma {:induction false} ObservedPair(request: BatchGenerationRequest, o: BatchExecutionObservation, first: int)
    requires ObservationOf(request, o, first) && Official.Relevant(o)
    ensures PairPublished(o)
  {
    if Official.CallComplete(o.call) {
      forall u | 0 <= u < 2
        ensures o.units[u].sampleCount == Some(o.published[u].sampleCount)
      {
        assert PublishedAs(
          o.units[u], o.published[u], o.call.completedNanoseconds.value - o.call.acceptedNanoseconds, first + u);
      }
    }
  }

  /**
   * The timeline of a run, if there is one, lists the published units of its measured two-unit calls in
   * order: both units of a call arrive together, when all such calls up to it have run.
   */
  lemma {:induction false} TimelineOfRun(
    requests: seq<BatchGenerationRequest>, observations: seq<BatchExecutionObservation>, first: int)
    requires RunObserved(requests, 0, observations, first)
    ensures var t, played := Official.Timeline(observations, 0, 0, []), PlayedBack(observations, 0);
      t.Some? ==> Arrivals(played, |played|, t.value)
  {
    var played := PlayedBack(observations, 0);
    PlayedBackOnly(observations, 0);
    forall h | 0 <= h < |played|
      ensures PairPublished(played[h])
    {
      assert played[h] in observations;
      var j :| 0 <= j < |observations| && observations[j] == played[h];
      var at := RunObservedAt(requests, 0, observations, first, j);
      ObservedPair(requests[j], observations[j], at);
    }
    assert played[0..] == played;
    TimelineLists(observations, 0, 0, [], played, 0);
  }

  /** A measured request of two units whose call failed or whose clock ran backwards. */
  ghost predicate CutsPlayback(request: BatchGenerationRequest, o: BatchExecutionObservation) {
    && request.phase == BatchPhase.Measured && |request.units| == 2
    && (o.call.failureCode.Some? || o.call.completedNanoseconds.None?
        || o.call.completedNanoseconds.value < o.call.acceptedNanoseconds)
  }

  lemma {:induction false} IncompletePair(request: BatchGenerationRequest, o: BatchExecutionObservation, first: int)
    requires ObservationOf(request, o, first)
    ensures Official.Relevant(o) && !Official.Complete(o) <==> CutsPlayback(request, o)
  {
    if AllPublished(request, o, first) {
      forall u | 0 <= u < |o.units|
        ensures Official.UnitComplete(o.units[u])
      {
        assert PublishedAs(
          o.units[u], o.published[u], o.call.completedNanoseconds.value - o.call.acceptedNanoseconds, first + u);
      }
    }
  }

  /**
   * Playback of a run is incomplete if and only if some measured request of two units failed or was timed
   * by a clock that ran backwards.
   */
  lemma {:induction false} PlaybackIncompleteIff(
    requests: seq<BatchGenerationRequest>, observations: seq<BatchExecutionObservation>, first: int)
    requires RunObserved(requests, 0, observations, first) && |observations| == |requests|
    ensures Official.Timeline(observations, 0, 0, []).None? <==>
      exists h :: 0 <= h < |observations| && CutsPlayback(requests[h], observations[h])
  {
    Official.TimelineExistsIffComplete(observations, 0, 0, []);
    forall h | 0 <= h < |observations|
      ensures Official.Relevant(observations[h]) && !Official.Complete(observations[h]) <==>
        CutsPlayback(requests[h], observations[h])
    {
      var at := RunObservedAt(requests, 0, observations, first, h);
      IncompletePair(requests[h], observations[h], at);
    }
  }

  // ---------------------------------------------------------------- the official run of a frozen order

  /** The requests of an accepted authority. */
  function FrozenOrder(authority: Authority, identity: BatchWorkIdentity): (requests: seq<BatchGenerationRequest>)
    requires AuthorityError(authority) == None
    ensures forall j :: 0 <= j < |requests| ==> requests[j].callIndex == j
  {
    Requests(UnitTable(authority.units), identity, AllSlots(authority))
  }

  /** What an official run of an accepted authority observes. */
  function OfficialObservations(
    authority: Authority, identity: BatchWorkIdentity, around: seq<Official.Surroundings>
  ): seq<BatchExecutionObservation>
    requires AuthorityError(authority) == None && |around| == |FrozenOrder(authority, identity)|
  {
    Official.OfficialOf(INITIAL, None, FrozenOrder(authority, identity), around, 0).1
  }

  /** The measured calls of one size have all completed, with unit factors within the bounds. */
  ghost predicate CompleteWithin(observations: seq<BatchExecutionObservation>, size: nat, low: real, high: real) {
    && CallsOfSize(observations, size, 0) != []
    && forall h :: 0 <= h < |observations| && InGroup(observations[h], size) ==>
         Official.CallComplete(observations[h].call) && FactorsWithin(observations[h], low, high)
  }

  /**
   * Whatever candidates, hooks, clocks, the memory monitor and the worker do in an official run of an
   * accepted authority: the aggregate of a complete batch size lies within the scaled bounds of its unit
   * factors, and the batch-two aggregate is that of the playback timeline, if there is one.
   */
  lemma {:induction false} OfficialAggregates(
    authority: Authority, identity: BatchWorkIdentity, around: seq<Official.Surroundings>,
    table: map<int, seq<BatchUnitObservation>>, size: nat, low: real, high: real)
    requires AuthorityError(authority) == None && |around| == |FrozenOrder(authority, identity)| && size > 0
    requires Tabulates(table, AllUnits(OfficialObservations(authority, identity, around)))
    ensures var observations := OfficialObservations(authority, identity, around);
      var calls := CallsOfSize(observations, size, 0);
      CompleteWithin(observations, size, low, high) ==>
        ScaledWithin(low, size as real, Ratio(WallTotal(calls, 0), MediaTotal(calls, table, 0)), high)
    ensures var observations := OfficialObservations(authority, identity, around);
      var calls := CallsOfSize(observations, 2, 0);
      var t := Official.Timeline(observations, 0, 0, []);
      t.Some? ==>
        Ratio(WallTotal(calls, 0), MediaTotal(calls, table, 0)) ==
        Ratio(Playback.Previous(t.value, |t.value|), Playback.Media(t.value, |t.value|))
  {
    var requests := FrozenOrder(authority, identity);
    var observations := OfficialObservations(authority, identity, around);
    Official.OfficialRunAnswersRequests(INITIAL, None, requests, around, 0);
    AggregateIsTimelineRatio(requests, observations, INITIAL.sequence, table);
    if CompleteWithin(observations, size, low, high) {
      RunAggregateWithinUnitFactors(requests, observations, INITIAL.sequence, size, table, low, high);
    }
  }
}
