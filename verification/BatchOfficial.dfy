/**
 * The official run: requests in order, a terminal code that ends real execution, and the playback
 * timeline built from the observations.
 */
module BatchOfficial {
  import opened Wrappers
  import opened BatchContracts
  import opened BatchExecution
  import opened BatchPlayback
  import opened BatchMatrix

  // ---------------------------------------------------------------- the run

  /** What surrounds one call: its script, the memory monitor, the worker and the clock. */
  datatype Surroundings = Surroundings(
    script: CallScript,
    cancelledForMemory: bool,
    memoryStop: bool,
    workerAlive: bool,
    recordedAt: int)

  /** The record of a request that was not completed by the controller. */
  function FailedObservation(
    request: BatchGenerationRequest, recordedAt: int, code: FailureCode
  ): BatchExecutionObservation {
    BatchExecutionObservation(
      CallOf(request, recordedAt, Some(recordedAt), CallFailed, Some(code)),
      seq(|request.units|, i requires 0 <= i < |request.units| => FailedUnit(request, i, UnitFailed, code)),
      [], 0, 1, NO_RESOURCES)
  }

  /** One call with its errors contained: what the controller raises becomes a failed observation. */
  function Contained(
    request: BatchGenerationRequest, outcome: Outcome, around: Surroundings
  ): BatchExecutionObservation {
    match outcome
    case Observed(observation) => observation
    case Raised(_) =>
      FailedObservation(request, around.recordedAt,
        if around.cancelledForMemory then ResourceLimit else GenerationFailed)
  }

  /** The code after which no further call is executed. */
  function TerminalCode(observation: BatchExecutionObservation, around: Surroundings): Option<FailureCode> {
    var code := observation.call.failureCode;
    if around.memoryStop then Some(ResourceLimit)
    else if code == Some(OutOfMemory) || code == Some(Timeout) || !around.workerAlive then
      Some(if code.Some? then code.value else GenerationFailed)
    else None
  }

  /** The observations of the requests from `i` on. */
  function OfficialOf(
    s: Controller, terminal: Option<FailureCode>, requests: seq<BatchGenerationRequest>, around: seq<Surroundings>,
    i: nat
  ): (Controller, seq<BatchExecutionObservation>)
    requires |requests| == |around| && i <= |requests|
    decreases |requests| - i
  {
    if i == |requests| then (s, [])
    else if terminal.Some? then
      var (final, rest) := OfficialOf(s, terminal, requests, around, i + 1);
      (final, [FailedObservation(requests[i], around[i].recordedAt, terminal.value)] + rest)
    else
      var (s', outcome) := ExecutionOf(s, requests[i], around[i].script);
      var observation := Contained(requests[i], outcome, around[i]);
      var (final, rest) := OfficialOf(s', TerminalCode(observation, around[i]), requests, around, i + 1);
      (final, [observation] + rest)
  }

  method ExecuteOfficial(
    controller: BoundedOrderedBatchController, requests: seq<BatchGenerationRequest>, around: seq<Surroundings>)
    returns (observations: seq<BatchExecutionObservation>)
    requires |requests| == |around|
    modifies controller, controller.identityGate
    ensures (controller.Model(), observations) == OfficialOf(old(controller.Model()), None, requests, around, 0)
  {
    observations := [];
    var terminal: Option<FailureCode> := None;
    ghost var s := controller.Model();
    ghost var planned := OfficialOf(s, None, requests, around, 0).1;
    assert [] + planned == planned;
    for i := 0 to |requests|
      invariant var (final, rest) := OfficialOf(controller.Model(), terminal, requests, around, i);
        OfficialOf(s, None, requests, around, 0) == (final, observations + rest)
    {
      var observation: BatchExecutionObservation;
      if terminal.Some? {
        observation := FailedObservation(requests[i], around[i].recordedAt, terminal.value);
      } else {
        var outcome := controller.Execute(requests[i], around[i].script);
        observation := Contained(requests[i], outcome, around[i]);
        terminal := TerminalCode(observation, around[i]);
      }
      ghost var rest := OfficialOf(controller.Model(), terminal, requests, around, i + 1).1;
      assert observations + ([observation] + rest) == (observations + [observation]) + rest;
      observations := observations + [observation];
    }
    assert observations + [] == observations;
  }

  /** The record of a failure that the runner itself writes: everything failed, at one moment. */
  ghost predicate RecordedFailed(o: BatchExecutionObservation, recordedAt: int, code: FailureCode) {
    && o.call.failureCode == Some(code) && o.call.status == CallFailed
    && o.call.acceptedNanoseconds == recordedAt && o.call.completedNanoseconds == Some(recordedAt)
    && o.resourcePeak == BatchResourceSnapshot(0, 0, 0, 0, 0)
    && forall i :: 0 <= i < |o.units| ==> o.units[i].status == UnitFailed && o.units[i].failureCode == Some(code)
  }

  lemma {:induction false} FailedObservationLaw(request: BatchGenerationRequest, recordedAt: int, code: FailureCode)
    ensures var o := FailedObservation(request, recordedAt, code);
      && Mirrors(request, o) && NothingPublished(o)
      && RecordedFailed(o, recordedAt, code)
  {
  }

  /** A contained call answers its request, whether it returned an observation or raised. */
  lemma {:induction false} ContainedIsObserved(s: Controller, request: BatchGenerationRequest, around: Surroundings)
    ensures var (s', outcome) := ExecutionOf(s, request, around.script);
      var o := Contained(request, outcome, around);
      ObservationOf(request, o, s.sequence) && s'.sequence == s.sequence + |o.published|
  {
    PublicationIsAllOrNothing(s, request, around.script);
    var outcome := ExecutionOf(s, request, around.script).1;
    if outcome.Raised? {
      var o := Contained(request, outcome, around);
      FailedObservationLaw(request, around.recordedAt, o.call.failureCode.value);
    }
  }

  /** The observations answer all requests from `i` on and publish the numbers from `first` to `final`. */
  ghost predicate AnswersAll(
    requests: seq<BatchGenerationRequest>, i: nat, first: int, final: int, observations: seq<BatchExecutionObservation>)
    requires i <= |requests|
  {
    && RunObserved(requests, i, observations, first)
    && |observations| == |requests| - i
    && final == first + PublishedTotal(observations)
  }

  lemma {:induction false} AnswersOneMore(
    requests: seq<BatchGenerationRequest>, i: nat, o: BatchExecutionObservation, first: int, final: int,
    rest: seq<BatchExecutionObservation>)
    requires i < |requests| && ObservationOf(requests[i], o, first)
    requires AnswersAll(requests, i + 1, first + |o.published|, final, rest)
    ensures AnswersAll(requests, i, first, final, [o] + rest)
  {
    ObservedFirst(requests, i, o, rest, first);
  }

  /** A request after the terminal code. */
  lemma {:induction false} TerminalStep(
    s: Controller, code: FailureCode, requests: seq<BatchGenerationRequest>, around: seq<Surroundings>, i: nat)
    requires |requests| == |around| && i < |requests|
    ensures var (final, rest) := OfficialOf(s, Some(code), requests, around, i + 1);
      OfficialOf(s, Some(code), requests, around, i) ==
        (final, [FailedObservation(requests[i], around[i].recordedAt, code)] + rest)
  {
  }

  /** A request that is handed to the controller. */
  lemma {:induction false} CallStep(
    s: Controller, requests: seq<BatchGenerationRequest>, around: seq<Surroundings>, i: nat, s': Controller,
    o: BatchExecutionObservation)
    requires |requests| == |around| && i < |requests|
    requires s' == ExecutionOf(s, requests[i], around[i].script).0
    requires o == Contained(requests[i], ExecutionOf(s, requests[i], around[i].script).1, around[i])
    ensures var (final, rest) := OfficialOf(s', TerminalCode(o, around[i]), requests, around, i + 1);
      OfficialOf(s, None, requests, around, i) == (final, [o] + rest)
  {
  }

  /** Every request gets exactly its own observation, and the numbers published over the run are consecutive. */
  lemma {:induction false} OfficialRunAnswersRequests(
    s: Controller, terminal: Option<FailureCode>, requests: seq<BatchGenerationRequest>, around: seq<Surroundings>,
    i: nat)
    requires |requests| == |around| && i <= |requests|
    ensures var (final, observations) := OfficialOf(s, terminal, requests, around, i);
      AnswersAll(requests, i, s.sequence, final.sequence, observations)
    decreases |requests| - i, 1
  {
    if i < |requests| {
      if terminal.Some? {
        var o := FailedObservation(requests[i], around[i].recordedAt, terminal.value);
        FailedObservationLaw(requests[i], around[i].recordedAt, terminal.value);
        OfficialRunAnswersRequests(s, terminal, requests, around, i + 1);
        TerminalStep(s, terminal.value, requests, around, i);
        var (final, rest) := OfficialOf(s, terminal, requests, around, i + 1);
        AnswersOneMore(requests, i, o, s.sequence, final.sequence, rest);
      } else {
        CallAnswersRequest(s, requests, around, i);
      }
    }
  }

  lemma {:induction false} CallAnswersRequest(
    s: Controller, requests: seq<BatchGenerationRequest>, around: seq<Surroundings>, i: nat)
    requires |requests| == |around| && i < |requests|
    ensures var (final, observations) := OfficialOf(s, None, requests, around, i);
      AnswersAll(requests, i, s.sequence, final.sequence, observations)
    decreases |requests| - i, 0
  {
    var (s', outcome) := ExecutionOf(s, requests[i], around[i].script);
    var o := Contained(requests[i], outcome, around[i]);
    ContainedIsObserved(s, requests[i], around[i]);
    OfficialRunAnswersRequests(s', TerminalCode(o, around[i]), requests, around, i + 1);
    CallStep(s, requests, around, i, s', o);
    var (final, rest) := OfficialOf(s', TerminalCode(o, around[i]), requests, around, i + 1);
    AnswersOneMore(requests, i, o, s.sequence, final.sequence, rest);
  }

  /** How many of the requests from `i` on are handed to the controller. */
  function Executed(s: Controller, requests: seq<BatchGenerationRequest>, around: seq<Surroundings>, i: nat): nat
    requires |requests| == |around| && i <= |requests|
    decreases |requests| - i
  {
    if i == |requests| then 0
    else
      var (s', outcome) := ExecutionOf(s, requests[i], around[i].script);
      if TerminalCode(Contained(requests[i], outcome, around[i]), around[i]).Some? then 1
      else 1 + Executed(s', requests, around, i + 1)
  }

  lemma {:induction false} TerminalRunFailsEverything(
    s: Controller, code: FailureCode, requests: seq<BatchGenerationRequest>, around: seq<Surroundings>, i: nat)
    requires |requests| == |around| && i <= |requests|
    ensures var (final, observations) := OfficialOf(s, Some(code), requests, around, i);
      && final == s && |observations| == |requests| - i
      && forall j :: 0 <= j < |observations| ==>
           observations[j] == FailedObservation(requests[i + j], around[i + j].recordedAt, code)
    decreases |requests| - i
  {
    if i < |requests| {
      TerminalRunFailsEverything(s, code, requests, around, i + 1);
      var rest := OfficialOf(s, Some(code), requests, around, i + 1).1;
      forall j | 0 <= j < |rest| + 1
        ensures ([FailedObservation(requests[i], around[i].recordedAt, code)] + rest)[j] ==
          FailedObservation(requests[i + j], around[i + j].recordedAt, code)
      {
        if j > 0 {
          assert requests[i + j] == requests[i + 1 + (j - 1)] && around[i + j] == around[i + 1 + (j - 1)];
        }
      }
    }
  }

  /**
   * Real execution of the requests from `i` on stops after `c` calls: before that no observation is
   * terminal, and if requests are left over, the last executed one is terminal and every later request
   * is recorded failed with exactly its code.
   */
  ghost predicate StopsAfter(
    requests: seq<BatchGenerationRequest>, around: seq<Surroundings>, i: nat,
    observations: seq<BatchExecutionObservation>, c: nat)
  {
    && |requests| == |around| && i <= |requests|
    && c <= |observations| == |requests| - i
    && (forall j :: 0 <= j < c - 1 ==> TerminalCode(observations[j], around[i + j]).None?)
    && (c < |observations| ==>
          && c > 0
          && TerminalCode(observations[c - 1], around[i + c - 1]).Some?
          && var code := TerminalCode(observations[c - 1], around[i + c - 1]).value;
             forall j :: c <= j < |observations| ==>
               observations[j] == FailedObservation(requests[i + j], around[i + j].recordedAt, code))
  }

  lemma {:induction false} StopsNow(
    observation: BatchExecutionObservation, rest: seq<BatchExecutionObservation>,
    requests: seq<BatchGenerationRequest>, around: seq<Surroundings>, i: nat)
    requires |requests| == |around| && i < |requests| && |rest| == |requests| - i - 1
    requires TerminalCode(observation, around[i]).Some?
    requires forall j :: 0 <= j < |rest| ==>
      rest[j] ==
        FailedObservation(requests[i + 1 + j], around[i + 1 + j].recordedAt, TerminalCode(observation, around[i]).value)
    ensures StopsAfter(requests, around, i, [observation] + rest, 1)
  {
    var all := [observation] + rest;
    forall j | 1 <= j < |all|
      ensures all[j] ==
        FailedObservation(requests[i + j], around[i + j].recordedAt, TerminalCode(observation, around[i]).value)
    {
      assert all[j] == rest[j - 1] &&
        requests[i + j] == requests[i + 1 + (j - 1)] && around[i + j] == around[i + 1 + (j - 1)];
    }
  }

  lemma {:induction false} StopsLater(
    observation: BatchExecutionObservation, rest: seq<BatchExecutionObservation>,
    requests: seq<BatchGenerationRequest>, around: seq<Surroundings>, i: nat, c: nat)
    requires i < |requests| && StopsAfter(requests, around, i + 1, rest, c)
    requires c == 0 ==> rest == []
    requires TerminalCode(observation, around[i]).None?
    ensures StopsAfter(requests, around, i, [observation] + rest, c + 1)
  {
    var all := [observation] + rest;
    forall j | 0 <= j < c
      ensures TerminalCode(all[j], around[i + j]).None?
    {
      if j > 0 {
        assert all[j] == rest[j - 1] && around[i + j] == around[i + 1 + (j - 1)];
      }
    }
    if c < |rest| {
      assert all[c] == rest[c - 1];
      forall j | c + 1 <= j < |all|
        ensures all[j] ==
          FailedObservation(requests[i + j], around[i + j].recordedAt, TerminalCode(all[c], around[i + c]).value)
      {
        assert all[j] == rest[j - 1] &&
          requests[i + j] == requests[i + 1 + (j - 1)] && around[i + j] == around[i + 1 + (j - 1)];
      }
    }
  }

  /** Executed calls form a prefix, and a terminal code fixes everything after it. */
  lemma {:induction false} TerminalCodeEndsExecution(
    s: Controller, requests: seq<BatchGenerationRequest>, around: seq<Surroundings>, i: nat)
    requires |requests| == |around| && i <= |requests|
    ensures StopsAfter(requests, around, i,
      OfficialOf(s, None, requests, around, i).1, Executed(s, requests, around, i))
    decreases |requests| - i
  {
    if i < |requests| {
      var (s', outcome) := ExecutionOf(s, requests[i], around[i].script);
      var observation := Contained(requests[i], outcome, around[i]);
      var terminal := TerminalCode(observation, around[i]);
      var rest := OfficialOf(s', terminal, requests, around, i + 1).1;
      if terminal.Some? {
        TerminalRunFailsEverything(s', terminal.value, requests, around, i + 1);
        StopsNow(observation, rest, requests, around, i);
      } else {
        TerminalCodeEndsExecution(s', requests, around, i + 1);
        StopsLater(observation, rest, requests, around, i, Executed(s', requests, around, i + 1));
      }
    }
  }

  /** The controller before request `j`, when every request from `i` on is executed. */
  function StateBefore(
    s: Controller, requests: seq<BatchGenerationRequest>, around: seq<Surroundings>, i: nat, j: nat
  ): Controller
    requires |requests| == |around| && i <= j <= |requests|
    decreases j - i
  {
    if i == j then s
    else StateBefore(ExecutionOf(s, requests[i], around[i].script).0, requests, around, i + 1, j)
  }

  /** What the controller does with request `j` when it is executed. */
  function OutcomeAt(s: Controller, requests: seq<BatchGenerationRequest>, around: seq<Surroundings>, j: nat): Outcome
    requires |requests| == |around| && j < |requests|
  {
    ExecutionOf(StateBefore(s, requests, around, 0, j), requests[j], around[j].script).1
  }

  lemma {:induction false} ExecutedObservation(
    s: Controller, requests: seq<BatchGenerationRequest>, around: seq<Surroundings>, i: nat, j: nat)
    requires |requests| == |around| && i <= j < |requests| && j - i < Executed(s, requests, around, i)
    ensures |OfficialOf(s, None, requests, around, i).1| == |requests| - i
    ensures OfficialOf(s, None, requests, around, i).1[j - i] ==
      Contained(
        requests[j], ExecutionOf(StateBefore(s, requests, around, i, j), requests[j], around[j].script).1, around[j])
    decreases j - i
  {
    var (s', outcome) := ExecutionOf(s, requests[i], around[i].script);
    var o := Contained(requests[i], outcome, around[i]);
    CallStep(s, requests, around, i, s', o);
    TerminalCodeEndsExecution(s, requests, around, i);
    if i < j {
      ExecutedObservation(s', requests, around, i + 1, j);
    }
  }

  /** A call that returned is recorded as it is; one that raised is recorded failed, with one of two codes. */
  lemma {:induction false} ContainedWrittenOut(request: BatchGenerationRequest, outcome: Outcome, around: Surroundings)
    ensures var o := Contained(request, outcome, around);
      && (outcome.Observed? ==> o == outcome.observation)
      && (outcome.Raised? && around.cancelledForMemory ==> RecordedFailed(o, around.recordedAt, ResourceLimit))
      && (outcome.Raised? && !around.cancelledForMemory ==> RecordedFailed(o, around.recordedAt, GenerationFailed))
  {
  }

  /** No memory stop, a live worker, and a call that neither ran out of memory nor timed out. */
  ghost predicate GoesOn(o: BatchExecutionObservation, around: Surroundings) {
    && !around.memoryStop && around.workerAlive
    && o.call.failureCode != Some(OutOfMemory) && o.call.failureCode != Some(Timeout)
  }

  /** What the rest of the run is recorded with after the last executed call. */
  ghost function EndCode(o: BatchExecutionObservation, around: Surroundings): FailureCode {
    if around.memoryStop then ResourceLimit
    else if o.call.failureCode.Some? then o.call.failureCode.value
    else GenerationFailed
  }

  /** The record of a request that was not executed: the runner's own, nothing published. */
  ghost predicate NotExecuted(
    request: BatchGenerationRequest, o: BatchExecutionObservation, recordedAt: int, code: FailureCode)
  {
    Mirrors(request, o) && NothingPublished(o) && RecordedFailed(o, recordedAt, code)
  }

  lemma {:induction false} TerminalCodeWrittenOut(o: BatchExecutionObservation, around: Surroundings)
    ensures TerminalCode(o, around) == None <==> GoesOn(o, around)
    ensures TerminalCode(o, around).Some? ==> TerminalCode(o, around).value == EndCode(o, around)
  {
  }

  /**
   * A run executes its requests in order until a call after which it cannot go on: each executed call is
   * the controller's outcome with errors contained, every one but the last lets the run go on, and if
   * requests are left over the last one does not, and all of them are recorded failed with its code.
   */
  lemma {:induction false} RunStopsAtFirstEnd(
    s: Controller, requests: seq<BatchGenerationRequest>, around: seq<Surroundings>)
    requires |requests| == |around|
    ensures var observations, c := OfficialOf(s, None, requests, around, 0).1, Executed(s, requests, around, 0);
      && c <= |observations| == |requests|
      && (forall j: nat :: j < c ==>
            observations[j] == Contained(requests[j], OutcomeAt(s, requests, around, j), around[j]))
      && (forall j: nat :: j < c - 1 ==> GoesOn(observations[j], around[j]))
      && (c < |requests| ==>
            && c > 0 && !GoesOn(observations[c - 1], around[c - 1])
            && forall j: nat :: c <= j < |requests| ==>
                 NotExecuted(requests[j], observations[j], around[j].recordedAt,
                   EndCode(observations[c - 1], around[c - 1])))
  {
    var observations, c := OfficialOf(s, None, requests, around, 0).1, Executed(s, requests, around, 0);
    TerminalCodeEndsExecution(s, requests, around, 0);
    forall j: nat | j < c
      ensures observations[j] == Contained(requests[j], OutcomeAt(s, requests, around, j), around[j])
    {
      ExecutedObservation(s, requests, around, 0, j);
    }
    forall j: nat | j < c - 1
      ensures GoesOn(observations[j], around[j])
    {
      assert TerminalCode(observations[j], around[0 + j]).None?;
      TerminalCodeWrittenOut(observations[j], around[j]);
    }
    if c < |requests| {
      TerminalCodeWrittenOut(observations[c - 1], around[c - 1]);
      var code := TerminalCode(observations[c - 1], around[c - 1]).value;
      forall j: nat | c <= j < |requests|
        ensures NotExecuted(requests[j], observations[j], around[j].recordedAt, code)
      {
        assert observations[j] == FailedObservation(requests[0 + j], around[0 + j].recordedAt, code);
        FailedObservationLaw(requests[j], around[j].recordedAt, code);
      }
    }
  }

  // ---------------------------------------------------------------- the playback timeline

  datatype PlaybackOutcome = PlaybackIncomplete | PlaybackInvalid | PlaybackSimulated(simulation: PlaybackSimulation)

  /** Only measured calls of two units are played back. */
  predicate Relevant(o: BatchExecutionObservation) {
    o.call.phase == BatchPhase.Measured && o.call.batchSize == 2
  }

  predicate CallComplete(call: BatchCallObservation) {
    && call.completedNanoseconds.Some?
    && call.completedNanoseconds.value >= call.acceptedNanoseconds
    && call.status == CallCompleted
  }

  predicate UnitComplete(u: BatchUnitObservation) {
    u.status == UnitCompleted && u.sampleCount.Some? && u.publishedSequence.Some?
  }

  function ArrivalOf(u: BatchUnitObservation, elapsed: int, position: nat): PlaybackArrival
    requires u.sampleCount.Some?
  {
    PlaybackArrival(elapsed, position, u.sampleCount.value, u.sampleRateHz, false)
  }

  /** The arrivals of the units of one call from unit `u` on, or none if a unit is not complete. */
  function UnitArrivals(
    units: seq<BatchUnitObservation>, u: nat, elapsed: int, arrivals: seq<PlaybackArrival>
  ): Option<seq<PlaybackArrival>>
    requires u <= |units|
    decreases |units| - u
  {
    if u == |units| then Some(arrivals)
    else if !UnitComplete(units[u]) then None
    else UnitArrivals(units, u + 1, elapsed, arrivals + [ArrivalOf(units[u], elapsed, |arrivals|)])
  }

  /** The timeline of the observations from `i` on, after `elapsed` nanoseconds and the given arrivals. */
  function Timeline(
    observations: seq<BatchExecutionObservation>, i: nat, elapsed: int, arrivals: seq<PlaybackArrival>
  ): Option<seq<PlaybackArrival>>
    requires i <= |observations|
    decreases |observations| - i
  {
    if i == |observations| then Some(arrivals)
    else
      var o := observations[i];
      if !Relevant(o) then Timeline(observations, i + 1, elapsed, arrivals)
      else if !CallComplete(o.call) then None
      else
        var elapsed' := elapsed + (o.call.completedNanoseconds.value - o.call.acceptedNanoseconds);
        var arrivals' := UnitArrivals(o.units, 0, elapsed', arrivals);
        if arrivals'.None? then None else Timeline(observations, i + 1, elapsed', arrivals'.value)
  }

  method PlaybackRaw(observations: seq<BatchExecutionObservation>) returns (r: PlaybackOutcome)
    ensures match Timeline(observations, 0, 0, [])
      case None => r == PlaybackIncomplete
      case Some(arrivals) =>
        && !r.PlaybackIncomplete?
        && (r.PlaybackInvalid? <==> !Accepted(arrivals))
        && (r.PlaybackSimulated? ==> Summarises(arrivals, r.simulation))
  {
    var elapsed := 0;
    var arrivals: seq<PlaybackArrival> := [];
    for i := 0 to |observations|
      invariant Timeline(observations, 0, 0, []) == Timeline(observations, i, elapsed, arrivals)
    {
      var o := observations[i];
      if o.call.phase == BatchPhase.Measured && o.call.batchSize == 2 {
        if o.call.completedNanoseconds.None?
           || o.call.completedNanoseconds.value < o.call.acceptedNanoseconds
           || o.call.status != CallCompleted
        {
          return PlaybackIncomplete;
        }
        elapsed := elapsed + (o.call.completedNanoseconds.value - o.call.acceptedNanoseconds);
        ghost var before := arrivals;
        for u := 0 to |o.units|
          invariant UnitArrivals(o.units, 0, elapsed, before) == UnitArrivals(o.units, u, elapsed, arrivals)
        {
          var unit := o.units[u];
          if unit.status != UnitCompleted || unit.sampleCount.None? || unit.publishedSequence.None? {
            return PlaybackIncomplete;
          }
          arrivals := arrivals +
            [PlaybackArrival(elapsed, |arrivals|, unit.sampleCount.value, unit.sampleRateHz, false)];
        }
      }
    }
    var simulated := SimulateBoundedPlayback(arrivals);
    r := if simulated.Success? then PlaybackSimulated(simulated.value) else PlaybackInvalid;
  }

  // ---------------------------------------------------------------- what the timeline means

  ghost predicate Complete(o: BatchExecutionObservation) {
    CallComplete(o.call) && forall u :: 0 <= u < |o.units| ==> UnitComplete(o.units[u])
  }

  lemma {:induction false} UnitArrivalsComplete(
    units: seq<BatchUnitObservation>, u: nat, elapsed: int, arrivals: seq<PlaybackArrival>)
    requires u <= |units|
    ensures UnitArrivals(units, u, elapsed, arrivals).Some? <==> forall h :: u <= h < |units| ==> UnitComplete(units[h])
    decreases |units| - u
  {
    if u < |units| && UnitComplete(units[u]) {
      UnitArrivalsComplete(units, u + 1, elapsed, arrivals + [ArrivalOf(units[u], elapsed, |arrivals|)]);
    }
  }

  /** Playback is incomplete exactly when some measured two-unit call is not complete. */
  lemma {:induction false} TimelineExistsIffComplete(
    observations: seq<BatchExecutionObservation>, i: nat, elapsed: int, arrivals: seq<PlaybackArrival>)
    requires i <= |observations|
    ensures Timeline(observations, i, elapsed, arrivals).Some? <==>
      forall h :: i <= h < |observations| && Relevant(observations[h]) ==> Complete(observations[h])
    decreases |observations| - i
  {
    if i < |observations| {
      var o := observations[i];
      if !Relevant(o) {
        TimelineExistsIffComplete(observations, i + 1, elapsed, arrivals);
      } else if CallComplete(o.call) {
        var elapsed' := elapsed + (o.call.completedNanoseconds.value - o.call.acceptedNanoseconds);
        UnitArrivalsComplete(o.units, 0, elapsed', arrivals);
        var arrivals' := UnitArrivals(o.units, 0, elapsed', arrivals);
        if arrivals'.Some? {
          TimelineExistsIffComplete(observations, i + 1, elapsed', arrivals'.value);
        }
      }
    }
  }

  /** The arrivals so far are valid and none is later than `elapsed`. */
  ghost predicate ValidUpTo(arrivals: seq<PlaybackArrival>, elapsed: int) {
    && elapsed >= 0
    && ValidPrefix(arrivals, |arrivals|)
    && Previous(arrivals, |arrivals|) <= elapsed
  }

  /** A unit the controller can have published. */
  ghost predicate Publishable(u: BatchUnitObservation) {
    u.sampleRateHz == EXPECTED_SAMPLE_RATE_HZ && (u.sampleCount.Some? ==> u.sampleCount.value > 0)
  }

  lemma {:induction false} AppendValid(arrivals: seq<PlaybackArrival>, elapsed: int, u: BatchUnitObservation)
    requires ValidUpTo(arrivals, elapsed) && u.sampleCount.Some? && Publishable(u)
    ensures ValidUpTo(arrivals + [ArrivalOf(u, elapsed, |arrivals|)], elapsed)
  {
    var longer := arrivals + [ArrivalOf(u, elapsed, |arrivals|)];
    forall j: nat | j < |longer|
      ensures ValidArrival(longer, j)
    {
      if j < |arrivals| {
        assert ValidArrival(arrivals, j);
      }
    }
  }

  lemma {:induction false} UnitArrivalsValid(
    units: seq<BatchUnitObservation>, u: nat, elapsed: int, arrivals: seq<PlaybackArrival>)
    requires u <= |units| && ValidUpTo(arrivals, elapsed)
    requires forall h :: u <= h < |units| ==> Publishable(units[h])
    ensures UnitArrivals(units, u, elapsed, arrivals).Some? ==>
      ValidUpTo(UnitArrivals(units, u, elapsed, arrivals).value, elapsed)
    decreases |units| - u
  {
    if u < |units| && UnitComplete(units[u]) {
      AppendValid(arrivals, elapsed, units[u]);
      UnitArrivalsValid(units, u + 1, elapsed, arrivals + [ArrivalOf(units[u], elapsed, |arrivals|)]);
    }
  }

  lemma {:induction false} TimelineValid(
    observations: seq<BatchExecutionObservation>, i: nat, elapsed: int, arrivals: seq<PlaybackArrival>)
    requires i <= |observations| && ValidUpTo(arrivals, elapsed)
    requires forall h :: i <= h < |observations| ==>
      forall u :: 0 <= u < |observations[h].units| ==> Publishable(observations[h].units[u])
    ensures var timeline := Timeline(observations, i, elapsed, arrivals);
      timeline.Some? ==> ValidPrefix(timeline.value, |timeline.value|)
    decreases |observations| - i
  {
    if i < |observations| {
      var o := observations[i];
      if !Relevant(o) {
        TimelineValid(observations, i + 1, elapsed, arrivals);
      } else if CallComplete(o.call) {
        var elapsed' := elapsed + (o.call.completedNanoseconds.value - o.call.acceptedNanoseconds);
        UnitArrivalsValid(o.units, 0, elapsed', arrivals);
        var arrivals' := UnitArrivals(o.units, 0, elapsed', arrivals);
        if arrivals'.Some? {
          TimelineValid(observations, i + 1, elapsed', arrivals'.value);
        }
      }
    }
  }

  lemma {:induction false} ObservedUnitsPublishable(
    requests: seq<BatchGenerationRequest>, i: nat, observations: seq<BatchExecutionObservation>, first: int, h: nat)
    requires i <= |requests| && RunObserved(requests, i, observations, first) && h < |observations|
    ensures forall u :: 0 <= u < |observations[h].units| ==> Publishable(observations[h].units[u])
    decreases |requests| - i
  {
    if h > 0 {
      ObservedUnitsPublishable(requests, i + 1, observations[1..], first + |observations[0].published|, h - 1);
    } else {
      var o := observations[0];
      forall u | 0 <= u < |o.units|
        ensures Publishable(o.units[u])
      {
        if AllPublished(requests[i], o, first) {
          assert WellShaped(o.published[u]);
        }
      }
    }
  }

  lemma {:induction false} ValidTimelineVerdict(a: seq<PlaybackArrival>, j: nat)
    requires j <= |a| && ValidPrefix(a, |a|)
    ensures FirstVerdict(a, j) == None || FirstVerdict(a, j) == Some(ResourceLimit)
    decreases |a| - j
  {
    if j < |a| {
      assert ValidArrival(a, j);
      ValidTimelineVerdict(a, j + 1);
    }
  }

  /**
   * The timeline of a run passes the simulator's validation of every arrival, so an invalid playback
   * can only come from an empty timeline or from the queue and buffer limits.
   */
  lemma {:induction false} RunTimelineIsValid(
    requests: seq<BatchGenerationRequest>, observations: seq<BatchExecutionObservation>, first: int)
    requires RunObserved(requests, 0, observations, first)
    ensures var timeline := Timeline(observations, 0, 0, []);
      timeline.Some? ==>
        && ValidPrefix(timeline.value, |timeline.value|)
        && (!Accepted(timeline.value) <==>
            timeline.value == [] || FirstVerdict(timeline.value, 0) == Some(ResourceLimit))
  {
    forall h | 0 <= h < |observations|
      ensures forall u :: 0 <= u < |observations[h].units| ==> Publishable(observations[h].units[u])
    {
      ObservedUnitsPublishable(requests, 0, observations, first, h);
    }
    TimelineValid(observations, 0, 0, []);
    var timeline := Timeline(observations, 0, 0, []);
    if timeline.Some? {
      ValidTimelineVerdict(timeline.value, 0);
    }
  }

  /** If a terminal code cuts off a measured two-unit request, playback is reported incomplete. */
  lemma {:induction false} CutOffPlaybackIsIncomplete(
    s: Controller, requests: seq<BatchGenerationRequest>, around: seq<Surroundings>, k: nat)
    requires |requests| == |around| && Executed(s, requests, around, 0) <= k < |requests|
    requires requests[k].phase == BatchPhase.Measured && |requests[k].units| == 2
    ensures Timeline(OfficialOf(s, None, requests, around, 0).1, 0, 0, []).None?
  {
    TerminalCodeEndsExecution(s, requests, around, 0);
    var observations := OfficialOf(s, None, requests, around, 0).1;
    assert Relevant(observations[k]) && !Complete(observations[k]);
    TimelineExistsIffComplete(observations, 0, 0, []);
  }

  /** The playback outcome of an official run, from the controller's calls to the simulator's verdict. */
  lemma {:induction false} OfficialPlayback(
    s: Controller, requests: seq<BatchGenerationRequest>, around: seq<Surroundings>)
    requires |requests| == |around|
    ensures var observations := OfficialOf(s, None, requests, around, 0).1;
      var timeline := Timeline(observations, 0, 0, []);
      && (timeline.None? <==>
            exists h :: 0 <= h < |observations| && Relevant(observations[h]) && !Complete(observations[h]))
      && (timeline.Some? ==>
            && ValidPrefix(timeline.value, |timeline.value|)
            && (Accepted(timeline.value) || timeline.value == []
                || FirstVerdict(timeline.value, 0) == Some(ResourceLimit)))
  {
    var observations := OfficialOf(s, None, requests, around, 0).1;
    OfficialRunAnswersRequests(s, None, requests, around, 0);
    TimelineExistsIffComplete(observations, 0, 0, []);
    RunTimelineIsValid(requests, observations, s.sequence);
  }
}
