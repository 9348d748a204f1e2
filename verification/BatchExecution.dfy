/**
 * Bounded ordered execution of one batch at a time.
 *
 * The candidate, the clock, the resource probe and the publication hook are not trusted: a
 * `CallScript` says what each of them does during one call, including raising, changing the identity
 * gate and calling the controller again. The controller is a class; `ExecutionOf` is the value of one
 * call, and the laws are stated about it and about whole runs.
 */
module BatchExecution {
  import opened Basics
  import opened Wrappers
  import opened BatchContracts
  import Diagnostics

  const MAXIMUM_RETAINED_UNITS := 2
  const MAXIMUM_INPUT_CODE_POINTS := 640
  const MAXIMUM_INPUT_UTF8_BYTES := 2_048
  const MAXIMUM_SAMPLE_FRAMES_PER_UNIT := 5_120_000
  const EXPECTED_SAMPLE_RATE_HZ := 24_000

  // ---------------------------------------------------------------- the untrusted environment

  /** A raised error: a benchmark error with its code, another exception, or one no handler sees. */
  datatype Error = Benchmark(code: FailureCode) | OtherException | BaseException

  datatype ClockReading = Nanoseconds(value: int) | ClockRaises(error: Error)

  datatype ProbeReading = Resources(value: BatchResourceSnapshot) | ProbeRaises(error: Error)

  /** What foreign code does while the controller waits for it, step by step. */
  datatype Callback =
    | Returns(outputs: seq<BatchAudioUnit>)
    | Raises(error: Error)
    | Invalidates(rest: Callback)
    | Activates(identity: BatchWorkIdentity, caught: bool, rest: Callback)
    | Reenters(request: BatchGenerationRequest, script: CallScript, caught: bool, rest: Callback)

  datatype CallScript = CallScript(
    acceptedAt: ClockReading,
    before: ProbeReading,
    generate: Callback,
    completedAt: ClockReading,
    after: ProbeReading,
    hook: Option<Callback>)

  /** The result of one call of `execute`. */
  datatype Outcome = Observed(observation: BatchExecutionObservation) | Raised(error: Error)

  /** A clock value is refused when it is negative. */
  function ClockError(reading: ClockReading): Option<Error> {
    match reading
    case ClockRaises(error) => Some(error)
    case Nanoseconds(value) => if value < 0 then Some(Benchmark(GenerationFailed)) else None
  }

  /** A snapshot is refused when any of its counters is negative. */
  function ProbeError(reading: ProbeReading): Option<Error> {
    match reading
    case ProbeRaises(error) => Some(error)
    case Resources(v) =>
      if v.processTreeRamBytes < 0 || v.processDedicatedVramBytes < 0 || v.frameworkReservedVramBytes < 0
         || v.freeDedicatedVramBytes < 0 || v.sharedGpuMemoryBytes < 0
      then Some(Benchmark(GenerationFailed)) else None
  }

  // ---------------------------------------------------------------- requests and resources

  function Utf8Length(text: string): nat {
    if text == "" then 0
    else
      var c := text[0] as int;
      (if c < 0x80 then 1 else if c < 0x800 then 2 else if c < 0x10000 then 3 else 4) + Utf8Length(text[1..])
  }

  predicate ValidUnit(u: BatchUnitRequest) {
    && u.unitId != ""
    && u.sourceSequence >= 0
    && u.text != ""
    && |u.text| <= MAXIMUM_INPUT_CODE_POINTS
    && Utf8Length(u.text) <= MAXIMUM_INPUT_UTF8_BYTES
  }

  predicate ValidRequest(r: BatchGenerationRequest) {
    && 1 <= |r.units| <= 2
    && r.callIndex >= 0
    && r.attempt == 1
    && r.identity.sessionId != ""
    && r.identity.generationId != ""
    && (|r.units| == 2 ==> r.units[0].unitId != r.units[1].unitId)
    && forall i :: 0 <= i < |r.units| ==> ValidUnit(r.units[i])
  }

  const NO_RESOURCES := BatchResourceSnapshot(0, 0, 0, 0, 0)

  function MaxInt(x: int, y: int): int { if x < y then y else x }

  function MinInt(x: int, y: int): int { if y < x then y else x }

  /** The heavier of two snapshots: free memory counts downwards. */
  function Heavier(x: BatchResourceSnapshot, y: BatchResourceSnapshot): BatchResourceSnapshot {
    BatchResourceSnapshot(
      MaxInt(x.processTreeRamBytes, y.processTreeRamBytes),
      MaxInt(x.processDedicatedVramBytes, y.processDedicatedVramBytes),
      MaxInt(x.frameworkReservedVramBytes, y.frameworkReservedVramBytes),
      MinInt(x.freeDedicatedVramBytes, y.freeDedicatedVramBytes),
      MaxInt(x.sharedGpuMemoryBytes, y.sharedGpuMemoryBytes))
  }

  function MaximumResources(values: seq<BatchResourceSnapshot>): BatchResourceSnapshot {
    if values == [] then NO_RESOURCES
    else if |values| == 1 then values[0]
    else Heavier(values[0], MaximumResources(values[1..]))
  }

  // ---------------------------------------------------------------- observations

  function UnitIds(request: BatchGenerationRequest): seq<string> {
    seq(|request.units|, i requires 0 <= i < |request.units| => request.units[i].unitId)
  }

  function CallStatusOf(code: FailureCode): CallStatus {
    match code
    case Timeout => CallTimedOut
    case Cancelled => CallCancelled
    case _ => CallFailed
  }

  function UnitStatusOf(code: FailureCode): UnitStatus {
    match code
    case Timeout => UnitTimedOut
    case Cancelled => UnitCancelled
    case StaleIdentity => UnitStaleRejected
    case _ => UnitFailed
  }

  /** The call record shared by every observation of `request`. */
  function CallOf(
    request: BatchGenerationRequest, accepted: int, completed: Option<int>, status: CallStatus,
    code: Option<FailureCode>
  ): BatchCallObservation {
    BatchCallObservation(
      request.callIndex, request.phase, request.passIndex, request.pairId, |request.units|, UnitIds(request), 1,
      accepted, completed, status, code)
  }

  function FailedUnit(
    request: BatchGenerationRequest, position: nat, status: UnitStatus, code: FailureCode
  ): BatchUnitObservation
    requires position < |request.units|
  {
    var u := request.units[position];
    BatchUnitObservation(
      request.callIndex, u.unitId, u.sourceSequence, position, None, EXPECTED_SAMPLE_RATE_HZ,
      None, None, None, None, None, status, Some(code))
  }

  function FailureObservation(
    request: BatchGenerationRequest, accepted: int, completed: Option<int>, code: FailureCode,
    peak: BatchResourceSnapshot
  ): BatchExecutionObservation {
    BatchExecutionObservation(
      CallOf(request, accepted, completed, CallStatusOf(code), Some(code)),
      seq(|request.units|, i requires 0 <= i < |request.units| => FailedUnit(request, i, UnitStatusOf(code), code)),
      [], 0, 1, peak)
  }

  function UnitDuration(output: BatchAudioUnit): real {
    MediaSeconds(output.sampleCount, output.sampleRateHz)
  }

  function RealTimeFactor(wall: int, duration: real): real {
    if duration > 0.0 then Seconds(wall) / duration else 0.0
  }

  function CompletedUnit(
    request: BatchGenerationRequest, output: BatchAudioUnit, wall: int, sequence: int
  ): BatchUnitObservation {
    BatchUnitObservation(
      request.callIndex, output.unitId, output.sourceSequence, output.batchPosition,
      Some(output.sampleCount), output.sampleRateHz, Some(UnitDuration(output)), Some(wall), Some(wall),
      Some(RealTimeFactor(wall, UnitDuration(output))), Some(sequence), UnitCompleted, None)
  }

  function CompletedUnits(
    request: BatchGenerationRequest, outputs: seq<BatchAudioUnit>, wall: int, sequence: int
  ): seq<BatchUnitObservation> {
    seq(|outputs|, i requires 0 <= i < |outputs| => CompletedUnit(request, outputs[i], wall, sequence + i))
  }

  /** Output `i` answers unit `i` of the request. */
  predicate Answers(request: BatchGenerationRequest, outputs: seq<BatchAudioUnit>, i: nat)
    requires i < |outputs| && i < |request.units|
  {
    && outputs[i].identity == request.identity
    && outputs[i].callIndex == request.callIndex
    && outputs[i].unitId == request.units[i].unitId
    && outputs[i].sourceSequence == request.units[i].sourceSequence
    && outputs[i].batchPosition == i
  }

  predicate WellShaped(output: BatchAudioUnit) {
    && 0 < output.sampleCount <= MAXIMUM_SAMPLE_FRAMES_PER_UNIT
    && output.sampleRateHz == EXPECTED_SAMPLE_RATE_HZ
    && output.channels == 1
    && output.sampleFormat == "float32"
  }

  predicate InvalidShape(request: BatchGenerationRequest, outputs: seq<BatchAudioUnit>) {
    || |outputs| != |request.units|
    || (exists i :: 0 <= i < |outputs| && !Answers(request, outputs, i))
    || |outputs| > MAXIMUM_RETAINED_UNITS
    || (exists i :: 0 <= i < |outputs| && !WellShaped(outputs[i]))
  }

  predicate ForeignOutput(request: BatchGenerationRequest, outputs: seq<BatchAudioUnit>) {
    exists i :: 0 <= i < |outputs| && outputs[i].identity != request.identity
  }

  // ---------------------------------------------------------------- the value of one call

  /** The controller's own state: busy flag, identity held by the gate, next publication number. */
  datatype Controller = Controller(active: bool, gate: Option<BatchWorkIdentity>, sequence: int)

  const INITIAL := Controller(false, None, 0)

  function Idle(sequence: int): Controller { Controller(false, None, sequence) }

  /** What foreign code leaves behind, and how it ends. */
  function CallbackOf(s: Controller, callback: Callback): (Controller, Result<seq<BatchAudioUnit>, Error>)
    decreases callback
  {
    match callback
    case Returns(outputs) => (s, Success(outputs))
    case Raises(error) => (s, Failure(error))
    case Invalidates(rest) => CallbackOf(s.(gate := None), rest)
    case Activates(identity, caught, rest) =>
      if s.gate.None? then CallbackOf(s.(gate := Some(identity)), rest)
      else if caught then CallbackOf(s, rest)
      else (s, Failure(Benchmark(ResourceLimit)))
    case Reenters(request, script, caught, rest) =>
      var (s', outcome) := ExecutionOf(s, request, script);
      if outcome.Raised? && !caught then (s', Failure(outcome.error)) else CallbackOf(s', rest)
  }

  /** One call of `execute` from state `s`: the state it leaves and its result. */
  function ExecutionOf(s: Controller, request: BatchGenerationRequest, script: CallScript): (Controller, Outcome)
    decreases script, 2
  {
    if !ValidRequest(request) || s.active then (s, Raised(Benchmark(ResourceLimit)))
    else if s.gate.Some? then (s.(active := true), Raised(Benchmark(ResourceLimit)))
    else
      var entered := Controller(true, Some(request.identity), s.sequence);
      if ClockError(script.acceptedAt).Some? then (entered, Raised(ClockError(script.acceptedAt).value))
      else if ProbeError(script.before).Some? then (entered, Raised(ProbeError(script.before).value))
      else
        var (sequence, outcome) := GuardedOf(entered, request, script);
        (Idle(sequence), outcome)
  }

  /** The guarded part of the call: the next publication number it leaves and its result. */
  function GuardedOf(s: Controller, request: BatchGenerationRequest, script: CallScript): (int, Outcome)
    requires ClockError(script.acceptedAt).None? && ProbeError(script.before).None?
    decreases script, 1
  {
    var (generated, ending) := CallbackOf(s, script.generate);
    if ending == Failure(BaseException) then (generated.sequence, Raised(BaseException))
    else if ClockError(script.completedAt).Some? then (generated.sequence, Raised(ClockError(script.completedAt).value))
    else if ProbeError(script.after).Some? then (generated.sequence, Raised(ProbeError(script.after).value))
    else if ending.Failure? then (generated.sequence, Observed(GenerationFailure(request, script, ending.error)))
    else
      var (hooked, hookEnding) :=
        if script.hook.None? then (generated, Success([])) else CallbackOf(generated, script.hook.value);
      if hookEnding.Failure? then (hooked.sequence, Raised(hookEnding.error))
      else PublicationOf(hooked, request, script, ending.value)
  }

  function Peak(script: CallScript): BatchResourceSnapshot
    requires ProbeError(script.before).None? && ProbeError(script.after).None?
  {
    MaximumResources([script.before.value, script.after.value])
  }

  predicate ReadingsAccepted(script: CallScript) {
    && ClockError(script.acceptedAt).None? && ClockError(script.completedAt).None?
    && ProbeError(script.before).None? && ProbeError(script.after).None?
  }

  /** A candidate that fails: only a timeout leaves the completion time open. */
  function GenerationFailure(
    request: BatchGenerationRequest, script: CallScript, error: Error
  ): BatchExecutionObservation
    requires ReadingsAccepted(script)
  {
    var code := if error.Benchmark? then error.code else GenerationFailed;
    var completed := if error == Benchmark(Timeout) then None else Some(script.completedAt.value);
    FailureObservation(request, script.acceptedAt.value, completed, code, Peak(script))
  }

  /** Output is published as a whole, or rejected as a whole. */
  function PublicationOf(
    s: Controller, request: BatchGenerationRequest, script: CallScript, outputs: seq<BatchAudioUnit>
  ): (int, Outcome)
    requires ReadingsAccepted(script)
  {
    var accepted, completed := script.acceptedAt.value, script.completedAt.value;
    var stale := ForeignOutput(request, outputs) || s.gate != Some(request.identity);
    if stale || InvalidShape(request, outputs) then
      var code := if stale then StaleIdentity else InvalidOutput;
      (s.sequence, Observed(FailureObservation(request, accepted, Some(completed), code, Peak(script))))
    else
      (s.sequence + |outputs|,
       Observed(BatchExecutionObservation(
         CallOf(request, accepted, Some(completed), CallCompleted, None),
         CompletedUnits(request, outputs, completed - accepted, s.sequence),
         outputs, |outputs|, 1, Peak(script))))
  }

  // ---------------------------------------------------------------- the controller

  class BatchIdentityGate {
    var active: Option<BatchWorkIdentity>

    constructor ()
      ensures active == None
    {
      active := None;
    }

    method Activate(identity: BatchWorkIdentity) returns (ok: bool)
      modifies this
      ensures ok == old(active).None?
      ensures active == if ok then Some(identity) else old(active)
    {
      ok := active.None?;
      if ok {
        active := Some(identity);
      }
    }

    method Invalidate()
      modifies this
      ensures active == None
    {
      active := None;
    }

    predicate Accepts(identity: BatchWorkIdentity)
      reads this
    {
      active == Some(identity)
    }
  }

  class BoundedOrderedBatchController {
    const identityGate: BatchIdentityGate
    var publishedSequence: int
    var active: bool

    constructor ()
      ensures fresh(identityGate) && Model() == INITIAL
    {
      identityGate := new BatchIdentityGate();
      publishedSequence, active := 0, false;
    }

    ghost function Model(): Controller
      reads this, identityGate
    {
      Controller(active, identityGate.active, publishedSequence)
    }

    /** Foreign code runs; it may use the gate and call back into the controller. */
    method RunCallback(callback: Callback) returns (ending: Result<seq<BatchAudioUnit>, Error>)
      modifies this, identityGate
      ensures (Model(), ending) == CallbackOf(old(Model()), callback)
      decreases callback
    {
      match callback
      case Returns(outputs) =>
        ending := Success(outputs);
      case Raises(error) =>
        ending := Failure(error);
      case Invalidates(rest) =>
        identityGate.Invalidate();
        ending := RunCallback(rest);
      case Activates(identity, caught, rest) =>
        var ok := identityGate.Activate(identity);
        if ok || caught {
          ending := RunCallback(rest);
        } else {
          ending := Failure(Benchmark(ResourceLimit));
        }
      case Reenters(request, script, caught, rest) =>
        var outcome := Execute(request, script);
        if outcome.Raised? && !caught {
          ending := Failure(outcome.error);
        } else {
          ending := RunCallback(rest);
        }
    }

    method Execute(request: BatchGenerationRequest, script: CallScript) returns (r: Outcome)
      modifies this, identityGate
      ensures (Model(), r) == ExecutionOf(old(Model()), request, script)
      decreases script, 2
    {
      if !ValidRequest(request) || active {
        return Raised(Benchmark(ResourceLimit));
      }
      active := true;
      var activated := identityGate.Activate(request.identity);
      if !activated {
        return Raised(Benchmark(ResourceLimit));
      }
      var clockError := ClockError(script.acceptedAt);
      if clockError.Some? {
        return Raised(clockError.value);
      }
      var probeError := ProbeError(script.before);
      if probeError.Some? {
        return Raised(probeError.value);
      }
      r := Guarded(request, script);
      identityGate.Invalidate();
      active := false;
    }

    /** The body of the outer `try`; `Execute` does what its `finally` does. */
    method Guarded(request: BatchGenerationRequest, script: CallScript) returns (r: Outcome)
      requires ClockError(script.acceptedAt).None? && ProbeError(script.before).None?
      modifies this, identityGate
      ensures (publishedSequence, r) == GuardedOf(old(Model()), request, script)
      decreases script, 1
    {
      var ending := RunCallback(script.generate);
      if ending == Failure(BaseException) {
        return Raised(BaseException);
      }
      var clockError := ClockError(script.completedAt);
      if clockError.Some? {
        return Raised(clockError.value);
      }
      var probeError := ProbeError(script.after);
      if probeError.Some? {
        return Raised(probeError.value);
      }
      if ending.Failure? {
        identityGate.Invalidate();
        return Observed(GenerationFailure(request, script, ending.error));
      }
      if script.hook.Some? {
        var hookEnding := RunCallback(script.hook.value);
        if hookEnding.Failure? {
          return Raised(hookEnding.error);
        }
      }
      r := Publish(request, script, ending.value);
    }

    method Publish(request: BatchGenerationRequest, script: CallScript, outputs: seq<BatchAudioUnit>)
      returns (r: Outcome)
      requires ReadingsAccepted(script)
      modifies this, identityGate
      ensures (publishedSequence, r) == PublicationOf(old(Model()), request, script, outputs)
    {
      var accepted, completed := script.acceptedAt.value, script.completedAt.value;
      var invalidIdentity := ForeignOutput(request, outputs) || !identityGate.Accepts(request.identity);
      if invalidIdentity || InvalidShape(request, outputs) {
        identityGate.Invalidate();
        var code := if invalidIdentity then StaleIdentity else InvalidOutput;
        return Observed(FailureObservation(request, accepted, Some(completed), code, Peak(script)));
      }
      var wall := completed - accepted;
      var observations: seq<BatchUnitObservation> := [];
      ghost var first := publishedSequence;
      for i := 0 to |outputs|
        invariant publishedSequence == first + i
        invariant observations == CompletedUnits(request, outputs, wall, first)[..i]
      {
        observations := observations + [CompletedUnit(request, outputs[i], wall, publishedSequence)];
        publishedSequence := publishedSequence + 1;
      }
      assert observations == CompletedUnits(request, outputs, wall, first);
      identityGate.Invalidate();
      r := Observed(BatchExecutionObservation(
        CallOf(request, accepted, Some(completed), CallCompleted, None),
        observations, outputs, |outputs|, 1, Peak(script)));
    }
  }

  // ---------------------------------------------------------------- one call

  /** The observation reports exactly this request, call by call and unit by unit. */
  ghost predicate Mirrors(request: BatchGenerationRequest, o: BatchExecutionObservation) {
    && o.call.callIndex == request.callIndex && o.call.phase == request.phase
    && o.call.passIndex == request.passIndex && o.call.pairId == request.pairId
    && o.call.attempt == 1 && o.call.batchSize == |request.units| == |o.call.unitIds|
    && (forall i :: 0 <= i < |request.units| ==> o.call.unitIds[i] == request.units[i].unitId)
    && |o.units| == |request.units|
    && o.peakRetainedUnits == |o.published| && o.peakActiveBatches == 1
    && forall i :: 0 <= i < |o.units| ==>
         && o.units[i].callIndex == request.callIndex
         && o.units[i].unitId == request.units[i].unitId
         && o.units[i].sourceSequence == request.units[i].sourceSequence
         && o.units[i].batchPosition == i
         && o.units[i].sampleRateHz == 24_000
  }

  /** Unit `u` was published with number `sequence` from `output` after `wall` nanoseconds. */
  ghost predicate PublishedAs(u: BatchUnitObservation, output: BatchAudioUnit, wall: int, sequence: int) {
    && u.status == UnitCompleted && u.failureCode == None
    && u.publishedSequence == Some(sequence)
    && u.sampleCount == Some(output.sampleCount)
    && u.firstAudioNanoseconds == u.completionNanoseconds == Some(wall)
    && u.durationSeconds.Some? && u.requestRtf.Some?
    && u.durationSeconds.value > 0.0
    && u.durationSeconds.value * 24_000.0 == output.sampleCount as real
    && u.requestRtf.value * u.durationSeconds.value == Seconds(wall)
  }

  /** Every unit of the request is published, in request order, numbered from `first`. */
  ghost predicate AllPublished(request: BatchGenerationRequest, o: BatchExecutionObservation, first: int) {
    && o.call.status == CallCompleted && o.call.failureCode == None && o.call.completedNanoseconds.Some?
    && |o.published| == |o.units| == |request.units|
    && (forall i: nat :: i < |o.published| ==> Answers(request, o.published, i) && WellShaped(o.published[i]))
    && (forall i :: 0 <= i < |o.published| ==>
          PublishedAs(o.units[i], o.published[i],
            o.call.completedNanoseconds.value - o.call.acceptedNanoseconds, first + i))
  }

  /** No unit of the request is published, and every unit carries the code of the call. */
  ghost predicate NothingPublished(o: BatchExecutionObservation) {
    && o.published == []
    && o.call.status != CallCompleted && o.call.failureCode.Some?
    && forall i :: 0 <= i < |o.units| ==>
         && o.units[i].status != UnitCompleted
         && o.units[i].failureCode == o.call.failureCode
         && o.units[i].sampleCount == None && o.units[i].durationSeconds == None
         && o.units[i].firstAudioNanoseconds == None && o.units[i].completionNanoseconds == None
         && o.units[i].requestRtf == None
         && o.units[i].publishedSequence == None
  }

  /** A call that starts at publication number `first` and leaves `next` publishes everything or nothing. */
  ghost predicate AllOrNothing(request: BatchGenerationRequest, outcome: Outcome, first: int, next: int) {
    if outcome.Raised? then next == first
    else
      && Mirrors(request, outcome.observation)
      && (AllPublished(request, outcome.observation, first) || NothingPublished(outcome.observation))
      && next == first + |outcome.observation.published|
  }

  /** Foreign code that runs inside a call cannot number a publication or free the controller. */
  lemma {:induction false} CallbackKeepsController(s: Controller, callback: Callback)
    requires s.active
    ensures CallbackOf(s, callback).0.active && CallbackOf(s, callback).0.sequence == s.sequence
    decreases callback
  {
    match callback
    case Returns(_) =>
    case Raises(_) =>
    case Invalidates(rest) => CallbackKeepsController(s.(gate := None), rest);
    case Activates(identity, caught, rest) =>
      CallbackKeepsController(s, rest);
      CallbackKeepsController(s.(gate := Some(identity)), rest);
    case Reenters(request, script, caught, rest) => CallbackKeepsController(s, rest);
  }

  lemma {:induction false} CompletedUnitLaw(
    request: BatchGenerationRequest, output: BatchAudioUnit, wall: int, sequence: int)
    requires WellShaped(output)
    ensures PublishedAs(CompletedUnit(request, output, wall, sequence), output, wall, sequence)
  {
    var count, seconds := output.sampleCount as real, Seconds(wall);
    var duration := UnitDuration(output);
    assert duration == count / 24_000.0;
    assert seconds / duration * duration == seconds;
  }

  lemma {:induction false} FailureLaw(
    request: BatchGenerationRequest, accepted: int, completed: Option<int>, code: FailureCode,
    peak: BatchResourceSnapshot)
    ensures var o := FailureObservation(request, accepted, completed, code, peak);
      Mirrors(request, o) && NothingPublished(o)
  {
  }

  lemma {:induction false} CompletionLaw(
    request: BatchGenerationRequest, outputs: seq<BatchAudioUnit>, accepted: int, completed: int, first: int,
    peak: BatchResourceSnapshot)
    requires !InvalidShape(request, outputs)
    ensures var o := BatchExecutionObservation(
        CallOf(request, accepted, Some(completed), CallCompleted, None),
        CompletedUnits(request, outputs, completed - accepted, first), outputs, |outputs|, 1, peak);
      Mirrors(request, o) && AllPublished(request, o, first)
  {
    forall i: nat | i < |outputs|
      ensures Answers(request, outputs, i) && WellShaped(outputs[i])
      ensures PublishedAs(
        CompletedUnit(request, outputs[i], completed - accepted, first + i),
        outputs[i], completed - accepted, first + i)
    {
      CompletedUnitLaw(request, outputs[i], completed - accepted, first + i);
    }
  }

  lemma {:induction false} PublicationLaw(
    s: Controller, request: BatchGenerationRequest, script: CallScript, outputs: seq<BatchAudioUnit>)
    requires ReadingsAccepted(script)
    ensures var (sequence, outcome) := PublicationOf(s, request, script, outputs);
      outcome.Observed? && AllOrNothing(request, outcome, s.sequence, sequence)
  {
    var accepted, completed := script.acceptedAt.value, script.completedAt.value;
    FailureLaw(request, accepted, Some(completed), StaleIdentity, Peak(script));
    FailureLaw(request, accepted, Some(completed), InvalidOutput, Peak(script));
    if !InvalidShape(request, outputs) {
      CompletionLaw(request, outputs, accepted, completed, s.sequence, Peak(script));
    }
  }

  lemma {:induction false} GuardedLaw(s: Controller, request: BatchGenerationRequest, script: CallScript)
    requires s.active && ClockError(script.acceptedAt).None? && ProbeError(script.before).None?
    ensures var (sequence, outcome) := GuardedOf(s, request, script);
      AllOrNothing(request, outcome, s.sequence, sequence)
  {
    CallbackKeepsController(s, script.generate);
    var (generated, ending) := CallbackOf(s, script.generate);
    if script.hook.Some? {
      CallbackKeepsController(generated, script.hook.value);
    }
    if ReadingsAccepted(script) && ending.Success? {
      var hooked := if script.hook.None? then generated else CallbackOf(generated, script.hook.value).0;
      PublicationLaw(hooked, request, script, ending.value);
    }
  }

  /**
   * Publication is all or nothing, and an observation always mirrors its request; the publication
   * numbers continue from the controller's counter, which advances by exactly the units published.
   */
  lemma {:induction false} PublicationIsAllOrNothing(s: Controller, request: BatchGenerationRequest, script: CallScript)
    ensures var (s', outcome) := ExecutionOf(s, request, script);
      AllOrNothing(request, outcome, s.sequence, s'.sequence)
  {
    if ClockError(script.acceptedAt).None? && ProbeError(script.before).None? {
      GuardedLaw(Controller(true, Some(request.identity), s.sequence), request, script);
    }
  }

  /** The calls that fail between taking the controller and the guarded part. */
  predicate Strands(s: Controller, request: BatchGenerationRequest, script: CallScript) {
    && ValidRequest(request) && !s.active
    && (s.gate.Some? || ClockError(script.acceptedAt).Some? || ProbeError(script.before).Some?)
  }

  /**
   * A call leaves the controller busy exactly when it found it busy or failed before the guarded part;
   * every other accepted call, however it ends, leaves it idle with an empty gate.
   */
  lemma {:induction false} CallLeavesIdleUnlessStranded(
    s: Controller, request: BatchGenerationRequest, script: CallScript)
    ensures var s' := ExecutionOf(s, request, script).0;
      && (s'.active <==> s.active || Strands(s, request, script))
      && (ValidRequest(request) && !s'.active ==> s'.gate == None)
      && (!ValidRequest(request) || s.active ==> s' == s)
    ensures Strands(s, request, script) ==> ExecutionOf(s, request, script).1.Raised?
  {
  }

  // ---------------------------------------------------------------- stale identities

  ghost predicate MentionsInvalidate(callback: Callback) {
    match callback
    case Returns(_) => false
    case Raises(_) => false
    case Invalidates(_) => true
    case Activates(_, _, rest) => MentionsInvalidate(rest)
    case Reenters(_, _, _, rest) => MentionsInvalidate(rest)
  }

  /** The identity that an empty gate holds when the callback is done and has not invalidated again. */
  ghost function FirstActivated(callback: Callback): Option<BatchWorkIdentity> {
    match callback
    case Returns(_) => None
    case Raises(_) => None
    case Invalidates(rest) => FirstActivated(rest)
    case Activates(identity, _, _) => Some(identity)
    case Reenters(_, _, _, rest) => FirstActivated(rest)
  }

  /** The identity first activated after the last invalidation, if any: what the callback restores. */
  ghost function Restored(callback: Callback): Option<BatchWorkIdentity> {
    match callback
    case Returns(_) => None
    case Raises(_) => None
    case Invalidates(rest) => if MentionsInvalidate(rest) then Restored(rest) else FirstActivated(rest)
    case Activates(_, _, rest) => Restored(rest)
    case Reenters(_, _, _, rest) => Restored(rest)
  }

  /** The gate after foreign code that returns can be read off its own steps and the gate it found. */
  lemma {:induction false} GateAfter(s: Controller, callback: Callback)
    requires s.active && CallbackOf(s, callback).1.Success?
    ensures CallbackOf(s, callback).0.gate ==
      if MentionsInvalidate(callback) then Restored(callback)
      else if s.gate.Some? then s.gate
      else FirstActivated(callback)
    decreases callback
  {
    match callback
    case Returns(_) =>
    case Raises(_) =>
    case Invalidates(rest) => GateAfter(s.(gate := None), rest);
    case Activates(other, caught, rest) =>
      if s.gate.None? {
        GateAfter(s.(gate := Some(other)), rest);
      } else {
        GateAfter(s, rest);
      }
    case Reenters(request, script, caught, rest) => GateAfter(s, rest);
  }

  /** The candidate returned `outputs`, the readings were accepted, and the hook left `kept` and `ending`. */
  ghost predicate Hooked(
    s: Controller, request: BatchGenerationRequest, script: CallScript, outputs: seq<BatchAudioUnit>, kept: Controller,
    ending: Result<seq<BatchAudioUnit>, Error>)
  {
    && ValidRequest(request) && s == Idle(s.sequence) && ReadingsAccepted(script)
    && var generated := CallbackOf(Controller(true, Some(request.identity), s.sequence), script.generate);
       && generated.1 == Success(outputs)
       && (kept, ending) ==
            if script.hook.None? then (generated.0, Success([])) else CallbackOf(generated.0, script.hook.value)
  }

  /**
   * A generated batch ends in an error exactly when the hook raises, with the hook's error. Otherwise it
   * is stale if and only if some output is foreign or the gate no longer holds the identity of the request.
   */
  lemma {:induction false} StaleIffForeignOrReleased(
    s: Controller, request: BatchGenerationRequest, script: CallScript, outputs: seq<BatchAudioUnit>, kept: Controller,
    ending: Result<seq<BatchAudioUnit>, Error>)
    requires Hooked(s, request, script, outputs, kept, ending)
    ensures var outcome := ExecutionOf(s, request, script).1;
      && (outcome.Raised? <==> ending.Failure?)
      && (ending.Failure? ==> outcome == Raised(ending.error))
      && (ending.Success? ==>
            && (outcome.observation.call.failureCode == Some(StaleIdentity) <==>
                ForeignOutput(request, outputs) || kept.gate != Some(request.identity))
            && (outcome.observation.call.failureCode == Some(StaleIdentity) ==> NothingPublished(outcome.observation)))
  {
    PublicationIsAllOrNothing(s, request, script);
  }

  /**
   * A hook that invalidates the gate and returns makes a generated batch stale, unless every output
   * carries the identity of the request and that identity is the one the hook activates first after its
   * last invalidation: this is exactly when invalidating the gate does not make the batch stale.
   */
  lemma {:induction false} InvalidatingHookMakesStale(
    s: Controller, request: BatchGenerationRequest, script: CallScript, outputs: seq<BatchAudioUnit>, kept: Controller,
    ending: Result<seq<BatchAudioUnit>, Error>)
    requires Hooked(s, request, script, outputs, kept, ending)
    requires script.hook.Some? && MentionsInvalidate(script.hook.value)
    ensures var outcome := ExecutionOf(s, request, script).1;
      && (outcome.Raised? <==> ending.Failure?)
      && (ending.Success? ==>
            (outcome.observation.call.failureCode == Some(StaleIdentity) && NothingPublished(outcome.observation) <==>
             ForeignOutput(request, outputs) || Restored(script.hook.value) != Some(request.identity)))
  {
    StaleIffForeignOrReleased(s, request, script, outputs, kept, ending);
    var entered := Controller(true, Some(request.identity), s.sequence);
    CallbackKeepsController(entered, script.generate);
    if ending.Success? {
      GateAfter(CallbackOf(entered, script.generate).0, script.hook.value);
    }
  }

  const IDENTITY := BatchWorkIdentity("session", "generation")

  const REQUEST :=
    BatchGenerationRequest(0, BatchPhase.Measured, Some(1), "pair", 1, IDENTITY, [BatchUnitRequest("unit", 0, "text")])

  const OUTPUTS := [BatchAudioUnit(IDENTITY, 0, "unit", 0, 0, 24_000, 24_000, 1, "float32")]

  /** A call whose candidate answers the request, with the given hook. */
  function ScriptWith(hook: Callback): CallScript {
    CallScript(
      Nanoseconds(0), Resources(NO_RESOURCES), Returns(OUTPUTS), Nanoseconds(1), Resources(NO_RESOURCES), Some(hook))
  }

  lemma RequestIsValid()
    ensures ValidRequest(REQUEST)
    ensures !InvalidShape(REQUEST, OUTPUTS) && !ForeignOutput(REQUEST, OUTPUTS)
  {
    Utf8LengthBounded(REQUEST.units[0].text);
  }

  lemma {:induction false} Utf8LengthBounded(text: string)
    ensures Utf8Length(text) <= 4 * |text|
  {
    if text != "" {
      Utf8LengthBounded(text[1..]);
    }
  }

  /** A clock that fails before the guarded part: the call raises and leaves the controller busy for good. */
  lemma {:induction false} BackwardClockStrands()
    ensures var (s, outcome) := ExecutionOf(INITIAL, REQUEST, ScriptWith(Returns([])).(acceptedAt := Nanoseconds(-1)));
      s.active && outcome == Raised(Benchmark(GenerationFailed))
  {
    RequestIsValid();
  }

  /** A hook that invalidates the gate and activates the same identity again: the batch is published. */
  lemma ReactivatingHookPublishes()
    ensures var hook := Invalidates(Activates(IDENTITY, false, Returns([])));
      var outcome := ExecutionOf(INITIAL, REQUEST, ScriptWith(hook)).1;
      outcome.Observed? && AllPublished(REQUEST, outcome.observation, 0)
  {
    RequestIsValid();
    var hook := Invalidates(Activates(IDENTITY, false, Returns([])));
    var kept := Controller(true, Some(IDENTITY), 0);
    assert CallbackOf(kept, hook) == (kept, Success([]));
    PublishedIffFaithful(INITIAL, REQUEST, ScriptWith(hook), OUTPUTS, kept, Success([]));
  }

  /** A hook that tries the same identity in vain and then invalidates the gate: the batch is stale. */
  lemma InvalidatingLastMakesStale()
    ensures var hook := Activates(IDENTITY, true, Invalidates(Returns([])));
      var outcome := ExecutionOf(INITIAL, REQUEST, ScriptWith(hook)).1;
      && outcome.Observed? && NothingPublished(outcome.observation)
      && outcome.observation.call.failureCode == Some(StaleIdentity)
  {
    RequestIsValid();
    var hook := Activates(IDENTITY, true, Invalidates(Returns([])));
    var entered, kept := Controller(true, Some(IDENTITY), 0), Controller(true, None, 0);
    assert CallbackOf(entered, hook) == (kept, Success([])) by {
      assert CallbackOf(entered, Invalidates(Returns([]))) == CallbackOf(kept, Returns([]));
    }
    InvalidatingHookMakesStale(INITIAL, REQUEST, ScriptWith(hook), OUTPUTS, kept, Success([]));
  }

  /**
   * A batch is published if and only if every output answers its unit in its shape and the gate still
   * holds the identity of the request when the hook is done; `kept` is the controller at that moment.
   */
  lemma {:induction false} PublishedIffFaithful(
    s: Controller, request: BatchGenerationRequest, script: CallScript, outputs: seq<BatchAudioUnit>, kept: Controller,
    ending: Result<seq<BatchAudioUnit>, Error>)
    requires Hooked(s, request, script, outputs, kept, ending) && ending.Success?
    ensures ExecutionOf(s, request, script).1.Observed?
    ensures AllPublished(request, ExecutionOf(s, request, script).1.observation, s.sequence) <==>
      && kept.gate == Some(request.identity)
      && |outputs| == |request.units|
      && forall i: nat :: i < |outputs| ==> Answers(request, outputs, i) && WellShaped(outputs[i])
  {
    var entered := Controller(true, Some(request.identity), s.sequence);
    assert GuardedOf(entered, request, script) == PublicationOf(kept, request, script, outputs);
    PublicationIsAllOrNothing(s, request, script);
  }

  /** The peak of an observation is the heavier of the two snapshots the call took. */
  lemma {:induction false} ObservedPeak(s: Controller, request: BatchGenerationRequest, script: CallScript)
    ensures var outcome := ExecutionOf(s, request, script).1;
      outcome.Observed? ==> ReadingsAccepted(script) && outcome.observation.resourcePeak == Peak(script)
  {
  }

  // ---------------------------------------------------------------- what is reported, written out

  /** The limits on a request. */
  lemma {:induction false} ValidRequestWrittenOut(r: BatchGenerationRequest)
    ensures ValidRequest(r) <==>
      && (|r.units| == 1 || |r.units| == 2)
      && r.callIndex >= 0 && r.attempt == 1
      && r.identity.sessionId != "" && r.identity.generationId != ""
      && (forall i, j :: 0 <= i < j < |r.units| ==> r.units[i].unitId != r.units[j].unitId)
      && forall i :: 0 <= i < |r.units| ==>
           && r.units[i].unitId != "" && r.units[i].sourceSequence >= 0
           && 1 <= |r.units[i].text| <= 640 && |Diagnostics.Encode(CodePoints(r.units[i].text))| <= 2_048
  {
    forall i | 0 <= i < |r.units|
      ensures Utf8Length(r.units[i].text) == |Diagnostics.Encode(CodePoints(r.units[i].text))|
    {
      Utf8LengthCounts(r.units[i].text);
    }
  }

  function CodePoints(text: string): Diagnostics.Text {
    if text == "" then [] else [text[0] as int as Diagnostics.CodePoint] + CodePoints(text[1..])
  }

  /** The length is that of the encoding, byte by byte. */
  lemma {:induction false} Utf8LengthCounts(text: string)
    ensures Utf8Length(text) == |Diagnostics.Encode(CodePoints(text))|
  {
    if text != "" {
      Utf8LengthCounts(text[1..]);
    }
  }

  /** Readings are accepted if and only if nothing raises and no value is negative. */
  lemma {:induction false} ReadingsWrittenOut(clock: ClockReading, probe: ProbeReading)
    ensures ClockError(clock) == None <==> clock.Nanoseconds? && clock.value >= 0
    ensures ClockError(clock).Some? ==>
      ClockError(clock).value == if clock.ClockRaises? then clock.error else Benchmark(GenerationFailed)
    ensures ProbeError(probe) == None <==>
      && probe.Resources? && probe.value.processTreeRamBytes >= 0 && probe.value.processDedicatedVramBytes >= 0
      && probe.value.frameworkReservedVramBytes >= 0 && probe.value.freeDedicatedVramBytes >= 0
      && probe.value.sharedGpuMemoryBytes >= 0
    ensures ProbeError(probe).Some? ==>
      ProbeError(probe).value == if probe.ProbeRaises? then probe.error else Benchmark(GenerationFailed)
  {
  }

  /**
   * Which error a call raises: a refused request or a busy controller, a gate in use, the first reading
   * that is refused, a candidate whose error no handler sees, and then the readings after it.
   */
  lemma {:induction false} FirstFaultRaised(s: Controller, request: BatchGenerationRequest, script: CallScript)
    ensures var r := ExecutionOf(s, request, script).1;
      var ending := CallbackOf(Controller(true, Some(request.identity), s.sequence), script.generate).1;
      if !ValidRequest(request) || s.active || s.gate.Some? then r == Raised(Benchmark(ResourceLimit))
      else if ClockError(script.acceptedAt).Some? then r == Raised(ClockError(script.acceptedAt).value)
      else if ProbeError(script.before).Some? then r == Raised(ProbeError(script.before).value)
      else if ending == Failure(BaseException) then r == Raised(BaseException)
      else if ClockError(script.completedAt).Some? then r == Raised(ClockError(script.completedAt).value)
      else if ProbeError(script.after).Some? then r == Raised(ProbeError(script.after).value)
      else ending.Failure? ==> r.Observed?
  {
  }

  /** The call and all its units report failure with `code` and the statuses that belong to it. */
  ghost predicate FailsWith(o: BatchExecutionObservation, code: FailureCode) {
    && NothingPublished(o)
    && o.call.failureCode == Some(code)
    && (o.call.status == CallTimedOut <==> code == Timeout)
    && (o.call.status == CallCancelled <==> code == Cancelled)
    && (o.call.status == CallFailed <==> code != Timeout && code != Cancelled)
    && forall i :: 0 <= i < |o.units| ==>
         && (o.units[i].status == UnitTimedOut <==> code == Timeout)
         && (o.units[i].status == UnitCancelled <==> code == Cancelled)
         && (o.units[i].status == UnitStaleRejected <==> code == StaleIdentity)
         && (o.units[i].status == UnitFailed <==> code != Timeout && code != Cancelled && code != StaleIdentity)
  }

  lemma {:induction false} FailureFailsWith(
    request: BatchGenerationRequest, accepted: int, completed: Option<int>, code: FailureCode,
    peak: BatchResourceSnapshot)
    ensures var o := FailureObservation(request, accepted, completed, code, peak);
      FailsWith(o, code) && o.call.acceptedNanoseconds == accepted && o.call.completedNanoseconds == completed
  {
  }

  /**
   * A failing candidate is reported with its own code if it raises a benchmark error, and as a failed
   * generation otherwise; only a timeout leaves the completion time open.
   */
  lemma {:induction false} CandidateFailureReported(
    s: Controller, request: BatchGenerationRequest, script: CallScript, error: Error)
    requires ValidRequest(request) && s == Idle(s.sequence) && ReadingsAccepted(script) && error != BaseException
    requires CallbackOf(Controller(true, Some(request.identity), s.sequence), script.generate).1 == Failure(error)
    ensures var outcome := ExecutionOf(s, request, script).1;
      && outcome.Observed?
      && (forall code :: error == Benchmark(code) ==> FailsWith(outcome.observation, code))
      && (error == OtherException ==> FailsWith(outcome.observation, GenerationFailed))
      && Nanoseconds(outcome.observation.call.acceptedNanoseconds) == script.acceptedAt
      && (error == Benchmark(Timeout) <==> outcome.observation.call.completedNanoseconds == None)
      && (error != Benchmark(Timeout) ==>
            outcome.observation.call.completedNanoseconds == Some(script.completedAt.value))
  {
    var accepted, completed := script.acceptedAt.value, Some(script.completedAt.value);
    if error.Benchmark? {
      FailureFailsWith(request, accepted, if error.code == Timeout then None else completed, error.code, Peak(script));
    } else {
      FailureFailsWith(request, accepted, completed, GenerationFailed, Peak(script));
    }
  }

  /** The outputs answer the request unit by unit, in the one format that is accepted. */
  ghost predicate Faithful(request: BatchGenerationRequest, outputs: seq<BatchAudioUnit>) {
    && |outputs| == |request.units|
    && forall i :: 0 <= i < |outputs| ==>
         && outputs[i].identity == request.identity && outputs[i].callIndex == request.callIndex
         && outputs[i].unitId == request.units[i].unitId
         && outputs[i].sourceSequence == request.units[i].sourceSequence
         && outputs[i].batchPosition == i
         && 1 <= outputs[i].sampleCount <= 5_120_000 && outputs[i].sampleRateHz == 24_000
         && outputs[i].channels == 1 && outputs[i].sampleFormat == "float32"
  }

  /**
   * What becomes of a generated batch when the hook returns: stale if some output is foreign or the gate
   * is not held, otherwise invalid unless the outputs are faithful, and otherwise published. The two clock
   * readings are reported in every case.
   */
  lemma {:induction false} GeneratedBatchReported(
    s: Controller, request: BatchGenerationRequest, script: CallScript, outputs: seq<BatchAudioUnit>, kept: Controller,
    ending: Result<seq<BatchAudioUnit>, Error>)
    requires Hooked(s, request, script, outputs, kept, ending) && ending.Success?
    ensures var outcome := ExecutionOf(s, request, script).1;
      var foreign := exists i :: 0 <= i < |outputs| && outputs[i].identity != request.identity;
      && outcome.Observed?
      && Nanoseconds(outcome.observation.call.acceptedNanoseconds) == script.acceptedAt
      && outcome.observation.call.completedNanoseconds == Some(script.completedAt.value)
      && if foreign || kept.gate != Some(request.identity) then FailsWith(outcome.observation, StaleIdentity)
         else if !Faithful(request, outputs) then FailsWith(outcome.observation, InvalidOutput)
         else AllPublished(request, outcome.observation, s.sequence) && outcome.observation.published == outputs
  {
    var accepted, completed := script.acceptedAt.value, Some(script.completedAt.value);
    FailureFailsWith(request, accepted, completed, StaleIdentity, Peak(script));
    FailureFailsWith(request, accepted, completed, InvalidOutput, Peak(script));
    ShapeWrittenOut(request, outputs);
    PublishedIffFaithful(s, request, script, outputs, kept, ending);
  }

  lemma {:induction false} ShapeWrittenOut(request: BatchGenerationRequest, outputs: seq<BatchAudioUnit>)
    requires ValidRequest(request)
    ensures !InvalidShape(request, outputs) <==> Faithful(request, outputs)
    ensures Faithful(request, outputs) ==>
      forall i: nat :: i < |outputs| ==> Answers(request, outputs, i) && WellShaped(outputs[i])
  {
    if !InvalidShape(request, outputs) {
      forall i | 0 <= i < |outputs|
        ensures Answers(request, outputs, i) && WellShaped(outputs[i])
      {
      }
    }
  }

  // ---------------------------------------------------------------- nested calls

  /** The callback without its nested calls: a refused call is an error that is swallowed or passed on. */
  function WithoutReentry(callback: Callback): Callback {
    match callback
    case Returns(_) => callback
    case Raises(_) => callback
    case Invalidates(rest) => Invalidates(WithoutReentry(rest))
    case Activates(identity, caught, rest) => Activates(identity, caught, WithoutReentry(rest))
    case Reenters(_, _, caught, rest) => if caught then WithoutReentry(rest) else Raises(Benchmark(ResourceLimit))
  }

  lemma {:induction false} NestedCallbackRefused(s: Controller, callback: Callback)
    requires s.active
    ensures CallbackOf(s, callback) == CallbackOf(s, WithoutReentry(callback))
    decreases callback
  {
    match callback
    case Returns(_) =>
    case Raises(_) =>
    case Invalidates(rest) => NestedCallbackRefused(s.(gate := None), rest);
    case Activates(identity, caught, rest) =>
      NestedCallbackRefused(s, rest);
      NestedCallbackRefused(s.(gate := Some(identity)), rest);
    case Reenters(request, script, caught, rest) => NestedCallbackRefused(s, rest);
  }

  /** Nested calls never disturb the outer call: they could as well not be there. */
  lemma {:induction false} NestedCallsDoNotDisturb(s: Controller, request: BatchGenerationRequest, script: CallScript)
    ensures var plain := script.(
        generate := WithoutReentry(script.generate),
        hook := if script.hook.None? then None else Some(WithoutReentry(script.hook.value)));
      ExecutionOf(s, request, script) == ExecutionOf(s, request, plain)
  {
    var entered := Controller(true, Some(request.identity), s.sequence);
    NestedCallbackRefused(entered, script.generate);
    CallbackKeepsController(entered, script.generate);
    if script.hook.Some? {
      NestedCallbackRefused(CallbackOf(entered, script.generate).0, script.hook.value);
    }
  }

  // ---------------------------------------------------------------- whole runs

  /** What a client can do with a controller and its public gate. */
  datatype Event =
    | Call(request: BatchGenerationRequest, script: CallScript)
    | GateActivate(identity: BatchWorkIdentity)
    | GateInvalidate

  /** The state after a run and the results of its calls. */
  function RunOf(s: Controller, events: seq<Event>): (Controller, seq<Outcome>)
    decreases |events|
  {
    if events == [] then (s, [])
    else
      match events[0]
      case Call(request, script) =>
        var (s', outcome) := ExecutionOf(s, request, script);
        var (final, outcomes) := RunOf(s', events[1..]);
        (final, [outcome] + outcomes)
      case GateActivate(identity) =>
        RunOf(if s.gate.None? then s.(gate := Some(identity)) else s, events[1..])
      case GateInvalidate => RunOf(s.(gate := None), events[1..])
  }

  /** The publication numbers a list of unit observations reports. */
  function UnitNumbers(units: seq<BatchUnitObservation>): seq<int> {
    if units == [] then []
    else (if units[0].publishedSequence.Some? then [units[0].publishedSequence.value] else []) + UnitNumbers(units[1..])
  }

  /** The publication numbers of a run, call by call. */
  function Numbers(outcomes: seq<Outcome>): seq<int> {
    if outcomes == [] then []
    else (if outcomes[0].Observed? then UnitNumbers(outcomes[0].observation.units) else []) + Numbers(outcomes[1..])
  }

  /** `first`, `first + 1`, ... up to but not including `last`. */
  function Range(first: int, last: int): seq<int>
    decreases last - first
  {
    if first >= last then [] else [first] + Range(first + 1, last)
  }

  lemma {:induction false} RangeSplit(first: int, middle: int, last: int)
    requires first <= middle <= last
    ensures Range(first, middle) + Range(middle, last) == Range(first, last)
    decreases middle - first
  {
    if first < middle {
      RangeSplit(first + 1, middle, last);
      assert [first] + Range(first + 1, middle) + Range(middle, last)
          == [first] + (Range(first + 1, middle) + Range(middle, last));
    }
  }

  lemma {:induction false} NumberedUnits(units: seq<BatchUnitObservation>, first: int)
    requires forall i :: 0 <= i < |units| ==> units[i].publishedSequence == Some(first + i)
    ensures UnitNumbers(units) == Range(first, first + |units|)
  {
    if units != [] {
      forall i | 0 <= i < |units[1..]|
        ensures units[1..][i].publishedSequence == Some(first + 1 + i)
      {
        assert units[1..][i] == units[i + 1];
      }
      NumberedUnits(units[1..], first + 1);
    }
  }

  lemma {:induction false} UnnumberedUnits(units: seq<BatchUnitObservation>)
    requires forall i :: 0 <= i < |units| ==> units[i].publishedSequence == None
    ensures UnitNumbers(units) == []
  {
    if units != [] {
      UnnumberedUnits(units[1..]);
    }
  }

  lemma {:induction false} PublishedUnitsNumbered(
    request: BatchGenerationRequest, o: BatchExecutionObservation, first: int)
    requires AllPublished(request, o, first)
    ensures UnitNumbers(o.units) == Range(first, first + |o.published|)
  {
    forall i | 0 <= i < |o.units|
      ensures o.units[i].publishedSequence == Some(first + i)
    {
      assert PublishedAs(
        o.units[i], o.published[i], o.call.completedNanoseconds.value - o.call.acceptedNanoseconds, first + i);
    }
    NumberedUnits(o.units, first);
  }

  lemma {:induction false} CallNumbers(s: Controller, request: BatchGenerationRequest, script: CallScript)
    ensures var (s', outcome) := ExecutionOf(s, request, script);
      && s.sequence <= s'.sequence
      && (if outcome.Observed? then UnitNumbers(outcome.observation.units) else []) == Range(s.sequence, s'.sequence)
  {
    PublicationIsAllOrNothing(s, request, script);
    var outcome := ExecutionOf(s, request, script).1;
    if outcome.Observed? {
      if NothingPublished(outcome.observation) {
        UnnumberedUnits(outcome.observation.units);
      } else {
        PublishedUnitsNumbered(request, outcome.observation, s.sequence);
      }
    }
  }

  /** Over any run the publication numbers are consecutive: no gap, no repeat, none spent on a failure. */
  lemma {:induction false} RunNumbersConsecutively(s: Controller, events: seq<Event>)
    ensures var (s', outcomes) := RunOf(s, events);
      s.sequence <= s'.sequence && Numbers(outcomes) == Range(s.sequence, s'.sequence)
    decreases |events|
  {
    if events != [] {
      match events[0]
      case Call(request, script) =>
        var (s', outcome) := ExecutionOf(s, request, script);
        CallNumbers(s, request, script);
        RunNumbersConsecutively(s', events[1..]);
        var (final, rest) := RunOf(s', events[1..]);
        RangeSplit(s.sequence, s'.sequence, final.sequence);
        assert ([outcome] + rest)[1..] == rest;
      case GateActivate(identity) =>
        RunNumbersConsecutively(if s.gate.None? then s.(gate := Some(identity)) else s, events[1..]);
      case GateInvalidate => RunNumbersConsecutively(s.(gate := None), events[1..]);
    }
  }

  /** A stranded controller refuses every later call, whatever the client does with the gate. */
  lemma {:induction false} StrandedForever(s: Controller, events: seq<Event>)
    requires s.active
    ensures var (s', outcomes) := RunOf(s, events);
      && s'.active && s'.sequence == s.sequence
      && forall i :: 0 <= i < |outcomes| ==> outcomes[i] == Raised(Benchmark(ResourceLimit))
    decreases |events|
  {
    if events != [] {
      match events[0]
      case Call(request, script) => StrandedForever(s, events[1..]);
      case GateActivate(identity) =>
        StrandedForever(if s.gate.None? then s.(gate := Some(identity)) else s, events[1..]);
      case GateInvalidate => StrandedForever(s.(gate := None), events[1..]);
    }
  }

  // ---------------------------------------------------------------- resource extremes

  ghost predicate Dominates(peak: BatchResourceSnapshot, v: BatchResourceSnapshot) {
    && v.processTreeRamBytes <= peak.processTreeRamBytes
    && v.processDedicatedVramBytes <= peak.processDedicatedVramBytes
    && v.frameworkReservedVramBytes <= peak.frameworkReservedVramBytes
    && v.freeDedicatedVramBytes >= peak.freeDedicatedVramBytes
    && v.sharedGpuMemoryBytes <= peak.sharedGpuMemoryBytes
  }

  /** Every counter of the maximum is reached by one of the snapshots. */
  ghost predicate Attained(peak: BatchResourceSnapshot, values: seq<BatchResourceSnapshot>) {
    && (exists v :: v in values && v.processTreeRamBytes == peak.processTreeRamBytes)
    && (exists v :: v in values && v.processDedicatedVramBytes == peak.processDedicatedVramBytes)
    && (exists v :: v in values && v.frameworkReservedVramBytes == peak.frameworkReservedVramBytes)
    && (exists v :: v in values && v.freeDedicatedVramBytes == peak.freeDedicatedVramBytes)
    && (exists v :: v in values && v.sharedGpuMemoryBytes == peak.sharedGpuMemoryBytes)
  }

  lemma {:induction false} MaximumIsExtreme(values: seq<BatchResourceSnapshot>)
    requires values != []
    ensures forall v :: v in values ==> Dominates(MaximumResources(values), v)
    ensures Attained(MaximumResources(values), values)
  {
    assert values[0] in values;
    if |values| > 1 {
      MaximumIsExtreme(values[1..]);
      assert forall v :: v in values[1..] ==> v in values;
      assert forall v :: v in values ==> v == values[0] || v in values[1..];
    }
  }

  lemma {:induction false} MaximumOfConcatenation(xs: seq<BatchResourceSnapshot>, ys: seq<BatchResourceSnapshot>)
    requires xs != [] && ys != []
    ensures MaximumResources(xs + ys) == Heavier(MaximumResources(xs), MaximumResources(ys))
  {
    if |xs| == 1 {
      assert (xs + ys)[1..] == ys;
    } else {
      MaximumOfConcatenation(xs[1..], ys);
      assert (xs + ys)[1..] == xs[1..] + ys;
    }
  }
}
