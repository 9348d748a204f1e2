/** The records that cross the batch benchmark boundary. Durations and real-time factors are exact. */
module BatchContracts {
  import opened Wrappers

  datatype BatchPhase = Warmup | Measured | Cancellation

  datatype FailureCode =
    | Cancelled | CleanupFailed | GenerationFailed | InvalidOutput | OutOfMemory
    | Privacy | ResourceLimit | StaleIdentity | Timeout

  datatype CallStatus = CallCompleted | CallFailed | CallTimedOut | CallCancelled

  datatype UnitStatus = UnitCompleted | UnitFailed | UnitTimedOut | UnitCancelled | UnitStaleRejected

  datatype BatchWorkIdentity = BatchWorkIdentity(sessionId: string, generationId: string)

  datatype BatchUnitRequest = BatchUnitRequest(unitId: string, sourceSequence: int, text: string)

  datatype BatchGenerationRequest = BatchGenerationRequest(
    callIndex: int,
    phase: BatchPhase,
    passIndex: Option<int>,
    pairId: string,
    attempt: int,
    identity: BatchWorkIdentity,
    units: seq<BatchUnitRequest>)

  datatype BatchAudioUnit = BatchAudioUnit(
    identity: BatchWorkIdentity,
    callIndex: int,
    unitId: string,
    sourceSequence: int,
    batchPosition: int,
    sampleCount: int,
    sampleRateHz: int,
    channels: int,
    sampleFormat: string)

  datatype BatchResourceSnapshot = BatchResourceSnapshot(
    processTreeRamBytes: int,
    processDedicatedVramBytes: int,
    frameworkReservedVramBytes: int,
    freeDedicatedVramBytes: int,
    sharedGpuMemoryBytes: int)

  datatype BatchCallObservation = BatchCallObservation(
    callIndex: int,
    phase: BatchPhase,
    passIndex: Option<int>,
    pairId: string,
    batchSize: nat,
    unitIds: seq<string>,
    attempt: int,
    acceptedNanoseconds: int,
    completedNanoseconds: Option<int>,
    status: CallStatus,
    failureCode: Option<FailureCode>)

  datatype BatchUnitObservation = BatchUnitObservation(
    callIndex: int,
    unitId: string,
    sourceSequence: int,
    batchPosition: int,
    sampleCount: Option<int>,
    sampleRateHz: int,
    durationSeconds: Option<real>,
    firstAudioNanoseconds: Option<int>,
    completionNanoseconds: Option<int>,
    requestRtf: Option<real>,
    publishedSequence: Option<int>,
    status: UnitStatus,
    failureCode: Option<FailureCode>)

  datatype BatchExecutionObservation = BatchExecutionObservation(
    call: BatchCallObservation,
    units: seq<BatchUnitObservation>,
    published: seq<BatchAudioUnit>,
    peakRetainedUnits: nat,
    peakActiveBatches: nat,
    resourcePeak: BatchResourceSnapshot)
}
