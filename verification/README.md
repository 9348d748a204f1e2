# Batch narration pipeline: a verified model

This project models the parts of the VoxLeaf repository whose correctness is hardest to see from the
code, and proves what they promise for all inputs, all runs and all interleavings.

The first half is the v4 batch narration benchmark, followed from end to end. `BatchMatrix` builds the
frozen call order, `BatchExecution` runs each call between an untrusted candidate, clock, probe and
hook, `BatchOfficial` contains errors and stops at a terminal code, `BatchPlayback` replays the result
as a bounded buffer, and `BatchResult` derives the aggregate real-time factors. The lemmas tie these
together: what the controller observes is what the timeline and the aggregates need, and a run without
failure publishes the corpus exactly as planned.

The second half is six smaller components: the streaming detector of forbidden text (`Diagnostics`),
the StrictMode-safe resource hook (`StrictModeCleanup`), the narration handoff of the desktop shell
(`NarrationHandoff`), the ranked speaker screen (`SpeakerScreen`), the byte mutations of the EPUB
fixtures (`EpubFixture`) and the aggregation of a listening scorecard (`Scorecard`).

## How the model reads

- Code that changes state is a class or a method with loops, proved against a function of the old
  state. The laws are lemmas about that function and about runs of it.
- Foreign code is a `Callback`: it may return any output, raise any error, change the identity gate and
  call the controller again, in any order and to any depth. A `CallScript` adds arbitrary readings of the
  clock and the probe, which only read or raise. A controller without a probe is one whose readings are zero.
- In an official run the memory monitor, the worker process and the clock are arbitrary inputs, given
  call by call as `Surroundings`.
- The diagnostic writer separates captures: what is written before a `discard` and after it is searched
  segment by segment, as the capture promises (`DiscardSeparatesCaptures`). `ReportMatchesTextIff` says
  exactly when that agrees with a search of the whole text.
- The desktop protocols are steps that interleave freely; `Enabled` says when a step can happen.
- Every induction is written out: automatic induction is off for lemmas about sequences, maps and datatypes.
- Durations, means and real-time factors are exact rationals. The simulator uses exact fractions too;
  the controller, the result derivation, the speaker screen and the scorecard use floating point.

## Where the code and its promises differ

- `NarrationHandoff`: a ready handoff does not mean that the captured removals were fulfilled. The code
  swallows their rejection (`apps/desktop/src/App.tsx:304`): `RejectedRemovalStillReady` is a run that ends
  ready after a rejected removal, `ReadyImpliesRemovedIff` says exactly when a ready handoff does mean it,
  and `RunIgnoresResults` that readiness never depends on the results of removals.
- `NarrationHandoff`: a failed handoff does not mean that every earlier close has settled. A rejected close
  settles its barrier at once (`RejectedCloseFailsEarly`). `NotPendingMeansFinishedOrRejected` says what a
  handoff that is not pending means at every moment of a run, `NotPendingMeansSettledIff` exactly when it
  means that everything has settled, and `DrainedHandoffIsVerdict` what the handoff becomes, and when it
  stays pending, for whatever closes and removals have settled.
- `BatchExecution`: invalidating the gate before publication does not always make the batch stale:
  `ReactivatingHookPublishes` is a hook that invalidates the gate and activates the same identity again.
  `InvalidatingHookMakesStale` says exactly which invalidating hooks make the batch stale, and
  `StaleIffForeignOrReleased` exactly when any hook does.
- `BatchExecution`: an error of the clock or the probe before the guarded part strands the controller;
  so does a gate that is already active. `BackwardClockStrands` is such a call, and
  `CallLeavesIdleUnlessStranded` says exactly when it happens.
- `Scorecard`: the final comparison of observed and expected samples can never fail.
- `Scorecard`: an unknown language ends in a missing key and a language without scores in a statistics
  error, not in the ordinary rejection (`UnusedLanguageWitness`). The private map decides both:
  `UnknownLanguageIffMissing` and `NoScoresIffLanguageUnused` give the exact conditions.

## Model

| member | source | states |
|---|---|---|
| BatchPlayback.SimulateBoundedPlayback | services/tts/benchmarks/batch_playback.py:56-143 | An empty timeline is refused; otherwise the first refused arrival decides the error, and an accepted timeline reports the closed-form buffering, underruns, startup and peaks, with everything played at the end |
| BatchPlayback.PlaybackRun.Consume | services/tts/benchmarks/batch_playback.py:77-90 | Plays exactly the smaller of the asked and the buffered seconds; the queue becomes the tail of the old queue after them |
| BatchPlayback.PlaybackRun.PlayHead | services/tts/benchmarks/batch_playback.py:80-90 | One pass of the drain: the head is popped or shortened, and the queue shrinks or nothing remains to play |
| BatchPlayback.DrainHead | services/tts/benchmarks/batch_playback.py:81-90 | Popping an ended head or shortening a running one is the tail of the queue after the consumed seconds, with positive units and the right sum |
| BatchPlayback.PlaybackRun.Elapse | services/tts/benchmarks/batch_playback.py:101-111 | The uncovered part of the elapsed time is added to buffering, and there is one underrun exactly when something is uncovered |
| BatchPlayback.PlaybackRun.Append | services/tts/benchmarks/batch_playback.py:112-120 | The unit joins the end of the queue; playback starts with the first unit that reaches the lead, or with the last one |
| BatchPlayback.PlaybackRun.Receive | services/tts/benchmarks/batch_playback.py:101-120 | One valid arrival takes the accumulators from the closed-form law of i arrivals to that of i + 1 |
| BatchPlayback.PlaybackRun.Accept | services/tts/benchmarks/batch_playback.py:121-125 | The queue and buffer limits refuse exactly the arrivals the law refuses; the peaks stay attained maxima |
| BatchPlayback.PlaybackRun.Advance | services/tts/benchmarks/batch_playback.py:92-126 | One iteration returns the arrival's verdict: stale, invalid, over a limit, or none with the law kept |
| BatchPlayback.PlaybackRun.Replay | services/tts/benchmarks/batch_playback.py:92-126 | The loop stops at the first refused arrival with its verdict, otherwise the law holds for the whole timeline |
| BatchPlayback.PlaybackRun.Finish | services/tts/benchmarks/batch_playback.py:128-143 | The final drain empties the queue, plays all media, and the summary reports the law |
| BatchPlayback.PerMinute | services/tts/benchmarks/batch_playback.py:130 | The rate times the media is sixty times the buffering |
| BatchPlayback.BufferConservation | services/tts/benchmarks/batch_playback.py:77-128 | At every loop head played plus buffered is the media, the queue sums to the buffer and is empty only with it, and after startup wall time is played plus buffering |
| BatchPlayback.QueueIsTail | services/tts/benchmarks/batch_playback.py:80-90 | The queue is a suffix of the arrived units of which only the head is partly played, up to exactly the played seconds |
| BatchPlayback.AfterIsTail | services/tts/benchmarks/batch_playback.py:80-90 | What is left after some seconds is a suffix of the units with a shortened head |
| BatchPlayback.PlaybackStep | services/tts/benchmarks/batch_playback.py:101-115 | The closed-form stall, played time and queue advance by what the elapsed time can and cannot take from the buffer; an underrun is a new lateness record |
| BatchPlayback.StallIsMaximum | services/tts/benchmarks/batch_playback.py:106-110 | Total buffering is the largest lateness of any arrival after startup, cut off at zero |
| BatchPlayback.BufferingIsLeastDelay | services/tts/benchmarks/batch_playback.py:92-126 | An extra start delay makes uninterrupted playback possible, in continuous time, if and only if it is at least the reported buffering |
| BatchPlayback.UnderrunsAndBuffering | services/tts/benchmarks/batch_playback.py:106-110 | There is no underrun if and only if there is no buffering |
| BatchPlayback.UnderrunsPerCompletion | services/tts/benchmarks/batch_playback.py:106-110 | There are at most as many underruns as distinct completion times after startup |
| BatchPlayback.StartCharacterised | services/tts/benchmarks/batch_playback.py:116-120 | No arrival before the startup arrival reaches the lead, and the startup arrival reaches it or is the last |
| BatchPlayback.StartWrittenOut | services/tts/benchmarks/batch_playback.py:116-120 | Playback starts when fifteen seconds of media have arrived, or at the last arrival, and not before |
| BatchPlayback.WaitingCountsNotBegun | services/tts/benchmarks/batch_playback.py:121 | The units counted against the queue limit are the arrived units that playback has not begun: all of them before startup, after it those behind the unit being played |
| BatchPlayback.VerdictWrittenOut | services/tts/benchmarks/batch_playback.py:93-123 | An arrival after valid ones is stale, invalid, over a limit or accepted: over a limit if and only if more than two arrived units are not begun or more than forty seconds of media are not played |
| BatchPlayback.ReportedPeaks | services/tts/benchmarks/batch_playback.py:121-125 | The reported peaks are the largest number of arrived units not begun and the largest media arrived and not played, over all arrivals, and both are reached |
| BatchPlayback.ReportWrittenOut | services/tts/benchmarks/batch_playback.py:116-143 | The reported startup time and media, played media, smallest buffer, buffering per minute of media and constants |
| BatchPlayback.AcceptedTimelineBounds | services/tts/benchmarks/batch_playback.py:101-129 | Every accepted timeline is valid, starts by its third arrival, and after each arrival has at most two units not begun and at most forty seconds not played |
| BatchPlayback.AcceptedReportKeepsPromises | services/tts/benchmarks/batch_playback.py:106-143 | The reported peaks of an accepted timeline keep the limits, underruns vanish exactly with buffering and are at most one per later completion time, and the reported buffering is the least extra start delay that avoids every pause |
| BatchExecution.BatchIdentityGate.Activate | services/tts/benchmarks/batch_execution.py:39-42 | An identity is taken only by an empty gate |
| BatchExecution.BatchIdentityGate.Invalidate | services/tts/benchmarks/batch_execution.py:44-45 | The gate is empty afterwards |
| BatchExecution.BoundedOrderedBatchController.constructor | services/tts/benchmarks/batch_execution.py:156-166 | A new controller is idle, holds no identity and numbers from zero |
| BatchExecution.BoundedOrderedBatchController.Execute | services/tts/benchmarks/batch_execution.py:191-326 | Result, busy flag, gate and publication number are those of the call's value, whatever the foreign code does |
| BatchExecution.BoundedOrderedBatchController.Guarded | services/tts/benchmarks/batch_execution.py:205-280 | The guarded part yields the value's result and publication number on every exit and every error |
| BatchExecution.BoundedOrderedBatchController.Publish | services/tts/benchmarks/batch_execution.py:235-323 | Rejects or publishes the generated outputs and advances the publication number as the value of the publication says |
| BatchExecution.BoundedOrderedBatchController.RunCallback | services/tts/benchmarks/batch_execution.py:207-234 | Foreign code that uses the gate and calls back leaves the state and the result of its value |
| BatchExecution.PublicationIsAllOrNothing | services/tts/benchmarks/batch_execution.py:231-323 | An observation mirrors its request and publishes every unit in order or none at all; the counter advances by exactly what was published |
| BatchExecution.PublishedIffFaithful | services/tts/benchmarks/batch_execution.py:235-273 | A generated batch is published if and only if the gate still holds its identity and every output answers its unit in its shape |
| BatchExecution.InvalidatingHookMakesStale | services/tts/benchmarks/batch_execution.py:233-280 | A hook that invalidates the gate and returns makes the batch stale, with nothing published, if and only if some output is foreign or the identity it activates first after its last invalidation is not the one of the request; the call ends in an error if and only if the hook raises |
| BatchExecution.StaleIffForeignOrReleased | services/tts/benchmarks/batch_execution.py:231-280 | After any hook that returns the batch is stale if and only if some output is foreign or the gate no longer holds the identity; the call raises exactly when the hook raises, with its error |
| BatchExecution.GateAfter | services/tts/benchmarks/batch_execution.py:39-48 | What the gate holds after foreign code that returns: the identity first activated after the last invalidation, or without one the identity it found or activated first |
| BatchExecution.ReactivatingHookPublishes | services/tts/benchmarks/batch_execution.py:233-273 | A hook that invalidates the gate and activates the same identity again: the batch is published |
| BatchExecution.InvalidatingLastMakesStale | services/tts/benchmarks/batch_execution.py:233-280 | A hook that tries the same identity in vain and then invalidates the gate: the batch is stale |
| BatchExecution.CallLeavesIdleUnlessStranded | services/tts/benchmarks/batch_execution.py:198-205 | The controller is busy after a call exactly if it was busy before or the call failed between taking it and the guarded part; otherwise the gate is empty |
| BatchExecution.StrandedForever | services/tts/benchmarks/batch_execution.py:199-204 | A stranded controller refuses every later call of any run and never changes its number |
| BatchExecution.BackwardClockStrands | services/tts/benchmarks/batch_execution.py:168-204 | A negative clock value before the guarded part: the call raises and the controller stays busy |
| BatchExecution.NestedCallsDoNotDisturb | services/tts/benchmarks/batch_execution.py:198-201 | Removing every nested call from candidate and hook changes neither the result nor the state |
| BatchExecution.CallbackKeepsController | services/tts/benchmarks/batch_execution.py:199-234 | Foreign code inside a call cannot free the controller or consume a publication number |
| BatchExecution.RunNumbersConsecutively | services/tts/benchmarks/batch_execution.py:297-302 | Over any run the published numbers, concatenated, are consecutive; no failed or refused call consumes one |
| BatchExecution.FailureLaw | services/tts/benchmarks/batch_execution.py:90-150 | A failure mirrors its request, publishes nothing and gives every unit the code of the call |
| BatchExecution.CompletionLaw | services/tts/benchmarks/batch_execution.py:281-323 | A completion mirrors its request, and every unit reports its number, duration and real-time factor |
| BatchExecution.ValidRequestWrittenOut | services/tts/benchmarks/batch_execution.py:69-87 | Which requests are accepted, with every limit: one or two units of different identifiers, 640 characters and 2048 encoded bytes each |
| BatchExecution.Utf8LengthCounts | services/tts/benchmarks/batch_execution.py:85 | The length of a text is the number of bytes of its encoding |
| BatchExecution.ReadingsWrittenOut | services/tts/benchmarks/batch_execution.py:168-189 | A clock or probe reading is accepted if and only if it does not raise and holds no negative value, and which error it ends in otherwise |
| BatchExecution.FirstFaultRaised | services/tts/benchmarks/batch_execution.py:198-232 | Which error a call raises: refusal, a gate in use, then the first bad reading or unhandled candidate error in the order they occur |
| BatchExecution.CandidateFailureReported | services/tts/benchmarks/batch_execution.py:206-229 | A failing candidate is reported with its own code for a benchmark error and as a failed generation otherwise, with the statuses of that code, both clock readings, and the completion time open only for a timeout |
| BatchExecution.GeneratedBatchReported | services/tts/benchmarks/batch_execution.py:233-323 | A generated batch is stale if an output is foreign or the gate is not held, otherwise invalid unless the outputs are faithful in all their limits, otherwise published as a whole; with the statuses and clock readings of each case |
| BatchExecution.ObservedPeak | services/tts/benchmarks/batch_execution.py:204-232 | The reported peak is the maximum of the two snapshots, and an observation needs all four readings accepted |
| BatchExecution.MaximumIsExtreme | services/tts/benchmarks/batch_execution.py:55-66 | The maximum dominates every snapshot, free memory counting downwards, and each counter is attained |
| BatchExecution.MaximumOfConcatenation | services/tts/benchmarks/batch_execution.py:55-66 | The maximum of two runs of snapshots is the heavier of their maxima |
| BatchMatrix.UnitTableKeepsLast | services/tts/benchmarks/batch_matrix.py:52-60 | The table has an entry for exactly the identifiers of the corpus, and of a repeated identifier it keeps the last unit |
| BatchMatrix.FrozenRequests | services/tts/benchmarks/batch_matrix.py:44-133 | An authority is refused for its first fault; otherwise the requests are the planned calls, each numbered by its position |
| BatchMatrix.RequestList.Add | services/tts/benchmarks/batch_matrix.py:71-88 | Appends one planned call exactly if all its units are known |
| BatchMatrix.RequestList.AddWarmup | services/tts/benchmarks/batch_matrix.py:90-108 | Three warm-up calls on the first pair, refused exactly if it is short or has an unknown unit |
| BatchMatrix.RequestList.AddSingles | services/tts/benchmarks/batch_matrix.py:118-125 | One call per unit of the pair, in order |
| BatchMatrix.RequestList.AddPair | services/tts/benchmarks/batch_matrix.py:118-132 | A pair is added unit by unit or as one batch |
| BatchMatrix.RequestList.AddBlock | services/tts/benchmarks/batch_matrix.py:117-132 | One batch size walks all pairs in order |
| BatchMatrix.RequestList.AddSize | services/tts/benchmarks/batch_matrix.py:114-132 | A batch size other than one and two is refused, any other walks the corpus |
| BatchMatrix.RequestList.AddPass | services/tts/benchmarks/batch_matrix.py:114-132 | One pass runs its batch sizes in order and reports the first fault |
| BatchMatrix.RequestList.AddPasses | services/tts/benchmarks/batch_matrix.py:110-132 | All passes in order, numbered from one |
| BatchMatrix.AcceptedAuthority | services/tts/benchmarks/batch_matrix.py:90-132 | An authority is accepted if and only if the first pair has two units, all of them listed in the corpus, every batch size is one or two, and every pair that a pass walks is listed |
| BatchMatrix.RefusedAuthority | services/tts/benchmarks/batch_matrix.py:90-132 | Which fault refuses an authority: the warm-up lookup; with all pairs listed any wrong size; otherwise the first size if it is wrong and a lookup if not |
| BatchMatrix.BlockCoversCorpus | services/tts/benchmarks/batch_matrix.py:117-132 | Either batch size generates every unit of every pair exactly once in corpus order, so both blocks flatten to the same sequence |
| BatchMatrix.SingleBlock | services/tts/benchmarks/batch_matrix.py:118-125 | A block of batch size one makes one call for each unit of the corpus, in order, under the pair of that unit |
| BatchMatrix.PairBlock | services/tts/benchmarks/batch_matrix.py:126-132 | A block of the other size makes one call for each pair, with the units of that pair |
| BatchMatrix.MeasuredRequestAt | services/tts/benchmarks/batch_matrix.py:109-132 | At each position of each block of each pass: one corpus unit for batch size one, one whole pair for batch size two, with phase, pass counted from one, pair, identity, index, and the last corpus entry of each unit |
| BatchMatrix.WarmupRequestAt | services/tts/benchmarks/batch_matrix.py:90-108 | The first three requests are the two units of the first pair alone and then that pair, and the measured ones follow |
| BatchMatrix.MeasuredCoversCorpus | services/tts/benchmarks/batch_matrix.py:110-132 | The measured calls generate the corpus once for every batch size of every pass |
| BatchMatrix.BuiltRequestsAreValid | services/tts/benchmarks/batch_execution.py:69-87 | Every request built from a corpus of usable pairs passes the controller's validation and is numbered by its position |
| BatchMatrix.ExecuteMechanics | services/tts/benchmarks/batch_matrix.py:152-185 | The calls run in order until one raises; the gate is empty afterwards, and a failed cleanup is only recorded in the receipt |
| BatchMatrix.MechanicsStopsAtRaise | services/tts/benchmarks/batch_matrix.py:156-157 | The run ends with the error of the first call that raises and the state that call leaves |
| BatchMatrix.MechanicsObservesAt | services/tts/benchmarks/batch_matrix.py:156-157 | A run that is not stopped records each call's own observation |
| BatchMatrix.RunAnswersRequests | services/tts/benchmarks/batch_matrix.py:156-157 | A finished run observes each request in turn and numbers its publications without a gap |
| BatchMatrix.RunMirrorsRequests | services/tts/benchmarks/batch_matrix.py:156-157 | There is one observation per request and it mirrors the request at its position |
| BatchMatrix.HighWaterCoversEverySnapshot | services/tts/benchmarks/batch_matrix.py:185-231 | The receipt's high-water marks are the extremes over every snapshot the run took, not only over the per-call peaks |
| BatchMatrix.MeasuredCounts | services/tts/benchmarks/batch_matrix.py:191-197 | Measured calls split into one-unit and two-unit calls, and the measured units follow from them |
| BatchMatrix.PublishedCounts | services/tts/benchmarks/batch_matrix.py:174-209 | There is no failure code if and only if every unit was published; at most two units are retained and one batch is active |
| BatchMatrix.ReceiptMeans | services/tts/benchmarks/batch_matrix.py:191-231 | The counts of a finished run's receipt are those of its requests, its published units are the numbers spent, and its high-water marks the extremes of all snapshots |
| BatchMatrix.ReceiptObservations | services/tts/benchmarks/batch_matrix.py:174-209 | The retained maximum is reached and at most two, one batch was active, the codes are exactly those of the calls and of a failed cleanup, and none means everything was published |
| BatchMatrix.FaultlessRunPublishesCorpus | services/tts/benchmarks/batch_matrix.py:90-133 | A run of the frozen order without failure publishes the warm-up units and then the corpus in order, once per batch size and pass |
| BatchOfficial.ExecuteOfficial | services/tts/benchmarks/batch_official.py:721-738 | The loop returns the observations of the run's value, with raised errors contained and the terminal code carried forward |
| BatchOfficial.FailedObservationLaw | services/tts/benchmarks/batch_official.py:301-361 | The record of a call that was not executed mirrors its request, publishes nothing and carries the code |
| BatchOfficial.OfficialRunAnswersRequests | services/tts/benchmarks/batch_official.py:721-738 | Observation i reports request i, and publications over the run are numbered without a gap |
| BatchOfficial.ContainedIsObserved | services/tts/benchmarks/batch_official.py:373-393 | A contained call answers its request and advances the publication number by what it published, whether it returned or raised |
| BatchOfficial.TerminalRunFailsEverything | services/tts/benchmarks/batch_official.py:722-724 | Once there is a terminal code, every later request is recorded failed with it and the controller is not touched |
| BatchOfficial.TerminalCodeEndsExecution | services/tts/benchmarks/batch_official.py:712-738 | Executed calls form a prefix without a terminal observation before its end, and the last one's code is the code of all the rest |
| BatchOfficial.RunStopsAtFirstEnd | services/tts/benchmarks/batch_official.py:721-738 | Executed calls go on while there is no memory stop, a live worker and neither an exhausted memory nor a timeout; the rest is recorded failed with the memory stop's code, else the last call's own, else a failed generation |
| BatchOfficial.ExecutedObservation | services/tts/benchmarks/batch_official.py:725-731 | Each executed request is recorded with what the controller did with it after the calls before it |
| BatchOfficial.ContainedWrittenOut | services/tts/benchmarks/batch_official.py:373-393 | A call that returned is recorded as it is; one that raised is recorded failed, over a resource limit if it was cancelled for memory and as a failed generation otherwise |
| BatchOfficial.PlaybackRaw | services/tts/benchmarks/batch_official.py:431-465 | Incomplete exactly if there is no timeline, invalid exactly if the simulator refuses it, otherwise the simulator's summary of it |
| BatchOfficial.TimelineExistsIffComplete | services/tts/benchmarks/batch_official.py:438-453 | There is a timeline if and only if every measured two-unit call and all its units are complete |
| BatchOfficial.RunTimelineIsValid | services/tts/benchmarks/batch_official.py:454-465 | The timeline of a run passes the validation of every arrival, so it is refused only if it is empty or exceeds a limit |
| BatchOfficial.CutOffPlaybackIsIncomplete | services/tts/benchmarks/batch_official.py:440-445 | If a terminal code cuts off a measured two-unit call, playback is incomplete |
| BatchOfficial.OfficialPlayback | services/tts/benchmarks/batch_official.py:431-465 | For every official run: incomplete if and only if a measured two-unit call is incomplete, and a timeline fails only for being empty or for a limit |
| BatchResult.UnitsByCall | services/tts/benchmarks/batch_result.py:138-143 | The table holds for every index exactly the units of that call, in order |
| BatchResult.AggregateRtf | services/tts/benchmarks/batch_result.py:88-108 | The ratio of the total wall time of the calls with a completion time to the media of their units, zero without either |
| BatchResult.Ratio | services/tts/benchmarks/batch_result.py:104-108 | The ratio times the media is the wall time, and zero when one of them is missing |
| BatchResult.GroupingRecoversUnits | services/tts/benchmarks/batch_result.py:138-143 | Grouping the flattened units by call index recovers the units of each observation |
| BatchResult.PublishedIsTimely | services/tts/benchmarks/batch_execution.py:281-302 | A published call whose clock did not run backwards accounts for its wall time unit by unit |
| BatchResult.AggregateWithinUnitFactors | services/tts/benchmarks/batch_result.py:88-108 | The size of the calls times their aggregate factor lies between any bounds of the per-unit factors |
| BatchResult.RunIsDistinguished | services/tts/benchmarks/batch_result.py:137-143 | A run of numbered requests yields distinct call indexes, and its completed calls are timely |
| BatchResult.RunAggregateWithinUnitFactors | services/tts/benchmarks/batch_result.py:150-163 | For a run of numbered requests the batch-one aggregate lies between the extreme per-unit factors and the batch-two aggregate between half of them |
| BatchResult.TotalsOfRun | services/tts/benchmarks/batch_result.py:92-108 | Whatever fails in a run, the wall time of a group is that of all its calls with a completion time, failed ones included, and its media is exactly what was published |
| BatchResult.TimelineOfRun | services/tts/benchmarks/batch_official.py:436-461 | The playback timeline lists the published units of the measured two-unit calls in order; both units of a call arrive when all such calls up to it have run |
| BatchResult.PlaybackIncompleteIff | services/tts/benchmarks/batch_official.py:438-453 | Playback of a run is incomplete if and only if some measured request of two units failed or was timed by a clock that ran backwards |
| BatchResult.AggregateIsTimelineRatio | services/tts/benchmarks/batch_result.py:88-108 | The batch-two aggregate factor is the completion time of the last playback arrival over the media of the whole timeline |
| BatchResult.OfficialAggregates | services/tts/benchmarks/batch_result.py:229-230 | For every official run of an accepted authority: the aggregate of a complete batch size lies within the scaled unit factors, and the batch-two aggregate is that of the playback timeline |
| Diagnostics.BoundedDiagnosticWriter.constructor | services/tts/benchmarks/diagnostics.py:23-34 | Keeps exactly the forbidden values that are not empty and has observed nothing |
| Diagnostics.BoundedDiagnosticWriter.Write | services/tts/benchmarks/diagnostics.py:36-55 | The current segment grows by the written value, and the state keeps reporting exactly the segments written |
| Diagnostics.BoundedDiagnosticWriter.WriteAll | services/tts/benchmarks/diagnostics.py:36-55 | A run of writes grows the current segment by the joined text and leaves the state of its value |
| Diagnostics.BoundedDiagnosticWriter.Retain | services/tts/benchmarks/diagnostics.py:37-43 | The retained bytes grow by the encoded value as far as the bound allows; overflow is noted |
| Diagnostics.BoundedDiagnosticWriter.Match | services/tts/benchmarks/diagnostics.py:45-54 | The value and the window around the boundary are searched, and the kept suffix moves on |
| Diagnostics.BoundedDiagnosticWriter.Observation | services/tts/benchmarks/diagnostics.py:57-62 | Bytes, truncation and sensitivity of everything written, however it was split into writes |
| Diagnostics.BoundedDiagnosticWriter.Discard | services/tts/benchmarks/diagnostics.py:64-66 | Starts a new segment; what was observed before stays observed |
| Diagnostics.CrossingWindow | services/tts/benchmarks/diagnostics.py:45-50 | A value occurs in the longer text if and only if it occurs in the old text, in the written value or in the window around the boundary |
| Diagnostics.SensitiveStep | services/tts/benchmarks/diagnostics.py:48-50 | The search of value and window decides whether a forbidden value newly occurs in the whole text |
| Diagnostics.SuffixOfSuffix | services/tts/benchmarks/diagnostics.py:51-54 | The bounded suffix of the whole text can be computed from the kept suffix and the written value |
| Diagnostics.PrefixOfPrefix | services/tts/benchmarks/diagnostics.py:39-43 | The bounded prefix and the overflow of the whole encoding can be computed from the kept prefix and the written bytes |
| Diagnostics.WriteStep | services/tts/benchmarks/diagnostics.py:36-55 | One write keeps the report exact for the whole segment |
| Diagnostics.UndiscardedObservation | services/tts/benchmarks/diagnostics.py:57-62 | For a single segment the report is its bytes, whether they exceed the bound, and whether any forbidden value occurs in it |
| Diagnostics.RunObservesWholeText | services/tts/benchmarks/diagnostics.py:36-62 | Over any run of writes from the start a forbidden value is observed if and only if it occurs in the joined text, and bytes, truncation, retained prefix and kept suffix are those of the joined text |
| Diagnostics.SplittingDoesNotMatter | services/tts/benchmarks/diagnostics.py:36-62 | Two ways of splitting one text across writes leave the same state |
| Diagnostics.WritesReportJoinedText | services/tts/benchmarks/diagnostics.py:36-55 | A run of writes from any state reports the current segment grown by the joined text |
| Diagnostics.ReportedOccurs | services/tts/benchmarks/diagnostics.py:48-66 | A forbidden value reported for any segment makes a forbidden value occur in the whole text |
| Diagnostics.WholeTextSensitive | services/tts/benchmarks/diagnostics.py:45-66 | A forbidden value occurs in the whole text if and only if some segment contains one or the window around some discard does |
| Diagnostics.ReportMatchesTextIff | services/tts/benchmarks/diagnostics.py:45-66 | The report agrees with a search of the whole text if and only if some segment contains a forbidden value or no window around a discard does |
| Diagnostics.ObserveCaptures | services/tts/benchmarks/diagnostics.py:36-66 | Two captures by one writer, separated by a discard, are reported as two segments |
| Diagnostics.DiscardSeparatesCaptures | services/tts/benchmarks/diagnostics.py:64-66 | A writer that captures one half of a forbidden value, discards, and captures the other half does not report it |
| Diagnostics.EncodeOne | services/tts/benchmarks/diagnostics.py:37 | The shortest group of bytes, whose lead byte tells its length; a surrogate becomes a question mark |
| Diagnostics.DecodeEncoded | services/tts/benchmarks/diagnostics.py:37 | Decoding recovers every code point that is not a surrogate |
| Diagnostics.NonEmpty | services/tts/benchmarks/diagnostics.py:25 | Keeps all values that are not empty and no other |
| Diagnostics.TailLimit | services/tts/benchmarks/diagnostics.py:26-28 | The limit is one less than the length of a longest value, and large enough for all of them |
| StrictModeCleanup.ResourceCleanup.constructor | apps/desktop/src/strict-mode-resource-cleanup.ts:11-12 | Nothing is active, mounted or queued |
| StrictModeCleanup.ResourceCleanup.Setup | apps/desktop/src/strict-mode-resource-cleanup.ts:14-25 | Supersedes the pending cleanup through the shared token and closes only a different active resource |
| StrictModeCleanup.ResourceCleanup.Cleanup | apps/desktop/src/strict-mode-resource-cleanup.ts:27-28 | Only queues a microtask with the effect's own token and resource |
| StrictModeCleanup.ResourceCleanup.RunMicrotask | apps/desktop/src/strict-mode-resource-cleanup.ts:28-34 | Closes its resource unless it was superseded or another resource is active |
| StrictModeCleanup.StepKeepsOwned | apps/desktop/src/strict-mode-resource-cleanup.ts:14-36 | Every step keeps exactly one owner of the active resource, and everything activated earlier closed in order |
| StrictModeCleanup.RunKeepsOwned | apps/desktop/src/strict-mode-resource-cleanup.ts:14-36 | Every interleaving keeps that invariant |
| StrictModeCleanup.EachActivationClosedOnce | apps/desktop/src/strict-mode-resource-cleanup.ts:14-36 | Over every interleaving the activations are the closes, in order, followed by the resource active now; a mounted resource is the active one |
| StrictModeCleanup.MountedResourceStaysOpen | apps/desktop/src/strict-mode-resource-cleanup.ts:14-36 | Back-to-back re-runs, with microtasks in between, never close the mounted resource |
| StrictModeCleanup.DrainAfterUnmountClosesAll | apps/desktop/src/strict-mode-resource-cleanup.ts:27-35 | After an unmount and a drained queue nothing is active and everything activated is closed |
| StrictModeCleanup.InterruptedRerunCloses | apps/desktop/src/strict-mode-resource-cleanup.ts:27-35 | If the microtasks run between cleanup and setup, the resource is closed once and activated again |
| NarrationHandoff.NarrationShell.constructor | apps/desktop/src/App.tsx:245-252 | The handoff starts ready with a resolved barrier and no removal |
| NarrationHandoff.NarrationShell.ContainNarrationForReplacement | apps/desktop/src/App.tsx:283-316 | Without coordinator and removal nothing happens; otherwise the handoff is pending and a new barrier captures the pending removal |
| NarrationHandoff.NarrationShell.HandleChatterboxRemoval | apps/desktop/src/App.tsx:803-820 | A pending removal is shared; a new one is owned first and, without a coordinator, also requests containment |
| NarrationHandoff.NarrationShell.CloseSettled | apps/desktop/src/App.tsx:290-300 | The close of one request settles with its outcome and nothing else changes |
| NarrationHandoff.NarrationShell.RemovalFinally | apps/desktop/src/App.tsx:814-817 | The reference is cleared only if it still points to this removal |
| NarrationHandoff.NarrationShell.RemovalPromiseSettled | apps/desktop/src/App.tsx:304 | A removal settles, fulfilled or rejected, after its final step; its barrier and the handoff do not change |
| NarrationHandoff.NarrationShell.BarrierPromiseSettled | apps/desktop/src/App.tsx:301-309 | A barrier settles with the conjunction of the previous barrier and its own containment, or false on a rejected close |
| NarrationHandoff.NarrationShell.BarrierCallback | apps/desktop/src/App.tsx:311-315 | Only the callback of the current barrier changes the handoff |
| NarrationHandoff.SettlingIsTruthful | apps/desktop/src/App.tsx:301-309 | A barrier that settles true has every request up to its own contained with its removal settled; one that settles false has an uncontained one |
| NarrationHandoff.StepKeepsConsistent | apps/desktop/src/App.tsx:283-316 | Every step keeps all settled barriers truthful and the handoff equal to what the current barrier delivered |
| NarrationHandoff.RunKeepsConsistent | apps/desktop/src/App.tsx:245-316 | Every interleaving keeps this and never undoes what has settled |
| NarrationHandoff.ReadyOnlyAfterContainment | apps/desktop/src/App.tsx:245-316 | Along every interleaving the handoff is ready only if every close requested so far is contained and every captured removal has settled |
| NarrationHandoff.ReadyIffClosedCleanly | apps/desktop/src/App.tsx:290-315 | Ready means that every request with a coordinator observed a stopped service with nothing retained, nothing discarded and no service failure, and at rest the converse holds too |
| NarrationHandoff.RequestMeans | apps/desktop/src/App.tsx:283-310 | A request with a coordinator or a pending removal makes the handoff pending and starts a close; any other does nothing |
| NarrationHandoff.RemovalRequestMeans | apps/desktop/src/App.tsx:803-820 | A pending removal is shared; a new one runs and is pending, and without a coordinator also makes the handoff pending |
| NarrationHandoff.RunKeepsPendingRuns | apps/desktop/src/App.tsx:806-818 | Along every interleaving a removal is the pending one exactly while it runs, and there is at most one |
| NarrationHandoff.ReadyAfterPendingRemoval | apps/desktop/src/App.tsx:301-310 | A removal pending at a request, or started without a coordinator, has settled whenever the handoff is ready after it |
| NarrationHandoff.NeverReadyAfterUncontained | apps/desktop/src/App.tsx:301-315 | From a request whose close turns out uncontained or rejected on, the handoff is never ready, before or after the close settles |
| NarrationHandoff.VerdictMeans | apps/desktop/src/App.tsx:301-309 | Closes and removals give a verdict if and only if every request is finished, or some close was rejected and every later request is finished; it is positive exactly if all are finished and contained |
| NarrationHandoff.HandoffShowsVerdict | apps/desktop/src/App.tsx:301-315 | At every moment the handoff is pending or shows the verdict of the closes and removals |
| NarrationHandoff.NotPendingMeansFinishedOrRejected | apps/desktop/src/App.tsx:301-315 | Along every interleaving, when the handoff is not pending, every close so far and every captured removal has settled, or some close was rejected and every later request is finished |
| NarrationHandoff.RejectedCloseFailsEarly | apps/desktop/src/App.tsx:301-315 | A run that ends failed while the first close is still running |
| NarrationHandoff.NotPendingMeansSettledIff | apps/desktop/src/App.tsx:301-315 | When no continuation is left, a handoff that is not pending means that every close and captured removal has settled if and only if they all have, or no rejected close is followed by finished requests only |
| NarrationHandoff.StillHandoffIsVerdict | apps/desktop/src/App.tsx:301-315 | When no continuation is left the handoff is exactly the verdict, pending only without one |
| NarrationHandoff.QuiescentHandoffIsDecided | apps/desktop/src/App.tsx:301-315 | When everything has settled the handoff is ready if and only if every close was contained, failed if and only if one was not, and never pending |
| NarrationHandoff.ContinuationsDecrease | apps/desktop/src/App.tsx:301-315 | Every settling and every callback of a barrier uses up one outstanding continuation, so there is no endless run of them |
| NarrationHandoff.ContinuationsRunOut | apps/desktop/src/App.tsx:301-315 | From every state a bounded run of continuations ends with none left, and it changes no close and no removal |
| NarrationHandoff.DrainedHandoffIsVerdict | apps/desktop/src/App.tsx:301-315 | Wherever the continuations run out, the handoff is what closes and removals said when they began: it stays pending exactly when they gave no verdict |
| NarrationHandoff.ContinuationsDrain | apps/desktop/src/App.tsx:301-315 | Once every close and captured removal has settled, the continuations left over run to quiescence, where the handoff is what the closes decide |
| NarrationHandoff.RejectedRemovalStillReady | apps/desktop/src/App.tsx:304 | A run whose captured removal is rejected and whose handoff ends ready |
| NarrationHandoff.ReadyImpliesRemovedIff | apps/desktop/src/App.tsx:301-315 | At rest, a ready handoff means that every captured removal was fulfilled if and only if some close is uncontained or no captured removal was rejected |
| NarrationHandoff.RunIgnoresResults | apps/desktop/src/App.tsx:301-309 | Every run goes the same way, to the same handoff, when all removals are taken as fulfilled |
| SpeakerScreen.SamplesOfAreAll | services/tts/benchmarks/customvoice_screen.py:622-626 | Every sample of the speaker is taken as often as it is listed, and no other sample |
| SpeakerScreen.ScoreSpeaker | services/tts/benchmarks/customvoice_screen.py:622-660 | A speaker is refused for its first fault, otherwise scored with the mean of each dimension, the overall mean and its eligibility |
| SpeakerScreen.MeanIsAverage | services/tts/benchmarks/customvoice_screen.py:638-640 | The mean of a dimension times the number of its applicable scores is their sum |
| SpeakerScreen.ResultWrittenOut | services/tts/benchmarks/customvoice_screen.py:641-660 | The result of a speaker names the mean of each dimension, a seventh of their sum, the defective samples, and eligibility by each threshold |
| SpeakerScreen.SpeakerFault | services/tts/benchmarks/customvoice_screen.py:627-642 | Which fault refuses a speaker: not three samples, the first dimension that is not scored, then an unrated sample |
| SpeakerScreen.ScoredIffComplete | services/tts/benchmarks/customvoice_screen.py:621-642 | The scorecard is scored if and only if every speaker has three rated samples and a score for every applicable dimension |
| SpeakerScreen.ScoreSpeakers | services/tts/benchmarks/customvoice_screen.py:621-660 | All speakers are scored in order, up to the first fault |
| SpeakerScreen.SubmitAndSelect | services/tts/benchmarks/customvoice_screen.py:617-687 | No speaker is selected if and only if none is eligible; the selected one ranks before every other eligible speaker |
| SpeakerScreen.HeadOfRanking | services/tts/benchmarks/customvoice_screen.py:661-687 | The head of the ranking is eligible and ranks before the eligible results of all other speakers |
| SpeakerScreen.OrderIndex | services/tts/benchmarks/customvoice_screen.py:661 | The index of a listed speaker is a position of that speaker |
| SpeakerScreen.DifferentSpeakersRank | services/tts/benchmarks/customvoice_screen.py:664-680 | Two different speakers never tie: exactly one ranks first |
| SpeakerScreen.RankingWrittenOut | services/tts/benchmarks/customvoice_screen.py:664-680 | The ranking compares the overall mean, then the seven dimensions by name in their order, then the speaker order |
| SpeakerScreen.SelectionIsUnique | services/tts/benchmarks/customvoice_screen.py:662-687 | At most one speaker satisfies the selection |
| SpeakerScreen.RaisedResult | services/tts/benchmarks/customvoice_screen.py:629-651 | Raising scores lowers no mean and never ends eligibility |
| SpeakerScreen.OtherResultUnchanged | services/tts/benchmarks/customvoice_screen.py:621-660 | Raising scores of one speaker leaves the results of all others as they were |
| SpeakerScreen.RaisingNeverUnseats | services/tts/benchmarks/customvoice_screen.py:617-687 | Raising any scores of the selected speaker, with everything else fixed, keeps it selected |
| SpeakerScreen.RaisedIsScored | services/tts/benchmarks/customvoice_screen.py:621-651 | The raised scorecard is refused exactly when the original one is |
| SpeakerScreen.RaisedSelectionIsTheSame | services/tts/benchmarks/customvoice_screen.py:617-687 | Raising scores of the selected speaker keeps the scorecard scored and the speaker selected, and every index then selected is that same speaker |
| EpubFixture.Concatenate | packages/epub/test-support/epub-fixture.ts:372-377 | A new array holds the left bytes and then the right ones |
| EpubFixture.BytesMatch | packages/epub/test-support/epub-fixture.ts:402-406 | True if and only if the slice at the offset equals the expected bytes |
| EpubFixture.ReplaceFixtureBytes | packages/epub/test-support/epub-fixture.ts:389-411 | Accepted if and only if the mutation applies; a fresh copy has the slice replaced |
| EpubFixture.ApplyEpubFixtureMutations | packages/epub/test-support/epub-fixture.ts:414-450 | Refused if and only if some mutation does not apply in its turn; otherwise a fresh array holds the result and the source is unchanged |
| EpubFixture.ApplyConcatenated | packages/epub/test-support/epub-fixture.ts:419-448 | Applying a concatenated list is applying its parts in order |
| EpubFixture.ApplicableWrittenOut | packages/epub/test-support/epub-fixture.ts:393-443 | Which mutations apply to which bytes, with every limit |
| EpubFixture.DescribedWrittenOut | packages/epub/test-support/epub-fixture.ts:366-370 | A description counts if and only if some character of it is not white space |
| EpubFixture.ApplyOneWrittenOut | packages/epub/test-support/epub-fixture.ts:408-445 | Every byte of the result of each kind of mutation |
| EpubFixture.UndoOneRestores | packages/epub/test-support/epub-fixture.ts:421-447 | Each kind of mutation is undone by mutations that apply to its result |
| EpubFixture.UndoRestores | packages/epub/test-support/epub-fixture.ts:414-450 | Every accepted list is undone exactly by its undo list |
| EpubFixture.ReplaceAndAppendUndoneInKind | packages/epub/test-support/epub-fixture.ts:422-436 | A list of replacements and appends is undone by the reversed list of swapped replacements and truncations to the earlier lengths |
| Scorecard.AppendScores | services/tts/benchmarks/corrective_v12_quality.py:581-589 | One score is appended per dimension exactly if all are between one and five |
| Scorecard.AddSample | services/tts/benchmarks/corrective_v12_quality.py:579-596 | One entry joins the accumulators of its language exactly if all its scores are valid |
| Scorecard.Accumulate | services/tts/benchmarks/corrective_v12_quality.py:553-596 | Stops with the error of the first refused entry; otherwise the accumulators of each language and the observed samples are those of all entries |
| Scorecard.ExpectedKeepsLast | services/tts/benchmarks/corrective_v12_quality.py:537-542 | Exactly the samples of the private map are expected, each with the language of its last entry |
| Scorecard.Aggregate | services/tts/benchmarks/corrective_v12_quality.py:527-625 | Refused for its first fault, otherwise the aggregates of every language in order; the last set comparison cannot fail |
| Scorecard.AggregateLanguages | services/tts/benchmarks/corrective_v12_quality.py:599-613 | The means and counts of every language in order, refused exactly if one has no scores |
| Scorecard.ObservedGrows | services/tts/benchmarks/corrective_v12_quality.py:567-578 | Each accepted entry adds a new sample of the private map |
| Scorecard.AllSamplesObserved | services/tts/benchmarks/corrective_v12_quality.py:597-598 | By counting, the observed samples are all the expected ones |
| Scorecard.AcceptedIsPermutation | services/tts/benchmarks/corrective_v12_quality.py:543-598 | Accepted entries are the samples of the private map, each once and with its language |
| Scorecard.AcceptedIff | services/tts/benchmarks/corrective_v12_quality.py:543-598 | A scorecard is accepted if and only if its header and size match, every entry is acceptable by itself, no sample is scored twice, and every language has an entry |
| Scorecard.CountsAddUp | services/tts/benchmarks/corrective_v12_quality.py:596 | The per-language sample counts add up to the number of entries |
| Scorecard.MeansWithinScale | services/tts/benchmarks/corrective_v12_quality.py:583-609 | Every reported mean lies between one and five |
| Scorecard.TotalsAreEntries | services/tts/benchmarks/corrective_v12_quality.py:579-596 | The accumulators of a language are the scores and marks of its entries, in order |
| Scorecard.AggregateWrittenOut | services/tts/benchmarks/corrective_v12_quality.py:599-613 | Each mean of a language times its number of entries is the sum of their scores, and the defects are those marked on its entries |
| Scorecard.NoScoresIffLanguageUnused | services/tts/benchmarks/corrective_v12_quality.py:600-609 | A complete scorecard of accepted entries fails without scores if and only if the private map has no sample of some language of the candidate |
| Scorecard.UnknownLanguageIffMissing | services/tts/benchmarks/corrective_v12_quality.py:553-579 | Some scorecard ends in a missing language if and only if the candidate lacks a language of the private map |
| Scorecard.KnownLanguagesAreFound | services/tts/benchmarks/corrective_v12_quality.py:579 | When the candidate has every language of the private map, no scorecard ends in a missing language |
| Scorecard.UnusedLanguageWitness | services/tts/benchmarks/corrective_v12_quality.py:579-608 | A scorecard that fails without scores, and one that fails with a missing language |
| Scorecard.TotalsFor | services/tts/benchmarks/corrective_v12_quality.py:579-596 | There are six lists of scores, each as long as the language's sample count |

## Left out

- Rounding: real-time factors, means and reported seconds are floating-point numbers in the code and exact here; the conversion in `as_raw` is not modelled.
- Loading of the frozen authority, result validation, schemas, files, percentiles and gates around the aggregates: thin validation and library calls.
- Request language, batch sizes given as booleans or floats, and identifiers that are not strings: the matrix model has whole batch sizes and string identifiers.
- Threads of the official run: a call is joined before the next one starts, so its result or error is an arbitrary input, and so is what the monitor saw; closing the worker after the run is not modelled.
- Candidate loading and closing: `ExecuteMechanics` takes whether closing raised as an input.
- Request texts with a lone surrogate, which the code cannot encode: characters of the model are Unicode scalar values.
- Diagnostic capture: redirecting the standard streams and its own refusal of a bound that is not positive; the writer accepts a bound of zero.
- StrictMode cleanup: an exception thrown by `close` is not modelled, and a resource is compared by value identity.
- Narration handoff: state updates take effect at once, and rendering, profile selection and the narration reset are not part of the model.
- Speaker screen: comparison of the scorecard with its template and the score range; the ratings are the accepted entries. Only the head of the sorted ranking is modelled, because only the head is used.
- EPUB fixtures: archive writing and the document builders; a buffer longer than the largest exact script number cannot be undone by a truncation, so the undo law assumes shorter ones.
- Scorecard: file access and the copied header fields of the written aggregate.
