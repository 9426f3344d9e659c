# Verified model of sflow_middle

A Dafny model of the host side of the SmartNIC flow pipeline, in three parts that share their types:

1. **Clock calibration.** `MacClockReader` filters exported device clock states, `ClockSampler` turns changes of state
   into samples bracketed by host clock readings, and `ClockCalibration`, fed through `TimeAdjuster`, keeps the model
   that converts device time to Unix time: median offset at startup, then a sliding window with three discontinuity
   tests and a two-pass, outlier-rejecting least-squares line.
2. **Double-bank drain protocol.** The flow reader flips `cur_state`, waits until the retired bank is idle, copies the
   ready slots and clears the bank; the counter reader drains its half of the same bank without flipping. Host steps are
   interleaved with steps of any number of firmware contexts, and every fallible access may fail.
3. **Batch aggregation and hand-off.** Grouping by five-tuple and the queue between the I/O and transmit threads, and
   the conservation law that joins the three parts from publication to transmission.

## How the files fit together

| file | contents |
|---|---|
| `Wrappers.dfy` | optional values and results |
| `Numerics.dfy` | truncating division, `llround`, midpoint, products of reals |
| `OrderStatistics.dfy` | the median by two in-place selections, and what it guarantees |
| `LeastSquares.dfy` | `fitLine` as loops, and its optimality |
| `Calibration.dfy` | the calibration as a state machine on values |
| `ClockCalibration.dfy` | the calibration as an object with mutable fields, proved equal to the state machine |
| `CalibrationProperties.dfy` | invariants of all runs, outlier rejection, exact recovery, conversion bounds |
| `CalibrationLaws.dfy` | what the calibration does with a sample, in the sample's own fields |
| `Equivariance.dfy` | two runs on shifted clocks stay in step |
| `ClockSampler.dfy` | reader and sampler objects, their value specification, all runs of polls |
| `SamplerLaws.dfy` | what reader and sampler do with a sequence of calls, in the calls' own fields |
| `TimeAdjuster.dfy` | reader, sampler and calibration as one object with its history, and results from reads to conversions |
| `BankProtocol.dfy` | states, firmware steps, host steps and invariant of the drain protocol |
| `BankSafety.dfy` | the invariant is inductive |
| `BankGuarantees.dfy` | what that means: conservation, quiescence, faithful copies, where loss can happen |
| `BankLandings.dfy` | flips that land although reported as failed: the exact condition for safety |
| `BankProgress.dfy` | what a drain and a cycle achieve when nothing fails |
| `BankReaders.dfy` | both readers as sequential programs against a device that changes under them |
| `BankCounterexamples.dfy` | two concrete executions on which the protocol falls short |
| `Aggregation.dfy` | the grouping loops of the I/O thread |
| `AggregationLaws.dfy` | what is exported, field by field |
| `HandOff.dfy` | the queue with its shutdown flag, as a transition system and as the object the I/O thread uses |
| `Pipeline.dfy` | the I/O thread's iteration, and conservation from published records to transmitted batches |

Objects of the source are classes whose methods are proved against functions on values; what the source promises is then
proved about those functions. Statements about interleavings are about finite sequences of enabled steps from an initial
state, of any length and in any order. For the drain protocol these are `IsExecution`; `IsRun` leaves out the executions
with a harmful landing (see below), which are exactly those that reach a state from which a context may get into a bank
while it is drained (`SafeIffHarmless`).

The firmware is not in the repository. Its steps are assumptions, written out in `BankProtocol`: a context reads
`cur_state`, enters (increments `processing`), claims a slot whose semaphore is free and that no other context fills,
writes the record column by column, sets the semaphore to 3, and leaves (decrements `processing`). The 1 ms sleep of
`src/Reader.cpp:117` stands for "no context is still between reading the old `cur_state` and entering": the host's step
out of `Settling` is enabled only then. A run may start with contexts anywhere in the active bank and with records waiting
in both banks, but not with a context on its way into the retired one.

Expectations the code does not meet, each with an input and the exact condition under which it does:

- A sample's reported `uncertainty_ns` does not always bound its distance from the publication: `UncertaintyCanBeTooSmall`
  is a run, with true reads, on which it does not, and `UncertaintyBoundsErrorIff` the condition.
- The window can reach back further than the regression window: startup never evicts (`StartupCanExceedWindow`). It fits
  exactly when its span does, and always once a sample has been accepted since (`WindowInvariant`). With a negative
  regression window a valid model can retain nothing (`NegativeWindowEvictsAll`); with any other it never does.
- Conversion keeps order exactly if the slope is not negative (`MonotoneIff`), which a drift bound of at most 10^6 ensures.
  With a larger one ten acceptable samples lead to a slope of -1 (`ConversionCanFall`).
- A published record can be lost: `FailedSlotReadLosesRecord` is a run on which one failed slot read loses it, because the
  bank is cleared afterwards. Without a harmful landing a region has lost nothing exactly if none of its slot reads has
  failed (`NothingLostIff`); any other failing access, also after the flip, loses nothing.
- A write of `cur_state` that is reported as failed (`src/Reader.cpp:110-115`) may have taken effect. The flow reader then
  returns without the sleep, and the counter reader drains the bank just retired. From there some continuation breaks the
  promise that no context is inside a bank while it is drained exactly if there are counters to drain and a context is on
  its way into that bank (`LandedFlipSafeIff`). `UnsettledFlipLosesQuiescence` is an execution on which a record vanishes.
- The last batch can be lost at shutdown (`LastBatchCanBeMissing`): exactly if it is pushed after the transmit thread has
  ended, and never more than that one (`AtMostLastBatchMissing`).

`include/Reader.hpp:107-117` describes a scheme that locks semaphores with 7 and flips last. The code flips first and never
writes 7; the model follows the code.

## Model

| member | source | states |
|---|---|---|
| Numerics.LlRoundHalves | src/Time.cpp:87 | rounding is to the nearest integer, halves away from zero |
| OrderStatistics.NthElement | src/Time.cpp:37 | in place: same multiset, and everything before position n is at most, everything after at least, the element there |
| OrderStatistics.Median | src/Time.cpp:31-44 | two in-place selections return the midpoint of the true middle order statistics |
| OrderStatistics.NthIsOrderStatistic | src/Time.cpp:37-42 | any arrangement meeting nth_element's promise holds the sorted sequence's n-th element at n |
| OrderStatistics.SortSorts | src/Time.cpp:31-44 | the reference sort behind the median is ordered and a permutation of its input |
| OrderStatistics.MedianLaw | src/Time.cpp:36-43 | for an odd count the median is the middle order statistic, for an even one it lies half-way, rounded down, above the lower of the two |
| OrderStatistics.MedianPermutation | src/Time.cpp:31-44 | the median does not depend on the order of the values |
| OrderStatistics.MedianSplitsEvenly | src/Time.cpp:31-44 | at least half the values are at most the median and at least half at least it |
| OrderStatistics.MedianInMajorityInterval | src/Time.cpp:31-44 | a strict majority of values inside an interval pins the median to it |
| OrderStatistics.MedianShift | src/Time.cpp:31-44 | shifting all values shifts the median equally |
| LeastSquares.FitLine | src/Time.cpp:46-89 | the two accumulating loops compute slope and rounded intercept of the centred-product formula, or refuse |
| LeastSquares.NormalEquations | src/Time.cpp:80-86 | the residuals of the fit sum to zero and are orthogonal to device time |
| LeastSquares.LeastSquaresOptimal | src/Time.cpp:46-89 | no slope and intercept whatsoever give a smaller sum of squared residuals |
| LeastSquares.FitExistsIffMacsDiffer | src/Time.cpp:52-78 | the fit succeeds exactly when two samples differ in device time |
| LeastSquares.FitIgnoresOrigins | src/Time.cpp:46-89 | slope and unrounded line are the same for every choice of origins |
| LeastSquares.FitRecoversLine | src/Time.cpp:46-89 | samples on a line through the origins are fitted by exactly that line |
| ClockCalibration.SortBy | src/Time.cpp:147-159 | sorting by a key gives an ordered permutation |
| ClockCalibration.ClockCalibration.Clear | src/Time.cpp:364-374 | everything is forgotten except the number of rejected samples |
| ClockCalibration.ClockCalibration.Initialize | src/Time.cpp:128-168 | new state is the startup state for arrangements the two sorts may produce; true exactly when the model is valid |
| ClockCalibration.ClockCalibration.SetOffsetModel | src/Time.cpp:170-195 | slope 1 through the first sample of least latency, shifted to the median offset |
| ClockCalibration.ClockCalibration.AddSample | src/Time.cpp:197-269 | new state is that of the state machine; true exactly when the sample is acceptable |
| ClockCalibration.ClockCalibration.Slide | src/Time.cpp:247-261 | the eviction loop drops exactly the samples older than the window, oldest first |
| ClockCalibration.ClockCalibration.Fit | src/Time.cpp:271-346 | new state is that of the two-pass refit, unchanged when it refuses |
| ClockCalibration.ClockCalibration.ToUnixNanoseconds | src/Time.cpp:348-357 | conversion through the current model, or the failure of an invalid one |
| CalibrationLaws.ConversionRounds | src/Time.cpp:91-100 | conversion is the line through the origins, rounded to the nearest nanosecond, halves away from zero |
| CalibrationLaws.RefusalLaw | src/Time.cpp:199-204 | a sample out of range, field by field, is only counted; any other is remembered as the last one |
| CalibrationLaws.RestartLaw | src/Time.cpp:206-245 | an acceptable sample restarts the model at itself exactly if there was none, device time did not advance, real and monotonic time drifted apart beyond the limit, or the model was off beyond its limit; otherwise the model is kept |
| CalibrationLaws.WindowLaw | src/Time.cpp:247-261 | what is retained: all but the oldest samples that lie too far back, with their counts |
| CalibrationLaws.FitLaw | src/Time.cpp:263-346 | a fit is due exactly at ten samples and the minimum span; if the window admits it, conversion lies within 1 ns of the least-squares line of the inliers at every timestamp, with their median error; otherwise nothing changes |
| CalibrationLaws.InliersLaw | src/Time.cpp:283-307 | the inliers are the samples within 50 us, or six times the median distance, of the median residual of the first line |
| CalibrationLaws.NeighboursFollow | src/Time.cpp:216-245 | in every reachable window each appended sample has a larger device time than the one before it and agrees with it on elapsed host time |
| CalibrationLaws.StartupLaw | src/Time.cpp:128-195 | startup retains the fastest samples in range, at most eight, by monotonic time, with their median offset at every timestamp, or nothing if fewer than four |
| CalibrationLaws.ResetLaw | src/Time.cpp:364-374 | a reset forgets everything but the rejections |
| CalibrationProperties.StartupMembers | src/Time.cpp:133-166 | startup retains min(8, accepted) samples, each an acceptable input |
| CalibrationProperties.EveryRunConsistent | src/Time.cpp:128-374 | for every configuration and in every reachable state: valid iff not warming up, drift-calibrated iff tracking, slope 1 unless drift-calibrated and else within the drift bound, last values are the newest retained sample's, and something is retained unless the regression window is negative |
| CalibrationProperties.NegativeWindowEvictsAll | src/Time.cpp:251-255 | with a negative regression window one accepted sample gives a valid model and an empty window |
| CalibrationProperties.RejectionsAccumulate | src/Time.cpp:197-269 | over every run the rejection count never falls, also across resets, and a valid model stays valid until a reset or a startup |
| CalibrationProperties.MonotoneIff | src/Time.cpp:348-357 | conversion keeps order for all timestamps exactly if the slope is not negative |
| CalibrationProperties.ConversionCanFall | src/Time.cpp:320-323 | with a drift bound of 3 * 10^6 a run of ten acceptable samples leads to slope -1 and a conversion that falls |
| CalibrationProperties.ConversionMonotoneAndBounded | src/Time.cpp:348-357 | in every reachable state conversion keeps order for a drift bound of at most 10^6, and stretches intervals by at most the drift bound plus one nanosecond |
| CalibrationProperties.WindowInvariant | src/Time.cpp:247-261 | on every run with non-decreasing monotonic input the window is sorted; it is within the regression window exactly when its span is, and always unless the newest event other than rejected samples is a startup |
| CalibrationProperties.StartupCanExceedWindow | src/Time.cpp:156-167 | four startup samples that span more than the regression window are all retained |
| CalibrationProperties.EvictedKeepsNewest | src/Time.cpp:251-255 | eviction keeps a suffix whose oldest sample is within the window, non-empty if the newest sample is within it |
| CalibrationProperties.InliersKeepHalf | src/Time.cpp:291-307 | at least half of the candidates survive outlier rejection, whatever the window |
| CalibrationProperties.RefusesOnlyForDrift | src/Time.cpp:263-323 | with increasing device time both fits succeed, the minimum-inlier exit is unreachable, and the refit refuses exactly for drift |
| CalibrationProperties.RefitRecoversLine | src/Time.cpp:271-346 | exactly linear windows are all inliers with zero residual |
| CalibrationProperties.ExactRecovery | src/Time.cpp:197-346 | after a sample completing a linear window, conversion is within half a nanosecond of that line for every timestamp |
| CalibrationProperties.NoisyFit | src/Time.cpp:312-339 | if the inliers lie within noise of any line, the accepted fit leaves at most noise squared per inlier before its intercept is rounded, and the reported median residual less 1 ns is at most noise times the square root of two |
| CalibrationProperties.StartupMajority | src/Time.cpp:170-195 | a strict majority of retained offsets in an interval bounds the conversion of every timestamp |
| CalibrationProperties.StartupModelStands | src/Time.cpp:206-268 | the startup model converts alike for as long as no sample restarts or refits it |
| Equivariance.MovePossible | src/Time.cpp:147-159 | arrangements the sorts may produce move to arrangements they may produce on moved samples |
| Equivariance.MoveRefit | src/Time.cpp:271-346 | a moved window is refitted or refused alike, with moved origins and the same inliers |
| Equivariance.TranslationEquivariance | src/Time.cpp:128-357 | runs on shifted clocks make the same decisions for ever and convert shifted timestamps to shifted results |
| ClockSampler.MacClockReader.ReadState | src/MacClockReader.cpp:81-106 | new reader state and result of one read, valid, refused or failed |
| ClockSampler.ReadAccounting | src/MacClockReader.cpp:81-106 | over every run each read is either valid or counted under exactly one reject reason, and failed reads are among the latter |
| ClockSampler.ClockSampler.PollOnce | src/ClockSampler.cpp:31-134 | new reader and sampler state and emitted sample of one poll |
| ClockSampler.ClockSampler.Reset | src/ClockSampler.cpp:141-146 | forgets the last observation and both midpoints, keeps the counters |
| SamplerLaws.ReadLaw | src/MacClockReader.cpp:174-218 | over every sequence of calls a read is valid exactly if its fields are in range and no earlier valid read was later; any other is counted under the first of its faults |
| SamplerLaws.PollLaw | src/ClockSampler.cpp:31-134 | over every sequence of calls: which earlier poll a poll is compared with, exactly when it emits, every field of the sample measured from there, and every counter |
| ClockSampler.Accounting | src/ClockSampler.cpp:31-134 | polls = accepted + duplicate + invalid + rejected + seeding; seeding at most 1 + resets; device resets at most rejections |
| ClockSampler.UnreachableRefusals | src/ClockSampler.cpp:96-101 | the time test after the plausibility test never fails, and no state is ever refused as all-zero |
| ClockSampler.ReaderNeverGoesBack | src/MacClockReader.cpp:197-210 | no call moves the reader's last valid device time back |
| ClockSampler.EmittedDeviceTimesIncrease | src/ClockSampler.cpp:75-134 | emitted device times strictly increase over every run, across resets, invalid reads and host clock rollbacks |
| ClockSampler.IntervalsOrdered | src/ClockSampler.cpp:103-125 | with a monotone host clock the transition intervals are ordered, share at most endpoints and hold their midpoints |
| ClockSampler.EmissionsIncrease | src/ClockSampler.cpp:31-134 | with a strictly advancing host clock emitted device and host times both strictly increase |
| ClockSampler.EveryEmissionBracketed | src/ClockSampler.cpp:45-116 | every emission stems from two proper brackets of increasing device time, within the uncertainty limit |
| ClockSampler.PublicationBracketed | src/ClockSampler.cpp:103-120 | on every run whose valid reads take effect between their clock calls, the emitted state was published within [previous before, current after], on either clock |
| ClockSampler.PublicationError | src/ClockSampler.cpp:103-124 | on every such run the publication lies within half the width, rounded up, plus the previous latency of the sample, on either clock, even if the real-time clock ran back |
| ClockSampler.UncertaintyBoundsErrorIff | src/ClockSampler.cpp:109-124 | the reported uncertainty bounds that error exactly when previous latency <= half the width, rounded up, + current latency |
| ClockSampler.UncertaintyCanBeTooSmall | src/ClockSampler.cpp:109-124 | a run of two polls, both reads true, whose sample is 105 ns off with a reported uncertainty of 15 ns |
| TimeAdjuster.TimeAdjuster.InitializeFrom | src/Time.cpp:483-502 | the calibration makes one possible startup step on samples of least uncertainty |
| TimeAdjuster.ChoiceLaw | src/Time.cpp:483-499 | the samples chosen for startup carry the publications' fields, uncertainty as latency, and are the least uncertain ones |
| TimeAdjuster.TimeAdjuster.CollectPublicationSamples | src/Time.cpp:408-425 | polls until the count is reached or the readings before the deadline are used up, and returns exactly what was emitted |
| TimeAdjuster.TimeAdjuster.Start | src/Time.cpp:394-405 | startup begins a run fed by the sampler's publications; true exactly when the model is valid |
| TimeAdjuster.TimeAdjuster.Refresh | src/Time.cpp:427-445 | collects a burst, feeds its first sample of least uncertainty and so extends the fed run; an empty burst feeds nothing |
| TimeAdjuster.StartupDistinct | src/Time.cpp:128-168 | no publication is retained twice at startup |
| TimeAdjuster.FedWindowIncreases | src/Time.cpp:128-269 | on every run fed by increasing publications the window strictly increases on both clocks |
| TimeAdjuster.FedFitsRefuseOnlyForDrift | src/Time.cpp:263-323 | on such a run a due fit refuses exactly when the drift bound is exceeded, and otherwise leaves the fitted model |
| TimeAdjuster.SamplerFeedsIncreasing | src/ClockSampler.cpp:118-133 | a strictly advancing host clock makes the sampler's publications increasing in that sense |
| TimeAdjuster.SampledFitsRefuseOnlyForDrift | src/Time.cpp:263-323 | from polls to fits: on any polls with a strictly advancing host clock a due fit refuses exactly when the drift bound is exceeded |
| TimeAdjuster.StartupErrorBound | src/Time.cpp:170-195 | from reads to conversions: on any polls with true reads, if a strict majority of retained samples have bracket error at most E, every conversion is off by at most E until a sample restarts or refits the model |
| BankProtocol.ReadySlots | src/Reader.cpp:157-162 | exactly the slots whose semaphore is 3, in strictly increasing order |
| BankSafety.ReadySlotsArePending | src/Reader.cpp:157-162 | the ready slots hold exactly the bank's pending records |
| BankSafety.FirmwareKeepsInvariant | src/Reader.cpp:127-138 | no firmware step by any context breaks the protocol invariant |
| BankSafety.HostKeepsInvariant | src/Reader.cpp:63-217 | no host step of either reader, successful or failing, breaks the protocol invariant |
| BankSafety.EveryRunSafe | src/main.cpp:161-162 | every state of every run satisfies the invariant |
| BankLandings.LandedFlipSafeIff | src/Reader.cpp:110-115 | after a flip that lands although reported as failed no continuation lets a context into a bank being drained, exactly if no context is on its way into the retired bank or there are no counters |
| BankLandings.SafeIffHarmless | src/Reader.cpp:108-117 | the states of an execution are all safe in that sense exactly if each of its landed flips was harmless |
| BankLandings.Breach | src/CounterReader.cpp:64-99 | from any state with a context on its way into the retired bank and the counter reader about to start, a continuation in which that context gets into the bank during the drain |
| BankCounterexamples.UnsettledFlipLosesQuiescence | src/CounterReader.cpp:72-162 | an execution with no other failure on which an unsettled flip lets a context into the bank the counter reader drains, and its record vanishes |
| BankGuarantees.ExactlyOnce | src/Reader.cpp:108-217 | published = delivered + skipped + pending in either bank + in flight, as multisets, at every moment of every run |
| BankGuarantees.Quiescence | src/Reader.cpp:127-204 | from the end of the wait to the last fill no context is in the drained bank or on its way into it |
| BankGuarantees.DrainUndisturbed | src/Reader.cpp:188-204 | no firmware step changes the drained bank: no torn copy, no concurrent write erased |
| BankGuarantees.ActiveBankUntouched | src/Reader.cpp:202-204 | no host step changes the bank the firmware is directed to, whatever failed before |
| BankGuarantees.CounterBank | src/CounterReader.cpp:72 | the counter reader works on the retired bank, the one just flipped away from if the flow reader flipped |
| BankGuarantees.CopiesFaithful | src/Reader.cpp:188-200 | copied entries are whole published records of the slots they name, each slot once; copied + skipped = pending |
| BankGuarantees.LossAtSlot | src/Reader.cpp:190-197 | a failed read of a ready slot gives up exactly that slot's record |
| BankGuarantees.LossElsewhere | src/Reader.cpp:108-204 | no other host step gives anything up or takes it back; what was given up is skipped for good when the bank is freed |
| BankGuarantees.NothingLostIff | src/Reader.cpp:108-217 | at every moment of every run a region has lost nothing exactly if none of its slot reads has failed so far |
| BankGuarantees.NoLossWithoutFailedSlotReads | src/Reader.cpp:108-217 | until then published = delivered + pending + in flight, whatever else failed |
| BankCounterexamples.FailedSlotReadLosesRecord | src/Reader.cpp:188-204 | a run whose only failure is one slot read: the record ends up skipped, neither delivered nor pending nor in flight |
| BankProgress.DrainDelivers | src/Reader.cpp:141-217 | from the scan of an idle bank, if nothing fails, exactly what is pending is delivered, every word and semaphore is cleared, and nothing else changes |
| BankProgress.CycleDelivers | src/main.cpp:161-162 | a cycle without failures over a bank no context is in or heading for delivers all flows and counters pending there and leaves it cleared and retired |
| BankProgress.ClearedOnReturn | src/Reader.cpp:202-204 | in every run, when a bank's semaphores are freed, all its words and semaphores are 0 |
| BankProgress.FailedAccessReturns | src/Reader.cpp:82-155 | a failed access other than a slot read ends the reader's call at once and changes no memory |
| BankReaders.ScanSemaphores | src/Reader.cpp:157-162 | the loop over the semaphores finds exactly the ready slots, in order |
| BankReaders.WaitUntilIdle | src/Reader.cpp:127-139 | ends idle, returned after a failure, or still waiting; delivers nothing |
| BankReaders.CopySlot | src/Reader.cpp:188-200 | one slot is appended whole or skipped, and the protocol's program counter moves to the next |
| BankReaders.Drain | src/Reader.cpp:141-216 | from semaphore read to return: the result is exactly what the device counts as delivered, in slot order, handed over as a whole or empty after an early return |
| BankReaders.SmartNicReader.ReadFlowData | src/Reader.cpp:63-217 | the sequential program extends an execution of the protocol, whatever fails or lands; its result is exactly what was newly delivered; every early return is empty |
| BankReaders.CounterReader.ReadCounterData | src/CounterReader.cpp:44-167 | the same for counters, without flipping |
| BankReaders.ReadBatch | src/main.cpp:161-162 | both readers in sequence: each result is exactly what its region counts as newly delivered |
| Aggregation.AggregateFlows | src/main.cpp:184-226 | succeeds iff all timestamps convert; keys are exactly the projected tuples, agents the order-preserving groups, times the minimum and maximum of the converted times and a new record's own |
| Aggregation.ExactTimes | src/main.cpp:218-225 | for times that fit 64 bits these are exactly the minimum and maximum of the entries |
| Aggregation.ExportedTimesOrdered | src/main.cpp:209-225 | device start <= device end for all entries gives exported start <= end, for every model with non-negative slope |
| AggregationLaws.RecordLaw | src/main.cpp:190-226 | field by field: exactly the five-tuples of the entries have records; each holds the matching entries in order, every field in its place, their least start and greatest end, in whole milliseconds |
| AggregationLaws.ConvertLaw | src/Time.cpp:447-456 | conversion succeeds exactly for nanoseconds below 10^9 under a valid model |
| AggregationLaws.BytesAndPacketsConserved | src/main.cpp:199-219 | exported bytes and packets are those of the entries |
| Aggregation.AggregateCounters | src/main.cpp:230-245 | keys are exactly the agents and interfaces seen, each with its last entry |
| HandOff.EveryRunKeepsInvariant | src/main.cpp:154-317 | pushed = sent + in hand + queued, in order, in every interleaving |
| HandOff.TransmittedIsPrefix | src/main.cpp:304-317 | the transmitted batches are a prefix of the pushed ones |
| HandOff.AtMostLastBatchMissing | src/main.cpp:311-314 | when both threads have ended only the last batch can be missing, and it is exactly if some push came after the transmit thread had ended |
| HandOff.LastBatchCanBeMissing | src/main.cpp:247-317 | a run that loses it |
| HandOff.SharedQueue.Finish | src/main.cpp:247-252 | whatever the transmit thread and a shutdown do meanwhile, the batch, if any, is pushed last |
| Pipeline.IoThread.Elapse | src/main.cpp:154-317 | whatever firmware, transmit thread and a shutdown do between iterations, delivered stays read and pushed stays what was made of it |
| Pipeline.IoThread.Iterate | src/main.cpp:154-252 | one iteration reads both regions, refreshes the calibration and aggregates with it, and pushes; it fails only on shutdown, while waiting, or on a time that does not convert; delivered flows and counters stay those read, and pushed batches what was made of them |
| Pipeline.PushedLaw | src/main.cpp:247-252 | exactly the batches with flows or counters are pushed, in order |
| Pipeline.PushedTotal | src/main.cpp:184-252 | of any per-agent quantity the pushed batches hold as much as the entries read |
| Pipeline.IoThread.PublishedIsTransmittedOrAccountedFor | src/main.cpp:154-317 | at any moment between iterations, of any quantity, published = transmitted + in hand + queued + skipped + pending in the banks + in flight |
| Pipeline.IoThread.BytesAndPacketsAccountedFor | src/main.cpp:154-317 | the same for the entries' own bytes and packets |
| Pipeline.IoThread.CountersAccountedFor | src/main.cpp:230-252 | every published counter record was read by an iteration, was skipped, or still waits; of every entry read, the batch holding the last entry for its agent and interface was handed on |

## Left out

- Floating-point rounding of `double` and `long double`, and the `isfinite` test of `src/Time.cpp:81-83`: slopes, sums and products are exact reals.
- 64-bit overflow: clock values, their differences and converted times are unbounded integers.
- How a slot's words encode an entry is a parameter of `IoThread`.
- The algorithms behind `std::nth_element` and `std::sort`: any arrangement that meets their promise is allowed, and a run records which one occurred.
- Area allocation, acquisition and the access itself are one fallible step for each phase of a reader (`src/Reader.cpp:82-97`, `119-133`, `142-155`, `165-186`): all their failures have the same effect.
- Fills always succeed: the code ignores their results (`src/Reader.cpp:202-214`, `src/CounterReader.cpp:161-162`).
- The semaphore read and each column fill are one step each; `DrainUndisturbed` says no firmware step could interfere with a finer sequence.
- A record is a sequence of words read and written one by one, key and data for flows; the byte layout of slots and the regions' addresses are not modelled.
- Liveness: whether the wait for `processing` ends, sleeps, timeouts and wakeups. `WaitUntilIdle` may report that it is still waiting.
- More than one host process, and flow and counter readers running at the same time: the program runs them in sequence (`src/main.cpp:161-162`).
- `MacClockReader::readRaw` with its packed, swapped and aligned layouts: a raw read brings back any state or a failure.
- `composeAtomicMacTime` (`src/Time.cpp:103-116`): easy.
- PollOnce: the reject reasons the sampler writes into its local observation are dropped, because nothing reads them.
- Polling deadlines and pauses, and the status cache of `TimeAdjuster` (`src/Time.cpp:458-471`, `504-513`): the readings up to a deadline are given, and the `Degraded` state only exists in that cache.
- `FedWindowIncreases` and what builds on it ask for a host clock that strictly advances from poll to poll; a rollback between polls makes the sampler refuse or the calibration restart.
- WindowInvariant: asks for monotonic times that do not run back from the newest retained sample to the next accepted one.
- StartupErrorBound: takes the device clock to be a constant offset behind Unix time during the polls.
- `accepted_samples` as a lifetime count: after startup the code only raises it to the window size (`src/Time.cpp:257`).
- HandOff: starts after the UDP sender and its output file are set up (`src/main.cpp:269-287`); an exception that ends the I/O thread is not a step.
- JSON building, UDP sending, YAML settings, logging, signal handling, device opening and symbol lookup (`src/Device.cpp`, the rest of `src/main.cpp`), `tools/`, `test/` and the start and stop scripts.
