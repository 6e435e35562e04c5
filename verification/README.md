# KV transfer observability: a verified model

A Dafny model of the KV transfer observability plugin, with proofs of what its
protocols promise. `dafny verify dfyconfig.toml` checks the whole project.

The model has four parts.

- **Lifecycle normalizer.** `Schema` and `Normalization` hold the closed records and the
  bounded state machine; the `Normalizer*` modules prove its invariant, which sources it
  accepts, the exact effect of a refused one, the outcome counters, the one-way evidence latch, the provenance
  of every first compute, conservation, and replay.
- **Offline validators.** `RestoreChain` says what a complete episode is, independently of
  the check; `EpisodeShape` and the `Chain*` modules prove that the check decides exactly
  that, and `ChainCapacity` shows where its own bounds decide. `CorrelatedChain` and
  `CorrelatedResults` do the same for cross-process records, and prove that neither their
  order nor a comparison of clocks matters; `CorrelatedStories` tells a proven episode job by
  job. `Validation` and `CorrelatedValidation` hold the loops themselves, and
  `ValidationResults` says what the verdict on a request depends on.
- **Concurrent writers.** `EventFile`, `EventSink`, `DescriptorCapture` and
  `AsyncDescriptors`: short writes, rollback, no-overwrite publication and the close races,
  for every interleaving and every schedule of failing system calls.
- **Binding, adapter, payloads.** `Binding` and `BindingRuns` follow the binding's own table
  of transfers against the normalizer's, and `BindingAnswers` says field by field what a host
  record becomes and what the host is told; `Adapter` is the four-state lifecycle over writer
  threads; `ScopedIds` and the `*Payload` modules are the round trips.

A class performs what the source does by updating fields, and each of its methods is proved
against a function on values; the theorems are about those functions and about runs of
them. A `Faults` argument answers for the operating system and for foreign code, a
`SinkAnswer` for the sink, and a schedule for the thread scheduler.

## Where the code does less than its description, or than one would expect

- Replaying only the successful restore-path records of a run does not always reproduce
  them: a transfer that was cancelled and started again, or room made by a failure, is
  missing from the replay. `NormalizerReplay.SuccessPathReplay` gives the exact condition;
  keeping the failed and cancelled records makes the replay unconditional.
- `docs/observation_core.md` describes a rollback to the previous file length. A part of a
  record stays in the file exactly when its first write took something, the write loop
  failed, and so did the truncation (`EventFile.OutcomeMeans`); a failed truncation alone is
  harmless. A whole record is not counted as `written` exactly when the unlock fails after
  its complete write. Over a run, both conditions are exact, and both occur
  (`EventSink.FileHoldsWholeRecords`, `EventSink.BothHappen`).
- A stopped adapter can still have a live writer: a failed registration, and also a capture
  that cannot be built, forgets a writer whose close timed out (`Adapter.ForgetsExactly`).
- With more than 4096 restores of one request the chain verdict also depends on how its
  episodes are interleaved, through the capacity of the validator's own normalizer:
  `ChainCapacity.InterleavingDecides` gives, for every number of episodes beyond that, two
  interleavings of the same complete episodes of which one is rejected. Up to 4096 restores
  no capacity matters.
- An observation that the normalizer accepts and the sink drops, or a terminal record that the
  normalizer refuses, leaves a transfer in the normalizer that the binding has forgotten; it
  occupies its place until close, and its job is refused for good. Both happen, and each has
  its exact condition (`BindingRuns`).

What `docs/plugin_adapter.md` says of descriptor counts holds: after a drain they are off by
one for every callback that raises (`AsyncDescriptors.DescriptorsBalance`), and in the adapter
none does, since its report only increments a counter and the queue's `capture` raises nothing.

## Model

| member | source | states |
|---|---|---|
| `Normalization.LifecycleNormalizer.constructor` | src/vllm_hust_kv_transfer_observability/normalization.py:231-257 | A new normalizer has empty tables, zero counters, valid evidence, and is open. |
| `Normalization.LifecycleNormalizer.Normalize` | src/vllm_hust_kv_transfer_observability/normalization.py:269-284 | One call returns and leaves behind what `Step` says: one outcome counter moves, and a handler that raises returns nothing. |
| `Normalization.LifecycleNormalizer.TransferSubmitted` | src/vllm_hust_kv_transfer_observability/normalization.py:312-336 | A transfer already pending or completed is refused; a full table drops the latch; otherwise the transfer becomes pending and its start record is built. |
| `Normalization.LifecycleNormalizer.TransferCompleted` | src/vllm_hust_kv_transfer_observability/normalization.py:338-405 | A completion in all its branches: unknown or early, failed, unmeasured, restore (with and without retention, receipt table full), preserve. |
| `Normalization.LifecycleNormalizer.TransferCancelled` | src/vllm_hust_kv_transfer_observability/normalization.py:407-421 | A cancellation removes the pending entry and builds its record. |
| `Normalization.LifecycleNormalizer.RecoveryAdmitted` | src/vllm_hust_kv_transfer_observability/normalization.py:423-449 | An admission needs an epoch, a free identity, room, and a retained receipt for every transfer of its roster. |
| `Normalization.LifecycleNormalizer.FirstCompute` | src/vllm_hust_kv_transfer_observability/normalization.py:451-475 | A first compute must match its admission; a mismatch drops the latch; a match consumes the admission and the receipts of its roster. |
| `Normalization.LifecycleNormalizer.Close` | src/vllm_hust_kv_transfer_observability/normalization.py:477-484 | Closing empties the tables, once. |
| `NormalizerAcceptance.EmittedWasEnabled` | src/vllm_hust_kv_transfer_observability/normalization.py:269-475 | Whatever the source, an emitted record was one the tables enable, and the new state is exactly that record's effect. |
| `NormalizerAcceptance.EnabledIsEmitted` | src/vllm_hust_kv_transfer_observability/normalization.py:269-475 | Every valid record that live tables enable is emitted for the source it stands for. |
| `NormalizerInvariant.StepKeepsInv` | src/vllm_hust_kv_transfer_observability/normalization.py:312-475 | Pending and completed stay disjoint and within capacity, admissions within capacity, and every admitted transfer stays completed under that identity, no later than its admission. |
| `NormalizerInvariant.RostersDisjoint` | src/vllm_hust_kv_transfer_observability/normalization.py:423-475 | Rosters of distinct admissions are disjoint, so consuming one never damages another. |
| `NormalizerInvariant.RefusedSourceFrame` | src/vllm_hust_kv_transfer_observability/normalization.py:269-475 | A refused source changes no table and raises only before any change, with exactly two exceptions: the latch falls on overflow or first-compute mismatch, and a full receipt table also loses the pending entry. |
| `NormalizerSources.AcceptedExactly` | src/vllm_hust_kv_transfer_observability/normalization.py:269-475 | For every valid source of any host: it is accepted exactly when the normalizer is live and the source fits its tables, and the record carries the source's own data; a first compute needs only its admission, roster, time and one process. |
| `NormalizerSources.HostIrrelevant` | src/vllm_hust_kv_transfer_observability/normalization.py:451-475 | Which supported host reports a first compute changes neither the answer nor the state. |
| `NormalizerSources.OutcomeCounted` | src/vllm_hust_kv_transfer_observability/normalization.py:269-310 | Each call moves one counter, that of its outcome, and without a live normalizer changes nothing else. |
| `NormalizerRuns.CountersAccountForEveryCall` | src/vllm_hust_kv_transfer_observability/normalization.py:269-288 | Over any run the five outcome counters sum to the number of `normalize` calls, and at most one call was lost to capacity. |
| `NormalizerRuns.FallenLatchFreezes` | src/vllm_hust_kv_transfer_observability/normalization.py:269-288 | Once evidence is invalid it stays so: nothing is accepted and the tables stay frozen until `close` empties them. |
| `NormalizerProvenance.FirstComputeProvenance` | src/vllm_hust_kv_transfer_observability/normalization.py:312-475 | In every run each accepted first compute consumes one earlier unconsumed admission of its identity and roster, and each roster transfer was started, then strictly later completed, with the block count and duration that fit, no later than the admission. |
| `NormalizerProvenance.NoAdmissionConsumedTwice` | src/vllm_hust_kv_transfer_observability/normalization.py:451-475 | No admission is consumed by two first computes. |
| `NormalizerConservation.Conservation` | src/vllm_hust_kv_transfer_observability/normalization.py:338-475 | Before close: starts = pending + settled + at most one capacity loss; with retention, restore completions = retained receipts + transfers of accepted first computes; admissions = held + first computes. |
| `NormalizerReplay.ReplayIdempotent` | src/vllm_hust_kv_transfer_observability/validation.py:429-485 | The restore-path records of one request from any run, fed back as sources to a fresh normalizer of the same configuration, come out unchanged. |
| `NormalizerReplay.SuccessPathReplay` | src/vllm_hust_kv_transfer_observability/validation.py:405-408 | Replaying the successful records alone works if and only if every start among them finds its transfer closed and room, since cancellations and failures are not replayed. |
| `NormalizerReplay.NoFailureReplays` | src/vllm_hust_kv_transfer_observability/validation.py:405-408 | A run without a failed or cancelled restore of the request replays from its successful records alone. |
| `NormalizerReplay.RestartAfterCancelNotReproduced` | src/vllm_hust_kv_transfer_observability/validation.py:429-485 | A transfer restarted after its cancellation is a run whose successful records are not reproduced. |
| `ChainTheorem.RelevantStepIff` | src/vllm_hust_kv_transfer_observability/validation.py:409-485 | The validator passes one more relevant record exactly when it continues its episode, is fresh in the request, and the bounded normalizer has room. |
| `ChainTheorem.RunIff` | src/vllm_hust_kv_transfer_observability/validation.py:399-488 | The validator gets through a list exactly when it is a partial chain, free of unsuccessful restores, and within capacity. |
| `ChainResults.VerdictExact` | src/vllm_hust_kv_transfer_observability/validation.py:370-490 | The verdict is n exactly when the request's records split by identity into n complete, disjoint episodes, no unsuccessful H2D record is among them, and no table of the validator's normalizer overflows. |
| `ChainResults.VerdictOfBoundedChain` | src/vllm_hust_kv_transfer_observability/validation.py:370-490 | With at most 4096 restores of the request, the verdict is n exactly when the chain is complete with n episodes. |
| `ChainResults.InterleavingIrrelevant` | src/vllm_hust_kv_transfer_observability/validation.py:370-490 | With at most 4096 restores of the request, how its episodes and other requests are interleaved never changes the verdict. |
| `ChainCapacity.InterleavingDecides` | src/vllm_hust_kv_transfer_observability/validation.py:370-490 | For every number of one-restore episodes beyond 4096, two lists give every identity the same stream and are both complete chains, yet one is accepted with that count and the other is rejected. |
| `Validation.CheckRelevant` | src/vllm_hust_kv_transfer_observability/validation.py:409-485 | The loop body for one relevant record, with its episode tables and stateful normalizer, does what `RelevantStep` says, and fails exactly where it fails. |
| `Validation.ValidateCanonicalChain` | src/vllm_hust_kv_transfer_observability/validation.py:382-490 | The loop over canonical records returns the chain verdict. |
| `Validation.ValidateRestoreChain` | src/vllm_hust_kv_transfer_observability/validation.py:370-490 | Correlated records of the request decide alone if there are any; otherwise the canonical chain decides. |
| `Validation.ClaimJobs` | src/vllm_hust_kv_transfer_observability/validation.py:283-289 | A record's jobs are claimed for its episode exactly when no other episode of its scheduler generation owns one of them. |
| `Validation.GroupRecords` | src/vllm_hust_kv_transfer_observability/validation.py:269-289 | Records are grouped by episode, in order, exactly when no job is claimed by two episodes. |
| `Validation.ValidateCorrelatedRestoreChain` | src/vllm_hust_kv_transfer_observability/validation.py:264-367 | The correlated validator returns the number of episodes exactly when every one of them is proven by the declarative definition. |
| `Validation.ArtifactOrderIrrelevant` | src/vllm_hust_kv_transfer_observability/validation.py:264-367 | Artifacts of a correlated request may be concatenated in any order. |
| `ValidationResults.OtherRequestsIrrelevant` | src/vllm_hust_kv_transfer_observability/validation.py:378-403 | The verdict on a request is the verdict on the records of that request alone, of either kind. |
| `ValidationResults.VerdictMeans` | src/vllm_hust_kv_transfer_observability/validation.py:370-490 | End to end: without a link of the request, accepted with n episodes exactly when its observations are a complete chain of n (within capacity, which up to 4096 restores is always); with a link, exactly when its own links are proven, n episodes of them. |
| `ValidationResults.KindsConcatenate` | src/vllm_hust_kv_transfer_observability/validation.py:378-401 | The records of each kind are read artifact after artifact, in order. |
| `CorrelatedValidation.CheckReceiptStage` | src/vllm_hust_kv_transfer_observability/validation.py:305-320 | Passes exactly when there is one receipt for each job of the roster, repeating its workers, strictly between requeue and admission. |
| `CorrelatedValidation.StageTable` | src/vllm_hust_kv_transfer_observability/validation.py:333-340 | Builds the dictionary of a stage exactly when its records are one for each expected key. |
| `CorrelatedValidation.CheckWorkerStages` | src/vllm_hust_kv_transfer_observability/validation.py:321-366 | Passes exactly when submissions, completions and first computes match the roster and follow each other on every worker. |
| `CorrelatedValidation.CheckEpisode` | src/vllm_hust_kv_transfer_observability/validation.py:300-366 | The episode check passes exactly when some requeue and admission prove the episode. |
| `CorrelatedChain.OrderIrrelevant` | src/vllm_hust_kv_transfer_observability/validation.py:264-367 | The correlated verdict and count are the same for every permutation of the records. |
| `CorrelatedResults.ClocksIndependent` | src/vllm_hust_kv_transfer_observability/validation.py:300-366 | Changing each worker incarnation's and each scheduler incarnation's timestamps by its own order-preserving map never changes the verdict. |
| `CorrelatedResults.ProvenSize` | src/vllm_hust_kv_transfer_observability/validation.py:300-366 | A proven episode has 2 + jobs + 2·(job, worker) pairs + distinct workers records. |
| `CorrelatedResults.ExpectationSizes` | src/vllm_hust_kv_transfer_observability/correlated.py:115-131 | For a valid roster the expectations number exactly its jobs and its (job, worker) pairs. |
| `CorrelatedResults.StrictPartRejected` | src/vllm_hust_kv_transfer_observability/validation.py:300-366 | Removing some but not all records of an episode from an accepted list is rejected. |
| `CorrelatedResults.ExtraRecordRejected` | src/vllm_hust_kv_transfer_observability/validation.py:300-366 | Adding any record to an episode of an accepted list, a duplicate for instance, is rejected, wherever it is put. |
| `CorrelatedResults.SubmissionsDetermineRoster` | src/vllm_hust_kv_transfer_observability/correlated.py:45-54 | Proven episodes with the same worker submissions admit the same roster. |
| `CorrelatedStories.ProvenIsStory` | src/vllm_hust_kv_transfer_observability/validation.py:300-366 | An episode is proven exactly when every job of the admitted roster was delivered between requeue and admission, every worker of it submitted, completed and computed in that order, and there is no record more than that takes. |
| `Correlated.SameWorkersSameTuple` | src/vllm_hust_kv_transfer_observability/correlated.py:45-54 | Valid worker tuples with the same workers are equal. |
| `Correlated.SameJobsSameRoster` | src/vllm_hust_kv_transfer_observability/correlated.py:115-131 | Valid rosters with the same jobs are equal. |
| `EventFile.EventDestination.WriteAll` | src/vllm_hust_kv_transfer_observability/events.py:184-190 | The write loop ends; it succeeds exactly when its answers take all of the data before one refuses, and then the file has gained the data. |
| `EventFile.EventDestination.WriteRecord` | src/vllm_hust_kv_transfer_observability/events.py:192-212 | One record: lock, capacity check, complete write, rollback by truncation, unlock; file and outcome as `RecordEffect` gives them. |
| `EventFile.AppendIsPrefix` | src/vllm_hust_kv_transfer_observability/events.py:184-190 | Short writes append a prefix of the data, all of it exactly when the loop gets through. |
| `EventFile.LoopCompletes` | src/vllm_hust_kv_transfer_observability/events.py:184-190 | The write loop gets through exactly when its answers take all of the data before one of them refuses, and then the data follows the content. |
| `EventFile.ShortWritesComplete` | src/vllm_hust_kv_transfer_observability/events.py:184-190 | Short writes are completed: while every answer takes at least a byte, all data is written. |
| `EventFile.LoopStops` | src/vllm_hust_kv_transfer_observability/events.py:184-190 | A loop that does not get through has written exactly what the answers before the first refusal took. |
| `EventFile.OutcomeMeans` | src/vllm_hust_kv_transfer_observability/events.py:192-212 | Exactly: the whole record is in the file iff the loop completes, and counted iff the unlock succeeds too; a part is left iff a first write took something, the loop failed and the truncation failed; otherwise the file is as it was. |
| `EventFile.FailedTruncationLeavesPart` | src/vllm_hust_kv_transfer_observability/events.py:202-208 | A torn write with a failed truncation leaves its first byte. |
| `EventFile.FailedTruncationCanBeHarmless` | src/vllm_hust_kv_transfer_observability/events.py:202-208 | A failed truncation after a write that took nothing leaves the file as it was. |
| `EventSink.RunKeepsInv` | src/vllm_hust_kv_transfer_observability/events.py:125-293 | The close protocol, the queue in FIFO order, the outcome counters and the file content stay consistent in every interleaving. |
| `EventSink.Conservation` | src/vllm_hust_kv_transfer_observability/events.py:125-243 | Between critical sections enqueued = written + file-capacity drops + I/O errors + queued + in flight, records are dealt with in order, and the queue stays within its bound. |
| `EventSink.ExitedHasDrained` | src/vllm_hust_kv_transfer_observability/events.py:214-293 | When the writer has exited, every accepted record was dealt with, and none is accepted later. |
| `EventSink.CloseEnds` | src/vllm_hust_kv_transfer_observability/events.py:214-293 | After the stop event the writer exits within a bounded number of its own steps, and one of them is always possible. |
| `EventSink.FileHoldsWholeRecords` | src/vllm_hust_kv_transfer_observability/events.py:184-243 | For every schedule: the file is its initial content and whole accepted records in order iff no write leaves a part; those records number `written` iff no unlock fails after a complete write, and are never fewer. |
| `EventSink.BothHappen` | src/vllm_hust_kv_transfer_observability/events.py:192-243 | One schedule leaves a part in the file, and another has a whole record that `written` does not count. |
| `EventSink.FileStaysWithinLimit` | src/vllm_hust_kv_transfer_observability/events.py:192-212 | A file that starts within `max_file_bytes` never exceeds it. |
| `EventSink.EmissionAccepted` | src/vllm_hust_kv_transfer_observability/events.py:125-163 | A record is queued, last, exactly when it can be serialised, is within the size limit, and finds the sink open with room. |
| `EventSink.EveryEmissionCounts` | src/vllm_hust_kv_transfer_observability/events.py:125-163 | Over every schedule, each emission is accepted or counted by the one counter of its refusal. |
| `DescriptorCapture.DescriptorLayoutCapture.WriteAll` | src/vllm_hust_kv_transfer_observability/descriptors.py:197-204 | The loop succeeds exactly when its answers take all of the data before one refuses; on an error a prefix stays in the temporary file. |
| `DescriptorCapture.DescriptorLayoutCapture.Capture` | src/vllm_hust_kv_transfer_observability/descriptors.py:211-305 | For every fault schedule: no existing name is altered, a new final name holds the complete data, a returned name means exactly that name was added, a refusal with working cleanup restores the directory; it publishes exactly when nothing stands in the way, and each counter moves exactly on its own kind of refusal. |
| `DescriptorCapture.DescriptorLayoutCapture.Publish` | src/vllm_hust_kv_transfer_observability/descriptors.py:252-305 | Exclusive creation, complete write and no-overwrite link, with the cleanup each failure needs. |
| `DescriptorCapture.PublishesExactly` | src/vllm_hust_kv_transfer_observability/descriptors.py:211-305 | A capture publishes exactly when it is open and within its limits, both names are free and different, and every call succeeds, the writes taking all of the data. |
| `DescriptorCapture.ConflictsExactly` | src/vllm_hust_kv_transfer_observability/descriptors.py:252-275 | It is a conflict exactly when a name is taken by the time it is needed. |
| `DescriptorCapture.RefusalsExactly` | src/vllm_hust_kv_transfer_observability/descriptors.py:211-250 | Which refusals count as closed, as over a limit, and as unserialisable. |
| `DescriptorCapture.DescriptorLayoutCapture.Settle` | src/vllm_hust_kv_transfer_observability/descriptors.py:277-304 | A failure after the link takes the published name back. |
| `AsyncDescriptors.BoundedAndInOrder` | src/vllm_hust_kv_transfer_observability/descriptors.py:407-453 | The descriptor queue never exceeds its bound, and inventories are finished in the order of acceptance. |
| `AsyncDescriptors.ExitedHasDrained` | src/vllm_hust_kv_transfer_observability/descriptors.py:427-453 | When the writer has exited, every accepted inventory was written or failed exactly once, and none is accepted later. |
| `AsyncDescriptors.DescriptorsBalance` | src/vllm_hust_kv_transfer_observability/adapter.py:291-309 | After a drain, received is written + dropped + the number of raising steps of the schedule, so the counts balance iff no callback raises; then `written` and `dropped` are what publication and admission say. |
| `AsyncDescriptors.DrainPublishes` | src/vllm_hust_kv_transfer_observability/descriptors.py:427-453 | After a drain with working cleanup the directory has gained exactly `written` names, those of the written inventories, each with its complete data. |
| `AsyncDescriptors.DrainEnds` | src/vllm_hust_kv_transfer_observability/descriptors.py:427-471 | After a close the writer exits after exactly `Work` of its own steps in every interleaving. |
| `AsyncDescriptors.OfferAccepted` | src/vllm_hust_kv_transfer_observability/descriptors.py:407-425 | An inventory is queued, last, exactly when the queue is open with room and the inventory is within the region limit; a refusal moves the counter of its reason. |
| `ScopedIds.PrintRoundTrips` | src/vllm_hust_kv_transfer_observability/schema.py:105-116 | The print of a 32-hex process id and a number is an identifier of its kind, and of no other, exactly when the number is a uint64, and both parts come back. |
| `ScopedIds.EveryIdIsAPrint` | src/vllm_hust_kv_transfer_observability/schema.py:17-19 | Every accepted string is the print of its own parts, leading-zero rule and 20-digit bound included. |
| `ScopedIds.AcceptedIffPrinted` | src/vllm_hust_kv_transfer_observability/schema.py:105-116 | The accepted strings are exactly the prints of process ids and uint64 numbers. |
| `ScopedIds.PrintInjective` | src/vllm_hust_kv_transfer_observability/native.py:183-184 | Different processes, kinds or numbers never share an identifier. |
| `Binding.WorkerGeneration` | src/vllm_hust_kv_transfer_observability/native.py:78-81 | A generation is a positive uint64, as identities require. |
| `Binding.GenerationSeparates` | src/vllm_hust_kv_transfer_observability/native.py:78-81 | Two processes share a generation exactly when the first sixteen digits of their ids agree, or number zero and one. |
| `Binding.VllmOffloadingObserverBinding.OnHostRecord` | src/vllm_hust_kv_transfer_observability/native.py:193-292 | One transfer event of the host: what the binding's table, the adapter and the normalizer become, and what the host is told. |
| `Binding.VllmOffloadingObserverBinding.Unregister` | src/vllm_hust_kv_transfer_observability/native.py:111-114 | Unregistering drops the callbacks and every binding entry. |
| `BindingRuns.SurplusGrowsExactly` | src/vllm_hust_kv_transfer_observability/native.py:233-292 | Each host event keeps the binding's table included in the normalizer's, and adds to the surplus exactly one name when the sink drops an accepted submission or a terminal record leaves the normalizer's entry, and none otherwise. |
| `BindingRuns.StrandsExactlyWhen` | src/vllm_hust_kv_transfer_observability/native.py:244-292 | A forwarded terminal record strands its name exactly when the adapter is inactive, evidence is disabled, or the record is untimely or mismeasured for the transfer. |
| `BindingRuns.SubmissionStrandsExactlyWhen` | src/vllm_hust_kv_transfer_observability/native.py:225-237 | A forwarded submission strands its name exactly when the adapter is active, the normalizer has valid evidence, a free name and room, and the sink does not take the record. |
| `BindingRuns.DroppedSubmissionStrands` | src/vllm_hust_kv_transfer_observability/adapter.py:278-284 | A host run in which a submission that the sink drops strands its name. |
| `BindingRuns.RefusedCompletionStrands` | src/vllm_hust_kv_transfer_observability/native.py:287-292 | A host run in which a completion that the normalizer refuses strands its name. |
| `BindingRuns.TablesStayInStep` | src/vllm_hust_kv_transfer_observability/native.py:193-292 | In every run, until the normalizer closes, the inclusion holds with equal identity and operation, and the surplus never loses a name. |
| `BindingRuns.IncludedImage` | src/vllm_hust_kv_transfer_observability/native.py:183-184 | The binding's jobs map injectively into the normalizer's transfers. |
| `BindingRuns.TableBound` | src/vllm_hust_kv_transfer_observability/native.py:225-231 | The binding's table is never larger than the normalizer's, so its bound of 4096 refuses nothing that the normalizer would take. |
| `BindingRuns.StrandedJobRefused` | src/vllm_hust_kv_transfer_observability/native.py:193-292 | After any further run, whatever the host says of a stranded job, nothing is accepted. |
| `BindingRuns.ObservationsBalance` | src/vllm_hust_kv_transfer_observability/adapter.py:265-289 | In every run received = emitted + normalization drops + sink drops + callback errors, and the normalizer counts the same calls. |
| `BindingAnswers.SubmissionTranslated` | src/vllm_hust_kv_transfer_observability/native.py:165-232 | A submission is forwarded exactly when it is well-formed, new to the binding, and there is room; and the source carries the host's operation, request, rank, block count and time under the job's printed name. |
| `BindingAnswers.TerminalTranslated` | src/vllm_hust_kv_transfer_observability/native.py:244-286 | A terminal record is forwarded exactly when it is well-formed and names a transfer as it was submitted; the source carries the host's time, success, bytes and positive device duration, and the job's receipt exactly on a successful restore. |
| `BindingAnswers.ToldExactly` | src/vllm_hust_kv_transfer_observability/native.py:233-292 | The host is told that its event was accepted exactly when the sink took a record of it. |
| `BindingAnswers.SubmissionOffered` | src/vllm_hust_kv_transfer_observability/native.py:193-238 | From host record to canonical record: when a submission yields a start record, and that the record is of the operation, request, rank, blocks and time that the host named. |
| `BindingAnswers.CompletionOffered` | src/vllm_hust_kv_transfer_observability/native.py:240-292 | From host record to canonical record: when a completion yields a record, and that it is the restore, preserve or failure that the host reported. |
| `BindingAnswers.CancellationOffered` | src/vllm_hust_kv_transfer_observability/native.py:277-292 | When a host shutdown yields a cancellation record, and what it says. |
| `BindingAnswers.SubmitThenComplete` | src/vllm_hust_kv_transfer_observability/native.py:193-292 | Whenever a submission is accepted, its timely successful completion is too (if a retained receipt finds room); the records are of the host's operation, and both tables are then what they were. |
| `BindingAnswers.RestoreObserved` | src/vllm_hust_kv_transfer_observability/native.py:193-292 | A fresh adapter takes one restore from its submission to a completed record with the job's receipt. |
| `BindingAnswers.CountersTellFates` | src/vllm_hust_kv_transfer_observability/adapter.py:265-289 | In every run as many records count as emitted as the host was told were accepted, and every other counter grows with its own fate alone. |
| `Adapter.KVTransferHostAdapter.Observe` | src/vllm_hust_kv_transfer_observability/adapter.py:265-289 | One observation: inactive, normalization refusal, sink refusal, exception or emission, each with its counter. |
| `Adapter.KVTransferHostAdapter.PrepareResources` | src/vllm_hust_kv_transfer_observability/adapter.py:138-171 | Builds the sink, then the capture; a failure of the second closes the first. |
| `Adapter.KVTransferHostAdapter.Start` | src/vllm_hust_kv_transfer_observability/adapter.py:173-229 | Starts only a stopped, enabled adapter; on success it is active with a fresh normalizer, and on failure it is stopped. |
| `Adapter.KVTransferHostAdapter.Stop` | src/vllm_hust_kv_transfer_observability/adapter.py:346-384 | Unregisters, closes normalizer, capture and sink, and lets go only of writers that have exited. |
| `Adapter.StopSettles` | src/vllm_hust_kv_transfer_observability/adapter.py:370-384 | A stop ends in the stopped state exactly when every owned writer has exited; otherwise ownership is kept and no start is possible. |
| `Adapter.StartsExactly` | src/vllm_hust_kv_transfer_observability/adapter.py:173-229 | A start succeeds exactly when the adapter is enabled and stopped and every construction and the registration succeed; then it is active and owns what it built. |
| `Adapter.StopReports` | src/vllm_hust_kv_transfer_observability/adapter.py:231-263 | A stop returns true exactly when it was stopped already or nothing of it failed, and each timeout, raise and failed unregistration moves its own counter. |
| `Adapter.StoppedMeansDrained` | src/vllm_hust_kv_transfer_observability/adapter.py:346-384 | Over all runs the writers alive in the stopped state are ones that a failed start forgot, and there is none if no start of the run leaked. |
| `Adapter.ForgetsExactly` | src/vllm_hust_kv_transfer_observability/adapter.py:194-219 | A start forgets a live writer exactly when it fails after building one and closing that writer times out. |
| `Adapter.OrphansExactly` | src/vllm_hust_kv_transfer_observability/adapter.py:173-229 | A run leaves forgotten writers exactly when one of its starts is such a start. |
| `Adapter.StoppedWithLiveWriter` | src/vllm_hust_kv_transfer_observability/adapter.py:213-219 | After a failed registration the adapter can be stopped with a live writer and start a second one. |
| `ObservationPayload.PayloadExact` | src/vllm_hust_kv_transfer_observability/validation.py:61-101 | A payload is accepted exactly when it is the payload of a valid observation, which is then what comes back. |
| `ObservationPayload.PayloadInjective` | src/vllm_hust_kv_transfer_observability/schema.py:384-415 | Different observations never share a payload. |
| `ObservationPayload.IdentityExact` | src/vllm_hust_kv_transfer_observability/validation.py:54-58 | An identity is read back from its own object and from no other. |
| `CorrelatedPayload.RosterFromArray` | src/vllm_hust_kv_transfer_observability/validation.py:149-165 | The loop over the roster array reads every checked job receipt in order, or fails. |
| `CorrelatedPayload.WritePayload` | src/vllm_hust_kv_transfer_observability/correlated.py:171-194 | Filling the dictionary field by field gives exactly the record's payload. |
| `CorrelatedPayload.PayloadExact` | src/vllm_hust_kv_transfer_observability/validation.py:133-174 | A payload is accepted exactly when it is the payload of a valid correlated record, nested rosters included. |
| `CorrelatedPayload.PayloadInjective` | src/vllm_hust_kv_transfer_observability/correlated.py:171-194 | Different valid correlated records never share a payload. |
| `DescriptorPayload.RegionsFromArray` | src/vllm_hust_kv_transfer_observability/validation.py:195-199 | The loop over the descriptors array reads every checked region in order, or fails. |
| `DescriptorPayload.PayloadExact` | src/vllm_hust_kv_transfer_observability/validation.py:177-215 | A payload is accepted exactly when it is the payload of a valid inventory under some evidence label. |
| `DescriptorPayload.PayloadInjective` | src/vllm_hust_kv_transfer_observability/descriptors.py:120-130 | A payload determines the valid inventory and its label. |

## Left out

- Host facts: their content and their payloads; they prove no stage of a chain, and are passed over as `UnjoinedFact`.
- JSON text, regular expressions, hashing, clocks and random names: JSON is a value tree, an identifier pattern is a predicate on strings, times and names are arguments.
- Python values that equal a member of another type (`True` and `1`, a plain string and an enumeration member): values of different types are different here.
- Rewriting of the parser's local dictionary: the parsers are functions on the fields of the object, and only their array loops and the dictionary loop of the correlated writer are methods.
- Event sink and descriptor queue as objects: they are state machines over the steps of their threads, so what is left out is the Python object itself, `flush`, a sink without a path, and the join timeout as a duration.
- File locking, inode and symlink checks, permission bits, and closing of descriptors: the lock is exclusive, a name means one file, and a call that fails has no effect.
- One event file with one writer: other processes appending to the same file under the lock are not modelled.
- Fork handling, environment activation, configuration parsing, the constant tables, the command line and the enumeration of descriptor directories.
- Host registration: an answer of the fault arguments; the correlated callback of the binding, whose record checks are those of `Correlated`, and the host-fact callback move no table and are not modelled.
- Restarting an adapter on a new normalizer: the binding runs cover one normalizer from start to close.
- Adapter.KVTransferHostAdapter.Start: models the order of construction, registration and cleanup, not the exceptions' messages or the inspection of the binding object.
- AsyncDescriptors.DrainPublishes: takes the directories between captures as given, related as `Capture` relates them when its cleanup works.
- DescriptorCapture.DescriptorLayoutCapture.Capture: the serialised data is an argument, so that the text of the file is whatever the serialiser produced.
