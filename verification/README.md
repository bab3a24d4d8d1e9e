# rs-llmctl: verified model

This project models the parts of rs-llmctl in which several steps, requests or
layers have to agree, and proves what they promise, for every input, every
interleaving and every run:

- **Cached decoding.** The Gemma4 transformer with one key/value cache per layer,
  layers that borrow another layer's cache, and a sliding-window mask
  (`Gemma4.dfy`) against plain recomputation of the whole prefix
  (`CachedDecoding.dfy`); the generation loop (`Decoder.dfy`,
  `GenerationLoop.dfy`), what it streams for any tokenizer (`StreamedText.dfy`),
  what a call owes its request (`ServedRequests.dfy`), and the loop over the cached
  model (`CachedGeneration.dfy`). The tensor arithmetic is uninterpreted: what is
  proved is which rows meet, at which positions, through which caches.
- **The native scheduler.** Semaphore permits, the optimistic waiting counter and
  the drop guard as atomic steps of any number of requests, with futures dropped
  at every await (`Scheduler.dfy`, `SchedulerEngine.dfy`, `SchedulerProofs.dfy`,
  `SchedulerOrder.dfy`, `SchedulerProgress.dfy`). The semaphore is fair and hands
  released permits to waiters first.
- **Quota admission.** The three-pass check (`Quota.dfy`), what it decides
  (`QuotaPolicy.dfy`), what its numbers and answers mean (`QuotaMeaning.dfy`),
  check-and-record under a lock per scope, query by query (`QuotaAdmission.dfy`),
  when exactly a limit survives a run (`QuotaExact.dfy`), and the runs that decide
  which limits hold (`QuotaRuns.dfy`).
- **Canonical JSON, envelopes and the policy log.** `Json.dfy`, `JsonText.dfy`,
  `Envelope.dfy`, `PolicyLog.dfy`. The hash is a parameter; where a lemma needs it
  not to collide, it says so for the texts at hand only. The compact serialiser is
  proved against a reader that follows the grammar of RFC 8259.
- **Event-stream parsers.** `SseFrames.dfy`, `ThinkTags.dfy`, `SseParser.dfy`,
  `SseMeaning.dfy`, `SseClient.dfy`. They cover the part of sections 9.2.5 and 9.2.6
  of the WHATWG HTML Standard that the code covers: only `\n\n` ends an event.
- **Smaller state machines.** Crash-safe configuration save (`ConfigSave.dfy`,
  `ConfigStore.dfy`), saturating group-by totals (`Saturation.dfy`,
  `UsageSummary.dfy`, `QuotaSummary.dfy`), cluster placement (`Placement.dfy`).
  `Ordering.dfy` and `Text.dfy` hold the order of strings and what the code trims
  and finds in them.

Methods and classes follow the code's own form (loops, fields, early returns) and
are proved against specification functions; the lemmas are about those functions.
The scheduler is different: its one `async` body is interleaved with others, so
`SchedulerEngine.dfy` has one method per atomic section, each proved to be its
step of the state machine and to keep the invariant, and composes them into the
body as it runs when nobody comes in between.

## Where a promise does not hold as stated

Each of these comes with an input that shows it; where a caller can tell beforehand
whether the promise holds, the exact condition is proved as well.

- *Rate limit.* The count looks at `at < now`, so a row stamped at the very
  instant of the next check is not seen. While the clock stands still any number of
  admissions, one after the other, pass under any policy
  (`QuotaPolicy.TieBreaksTheLimit`, `QuotaRuns.FrozenClockBreaksTheLimit`). On any
  run, ties included, a limit holds at the end if and only if it held at the start
  and every recorded admission found fewer rows than the limit in the *closed* minute
  before its stamp (`QuotaExact.LimitOfEveryRunIff`). The sufficient theorem over all runs
  assumes that a request reads a time later than the admitted rows that its own
  policies count, and nothing of denied rows or of anybody else's.
- *Dropped inserts.* If a request is dropped while its row is on its way to the
  database, the lock is free before the row is there, and the checks until then miss
  it: again any number pass under any policy (`QuotaRuns.LateInsertBreaksTheLimit`).
  The theorem over all runs lets rows of denied requests arrive late and assumes that
  rows of admitted ones do not.
- *Team limit.* A policy that names a subject and that subject's own team counts the
  subject alone, so the rest of the team can fill the minute before it
  (`QuotaRuns.NamedMemberOverfillsTheTeam`). A policy bounds its team on every run
  if and only if its subject is outside the team or is all of it
  (`QuotaRuns.TeamLimitIff`).
- *Cached decoding.* One-token steps build no mask. For any stack of layers, sharing
  and global ones included, cached decoding agrees with recomputation for all tensors
  if and only if nothing follows the prompt or no window is shorter than the sequence
  less one (`CachedDecoding.WindowBoundIsExact`). What the cached run computes at every
  length is recomputation with the prompt's rows masked and all later rows unmasked
  (`CachedDecoding.CachedRunIsMixed`).
- *Sharing layers.* With `shared_kv_layers >= block_count` no layer owns a cache and
  every forward fails (`CachedDecoding.ForwardNeedsAnOwner`, both directions). The
  comment that the source of layer `i` is `i % n_own_kv` does not describe the code.
- *Streamed text.* If a later token changes text already decoded (a byte-fallback
  decoder), the returned text need not be a prefix of the deltas
  (`GenerationLoop.ReplacementBreaksThePrefix`). It is one on every run if and only
  if what is shown for a list of tokens never contradicts the text of a shorter part
  of that list, which is weaker than decoding monotonically
  (`StreamedText.PrefixOnEveryRunIff`, `StreamedText.MonotoneIsCoherent`).
- *Scheduler order.* Permits are granted in queue order, but the requests need not
  enter the engine in it. They do on every run if and only if there is one permit or
  no queue (`SchedulerOrder.StartsInQueueOrderIff`).
- *Scheduler refusals.* Under every configuration a request can be refused "queue is
  full" while nobody waits (`SchedulerOrder.FullWithoutWaiters`), so wherever there is
  a queue, one with room in it (`SchedulerOrder.RefusedWithRoomIff`). A request is
  refused if and only if guards and pending undos fill the limit
  (`SchedulerOrder.RefusedIff`).
- *Think tags.* Two tags in one delta confuse the eight-character window
  (`ThinkTags.TwoTagsInOneDelta`). The tracker does what a tracker of the whole
  content does if and only if no delta arrives while the last eight characters still
  show the tag that ends the phase, without completing that tag again
  (`ThinkTags.TrackerFollowsTagsIff`).
- *Heartbeat.* Two models under one alias can be placed and healthy with one model
  assigned (`Placement.HealthyWithAModelUnassigned`); a healthy heartbeat counts all
  models if and only if the aliases are distinct (`Placement.HealthyCountsAliases`).
- *Configuration save.* The directory is not synced, so a save that succeeded may be
  undone by a power failure, though never torn (`ConfigSave.SuccessMayBeUndone`).
- *Envelope.* The code reports "missing or unknown report_kind" but accepts any
  string as a kind; the model follows the code.

## Model

| member | source | states |
|---|---|---|
| `Gemma4.Model.FromGguf` | src/gemma4_gguf/mod.rs:301-355 | the layer loop assembles exactly the windows and sharing map of `Assembled`, all caches empty |
| `Gemma4.MissingSourceIsNamed` | src/gemma4_gguf/mod.rs:543-553 | an unpopulated source is reported exactly by the layer that shares it, naming both |
| `Gemma4.Model.ForwardAttn` | src/gemma4_gguf/mod.rs:168-238 | one block's attention yields the rows, the error and the cache update of `LayerStep`, and touches no other cache |
| `Gemma4.Model.AttendRows` | src/gemma4_gguf/mod.rs:139-164 | row by row: masked pairs for a batch, all pairs for a single token |
| `Gemma4.Model.ProjectKv` | src/gemma4_gguf/mod.rs:190-207 | new key rows carry the absolute position, value rows do not |
| `Gemma4.Model.Forward` | src/gemma4_gguf/mod.rs:509-601 | the layer loop in place computes `Forwarded`: result or error, and every cache |
| `Gemma4.Model.ClearKvCache` | src/gemma4_gguf/mod.rs:603-607 | afterwards every cache is empty |
| `Gemma4.AssembledInRange` | src/gemma4_gguf/mod.rs:305-355 | every source layer is a layer of the model |
| `Gemma4.AssembledLayers` | src/gemma4_gguf/mod.rs:305-355 | what each layer is: its tensors, a window exactly for the sliding head width, and which own layer a sliding or global sharer borrows from |
| `Gemma4.SharersKeepTheirKind` | src/gemma4_gguf/mod.rs:345-355 | every sharer borrows from a layer of its own kind wherever the last two own layers are a sliding and a global one, and sharer by sharer exactly where that own layer is of its kind |
| `CachedDecoding.VisibleIgnoresFuture` | src/gemma4_gguf/mod.rs:147-155 | the causal mask makes pairs after the row irrelevant |
| `CachedDecoding.MaskFreeStepIsExact` | src/gemma4_gguf/mod.rs:557-561 | attending without a mask equals attending with it if and only if the window reaches back to the start |
| `CachedDecoding.HiddenIsCausal` | src/gemma4_gguf/mod.rs:509-601 | a row at any layer depends only on the tokens up to it |
| `CachedDecoding.KvIsCausal` | src/gemma4_gguf/mod.rs:187-219 | the cached rows of a prefix are those of any continuation |
| `CachedDecoding.RecomputedAlike` | src/gemma4_gguf/mod.rs:147-155 | which rows are masked makes no difference while no window binds |
| `CachedDecoding.PrefillRecomputes` | src/gemma4_gguf/mod.rs:207-217 | a forward at 0 from any caches yields recomputation, and overwrites every own cache |
| `CachedDecoding.FailsPastTheTables` | src/gemma4_gguf/mod.rs:509-601 | a forward at 0 fails exactly past the 131072 rows of the rotary tables |
| `CachedDecoding.DecodeRecomputes` | src/gemma4_gguf/mod.rs:509-601 | a one-token step on the caches of a prefix yields what recomputing the longer prefix would with the new row unmasked, caches included, at any length |
| `CachedDecoding.CachedRunIsMixed` | src/gemma4_gguf/mod.rs:139-239 | for any length, prompt at 0 then single tokens is recomputation with the prompt's rows masked and later rows unmasked: logits and caches |
| `CachedDecoding.CachedRunRecomputes` | src/gemma4_gguf/mod.rs:139-239 | while no window binds: same logits, same caches as one forward of the whole sequence, sharing layers included |
| `CachedDecoding.CountingStep` | src/gemma4_gguf/mod.rs:557-561 | for every stack of layers, with tensors that count at one layer, a cached run past the prompt sees every position |
| `CachedDecoding.CountingRecomputed` | src/gemma4_gguf/mod.rs:147-150 | with those tensors recomputation sees every position exactly up to that layer's window + 1 |
| `CachedDecoding.PastAWindowTheyDiffer` | src/gemma4_gguf/mod.rs:557-561 | past the window of any layer there are tensors whose logits differ, on every input |
| `CachedDecoding.WindowBoundIsExact` | src/gemma4_gguf/mod.rs:557-561 | for every stack of layers (local, global, sharing) and every prompt and continuation: both ways agree for all tensors if and only if nothing follows the prompt or the whole sequence fits every window |
| `CachedDecoding.SharingMapIsSound` | src/gemma4_gguf/mod.rs:348-355 | every source is a lower layer that owns its cache if and only if some layer is left to own one |
| `CachedDecoding.ForwardNeedsAnOwner` | src/gemma4_gguf/mod.rs:538-553 | from cleared caches a forward succeeds if and only if some layer owns a cache, and otherwise reports the first layer and its source |
| `CachedDecoding.ContiguousForwardKeepsShape` | src/gemma4_gguf/mod.rs:185-219 | a contiguous forward never lacks a source and leaves exactly pos + seq positions in own caches, none in sharing layers |
| `CachedDecoding.ClearedHoldsNothing` | src/gemma4_gguf/mod.rs:603-607 | after clearing no layer holds a position |
| `CachedDecoding.HoldsForRestart` | src/gemma4_gguf/mod.rs:210-213 | whatever the caches hold, they are ready for position 0 |
| `CachedDecoding.EveryRunKeepsShape` | src/gemma4_gguf/mod.rs:509-607 | the cache shape holds along every run of contiguous calls, restarts included |
| `Decoder.ClampTokens` | src/native/decoder.rs:207-211 | between 1 and 4096, what was asked for when that is in range, the nearer end otherwise, and 128 when nothing was |
| `Decoder.FirstStop` | src/native/decoder.rs:246-253 | the earliest occurrence of any stop sequence, or none at all |
| `Decoder.WithBos` | src/native/decoder.rs:503-510 | starts with the configured token, and adds it in front exactly when the prompt does not start with it |
| `Decoder.Turn` | src/native/decoder.rs:275-290 | a turn without an error appends exactly one token to the input |
| `Decoder.Serve` | src/native/decoder.rs:182-190 | whatever happens, the decoder has served afterwards (for the rest see `ServedRequests`) |
| `Decoder.RealCandleDecoder.ResetKvCache` | src/native/decoder.rs:408-455 | clears the model's state exactly for the families that can |
| `Decoder.RealCandleDecoder.AdmitFreshKvSession` | src/native/decoder.rs:95-108 | admitted if cleared or never served before; always served afterwards |
| `Decoder.RealCandleDecoder.FlushDelta` | src/native/decoder.rs:236-262 | emits exactly the visible text beyond what was emitted and says whether a stop was hit |
| `Decoder.RealCandleDecoder.TakeTurn` | src/native/decoder.rs:315-330 | one step of the loop is `Turn`, errors included |
| `Decoder.RealCandleDecoder.DecodeTokens` | src/native/decoder.rs:264-332 | prefill and loop compute `Generated` |
| `Decoder.RealCandleDecoder.GenerateStreaming` | src/native/decoder.rs:177-368 | a call computes `Serve`: result, deltas, model state and latch |
| `GenerationLoop.TurnFeeds` | src/native/decoder.rs:315-321 | a turn feeds what was not fed yet, at the offset equal to the number of tokens fed before |
| `GenerationLoop.EachTokenFedOnceAtItsPosition` | src/native/decoder.rs:228-332 | over the whole loop every token is fed at most once, in order, at its absolute position; offset + 1 is the length at the end |
| `GenerationLoop.FinishReasonIsExact` | src/native/decoder.rs:207-231 | at most max_tokens tokens; "length" exactly when that many were produced and no stop shows |
| `GenerationLoop.FirstStopCutsClean` | src/native/decoder.rs:246-253 | text cut at the first stop contains no complete stop sequence |
| `GenerationLoop.GeneratedStreams` | src/native/decoder.rs:236-262 | the concatenated deltas, as a function of what was generated |
| `GenerationLoop.ReturnedVersusStreamed` | src/native/decoder.rs:347-359 | the returned text is a prefix of the deltas, neither shows a stop, and they are equal if and only if the stop does not reach back into text already decoded |
| `GenerationLoop.TurnFails` | src/native/decoder.rs:264-313 | which error a turn reports: no logits, no sample, or no text |
| `GenerationLoop.ReplacementBreaksThePrefix` | src/native/decoder.rs:347-359 | a decoder for which it is not |
| `StreamedText.RunEmits` | src/native/decoder.rs:236-332 | for any tokenizer, model and sampler: what a run streams, as a function of the tokens it generates |
| `StreamedText.CoherentStreams` | src/native/decoder.rs:347-359 | if texts decoded along a run never contradict what is shown later, every run returns a prefix of its deltas |
| `StreamedText.PrefixOnEveryRunIff` | src/native/decoder.rs:347-359 | and only then: the condition on the tokenizer and the stops is exact, for every token limit |
| `StreamedText.MonotoneIsCoherent` | src/native/decoder.rs:236-262 | decoders that only extend their text meet it, whatever the stops |
| `ServedRequests.ServeAnswersTheRequest` | src/native/decoder.rs:177-368 | an answered call keeps to its own request: the text is cut at the earliest of the request's stop sequences and shows none of them, tokens and finish reason obey the request's limit, the prompt is counted as encoded, and the deltas are what the tokens stream |
| `ServedRequests.DeltasShowNoStop` | src/native/decoder.rs:236-262 | with a decoder that only extends, the deltas show none of the request's stop sequences and start with the text |
| `ServedRequests.RefusedRequests` | src/native/decoder.rs:192-202 | the two refusals of a prompt happen exactly for one that cannot be encoded and for one that encodes to nothing |
| `ServedRequests.EndTokensAreNotAnswered` | src/native/decoder.rs:513-523 | no token that names an end of text is part of an answer |
| `GenerationLoop.ClearingIsolatesRequests` | src/native/decoder.rs:182-190 | a family that clears answers every request of a session as if it were alone |
| `GenerationLoop.RefusedOnlyByTheLatch` | src/native/decoder.rs:95-108 | the fail-closed refusal happens if and only if the cache is retained and was used |
| `GenerationLoop.RetainedServesOnce` | src/native/decoder.rs:95-108 | a family that retains its cache admits exactly the first call of any session |
| `CachedGeneration.TurnAgrees` | src/native/decoder.rs:315-332 | one turn over the caches and one over recomputation leave the same progress |
| `CachedGeneration.CachedGenerationRecomputes` | src/native/decoder.rs:264-332 | the loop over the cached model generates, streams, counts and fails as the loop that recomputes every prefix: at every length with the prompt's rows masked, and with all rows masked inside the windows or for a single token |
| `CachedGeneration.CachedServeRecomputes` | src/native/decoder.rs:177-368 | a whole call answers as recomputation on a blank model, whatever the caches held before, under the same conditions |
| `SchedulerEngine.NativeSchedulerEngine.constructor` | src/native/scheduler.rs:43-57 | starts with at least one permit and nobody waiting |
| `SchedulerEngine.NativeSchedulerEngine.SubmitRequest` | src/native/scheduler.rs:142-149 | a request arrives: the `Submit` step |
| `SchedulerEngine.NativeSchedulerEngine.RejectCancelled` | src/native/scheduler.rs:180-189 | the first cancellation check is the `CheckFirst` step |
| `SchedulerEngine.NativeSchedulerEngine.TryAcquirePermit` | src/native/scheduler.rs:154-156 | `try_acquire_owned` is the `TryAcquire` step |
| `SchedulerEngine.NativeSchedulerEngine.EnterFetchAdd` | src/native/scheduler.rs:123-132 | the optimistic addition is the `EnterAdd` step |
| `SchedulerEngine.NativeSchedulerEngine.EnterFetchSub` | src/native/scheduler.rs:125-128 | taking a refused addition back is the `EnterUndo` step |
| `SchedulerEngine.NativeSchedulerEngine.PollAcquireOwned` | src/native/scheduler.rs:160-163 | polling `acquire_owned` takes a permit or joins the queue |
| `SchedulerEngine.NativeSchedulerEngine.ReleasePermit` | src/native/scheduler.rs:191-204 | a returned permit goes to the head of the queue, or is free |
| `SchedulerEngine.NativeSchedulerEngine.DropWaitGuardHoldingPermit` | src/native/scheduler.rs:136-140 | dropping the guard takes one off the counter |
| `SchedulerEngine.NativeSchedulerEngine.EnterInnerEngine` | src/native/scheduler.rs:169-176 | the second check, every metadata stamp and the call of the engine |
| `SchedulerEngine.NativeSchedulerEngine.FinishRequest` | src/native/scheduler.rs:191-204 | finishing returns the permit |
| `SchedulerEngine.NativeSchedulerEngine.DropRequestFuture` | src/native/scheduler.rs:150-177 | a dropped future leaves the queue or returns its permit |
| `SchedulerEngine.NativeSchedulerEngine.DropAbandonedGuard` | src/native/scheduler.rs:136-140 | the guard of a dropped future takes one off the counter |
| `SchedulerEngine.NativeSchedulerEngine.FirstPoll` | src/native/scheduler.rs:142-177 | the body run to its first await with nobody in between: refused as cancelled, started with all stamps, refused with the counter as it was, or last in the queue |
| `Scheduler.CancelledMeans` | src/native/scheduler.rs:180-189 | cancelled means a literal `true` under the cancellation key |
| `Scheduler.StampedNumbers` | src/native/scheduler.rs:206-289 | which configuration value or measurement each numeric stamp carries, whatever the client sent |
| `Scheduler.StampsWin` | src/native/scheduler.rs:206-289 | a stamp wins over the client's metadata, and all other metadata is kept |
| `Scheduler.StartIsStamped` | src/native/scheduler.rs:169-176 | a request starts with the number it found before it and its own waiting time |
| `SchedulerProofs.ReleaseSettles` | src/native/scheduler.rs:160-165 | handing a permit on settles the balance and the order |
| `SchedulerProofs.WaiterLeaves` | src/native/scheduler.rs:136-140 | dropping a waiter keeps every invariant |
| `SchedulerProofs.CounterNeverUnderflows` | src/native/scheduler.rs:123-140 | the counter is never negative, and positive if and only if somebody holds a guard or has a pending undo |
| `SchedulerProofs.StepKeepsInv` | src/native/scheduler.rs:150-176 | every atomic step keeps the whole invariant |
| `SchedulerProofs.SafetyOfEveryRun` | src/native/scheduler.rs:122-176 | permits conserved, counter equal to guards plus pending undos, guards bounded, no cancelled request inside the engine |
| `SchedulerProofs.FifoOfEveryRun` | src/native/scheduler.rs:154-168 | permits reach queued requests in queue order and no newcomer can overtake |
| `SchedulerProofs.BoundedWait` | src/native/scheduler.rs:160-165 | a waiter at position p holds a permit after p + 1 releases |
| `SchedulerProgress.SomeHolderCanGo` | src/native/scheduler.rs:160-176 | while anyone queues some request holds a permit and its own next step is enabled |
| `SchedulerProgress.WaiterIsGranted` | src/native/scheduler.rs:160-176 | a waiter at position p is granted by at most 3 (p + 1) steps of permit holders alone |
| `SchedulerProgress.EveryWaiterCanBeGranted` | src/native/scheduler.rs:122-176 | so from every reachable state of an engine with a permit every waiter can still be served, within that bound |
| `SchedulerOrder.OnePermitStartsInQueueOrder` | src/native/scheduler.rs:154-176 | with at most one permit, queued requests enter the engine in queue order on every run |
| `SchedulerOrder.NoQueueNoStarts` | src/native/scheduler.rs:123-132 | with no room to queue, nobody queued ever starts |
| `SchedulerOrder.SeveralPermitsMayReorder` | src/native/scheduler.rs:160-176 | for any number of permits above one and any queue, a run starts the second queued request before the first |
| `SchedulerOrder.StartsInQueueOrderIff` | src/native/scheduler.rs:154-176 | so queued requests start in queue order on every run if and only if there is one permit or no queue |
| `SchedulerOrder.RefusedIff` | src/native/scheduler.rs:123-128 | a request is refused if and only if guards and pending undos fill the limit, and otherwise keeps their number in mind |
| `SchedulerOrder.FullWithoutWaiters` | src/native/scheduler.rs:123-128 | under every configuration there is a run that refuses a request while nobody waits |
| `SchedulerOrder.RefusedWithRoomIff` | src/native/scheduler.rs:123-128 | a request can be refused although fewer wait than may if and only if there is a queue at all |
| `Quota.DayStart` | src/quota.rs:218-218 | the last midnight |
| `Quota.Matching` | src/quota.rs:296-306 | exactly the policies that match, in order |
| `Quota.FirstRejectedIff` | src/quota.rs:179-188 | a policy is returned if and only if the pass rejects it and none before it |
| `Quota.Storage.AllowedQuotaDecisionCount` | src/storage/decisions.rs:75-135 | counts the allowed rows of a key in a half-open range |
| `Quota.Storage.UsageTokensTotal` | src/storage/usage.rs:94-124 | sums the tokens of a key in a half-open range |
| `Quota.Storage.RejectedByModel` | src/quota.rs:179-188 | the first pass finds the first policy that forbids the model |
| `Quota.Storage.RejectedByRate` | src/quota.rs:190-216 | the second pass finds the first exhausted rate, with its count, or fails with the first failing query |
| `Quota.Storage.RejectedByTokens` | src/quota.rs:218-240 | the third pass finds the first exhausted token budget, with its sum, or fails with the first failing query |
| `Quota.Storage.CheckQuota` | src/quota.rs:168-246 | without a failing query the three loops decide `Decide`, and fail otherwise |
| `Quota.Storage.AdmitRequest` | src/quota.rs:262-285 | records the decision it returns, or fails and records nothing |
| `QuotaMeaning.UsedIsSum` | src/quota.rs:218-240 | a token budget is held against all tokens since midnight of the subject, if the policy names it, and otherwise of the whole team |
| `QuotaMeaning.AdmittedIsSum` | src/quota.rs:190-216 | a rate is held against the admissions of the last sixty seconds, of the subject or of the whole team |
| `QuotaMeaning.RateDenialEnds` | src/quota.rs:190-216 | once everything counted is a minute old the rate permits again |
| `QuotaMeaning.AnswersMean` | src/quota.rs:168-246 | which verdict each answer stands for, with the policy and the number it names: models before rates before tokens |
| `QuotaPolicy.DecisionIsConjunction` | src/quota.rs:168-246 | allowed if and only if every matching policy permits |
| `QuotaPolicy.OrderDoesNotMatter` | src/quota.rs:168-246 | policy order and repetition never change the outcome |
| `QuotaPolicy.MorePoliciesDenyMore` | src/quota.rs:168-246 | adding policies never turns a denial into an admission |
| `QuotaPolicy.TokenDenialLastsTheDay` | src/quota.rs:218-240 | an exhausted token budget stays exhausted until midnight |
| `QuotaPolicy.MidnightResetsTheBudget` | src/quota.rs:218-218 | from midnight on earlier usage no longer counts |
| `QuotaPolicy.CountMonotone` | src/storage/decisions.rs:75-135 | a range that covers the counted rows counts at least as many |
| `QuotaPolicy.RecordingKeepsLimitIff` | src/quota.rs:190-216 | recording keeps the limit in every minute if and only if fewer rows lie in the closed minute before the stamp |
| `QuotaPolicy.PassingCheckKeepsLimit` | src/quota.rs:190-216 | without a tie, passing the check is enough |
| `QuotaPolicy.TieBreaksTheLimit` | src/quota.rs:194-201 | with a tie it is not |
| `QuotaAdmission.ScopeIsExact` | src/quota.rs:320-326 | two requests share a lock exactly if they share a team, or have none and share the subject |
| `QuotaAdmission.CountedWithinScope` | src/quota.rs:312-326 | whatever a check counts was written under the lock it holds |
| `QuotaAdmission.RowKeepsLimit` | src/quota.rs:262-285 | the one write of an admission keeps every limit |
| `QuotaAdmission.RowKeepsOthers` | src/quota.rs:248-262 | it changes nothing a request under another lock has read |
| `QuotaAdmission.LandKeepsInv` | src/quota.rs:276-285 | a denied request's row that lands late keeps every limit and reading |
| `QuotaAdmission.StepKeepsInv` | src/quota.rs:262-285 | every atomic step keeps locks, readings and limits |
| `QuotaAdmission.RateLimitOfEveryRun` | src/quota.rs:248-285 | from any stored log within the limits, over every interleaving, query failure, dropped future and late row of a denied request: no minute holds more allowed requests than a policy for the subject, or for the team, permits |
| `QuotaAdmission.LocksOfEveryRun` | src/storage/mod.rs:367-379 | on every run, with nothing assumed: a lock is never shared, and it is held exactly while one request is past it |
| `QuotaAdmission.StepsDecide` | src/quota.rs:168-246 | step by step, an undisturbed check reaches the decision of `check_quota` |
| `QuotaExact.StepKeepsLimitIff` | src/quota.rs:262-285 | a step breaks a limit exactly by recording an admission that finds no room in the closed minute before its stamp |
| `QuotaExact.LimitOfEveryRunIff` | src/quota.rs:190-285 | with nothing assumed about the clock: a limit on a subject or team holds after a run if and only if it held before and every recorded admission found room |
| `QuotaRuns.FrozenClockBreaksTheLimit` | src/quota.rs:190-216 | for any policy and any number: a run without a clock tick in which that many admissions, one after the other, pass within the minute |
| `QuotaRuns.LateInsertBreaksTheLimit` | src/quota.rs:262-285 | for any policy and any number: a run in which that many rows land after their futures were dropped, all within the minute |
| `QuotaRuns.NamedMemberOverfillsTheTeam` | src/quota.rs:308-310 | a run within all assumptions in which a team exceeds the limit of a policy that names one of several members |
| `QuotaRuns.TeamLimitIff` | src/quota.rs:296-310 | a policy (its limit a positive `u32`) bounds its team on every run if and only if its subject is outside the team or is all of it |
| `Json.Lookup` | src/reporting/envelope.rs:30-41 | the value of a key, or none if no entry has it |
| `Json.WellFormedMeans` | src/reporting/envelope.rs:164-178 | which trees there are: both literals, all strings, integers of 64 bits, floats in decimal notation, and lists of such trees |
| `Json.SortsThenCanonicalizes` | src/reporting/envelope.rs:167-175 | sorting first and canonicalising the values as they are inserted gives the canonical entries |
| `Json.CanonicalSorted` | src/reporting/envelope.rs:167-175 | the canonical entries are sorted by key |
| `Json.CanonicalMembers` | src/reporting/envelope.rs:167-175 | and are the original ones with canonical values |
| `Json.CanonicalDecidesEquality` | src/reporting/envelope.rs:164-178 | canonical forms are equal if and only if the trees are equal up to key order at any depth |
| `Json.CanonicalizeIsCanonical` | src/reporting/envelope.rs:164-178 | the result is sorted at every depth and still a JSON tree |
| `Json.CanonicalizeIdempotent` | src/reporting/envelope.rs:164-178 | canonicalising twice is canonicalising once |
| `JsonText.DecimalReadsBack` | src/reporting/envelope.rs:21-27 | decimal digits determine the number |
| `JsonText.NumberReadsBack` | src/reporting/envelope.rs:21-27 | the text of a number reads back as the number, its kind included |
| `JsonText.EscapeReadsBack` | src/reporting/envelope.rs:21-27 | an escaped character reads back as the character, whatever follows |
| `JsonText.CharsReadBack` | src/reporting/envelope.rs:21-27 | a quoted string reads back, whatever follows |
| `JsonText.PutReadsBack` | src/reporting/envelope.rs:21-27 | a value's text reads back as the value, whatever a longer text goes on with |
| `JsonText.TextReadsBack` | src/reporting/envelope.rs:21-27 | every tree's compact text reads back as that tree under the grammar of RFC 8259 |
| `JsonText.TextDeterminesValue` | src/reporting/envelope.rs:21-27 | the compact text determines the tree |
| `JsonText.CanonicalTextDecidesEquality` | src/reporting/envelope.rs:13-27 | canonical texts are equal if and only if the trees are equal up to key order |
| `PolicyLog.VerifyPolicyLogValues` | src/policy_sign.rs:173-217 | valid if and only if the log is chained, with its head; otherwise the first broken entry and its first fault |
| `PolicyLog.BodyGet` | src/policy_sign.rs:137-144 | removing `entry_hash` leaves every other field alone |
| `PolicyLog.EntriesAgree` | src/policy_sign.rs:173-217 | chained entries with one recorded hash are the same entry at the same index with the same predecessor |
| `PolicyLog.HeadCommitsToLog` | src/policy_sign.rs:173-217 | two chained logs with one head have equal length and equal entries up to key order |
| `PolicyLog.TamperingShows` | src/policy_sign.rs:173-217 | a changed entry breaks the chain, moves the head, or exhibits a collision |
| `PolicyLog.AppendPolicyLogEntry` | src/bin/llmctl/policy.rs:192-233 | appends only to a chained log; the result is chained, the new entry records what it was given and names the old head, and its hash is the new head |
| `PolicyLog.NewEntryFits` | src/bin/llmctl/policy.rs:219-231 | a new entry has no fault at its place |
| `PolicyLog.NewEntryRecords` | src/bin/llmctl/policy.rs:205-231 | every field of a new entry, as a reader finds it |
| `PolicyLog.WhatIsReported` | src/policy_sign.rs:173-217 | a moved entry, another predecessor, a removed hash and a wrong hash are each reported as what they are |
| `Envelope.LowerHexIgnoresCase` | src/reporting/envelope.rs:80-80 | between lower-case hashes, ignoring case is equality |
| `Envelope.MadeEnvelopeVerifies` | src/reporting/envelope.rs:132-152 | what is made verifies, under any hash |
| `Envelope.MadeEnvelopeRecords` | src/reporting/envelope.rs:132-152 | what is made holds the payload as it is, beside every metadata field as a reader finds it |
| `Envelope.KindNamesDiffer` | src/reporting/types.rs:4-13 | the six kinds have six names |
| `Envelope.WhatIsReported` | src/reporting/envelope.rs:29-95 | which reason is reported for which lack or mismatch |
| `Envelope.CaseIsIgnored` | src/reporting/envelope.rs:80-80 | hashes compare alike in either case of their letters and in nothing else |
| `Envelope.ValidExactly` | src/reporting/envelope.rs:29-95 | what it takes to be valid, both directions |
| `Envelope.PayloadIsPinned` | src/reporting/envelope.rs:79-94 | under a valid envelope's metadata another payload verifies if and only if it is the same up to key order |
| `SseFrames.DrainConcat` | src/observability/sse.rs:37-49 | cutting frames piece by piece is cutting them from the whole |
| `SseFrames.DrainLosesNothing` | src/observability/sse.rs:40-47 | the frames with their blank lines and the rest give back the buffer |
| `SseFrames.RestIsClean` | src/observability/sse.rs:40-47 | no complete frame stays behind |
| `SseFrames.StripsThePrefix` | src/observability/sse.rs:63-65 | what follows the field name is kept, even if it is nothing |
| `Text.WhitespaceCharacters` | src/observability/sse.rs:63-66 | which characters are trimmed |
| `SseFrames.RenderedFrames` | rs-llmctl-client/src/client.rs:266-270 | a stream rendered as events is cut into exactly its events |
| `ThinkTags.DeltasAreConserved` | src/observability/sse.rs:93-118 | thinking plus output plus switches is the number of deltas |
| `ThinkTags.TailIsLastOfAll` | src/observability/sse.rs:100-102 | the kept tail is the last eight characters of everything seen |
| `ThinkTags.WindowShows` | src/observability/sse.rs:94-98 | what the window shows: tags that end in the delta, and tags still in the tail |
| `ThinkTags.CompletedTagIsSeen` | src/observability/sse.rs:96-98 | a tag that ends inside a delta is never missed in the phase it ends |
| `ThinkTags.TrackerFollowsTagsIff` | src/observability/sse.rs:93-118 | phase and counts are those of a tracker of the whole content at every delta if and only if no delta finds the tag still in the tail without completing it |
| `ThinkTags.LoneTagsClearTheTail` | src/observability/sse.rs:93-118 | while no delta completes two tags, the tail never shows the tag that ends the phase |
| `ThinkTags.TrackerFollowsTags` | src/observability/sse.rs:93-118 | when no delta completes two tags, phase and counts are those of a tracker of the whole content |
| `ThinkTags.TwoTagsInOneDelta` | src/observability/sse.rs:93-118 | otherwise a delta that completes nothing can switch the phase |
| `SseParser.SseContentParser.Push` | src/observability/sse.rs:37-49 | the draining loop computes `Pushed` |
| `SseParser.SseContentParser.ProcessFrame` | src/observability/sse.rs:61-75 | a frame's deltas are classified in order |
| `SseParser.SseContentParser.ProcessLine` | src/observability/sse.rs:62-74 | a line's deltas are classified in order; lines without data, `[DONE]` and unparsable ones have none |
| `SseParser.SseContentParser.ProcessDeltaValue` | src/observability/sse.rs:77-91 | the contents of all choices are classified in order |
| `SseParser.SseContentParser.ClassifyDelta` | src/observability/sse.rs:93-118 | one delta moves the tracker as `Classified` |
| `SseParser.WidthOfEach` | src/observability/sse.rs:40-47 | frames are measured in bytes: one to four a character |
| `SseParser.LengthsAddUp` | src/observability/sse.rs:40-47 | the length of a text is that of its parts |
| `SseParser.PushTwice` | src/observability/sse.rs:37-49 | two pushes are one push of the whole, from any state |
| `SseParser.ChunkingInvariance` | src/observability/sse.rs:37-49 | any split of a text leaves the parser in the same state, skipped frames included |
| `SseParser.BufferStaysClean` | src/observability/sse.rs:40-47 | between pushes the buffer holds no complete frame |
| `SseParser.RenderedDeltas` | src/observability/sse.rs:61-91 | the deltas read from a rendered stream are those of its payloads, in order |
| `SseParser.StreamFollowsTags` | src/observability/sse.rs:37-118 | a whole stream in any pieces counts what the tags of its content say, whenever its deltas meet the exact condition |
| `SseMeaning.ChoicesAreRead` | src/observability/sse.rs:77-91 | a choice contributes exactly the text it carries as content of its delta; any other contributes nothing |
| `SseMeaning.ChunkIsRead` | src/observability/sse.rs:77-91 | a chunk yields the contents of its choices in order |
| `SseMeaning.NoChoicesNoContent` | src/observability/sse.rs:77-80 | a value without a list of choices yields nothing |
| `SseMeaning.OtherLinesSayNothing` | src/observability/sse.rs:62-65 | a line that does not begin with the field after its blanks contributes nothing |
| `SseMeaning.PaddedLineIsRead` | src/observability/sse.rs:61-75 | blanks before the field and around its value make no difference |
| `SseMeaning.StreamIsUnderstood` | src/observability/sse.rs:37-118 | texts streamed as chunks and closed by `[DONE]` are tracked exactly, in order, in whatever pieces they arrive, and nothing is left over |
| `SseMeaning.LongFramesSayNothing` | src/observability/sse.rs:40-47 | a frame over 512 KiB is skipped whole |
| `SseMeaning.CountsByPhase` | src/observability/sse.rs:93-118 | thinking counts what arrives between the tags, output what arrives outside |
| `SseClient.ChatStream` | rs-llmctl-client/src/client.rs:257-280 | the nested loops yield what the arrived text means: frames in order, first error ends it, final flush |
| `SseClient.DrainEvents` | rs-llmctl-client/src/client.rs:266-272 | the inner loop yields the complete events and leaves an incomplete one |
| `SseClient.ClientChunkingInvariance` | rs-llmctl-client/src/client.rs:257-280 | chunks, first error and flush depend on the text alone |
| `SseClient.FailureKeepsPrefix` | rs-llmctl-client/src/client.rs:260-264 | a transport failure loses only what came after it |
| `SseClient.EventReadsBack` | rs-llmctl-client/src/transport.rs:23-31 | a one-line payload is read back from its event |
| `SseClient.EventOfManyLines` | rs-llmctl-client/src/transport.rs:23-38 | an event of several lines carries its data lines in order; comments and other fields change nothing |
| `SseClient.StreamRoundTrip` | rs-llmctl-client/src/transport.rs:23-38 | chunks rendered as events and closed by `[DONE]` come back as they were, in any pieces |
| `ConfigSave.RenameKeepsInv` | src/config/mod.rs:146-146 | the rename puts one whole, synced body in place |
| `ConfigSave.PowerFailureKeepsInv` | src/config/mod.rs:141-150 | a power failure finds only whole targets in any directory it may bring back |
| `ConfigSave.CreateKeepsInv` | src/config/mod.rs:134-142 | creating a temporary file, leftover or new, never touches the target or another save's file |
| `ConfigSave.StepKeepsInv` | src/config/mod.rs:115-159 | every step of every save, kill and power failure keeps the invariant |
| `ConfigSave.TargetIsNeverTorn` | src/config/mod.rs:115-159 | for any concurrent saves and crashes the target holds what it held at the start or the whole body of one save begun on the way |
| `ConfigSave.AnythingMayFailAnyTime` | src/config/mod.rs:141-150 | kills, dropped futures and power failures are always possible; a body that is written but not synced may come back as anything, a synced one comes back as it was |
| `ConfigSave.RecoveredStays` | src/config/mod.rs:141-150 | what one power failure leaves on the disk no later one changes |
| `ConfigSave.OnlyRenameChangesTarget` | src/config/mod.rs:141-155 | no other step changes what a reader sees |
| `ConfigSave.SuccessMayBeUndone` | src/config/mod.rs:141-150 | success outlives the process, not every power failure |
| `ConfigStore.Store.Save` | src/config/mod.rs:115-159 | one call: it succeeds if and only if no operation failed, and tries nothing after one that did; the new body on success, the old target on failure, and the temporary file gone |
| `ConfigStore.Store.WriteAndSync` | src/config/mod.rs:142-144 | create, write and sync never show in the target, and report success exactly if none of them, nor the rename to come, failed |
| `ConfigStore.Store.WriteAll` | src/config/mod.rs:142-143 | the body is written piece by piece, to its end or to the first failing write |
| `Saturation.SatAppend` | src/reporting/summary.rs:70-78 | saturating at every step is saturating once |
| `Saturation.GroupsAddUp` | src/reporting/summary.rs:80-98 | listing every group once, the group sums add up to the whole |
| `Saturation.RowsSaturateOnce` | src/reporting/summary.rs:80-98 | saturating in the rows and over the rows is saturating once |
| `Saturation.SumIgnoresOrder` | src/reporting/summary.rs:4-22 | sums do not depend on order |
| `UsageSummary.SummarizeUsage` | src/reporting/summary.rs:4-22 | totals are exact sums cut off once, the average is their quotient; ascending rows, one for every key that occurs, with its own totals and average |
| `UsageSummary.FinishBreakdowns` | src/reporting/summary.rs:100-109 | one row per key, ascending, each with its totals and average |
| `UsageSummary.AverageMeans` | src/reporting/summary.rs:111-117 | the average times the count is the total, and is absent exactly for no requests |
| `UsageSummary.OneEventIsReported` | src/reporting/summary.rs:70-98 | what one event adds to which number, and the keys it is listed under |
| `UsageSummary.AccumulatedTotals` | src/reporting/summary.rs:70-78 | adding an event with saturation gives the cut-off exact sums |
| `UsageSummary.BreakdownExtends` | src/reporting/summary.rs:80-98 | adding an event to its row keeps the breakdown exact |
| `UsageSummary.TotalIsInputPlusOutput` | src/reporting/summary.rs:70-78 | total_tokens is the saturating sum of input and output, in the summary and in every row |
| `UsageSummary.RowsAddUp` | src/reporting/summary.rs:100-109 | the rows add up, with saturation, to the grand totals |
| `UsageSummary.OrderDoesNotMatter` | src/reporting/summary.rs:4-22 | neither totals nor the list of rows depend on the order of events |
| `QuotaSummary.SummarizeQuotaPolicies` | src/quota.rs:81-139 | grand totals are exact sums cut off once; one row for every team, and for every subject in a team, in ascending order, with its sums, subjects and models |
| `QuotaSummary.SortedPairs` | src/quota.rs:126-137 | every subject and team once, by subject and then by team |
| `QuotaSummary.FinishGroups` | src/quota.rs:112-137 | one row per accumulator in the given order, its names ascending |
| `QuotaSummary.OnePolicyIsReported` | src/quota.rs:81-166 | what one policy adds to which number, and the keys, subjects and models it is listed with |
| `QuotaSummary.AddedGroup` | src/quota.rs:151-166 | adding a policy keeps a row exact |
| `QuotaSummary.RowsAddUp` | src/quota.rs:81-139 | the rows of either list add up, with saturation, to the grand totals |
| `QuotaSummary.OrderDoesNotMatter` | src/quota.rs:81-139 | the report is the same, row for row, whatever the order of policies |
| `Placement.ValidatePlacementPlan` | src/native/placement.rs:131-164 | accepts exactly the plans with nothing unassigned, every node named and no alias placed twice; otherwise all unassigned aliases, else the first faulty node, else the least doubly placed alias with its owners |
| `Placement.NormalizeRole` | src/native/mod.rs:298-305 | always one of the four starter roles, and the given one if it is one of them |
| `Placement.RolesMean` | src/native/mod.rs:298-305 | the four roles by name; whatever else is written counts as a query |
| `Placement.ClaimsMean` | src/native/placement.rs:220-241 | a node takes what it lists by alias and what is written in one of its roles, and no model of another role |
| `Placement.SingleNodePlan` | src/native/placement.rs:92-129 | without configured nodes the one node is this server, under its own address, with every alias |
| `Placement.ClusterPlan` | src/native/placement.rs:92-129 | with configured nodes the plan lists them in order, each under its own name, address and roles |
| `Placement.MissingMeans` | src/native/placement.rs:108-128 | the unassigned models are exactly the configured aliases no node lists |
| `Placement.HeartbeatReports` | src/native/placement.rs:70-90 | a heartbeat names this server and reports its plan: mode, health, counts and gaps |
| `Placement.AmbiguousRoutes` | src/native/placement.rs:166-192 | an alias that two nodes list has no route |
| `Placement.AddOwner` | src/native/placement.rs:147-152 | the inner loop adds a node once for each of its aliases |
| `Placement.PlacedOnceIff` | src/native/placement.rs:155-161 | no alias has two owners if and only if no alias is placed twice |
| `Placement.ValidPlacesEachOnce` | src/native/placement.rs:92-164 | in a valid plan the placed aliases are exactly the configured ones, each once |
| `Placement.ValidatesIffClaimedOnce` | src/native/placement.rs:220-241 | a cluster with distinct aliases validates if and only if every model is claimed by exactly one node |
| `Placement.SingleNodeValidatesIff` | src/native/placement.rs:94-99 | a single node validates if and only if it is named and the aliases are distinct |
| `Placement.RoutesExactlyConfigured` | src/native/placement.rs:166-192 | in a valid plan a route exists for exactly the configured aliases, to their only owner |
| `Placement.HealthyCountsAliases` | src/native/placement.rs:70-90 | a healthy heartbeat counts distinct aliases, so assigned equals models if and only if aliases are distinct |
| `Placement.HealthyWithAModelUnassigned` | src/native/placement.rs:70-90 | a configuration, for every alias, that is healthy with two models and one assigned |

## Left out

- Tensor arithmetic, quantisation, RoPE, softmax and rounding: layers are uninterpreted functions of rows, and a masked pair is modelled as absent rather than weighted by zero.
- Tensor shapes other than sequence lengths: a sharing layer whose head width differs from its source's is not modelled.
- Several tokens past position 0: the mask there is joined from two number types; no caller feeds such a batch, and no claim is made about it.
- Tokenizer, sampler and model families other than Gemma4: parameters of the loop.
- usize saturation of `offset`, and 64-bit overflow of request, delta and temporary-name counters: unbounded here.
- Poisoned locks, a closed semaphore, tracing and metrics: not modelled; measured waiting times are parameters.
- Batching itself: the scheduled path stamps the batching options and never reads them.
- Times are integers, not RFC 3339 texts; the UTC day is a multiple of 24 hours.
- `check_quota` reads no clock when no policy matches or the model is refused; the step model reads one and ignores it.
- Several processes on one SQLite file, whose admission locks are local to a process.
- Policies that change while requests are being admitted: the configuration is fixed along a run.
- Floats in JSON are given by their shortest decimal text; serialisation failures and the code's own parser are not modelled.
- Splits inside a UTF-8 character: the server-side parser would insert U+FFFD; the client treats them as a failed read.
- SHA-256, HMAC and Ed25519: the hash is a parameter.
- Month bounds of usage reports.
- Rounding of average latencies: the model divides exactly.
- Roles of placement nodes are sets; routing by role, budget and telemetry fields are not modelled.
- In a file system, reordering of two names' updates within one rename, and a process identifier shared by two live processes.
- `src/native/quantized_gemma4.rs`, HTTP routing, CLI, UI, telemetry export, webhooks, TLS, family tables, guardrails and redaction: they add no harder property.
