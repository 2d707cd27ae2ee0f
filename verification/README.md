# litmoe verification model

litmoe is a gateway that owns one inference process, admits requests one at a time and translates
between two streaming chat protocols. This project models the parts of it whose correctness depends
on interleaving, on long loops or on several functions agreeing, and proves their properties.
`dafny verify dfyconfig.toml` checks everything.

## What is modelled

**The single-resident runtime** (`Config`, `RuntimeModel`, `RuntimeInvariants`, `RuntimeProofs`,
`RuntimeTheorems`, `RuntimeEffects`, `RuntimeLeases`, `RuntimeProgress`, `RuntimeDrain`, `Runtime`).
Everything runs on one event loop, so the code between two awaits is one atomic step. A state holds the fields of `Runtime`, every process that was
ever started, and for each coroutine the await it is suspended on together with its live locals. An
action is a call, a resumption, or something the environment decides: a disconnect, a queue timeout,
a cancellation, what a native start, stop, readiness or idle check answers, a crash. `RuntimeModel.Step`
is that relation; class `Runtime` is the object with its fields and one method per atomic piece of
code, each proved to take exactly that step. The runtime has five states (`stopped`, `loading`,
`ready`, `draining`, `failed`). An inductive invariant is kept by every step, and the
theorems follow for every run: one resident engine, starts only after a confirmed exit, conservation
of the lock, bounded admission, model fidelity, non-overlapping work, generations that identify the
process, a final shutdown, bounded lock holding, closing of every served request's lease, and the
exact situations in which a requested switch keeps new leases out. `RuntimeEffects` and `RuntimeLeases`
say what every await of every coroutine brings about, in terms of the states before and after it, and
what follows over whole runs: which model a finished switch leaves, when an acquire ends in a lease,
and what an abandoned lease does to its engine.

**The idle acknowledgement** (`NativeIdle`, `RuntimeQuiescence`): the native queue, worker slot and
status counters as a state machine of their own, the gateway's poll of them, and joint runs of both
state machines: when a lease is granted on a cooperative process, no work of an earlier lease is
queued, running or still to come.

**The stream translation** (`Sse`, `StreamModel`, `StreamTranslator`, `StreamGrammar`,
`StreamContent`, `StreamAgreement`, `StreamEquivalence`, `StreamWire`, `Messages`). The translator is a transducer
over the parts of each payload; the imperative translator with its byte buffer is proved equal to it
for every chunking. Three independent descriptions of its output are then connected to it: an
acceptor for the event protocol, the list of content fragments, and the message a client
reconstructs, which is compared with the non-streaming translation by an if-and-only-if. `StreamWire`
goes from the bytes to the client: payloads sent as `data:` lines, among lines of every other kind,
arrive with their texts, thoughts, arguments, counts and stop reason.

**The paired-row Q4 kernel** (`Kernel`, `KernelExact`): float operations are uninterpreted function
values, so equality of results is equality of the operations, operands and order. With exact
operations the value written to a row is the scaled dot product of its packed weights.

**Context sizing** (`ContextFit`, `WarpContext`): the closed-form fit, the policy around it and its
write-back, and the binary search over an opaque memory planner. Sizes are exact reals.

**Installer safety** (`ProcessClosure`, `Cutover`): the process closure over a parent table, and the
four-rename cutover with its rollback under faults.

### Plausible properties that fail

- A requested switch does not keep every lease out: an acquire that holds the lock, has passed its
  checks on a stopped runtime or is starting the engine can still get its lease.
  `RuntimeDrain.LeaseWhileSwitchPending` gives the exact condition, `RuntimeDrain.LeaseDuringSwitch` an instance.
- A client that accepts deltas only for the open block accepts a stream exactly when the argument
  fragments of each tool call are contiguous (`StreamGrammar.StrictReadersNeedContiguity`).
- The streamed and the non-streaming message agree under an exact condition on the stream
  (`StreamEquivalence.Agrees`): order, some content, arguments that parse, the id and the name of each
  call on its first fragment (or equal made-up ids), a finish reason, and a completion count after
  the last text.
- `fit_context` is not monotone in RAM: `ContextFit.MonotoneInRam` gives the exact condition on the
  inputs, `ContextFit.CapIsNotMonotone` and `ContextFit.ClampIsNotMonotone` instances. `compute_memory_aware_ctx` is idempotent except
  when it rebounds (`ContextFit.IdempotentUnlessRebound`, with an instance in `ContextFit.ReboundExists`);
  it never does within the native window.
- The supervisor loop of the process closure has no repetition guard: it ends exactly when no cycle of
  parents that avoids litmoe and process 1 lies above a seed (`ProcessClosure.ClimbEndsUnlessCycle`), so
  on every acyclic table (`ProcessClosure.AcyclicClimbsEnd`) and not on the one of `ProcessClosure.EndlessClimb`.

## Model

| member | source | states |
|---|---|---|
| Config.LookupEntry | litmoe/runtime.py:143-147 | the loop finds the first entry that answers to a name, or none (the 404) |
| Config.LookupIsFirstAnswer | litmoe/runtime.py:143-147 | lookup fails exactly when nobody answers; otherwise the entry found answers and no earlier one does |
| Config.LookupFindsTheId | litmoe/config.py:112-122 | in an accepted configuration, whichever entry lists a name, lookup yields that entry's id |
| Config.RecordNames | litmoe/config.py:117-121 | recording one entry keeps earlier claims, adds exactly its names, and fails only on a name claimed by another id |
| Config.UniqueIds | litmoe/config.py:112-122 | the validator accepts exactly the unambiguous configurations, and a rejection names two entries that really clash |
| Runtime.Runtime.constructor | litmoe/runtime.py:126-141 | a new runtime is the initial state and satisfies the invariant |
| Runtime.Runtime.AcquireCall | litmoe/runtime.py:268-275 | admission takes the prescribed step and keeps the invariant |
| Runtime.Runtime.SwitchCall | litmoe/runtime.py:231-237 | a switch request takes the prescribed step and keeps the invariant |
| Runtime.Runtime.ShutdownCall | litmoe/runtime.py:305-306 | a shutdown request takes the prescribed step and keeps the invariant |
| Runtime.Runtime.Status | litmoe/runtime.py:156-160 | a status poll at any moment keeps the invariant |
| Runtime.Runtime.Grant | litmoe/runtime.py:277-286 | whoever gets the lock runs to its next await and keeps the invariant |
| Runtime.Runtime.ResumeAcquire | litmoe/runtime.py:284-303 | every resumption of an acquire takes the prescribed step and keeps the invariant |
| Runtime.Runtime.GiveUp | litmoe/runtime.py:31-53 | a disconnect, timeout or cancellation at any await keeps the invariant |
| Runtime.Runtime.CollectStart | litmoe/runtime.py:209-216 | the handle of a spawned process becomes owned even when the start was cancelled |
| Runtime.Runtime.ReadyResult | litmoe/runtime.py:217-229 | readiness refused or an early exit stops the engine; otherwise the runtime is ready |
| Runtime.Runtime.StopResult | litmoe/runtime.py:191-202 | every answer of a native stop, for each of its four callers, takes the prescribed step and keeps the invariant |
| Runtime.Runtime.Close | litmoe/runtime.py:62-83 | a second close of a lease changes nothing; the first keeps the invariant, and a lease that is closed at once had the lock and gave it up |
| Runtime.Runtime.ForwardEnds | litmoe/server.py:376-387 | `_proxy` closes the lease unless a streamed response took it along, as abandoned exactly when forwarding raised; the invariant is kept |
| Runtime.Runtime.StreamEnds | litmoe/runtime.py:107-123 | the streamed response closes the lease, as abandoned exactly when it did not finish; the invariant is kept |
| Runtime.Runtime.IdleResult | litmoe/runtime.py:71-83 | an unconfirmed idle answer stops the engine before the lock is released |
| RuntimeInvariants.InitialInv | litmoe/runtime.py:126-141 | a runtime at rest satisfies the invariant |
| RuntimeProofs.StepKeepsInv | litmoe/runtime.py:191-309 | every possible step of every coroutine and of the environment keeps the invariant |
| RuntimeProofs.RunKeepsInv | litmoe/runtime.py:191-309 | every state of every run satisfies it |
| RuntimeTheorems.OneResidentEngine | litmoe/runtime.py:191-229 | in every run at most one process is alive, and a live one is owned or in the hands of the in-flight start |
| RuntimeTheorems.StartsOnlyAfterExit | litmoe/runtime.py:191-229 | when a start is about to spawn, no process is alive, none is owned and no other start is in flight |
| RuntimeTheorems.OnlyAStartSpawns | litmoe/runtime.py:204-216 | a process comes to life only out of such a start and serves the model started |
| RuntimeTheorems.OwnershipKeptUntilExit | litmoe/runtime.py:191-202 | in every run an owned engine stays owned until its process is gone |
| RuntimeTheorems.LockHeldByOneOwner | litmoe/runtime.py:239-309 | the lock is held exactly when one lease, acquire, switch, shutdown or warmup owns it |
| RuntimeTheorems.ReleasedExactlyOnce | litmoe/runtime.py:62-83 | over a whole run a task releases the lock at most once, and exactly once by the time its lease is closed, however often `close` is called |
| RuntimeTheorems.FinishedRequestClosedItsLease | litmoe/server.py:376-387 | a request that got a lease, has no await left and left no streamed response uncalled has closed the lease and released the lock exactly once |
| RuntimeTheorems.QuiescentIsClean | litmoe/runtime.py:268-303 | when all coroutines are finished the lock is free, both counters are zero and no loading or draining is left |
| RuntimeTheorems.LeaseServesRequestedModel | litmoe/runtime.py:289-299 | every outstanding lease is on the owned engine, which serves the id its name resolves to, and any entry listing the name has that id |
| RuntimeTheorems.GrantNeedsReadyEngine | litmoe/runtime.py:289-299 | a lease is granted only by the lock holder on a live engine of a ready runtime |
| RuntimeTheorems.PhaseMeaning | litmoe/runtime.py:202-258 | stopped means no engine, ready or draining an engine for the selection, draining a pending switch |
| RuntimeTheorems.NoOverlapOnCooperativeEngine | litmoe/runtime.py:62-83 | a lease on a cooperative process is granted only if every earlier lease on it was closed by an idle acknowledgement |
| RuntimeTheorems.AcknowledgedOnlyWhenIdle | litmoe/runtime.py:71-79 | such an acknowledgement is a true answer of `wait_idle` to that lease |
| RuntimeTheorems.AdmissionBound | litmoe/runtime.py:268-303 | `queue_depth` counts the acquires in flight, stays within one of the limit, and within the limit while a lease is out |
| RuntimeTheorems.GenerationIdentifiesEngine | litmoe/benchmark.py:142-146 | equal generations of two serving snapshots mean one engine, in service at every moment in between |
| RuntimeTheorems.DonePersists | litmoe/runtime.py:62-65 | a finished coroutine never acts again |
| RuntimeTheorems.ShutdownIsFinal | litmoe/runtime.py:305-309 | after a normal shutdown there is never again an engine, a live process, a start or a lease |
| RuntimeEffects.AdmittedExactlyWhen | litmoe/runtime.py:268-275 | a call is admitted exactly for the selected model with no switch or shutdown pending and room in the queue, one place more when the lock is free; nothing else changes |
| RuntimeEffects.SwitchRequested | litmoe/runtime.py:231-237 | a switch is accepted exactly for a configured name before a shutdown, and drains a ready runtime exactly when the lock is held |
| RuntimeEffects.PollEffect | litmoe/runtime.py:156-160 | a poll marks a ready runtime without a live engine as failed and changes nothing else |
| RuntimeEffects.WinnerIsRechecked | litmoe/runtime.py:289 | with the lock an acquire goes on exactly if the selection still allows it; else it is refused and the lock is free |
| RuntimeEffects.CheckedAcquire | litmoe/runtime.py:290-303 | on every run, a checked acquire ends in a lease exactly when its client is connected and a live engine is ready, it starts the engine exactly on a stopped runtime, and is refused otherwise |
| RuntimeEffects.StartedAcquire | litmoe/runtime.py:295-303 | an acquire whose start returned ends in a lease exactly when a live engine is ready |
| RuntimeEffects.InterruptedAcquire | litmoe/runtime.py:300-303 | an interruption before a start refuses the acquire, frees the lock and touches neither engine nor phase |
| RuntimeEffects.DroppedAcquire | litmoe/runtime.py:300-303 | an acquire that gave up in the queue leaves it, and frees the lock exactly if it had won it |
| RuntimeEffects.SpawnedIsOwned | litmoe/runtime.py:208-216 | the spawned process becomes the owned engine, for the model of its start, cancelled or not |
| RuntimeEffects.RaisedStartFails | litmoe/runtime.py:223-229 | a start that raised leaves no engine, a failed runtime and its caller told |
| RuntimeEffects.ReadyOutcome | litmoe/runtime.py:217-229 | a ready live engine is in service under the next generation; any other goes to the stop while still owned |
| RuntimeEffects.StopAnswered | litmoe/runtime.py:191-202 | ownership is dropped exactly when the process is gone and the stop did not raise; what each of the four callers does then |
| RuntimeEffects.SwitchGetsLock | litmoe/runtime.py:239-249 | a switch with the lock is done at once exactly on a live engine for its model or a shutdown; else it stops the owned engine or starts its model |
| RuntimeEffects.SwitchGivesUp | litmoe/runtime.py:255-258 | a switch that gives up in the queue leaves lock and engine alone and settles a drained runtime |
| RuntimeEffects.SwitchLives | litmoe/runtime.py:231-258 | over every run a switch stays one for the model it was requested for until it is done |
| RuntimeEffects.SwitchEnds | litmoe/runtime.py:231-258 | over every run: a finished switch leaves a ready runtime with an owned, live, selected engine for its model, or a failed one |
| RuntimeLeases.RequestEnds | litmoe/runtime.py:62-83 | on a cooperative engine every ending waits for the idle answer; on another an abandoned one stops the engine unless it may be kept, and every other ending frees the lock and leaves engine and phase alone |
| RuntimeLeases.RequestGoesOn | litmoe/server.py:376-387 | until then the request keeps its lease, and a streamed response takes it along |
| RuntimeLeases.IdleAnswered | litmoe/runtime.py:71-83 | a true idle answer closes the lease and keeps the engine; a false one stops it with the lock held |
| RuntimeLeases.AbandonedLeaseStops | litmoe/runtime.py:80-83 | over every run: after an abandonment the lock is held and the engine owned until a stop is answered, and the lease is closed only with the process gone or the runtime failed |
| RuntimeLeases.WaiterGetsLock | litmoe/runtime.py:277-309 | what each waiter other than a switch does with the lock |
| RuntimeLeases.InterruptedStart | litmoe/runtime.py:209-229 | an interrupted start is collected first; one waiting for readiness is stopped while owned |
| RuntimeLeases.WorkerEffect | litmoe/runtime.py:208-216 | what the worker thread does to the processes |
| RuntimeLeases.EnvironmentIsFree | litmoe/runtime.py:31-53 | in every state each call may come, a free lock may go to any waiter and every interruptible await be interrupted |
| RuntimeProgress.HolderMovesBoundedly | litmoe/runtime.py:31-303 | whatever the environment answers, a lock holder moves at most 22 times before it lets go |
| RuntimeProgress.HolderIsNeverStuck | litmoe/runtime.py:62-309 | in every reachable state the await of the lock holder can complete and the holder moves on |
| RuntimeDrain.LeaseWhileSwitchPending | litmoe/runtime.py:231-303 | for every reachable state and accepted switch request: some continuation grants a lease with that switch pending exactly when the lock holder is an acquire that passed its checks on a stopped runtime or whose start is neither cancelled nor failed |
| RuntimeDrain.SwitchKeepsLeasesOut | litmoe/runtime.py:235-258 | along every run, unless the holder is such an acquire, no lease is granted while the switch is pending |
| RuntimeDrain.LeaseDuringSwitch | litmoe/runtime.py:235-237 | with any model configured there is a reachable state in which a lease can be granted with a requested switch pending |
| NativeIdle.NativeServer.Dequeue | litmoe/patches/dwarfstar-serving.patch:229-236 | the oldest job leaves the queue and its slot is marked in one step, keeping the server consistent |
| NativeIdle.NativeServer.Finish | litmoe/patches/dwarfstar-serving.patch:237-246 | the slot is cleared only with the job and its housekeeping done |
| NativeIdle.NativeServer.Status | litmoe/patches/dwarfstar-serving.patch:251-271 | the two counting loops report the sampled counters |
| NativeIdle.ZeroReportMeansQuiet | litmoe/patches/dwarfstar-serving.patch:251-271 | both counters are zero exactly when nothing is queued, busy or in hand and only the asking client is left |
| NativeIdle.WaitIdle | litmoe/engines/dwarfstar.py:140-161 | true exactly when a running engine answers idle within the deadline after only well-formed busy answers |
| NativeIdle.ServerStaysConsistent | litmoe/patches/dwarfstar-serving.patch:229-246 | in every run of the native server the worker holds a job only while its slot is marked |
| NativeIdle.AcknowledgementMeansQuiet | litmoe/engines/dwarfstar.py:140-161 | in every run of the native server a true answer is about a moment when queue, slots and worker were all empty and at most the asking client was connected, the first one the poll could see |
| NativeIdle.AnswerMeansQuiet | litmoe/engines/dwarfstar.py:140-161 | at the answering poll nothing was queued, busy or in hand and only the asking client was connected, and no earlier poll could see that |
| RuntimeQuiescence.AnswerMeansSilent | litmoe/runtime.py:71-79 | in every joint run, a true idle answer to a closing lease leaves the native server without work and without a client that may still submit |
| RuntimeQuiescence.WorkIsAccountedFor | litmoe/runtime.py:62-83 | in every state of every joint run a lease on the process is out, or one was closed without an idle answer, or its server is silent |
| RuntimeQuiescence.NoWorkLeftOver | litmoe/runtime.py:62-83 | when a lease is granted on a cooperative process, its server is silent in that very state: nothing queued, running or in hand, nobody who may still submit |
| Sse.LinesAcrossChunks | litmoe/server.py:825-829 | splitting into lines can be done chunk by chunk, carrying the unfinished line over |
| Sse.CutAtNewline | litmoe/server.py:828-829 | cutting at the first newline takes off exactly the first complete line |
| Sse.LinesLoseNothing | litmoe/server.py:825-829 | lines and rest, joined by newlines, are the bytes again |
| StreamTranslator.TranslateTool | litmoe/server.py:884-911 | a tool fragment is translated as the transducer says |
| StreamTranslator.TranslateThinking | litmoe/server.py:846-861 | a reasoning fragment is translated as the transducer says |
| StreamTranslator.TranslateText | litmoe/server.py:862-882 | a text fragment is translated as the transducer says |
| StreamTranslator.TranslatePayload | litmoe/server.py:840-914 | a whole payload is its parts in the order the code looks at them |
| StreamTranslator.TranslateLine | litmoe/server.py:830-914 | a line is skipped, translated, or ends the translator |
| StreamTranslator.DrainBuffer | litmoe/server.py:825-914 | the buffer loop translates exactly the complete lines and keeps the rest |
| StreamTranslator.EndStream | litmoe/server.py:915-929 | the end of the stream for each way the upstream response can end |
| StreamTranslator.StreamAnthropic | litmoe/server.py:797-932 | the output depends on the concatenation of the chunks only, and is its translation |
| StreamModel.FeedAllAppend | litmoe/server.py:825-914 | translating two halves one after the other is translating the whole |
| StreamGrammar.TranslationIsWellFormed | litmoe/server.py:797-932 | every output is one start, blocks 0,1,2,… each stopped before the next starts, in each thinking block one signature with nothing between it and the stop and none elsewhere, deltas of the right kind, then the summary and the stop, or a single error |
| StreamGrammar.StrictReadersNeedContiguity | litmoe/server.py:884-911 | all deltas address the open block exactly when each call's argument fragments are contiguous |
| StreamGrammar.ToolMapMeaning | litmoe/server.py:885-894 | the tool map knows exactly the indices seen, and a call's block is the open one exactly while nothing interrupted it |
| StreamContent.NothingIsLost | litmoe/server.py:825-914 | the received fragments are the upstream fragments in order, and distinct tool indices have distinct blocks |
| StreamContent.ArgumentsArrive | litmoe/server.py:884-911 | for every tool index that occurs, the JSON fragments a client receives for its block concatenate to all its upstream arguments |
| StreamAgreement.OrderedRunTracks | litmoe/server.py:825-914 | for a stream in order, the client's blocks after each prefix are those of the accumulated message |
| StreamEquivalence.CountersMeaning | litmoe/server.py:840-843 | counters and stop reason in terms of the accumulated usage, the text fragments since the last count and the last finish reason |
| StreamEquivalence.ContentAgrees | litmoe/server.py:752-794 | the exact condition for equal content blocks |
| StreamEquivalence.StreamAgreesWithMessage | litmoe/server.py:752-932 | the exact condition for equal content, usage and stop reason, for all part sequences |
| StreamEquivalence.BytesAgreeWithMessage | litmoe/server.py:752-932 | the same for the bytes of any response that can be read to its end |
| StreamWire.FieldStrips | litmoe/server.py:830-835 | whatever white space surrounds it, the data of a `data:` line is its text, and the done mark is skipped |
| StreamWire.LineIsRead | litmoe/server.py:830-840 | a payload line is read as its payload, an unreadable one raises, and every other line is skipped |
| StreamWire.PayloadsArrive | litmoe/server.py:797-932 | for payloads sent as lines of a body, among lines of every other kind, in any chunking and with any ending: the client receives their texts, thoughts and arguments in order, with the last counts and stop reason in the summary exactly if the response ends normally |
| StreamWire.StopReasonStops | litmoe/server.py:747-749 | the stop reason of every finish reason |
| StreamModel.MadeUpId | litmoe/server.py:901-906 | a made-up id is the prefix and the index in decimal |
| Messages.OpenAiToAnthropic | litmoe/server.py:752-794 | the non-streaming translation is the specified message |
| Messages.AssistantToOpenAi | litmoe/server.py:658-677 | an assistant turn becomes its joined texts and its calls |
| Messages.UserToOpenAi | litmoe/server.py:678-703 | a user turn becomes the specified turns |
| Messages.AssistantRoundTrip | litmoe/server.py:658-794 | there and back keeps the text and the calls in order; only reasoning is dropped and arguments reprinted |
| Messages.ReprintingKeepsTheValue | litmoe/server.py:770-780 | a call with id and valid arguments keeps id, name and the value of its arguments |
| Messages.RoundTripIsStable | litmoe/server.py:658-794 | a second round trip changes nothing |
| Messages.ToolResultsSplitTurns | litmoe/server.py:678-703 | a tool result becomes its own turn in its place, whatever surrounds it |
| Messages.PlainUserTurn | litmoe/server.py:678-703 | without tool results there is at most one turn, with all texts in order |
| Messages.ProseOfMessage | litmoe/server.py:756-781 | the blocks before the calls: reasoning, then text; an empty message is one empty text |
| Messages.CallOfMessage | litmoe/server.py:768-779 | each call is one block in order, with its id or one from its position, its name, and the value of its arguments or the raw text wrapped |
| Messages.JoinedLines | litmoe/server.py:658-703 | joining loses nothing: the lines of joined texts are the texts |
| Messages.UserTextsArrive | litmoe/server.py:678-703 | a user turn without tool results becomes its texts, a line each, or no turn at all |
| Messages.ToolResultArrives | litmoe/server.py:687-701 | a tool result arrives under its id, as plain text or as its texts, a line each |
| Kernel.FourStepsAreOne | litmoe/patches/warp-prefill.patch:34-55 | four aligned scalar steps are one vector step |
| Kernel.Unpack | litmoe/patches/warp-prefill.patch:37-41 | mask, shift, unbias and interleave give the 32 weights in order |
| Kernel.Acc32 | litmoe/patches/warp-prefill.patch:34-55 | the unrolled accumulation equals 32 scalar steps |
| Kernel.GuardMeansWholeGroups | litmoe/patches/warp-prefill.patch:105-110 | under the dispatch guard no group is partial, so the kernel may ignore the limit the scalar form has |
| Kernel.PairOfRows | litmoe/patches/warp-prefill.patch:63-81 | both rows of a pair get the scalar value |
| Kernel.OddRow | litmoe/patches/warp-prefill.patch:82-94 | the odd last row gets the scalar value |
| Kernel.RowsPair | litmoe/patches/warp-prefill.patch:57-95 | for every range each row inside gets exactly the scalar value and nothing outside is written |
| Kernel.RangesDoNotMatter | litmoe/patches/warp-prefill.patch:231-243 | after any list of ranges a row has the scalar value exactly if some range covered it |
| Kernel.PartitionsAgree | litmoe/patches/warp-prefill.patch:231-243 | two ways to cut the same rows into ranges give identical outputs |
| KernelExact.WrittenIsDot | litmoe/patches/warp-prefill.patch:57-95 | with exact arithmetic, the value written to each row of a range is the sum over columns of scale, packed weight and activation; other rows keep their value |
| ContextFit.MacBudget | litmoe/models.py:471-481 | the GPU budget on macOS is the smaller one exactly from 20 GB on; the RAM limit is the same everywhere |
| ContextFit.MacHoldsLess | litmoe/models.py:484-510 | an instance on both platforms |
| ContextFit.TokensFit | litmoe/models.py:506-507 | the token count of a KV budget is the largest that fits |
| ContextFit.NeverAboveTarget | litmoe/models.py:484-510 | a fit stays between the minimum and the target |
| ContextFit.ReducedIsMaximal | litmoe/models.py:502-507 | a reduced context above the minimum fits with 1 GB spare and 4096 tokens more would not |
| ContextFit.ReducedReaches | litmoe/models.py:502-507 | a reduced context reaches a given one exactly when that is at most the minimum or fits in whole blocks with 1 GB spare |
| ContextFit.MonotoneInRam | litmoe/models.py:484-510 | for all inputs, more RAM never gives less context, except exactly for those described by `Drops`: the cap of the smaller machine does not fit the larger one in whole blocks, or a target below the minimum fits the larger one only |
| ContextFit.CapIsNotMonotone | litmoe/models.py:502-507 | an instance at the cap: 27 GB more RAM, 32768 tokens become 8192 |
| ContextFit.ClampIsNotMonotone | litmoe/models.py:497-507 | an instance below the minimum: 10 GB more RAM, 8192 tokens become 4096 |
| ContextFit.UnknownSizes | litmoe/server.py:103-112 | without a known RAM size a sane request is taken as it is and any other becomes the native window; a model of unknown size is fitted like an empty one |
| ContextFit.NeedIsWithinBudget | litmoe/server.py:119-136 | what a model needs with its resolved context is within the GPU budget exactly when its target or the least context it may get is |
| ContextFit.IdempotentUnlessRebound | litmoe/server.py:92-116 | applying the policy to its result changes nothing, except exactly when it rebounds |
| ContextFit.StableWithinNative | litmoe/server.py:92-116 | within the native window it never rebounds |
| ContextFit.ReboundExists | litmoe/server.py:92-116 | beyond it it can |
| ContextFit.Model.FixContext | litmoe/server.py:511-533 | the estimate at the gate is the one for the context started, and unless it rebounds the next start rewrites nothing |
| WarpContext.FitNativeContext | litmoe/engines/warp_context.py:14-30 | the loop computes the specified search and terminates |
| WarpContext.SearchIsMaximal | litmoe/engines/warp_context.py:23-29 | with a monotone planner no larger block count fits |
| WarpContext.AnswerFits | litmoe/engines/warp_context.py:14-30 | any answer fits the budget and the native window, for every planner |
| WarpContext.AnswerIsLargest | litmoe/engines/warp_context.py:14-30 | with a monotone planner it is the native window or the largest number of whole blocks that fits |
| WarpContext.RaisesExactlyWhen | litmoe/engines/warp_context.py:16-22 | it raises exactly for bad arguments or when the minimum does not fit |
| WarpContext.ThirteenBlocks | litmoe/engines/warp_context.py:14-30 | an instance: 55000 units at one a token are 13 blocks of 4096 |
| WarpContext.ModesOf | litmoe/engines/warp.py:86-130 | marked entries keep their mode, unmarked ones are fixed except for the two legacy defaults; when each mode succeeds and with which entry |
| WarpContext.WarpEngine.PrepareContext | litmoe/engines/warp.py:86-130 | it resolves once, and an error leaves the entry untouched |
| WarpContext.PreparingAgainIsStable | litmoe/engines/warp.py:91-130 | preparing the persisted entry again on the same host gives the same entry |
| WarpContext.PolicyIsKept | litmoe/engines/warp.py:91-130 | a fixed limit survives every start, and automatic sizing follows the host |
| ProcessClosure.Related | litmoe/cli/warp_models.py:197-204 | the guarded walk answers whether the parent chain meets a seed before litmoe, on any table |
| ProcessClosure.ClimbEndsUnlessCycle | litmoe/cli/warp_models.py:212-216 | the unguarded climb from a process ends exactly when no process on its way up is above itself without passing litmoe or process 1 |
| ProcessClosure.ClimbEndsSoon | litmoe/cli/warp_models.py:212-216 | if it ends, it does so within as many steps as the table has entries |
| ProcessClosure.AcyclicClimbsEnd | litmoe/cli/warp_models.py:212-216 | on an acyclic parent table every climb ends |
| ProcessClosure.EndlessClimb | litmoe/cli/warp_models.py:212-216 | an instance: a table with two processes that are each other's parents, on which a climb does not end |
| ProcessClosure.Supervisors | litmoe/cli/warp_models.py:212-216 | whenever the climb from the seed ends, it collects exactly the ancestors below litmoe, process 1 and the table's edge |
| ProcessClosure.SnapshotLiveProcesses | litmoe/cli/warp_models.py:175-217 | whenever the climbs from the seeds end, the result is exactly the seeds, their descendants and their supervisors, never litmoe itself, always every other matching process, and empty when none matches |
| ProcessClosure.ClimbStopsBelow | litmoe/cli/warp_models.py:212-216 | litmoe and process 1 are never supervisors, and a seed right below either has none |
| ProcessClosure.ClosedSetMeetsNothing | litmoe/cli/warp_models.py:197-204 | stopping at a repetition is right: a parent-closed set without seeds holds no descendant of one |
| Cutover.Installer.Replace | litmoe/cli/install.py:603-612 | an atomic rename that may raise before or after it took effect |
| Cutover.Installer.Forward | litmoe/cli/install.py:600-612 | after every rename the old tree is at its destination or backup and the old launcher likewise, and it raises exactly when a rename it makes does |
| Cutover.Installer.RestoreLauncher | litmoe/cli/install.py:616-623 | the launcher is as before or absent as before, without touching the tree |
| Cutover.Installer.RestoreTree | litmoe/cli/install.py:625-632 | the tree is as before or absent as before |
| Cutover.Installer.Rollback | litmoe/cli/install.py:613-634 | from wherever the forward half stopped, a completed rollback restores the old pair |
| Cutover.Installer.Install | litmoe/cli/install.py:596-651 | for faults anywhere: new pair, old pair, or both old parts retained; the staging directory is deleted exactly in the first two cases |

## Left out

- HTTP routes, headers, API keys, logging, PID files, YAML I/O, subprocesses and signals: engines are processes whose start, stop, readiness and idleness the environment decides.
- Error texts, `runtime_id`, and the capability part of `status`.
- Fairness of the event loop: the lock may go to any waiting coroutine, which includes first-come order; that awaits eventually complete is a hypothesis, not a theorem.
- Shielded blocks run to completion, except that one cancellation may land on each of the two awaits inside `_start`; `start_engine` returns a live process or leaves nothing running.
- That the framework calls a streamed response it was given: until then the lease stays open.
- The warmup request itself: it is a lock holder with one await.
- JSON and UTF-8: a codec with parse-after-print; a line's data is malformed (skipped), unreadable (raises) or a payload. Message ids and the clock are parameters.
- The byte framing of output events: an event is one value.
- An unfinished last line of the upstream response is dropped, as in the code.
- System prompts, tool declarations, tool choice, sampling fields and plain-string contents of `_anthropic_to_openai`: copied field by field.
- Rounding of floating-point sizes: context sizing is over exact reals; `Kernel` treats float operations as opaque, with `vaddvq` as the pairwise sum and the scale multiply-add contracted in both forms or in neither.
- The generic path of the Q4 dispatch, its threads, and the `emit_logits` prefill shortcut.
- Client threads of the native server beyond their effect on the counters; in joint runs a client that may submit a job is accepted only while a request is served under a lease, so a connection still in the listen backlog when its lease closes is not part of this model.
- Hardware detection, catalog contents and weight sizes on disk: parameters of `Machine` and `Host`.
- The `ps` parsing behind the parent table and the marker strings: the table and a matching predicate are parameters.
- ProcessClosure.SnapshotLiveProcesses: says nothing when such a parent cycle lies above a seed (one that avoids litmoe and process 1), because the source then does not return.
- Cloning, building and checking a checkout before the cutover, the DwarfStar cutover, `_install_lock`, and an interrupt between a failed rollback and the release of the staging directory.
