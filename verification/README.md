# Piqae: print delivery, verified

Piqae delivers print jobs durably: an agent keeps a local queue and hands jobs to a
spooler that knows no transactions, nodes cache content-addressed resources, workers
render documents under leases, and signed requests connect the parts. This project
models those parts in Dafny and proves what they promise over all inputs, all runs and
all interleavings. `dafny verify dfyconfig.toml` checks everything; nothing is assumed.

## What is modelled

- **Spooler handoff.** `HandoffProtocol` is a transition system: a job's durable row,
  the coordinator's durable route entry for it (reservation and handoff evidence), the
  engine's volatile view and a history nobody reads. Every action is one durable write,
  one query or one executor call, so a crash can fall between any two of them, also
  inside `submit`. `HandoffSafety` and `HandoffRuns` hold the invariants and the theorems
  over all runs. `HandoffQueue` says exactly which job is picked, `HandoffOutcomes` that
  what is stored is what evidence and reports say, `HandoffRepeats` exactly when a cut-off
  attempt is made again, and
  `HandoffWitnesses` gives runs that reach the bounds and the properties that fail.
  `AgentStore` is the SQLite queue, one method per transaction, `RouteCoordinator` the
  coordinator's file. `AgentEngine` is the engine's own code with the executor's `submit`,
  `AgentRecovery` the recovery of local routes at every start; each method keeps a record
  of its actions and is proved to be a run of the protocol, so the theorems hold of that
  code at every write.
- **Document resource cache.** `ResourceCache` is the cache for one caller at a time,
  with every file operation free to fail and other processes free to change files.
  `CacheFlights` and `CacheRuns` are the same cache under many threads;
  `CacheBoundReached` shows that the bound proved there cannot be improved, and
  `CacheEviction` that the eviction code is one of the steps.
- **Render leases.** `RenderLeases` and `RenderRuns` are the rows, objects and workers as
  a transition system, `RenderOutcomes` what becomes of failed and of finished renders,
  `RenderWorker` one worker's code between the steps of all others.
- **Wake hints.** `WakeHints` is the app delegate with its tasks and timeouts.
- **Licence expressions and dependency closure.** `SpdxExpression`, `CargoGraph`.
- **Envelopes.** `DocumentEnvelope` and `DocumentRewrap`: the two ciphertext formats, key
  rotation and the rewrapping of stored rows.
- **Signed requests.** `RequestClock`: clock correction on the node, clock window and
  nonce reservation on the server.
- **Content store.** `ContentStore`: streaming puts with their partial files.

SHA-256, the authenticated cipher of RFC 8439 and UTF-8 validation are function-valued
parameters; the cipher's laws (opening undoes sealing, sealing adds 16 bytes) and the
absence of collisions are stated where a lemma uses them. Clocks, the executor, the model
of the app, the packet validator and every failure of a file system or database are
arbitrary answers.

## Where the code does not do what is promised

- The transition table has no edge from `blocked` to `delivery_uncertain`
  (crates/domain/src/job.rs:380-388), so a blocked job never ages: each late inconclusive
  attempt ends in an error. `LateAttemptSettlesUnlessBlocked` says the late attempt
  settles if and only if the job is not blocked, `OnlyBlockedAgeingIsRefused` that no
  other planned change is ever refused, `BlockedJobsNeverAge` gives the runs.
- Recovery reaches a cut-off attempt only through its reservation or its evidence. A
  crash after `preparing` or `rendering` is stored, a crash or a failed write after
  `spool_intent` is stored and before the route is reserved, and a crash between the two
  writes of `cancel_before_handoff` leave the job as it is for good: a job at rest that is
  not final stays so for ever if and only if it is `Stranded`
  (`StaysForeverIffStranded`, and three witnesses), and unless it is in
  `cancel_requested` its printer is never served again (`StrandedPrinterNeverServed`).
- Without any release a local job can be submitted again after a call that was cut off
  (`CutOffCallsAreRepeated`): recovery goes by the evidence of the attempt before. It
  makes the job runnable again if and only if that attempt was refused, its evidence is
  still in the coordinator's file, and the cut-off call had not reserved the route
  (`RunsAgainIffRefused`); and some continuation then submits it again if and only if it
  does not expire before the retry (`CallsAgainIffRefusedInTime`). Compaction drops that
  evidence after every round, but a failed compaction is only logged
  (crates/piqae-agent/src/main.rs:2760), so what a caller can look at is the file. The
  cut-off call never reached the spooler, so the bound on risky submits stands
  (`AtMostOneRiskySubmit`).
- While a render is completed its artifact is there if and only if its own author did not
  delete it (`ArtifactThereIffNotDeleted`); the author does so after the reply to a
  committed completion was lost (`LostReplyDeletesArtifact`, `CompletedWithoutArtifact`).
- A render under lease is stuck without the lease's holder if and only if it is the last
  permitted attempt of a printable render (`StuckIffLastAttempt`, `LastAttemptReached`).
- The nonce retention does not cover every request inside the clock window: a request
  dated a minute ahead, or stalled between check and reservation for the rest of that
  minute, can be accepted twice (`ReplayableIff`, exact).
- A legacy ciphertext whose random nonce begins with `PDOC` cannot be read
  (`LegacyReadableIff`, exact). The database still counts it under the legacy key, which
  then can never be retired, if and only if the fifth byte is not 2 or the bytes that
  follow happen to spell length 9 and `legacy-v1` (`LegacyCountedButUnreadableIff`, exact;
  `CountedButUnreadable` for arbitrary bytes).
- A hint whose model is gone when its worker begins keeps that ended worker: no later
  worker replaces it, and it is answered only by its timeout or by a failed start of the
  model (`AppDelegate.Handle`, both directions; `AbandonedHint` reaches the state).

## Model

| member | source | states |
|---|---|---|
| `HandoffRuns.SubmitOnlyUnderIntent` | crates/agent-core/src/lib.rs:457-484 | in every run with crashes anywhere, `submit` is called only while `spool_intent` is stored and no other job of the printer is on its way to the spooler |
| `HandoffRuns.AtMostOneRiskySubmit` | crates/piqae-agent/src/main.rs:772-873 | over every run with crashes inside `submit` and recovery after them, a local job has at most one call that reserved its route and was accepted, unclear or cut off, plus one per release; a cloud job at most one submit, plus one per further offer |
| `HandoffRuns.AcceptedJobsAreDone` | crates/node-runtime/src/route_coordinator.rs:503-522 | a job the spooler accepted is never submitted again, and its evidence can be neither resolved nor released |
| `HandoffRuns.HistoryCounted` | crates/agent-core/src/lib.rs:431-572 | the history of a cell counts exactly the submit calls and releases among the actions of the run, and no more offers than there were |
| `HandoffRuns.SpoolerJobsAreScheduled` | crates/agent-core/src/lib.rs:484-503 | at every write boundary a job in `accepted_by_spooler`, `spooling`, `printing` or `blocked` has a reconciliation entry and a native identifier |
| `HandoffRuns.NoOrphanSchedules` | crates/agent-core/src/lib.rs:610-635 | the branch for an entry without a native identifier is never reachable |
| `HandoffRuns.EventsFollowTheAttempts` | crates/agent-core/src/lib.rs:431-598 | a job's events are whole attempts that failed safely or were released, and one last attempt with its observations, `rendering` exactly in attempts of PDF jobs; released attempts are exactly as many as releases, and a cloud job has no more further attempts than further offers |
| `HandoffRuns.TransitionsStartFromStoredState` | crates/agent-core/src/lib.rs:931-985 | the state passed as `from` is the stored state |
| `HandoffRuns.AttemptBudget` | crates/agent-core/src/lib.rs:600-661 | without a cancel request at most 299 attempts fall before the deadline; a job that is only ever inconclusive is unsettled after at most 299 attempts that were not cut off |
| `HandoffRuns.LateAttemptSettlesUnlessBlocked` | crates/agent-core/src/lib.rs:916-961 | an inconclusive attempt at or after the deadline stores `delivery_uncertain` if and only if the job is not `blocked` |
| `HandoffRuns.OnlyBlockedAgeingIsRefused` | crates/domain/src/job.rs:322-396 | of all changes reconciliation plans in any run, the table refuses exactly the ageing of blocked jobs |
| `JobStates.EnteredFrom` | crates/domain/src/job.rs:322-396 | the transition table column by column: from where each state can be entered |
| `JobStates.TerminalIffStuck` | crates/domain/src/job.rs:309-319 | a state is terminal if and only if the table has nothing after it |
| `HandoffRuns.StrandedForever` | crates/piqae-agent/src/main.rs:772-873 | a job cut off before its intent, before its reservation or inside a cancellation keeps its row in every continuation, recovery included |
| `HandoffRuns.StaysForeverIffStranded` | crates/piqae-agent/src/main.rs:772-873 | a job at rest that is not final keeps its row in every continuation if and only if it is stranded |
| `HandoffRuns.Moved` | crates/piqae-agent/src/main.rs:772-873 | every other job at rest that is not final has a continuation that changes it |
| `HandoffRuns.StrandedPrinterNeverServed` | crates/agent-storage/src/lib.rs:3867-3905 | such a job withholds its printer from every other job for ever |
| `HandoffQueue.PickedIffFirst` | crates/agent-storage/src/lib.rs:3867-3905 | first come, first served: in every run a job is picked if and only if it waits, may be tried now and has not expired, no job of its printer is between `preparing` and `printing`, and no job that was accepted or offered earlier waits for that printer |
| `HandoffQueue.BeforeIsLower` | crates/agent-storage/src/lib.rs:2691-2812 | of two jobs of a printer the one accepted first has the lower sequence number |
| `HandoffOutcomes.IntentEndsAsRecorded` | crates/piqae-agent/src/main.rs:815-850 | in every run a spool intent at rest is changed only by recovery: accepted evidence gives `accepted_by_spooler` with its identifier, next observation after 2 s and deadline after 600 s, a refusal gives `failed_retryable` due 2 s later for a local job, anything else `delivery_uncertain` |
| `HandoffOutcomes.IntentKeepsItsVerdict` | crates/piqae-agent/src/main.rs:772-873 | over every continuation a local intent at rest stays, or its next event is the one its route called for; an accepted handoff keeps its identifier for ever |
| `HandoffOutcomes.StoredAsReported` | crates/agent-core/src/lib.rs:835-929 | in every run each state of an accepted job beyond its acceptance was reported by the spooler as such: completed as completed, failed as failed, cancelled as cancelled, uncertain only after an inconclusive answer |
| `HandoffOutcomes.CompletedWasObserved` | crates/agent-core/src/lib.rs:884-895 | no job is completed without an observation of its completion |
| `HandoffRepeats.RunsAgainIffRefused` | crates/piqae-agent/src/main.rs:815-850 | some continuation without a release makes a cut-off local attempt runnable again if and only if the attempt before was refused, its evidence is still there and the route is not reserved |
| `HandoffRepeats.CallsAgainIffRefusedInTime` | crates/piqae-agent/src/main.rs:815-850 | some continuation without a release calls `submit` again, past every other job of the printer, if and only if in addition the job does not expire before the retry |
| `HandoffRepeats.StaysShut` | crates/piqae-agent/src/main.rs:772-873 | in every other case no continuation without a release makes the job runnable or calls `submit` |
| `HandoffRepeats.ClearPrinter` | crates/agent-storage/src/lib.rs:3867-3905 | from every reachable state some continuation moves all waiting and spooled jobs of a printer out of the way of one job and leaves that job alone |
| `HandoffRepeats.OneAttemptPerPrinter` | crates/agent-storage/src/lib.rs:3867-3905 | in no run are two jobs of a printer between `preparing` and `spool_intent` |
| `HandoffRuns.RunsKeepInv` | crates/agent-core/src/lib.rs:415-661 | every run keeps the agreement of view and row, the schedule, the submit budget, the fencing of spent intents, the trace grammar and one job per printer on its way to the spooler |
| `HandoffRuns.SelectKeepsPrinters` | crates/agent-storage/src/lib.rs:3867-3905 | the heads selected together are on different printers, none of which is held |
| `HandoffSafety.ExecKeepsSubmits` | crates/agent-core/src/lib.rs:466-543 | no step of an execution lets the submits exceed what the job may spend |
| `HandoffSafety.StoreOpKeepsSubmits` | crates/agent-storage/src/lib.rs:3567-3598 | no operation of the queue outside the engine lets the submits exceed what the job may spend: only a counted offer frees an attempt |
| `HandoffSafety.RouteOpKeepsSubmits` | crates/piqae-agent/src/main.rs:539-764 | nor does any pass of recovery or any decision about a handoff: only a counted release frees an attempt |
| `HandoffSafety.ProjectKeepsSubmits` | crates/piqae-agent/src/main.rs:815-850 | making a refused local intent runnable again gives nothing away, because a spent intent is fenced |
| `HandoffSafety.RouteOpKeepsRoutes` | crates/node-runtime/src/route_coordinator.rs:1268-1398 | every pass and decision keeps a spent local intent fenced by its reservation or its evidence |
| `HandoffSafety.CallKeepsSubmits` | crates/piqae-agent/src/main.rs:1011-1115 | a call spends the attempt at most once, and not before its route is reserved |
| `HandoffSafety.ExecKeepsTrace` | crates/agent-core/src/lib.rs:431-572 | every write of an execution continues the trace grammar |
| `HandoffSafety.ReconKeepsTrace` | crates/agent-core/src/lib.rs:780-961 | every write of a reconciliation continues the trace grammar |
| `HandoffSafety.ReconKeepsSchedule` | crates/agent-core/src/lib.rs:600-661 | every attempt keeps the spacing of observations, the deadline and the attempt count in step |
| `HandoffWitnesses.CrashBeforeIntentStrands` | crates/agent-core/src/lib.rs:545-572 | a run that strands a job in `preparing` |
| `HandoffWitnesses.CrashBeforeReservationStrands` | crates/piqae-agent/src/main.rs:1040-1062 | a run that strands a local job in `spool_intent` |
| `HandoffWitnesses.CrashInsideCancelStrands` | crates/agent-storage/src/lib.rs:4566-4600 | a run that strands a job in `cancel_requested` |
| `HandoffWitnesses.CutOffCallsAreRepeated` | crates/piqae-agent/src/main.rs:829-841 | a run without releases whose submits are a safe failure, a call cut off before its reservation and an accepted one |
| `HandoffWitnesses.LocalBoundReached` | crates/piqae-agent/src/main.rs:883-977 | for every n a run in which a local job with n releases has n + 1 submits that may have reached the spooler |
| `HandoffWitnesses.CloudBoundReached` | crates/agent-storage/src/lib.rs:2854-2925 | for every n a run in which a cloud job offered n more times is submitted n + 1 times |
| `HandoffWitnesses.BlockedJobsNeverAge` | crates/domain/src/job.rs:380-388 | for every n, a run in which a blocked job outlives n late inconclusive attempts |
| `AgentStore.Store.AcceptJob` | crates/agent-storage/src/lib.rs:2691-2812 | acceptance is idempotent and stores a new job as `queued_local` with its facts, behind every earlier one of its printer |
| `AgentStore.Store.AppendNextEvent` | crates/agent-storage/src/lib.rs:3913-3999 | an event changes one row's state and log, or nothing |
| `AgentStore.Store.RecordNativeAcceptance` | crates/agent-storage/src/lib.rs:4183-4236 | acceptance, event and schedule (2 s and 600 s) commit together and only from `spool_intent` |
| `AgentStore.Store.RecordLocalRetryableFailure` | crates/agent-storage/src/lib.rs:918-966 | a retryable failure is stored with its next attempt, only for a local job in `spool_intent` |
| `AgentStore.Store.RecordLocalHandoffUncertainty` | crates/agent-storage/src/lib.rs:973-1013 | `delivery_uncertain` is stored only for a local job in `spool_intent` |
| `AgentStore.Store.RecordReconciliationAttempt` | crates/agent-storage/src/lib.rs:4312-4357 | an attempt is counted, the next one set 2 s later, the deadline kept and the cancel flag cleared |
| `AgentStore.Store.FinishReconciliation` | crates/agent-storage/src/lib.rs:4364-4369 | the schedule of one job is dropped and nothing else; an unknown job is no error |
| `AgentStore.Store.RunnableHeads` | crates/agent-storage/src/lib.rs:3867-3905 | the query returns exactly the first waiting job of every free printer, each once |
| `AgentStore.Store.ExpiredWaiting` | crates/agent-storage/src/lib.rs:4606-4636 | exactly the waiting jobs past their expiry |
| `AgentStore.Store.DueReconciliations` | crates/agent-storage/src/lib.rs:4243-4305 | one page of due jobs, each once and in the order in which they fell due; a due job is passed over only for a full page of jobs due no later |
| `RouteCoordinator.Coordinator.Reserve` | crates/node-runtime/src/route_coordinator.rs:476-575 | a job with an accepted or unclear handoff on record gets no reservation; a reservation reported as failed may stand |
| `RouteCoordinator.Coordinator.Finish` | crates/node-runtime/src/route_coordinator.rs:1031-1079 | an acceptance or a refusal is recorded and releases the reservation, an unclear outcome is recorded and keeps it |
| `RouteCoordinator.Coordinator.Forget` | crates/node-runtime/src/route_coordinator.rs:1169-1242 | the evidence of one job is dropped and no other entry changes; a write reported as failed may have happened |
| `AgentEngine.Engine.Accept` | crates/agent-core/src/lib.rs:376-391 | acceptance extends the run and leaves every other job alone |
| `AgentEngine.Engine.Transition` | crates/agent-core/src/lib.rs:963-985 | a change outside the table writes nothing; one inside it is one step of the run |
| `AgentEngine.Engine.TransitionIfNeeded` | crates/agent-core/src/lib.rs:931-943 | no event when the state is already there |
| `AgentEngine.Engine.BeginExecution` | crates/agent-core/src/lib.rs:545-572 | a retried local job is queued again before `preparing` |
| `AgentEngine.Engine.PersistIntent` | crates/agent-core/src/lib.rs:440-464 | `rendering` for a PDF only, then `spool_intent` |
| `AgentEngine.Engine.RecordOutcome` | crates/agent-core/src/lib.rs:484-543 | an acceptance is stored as such, a failure that may have handed off as `delivery_uncertain`, a safe one as `failed_retryable` or `failed_terminal`; only safe local failures are retried |
| `AgentEngine.Engine.ReserveRoute` | crates/piqae-agent/src/main.rs:1040-1062 | the reservation is one step of the run, or refused because a handoff is on record |
| `AgentEngine.Engine.RecordHandoff` | crates/piqae-agent/src/main.rs:1081-1102 | the spooler's answer is recorded as one step of the run, which may have happened although it is reported as failed |
| `AgentEngine.Engine.Submit` | crates/piqae-agent/src/main.rs:1011-1115 | nothing reaches the spooler without a reservation, and every answer, also of a failed reservation or journal write, is one the protocol allows |
| `AgentEngine.Engine.SubmitReserved` | crates/piqae-agent/src/main.rs:1078-1114 | whatever becomes of the journal write, the answer is one the protocol allows after a reservation |
| `AgentEngine.Engine.SubmitJob` | crates/agent-core/src/lib.rs:466-543 | the call happens under the stored intent and its answer is stored |
| `AgentEngine.Engine.ExecuteJob` | crates/agent-core/src/lib.rs:431-543 | a finished execution appends exactly the events of its outcome and changes no other job |
| `AgentEngine.Engine.ApplyNativeObservation` | crates/agent-core/src/lib.rs:835-929 | each of the eight native states stores what the table says for the stored state, with the attempt counted; reconciliation ends only on a settled state |
| `AgentEngine.Engine.ReconcileInconclusive` | crates/agent-core/src/lib.rs:636-661 | a failed observation counts as an attempt and stores `delivery_uncertain` exactly when the deadline has passed |
| `AgentEngine.Engine.ReconcileCancellation` | crates/agent-core/src/lib.rs:780-833 | an accepted cancellation settles the job, a failed one is retried until the deadline |
| `AgentEngine.Engine.ReconcileItem` | crates/agent-core/src/lib.rs:610-661 | one due job is reconciled by one report of the right kind |
| `AgentEngine.ReconciledAsReported` | crates/agent-core/src/lib.rs:835-929 | for every stored state, report and time the engine's plan is the table of reports and states |
| `AgentEngine.Engine.ExpireWaiting` | crates/agent-storage/src/lib.rs:4606-4636 | exactly the jobs in `queued_local` or `failed_retryable` whose expiry has passed get one `expired` event, no other job changes |
| `AgentEngine.Engine.ReconcileDue` | crates/agent-core/src/lib.rs:600-608 | the 32 jobs that fell due first are reconciled, all of them when there are fewer, and no other row changes |
| `AgentEngine.Engine.ExecuteHeads` | crates/agent-core/src/lib.rs:415-425 | every runnable head is executed once |
| `AgentEngine.Engine.RunOnce` | crates/agent-core/src/lib.rs:415-425 | one pass is a continuation of the run: expiry, then every head, then what is due, and nothing is left in hand whatever fails |
| `AgentRecovery.ReconcileLocalRoutes` | crates/piqae-agent/src/main.rs:772-873 | every local intent becomes what the record of its route calls for, state by state and to the millisecond, no other row changes, and the local intents that remain are exactly the unprovable ones |
| `AgentRecovery.QuarantineAll` | crates/piqae-agent/src/main.rs:777-796 | exactly the local reservations without evidence of their own, of jobs in `spool_intent`, `delivery_uncertain`, `failed_retryable` or `failed_terminal`, are declared unclear |
| `AgentRecovery.ProjectAll` | crates/piqae-agent/src/main.rs:798-853 | every local intent is stored as accepted with its schedule, as retryable with its time or as uncertain, as its evidence says, and no other row changes |
| `AgentRecovery.CompactAll` | crates/node-runtime/src/route_coordinator.rs:1169-1242 | exactly the local evidence that the stored state and identifier supersede is dropped; unclear evidence never is |
| `AgentRecovery.PassesCompose` | crates/piqae-agent/src/main.rs:772-873 | the three passes together are one function of rows and routes before them |
| `SpdxExpression.AcceptsExactlyTheGrammar` | release/tools/native_cargo_sbom.py:51-96 | a token list is accepted if and only if it prints some expression tree |
| `SpdxExpression.OneTreePerExpression` | release/tools/native_cargo_sbom.py:51-96 | no token list prints two trees |
| `SpdxExpression.DisjSound` | release/tools/native_cargo_sbom.py:86-94 | what is consumed is what the tree prints |
| `SpdxExpression.DisjComplete` | release/tools/native_cargo_sbom.py:86-94 | a printed tree that stands in the tokens is found, whole |
| `SpdxExpression.Recogniser.MatchAtom` | release/tools/native_cargo_sbom.py:51-65 | accepts exactly when an atom stands at the position, and moves behind it |
| `SpdxExpression.Recogniser.MatchTerm` | release/tools/native_cargo_sbom.py:67-74 | the same for an atom with an optional exception |
| `SpdxExpression.Recogniser.MatchConjunction` | release/tools/native_cargo_sbom.py:76-84 | the loop agrees with the recursive grammar |
| `SpdxExpression.Recogniser.MatchDisjunction` | release/tools/native_cargo_sbom.py:86-94 | the loop agrees with the recursive grammar |
| `SpdxExpression.HasValidShape` | release/tools/native_cargo_sbom.py:37-96 | true exactly for the token lists that print some expression |
| `CargoGraph.VisitDependencies` | release/tools/native_cargo_sbom.py:337-352 | pushes exactly the dependencies that are not dev-only and records exactly their edges, or fails exactly when one is not described |
| `CargoGraph.Traverse` | release/tools/native_cargo_sbom.py:321-352 | terminates; succeeds exactly when everything reachable is described, and then adds exactly the reachable packages, their edges and the target: a dependency is followed if it is listed for the package or its build script or without a kind, not if only for tests |
| `CargoGraph.LoadTarget` | release/tools/native_cargo_sbom.py:302-352 | succeeds exactly when one package of the repository has the root's name and everything reachable from it is described |
| `CargoGraph.EndpointsCollected` | release/tools/native_cargo_sbom.py:404-409 | both ends of every collected edge are collected packages |
| `CargoGraph.NamePackages` | release/tools/native_cargo_sbom.py:357-403 | succeeds exactly when every registry package has a checksum and no identifier is given twice |
| `CargoGraph.Describe` | release/tools/native_cargo_sbom.py:357-409 | names every package and translates every edge; its check of the endpoints never fails |
| `CargoGraph.LoadUnion` | release/tools/native_cargo_sbom.py:287-355 | succeeds with the union over all targets, or fails for a target that cannot be loaded or a disagreement about the root |
| `CargoGraph.LoadGraph` | release/tools/native_cargo_sbom.py:287-409 | succeeds with the bill of the union over all targets; every error is one of the listed ones and justified, and the endpoint check never fails |
| `CacheEntries.UnpinnedLru` | crates/agent-storage/src/lib.rs:558-571 | the unpinned digests, each once, least recently used first, ties by digest |
| `CacheEntries.Usage` | crates/agent-storage/src/lib.rs:545-552 | the sum of the recorded lengths |
| `ResourceCache.DocumentResourceCache.EvictNext` | crates/agent-core/src/document_resources.rs:398-416 | one candidate is claimed, removed and forgotten, the running usage stays the recorded sum, a failed removal gives the claim back, a failed database write leaves at most one claim behind |
| `ResourceCache.DocumentResourceCache.EvictFor` | crates/agent-core/src/document_resources.rs:388-423 | removes exactly the shortest sufficient prefix of the unpinned order, never a pinned entry and never one used later than an unpinned one that stays; unless a file or database operation fails, and with no claim left over, `Limit` if and only if pinned bytes plus incoming bytes exceed the maximum |
| `ResourceCache.DocumentResourceCache.VerifyFile` | crates/agent-core/src/document_resources.rs:483-496 | true exactly when the file is there with that digest and length |
| `ResourceCache.DocumentResourceCache.Reconcile` | crates/agent-core/src/document_resources.rs:425-457 | success leaves the entries whose file verified, less the shortest prefix that makes them fit |
| `ResourceCache.DocumentResourceCache.Open` | crates/agent-core/src/document_resources.rs:74-96 | from any rows and files, success means nothing pinned, no claim, every entry's file verified, nothing else about an entry changed, bytes within the maximum; zero limits are refused |
| `ResourceCache.DocumentResourceCache.CachedVerified` | crates/agent-core/src/document_resources.rs:285-318 | a hit if and only if entry and file match, and then only the access time changes; a stale unpinned entry is dropped, a stale pinned one is an error |
| `ResourceCache.DocumentResourceCache.StoreAcquired` | crates/agent-core/src/document_resources.rs:320-386 | success records and publishes exactly the acquired bytes; every error is justified; the recorded bytes stay within the maximum and pinned entries and files stay |
| `ResourceCache.DocumentResourceCache.Resolve` | crates/agent-core/src/document_resources.rs:103-169 | success means a published file with the descriptor's digest and length, acquired only on a miss; exactly the malformed or too large descriptors are refused; the bound and every pin survive |
| `ResourceCache.DocumentResourceCache.Pin` | crates/agent-core/src/document_resources.rs:188-194 | one more pin on a recorded entry that is not being evicted, or no change |
| `ResourceCache.DocumentResourceCache.Unpin` | crates/agent-core/src/document_resources.rs:200-206 | one pin less on a pinned entry, or no change |
| `ResourceCache.DocumentResourceCache.ResolveImage` | crates/agent-core/src/document_resources.rs:252-281 | returned bytes match the declaration even if the file changed after it was verified; anything but a prefixed `image/jpeg` is refused |
| `ResourceCache.DocumentResourceCache.ResolveDocumentImages` | crates/agent-core/src/document_resources.rs:240-283 | success gives every declared image, all of them JPEG, and no other, bytes of its declared digest and length |
| `ResourceCache.SameAsDirect` | crates/agent-core/src/document_resources.rs:240-283 | that map is the one direct acquisition would give, whatever the cache held |
| `CacheFlights.StepKeepsInv` | crates/agent-core/src/document_resources.rs:118-168 | every step of every thread keeps leaders, table, flights and followers consistent |
| `CacheEviction.EvictUnderLock` | crates/agent-core/src/document_resources.rs:388-423 | under the store's lock the eviction code is one step of the concurrent model, and makes room exactly when it reports success |
| `CacheRuns.OneLeaderPerDigest` | crates/agent-core/src/document_resources.rs:118-151 | at every instant at most one thread acquires a digest, and the table holds exactly the digests with a leader in progress |
| `CacheRuns.FollowersReturnTheLeadersResult` | crates/agent-core/src/document_resources.rs:137-168 | whoever joined a flight returns its one outcome; success means bytes hashing to the digest were published on it |
| `CacheRuns.WaitersAreServed` | crates/agent-core/src/document_resources.rs:152-168 | a waiting thread can be woken or its leader is still at work |
| `CacheRuns.RecordedBytesBounded` | crates/agent-core/src/document_resources.rs:320-423 | with at most k leaders between capacity check and insert, recorded bytes never exceed the maximum plus k - 1 of the largest resources that fit; so a serialised cache never exceeds the maximum |
| `CacheBoundReached.BoundIsReached` | crates/agent-core/src/document_resources.rs:344-380 | for all limits and every k for which there are k different resources of the largest size that fits, an interleaving reaches that bound exactly |
| `RenderRuns.RunKeepsInv` | crates/storage-postgres/src/lib.rs:10759-10898 | every interleaving keeps lease, completion, authorship, object and cleanup invariants |
| `RenderRuns.CompletedAtMostOnce` | crates/control-plane/src/document_render_worker.rs:206-276 | over claims, expiries, stale workers and retries, a render is completed at most once |
| `RenderRuns.CompletedRenderKeepsArtifact` | crates/control-plane/src/document_render_worker.rs:240-276 | while a render is completed its object exists with the recorded digest, whatever stale workers delete, unless the reply to its completion was lost |
| `RenderRuns.ArtifactThereIffNotDeleted` | crates/control-plane/src/document_render_worker.rs:240-276 | while a render is completed its object is there with the recorded digest if and only if its author did not delete it |
| `RenderRuns.AuthorFinished` | crates/control-plane/src/document_render_worker.rs:254-276 | the author of a referenced artifact knows that it finished, or its reply was lost |
| `RenderRuns.LostReplyDeletesArtifact` | crates/control-plane/src/document_render_worker.rs:271-274 | after a lost reply the worker's clean-up removes the artifact of a completed render |
| `RenderRuns.CompletedWithoutArtifact` | crates/control-plane/src/document_render_worker.rs:271-274 | a run that ends in a completed render without its object |
| `RenderRuns.ReferenceOutlivesObject` | crates/control-plane/src/document_render_worker.rs:146-191 | cleanup clears a reference only when the object it names is gone |
| `RenderRuns.LastAttemptIsNeverTakenOver` | crates/storage-postgres/src/lib.rs:10765-10783 | the last attempt of a printable render can be moved only by the holder of its lease |
| `RenderRuns.StuckIffLastAttempt` | crates/storage-postgres/src/lib.rs:10765-10783 | a render under lease stays as it is in every continuation without the lease's holder if and only if it is printable and at its last permitted attempt |
| `RenderRuns.LastAttemptReached` | crates/storage-postgres/src/lib.rs:10759-10828 | a run that reaches that state |
| `RenderRuns.FailureUnderLease` | crates/storage-postgres/src/lib.rs:10830-10848 | a failure is recorded only while its own lease is current |
| `RenderOutcomes.FinalFailureIsFinal` | crates/storage-postgres/src/lib.rs:10830-10848 | over every run, once a failure that another attempt would meet again is recorded, the render is never claimed again |
| `RenderOutcomes.PassingFailureIsRetried` | crates/storage-postgres/src/lib.rs:10830-10848 | a recorded failure that may pass leaves the render claimable if and only if attempts are left, and otherwise ends it |
| `RenderOutcomes.HolderIsNewest` | crates/storage-postgres/src/lib.rs:10765-10783 | the holder of a lease works on the newest attempt |
| `RenderOutcomes.CleansUpIff` | crates/storage-postgres/src/lib.rs:10850-10898 | cleanup alone can expire a render and remove its object if and only if it is not a printable render that is still to be done |
| `RenderWorker.Worker.RenderAndComplete` | crates/control-plane/src/document_render_worker.rs:206-276 | between any steps of others, success means this lease's completion was committed, and every failure path leaves the task ready to record that failure and no other state |
| `RenderWorker.Worker.CompleteStored` | crates/control-plane/src/document_render_worker.rs:240-276 | success means this lease's completion was committed; otherwise the object is given up and the failure is ready to be recorded |
| `RenderWorker.Worker.Process` | crates/control-plane/src/document_render_worker.rs:193-204 | the render is completed under this lease, or its failure is the last action; a recorded failure found this lease current and leaves the render failed for good when it is final or the attempt was the last, and registered again otherwise |
| `RenderWorker.Worker.CleanupItem` | crates/control-plane/src/document_render_worker.rs:146-163 | done means this lease cleared the reference and the row is expired |
| `WakeHints.AppDelegate.constructor` | apps/node-apple/Sources/PiqaeNodeApp.swift:50-59 | limits are at least one; nothing is owed |
| `WakeHints.AppDelegate.Finish` | apps/node-apple/Sources/PiqaeNodeApp.swift:132-138 | answers each completion of the hint once, in order, cancels exactly its two tasks and keeps every invariant |
| `WakeHints.AppDelegate.Start` | apps/node-apple/Sources/PiqaeNodeApp.swift:121-130 | a hint gets at most one worker, and gets it exactly when there is a model; a new worker runs, and no other hint, task or completion changes |
| `WakeHints.AppDelegate.Enqueue` | apps/node-apple/Sources/PiqaeNodeApp.swift:88-115 | refuses exactly when a pending hint has its maximum of completions or there is the maximum of hints, otherwise coalesces or adds; each completion is called once or pending once, both bounds hold, every pending hint has a live timeout |
| `WakeHints.AppDelegate.Receive` | apps/node-apple/Sources/PiqaeNodeApp.swift:76-86 | a notification is answered at once exactly when it has no collapse ID or a bound refuses it; a new hint's worker runs when there is a model that is ready; earlier hints stay |
| `WakeHints.AppDelegate.ModelDidStart` | apps/node-apple/Sources/PiqaeNodeApp.swift:65-68 | every pending hint has a worker afterwards |
| `WakeHints.AppDelegate.ModelStartFailed` | apps/node-apple/Sources/PiqaeNodeApp.swift:70-74 | every completion received so far has been called exactly once, the remaining ones with no data |
| `WakeHints.AppDelegate.Resume` | apps/node-apple/Sources/PiqaeNodeApp.swift:105-138 | a task finishes only the hint of its own generation; a cancelled one changes nothing; new data only from a worker that reconciled |
| `WakeHints.AppDelegate.Handle` | apps/node-apple/Sources/PiqaeNodeApp.swift:61-138 | whatever event comes next, a hint whose worker ended without finishing it is removed if and only if the event is its timeout or a failed model start, and otherwise stays so |
| `WakeHints.OnlyTimeoutIsLeft` | apps/node-apple/Sources/PiqaeNodeApp.swift:105-130 | of all tasks that still run, only its timeout can finish such a hint |
| `WakeHints.AbandonedHint` | apps/node-apple/Sources/PiqaeNodeApp.swift:121-124 | events that lead to such a hint |
| `DocumentEnvelope.Keyring` | crates/control-plane/src/document_crypto.rs:70-86 | refuses exactly the keyrings without the active key or with an id that is not 1 to 64 letters, digits, `-`, `_` or `.` |
| `DocumentEnvelope.Encrypt` | crates/control-plane/src/document_crypto.rs:102-128 | with a valid keyring it never fails and builds `PDOC`, 2, the id with its length, nonce and ciphertext, in this order; a missing active key is the only unknown-key error |
| `DocumentEnvelope.DecryptUndoesEncrypt` | crates/control-plane/src/document_crypto.rs:102-182 | what was sealed under a key is read back in every later keyring that keeps it |
| `DocumentEnvelope.LegacyReadableIff` | crates/control-plane/src/document_crypto.rs:136-182 | a legacy ciphertext is read back if and only if its nonce does not begin with the magic bytes |
| `DocumentEnvelope.RewrapPayload` | crates/control-plane/src/document_crypto.rs:277-280 | succeeds exactly when the original is readable; same plaintext, and both readers name the active key |
| `DocumentEnvelope.KeyIdsAgree` | migrations/postgres/0033_document_encryption_key_rotation.sql:32-54 | the key that decryption uses is the one the database counts the ciphertext under |
| `DocumentEnvelope.UnreferencedKeyIsSafeToDrop` | crates/control-plane/src/document_crypto.rs:61-64 | dropping a key changes nothing for ciphertexts the database does not count under it |
| `DocumentEnvelope.CountedButUnreadable` | migrations/postgres/0033_document_encryption_key_rotation.sql:32-54 | any bytes are counted under the legacy key and unreadable in every keyring if and only if they are too short or carry the magic with another version |
| `DocumentEnvelope.LegacyCountedIff` | migrations/postgres/0033_document_encryption_key_rotation.sql:32-54 | a legacy ciphertext is counted under the legacy key if and only if it does not look like the newer format or, looking like it, spells the legacy key's id |
| `DocumentEnvelope.LegacyCountedButUnreadableIff` | migrations/postgres/0033_document_encryption_key_rotation.sql:32-54 | a legacy ciphertext is counted under the legacy key and not read back if and only if its nonce begins with the magic bytes and either another version follows or the bytes spell the legacy key's id |
| `DocumentRewrap.DocumentRows.CompareAndSwap` | crates/storage-postgres/src/lib.rs:10685-10743 | a row is replaced only if it still holds what was read |
| `DocumentRewrap.DocumentRows.RewrapBatch` | crates/control-plane/src/document_crypto.rs:192-275 | scanned is rewrapped plus concurrent changes plus unreadable, the last being exactly the undecryptable records; every accepted replacement keeps its plaintext and names the active key; a dry run changes neither rows nor replacements |
| `RequestClock.ServerClock.Observe` | crates/agent-client/src/lib.rs:103-109 | after any history of dated and undated responses the offset is the one the history calls for |
| `RequestClock.ServerClock.SigningTimestamp` | crates/agent-client/src/lib.rs:113-117 | after a dated response and for any drift, the request arrives with a skew of both travel times and the rounding, and passes the window if and only if that is within 300 000 ms; saturates at 64 bits |
| `RequestClock.OffsetFromLastDated` | crates/agent-client/src/lib.rs:103-142 | after any history of responses the offset is minus drift, transit and rounding of the last dated one |
| `RequestClock.CorrectedSkew` | crates/agent-client/src/lib.rs:103-142 | for any drift the skew is response transit plus request transit plus less than a second, and the request passes the window if and only if that sum is within 300 000 ms |
| `RequestClock.DeviceGate.Authenticate` | crates/control-plane/src/device_auth.rs:76-155 | stale exactly beyond a skew of 300 000 ms, a nonce invalid exactly outside 16 to 128 characters; accepted exactly with a free nonce and a valid signature besides, and then reserved for 360 000 ms; what is accepted was not accepted before unless dating ahead and stalling make up a minute |
| `RequestClock.DeviceGate.Sweep` | crates/storage-postgres/src/lib.rs:3378-3385 | removes exactly the expired reservations and keeps every one that still counts |
| `RequestClock.ReservedUntil` | crates/storage-postgres/src/lib.rs:3338-3364 | over every history of requests and sweeps an accepted nonce is reserved for its whole retention |
| `RequestClock.AcceptedTwiceNeedsAMinute` | crates/control-plane/src/device_auth.rs:19-32 | two acceptances of one request take a minute of dating ahead and stalling |
| `RequestClock.NotAcceptedBefore` | crates/control-plane/src/device_auth.rs:76-155 | the newest acceptance and every earlier one of the same request are a minute of dating ahead and stalling apart |
| `RequestClock.ReplayableIff` | crates/control-plane/src/device_auth.rs:93-155 | a second acceptance is possible if and only if dating ahead and stalling make up 60 000 ms |
| `RequestClock.CorrectedRequestsAcceptedOnce` | crates/control-plane/src/device_auth.rs:93-155 | a promptly handled request of a corrected node is never accepted twice |
| `ContentStore.Store.Copy` | crates/agent-core/src/lib.rs:292-308 | file, hash and count stay in step over any stream; too large only when the contents are |
| `ContentStore.Store.Put` | crates/agent-core/src/lib.rs:262-343 | every digest-named file hashes to its name, no partial file outlives its put, a verified put returns a file of the requested digest within the limit, also without reading it again; new confidential content is named by its own id and never by its digest; a failed put changes nothing |

## Left out

- AgentStore.Store.DueReconciliations: jobs due at the same moment come in any order, where the source goes by job ID.
- AgentStore.Store.RunnableHeads: the order of heads, one per printer, is left open, because no property depends on it.
- RouteCoordinator.Coordinator.Reserve: a route held by another job, a full journal and a conflict between routes are one refusal that may come at any time.
- ResourceCache.DocumentResourceCache.EvictFor: sums stay below 2^64.
- ResourceCache.DocumentResourceCache.Open: creating directories and opening the database are not modelled; their errors are other ways to fail.
- RenderWorker.Worker.RenderAndComplete: resource resolution, rendering and page counts are one answer that may fail.
- ContentStore.Store.Put: one put at a time; a partial file that the system refuses to delete is reported as leaked.
- DocumentRewrap.DocumentRows.RewrapBatch: the reference counts of the report and the choice of the records are the database's answers.
- RequestClock.DeviceGate.Authenticate: digest, key lookup and signature are one answer; header parsing is not modelled.
- WakeHints.AppDelegate.Resume: the deadline in seconds is not modelled, a timeout may fire at any time.
- AgentRecovery.ReconcileLocalRoutes: the recovery of cloud routes has the same steps in the protocol but no code of its own here.
- CacheEviction.EvictUnderLock: the other steps of the concurrent model are stated by hand from the code and not tied to `ResourceCache`.
- The contents of native profiles and bindings.
- Removal of confidential content files after an execution.
- Threads of the cache that panic, and files removed under a running cache by its own other threads: the concurrent model keeps what was published on a flight, not the file afterwards.
- Retention of artifacts by job references and previews, which only delays cleanup, and the cleanup of shared packet resources.
- Splitting licence text into tokens, reading Cargo's JSON, and the legacy slash notation.
- Everything else in the repository: HTTP handlers, user interfaces, configuration, billing and release policy.
