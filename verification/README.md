# GaugeMesh, modelled and proved in Dafny

GaugeMesh is a gateway. It accepts work from callers, routes it to upstream providers, and makes
claims about whole runs: work is never submitted twice, identities are written once, budgets are
conserved, tenants get a fair and bounded share, and decisions do not depend on the order of their
inputs. This project models the code those claims rest on and proves them for every input, every
interleaving and every reachable state.

Verify with `dafny verify dfyconfig.toml`.

| files | what they model |
|---|---|
| `TaskRoute`, `RouteStore`, `RouteIsolation` | durable task routes: the record, its transitions, the two stores that keep it, and whose routes they hand out |
| `TaskProtocol`, `TaskProtocolSafety`, `TaskProtocolIsolation`, `TaskProtocolReports`, `TaskProtocolOutcomes`, `TaskProtocolLoss`, `TaskProtocolWitness` | gateway processes racing through submit, claim, call, bind, poll, cancel, reconcile and purge over one shared store |
| `JsonPointer`, `RunPlan`, `RunState`, `RunJournal`, `RunTable`, `RunDriver`, `RunDriverSafety`, `RunDriverOutcomes`, `RunDriverWitness` | runs: plan admission, the hash-chained journal, and the polled driver that sweeps a graph of steps |
| `RunSubmission` | runs and task routes together: what a step of a run can cause at the provider, and which results verify it |
| `Conservation`, `Budget` | the 23-invariant relation between request contexts, and budget debits |
| `DeficitRoundRobin` | the fair queue |
| `Admission`, `AdmissionProgress` | per-tenant concurrency limits with eviction of idle records |
| `RouteDecision`, `RouteScores` | the route planner and the independent check of its decisions |
| `Section`, `SectionOracle`, `SectionAgreement`, `SectionExistence`, `SectionConvergence`, `SectionAudit`, `SectionSoundness`, `SectionSpread` | the concrete-section example: a bisection solver, an algebraic oracle, and the audit that compares them |
| `Common` | options, results, bounded integers, string order |

How the code is represented:

- A digest is a datatype value that carries what it hashes, so equal digests mean equal content.
- Concurrency is a step system. Every atomic store operation, upstream call and lock acquisition is
  one step, any number of handlers interleave, and a handler may be dropped between any two steps.
  The clock is shared and never goes back. The two clock reads that decide a dispatch are steps apart
  from the store operations and the call around them. Every other clock read is made in the step that
  uses it: the timestamp of a compare-and-set update in that compare-and-set, and a check against the
  cutoff in the step that acts on it.
- Upstream replies, files, leases, schema checks and the encoded size of documents are inputs of the
  step that uses them.
- Code that works in place (`MemoryStore`, `Scheduler`, `RunStore`, the loops of the planner, the
  solver and the audits) is imperative Dafny proved against specification functions; the properties
  are then proved of those functions.
- Integers are unbounded; saturation and the 64-bit and SQLite limits are written out where the code
  relies on them. The section solver is over exact reals.

Six results worth knowing before reading on:

- At-most-once submission survives purge and expiry because a route leaves the table only after its
  deadline, and a claim on a stale re-insertion finds no time left at its second clock read.
- A stop flag in the *stored* run does not rule out a dispatch: a cancel that lands between a step's
  durable intent and its call lets the call through as new work. `CancelledRunStillSends` is a
  concrete execution and `CancelCanOvertakeSend` the general case; `SendMeetsStopExactly` says from
  the journal exactly when it happens, and `OvertakenDriverStops` that an overtaken driver makes at
  most one more call and no save.
- An upstream id is lost in one way only: the handler that received it is dropped before the id is in
  a durable record or the subject of a cancel request. `SettledExactly` says that a received id is
  settled if and only if no handler has it in hand, `DropDecides` that dropping a handler with the id
  in hand loses it for good and dropping it at any other point does not, and `DropCanLoseTask` is an
  execution in which that happens.
- The oracle's slack at yield boundaries can admit one layer both as elastic and as yielded at depths
  further apart than its same-root distance; it then gives no answer. `CandidatesCanSpread` is such a
  section, with inputs of at most 15 significant digits. For one layer `OneLayerSettles` says exactly
  when, by rational arithmetic on the inputs; for two, `OracleSettles` gives a bound on the slack that
  rules it out.
- Reflexivity of conservation is not unconditional: `ConservesReflexive` states exactly which
  contexts pass against themselves.
- The planner sorts the reasons of denied candidates only. The reasons an *allowed* candidate carries
  enter the snapshot digest in the order given (`AllowedReasonsAreKept`), so `DecisionIgnoresOrder`
  speaks of denied ones; `DecisionFixesCandidates` says that nothing else is ignored.

## Model

| member | source | states |
|---|---|---|
| TaskRoute.TransitionFacts | crates/gaugemesh-core/src/task.rs:325-370 | an accepted update keeps identity, raises the version by one, follows an allowed phase edge, never rewrites the upstream id, and leaves a well-shaped record |
| TaskRoute.TransitionAccepts | crates/gaugemesh-core/src/task.rs:325-549 | a well-shaped record accepts an update if and only if the edge exists, time and version do not run out, and upstream id, owner and cached result fit the phase entered |
| TaskRoute.LifetimeIsMonotone | crates/gaugemesh-core/src/task.rs:312-370 | between any two points of any lifetime: the version counts steps, identity is immutable, the upstream id is write-once, a cancelled route only stays cancelled or ends, and every record keeps its shape |
| TaskRoute.LifetimePhases | crates/gaugemesh-core/src/task.rs:521-549 | Prepared is exactly the first record, Dispatching at most the second, nothing follows Terminal, and a cached result is present exactly there |
| RouteStore.MemoryStore.Find | crates/gaugemesh-core/src/storage.rs:177-195 | the index lookup answers what the table query answers |
| RouteStore.MemoryStore.Get | crates/gaugemesh-core/src/storage.rs:274-291 | answers exactly when the stored row has that id and belongs to the caller, and then answers that row, as the table query does |
| RouteStore.MemoryStore.Begin | crates/gaugemesh-core/src/storage.rs:197-272 | insert, existing, conflict, collision, capacity and expiry replacement all as the SQLite transaction, with the three indexes kept in agreement |
| RouteStore.MemoryStore.CompareAndSet | crates/gaugemesh-core/src/storage.rs:293-317 | same new table and same result as the SQLite compare-and-set; finds nothing exactly when the row is missing or another caller's, and then changes nothing |
| RouteStore.MemoryStore.Purge | crates/gaugemesh-core/src/storage.rs:319-349 | removes exactly the rows that the ordered and limited SQLite delete removes: as many as asked for, at most 10,000, and at most the expired ones |
| RouteStore.MemoryStore.CountActive | crates/gaugemesh-core/src/storage.rs:239-245 | counts exactly the caller's unexpired routes |
| RouteStore.EarliestIsPurged | crates/gaugemesh-core/src/storage.rs:659-688 | stopping at the limit or at the first live route takes exactly the earliest (expiry, id) pairs |
| RouteStore.StoreStaysBounded | crates/gaugemesh-core/src/storage.rs:500-594 | over any sequence of operations the table stays well formed, with one route per caller and key, and within 4,096 rows |
| RouteStore.MemoryStore.PerformAll | crates/gaugemesh-core/src/storage.rs:176-349 | for any sequence of find, begin, get, compare-and-set and purge the memory store gives the sequence of answers, and ends with the table, of the SQLite store |
| RouteStore.CallerStaysBounded | crates/gaugemesh-core/src/storage.rs:239-252 | over any sequence of operations whose insertions follow the clock, no caller ever has more than 256 unexpired routes |
| RouteIsolation.GetAnswersOwn | crates/gaugemesh-core/src/storage.rs:274-291 | a read by public id answers exactly when the stored row has that id and that caller, and answers that row |
| RouteIsolation.AnswersAreOwn | crates/gaugemesh-core/src/storage.rs:176-317 | over any sequence of operations every route in an answer belongs to the caller that asked, and is the one it named |
| RouteIsolation.OthersLeaveAlone | crates/gaugemesh-core/src/storage.rs:197-349 | whatever other callers do, a caller's rows are the same afterwards, none is added, and only those a purge found expired are gone |
| TaskProtocol.ParseAccepts | crates/gaugemesh/src/task_proxy.rs:85-143 | a document is accepted if and only if it is complete, identified with these arguments, interface and effect, bounded in every limit, and due after now but within its retention |
| TaskProtocol.ParseRefuses | crates/gaugemesh/src/task_proxy.rs:85-143 | each refusal names a rule that the document breaks |
| TaskProtocolSafety.AtMostOneCall | crates/gaugemesh/src/task_proxy.rs:208-341 | in every execution no two upstream calls are for the same caller, idempotency key and deadline, hence none for the same caller and document, whatever source or tool is named |
| TaskProtocolSafety.NotDispatchedIsTrue | crates/gaugemesh/src/task_proxy.rs:914-939 | if a not-dispatched verdict is ever committed for a route, no call for that route occurs anywhere in the execution, before or after |
| TaskProtocolIsolation.HandlerServesItsCaller | crates/gaugemesh/src/task_proxy.rs:437-560 | wherever a handler is in any execution, every record and request it has belongs to the caller it was started for |
| TaskProtocolIsolation.HandlerTouchesItsCaller | crates/gaugemesh/src/task_proxy.rs:437-560 | no step of a handler adds, changes or removes a route of another caller, except by purging expired ones, and its calls are its caller's |
| TaskProtocolOutcomes.LostWriteTriesAgain | crates/gaugemesh/src/task_proxy.rs:941-1005 | a write overtaken by another reads the route again and settles what it finds |
| TaskProtocolReports.CutoffIsLateness | crates/gaugemesh/src/task_proxy.rs:318-325 | the execution cutoff is exactly the earlier of the deadline and the end of the runtime, or for other bindings of expiry and half a minute |
| TaskProtocolReports.RecordedOutcomeWasHeard | crates/gaugemesh/src/task_proxy.rs:395-434 | every recorded outcome but the gateway's own not-dispatched verdict was reported by the provider for that very route, and is the reported status, or rejected as late or too large, as it stood when heard |
| TaskProtocolReports.HeardIsCarried | crates/gaugemesh/src/task_proxy.rs:588-700 | a handler that hears the provider end a task goes on to record exactly that outcome |
| TaskProtocolReports.CarriedIsRecorded | crates/gaugemesh/src/task_proxy.rs:941-1005 | an outcome carried for the record that is stored, and that fits the store, is recorded by the next step |
| TaskProtocolReports.CallWasDecidedInTime | crates/gaugemesh/src/task_proxy.rs:318-341 | every upstream call was decided by a handler holding the route's claim before the task's deadline and before its runtime was used up |
| TaskProtocolOutcomes.SubmissionIsRouted | crates/gaugemesh/src/task_proxy.rs:191-393 | with nobody in its way, a new submission that is accepted and finds a free place makes one call under a record of its own, and the task created for it is bound to that record |
| TaskProtocolOutcomes.RepeatMakesNoCall | crates/gaugemesh/src/task_proxy.rs:262-316 | with nobody in its way, a submission whose route is already claimed makes no call: a route in good hands stays, and one whose session is gone or whose dispatch is late or in other hands is left to be reconciled |
| TaskProtocolOutcomes.RecoveryNeverCalls | crates/gaugemesh/src/task_proxy.rs:208-262 | a recovery makes no call: an unclaimed route is declined, a dispatch under way is left to be reconciled, and any other live route is only looked at |
| TaskProtocolOutcomes.CancelAlone | crates/gaugemesh/src/task_proxy.rs:537-568 | a caller's cancel of its own live route makes the intent durable, and asks the provider to stop when its task is known and its session current |
| TaskProtocolOutcomes.LateTaskIsStopped | crates/gaugemesh/src/task_proxy.rs:437-503 | a read that finds a routed task late records the intent to cancel and asks the provider to stop |
| TaskProtocolOutcomes.UnknownTaskIsReconciled | crates/gaugemesh/src/task_proxy.rs:437-503 | a read that finds the task's session gone, or its dispatch late or in other hands, leaves the route to be reconciled |
| TaskProtocolOutcomes.UnclaimedTaskIsDeclined | crates/gaugemesh/src/task_proxy.rs:437-503 | a read that finds an unclaimed route after its time records that nothing was dispatched |
| TaskProtocolOutcomes.EndedTaskIsRecorded | crates/gaugemesh/src/task_proxy.rs:588-700 | a read of a running or cancelled task whose provider reports its end records exactly that end |
| TaskProtocolOutcomes.UnendedTaskIsKept | crates/gaugemesh/src/task_proxy.rs:588-700 | a read of a running task whose provider reports no end leaves it to be reconciled if the answer cannot be trusted, stops it if there is none in time or too much output, and else lets it run on |
| TaskProtocolOutcomes.RevivedTaskIsRecorded | crates/gaugemesh/src/task_proxy.rs:640-700 | a report for a route of unknown outcome makes it routed again, and records the end if there is one |
| TaskProtocolSafety.AcknowledgedTaskIsSettled | crates/gaugemesh/src/task_proxy.rs:350-394 | once a received, well-formed upstream id is not in its handler's hand, it is in a durable record of its route or the subject of a cancel request, then and in every later world |
| TaskProtocolLoss.SettledExactly | crates/gaugemesh/src/task_proxy.rs:350-394 | in every world of every execution a received id is durably recorded or the subject of a cancel request if and only if its handler does not have it in hand, that is, has already recorded or cancelled it |
| TaskProtocolLoss.DropDecides | crates/gaugemesh/src/task_proxy.rs:350-394 | after its handler is dropped a received id is settled in every later world if it was not in hand, and in none if it was |
| TaskProtocolWitness.DropCanLoseTask | crates/gaugemesh/src/task_proxy.rs:350-394 | a concrete execution in which a handler is dropped with an id in hand, which is then neither recorded nor cancelled |
| TaskProtocolSafety.RouteHistoryIsOneLifetime | crates/gaugemesh/src/task_proxy.rs:772-826 | across all handlers the committed records of a route up to any of them are exactly one lifetime: a prepared record and accepted transitions, one per version and none missing |
| TaskProtocolSafety.HistoryGrows | crates/gaugemesh/src/task_proxy.rs:719-1005 | committed records, calls and cancel requests are never lost along an execution |
| TaskProtocolWitness.CallIsReachable | crates/gaugemesh/src/task_proxy.rs:208-341 | a concrete submission, prepared, inserted and claimed, is sent upstream in some execution, so the safety results speak of real calls |
| TaskProtocolSafety.CommitKeepsInv | crates/gaugemesh/src/task_proxy.rs:326-341 | deciding to call before the cutoff keeps the at-most-once invariant although the route may have been purged and re-inserted meanwhile |
| TaskProtocolSafety.OneRoutePerSubmission | crates/gaugemesh-core/src/storage.rs:500-594 | two committed records of stored routes of one caller with the same key and deadline belong to the same route |
| JsonPointer.PointerWalksTokens | crates/gaugemesh/src/runs.rs:1016-1032 | evaluating the rendered pointer of any token list walks exactly those tokens (section 4 of RFC 6901) |
| RunPlan.ValidPointerWalks | crates/gaugemesh/src/runs.rs:149-159 | every pointer a plan may use is the rendering of some tokens, and evaluating it walks exactly those |
| JsonPointer.UnescapeUndoesEscape | crates/gaugemesh/src/runs.rs:149-159 | token unescaping inverts token escaping for every string |
| RunPlan.Validate | crates/gaugemesh/src/runs.rs:161-270 | answers the first structural error, or rejects exactly the cyclic graphs, by a sweep that terminates |
| RunPlan.AdmittedExactly | crates/gaugemesh/src/runs.rs:161-270 | a plan is admitted if and only if it keeps every bound of the plan and of each step, its digests are those of its inputs and policies, and no step waits on itself |
| RunPlan.PointerRule | crates/gaugemesh/src/runs.rs:149-159 | a pointer is usable if and only if it is short, absolute, nowhere mentions binding or artifact metadata, and every tilde in it starts an escape |
| RunPlan.IdentifierRule | crates/gaugemesh/src/runs.rs:141-147 | an identifier is exactly 1 to 96 ASCII letters, digits, hyphens, underscores or dots |
| RunPlan.PolicyDigestDeterminesChecks | crates/gaugemesh/src/runs.rs:227-240 | two policies with the same digest have the same checks |
| RunPlan.RankedIsAcyclic | crates/gaugemesh/src/runs.rs:252-264 | a graph whose every dependency falls in some rank has no cycle |
| RunPlan.StuckIsCyclic | crates/gaugemesh/src/runs.rs:252-264 | a nonempty set of steps that all wait on each other contains a cycle, so a sweep without progress proves one |
| RunState.VerifyStepAccepts | crates/gaugemesh/src/runs.rs:1067-1143 | a step is verified if and only if the provider reported success, the artifact is bound to the step's own submission and is the file that was read, it equals any artifact stored before, and every required check passes |
| RunJournal.IntactShows | crates/gaugemesh-core/src/run.rs:58-104 | a record is intact if and only if it has one event per version, numbered in order, each naming the digest before it and sealed by its content, the last sealing the record as it is |
| RunJournal.VerifyIntegrity | crates/gaugemesh-core/src/run.rs:58-81 | the walk over the journal accepts exactly the records whose entries are numbered, chained and sealed |
| RunJournal.AcceptedIsIntact | crates/gaugemesh-core/src/run.rs:127-186 | a new record is accepted if and only if it is within bounds and under its plan's key, and is then intact |
| RunJournal.AdvanceExtends | crates/gaugemesh-core/src/run.rs:197-229 | a save succeeds if and only if the version is current, the plan unchanged and the bounds kept; it adds one event and rewrites none |
| RunJournal.LastDigestDeterminesRecord | crates/gaugemesh-core/src/run.rs:58-104 | two intact records with the same last event digest are the same record with the same history |
| RunTable.RunStore.BeginRun | crates/gaugemesh-core/src/run.rs:127-186 | leaves the table and answers as the transaction does |
| RunTable.BegunOnce | crates/gaugemesh-core/src/run.rs:127-186 | one run per caller and key: the same plan answers the same run, another plan is a conflict, a new one is accepted exactly within bounds, and no other run changes |
| RunTable.RunStore.AdvanceRun | crates/gaugemesh-core/src/run.rs:197-229 | leaves the table and answers as the transaction does |
| RunTable.AdvancedOne | crates/gaugemesh-core/src/run.rs:197-229 | succeeds exactly for the current version of the caller's own run and extends exactly that run's journal by one event |
| RunTable.OperationsOnlyExtend | crates/gaugemesh-core/src/run.rs:127-229 | over any sequence of begins and saves the table stays valid and every run keeps its owner, key and plan and only extends its journal |
| RunTable.EarlierDigestStays | crates/gaugemesh-core/src/run.rs:197-229 | in every later table a run's version has not gone back, and at the same version it is the same record |
| RunDriverSafety.SavedStatesReload | crates/gaugemesh/src/runs.rs:385-623 | every state any driver ever saved passes the reload checks and has at most maxConcurrency steps submitting or routed |
| RunDriverSafety.HistoryOnlyMovesForward | crates/gaugemesh/src/runs.rs:395-576 | between any two saved versions Failed, Cancelled and Skipped are final and arguments, submission, task id and artifact are written once |
| RunDriverSafety.SubmissionNeedsDurableIntent | crates/gaugemesh/src/runs.rs:506-600 | every call into the task route has its intent, arguments and submission in a saved state; new work only with all dependencies verified and re-read in that sweep, nothing failed, unknown or cancelled, and no stop flag in that state |
| RunDriverSafety.DispatchedArgumentsComeFromPlan | crates/gaugemesh/src/runs.rs:643-675 | the arguments of every call are the one set of sample arguments the plan alone determines |
| RunDriverSafety.ResolvedInputsAreSamples | crates/gaugemesh/src/runs.rs:1016-1032 | for every authorised plan and every saved state of every execution, a step whose dependencies are verified resolves, and to the one set of sample arguments the plan determines |
| RunDriverSafety.SampleIsUnique | crates/gaugemesh/src/runs.rs:643-675 | a plan determines at most one set of sample arguments for a step |
| RunDriverSafety.OutcomesWereReported | crates/gaugemesh/src/runs.rs:457-503 | every saved Cancelled or Verified step carries the provider's own report of that status, and a verified one an artifact that passed its required checks |
| RunDriverOutcomes.ReportIsRecorded | crates/gaugemesh/src/runs.rs:457-503 | a report that a sweep reads becomes the saved state of its step: unknown while the route is being reconciled, failed or cancelled as reported, and on completion verified exactly when the artifact is proven and passes, else failed; any other report changes nothing |
| RunDriverOutcomes.UnreadStatusIsRecorded | crates/gaugemesh/src/runs.rs:446-454 | when the status of a task cannot be read its step is saved as unknown, with the error |
| RunDriverOutcomes.AnswerIsRecorded | crates/gaugemesh/src/runs.rs:604-623 | the answer to a submission is saved: routed or unknown with the task id, and unknown when the submission may or may not have arrived |
| RunDriverOutcomes.LostArtifactIsRecorded | crates/gaugemesh/src/runs.rs:399-411 | a verified step whose artifact no longer verifies is saved as failed, and only one that still does counts as read again |
| RunDriverOutcomes.IntentIsRecorded | crates/gaugemesh/src/runs.rs:517-573 | a ready step with a free slot, authority and acceptable inputs is saved as submitting, with the arguments and the submission, before anything is sent |
| RunDriverOutcomes.CancelIsRecorded | crates/gaugemesh/src/runs.rs:429-451 | a watched step of a stopped run is asked to cancel: the intent is saved first, then whether the request was acknowledged |
| RunDriverOutcomes.StoppedRunSkipsPending | crates/gaugemesh/src/runs.rs:505-521 | a sweep that finds the run stopped skips exactly the steps not yet sent |
| RunDriverOutcomes.DeadlineIsRecorded | crates/gaugemesh/src/runs.rs:395-398 | a sweep at or after the plan's deadline saves that it was observed |
| RunDriverOutcomes.SweepVisitsEveryStep | crates/gaugemesh/src/runs.rs:399-545 | a sweep reads every verified step again, recovers every open submission, looks at every watched step, and offers every ready step for dispatch while slots are free |
| RunDriverOutcomes.UnsentStepIsBlank | crates/gaugemesh/src/runs.rs:505-521 | a pending or skipped step carries no arguments, submission, task, result or artifact in any saved state |
| RunDriverOutcomes.FailureEndsNewWork | crates/gaugemesh/src/runs.rs:580-600 | from a saved version with a failed or cancelled step on, a driver that has it makes no call that could start new work |
| RunDriverWitness.OnlyPlanIsValid | crates/gaugemesh/src/runs.rs:161-270 | admission accepts a concrete one-step plan |
| RunDriverWitness.CancelledRunStillSends | crates/gaugemesh/src/runs.rs:353-623 | a concrete execution sends new work while the stored run is already cancelled |
| RunDriverSafety.CancelCanOvertakeSend | crates/gaugemesh/src/runs.rs:353-364 | a cancel saved between intent and call does not stop the call from going out as new work |
| RunDriverSafety.SendMeetsStopExactly | crates/gaugemesh/src/runs.rs:580-600 | when new work is about to go out the stored run carries a stop flag if and only if the journal has an entry that raised it since the driver's version, and is stopped if and only if there is such an entry or a step that did not block in that version has failed, been cancelled or become unknown |
| RunDriverSafety.CurrentDriverSendsUnstopped | crates/gaugemesh/src/runs.rs:580-600 | in particular a driver whose version is current sends new work only while nothing is stopped |
| RunDriverSafety.OvertakenDriverStops | crates/gaugemesh/src/runs.rs:378-623 | from the moment it is overtaken, wherever it is in its sweep, a driver never saves again and makes at most one more call, and none once it is past sending |
| RunDriverSafety.JournalOnlyExtends | crates/gaugemesh-core/src/run.rs:197-229 | along every execution of competing drivers the journal and the saved states are only ever extended |
| RunSubmission.OneSubmissionPerStep | crates/gaugemesh/src/runs.rs:551-604 | all calls into the task route for one step of a run carry the same submission and the same arguments, whichever drivers made them and however often |
| RunSubmission.StepReachesProviderOnce | crates/gaugemesh/src/runs.rs:579-604 | over every execution of a run and every execution of the gateways that serve it, a step makes at most one upstream call for its caller, however submissions are read |
| RunSubmission.DispatchedIsBounded | crates/gaugemesh/src/runs.rs:552-566 | what an admitted plan dispatches keeps every limit of the task route and has a deadline within the plan's deadline and the step's runtime |
| RunSubmission.DispatchedIsAcceptable | crates/gaugemesh/src/task_proxy.rs:85-143 | the task route accepts a dispatched submission at any time before its deadline, if its identifiers and digests fit the call |
| RunSubmission.VerifiedSubmissionIsOwn | crates/gaugemesh/src/runs.rs:1067-1143 | every name in the submission of a verified step is the step's own, and the provider repeats that submission and its digest |
| RunSubmission.ForeignResultIsRefused | crates/gaugemesh/src/runs.rs:1067-1143 | a step is never verified by a result for another step, run, artifact root, policy, capability, task or input |
| RunSubmission.HonestResultIsVerified | crates/gaugemesh/src/runs.rs:1067-1143 | an honest result for the dispatched submission, with the artifact in place, verifies the step exactly when the artifact passes the required checks |
| Conservation.ValidDelegationExtension | crates/gaugemesh-core/src/invariant.rs:339-366 | accepts exactly the extensions that are connected, never widen scope, never return to a principal, and end at the target's principal and scope |
| Conservation.Conserve | crates/gaugemesh-core/src/invariant.rs:104-337 | passes exactly when the relation holds; reports exactly the violations that hold, each with its code; lists an invariant as preserved exactly when its field is unchanged, each at most once, and all 23 exactly once in a passing report |
| Conservation.PassesIffConserves | crates/gaugemesh-core/src/invariant.rs:104-337 | the 23 comparisons and two extra checks together say no more and no less than the readable relation |
| Conservation.ExtensionChangesPrincipal | crates/gaugemesh-core/src/invariant.rs:345-365 | a valid extension always adds a link and always ends at a different principal |
| Conservation.ConservesReflexive | crates/gaugemesh-core/src/invariant.rs:212-226 | a context passes against itself if and only if its observations are distinct and its parent is not its root |
| Conservation.ExtensionExactly | crates/gaugemesh-core/src/invariant.rs:339-366 | an extension is valid if and only if each new link goes on from the one before it, to somebody new and with no wider scope, and the last reaches the target's principal |
| Conservation.ExtensionsCompose | crates/gaugemesh-core/src/invariant.rs:339-366 | two valid delegation walks end to end are one valid walk |
| Conservation.ConservesTransitive | crates/gaugemesh-core/src/invariant.rs:104-337 | two passing hops make a passing hop |
| Conservation.ChainConserves | crates/gaugemesh-core/src/invariant.rs:104-337 | any chain of adapters whose every hop passes also passes end to end |
| Conservation.ClassificationLaw | crates/gaugemesh-core/src/invariant.rs:318-326 | a well-formed context with nothing but its classification changed passes for exactly the pairs that do not downgrade it |
| Conservation.ChainKeepsClassification | crates/gaugemesh-core/src/context.rs:73-78 | along any chain of passing hops restricted stays restricted, confidential never becomes internal, and nothing else becomes public |
| Budget.DebitContext | crates/gaugemesh-core/src/budget.rs:25-70 | refuses with the first budget that does not cover the debit, else returns the reduced context with the debit and one record per retry |
| Budget.DebitConserves | crates/gaugemesh-core/src/budget.rs:25-70 | a successful debit passes conservation if and only if the context is well formed |
| Budget.DebitChainConserves | crates/gaugemesh-core/src/budget.rs:25-70 | any chain of successful debits passes conservation from first to last |
| Budget.DebitsAddUp | crates/gaugemesh-core/src/budget.rs:41-68 | what remains plus what was spent is what there was, and retry budget plus recorded attempts is constant |
| Budget.DebitsFailOnlyWhenExhausted | crates/gaugemesh-core/src/budget.rs:25-52 | a chain succeeds if and only if its sums fit all four budgets |
| DeficitRoundRobin.Scheduler.Push | crates/gaugemesh-core/src/runtime.rs:44-75 | accepts or refuses as specified, keeping the queue invariants and the item count |
| DeficitRoundRobin.PushAccepted | crates/gaugemesh-core/src/runtime.rs:44-75 | a push is accepted if and only if the tenant is named, the cost at most 10,000 and there is room; it joins the end of its tenant's queue and nothing else moves |
| DeficitRoundRobin.Scheduler.Pop | crates/gaugemesh-core/src/runtime.rs:77-94 | rotates and serves as specified, keeping the queue invariants and the item count |
| DeficitRoundRobin.RunKeepsOk | crates/gaugemesh-core/src/runtime.rs:44-94 | over any run no stored queue is empty, tenants are distinct and bounded, and every deficit is below its front cost |
| DeficitRoundRobin.ItemsAreConservedInOrder | crates/gaugemesh-core/src/runtime.rs:44-102 | over any run, queued before plus accepted equals served plus queued after, per tenant and in order |
| DeficitRoundRobin.FruitlessPop | crates/gaugemesh-core/src/runtime.rs:77-94 | a pop that serves nothing leaves the rotation unchanged with every deficit one higher |
| DeficitRoundRobin.ServiceUsesExactCredit | crates/gaugemesh-core/src/runtime.rs:80-91 | a tenant that was served and still has work is left with deficit zero |
| DeficitRoundRobin.FrontItemIsServed | crates/gaugemesh-core/src/runtime.rs:44-94 | within (cost - deficit) x max tenants pops, whatever is pushed, the front item is served, and before any other item of that tenant |
| DeficitRoundRobin.ServedCostsBalance | crates/gaugemesh-core/src/runtime.rs:77-94 | while two tenants stay backlogged the difference in cost served is exactly the change in their rotation order and deficits |
| DeficitRoundRobin.BackloggedTenantsShareFairly | crates/gaugemesh-core/src/runtime.rs:44-94 | while two tenants stay backlogged their served costs differ by less than 20,000 |
| Admission.TenantLimitsHold | crates/gaugemesh/src/admission.rs:62-111 | in every execution a tenant's permits and queue places, over all incarnations of its record, stay within their limits |
| Admission.GlobalLimitsHold | crates/gaugemesh/src/admission.rs:62-111 | at most 1,024 tenants are tracked and at most 256 admitted requests are active |
| Admission.ExecutionKeepsInv | crates/gaugemesh/src/admission.rs:62-111 | semaphores and counters account for exactly what requests hold, and only tracked records are in use |
| Admission.EvictKeepsInv | crates/gaugemesh/src/admission.rs:66-70 | a record found unreferenced, then unqueued, then fully available can be forgotten although other requests ran between the reads |
| AdmissionProgress.AcquireDecides | crates/gaugemesh/src/admission.rs:62-111 | in every execution a request with a free permit or queue place gets it, a waiter is served when a permit is free, and each refusal means that the limit in question is reached |
| AdmissionProgress.IdleIsForgotten | crates/gaugemesh/src/admission.rs:66-70 | a record that nobody uses passes each of the three reads and is forgotten by the last |
| RouteDecision.Total | crates/gaugemesh-core/src/route.rs:88-107 | an accepted total is at most 700,000,000 and fits 64 bits |
| RouteDecision.Decide | crates/gaugemesh-core/src/route.rs:281-415 | the sorting, normalizing and scoring loops compute the specified decision or the first failing check |
| RouteDecision.DecisionIgnoresOrder | crates/gaugemesh-core/src/route.rs:281-415 | the same result or error for every order of candidates and every order and repetition of reasons for denial |
| RouteDecision.DecisionFixesCandidates | crates/gaugemesh-core/src/route.rs:281-415 | when one list is decided, another gets the same decision if and only if it holds the same candidates in any order, with the reasons for denial in any order and repetition |
| RouteDecision.AllowedReasonsAreKept | crates/gaugemesh-core/src/route.rs:315-332 | in any list that is decided, changing the reasons an allowed candidate carries changes the decision |
| RouteDecision.LeastCandidateIsSelected | crates/gaugemesh-core/src/route.rs:351-415 | denies exactly when nothing is allowed, else selects the least (score, route id) among the allowed candidates, with score at most 700,000,000 |
| RouteScores.DecidesExactly | crates/gaugemesh-core/src/route.rs:281-391 | there is a decision if and only if weights, losses and allowed metrics are at most 10,000, ids are present and distinct, and every denial gives reasons, none blank |
| RouteScores.EveryCandidateIsExplained | crates/gaugemesh-core/src/route.rs:351-391 | every candidate is explained: an allowed one by seven terms, each the weight of a name times the metric of that name, a denied one by exactly its reasons |
| RouteScores.MetricMovesScore | crates/gaugemesh-core/src/route.rs:364-372 | raising one metric raises the score by exactly its own weight times the rise |
| RouteScores.SelectedHasLeastSum | crates/gaugemesh-core/src/route.rs:364-397 | the selected route's score is its weighted sum, and no allowed candidate has a lower one, or an equal one and an earlier id |
| RouteScores.BetterStaysSelected | crates/gaugemesh-core/src/route.rs:281-415 | the selected route stays selected when any of its metrics fall |
| RouteDecision.VerifyIntegrity | crates/gaugemesh-core/src/route.rs:180-246 | accepts exactly the decisions that are sealed, well explained and ranked first |
| RouteDecision.ValidateExplanations | crates/gaugemesh-core/src/route.rs:433-481 | accepts exactly explanations in strict id order whose fields fit their verdict |
| RouteDecision.DecisionsAreAccepted | crates/gaugemesh-core/src/route.rs:180-415 | every decision of the planner passes the check |
| RouteDecision.AcceptedSelectionIsLeast | crates/gaugemesh-core/src/route.rs:180-246 | any accepted selection, whoever made it, names the least allowed candidate, and ids are distinct |
| Section.ResidualRises | examples/concrete_review/mechanics.py:178-195 | the force residual is strictly increasing in depth, at least as fast as the concrete compression |
| Section.MomentFalls | examples/concrete_review/mechanics.py:178-195 | the moment never rises with depth and never falls faster than height times the residual rises |
| Section.ErrorsFollowResidual | examples/concrete_review/mechanics.py:178-195 | between any two depths, depth, compression and moment differ by at most what the residual difference allows |
| Section.RootIsUnique | examples/concrete_review/mechanics.py:178-195 | at most one depth is in equilibrium |
| Section.Solve | examples/concrete_review/mechanics.py:198-217 | stops at the first iteration meeting both tolerances with the response there, refuses the two out-of-scope cases, and otherwise returns the full trace of a search that met neither |
| Section.BracketHalves | examples/concrete_review/mechanics.py:198-217 | after i iterations the bracket has width height over 2 to the i and the residual changes sign across it |
| Section.BracketHoldsRoot | examples/concrete_review/mechanics.py:198-217 | every bracket holds any exact equilibrium |
| Section.BisectionRate | examples/concrete_review/mechanics.py:198-217 | after i iterations the middle is within height over 2 to the i + 1 of the exact equilibrium |
| SectionConvergence.ResidualIsLipschitz | examples/concrete_review/mechanics.py:178-195 | between depths of at least m the residual rises no faster than a rate given by the stiffness, the layers and m |
| SectionConvergence.BisectionConverges | examples/concrete_review/mechanics.py:198-217 | for every section that is not refused, from some iteration on every bracket meets both tolerances |
| SectionConvergence.EnoughIterationsStop | examples/concrete_review/mechanics.py:198-217 | the search stops within the iterations allowed whenever 2 to the last of them is at least height over an explicit fineness, for any depth at which the residual is not positive |
| SectionExistence.EquilibriumExists | examples/concrete_review/mechanics.py:198-217 | whenever the residual at full height is positive, which is all the solver asks, an equilibrium exists strictly inside the section |
| SectionExistence.ConvergedErrorBounds | examples/concrete_review/mechanics.py:205-209 | the exact equilibrium exists, is the only one, and a converged answer is within half the depth tolerance, the force tolerance, and height times the force tolerance of it |
| SectionOracle.Examine | examples/concrete_review/oracle.py:33-52 | an assignment of yield states becomes a candidate exactly when every layer admits the depth |
| SectionOracle.SolveActiveStates | examples/concrete_review/oracle.py:11-65 | answers the first candidate if and only if there is one and all others are within the same-root distance of it |
| SectionOracle.AssignmentsAreAll | examples/concrete_review/oracle.py:19 | the enumeration visits exactly the assignments of the right length |
| SectionAgreement.ProposedIsRoot | examples/concrete_review/oracle.py:23-30 | both root formulas and the fully yielded case give a positive root of the quadratic |
| SectionAgreement.BalancedIffRoot | examples/concrete_review/oracle.py:20-30 | a depth solves an assignment's quadratic exactly when the forces of that assignment balance the concrete |
| SectionAgreement.MomentFormulasAgree | examples/concrete_review/oracle.py:47-49 | the two moment formulas are equal at every balanced depth |
| SectionAgreement.EquilibriumIsCandidate | examples/concrete_review/oracle.py:19-52 | an exact equilibrium inside the section is always found as a candidate |
| SectionAgreement.ExactCandidatesShareOneRoot | examples/concrete_review/oracle.py:31-56 | all exactly admissible assignments share one depth, the only equilibrium, which every bisection bracket holds, and report its moment |
| SectionAgreement.CandidateIsNearlyBalanced | examples/concrete_review/oracle.py:36-52 | a candidate admitted by the boundary tolerance is balanced, and its moment right, up to the summed slack |
| SectionAgreement.CandidatesAreClose | examples/concrete_review/oracle.py:53-56 | the compressions of any two candidates differ by at most twice the summed slack |
| SectionExistence.OracleHasCandidate | examples/concrete_review/oracle.py:19-56 | the oracle finds a candidate for every section the solver does not refuse |
| SectionExistence.OracleSettles | examples/concrete_review/oracle.py:53-56 | the oracle answers for every section the solver does not refuse whose slack cannot spread candidates beyond the same-root distance |
| SectionSpread.OneLayerSettles | examples/concrete_review/oracle.py:11-65 | with one layer the oracle answers for a section the solver does not refuse if and only if a rational condition on the inputs does not put its elastic and its yielded balance, both admitted, too far apart; otherwise it has exactly those two candidates |
| SectionSpread.CandidatesCanSpread | examples/concrete_review/oracle.py:36-56 | a section with inputs of at most 15 significant digits, in the declared ranges and accepted by the solver, for which the oracle has exactly two candidates and gives no answer, whatever roots it is given |
| SectionAudit.VerifyCalculation | examples/concrete_review/oracle.py:68-142 | the loops over layers and trace decide exactly the stated checks |
| SectionAudit.VerifyRefusal | examples/concrete_review/oracle.py:157-193 | accepts exactly full-length replayable traces none of whose items met both tolerances |
| SectionAudit.ConvergedSolveIsVerified | examples/concrete_review/oracle.py:79-142 | for inputs in the declared ranges the oracle finds a candidate, and a converged solve passes every check against whichever candidates it found |
| SectionAudit.NonConvergenceIsAccepted | examples/concrete_review/oracle.py:157-193 | a refusal for lack of convergence always passes its audit |
| SectionSoundness.EquilibriumAnywhere | examples/concrete_review/mechanics.py:178-195 | every section has exactly one depth in equilibrium, inside it or below |
| SectionSoundness.ReplayIsBisection | examples/concrete_review/oracle.py:112-137 | the replay accepts exactly the traces that bisect the section by the signs they report, with the residual of each depth |
| SectionSoundness.RefusalIsBisection | examples/concrete_review/oracle.py:157-193 | an accepted refusal is exactly a full-length bisection none of whose items met both tolerances |
| SectionSoundness.VerifiedIsSound | examples/concrete_review/oracle.py:68-142 | whatever calculation passes against any candidate, its depth, compression and moment are within explicit bounds of the one exact equilibrium, its steel results are those of the layers with their signs and states, each force is close to the one at the equilibrium, and its trace is a bisection that ends there |
| SectionAudit.DefiniteVerdictIsExact | examples/concrete_review/oracle.py:145-154 | for ratio limits from 0 to 1, a verdict other than indeterminate is the verdict of the exact equilibrium, which exists and is the only one |

## Left out

- SectionExistence.OracleSettles: a sufficient condition only. With one layer the exact condition is `SectionSpread.OneLayerSettles`; with two, candidates at two irrational roots can meet.
- SectionExistence.EquilibriumExists: takes the square roots of the oracle's discriminants as given, and exact.
- SectionSpread.CandidatesCanSpread: over exact reals; the oracle's own 60-digit decimal rounding is not modelled.
- Section.Solve: the tests for stalled floating-point progress never fire over exact reals and are absent from it.
- RunJournal.Append: the encoded length of the data is an input.
- The helpers that retry a compare-and-set four times may commit on the fourth attempt and still report failure. The model does the same, and no result claims that a reported failure changed nothing.
- The per-route lock and the driver lock are not modelled. The results hold for every interleaving, with or without them.
- Tampering with stored rows and the integrity seal of a route record.
- Cancel requests for upstream ids that are not well formed; they are sent but not recorded in the model's history.
- Public task ids are generated fresh; a collision of random identifiers is not modelled. A run id that collides is refused, as by the table's primary key.
- Leases, schema validation of arguments and artifact file access, beyond whether they succeed and what they return.
- SHA-256, canonical JSON, serialization, SQLite itself, and the outbound runtime.
- Rounding in floating-point and decimal arithmetic; unit conversion, normalization and reporting in the concrete-section example.
- The descriptive text fields of violations, diagnostics shown to users, and run summaries.
- Circuit breaker, process pool, policy evaluation, lease and causal modules.
- HTTP, authentication, TLS, approval webhooks, registry client, command line, configuration and conformance fixtures.
