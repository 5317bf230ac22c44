# Ownership protocols of Alva, verified in Dafny

Alva is a desktop and command-line agent host written in Go. Its difficult logic
sits in small hand-written protocols built from mutexes, channels and counters:
who may work in a directory, when a failed engine may be replaced by another,
whether a diagnostic click is performed twice, what a queue, a stream, a ring or
a journal loses. This project models those protocols and proves what they are
for. It needs no library; `dafny verify dfyconfig.toml` checks all of it.

How the models are built:

- Code that updates an object becomes a class whose methods tie the new state to
  a function of the old one; the theorems are about those functions. Code that
  only computes becomes functions.
- Concurrency is a step machine. One step is one critical section, one atomic
  access or one callback; any step that is possible may come next. Contexts,
  deadlines, stores, engines, sessions and connections are parameters or steps
  that may succeed or fail at any point.
- A theorem over runs quantifies over every finite sequence of steps, or, for
  liveness, over every infinite run that is fair in the stated sense.

The modules, by component:

| modules | what they cover |
|---|---|
| Order, Splitting, Utf8, Wrappers | Go's string order and sort, `strings.Split`, UTF-8 by section 4 of RFC 3629 |
| WorkspacePaths, WorkspaceRegistry, WorkspaceAdmission, WorkspaceExclusion, WorkspaceLiveness | the fair hierarchical lock on workspaces: exclusion, when a request is admitted, arrival order, no lost wakeup, every waiter admitted |
| WorkspaceActions, WorkspaceDeadlock, WorkspaceProgress | actions on two workspaces, exactly which sets of workspaces are free of deadlock, and that no owner starves in those |
| WorkspaceRetention | leases a running attempt may extend |
| EngineContract, EngineTrace, HubAttempt, HubTrace, HubRecord | one attempt: event contract and its language, durable record, verdict |
| HubFallback, HubSafety, HubEffects | one Turn: up to eight attempts, exactly when another engine is tried, and which |
| DebugView, DebugFate, DebugServer, DebugAnswers | diagnostic UI actions that happen at most once, and what their callers are told |
| PendingMessages, PendingHistory, PendingRetraction, PendingSession | the steering queue whose commit drops its lock, what its callers are answered, and what joins for every answer of the session |
| EventParser, EventStream | the event-stream printer against a standard consumer (sections 9.2.5 and 9.2.6 of the WHATWG HTML Living Standard) |
| LogStore | the log ring and its pager against an unbounded log |
| WasmJournal | line framing independent of chunking, and UTF-8 segmentation |
| BundleDigest, BundleCopy, BundleAccept | uniquely decodable hash input, and the bounded tree walk |
| ShellRecovery, ShellLease | crash recovery of shell jobs, and the fence of attempt leases |
| GatewayDrain | drain counting |
| CallMatching, ReferenceProjection | which historical calls may be rewritten, and what the rewriting keeps |
| ContextTail | the bounded working view of a conversation |

Findings about the code that a reader may not expect:

- Sorted two-path acquisition (apps/hub/workspace_action.go:22-62) is not free of
  deadlock for every set of workspaces. Byte order puts "/a-b" between "/a" and
  "/a/c", so {/a, /a-b} and {/a-b, /a/c} can block each other; and a queued
  request for a common ancestor blocks an action between its two acquisitions.
  `WorkspaceDeadlock.NeverStuckExactly` gives the exact condition on the
  requested workspaces, which a caller can check.
- The segment loop of cmd/alva/wasm.go:482-493 would store empty parts for ever on
  a frame with a window of 1 MiB without a rune start (`StallsExactly`). A frame
  is marshalled JSON, which is UTF-8, and for UTF-8 it always progresses.
- The second locked part of `endRun` (extension/shell/plugin.go:208-213) does not
  look at the generation. It is harmless because the first part has cancelled the
  owner, on which no run starts again (`ShellLease.StaleIsHarmless`).
- After an append, `BeforeModel` (harness/pending.go:177-188) compares kinds,
  identities and count of the receipt, not texts, and the durable session returns
  redacted copies (platform/storage/session/records.go:57-62). So the text
  "password=x" is accepted and "[REDACTED]" joins the request
  (`PendingSession.RedactedTextJoins`). The batch joins as enqueued exactly when
  the session returns each of its texts unchanged (`JoinsTheBatch`), which for the
  durable session can be checked before the append (`DurableSessionJoins`).
- The clause of the event-stream comment about line endings is exact:
  `NormalisedLines` shows that the two replacements keep the standard's lines.

Parameters with a stated assumption: a range over a Go map visits its keys in some
order (`HubAttempt.IterationOrder`, `HubFallback.MapOrders`); the store begins a
fallback for the same Turn, on an approved target with the requested route
(`HubFallback.FaithfulStore`, from apps/hub/sqlite/store.go:620-677); liveness
assumes that holders release and that a woken waiter takes the lock again
(`WorkspaceLiveness.HoldersRelease`, `WokenWaitersRun`), and for owners of several
workspaces that each goes on when it can (`WorkspaceProgress.Fair`); random
identities are fresh, and modelled by serial numbers or by the guard
`ShellRecovery.Working`; the names in a directory differ where the order of a
listing is claimed (`BundleCopy.WellFormed`); run identities passed to `OnRunEnd`
are not empty (`ShellLease.Named`).

## Model

| member | source | states |
|---|---|---|
| WorkspacePaths.CanonicalRender | apps/hub/workspace.go:58 | the text of a canonical path determines its components |
| WorkspacePaths.RenderCanonical | apps/hub/workspace_action.go:25-29 | a text passes the canonicality check only if it is the text of the components read from it |
| WorkspacePaths.RelLocal | apps/hub/workspace.go:28-35 | a relative path is "." or local exactly when the base contains the target |
| WorkspacePaths.OverlapIsContainment | apps/hub/workspace.go:28-35 | two workspaces overlap exactly when one contains the other |
| WorkspacePaths.AncestorSortsFirst | apps/hub/workspace_action.go:22-24 | in byte order a workspace never sorts after what it contains |
| WorkspaceRegistry.WorkspaceRegistry.Remove | apps/hub/workspace.go:40-47 | takes out the first waiter with the id and leaves the order of the others |
| WorkspaceRegistry.WorkspaceRegistry.Allowed | apps/hub/workspace.go:67-84 | the two scans answer yes exactly when no active lease and no earlier waiter conflicts |
| WorkspaceRegistry.WorkspaceRegistry.Try | apps/hub/workspace.go:60-105 | one locked pass: cancelled, admitted without waking anybody, or asleep on the current channel |
| WorkspaceRegistry.WorkspaceRegistry.Acquire | apps/hub/workspace.go:48-105 | arrival: rejects relative paths and a 129th waiter, otherwise queues and makes the first pass |
| WorkspaceRegistry.WorkspaceRegistry.Release | apps/hub/workspace.go:90-102 | releases the lease once, waking everybody; a repeated call changes nothing |
| WorkspaceRegistry.WorkspaceRegistry.Notify | apps/hub/workspace.go:39 | closing the channel starts a new generation |
| WorkspaceRegistry.ConflictMeans | apps/hub/workspace.go:36-38 | two leases conflict exactly when one is exclusive and one workspace contains the other |
| WorkspaceAdmission.StepsAreCriticalSections | apps/hub/workspace.go:48-112 | the steps of the machine are the critical sections of the registry object, for arrivals, wakeups, releases and cancellations |
| WorkspaceAdmission.AheadIsEarlier | apps/hub/workspace.go:75-84 | since ids increase, the queue scan looks at exactly the conflicting requests that arrived earlier |
| WorkspaceAdmission.AdmissionUnblocksNobody | apps/hub/workspace.go:85-88 | moving a waiter to the active leases makes no other waiter admissible, which is why admission may wake nobody |
| WorkspaceAdmission.PassKeepsWakeup | apps/hub/workspace.go:60-111 | no pass of the loop leaves another waiter asleep on the current channel while admissible |
| WorkspaceAdmission.StepKeepsInv | apps/hub/workspace.go:39-112 | every step keeps queue order, mutual exclusion, the record of fates and no lost wakeup |
| WorkspaceAdmission.ReachableInv | apps/hub/workspace.go:39-112 | in every reachable state active leases are pairwise compatible and no waiter sleeps on the current channel while admissible |
| WorkspaceAdmission.AdmittedInArrivalOrder | apps/hub/workspace.go:67-88 | over whole runs, whoever holds a lease has no earlier conflicting request still open |
| WorkspaceAdmission.GoneForever | apps/hub/workspace.go:61-66 | a released or cancelled request never comes back |
| WorkspaceExclusion.OverlappingHoldersShare | apps/hub/workspace.go:67-88 | in every reachable state, two holders of one workspace, or of a workspace and one inside it, both share it |
| WorkspaceExclusion.ArrivalIsAnswered | apps/hub/workspace.go:48-105 | a request is refused exactly without an absolute path or with 128 waiting; else it is admitted at once exactly when its context lives and every holder and waiter of a workspace containing it or inside it only shares, as it does |
| WorkspaceExclusion.WakeupIsAnswered | apps/hub/workspace.go:60-111 | a woken request is admitted exactly when it was not cancelled and every holder and every earlier waiter of such a workspace only shares, as it does |
| WorkspaceExclusion.SleeperIsBlocked | apps/hub/workspace.go:67-111 | whoever sleeps on the current channel has a holder or an earlier waiter in its way, of a workspace containing its own or inside it, that one of both wants exclusively |
| WorkspaceExclusion.EarlierIsGone | apps/hub/workspace.go:75-88 | while somebody holds a lease, no earlier request that excludes it is waiting or holding |
| WorkspaceLiveness.StepShrinks | apps/hub/workspace.go:48-112 | while a request waits, no step of anybody increases its rank |
| WorkspaceLiveness.ResumeLeaves | apps/hub/workspace.go:60-103 | an admissible waiter that takes the lock leaves the queue, admitted unless cancelled |
| WorkspaceLiveness.EventuallyLeaves | apps/hub/workspace.go:48-112 | with woken waiters that take the lock, a waiter leaves the queue if the holders in its zone release, a zone being any part of the workspaces closed under the conflicts of waiters |
| WorkspaceLiveness.EveryWaiterGetsIn | apps/hub/workspace.go:48-112 | under the same fairness every waiter that is not cancelled is admitted, on every infinite run |
| WorkspaceActions.ReadAll | apps/hub/workspace_action.go:25-29 | rejects the request if any path is not a clean absolute path |
| WorkspaceActions.Filter | apps/hub/workspace_action.go:30-37 | drops a path that overlaps the last one kept |
| WorkspaceActions.FilteredIsPlan | apps/hub/workspace_action.go:30-37 | for one or two sorted paths the result is pairwise disjoint, keeps only requested paths and covers every requested one |
| WorkspaceActions.ThreePathsWouldOverlap | apps/hub/workspace_action.go:19-37 | the limit of two matters: with three paths comparing with the last one kept can leave two that overlap |
| WorkspaceActions.Plan | apps/hub/workspace_action.go:18-42 | normalisation as a whole: rejected exactly when the count or a path is bad, otherwise sorted, disjoint, requested and covering |
| WorkspaceDeadlock.MoveKeeps | apps/hub/workspace_action.go:43-66 | every move of attempts and two-path actions over one registry keeps the ownership of leases and requests |
| WorkspaceDeadlock.GoodUniverseNeverStuck | apps/hub/workspace_action.go:56-62 | sorted acquisition leaves no stuck state when no workspace contains two disjoint ones and nothing disjoint sorts between a workspace and its content |
| WorkspaceDeadlock.ForkGetsStuck | apps/hub/workspace_action.go:56-62 | a queued request for a common ancestor blocks an action between its two acquisitions: a reachable stuck state for every such choice of workspaces |
| WorkspaceDeadlock.InterruptionGetsStuck | apps/hub/workspace_action.go:22-62 | two actions in sorted order can each hold what the other waits for, for every disjoint workspace that sorts between two that overlap |
| WorkspaceDeadlock.NeverStuckExactly | apps/hub/workspace_action.go:22-62 | the sets of workspaces free of deadlock are exactly the ones meeting both conditions |
| WorkspaceDeadlock.PairwiseDisjointNeverStuck | apps/hub/workspace_action.go:22-62 | in particular, pairwise equal or disjoint workspaces never deadlock |
| WorkspaceDeadlock.HyphenDeadlock | apps/hub/workspace_action.go:22-24 | byte order is not component order: {/a, /a-b} against {/a-b, /a/c} reaches a deadlock |
| WorkspaceProgress.RegistryRunIsRun | apps/hub/workspace_action.go:43-66 | what owners do over an infinite run is an infinite run of the registry |
| WorkspaceProgress.WokenWaitersOfRun | apps/hub/workspace_action.go:56-62 | owners that take the lock when woken give the fairness the registry needs |
| WorkspaceProgress.LaterSame | apps/hub/workspace_action.go:22-24 | in a set free of deadlock, overlapping workspaces have the same disjoint workspaces after them in byte order |
| WorkspaceProgress.ZoneClosed | apps/hub/workspace.go:67-84 | in such a set, a waiter and all it may have to wait for stay within the workspaces that overlap it |
| WorkspaceProgress.PendingDecided | apps/hub/workspace.go:60-66 | a pending request that leaves the queue is either granted to its owner or was cancelled |
| WorkspaceProgress.Releases | apps/hub/workspace_action.go:56-66 | every holder releases, also one that holds its first workspace while it waits for its second |
| WorkspaceProgress.Leaves | apps/hub/workspace_action.go:56-62 | every pending request of an owner leaves the queue |
| WorkspaceProgress.EveryOwnerGetsItsPlan | apps/hub/workspace_action.go:43-66 | no starvation: in a set of workspaces free of deadlock, on every fair infinite run, every owner that begins obtains its whole plan unless it is itself cancelled or refused for the limit of 128 waiters; nothing is assumed of holders that still wait |
| WorkspaceRetention.Retainable.CloseAdmission | apps/hub/workspace.go:131 | the first section of seal |
| WorkspaceRetention.Retainable.DropOne | apps/hub/workspace.go:121-126 | drops one reference and reports the last |
| WorkspaceRetention.Retainable.Retain | apps/hub/workspace.go:132-142 | retains while open and fewer than 64 were retained |
| WorkspaceRetention.EventKeepsInv | apps/hub/workspace.go:118-145 | under any interleaving of sections the count is the number of holders |
| WorkspaceRetention.ReleasedExactlyOnce | apps/hub/workspace.go:118-145 | the underlying release is called at most once, exactly when the lease is sealed and no handle is left; nothing is retained after the seal or beyond 64 |
| WorkspaceRetention.HeldWhileOutstanding | apps/hub/workspace.go:114-145 | together with the registry: the lease stays active for the unsealed attempt and for every outstanding handle, and is gone once release was called |
| WorkspaceRetention.RetainsExactly | apps/hub/workspace.go:132-142 | a retain succeeds exactly before the seal and below 64 of them |
| EngineContract.SupportsLoop | apps/hub/runtime.go:286-318 | yes exactly when every required name is known and offered |
| EngineTrace.AcceptIsLaw | integration/engine/contract.go:159-244 | one event is accepted exactly when it is lawful after the whole stream before it, of which the contract keeps a few fields only |
| EngineTrace.AcceptsExactly | integration/engine/contract.go:159-244 | the language of the contract: a stream is accepted exactly when in it nothing follows the completion and only that a fatal error, identities never change, a session starts once, tools open once and end open, texts and inputs are bounded, and a completion leaves no tool open and claims no success after a fatal error |
| HubAttempt.CloseAllStep | apps/hub/runtime.go:338-350 | the clean-up loop ends each open tool once, whatever the order of the map |
| HubAttempt.AttemptStream.Write | apps/hub/runtime.go:352-362 | validates, then records, then publishes; a failed write is remembered |
| HubAttempt.AttemptStream.CloseTools | apps/hub/runtime.go:337-351 | pairs every open tool before a terminal event, stopping at the first failure |
| HubAttempt.AttemptStream.CommitEvent | apps/hub/runtime.go:333-391 | the whole of commit, including the side-effect flag passed to the store |
| HubAttempt.AttemptStream.ObserveEvent | apps/hub/runtime.go:398-408 | the first error sticks and nothing enters after Execute returned |
| HubAttempt.AttemptStream.Finish | apps/hub/runtime.go:449-494 | the verdict on a stream and the terminal events the product supplies |
| HubTrace.RecordKeeps | apps/hub/runtime.go:352-390 | recording one accepted event keeps the trace invariant |
| HubTrace.CommitKeeps | apps/hub/runtime.go:333-391 | commit keeps starts paired, risk known in memory and on record, and Completed last |
| HubTrace.ClosedStreamIsFinal | apps/hub/runtime.go:398-408 | after a rejected callback, and after Execute returned, no sequence of callbacks records or changes anything |
| HubTrace.ConcludeIsSound | apps/hub/runtime.go:449-494 | the verdict is sound for any stream that satisfies the invariant |
| HubTrace.AttemptIntegrity | apps/hub/runtime.go:319-494 | for every callback sequence, store and engine result: every recorded tool start is ended before the one Completed, which is last; nothing is recorded after a rejected callback; Succeeded exactly when it was recorded, Execute returned nil and no callback failed; the side-effect flag is clear exactly when nothing risky was recorded |
| HubRecord.CloseAllCleans | apps/hub/runtime.go:336-351 | before a terminal event the end of every open tool is recorded once, under its name and flagged as possibly effective, and while writes succeed none is left open |
| HubRecord.CommitExactly | apps/hub/runtime.go:333-391 | while writes succeed, a callback is accepted exactly when it is lawful after the recorded stream and a wait it starts can be kept; then it is recorded after the ends of open tools, with its flag |
| HubRecord.CallbackIsRecorded | apps/hub/runtime.go:398-408 | the same at any point of any attempt |
| HubRecord.RiskMeans | apps/hub/runtime.go:356-379 | among recorded events exactly these forbid a retry elsewhere: a tool start with an effect other than reading, an activity that reports one, a session on an engine without tool control |
| HubFallback.SameRoute | apps/hub/model.go:39-45 | two targets share a route key exactly when they agree up to the order of required capabilities and the automatic flag |
| HubFallback.Supervisor.Attempt | apps/hub/runtime.go:409-448 | the guards before Execute, the callbacks, the verdict |
| HubFallback.Supervisor.ChooseNext | apps/hub/runtime.go:258-275 | the first authorised, untried, supported target that the store begins |
| HubFallback.Supervisor.Settle | apps/hub/runtime.go:248-279 | finishes the Turn or goes on with another claim |
| HubFallback.Supervisor.ExecuteClaim | apps/hub/runtime.go:242-282 | the loop performs exactly the attempts, verdicts and finishes of its specification |
| HubSafety.AttemptedIsSound | apps/hub/runtime.go:319-494 | every attempt of a Turn has a sound verdict |
| HubSafety.RunShape | apps/hub/runtime.go:242-282 | the shape of a whole Turn: attempts linked by fallbacks, one finish at the end |
| HubSafety.FallbackSafety | apps/hub/runtime.go:242-282 | at most 8 attempts on pairwise different routes, exactly one FinishTurn, and another attempt begins only after one that recorded nothing risky, had no rejected callback and failed retryably |
| HubSafety.SuccessIsRecorded | apps/hub/runtime.go:248-253 | a Turn is finished as succeeded only after a recorded Completed(Succeeded), a nil Execute and no rejected callback |
| HubSafety.BudgetSuffices | apps/hub/runtime.go:245-281 | when fewer routes are left than attempts, no begun claim is abandoned by the budget |
| HubSafety.SevenFallbacksSuffice | apps/hub/sqlite/store.go:378-389 | with the seven targets the store admits, the eight attempts always suffice |
| HubEffects.FlagsAreExact | apps/hub/runtime.go:357-358 | the flag written with each entry, ends of tools by the product excepted, is set exactly when such an event was recorded by then |
| HubEffects.VerdictIsExact | apps/hub/runtime.go:453-494 | no side effects are reported exactly when no callback was refused, the end was recorded and not contradicted by an error of Execute, and no such event was recorded |
| HubEffects.OutcomeIsExact | apps/hub/runtime.go:453-494 | an attempt fails if a callback was refused or its end contradicted, else ends as recorded, and without a recorded end is cancelled exactly when the context ended and the error is nothing else |
| HubEffects.FailureIsReported | apps/hub/runtime.go:383-386 | the failure of an attempt that ended in order is the one its engine reported |
| HubEffects.NotStarted | apps/hub/runtime.go:409-421 | an engine that is missing, cannot keep the wait, lacks a capability or cannot resume is not started, and when it is a startup failure |
| HubEffects.Started | apps/hub/runtime.go:422-448 | any other engine that is admitted is started, and the attempt is its callbacks and result |
| HubEffects.NothingActedBefore | apps/hub/runtime.go:248-279 | every attempt that is followed by another recorded no tool start but for reading, no activity with an effect, no session on an engine without tool control, no flag, and did record a startup or rate-limit failure |
| HubEffects.EveryFallbackIsWellChosen | apps/hub/runtime.go:242-282 | another attempt begins exactly when the last left the Turn open and the list holds an authorised target on an untried route whose engine is registered and capable and which the store begins, and it is for the first such; else the Turn is finished as the attempt ended, or failed if the list cannot be read |
| HubEffects.OffersNames | apps/hub/runtime.go:286-318 | each capability name asks for its own field, and no other name is known |
| DebugView.Request.CompareAndSwap | apps/debug/view.go:79-90 | exactly one party wins the flag |
| DebugView.Request.RequestEnded | apps/debug/view.go:78-82 | the cancellation callback settles only a queued request |
| DebugView.Request.OwnerEnded | apps/debug/view.go:83-87 | the detach callback settles only a queued request |
| DebugView.Request.Enter | apps/debug/view.go:88-92 | the closure returns without an answer when the swap is lost |
| DebugView.Request.Check | apps/debug/view.go:93-102 | the closure answers itself when the context ended or the view was detached |
| DebugView.Request.Work | apps/debug/view.go:103-104 | the callback of the closure, as in action and current |
| DebugView.Request.Send | apps/debug/view.go:105 | the one send of the closure |
| DebugView.MoveKeepsTicket | apps/debug/view.go:64-108 | in every interleaving of the three parties exactly one is answerable, apply is called at most once, only at the requested revision, and the result says applied exactly when it succeeded |
| DebugView.AlwaysSettles | apps/debug/view.go:64-108 | a request can always move on until its closure has left, and then it is answered exactly once or a winner owes the answer |
| DebugView.MoveUsesUp | apps/debug/view.go:64-108 | every move of the three parties uses up something that is not renewed |
| DebugView.EveryLifeIsAnswered | apps/debug/view.go:64-108 | in every interleaving a request ends after at most ten moves, and when only outside events are left it has sent exactly one result, a truthful one |
| DebugFate.FirstDecides | apps/debug/view.go:64-108 | which answer it is: context ended or unavailable if that callback came first, else what the closure found when it checked, else what the revision, the handler and apply made of it |
| DebugServer.DiagnosticServer.Allowed | apps/debug/server.go:265-271 | exactly when controls are enabled and the first method declared with the name needs no execution, or that is enabled too |
| DebugServer.DiagnosticServer.Begin | apps/debug/server.go:243-283 | the locked part of act: known exactly if the ID is recorded with this action, a mismatch exactly if with another, and admitted exactly if it is not recorded, the server is open, the view registered and not detached, the method allowed and fewer than 256 are recorded |
| DebugServer.DiagnosticServer.ScheduleAction | apps/debug/view.go:64-108 | hand-over of an admitted action, or its immediate refusal; the gate is taken when queued |
| DebugServer.DiagnosticServer.SettleAction | apps/debug/server.go:284-296 | settle turns the result into the one recorded answer |
| DebugServer.StepKeepsInv | apps/debug/server.go:237-309 | every step keeps one request per operation, one gate holder per view and answers that match results |
| DebugServer.ReachableInv | apps/debug/server.go:237-309 | so does every run from a fresh server |
| DebugServer.ActionsAtMostOnce | apps/debug/server.go:237-309 | over any concurrent requests, cancellations and detaches each operation ID applies at most once; all settled answers to one request agree for ever; no ID is evicted; after closing none is added; at most 256 are recorded |
| DebugServer.OperationCanProceed | apps/debug/server.go:297-302 | an operation without an answer always has a step that brings it nearer one |
| DebugServer.ClosedForGood | apps/debug/server.go:175-205 | closing is final |
| DebugAnswers.CallersAreTold | apps/debug/server.go:245-308 | over any run, a caller is told of another request exactly when its ID is recorded with a different action, and is told a settled answer exactly when its own action is recorded and answered; that answer says applied exactly when this action was applied |
| DebugAnswers.OneRequestPerID | apps/debug/server.go:245-253 | two callers of one ID that are told an answer made the same request and are told the same |
| DebugAnswers.AdmittedExactly | apps/debug/server.go:254-282 | when an action is admitted, and which refusal it gets otherwise |
| DebugAnswers.QueuedExactly | apps/debug/view.go:64-77 | an admitted action is queued exactly when its view is not detached, the context lives and every earlier request of the view has left; otherwise it is answered at once, as not applied |
| DebugAnswers.SettledAs | apps/debug/server.go:284-296 | the recorded status is applied or cancelled exactly when the result is |
| PendingMessages.PendingService.Enqueue | harness/pending.go:66-89 | text checks, activity, budgets, then one new unread message |
| PendingMessages.PendingService.Cancel | harness/pending.go:90-111 | removes an unread message, refuses one being committed, denies one already committed or unknown |
| PendingMessages.PendingService.Snapshot | harness/pending.go:112-127 | all messages, or the unread ones, in order |
| PendingMessages.PendingService.OnRunStart | harness/pending.go:128-142 | binds the run unless another is active |
| PendingMessages.PendingService.OnRunEnd | harness/pending.go:143-150 | unbinds only the run that is active |
| PendingMessages.PendingService.TakeBatch | harness/pending.go:155-173 | marks every unread message and batches them in order |
| PendingMessages.PendingService.FinishBatch | harness/pending.go:177-214 | receipt checks, statuses of the batch, and what joins the request |
| PendingHistory.EnqueueKeepsInv | harness/pending.go:66-89 | an enqueue between the two parts of a commit keeps the invariant |
| PendingHistory.CancelKeepsInv | harness/pending.go:90-111 | so does a retraction |
| PendingHistory.TakeKeepsInv | harness/pending.go:151-173 | so does the taking of a batch |
| PendingHistory.FinishKeepsInv | harness/pending.go:174-214 | so does finishing any batch in flight, whatever the session answered |
| PendingHistory.ReachableInv | harness/pending.go:66-214 | under every interleaving: bytes equals the summed text lengths, at most 128 messages and 1 MiB are held, accepted messages are held unaltered in order or were retracted, what joined is the notice and the records returned, all batches together are in enqueue order without repeats, and statuses follow the batches |
| PendingHistory.RetractedNeverAppended | harness/pending.go:90-111 | a message whose Cancel returned true is in no batch, before or ever after |
| PendingRetraction.CancelAnswers | harness/pending.go:90-111 | in every reachable state, with a live context: yes exactly to a message that was accepted, not retracted and given to no append; being committed exactly while it is in an append in flight; no otherwise |
| PendingRetraction.CancelChanges | harness/pending.go:90-111 | after a yes the message is gone, its bytes are freed and the others are as they were; any other answer changes nothing |
| PendingRetraction.EnqueueAnswers | harness/pending.go:66-89 | a text is accepted exactly with a live context, 1 to 16384 octets of UTF-8, a run, fewer than 128 messages held and room in 1 MiB of held text |
| PendingRetraction.TakesWhatIsOpen | harness/pending.go:155-173 | a boundary of the active run takes exactly the messages accepted, not retracted and in no batch yet, with their texts and in order; another run takes none |
| PendingRetraction.RunIsBound | harness/pending.go:128-150 | the queue is bound to the run that started, until that run ends |
| PendingSession.JoinsExactly | harness/pending.go:177-213 | for every receipt and error: something joins exactly when the append succeeded and the receipt has the kinds, number and identities of the batch, and then it is the notice and the records returned; it is the batch as enqueued exactly when, besides, every text came back unchanged |
| PendingSession.JoinsTheBatch | harness/pending.go:209-213 | with a session that changes at most texts, what joins is the batch as enqueued, in enqueue order after the notice, exactly when every text of the batch is returned unchanged; otherwise the returned texts join |
| PendingSession.DurableSessionJoins | platform/storage/redaction/redaction.go:223-245 | with the redaction of the durable session, the batch joins as enqueued exactly when each text is left alone: JSON that is sanitised already, or other text without a credential marker |
| PendingSession.RedactedTextJoins | harness/pending.go:178-188 | a reachable failure: the text "password=x" is accepted, the receipt of the redacted record passes, and "[REDACTED]" joins in its place |
| EventStream.FrameBytesExact | apps/gateway/stream.go:31-36 | the accounted size is the exact number of octets of the frame |
| EventStream.NormalisedLines | apps/gateway/stream.go:29-32 | the two replacements keep the lines of the data in the sense of section 9.2.5 of the WHATWG HTML Living Standard |
| EventStream.Printer.Put | apps/gateway/stream.go:53 | a write that fails may have sent a part |
| EventStream.Printer.PutFrame | apps/gateway/stream.go:52-64 | the writes of a frame send what one write of the frame would |
| EventStream.Printer.Emit | apps/gateway/stream.go:25-67 | name check, budget, context, deadline, writes and flush in the order of the code; written grows only by whole frames |
| EventStream.ReadFrame | apps/gateway/stream.go:52-64 | a standard consumer dispatches exactly one event per frame and keeps no residue |
| EventStream.PrefixRoundTrip | apps/gateway/stream.go:52-66 | a client that has received any part of the stream has exactly the events whose frames are whole |
| EventStream.RoundTrip | apps/gateway/stream.go:25-67 | parsing the frames gives back every name and normalised data, once and in order, for all data and admitted names |
| EventStream.SessionRoundTrip | apps/gateway/stream.go:23-67 | over a whole response, wherever the connection gives out: the client has exactly the events sent whole, written counts their octets and the stream stays within 8 MiB |
| EventStream.MessageIsDefault | apps/gateway/stream.go:34-36 | to a client the name "message" and no name are the same event |
| EventStream.EmitsExactly | apps/gateway/stream.go:25-67 | an event is sent whole exactly if its name is admitted, 8 MiB suffice, the context lives, the deadline can be set, the connection takes it and the flush succeeds |
| EventStream.EmitsNothingUnlessAdmitted | apps/gateway/stream.go:26-51 | a refusal, a dead context or a failed deadline leaves the response untouched and not begun; anything later has begun it and sent a prefix of the frame |
| LogStore.Store.Handle | apps/debug/logs.go:196-206 | appends to the unbounded log, of which the ring keeps the newest 512, numbered without gaps up to next |
| LogStore.Store.Scan | apps/debug/logs.go:233-247 | the loop finds the first matching records of the window still held, and whether there are more |
| LogStore.Store.PageOf | apps/debug/logs.go:209-249 | a page is the stated function of the unbounded log, including the refusals |
| LogStore.PageSplits | apps/debug/logs.go:233-248 | without a drop, a page and what a search from its Next finds are the matching records of the window |
| LogStore.PagingIsComplete | apps/debug/logs.go:221-248 | following Next at a fixed high-water, with appends between pages and no page reporting a drop, returns every matching record of the window exactly once and in order |
| LogStore.DroppedMeans | apps/debug/logs.go:229-232 | a page reports a drop exactly when a record after the cursor is no longer held |
| LogStore.MatchingMeans | apps/debug/logs.go:234-239 | what is returned is exactly what matches level and keyword in the window, by rising sequence |
| LogStore.FiltersMean | apps/debug/logs.go:237-239 | a level asks for that level only, a keyword for records that contain it, an empty filter for nothing |
| LogStore.AnsweredExactly | apps/debug/logs.go:209-232 | which queries are answered, up to which high-water, and from which oldest record |
| WasmJournal.WasmJournal.Put | cmd/alva/wasm.go:458-480 | numbers each frame, and records its redacted body unless encoding or storing fails |
| WasmJournal.WasmJournal.Observe | cmd/alva/wasm.go:422-447 | appends to the pending text, frames its complete lines, keeps the rest, or flushes it at a prefix limit |
| WasmJournal.WasmJournal.Finish | cmd/alva/wasm.go:448-457 | flushes what is pending of both streams, joining failures |
| WasmJournal.LinesAndRest | cmd/alva/wasm.go:429-438 | framing loses, adds and reorders no octet, and each line holds one LF, at its end |
| WasmJournal.LinesConcat | cmd/alva/wasm.go:425-439 | framing a chunk continues the framing of the text before it |
| WasmJournal.ObserveKeeps | cmd/alva/wasm.go:422-447 | one event moves its stream on and leaves the other alone |
| WasmJournal.FramingIgnoresChunking | cmd/alva/wasm.go:422-457 | after a finish without failure the recorded frames of a stream, redacted one by one, depend only on its texts, not on the events they came in or on the other stream |
| WasmJournal.SameOctetsSameFrames | cmd/alva/wasm.go:422-457 | two splits of the same octets record the same frames: the LF lines, then the rest as a partial, each redacted |
| WasmJournal.StallsExactly | cmd/alva/wasm.go:482-492 | the segment loop makes no progress exactly when a window of 1 MiB holds no rune start |
| WasmJournal.ValidSegment | cmd/alva/wasm.go:483-486 | a UTF-8 frame is cut within three octets of 1 MiB and between runes |
| WasmJournal.Segment | cmd/alva/wasm.go:482-493 | segments are non-empty, at most 1 MiB, UTF-8, and join to the frame; on a failed store they join to a proper prefix |
| WasmJournal.RefusesExactly | cmd/alva/wasm.go:422-457 | while frames can be stored, an event is refused exactly if the unframed text of its stream would exceed 1 MiB |
| WasmJournal.FramesExactly | cmd/alva/wasm.go:458-480 | a complete request or response is one frame with the next number, recorded last and redacted exactly if it can be stored |
| Utf8.StartIsBoundary | cmd/alva/wasm.go:484 | in a valid text every rune start is a boundary between valid texts |
| Utf8.StartNearby | cmd/alva/wasm.go:484-486 | four octets in a row of a valid text contain a rune start |
| BundleDigest.ValueOfBigEndian | extension/loader/bundle.go:264-266 | eight big-endian octets hold every length below 2^64 |
| BundleDigest.FrameHash | extension/loader/bundle.go:263-268 | writes the length, then the data |
| BundleDigest.DigestSnapshot | extension/loader/bundle.go:239-262 | feeds the prefix, then name and body of every file in sorted order, with the canonical manifest for alva.toml |
| BundleDigest.DecodeHashInput | extension/loader/bundle.go:242-260 | the hash input can be parsed back to the list of names and bodies |
| BundleDigest.ListingOrderIrrelevant | extension/loader/bundle.go:240 | the order of the listing does not matter |
| BundleDigest.SameInputSameFiles | extension/loader/bundle.go:239-268 | equal hash inputs mean the same files with the same bodies, modulo the canonical manifest |
| BundleCopy.ReadDir | extension/loader/bundle.go:280 | for a positive count: all entries if they fit, else that many of them, in no particular order |
| BundleCopy.CopyTree | extension/loader/bundle.go:272-366 | succeeds exactly on the accepted trees: names, kinds, sizes, depth, entries, files and bytes within the limits and every operation served; then the budget is spent by the tree's totals and as many files are listed as there are; where the names of a directory differ, these are the files in order of name, and the same are written when copying |
| BundleCopy.CopyEntries | extension/loader/bundle.go:293-365 | the same for the loop over a directory, in order of name |
| BundleCopy.CopyEntry | extension/loader/bundle.go:294-363 | the same for one entry |
| BundleCopy.SortKeeps | extension/loader/bundle.go:292 | the order of the walk changes neither acceptance nor any total |
| BundleCopy.SameEntries | extension/loader/bundle.go:280-291 | the order in which a directory is read changes neither acceptance nor any total |
| BundleCopy.SameOrder | extension/loader/bundle.go:280-292 | where names differ, sorting by name forgets the order of reading |
| BundleCopy.ListedExactlyOnce | extension/loader/bundle.go:293-364 | the listing is the regular files of the tree, each exactly once, under its path and with its whole content |
| BundleCopy.AcceptedMeans | extension/loader/bundle.go:272-366 | success means at most 512 entries, 256 files, 16 MiB and depth 16, with as many files listed as there are |
| BundleAccept.CopiedExactly | extension/loader/bundle.go:272-366 | a bundle is copied exactly when everything a path of names leads to has a good name, is served and is a directory at most 16 deep or a regular file of at most 8 MiB, with at most 512 entries and 256 files of 16 MiB together |
| BundleAccept.SoundMeans | extension/loader/bundle.go:297-345 | a tree is sound exactly when everything in it is taken |
| BundleAccept.HeightMeans | extension/loader/bundle.go:273-275 | the measured height is that of the deepest directory |
| ShellRecovery.Plugin.RecoverInterrupted | extension/shell/sessions.go:284-338 | folds the log; refuses bad facts and more than 64 jobs without writing; otherwise abandons the open jobs in sorted order up to the first failing append |
| ShellRecovery.Keys | extension/shell/sessions.go:326-330 | the recovered identities are the open jobs, strictly sorted, whatever the order of the map |
| ShellRecovery.OpenMeans | extension/shell/sessions.go:290-325 | a log is read exactly if it holds no malformed fact, and the open jobs are exactly those with a named intent that no outcome, failed start or abandonment follows |
| ShellRecovery.CrashLeavesTheRest | extension/shell/sessions.go:332-336 | after the first k abandonments exactly the other jobs are open, and after all of them none: recovery is idempotent |
| ShellRecovery.AbandonedAtMostOnce | extension/shell/sessions.go:284-338 | across any number of restarts and crashes a job is abandoned at most once, after its intent and never after an outcome or failed start |
| ShellLease.Plugin.Reserve | extension/shell/sessions.go:129-136 | every binding gets a new generation |
| ShellLease.Plugin.OnRunStart | extension/shell/sessions.go:66-73 | starts a run only for the live lease of an open, idle owner |
| ShellLease.Plugin.BeginEnd | extension/shell/plugin.go:189-204 | the fenced part of ending a run |
| ShellLease.Plugin.FinishEnd | extension/shell/plugin.go:205-215 | the part after cleanup, which is not fenced by the generation |
| ShellLease.Plugin.Release | extension/shell/sessions.go:152-156 | releases the reservation of the generation it was made for |
| ShellLease.MoveKeepsInv | extension/shell/sessions.go:66-163 | every locked section keeps the fence |
| ShellLease.AtMostOneLive | extension/shell/sessions.go:84-137 | two attempts never hold live leases of one native session |
| ShellLease.StaleIsHarmless | extension/shell/sessions.go:139-158 | whatever a stale lease does, in whatever order its calls finish, changes no owner |
| ShellLease.StaleStaysStale | extension/shell/sessions.go:129-136 | a lease that is no longer live never becomes live again |
| ShellLease.BindFences | extension/shell/sessions.go:84-137 | a new lease is live, and is issued only when its session had none |
| ShellLease.BindsExactly | extension/shell/sessions.go:84-137 | a lease is issued exactly while the registry is open and nobody holds the session: for the living owner of the same recipe, or for a new one within 64 if there was none or the old one is clean and closes |
| ShellLease.RebindsOnlyTheSame | extension/shell/sessions.go:99-115 | an owner is rebound only with the same recipe and while it lives; any other is closed and replaced |
| ShellLease.StartsExactly | extension/shell/plugin.go:131-151 | a live lease starts a run exactly on an open, idle, living owner that fits |
| ShellLease.ReleasesExactly | extension/shell/sessions.go:139-158 | an idle live lease gives its reservation up, a running one keeps it |
| ShellLease.EndsExactly | extension/shell/plugin.go:189-215 | a run ends at once when it ends in order, else its owner is cancelled and it ends when cleanup is complete |
| ShellLease.ResetsExactly | extension/shell/sessions.go:230-249 | a reset closes the owner of a session nobody holds, and forgets it once it is clean; any other session is left alone |
| GatewayDrain.Server.Enter | apps/gateway/server.go:100-117 | admits unless closed or 8 are active, opening a new idle channel for a new busy period |
| GatewayDrain.Server.Leave | apps/gateway/server.go:110-117 | closes the idle channel when the last handler ends |
| GatewayDrain.Server.BeginClose | apps/gateway/server.go:123-128 | stops admission and captures the channel to wait on |
| GatewayDrain.MoveKeepsInv | apps/gateway/server.go:100-137 | every step of handlers and closers keeps the count and the channels |
| GatewayDrain.IdleTracksHandlers | apps/gateway/server.go:100-118 | idle is open exactly while a handler is active, no channel is closed twice and at most 8 handlers are active |
| GatewayDrain.DrainIsFinal | apps/gateway/server.go:123-137 | once a Close returned nil, whatever timed out before, no handler is active and none is ever admitted again |
| GatewayDrain.CloseWakesExactly | apps/gateway/server.go:129-135 | a waiting Close is woken exactly when the last handler has ended |
| GatewayDrain.AdmitsExactly | apps/gateway/server.go:100-117 | a request is admitted exactly if no Close came before it and fewer than eight handlers run |
| CallMatching.PendingMeans | harness/context.go:67-76 | the pending calls of an identity are those without a later result, in order |
| CallMatching.LastAnswers | harness/context.go:70-74 | a result executes a call exactly when it is the only pending one |
| CallMatching.ExecutedExactly | harness/context.go:63-78 | a call counts as executed exactly when a later result carries its identity and it is the only call with it since the previous such result; none is listed twice |
| ReferenceProjection.EveryBlockIsAStep | harness/context.go:65-66 | the reading order visits every block |
| ReferenceProjection.ExecutedMeans | harness/context.go:60-78 | the positions listed for rewriting are exactly those of answered calls |
| ReferenceProjection.Projection.MatchCalls | harness/context.go:63-78 | the nested loops with the map of pending calls compute that list |
| ReferenceProjection.Projection.RewriteCalls | harness/context.go:79-99 | rewrites only listed calls over 4 KiB with valid JSON, each once; each reference reads back the original; everything else is unchanged, also on failure |
| ReferenceProjection.Projection.ProjectPart | harness/context.go:119-138 | media and heavy text become references that read back the original; over-budget or invalid parts are refused, and a failed store is reported only if the store refused |
| ReferenceProjection.Projection.ProjectResult | harness/context.go:113-139 | all parts of a result, or a prefix of them on failure |
| ReferenceProjection.Projection.ProjectResults | harness/context.go:100-141 | all tool results in reading order; counts are kept, and a failure names a cause that is there |
| ReferenceProjection.Projection.BeforeModel | harness/context.go:56-143 | the whole projection: arguments over 4 KiB are moved exactly for executed calls, what is replaced reads back, each failure has its cause, and with an accepting store, a live context, valid arguments and parts within the limits it never fails |
| ReferenceProjection.AllFitMeans | harness/context.go:119-189 | the parts that make the projection fail are exactly invalid media, media over 128 frames, 6 MiB or 8 MiB as JSON, and text over 8 MiB |
| ContextTail.BestUnique | harness/native_context.go:39-54 | the promised view is determined by the records |
| ContextTail.ViewIs | harness/native_context.go:39-54 | the view in plain numbers: within 512 records and 8 MiB, the fewest records from 64 on that reach a user message, else the most that fit |
| ContextTail.Select | harness/native_context.go:39-54 | the loop finds the shortest view of whole turns with at least 64 messages ending at a user message, else the longest admissible one, and nothing exactly when none fits 512 messages and 8 MiB |
| ContextTail.Load | harness/native_context.go:24-69 | an error for a missing view exactly when none fits; the notice names the newest omitted record exactly when one is omitted |

## Left out

- WorkspaceRegistry.WorkspaceRegistry.Acquire: takes the cleaned path as components; `filepath.Clean` itself, Windows volumes and case-insensitive file systems are not modelled, and ids do not wrap at 2^64.
- WorkspaceLiveness.EveryWaiterGetsIn: fairness of the mutex and of the scheduler is assumed, not derived.
- WorkspaceProgress.EveryOwnerGetsItsPlan: that each owner goes on when it can is assumed, not derived.
- WorkspaceDeadlock.NeverStuckExactly: the limit of eight concurrent actions and the closing of the runtime (apps/hub/workspace_action.go:43-55) are not part of the moves; any number of owners is allowed.
- HubAttempt.AttemptStream.CommitEvent: text sizes are counted in characters of the model, and the copy of the native session id for display (apps/hub/runtime.go:369-372) is not kept.
- HubAttempt.AttemptStream.Finish: the error texts joined for a rejected or unpersisted stream are placeholders.
- HubEffects.FlagsAreExact: the ends of tools that the product records are always flagged, and an engine's own end of a tool with the same text is not told apart from them.
- HubFallback.Supervisor.ExecuteClaim: joined error texts are not kept; what the store does in Record, Detail and FinishTurn is a parameter.
- The registry of running Turns (`start`, `Close`, `Cancel` and their limits, apps/hub/runtime.go:95-241): the same counting and drain pattern as the gateway.
- DebugView.Request.Work: a capture that waits for a frame and the retry of `image` (apps/debug/view.go:179-230) are one read that changes nothing.
- DebugServer.DiagnosticServer.Begin: the fingerprint is the action itself, that is SHA-256 of its JSON is taken as injective; the shape checks of `validate` are not modelled; the method begins after them.
- PendingMessages.PendingService.Enqueue: random identities are serial numbers and a failing random source is not modelled; creation and commit times are left out.
- PendingSession.DurableSessionJoins: the redaction of texts that are JSON, and its search for quoted keys, are parameters.
- EventStream.Printer.Emit: works on octets; decoding of invalid UTF-8 by a client replaces octets inside data and names and is not modelled. Headers other than the start of the response are left out.
- The codec that feeds `emit`, and the JSON bodies of errors, are not part of this model.
- LogStore.Store.Handle: begins where the event has been redacted; attribute collection, size budgets and redaction are not modelled; sequences do not wrap at 2^64.
- WasmJournal.WasmJournal.Put: JSON and base64 are not modelled; redaction is any function of the body, and failures of encoding, of the 64 MiB volatile budget and of the artifact store are one parameter.
- WasmJournal.FramingIgnoresChunking: the kind and operation labels of a frame, which name the event that completed a line, are not part of the claim.
- BundleDigest.DigestSnapshot: SHA-256 and canonical JSON of the manifest are not modelled; no cryptographic claim is made.
- BundleAccept.CopiedExactly: the number of entries is the recursive count of the tree.
- BundleCopy.ReadDir: a read error is the parameter that says whether a path is served.
- BundleCopy.CopyTree: the tree does not change during the walk, so the re-checks of identity, size and modification time are the one parameter that says whether a path is served.
- ShellRecovery.Plugin.RecoverInterrupted: JSON decoding of facts is the case distinction of their types.
- ShellLease.MoveKeepsInv: jobs, calls and their cleanup are the parameters `clean`, `closes` and `complete`; the application-wide `Close` of every owner is the move `CloseOwner`; the registry of owners is a value, only one owner is a class. A plugin used without a lease, which has generation 0, is not modelled.
- GatewayDrain.Server.Leave: a handler calls it once, as `defer` does.
- ReferenceProjection.Projection.RewriteCalls: two blocks that share one `*ToolCall` are not modelled; arguments are values of their block.
- ReferenceProjection.Projection.ProjectPart: `Validate`, marshalling and the accounting of media bytes are fields of the part; the description a reference carries is a flag.
- ContextTail.Load: reading the chosen records and the text of the notice are not modelled; record sizes are not negative.
- Panics, goroutine leaks and memory use.
- HTTP servers, listeners, windows, terminals, provider transports, process start, storage back ends, settings validators and permission policy: input, output and single checks.
