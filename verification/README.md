# Dispatch core: a verified model

A Dafny model of a field-service dispatch system: work orders and tracking sessions changed by
concurrent units of work, the durable queues and callback tokens of its messengers, the MAX rate
limiter, versioned packs with their draft editor, and the guided intake that submits orders. The
program's classes are classes here, its loops are loops, and each method is proved equal to a function
of the old state; what the system promises is proved about those functions over every run.

`dafny verify dfyconfig.toml` checks everything.

How the files fit together:

- `Domain`, `WorkOrders`, `Tracking`: the two aggregates. `Decide`, `Observe` and `Close` say what a
  command does to a value; the classes do it in place.
- `MemoryStore`: the async in-memory store and its unit of work. `Service`: each application command as
  one atomic transaction, and `Good`, the invariant of the committed data. `EventLog`: replaying the outbox.
- `DispatchService`: the service methods as written, proved to have exactly the effect of their
  transaction when nothing runs beside them. `Interleaving`, `Runs`: any number of units of work, one
  step per repository call, each ending in commit, conflict or never. `Guarantees`: the results.
  `Realization`: every serial execution is a run, and the race for a source event.
- `Provenance`: what committed request each order, session, token, point and event comes from. `Outcomes`:
  what callers are told.
- `MessageQueue`, `Callbacks`, `Polling`, `Projector`: the durable messaging protocol. One table model
  serves the inbox, the outbox and the outbound messages, whose statements have the same guards.
- `RateLimiter`, `OrderNumbers`: the sliding window and public numbers. `TrackingRows`, `TrackingRuns`: the
  Postgres tracking repository, one transaction at a time and over whole runs.
- `Catalog`, `PackStore`: packs, their JSON and the revision table, which stands for a plain book of
  editions. `Drafts`, `ConfigEditor`, `EditorFlows`: keys, moves, the administrators' sessions and
  their dialogues. `Intake`, `FormSources`: the form, and where its entries come from.

Runs are sequences of actions; a failed guard makes an action do nothing, so every sequence is a run.

Places where the code promises less than one might expect, each with its exact condition:

- `record_location` looks for its source event in other sessions without any version to protect the
  answer. `LocateSerializesExactly` says when the result is still serial; `SourceEventRaces` and the
  run `OneSourceEventTwice` show that it need not be.
- The retry limit counts attempts, but a row taken over after a crash is claimed whatever its attempts
  (`AttemptsAreBounded`, `BoundIsAttained`, `CrashesEscapeTheLimit`).
- Marks of queue rows carry no owner, so two workers hold one row as soon as a claim is not marked within
  the stale timeout and the row is claimed again (`ExclusionNeedsPromptWorkers`, `SlowWorkersOverlap`).
- A refused press is answered with success when what the reply tells is so, whoever brought it about: the
  travel button whenever the executor is under way with any order, the report button on any completed order
  (`SuccessMeansDone`, `PressSucceedsExactly`).
- A session loaded with only its latest point differs from a fully loaded one exactly when an older
  point carries the same event id under another source (`WindowRefinesFullLoad`, `RunsAgree`).
- The JSON round trip of a pack fills in default role labels, so it is exact only for packs that have
  them all (`RoundTripIsExact`).
- Answers are spread over the fixed entries of the order's details, so a field keyed `service_keys`,
  `services` or `pack_version` replaces them, and a map point replaces a field keyed
  `service_location` (`DetailsNameTheServices`, `DetailsCarryAnswers`).
- The first press of a reordering button that is refused at the end of the list is not undone by the
  opposite press (`UpThenDown`, `DownThenUp`).
- A button press of the draft editor that is redelivered after its last write takes effect twice when it
  toggles, counts, or moves an item that has a second neighbour to pass (`RetriesConverge`,
  `SomeTakeEffectTwice`). A message that names a new service and is redelivered after its key was
  remembered is taken as handled: the session stays open and the service may be missing
  (`RedeliveriesConverge`).
- A confirmation of the form that is delivered again conflicts, and leaves the session open, exactly when the
  session's intent was changed after its order was created (`ConfirmedAgain`).
- A field whose type is changed after its choices were entered raises when it is saved; the draft is then
  untouched (`ConfigCoordinator.FieldRequired`).

## Model

| member | source | states |
|---|---|---|
| Guarantees.RunsAreSerializable | src/dispatch_core/application/async_service.py:350-363 | Whatever the interleaving of repository calls, commits, conflicts and unfinished units of work, the committed orders, sessions and outbox are those of the committed commands run one after another in commit order. |
| Guarantees.OrderEventsRebuildTheOrder | src/dispatch_core/domain/work_order.py:434-453 | In every reachable store an order's outbox events carry versions exactly 1..version in append order and folding them, each checked against the state it claims to leave, rebuilds status, pool mode, coordinator, assignee and every response; an id without an order has no event. |
| Guarantees.SessionEventsRebuildTheSession | src/dispatch_core/domain/tracking.py:191-210 | The same for tracking sessions: contiguous versions, and the fold gives the session's status and, point by point, the time, source and event id of what it holds. |
| Guarantees.LifecycleOverRuns | src/dispatch_core/domain/work_order.py:310-356 | Over any run each of publication, acceptance, departure, work start, completion and cancellation is recorded at most once per order; completion and cancellation occur exactly for the orders in that status, exclude each other and end the log; submission is the first event and never recurs. |
| Guarantees.CoordinatorsDecideOverRuns | src/dispatch_core/domain/work_order.py:405-407 | Over any run, once an order's log holds a claim of coordination, every later publication, assignment and cancellation in it carries that coordinator as its actor, and nobody else claims the order. |
| Provenance.OrdersComeFromRequests | src/dispatch_core/domain/work_order.py:131-166 | In every reachable store an order has the intent and the number of a committed creation, and its report is exactly what its assignee submitted. |
| Provenance.SessionsComeFromRequests | src/dispatch_core/application/async_service.py:214-284 | In every reachable store a session is the one its executor set out with; while active it holds the public and the location token of that request, each in its own place; and every point is a position that executor sent, at the time it was captured or, if that lies before the previous point, at the later of arrival and that point. |
| Provenance.EventsComeFromRequests | src/dispatch_core/domain/work_order.py:434-453 | Every event of the outbox is what a committed request announces: its aggregate, its actor, its reason, its source. |
| Outcomes.OutcomesTellTheTruth | src/dispatch_core/application/async_service.py:350-363 | Over any run a call changes the store exactly when it commits, and then the caller gets the order as stored; whoever is told an error changed nothing, and no command on an order returns without having committed. |
| Outcomes.LocationsAreDroppedForCause | src/dispatch_core/infrastructure/async_memory.py:171-185 | A location is acknowledged without being stored exactly when, at the moment of the search, a session of the organization holds a point with this event id from this source. |
| Outcomes.RefusalsAreJustified | src/dispatch_core/application/async_service.py:350-363 | A command refused when it reads its order would be refused with the same error if it had the store to itself at that moment. |
| Guarantees.OrdersStaySound | src/dispatch_core/domain/work_order.py:370-399 | In every reachable store a completed order, and no other, holds a report, and it meets the evidence rules; a selected response belongs to the current assignee; an open interest occurs only in a curated order that is in the pool or was cancelled there. |
| Guarantees.SessionsFollowOrders | src/dispatch_core/application/async_service.py:214-236 | Across the two aggregates: at most one session per order ever; an active session's order is under way with the session's executor; an order on its way has an active session; a closed order has only closed sessions without tokens. |
| Guarantees.ActiveSessionIsNeverAmbiguous | src/dispatch_core/infrastructure/async_memory.py:155-169 | The "more than one active session" error of the unversioned lookup is unreachable. |
| Guarantees.ExecutorsHaveOneOrder | src/dispatch_core/infrastructure/async_memory.py:78-91 | No reachable store holds two orders of one organization in ASSIGNED..IN_PROGRESS with one assignee. |
| Guarantees.OnlyAssignmentsLoseToCapacity | src/dispatch_core/infrastructure/async_memory.py:59-69 | In any reachable configuration, a commit whose versions match and that is still refused belongs to `assign` or `claim_first`. |
| Guarantees.SubmissionsConverge | src/dispatch_core/application/async_service.py:62-102 | Every finished `create_order_once`, among any others under the same id, either returns the one stored order with its intent, however far it has advanced, or conflicts because the stored intent differs, or refused its own arguments; it never reports a missing order. |
| Guarantees.PublicNumbersAreDistinct | src/dispatch_core/infrastructure/async_memory.py:122-128 | Orders of one organization never share a public number, although numbers drawn by failed units of work are lost. |
| Guarantees.RunsOnlyMoveOn | src/dispatch_core/infrastructure/async_memory.py:59-69 | As a run continues the outbox only grows at its end, no order or session disappears, versions never fall, an unchanged version means an unchanged aggregate, and while an order keeps its version no session becomes active or inactive for it. |
| Guarantees.LocateSerializesExactly | src/dispatch_core/application/async_service.py:238-284 | A committed `record_location` does what the fully serial command would do if and only if its event is absent, unknown to the organization's sessions, or already in the session it is added to; the check in between is not protected by any version. |
| Guarantees.UnitsRunToTheEnd | src/dispatch_core/application/async_service.py:350-363 | No unit of work gets stuck: until it is done its next call can be made, each call brings it closer to its end, whatever the others do, and touches no other unit. |
| Realization.CommandsRunAlone | src/dispatch_core/application/async_service.py:350-363 | The converse of serializability: from every reachable configuration every command that would succeed with the store to itself can be run, call by call, to its commit, leaving all other units alone (a location only if its event is new to the organization). |
| Realization.SourceEventRaces | src/dispatch_core/application/async_service.py:255-263 | Whenever two active sessions of an organization could both take an event nobody has, two `record_location` units can both look for it before either commits; both succeed, both sessions store it, and the second run serially would have dropped it. |
| Realization.OneSourceEventTwice | src/dispatch_core/infrastructure/async_memory.py:171-185 | A concrete run from the empty store, with two orders submitted, assigned, accepted and on their way, after which the organization holds one source event twice. |
| Realization.OrderSetsOut | src/dispatch_core/application/async_service.py:214-236 | From any reachable configuration a new order can be submitted, assigned to a free executor, accepted and set out; its session appears and nothing else changes. |
| Interleaving.CommitIsAtomic | src/dispatch_core/infrastructure/async_memory.py:59-69 | The key step of serializability: what a unit of work commits, staged from snapshots read at different moments, equals its command executed atomically on the data at the moment of the commit. |
| Interleaving.KnowledgeSurvives | src/dispatch_core/infrastructure/async_memory.py:94-110 | Everything a unit has read and staged stays justified as other units commit, as long as the versions it relies on have not moved. |
| Interleaving.CommandHasNoPhantom | src/dispatch_core/infrastructure/async_memory.py:155-169 | A command that leaves an order's version alone makes no session active or inactive for it; `Guarantees.RunsOnlyMoveOn` extends this to any two states of a run. |
| Interleaving.TransactionsEvolve | src/dispatch_core/application/async_service.py:350-363 | Every atomic command moves versions forward and never changes an aggregate without changing its version. |
| Runs.RunKeeps | src/dispatch_core/application/async_service.py:35-39 | Every schedule keeps the whole invariant: good data, a serial explanation of the history, justified units and the numbering of drawn public numbers. |
| Service.TransactionsKeepGood | src/dispatch_core/application/async_service.py:132-348 | Every command, run atomically, keeps the store invariant: keys, sound aggregates, faithful logs, order/session coupling, executor capacity. |
| Service.OnlyAssignmentsExceedCapacity | src/dispatch_core/infrastructure/async_memory.py:78-91 | From data that respects capacity only `assign` and `claim_first` can produce orders that do not. |
| Service.CommandsSucceedExactly | src/dispatch_core/application/async_service.py:132-348 | A command alone on the store succeeds if and only if its order exists and has done it already, or the order's log admits its event, it is well put, the executor it takes is free and the session it opens may begin. |
| Service.CommandsAnnounce | src/dispatch_core/application/async_service.py:214-236 | A command that succeeds appends exactly its own event and that of the session it opens or closes; a redundant one changes nothing at all. |
| Service.LocationsSucceedExactly | src/dispatch_core/application/async_service.py:238-284 | A location alone on the store succeeds if and only if the session exists, is its executor's, the position is on Earth, and the session is active or knows the event; the time of capture never matters. |
| Service.CreationsSucceedExactly | src/dispatch_core/application/async_service.py:104-130 | A creation alone on the store succeeds if and only if it is named, has a number and its id is free. |
| Service.FindActiveSucceeds | src/dispatch_core/infrastructure/async_memory.py:155-169 | With one session per order the lookup never fails, and it finds the active session exactly when there is one. |
| Service.DecisionsMove | src/dispatch_core/domain/work_order.py:168-356 | What each command may do to an order as far as sessions, capacity and the log depend on it. |
| Service.CommandExplained | src/dispatch_core/application/async_service.py:214-236 | The events a command writes are exactly those that explain the versions it writes, on both aggregates. |
| Service.CommandAccompanies | src/dispatch_core/application/async_service.py:295-348 | After any command every session still goes with its order: active only while the order is under way with the same executor. |
| DispatchService.AsyncDispatchService.CreateNewOrder | src/dispatch_core/application/async_service.py:104-130 | With the store to itself it has exactly the effect of the atomic creation, succeeds exactly for a named, absent order, and distinguishes bad arguments from a conflict. |
| DispatchService.AsyncDispatchService.CreateOrderOnce | src/dispatch_core/application/async_service.py:62-102 | A repeated submission returns the stored order and changes nothing, a different intent conflicts, and the fallback read always finds the order. |
| DispatchService.AsyncDispatchService.ChangeOrder | src/dispatch_core/application/async_service.py:350-363 | Load, mutate, stage, commit has exactly the effect of the atomic command, including every error. |
| DispatchService.AsyncDispatchService.StartTravel | src/dispatch_core/application/async_service.py:214-236 | Order and new session are staged and committed together, with exactly the effect of the atomic command. |
| DispatchService.AsyncDispatchService.StageDeparture | src/dispatch_core/application/async_service.py:226-233 | The session of a departure is staged as new, with its first event; refused tokens stage nothing. |
| DispatchService.AsyncDispatchService.EndOrder | src/dispatch_core/application/async_service.py:295-348 | Completion and cancellation close the active session in the same commit, exactly as the atomic command. |
| DispatchService.AsyncDispatchService.StageClosing | src/dispatch_core/application/async_service.py:311-317 | The active session is closed, staged against the version it was read at, and its event is handed back. |
| DispatchService.AsyncDispatchService.RecordLocation | src/dispatch_core/application/async_service.py:238-284 | Ownership check, duplicate check, clamp and point are exactly the serial command with its source-event check. |
| DispatchService.AsyncDispatchService.Stamp | src/dispatch_core/application/async_service.py:264-281 | A capture time that would run backwards becomes the later of now and the latest point. |
| MemoryStore.UnitOfWork.Commit | src/dispatch_core/infrastructure/async_memory.py:59-69 | Either a conflict that leaves store and staging as they were, or all staged orders, sessions and events at once, with the staging emptied. |
| MemoryStore.UnitOfWork.CheckVersions | src/dispatch_core/infrastructure/async_memory.py:71-76 | Succeeds exactly when every staged aggregate replaces the version it was read at and every new one is still absent. |
| MemoryStore.UnitOfWork.CheckExecutorCapacity | src/dispatch_core/infrastructure/async_memory.py:78-91 | The one-pass loop over `occupied` rejects exactly the merged maps in which two orders occupy one executor. |
| MemoryStore.UnitOfWork.FindActiveForOrder | src/dispatch_core/infrastructure/async_memory.py:155-169 | Returns the only active session, none, or an error exactly when two are active. |
| MemoryStore.UnitOfWork.AllocatePublicNumber | src/dispatch_core/infrastructure/async_memory.py:122-128 | Advances the organization's counter, outside of the transaction, and formats it. |
| MemoryStore.UnitOfWork.GetOrder | src/dispatch_core/infrastructure/async_memory.py:130-134 | Hands out a private copy with an empty event buffer, or reports a missing order. |
| MemoryStore.UnitOfWork.SaveOrder | src/dispatch_core/infrastructure/async_memory.py:136-142 | Stages a snapshot of the order with the expected version under its own key. |
| MemoryStore.UnitOfWork.GetSession | src/dispatch_core/infrastructure/async_memory.py:149-153 | Hands out a private copy of the session, or reports it missing. |
| MemoryStore.UnitOfWork.SaveSession | src/dispatch_core/infrastructure/async_memory.py:187-195 | Stages a snapshot of the session with the expected version under its own key. |
| MemoryStore.UnitOfWork.AddEvents | src/dispatch_core/infrastructure/async_memory.py:198-203 | Appends the events after those already staged. |
| WorkOrders.DecideKeepsSound | src/dispatch_core/domain/work_order.py:168-356 | Every command keeps an order sound, keeps its identity, number and submission, and moves its version by the number of events it records. |
| WorkOrders.SubmitIsSound | src/dispatch_core/domain/work_order.py:131-166 | A freshly created order is sound. |
| WorkOrders.WorkOrder.Create | src/dispatch_core/domain/work_order.py:131-166 | Refuses empty identifiers; otherwise a submitted order at version 1 with its event buffered. |
| WorkOrders.WorkOrder.ClaimCoordination | src/dispatch_core/domain/work_order.py:168-183 | In place: raises the command's error and changes nothing, or leaves exactly the decided order with exactly the decided event buffered. |
| WorkOrders.WorkOrder.PublishPool | src/dispatch_core/domain/work_order.py:185-200 | In place: raises the command's error and changes nothing, or leaves exactly the decided order with exactly the decided event buffered. |
| WorkOrders.WorkOrder.ExpressInterest | src/dispatch_core/domain/work_order.py:202-220 | In place: raises the command's error and changes nothing, or leaves exactly the decided order with exactly the decided event buffered. |
| WorkOrders.WorkOrder.WithdrawInterest | src/dispatch_core/domain/work_order.py:222-239 | In place: raises the command's error and changes nothing, or leaves exactly the decided order with exactly the decided event buffered. |
| WorkOrders.WorkOrder.ClaimFirst | src/dispatch_core/domain/work_order.py:241-256 | In place: raises the command's error and changes nothing, or leaves exactly the decided order with exactly the decided event buffered. |
| WorkOrders.WorkOrder.Assign | src/dispatch_core/domain/work_order.py:258-277 | In place: raises the command's error and changes nothing, or leaves exactly the decided order with exactly the decided event buffered. |
| WorkOrders.WorkOrder.Accept | src/dispatch_core/domain/work_order.py:279-283 | In place: raises the command's error and changes nothing, or leaves exactly the decided order with exactly the decided event buffered. |
| WorkOrders.WorkOrder.RejectAssignment | src/dispatch_core/domain/work_order.py:285-308 | In place: raises the command's error and changes nothing, or leaves exactly the decided order with exactly the decided event buffered. |
| WorkOrders.WorkOrder.StartTravel | src/dispatch_core/domain/work_order.py:310-314 | In place: raises the command's error and changes nothing, or leaves exactly the decided order with exactly the decided event buffered. |
| WorkOrders.WorkOrder.StartWork | src/dispatch_core/domain/work_order.py:316-320 | In place: raises the command's error and changes nothing, or leaves exactly the decided order with exactly the decided event buffered. |
| WorkOrders.WorkOrder.Complete | src/dispatch_core/domain/work_order.py:322-338 | In place: raises the command's error and changes nothing, or leaves exactly the decided order with exactly the decided event buffered. |
| WorkOrders.WorkOrder.Cancel | src/dispatch_core/domain/work_order.py:340-356 | In place: raises the command's error and changes nothing, or leaves exactly the decided order with exactly the decided event buffered. |
| WorkOrders.WorkOrder.ResolveCuratedResponses | src/dispatch_core/domain/work_order.py:370-385 | The loop settles every interested response in favour of the winner and touches no other. |
| WorkOrders.WorkOrder.ValidateReport | src/dispatch_core/domain/work_order.py:387-399 | Accepts exactly the reports that meet the evidence rules. |
| WorkOrders.WorkOrder.Record | src/dispatch_core/domain/work_order.py:434-453 | Increments the version and buffers one event carrying the new version. |
| WorkOrders.WorkOrder.PullEvents | src/dispatch_core/domain/work_order.py:365-368 | Returns the buffered events in order and empties the buffer. |
| EventLog.DecidesExactly | src/dispatch_core/domain/work_order.py:168-356 | A sound order carries out exactly the well put commands whose event its log admits, coordinator included, by recording that event, and the redundant ones by doing nothing; everything else it refuses as an invalid transition, a missing argument or missing evidence. |
| EventLog.OnlyTheCoordinatorActs | src/dispatch_core/domain/work_order.py:405-407 | Publishing, assigning and cancelling succeed if and only if the status allows it, nobody else coordinates the order, and the executor or the reason is given. |
| EventLog.ReportsCompleteExactly | src/dispatch_core/domain/work_order.py:387-399 | A report completes an order if and only if its assignee is at work and it holds the photos, comment, signature and code the rules ask for. |
| EventLog.CoordinatorsDecide | src/dispatch_core/domain/work_order.py:405-407 | In any log that replays, after a claim of coordination every publication, assignment and cancellation is the coordinator's. |
| EventLog.DecisionReplays | src/dispatch_core/domain/work_order.py:434-453 | The event a command records leads the replayed view of the old order to the view of the new one. |
| EventLog.MilestonesOnce | src/dispatch_core/domain/work_order.py:168-356 | In any log that replays every stage is reached at most once, and a closing stage exactly when the order shows it. |
| EventLog.ClosingIsLast | src/dispatch_core/domain/work_order.py:322-356 | A completion or cancellation is the last event of any log that replays. |
| EventLog.SubmittedFirstAndOnce | src/dispatch_core/domain/work_order.py:131-166 | A log that replays opens with its submission, which never recurs. |
| Tracking.FixesAreStoredAsSent | src/dispatch_core/application/async_service.py:264-281 | A fix is stored as sent and at the time of its capture; a time before the latest point becomes the later of arrival and that point. |
| Tracking.ClampedFixesAreInOrder | src/dispatch_core/application/async_service.py:264-281 | Behind the service's clamp the ordering error is unreachable: a well-formed fix is refused exactly when the session is closed and the fix is new to it. |
| Tracking.ObserveSteps | src/dispatch_core/domain/tracking.py:133-153 | A point keeps a session sound and ordered, only appends, and moves the version by the events recorded. |
| Tracking.CloseSteps | src/dispatch_core/domain/tracking.py:155-173 | Closing keeps a session sound, clears both tokens and moves the version by one. |
| Tracking.TrackingSession.Start | src/dispatch_core/domain/tracking.py:93-131 | Refuses empty identifiers and weak or equal tokens; otherwise an active session with its first event. |
| Tracking.TrackingSession.AddPoint | src/dispatch_core/domain/tracking.py:133-153 | In place: a known event id is ignored, a closed session or a backward time raises, otherwise the point is appended and recorded. |
| Tracking.TrackingSession.Complete | src/dispatch_core/domain/tracking.py:155-161 | In place: finishes an active session and clears its tokens, or raises. |
| Tracking.TrackingSession.Cancel | src/dispatch_core/domain/tracking.py:163-173 | In place: aborts an active session and clears its tokens, or raises. |
| Tracking.TrackingSession.Record | src/dispatch_core/domain/tracking.py:191-210 | Increments the version and buffers one event carrying it. |
| Tracking.TrackingSession.PullEvents | src/dispatch_core/domain/tracking.py:186-189 | Returns the buffered events and empties the buffer. |
| OrderNumbers.ParseInvertsFormat | src/dispatch_core/domain/order_numbers.py:9-17 | Every positive sequence number is formatted, and a decoder recovers it across the block format, the padded base 36 and numbers longer than the padding. |
| OrderNumbers.NumbersAreDistinct | src/dispatch_core/domain/order_numbers.py:9-17 | Two sequence numbers never share a rendering. |
| OrderNumbers.Base36Loop | src/dispatch_core/domain/order_numbers.py:20-25 | The digit loop, with its list reversed, is positional base 36. |
| OrderNumbers.PaddingKeepsValue | src/dispatch_core/domain/order_numbers.py:17-17 | Zero padding changes the length but not the value. |
| MessageQueue.AttemptsAreBounded | src/dispatch_core/infrastructure/messaging.py:391-486 | Over every run, with any crashes, stale reclaims and late marks, the attempts of a row equal its claims, and claims never exceed the retry limit plus the number of stale reclaims. |
| MessageQueue.RowsOnlyMoveOn | src/dispatch_core/infrastructure/messaging.py:262-353 | Rows are never lost, keep their payload, never give back an attempt, and never change again once delivered or dead. |
| MessageQueue.PromptWorkersExclude | src/dispatch_core/infrastructure/messaging.py:148-255 | If every claim is marked within the stale timeout, at most one worker holds a row at a time and its claim is the current one, although marks check only the status. |
| MessageQueue.ExclusionNeedsPromptWorkers | src/dispatch_core/infrastructure/messaging.py:148-255 | For every run: at no moment can a further claim give a row a second holder if and only if every claim of the run is marked, or its worker gone, within the stale timeout. |
| MessageQueue.SlowWorkersOverlap | src/dispatch_core/infrastructure/messaging.py:148-209 | A concrete run: a worker outlasts the stale timeout, a second claim is granted, and both hold the row. |
| MessageQueue.PromptCrashFreeRuns | src/dispatch_core/infrastructure/messaging.py:330-353 | If moreover no worker crashes, a row is claimed at most `max_attempts` times, and a dead row exactly that often. |
| MessageQueue.CrashesEscapeTheLimit | src/dispatch_core/infrastructure/messaging.py:262-317 | The retry limit does not bound crashes: for every n some run claims a row n times and never kills it. |
| MessageQueue.BackoffIsKept | src/dispatch_core/infrastructure/messaging.py:330-353 | Over every run, a row put back with a delay d at time t is left alone by claims, late marks and crashes before t + d, and is a candidate from t + d on until somebody claims it. |
| MessageQueue.NewRowsWait | src/dispatch_core/infrastructure/messaging.py:360-389 | A new row is a candidate at once and until somebody claims it. |
| MessageQueue.ClaimsLapse | src/dispatch_core/infrastructure/messaging.py:391-441 | A claimed row that nobody marks is a candidate again after exactly the stale timeout. |
| MessageQueue.MessageTable.Accept | src/dispatch_core/infrastructure/messaging.py:360-389 | Inserts a pending row exactly when the key is new and never touches an existing one. |
| MessageQueue.MessageTable.Claim | src/dispatch_core/infrastructure/messaging.py:391-441 | Claims only eligible unlocked rows, at most the limit and as many as there are, none younger than one left behind; each moves on by one attempt and no other row changes. |
| MessageQueue.MessageTable.MarkDelivered | src/dispatch_core/infrastructure/messaging.py:443-456 | Closes a row that is processing; any other row stays as it is. |
| MessageQueue.MessageTable.MarkFailed | src/dispatch_core/infrastructure/messaging.py:458-486 | Puts a processing row back with a later attempt time, or kills it when the worker's attempt number reaches the limit. |
| MessageQueue.BoundIsAttained | src/dispatch_core/infrastructure/messaging.py:262-353 | The bound on attempts is tight: for every limit and every number of reclaims some run claims a row exactly that often. |
| Callbacks.TokensHaveOneOwner | src/dispatch_core/infrastructure/messaging.py:528-591 | Over any run of calls a token is resolved for one claim key only, completed at most once and by that key, and never resolved afterwards. |
| Callbacks.ReplayIsHarmless | src/dispatch_core/messaging/processor.py:568-740 | Pressing any of the nine order buttons again right after its command committed, whether its report draft was cleared yet or not, replies success and ends in the orders, sessions, outbox and drafts of one uninterrupted execution. |
| Callbacks.RedeliveryCompletes | src/dispatch_core/messaging/processor.py:742-753 | A worker that crashes before the command, between its commit and the clearing of the draft, or before completing the claim: the redelivered update ends in the world of one uninterrupted execution and completes the claim if and only if the token has not expired by then; every other claim key is refused, and so is a completed claim. |
| Callbacks.ResolvesExactly | src/dispatch_core/infrastructure/messaging.py:528-571 | Over any run of calls a token resolves if and only if it was issued to the actor's organization for everybody, the actor's role or to an administrator, has not expired, was never resolved under another key and is not finished. |
| Callbacks.CompletesExactly | src/dispatch_core/infrastructure/messaging.py:573-591 | Over any run of calls a claim is completed if and only if it is in the token's organization, by the key that resolved it, and not completed yet. |
| Callbacks.SuccessMeansDone | src/dispatch_core/messaging/processor.py:568-740 | Whoever is told success is told the truth: the button's effect holds in the world the press leaves (the claimer is the assignee, the chosen executor is assigned, the interest stands, the order is at that stage or later, the report is in), and the role entitles to it. |
| Callbacks.PressAnnounces | src/dispatch_core/messaging/processor.py:568-740 | A press that changes anything first records the event the button stands for, in the actor's name, and a report is stored as drafted. |
| Callbacks.PressSucceedsExactly | src/dispatch_core/messaging/processor.py:568-740 | A press succeeds if and only if the role entitles to it and either the log admits the event, the arguments are in order, the executor is free and the session may begin, or the log does not admit it and what the reply tells is so already. |
| Callbacks.OneClaimWins | src/dispatch_core/messaging/processor.py:621-631 | Of two executors who claim one order at most one is told success for as long as the assignment stands. |
| Callbacks.RefusedPressesAreSpent | src/dispatch_core/messaging/processor.py:549-566 | A press that succeeds or that the order's rules refuse is spent; after any other error the same delivery, and no other, may be handled again until the token expires. |
| Callbacks.CallbackStore.Create | src/dispatch_core/infrastructure/messaging.py:493-526 | Stores a fresh, unclaimed token. |
| Callbacks.CallbackStore.Resolve | src/dispatch_core/infrastructure/messaging.py:528-571 | Succeeds exactly for an unexpired token of the organization and role that is unclaimed or claimed by this key and unfinished, and records the claim. |
| Callbacks.CallbackStore.Complete | src/dispatch_core/infrastructure/messaging.py:573-591 | Succeeds exactly once, for the key that holds the claim. |
| RateLimiter.WindowHolds | src/dispatch_core/transports/max.py:360-398 | Over the entire history any `rate`+1 consecutive admissions span at least one second. |
| RateLimiter.ChatWindowHolds | src/dispatch_core/transports/max.py:378-387 | Over the entire history any three admissions of one chat span at least one second. |
| RateLimiter.RuleIsTheWindow | src/dispatch_core/transports/max.py:360-398 | Nothing waits without need: the rule turns an admission away if and only if `rate` others, or two of the same chat, lie in the last second. |
| RateLimiter.SlidingWindow.TakeSlot | src/dispatch_core/transports/max.py:360-398 | Although old times and idle chats are forgotten, it admits exactly when the rule holds over the whole history, and otherwise answers the first moment at which the rule will allow it if nobody else is admitted. |
| RateLimiter.SlidingWindow.PruneChat | src/dispatch_core/transports/max.py:366-372 | The pruned chat queue is exactly the recent part of the chat's whole history. |
| RateLimiter.Prune | src/dispatch_core/transports/max.py:401-403 | Removing expired times from the front leaves exactly the recent times. |
| RateLimiter.EvictionKeeps | src/dispatch_core/transports/max.py:388-396 | An evicted chat had nothing recent to forget. |
| RateLimiter.SlotFreesUp | src/dispatch_core/transports/max.py:406-413 | There is room again exactly once the computed delay has passed. |
| TrackingRows.RunsKeepFullHistory | src/dispatch_core/infrastructure/postgres.py:458-488 | Although each transaction loads only the latest point, after any sequence of them the rows of every session are numbered 1..point_count, only appended to, and ordered by capture time over the whole history. |
| TrackingRows.RecordKeepsHistory | src/dispatch_core/infrastructure/postgres.py:392-456 | One transaction keeps the stored history contiguous and in order and only appends to it. |
| TrackingRows.RecordAppends | src/dispatch_core/infrastructure/postgres.py:458-488 | Whenever the loaded window accepts a fix the transaction succeeds and stores exactly one more row, or none for a repeated event. |
| TrackingRows.WindowRefinesFullLoad | src/dispatch_core/infrastructure/postgres.py:325-355 | The windowed transaction stores what a fully loaded session would hold if and only if no older point of the session carries the same event id under another source. |
| TrackingRows.SavesAreGuarded | src/dispatch_core/infrastructure/postgres.py:392-488 | A save goes through if and only if the row still has the version it was read at, the session holds the point it has to write, and that point's place and source event are free; otherwise nothing is stored. |
| TrackingRows.TrackingRepository.LatestPoint | src/dispatch_core/infrastructure/postgres.py:325-355 | Selects the point with the highest sequence number. |
| TrackingRows.TrackingRepository.Get | src/dispatch_core/infrastructure/postgres.py:599-627 | Loads the columns and at most the latest point, marked as persisted. |
| TrackingRows.TrackingRepository.Save | src/dispatch_core/infrastructure/postgres.py:392-456 | A guarded update of the row and the insertion of the pending points, or a rollback that changes nothing. |
| TrackingRuns.StepsAgree | src/dispatch_core/infrastructure/postgres.py:325-355 | One call takes the tables where a full load would take them if and only if no older point of its open session, but not the latest, carries its event id under another source. |
| TrackingRuns.LocationsAreStoredExactly | src/dispatch_core/infrastructure/postgres.py:325-374 | One call changes the tables if and only if the session's executor sends a position on Earth while it is active, and its event is new to the organization under this source and is not that of the latest point. |
| TrackingRuns.RunsAgree | src/dispatch_core/infrastructure/postgres.py:325-355 | Two runs of the same locations, openings and closings, one on sessions loaded with their latest point and one on sessions loaded with their whole history, have the same tables at every moment if and only if no operation of the windowed run falls into such a gap. |
| TrackingRuns.RunsStoreEventsOnce | src/dispatch_core/infrastructure/postgres.py:357-374 | Over any run of locations, openings and closings every source event of an organization is stored at most once. |
| TrackingRuns.RunsMoveOnward | src/dispatch_core/infrastructure/postgres.py:392-488 | Over any run histories stay contiguous and ordered, sessions stay, and no stored point is lost or changed. |
| TrackingRuns.RunsKeepSessionsApart | src/dispatch_core/infrastructure/postgres.py:392-456 | Over any run an order has at most one active session and no token serves two sessions: only the insertion of a session can meet those indexes, no update can break them. |
| TrackingRuns.CommitIsSerial | src/dispatch_core/infrastructure/postgres.py:458-488 | An open transaction commits what its operation would do at that moment; if the event of a location was stored by another session meanwhile the unique index turns it away, where the serial call would have dropped it. |
| TrackingRuns.OverlappingRunsAreSerial | src/dispatch_core/infrastructure/postgres.py:325-488 | Locations, openings and closings may overlap in any way the row locks allow and be abandoned: the tables are those of the finished operations made one after another, every history is contiguous, ordered and only appended to, and no source event is stored twice. |
| TrackingRuns.WindowMissesAnOlderSource | src/dispatch_core/infrastructure/postgres.py:325-355 | From empty tables, for every session that can begin, a run into a gap, after which the windowed tables hold three points of the session and the fully loaded ones two. |
| Polling.PollingLosesNothing | src/dispatch_core/transports/polling.py:16-41 | With any number of pollers crashing at any point, and a cursor that may move backwards, every update below the stored cursor or forgotten by the provider is in the inbox once with its payload, and the inbox holds nothing else. |
| Polling.EverythingArrives | src/dispatch_core/transports/polling.py:16-41 | From every reachable state one poller that goes on alone has everything the provider ever generated in the inbox after finitely many rounds. |
| Polling.ServedCompletes | src/dispatch_core/transports/telegram.py:179-186 | A served batch is the lowest part of what is left, so its next offset skips nothing. |
| Polling.InboxStore.AcceptPollBatch | src/dispatch_core/infrastructure/messaging.py:89-135 | Stores the unknown updates of a batch, counts them, and moves the cursor in the same transaction. |
| Polling.InboxStore.TelegramOnce | src/dispatch_core/transports/polling.py:24-41 | Asks from the stored cursor and commits batch and next offset together; an empty answer without an offset changes nothing. |
| Projector.KeysAreDistinct | src/dispatch_core/messaging/projector.py:284-596 | Within one event two different pairs of plan and recipient never share a deduplication key, whatever colons executor ids and user ids contain. |
| Projector.EventsDoNotCollide | src/dispatch_core/messaging/projector.py:126-129 | Keys of different events differ, because event ids have one length. |
| Projector.DeliveredMeansEnqueued | src/dispatch_core/messaging/projector.py:70-148 | In every run of claims, takeovers, crashes and failures, an event marked delivered has every message of its first projection enqueued verbatim. |
| Projector.FirstProjectionIsComplete | src/dispatch_core/messaging/projector.py:70-148 | The first projection of an event enqueues exactly one message for every plan and recipient of that moment; no conflict swallows one, although the processor's replies share the table. |
| Projector.TheRightPeopleAreTold | src/dispatch_core/messaging/projector.py:207-596 | After the first projection of an event an identity has a message of it if and only if the event concerns its actor in a role it serves in, and it is offered a button if and only if the button is meant for it: masters alone learn of a pool, the map opens for the client only, the page that sends positions for the executor only. |
| Projector.RepliesAreForeign | src/dispatch_core/messaging/processor.py:184-190 | The key of a processor reply never starts with an event id. |
| Projector.NotificationProjector.Project | src/dispatch_core/messaging/projector.py:70-148 | One transaction inserts the messages of every plan, counts those that were new and marks the event only if it is still processing. |
| Projector.NotificationProjector.ProjectPlan | src/dispatch_core/messaging/projector.py:116-137 | The loop over recipients inserts each message unless its key is taken, and counts the insertions. |
| Projector.MessagesAreDistinct | src/dispatch_core/messaging/projector.py:267-596 | All messages of one projection have distinct keys. |
| PackStore.EditionsStand | src/dispatch_core/infrastructure/pack_store.py:215-248 | As a run continues published editions are only appended: a pinned version's definition never changes or disappears. |
| PackStore.PinnedRevisionsReadAlike | src/dispatch_core/infrastructure/pack_store.py:58-75 | A published version reads the same from the rows of any later moment. |
| PackStore.ShapeOfTables | src/dispatch_core/infrastructure/pack_store.py:102-131 | At most one draft and at most one active row; the active row exists once anything is published; the draft's version exceeds every other and archived versions precede the active one. |
| PackStore.EditionsAreValidated | src/dispatch_core/infrastructure/pack_store.py:24-34 | Every published edition passed the validation; only a bootstrapped first one may not have. |
| PackStore.DraftsPublishExactly | src/dispatch_core/infrastructure/pack_store.py:24-34 | Publishing turns the draft, as it reads, into the next edition if and only if the brand has a name, there is a service, and an address is asked for. |
| PackStore.DraftReadsLastWrite | src/dispatch_core/infrastructure/pack_store.py:89-100 | The draft reads as the pack last written to it, with default role labels filled in. |
| PackStore.HeldBooksAreReadable | src/dispatch_core/infrastructure/pack_store.py:293-298 | Whatever a table holds reads back as a well-formed, fully labelled pack. |
| PackStore.PostgresPackStore.NextVersion | src/dispatch_core/infrastructure/pack_store.py:274-282 | The maximum plus one continues the numbering without gaps. |
| PackStore.PostgresPackStore.ActiveRevision | src/dispatch_core/infrastructure/pack_store.py:45-56 | The newest published edition, or none. |
| PackStore.PostgresPackStore.Revision | src/dispatch_core/infrastructure/pack_store.py:58-75 | A published edition by version; never the draft. |
| PackStore.PostgresPackStore.ReadDraft | src/dispatch_core/infrastructure/pack_store.py:89-100 | The draft as it was last written. |
| PackStore.PostgresPackStore.EnsureDraft | src/dispatch_core/infrastructure/pack_store.py:102-131 | Creates the draft from the seed exactly when there is none. |
| PackStore.PostgresPackStore.UpdateDraft | src/dispatch_core/infrastructure/pack_store.py:133-148 | Rewrites the draft row, or reports that there is none. |
| PackStore.PostgresPackStore.DiscardDraft | src/dispatch_core/infrastructure/pack_store.py:150-159 | Deletes the draft and nothing else. |
| PackStore.PostgresPackStore.RestoreAsDraft | src/dispatch_core/infrastructure/pack_store.py:161-213 | Copies a published edition into the draft, creating it if needed. |
| PackStore.PostgresPackStore.ValidateDefinition | src/dispatch_core/infrastructure/pack_store.py:24-34 | Accepts exactly the publishable packs. |
| PackStore.PostgresPackStore.PublishDraft | src/dispatch_core/infrastructure/pack_store.py:215-248 | Archives the active edition and activates a valid draft; an invalid or missing one changes nothing. |
| PackStore.PostgresPackStore.BootstrapActive | src/dispatch_core/infrastructure/pack_store.py:250-271 | Installs the seed as version 1 exactly when the table is empty. |
| Catalog.RoundTripIsExact | src/dispatch_core/packs/catalog.py:174-203 | `from_json(to_json(p)) == p` if and only if the role labels of p cover the three defaults. |
| Catalog.ReadBack | src/dispatch_core/packs/catalog.py:174-203 | Reading a stored pack back gives the pack with the default role labels filled in. |
| Catalog.ReadingIsStable | src/dispatch_core/packs/catalog.py:185-203 | Whatever JSON is accepted, the pack is well formed and fully labelled, and writing and reading it again loses nothing. |
| Catalog.FieldRoundTrip | src/dispatch_core/packs/catalog.py:46-67 | Every well-formed field survives its JSON form. |
| Catalog.CatalogRoundTrip | src/dispatch_core/packs/catalog.py:125-139 | Every catalog with distinct keys survives its JSON form. |
| Catalog.OrderedFieldsSorts | src/dispatch_core/packs/catalog.py:171-172 | The ordering by (order, key) is a permutation and sorted. |
| Catalog.OrderedIsFixed | src/dispatch_core/packs/catalog.py:171-172 | An already ordered list of fields is left as it is. |
| Drafts.FirstFree | src/dispatch_core/messaging/config.py:1790-1803 | The least free numbering exists, because suffixes are injective and the taken keys finite. |
| Drafts.Slug | src/dispatch_core/messaging/config.py:1790-1803 | The search terminates for every finite set of taken keys and returns a fresh key: the base, or its least free numbering from 2. |
| Drafts.SuffixesDiffer | src/dispatch_core/messaging/config.py:1801-1801 | Different numbers give different suffixed keys. |
| Drafts.MoveItem | src/dispatch_core/messaging/config.py:1770-1787 | The search and swap is the neighbour exchange; a missing key, an unknown direction or the end of the list leaves the list alone. |
| Drafts.MovesGoOneStep | src/dispatch_core/messaging/config.py:1770-1787 | Up is one place towards the front and down one towards the end, for the item and its neighbour only. |
| Drafts.MovePermutes | src/dispatch_core/messaging/config.py:1770-1787 | A move is a permutation. |
| Drafts.UpThenDown | src/dispatch_core/messaging/config.py:1770-1787 | With distinct keys, up and then down restores the list if and only if the item was not first in a longer list. |
| Drafts.DownThenUp | src/dispatch_core/messaging/config.py:1770-1787 | With distinct keys, down and then up restores the list if and only if the item was not last in a longer list. |
| Drafts.MoveIsWhatIsShown | src/dispatch_core/messaging/config.py:818-831 | After a field move the ordering used by the form returns exactly the moved sequence. |
| Drafts.FieldMovesUndo | src/dispatch_core/messaging/config.py:818-831 | Two opposite field moves, in either order, leave the form asking the same fields in the same order, renumbered, if and only if the first was not refused at the end of a longer list. |
| Drafts.MovedAgain | src/dispatch_core/messaging/config.py:1770-1787 | The same move made again changes nothing if and only if there is no second neighbour to pass. |
| Drafts.FieldsMovedAgain | src/dispatch_core/messaging/config.py:818-831 | The same for field moves, judged on the order shown. |
| ConfigEditor.EditionsStayTidy | src/dispatch_core/messaging/config.py:1228-1261 | However many administrators edit, publish, discard and restore at once, on stale reads and with handlers crashing between any two writes, every edition and the draft keep distinct service keys, distinct field keys and a label for every role. |
| ConfigEditor.HandlersStayTidy | src/dispatch_core/messaging/config.py:376-432 | Every handler writes only drafts the constructors accept, with distinct keys, whatever session it read. |
| ConfigEditor.RetriesConverge | src/dispatch_core/messaging/config.py:535-568 | A handler stopped after any number of its writes, the last included, and run again for the same input ends where one run would have if and only if it was stopped before its last write or the input is repeatable: not a toggle, a counter short of its end, a move with a second neighbour, or a brand answer before the last. |
| ConfigEditor.RedeliveriesConverge | src/dispatch_core/messaging/processor.py:155-222 | The same event delivered again: a button press takes effect once if and only if its handler was stopped before its last write or is repeatable; a message takes effect once unless it named a new service and was stopped after the key was remembered, because the session then counts as having handled it. |
| ConfigEditor.SomeTakeEffectTwice | src/dispatch_core/messaging/config.py:581-606 | A redelivered move passes two neighbours, and a redelivered toggle undoes itself. |
| ConfigEditor.NewFieldIsAskedLast | src/dispatch_core/messaging/config.py:771-807 | A new field is asked after every field there is. |
| ConfigEditor.ConfigCoordinator.ServiceSave | src/dispatch_core/messaging/config.py:535-568 | In place: remembers the key before writing the draft, adds the service once, and only clears the session for a key that is already there. |
| ConfigEditor.ConfigCoordinator.FieldType | src/dispatch_core/messaging/config.py:709-738 | In place: records the type, and the key `address` for an address field if it is free. |
| ConfigEditor.ConfigCoordinator.FieldRequired | src/dispatch_core/messaging/config.py:771-807 | In place: adds the field once; an ill-formed field raises before the draft is written. |
| ConfigEditor.ConfigCoordinator.FieldMove | src/dispatch_core/messaging/config.py:818-831 | In place: moves and renumbers, and what is stored is what is shown. |
| ConfigEditor.ConfigCoordinator.RoleLabelSave | src/dispatch_core/messaging/config.py:1008-1031 | In place: sets or resets the label of a known role and refuses an empty one. |
| EditorFlows.FieldIsAdded | src/dispatch_core/messaging/config.py:673-807 | The whole dialogue adds exactly one field, after all others, with the label, type, choices and obligation that were given and a fresh key. |
| EditorFlows.ServiceIsAdded | src/dispatch_core/messaging/config.py:530-568 | The whole dialogue adds exactly one service, last, with the label that was given and a fresh key. |
| EditorFlows.BrandIsEdited | src/dispatch_core/messaging/config.py:436-469 | Three answers edit the three parts of the brand and nothing else. |
| EditorFlows.RoleIsNamed | src/dispatch_core/messaging/config.py:992-1033 | Naming a role changes that role's label only; a dash restores its default, an empty answer leaves the question open. |
| EditorFlows.PromptIsEdited | src/dispatch_core/messaging/config.py:833-871 | Editing a prompt changes the prompt of that field only. |
| EditorFlows.ListButtonsEditTheirPart | src/dispatch_core/messaging/config.py:570-608 | Deleting and moving change the list they name and nothing else: the one item goes, or the order changes. |
| EditorFlows.SwitchesEditTheirPart | src/dispatch_core/messaging/config.py:877-902 | A switch changes the setting it names, by one step or to its opposite, and no other. |
| Intake.EverySubmissionIsComplete | src/dispatch_core/messaging/intake.py:490-532 | Whatever the client sends, in whatever order workers handle it, and however often packs change meanwhile, every submission carries a nonempty choice of its pinned edition's services without repetition, a phone, an address, a value for every required field, and every other answer in the normal form of a field of that edition. |
| Intake.FilledIsGood | src/dispatch_core/messaging/intake.py:412-457 | An answer keeps the session good: all required fields below the current one are filled, and the current one is not. |
| Intake.FinishedIsGood | src/dispatch_core/messaging/intake.py:384-410 | Finishing or repeating the choice of services resumes at the first unanswered field, or asks for confirmation. |
| Intake.PickedIsGood | src/dispatch_core/messaging/intake.py:358-382 | Toggling or choosing a service keeps the selection inside the catalog and free of repetition. |
| Intake.PackEditsKeepGood | src/dispatch_core/messaging/intake.py:542-557 | Publishing and editing packs never disturb a pinned session. |
| Intake.NormalizedIsNormal | src/dispatch_core/messaging/intake.py:597-609 | A normalized answer is nonempty and a canonical integer or one of the offered choices. |
| Intake.AnswersFitTheirFields | src/dispatch_core/messaging/intake.py:597-609 | With distinct field keys each answer is in the normal form of its own field. |
| Intake.DetailsNameTheServices | src/dispatch_core/messaging/intake.py:502-510 | The details name the services, their labels and the pinned edition if and only if no answered field is keyed like one of those entries. |
| Intake.DetailsCarryAnswers | src/dispatch_core/messaging/intake.py:502-510 | Every answer reaches the details, except one keyed `service_location` when a map point was chosen; nothing else does. |
| Intake.UnreservedPacksAreSafe | src/dispatch_core/messaging/intake.py:502-510 | An edition without reserved field keys always submits its services and edition. |
| Intake.AFieldMayHideTheServices | src/dispatch_core/messaging/intake.py:502-507 | A concrete run: a publishable pack is drafted and published, a client fills in the form, and the answer replaces the list of services in the submitted details. |
| FormSources.SubmissionsComeFromTheClient | src/dispatch_core/messaging/intake.py:113-532 | Over any run of overlapping, crashing and repeated handlers, whatever a submission holds was given by the client in that very form: phone, address and each answer when the form asked for it, each service by picking it, the place by pointing at it; and every field of the pinned edition was answered or skipped. |
| FormSources.ContactsAreTakenExactly | src/dispatch_core/messaging/intake.py:222-263 | A phone is taken if and only if it has seven characters apart from spaces and dashes, an address if and only if it has five; the next step follows. |
| FormSources.AnswersAreTakenExactly | src/dispatch_core/messaging/intake.py:412-457 | An answer that suits the field asked is taken and the form goes on to the next unanswered field or the confirmation; any other changes nothing. |
| FormSources.PicksToggle | src/dispatch_core/messaging/intake.py:358-382 | Where several services may be chosen a press toggles that one, otherwise it replaces the choice. |
| FormSources.FormsEndExactly | src/dispatch_core/messaging/intake.py:138-150 | A form ends if and only if it is cancelled or submitted, and it is submitted if and only if the client confirms a form that awaits it and has a choice of services. |
| FormSources.WorkTypeNamesTheServices | src/dispatch_core/messaging/intake.py:490-525 | The work type of a submission, cut at its commas, is the choice of services in its order. |
| FormSources.LabelsAreCaptions | src/dispatch_core/messaging/intake.py:500-505 | The submitted labels are the captions of the chosen services, in the order of the choice. |
| FormSources.FormsStartFresh | src/dispatch_core/messaging/intake.py:93-104 | A handler goes on with the form it read, pinned to the same edition, or starts an empty one pinned to the edition published last. |
| Intake.IntentIsTheForm | src/dispatch_core/application/async_service.py:22-32 | In an edition without reserved field keys two sessions submit the same intent if and only if choice, answers and place are the same. |
| Intake.ConfirmedAgain | src/dispatch_core/messaging/intake.py:490-532 | A confirmation delivered again after its order was created, the session not yet cleared, leaves every order as it is, and clears the session if and only if the session still has the order's intent, that is, for an edition without reserved keys, the same choice, answers and place; otherwise it conflicts and the session stays open. |
| Intake.OrdersStand | src/dispatch_core/application/async_service.py:62-102 | An order created from the form keeps its submission over any continuation of the run, whatever is confirmed under its id later. |
| Intake.IntakeCoordinator.PickService | src/dispatch_core/messaging/intake.py:358-382 | In place: toggles the service, or replaces the choice and goes on, exactly as specified; an unknown service changes nothing. |
| Intake.IntakeCoordinator.FinishServices | src/dispatch_core/messaging/intake.py:384-410 | In place: without a choice nothing changes; otherwise the loop finds the first unanswered field, or asks for confirmation. |
| Intake.IntakeCoordinator.FillField | src/dispatch_core/messaging/intake.py:412-457 | In place: a refused answer changes nothing, an accepted one moves past every field already answered. |

## Left out

- Guarantees.RunsAreSerializable: commits of `record_location` are replayed as the command without its search for the source event in other sessions, because that search is not protected; Guarantees.LocateSerializesExactly gives the exact difference.
- Guarantees.SubmissionsConverge: the order returned to a caller may be an earlier version of the stored one, since the caller may read it before it advances; identity, intent and number agree.
- MemoryStore.UnitOfWork.GetOrder: the deep copy is a fresh object built from the stored value; responses are a map, so their insertion order is not modelled.
- WorkOrders.DecideKeepsSound: creation, update and response timestamps and event ids are not part of an order here; no guard reads them.
- MessageQueue.MessageTable.Claim: among rows of the same age any may be claimed first; the retry delay is a parameter of the failure mark.
- Callbacks.ReplayIsHarmless: covers the nine order actions; role landings and intake, configuration and report-draft actions are not part of it. A second press of the travel button is recognised by any order the executor has under way, of which executor capacity allows one.
- Polling.PollingLosesNothing: the provider numbers updates upwards and forgets what lies below the offset it is asked from; updates without an integer id are ignored. The MAX loop, whose marker comes from the provider instead of the largest id, is not modelled.
- ConfigEditor.RedeliveriesConverge: the event is delivered again before anything else happens to the draft or the session.
- TrackingRuns.OverlappingRunsAreSerial: what a departure or a closing does to the work order in the same transaction is not part of it.
- Projector.FirstProjectionIsComplete: later projections of the same event may add messages for recipients that appeared meanwhile; the directory of one moment lists every external identity once, with its actor's active roles.
- RateLimiter.SlidingWindow.TakeSlot: times are reals of a clock that does not run backwards; floating-point rounding is not modelled.
- Catalog.ReadingIsStable: a value of another JSON type than `to_json` writes is an error here where Python would carry it along unchecked, and a number given as a string is not parsed.
- Drafts.Slug: Unicode normalisation and squeezing of the label are a parameter; the search for a free key is not.
- ConfigEditor.HandlersStayTidy: the splitting of a comma-separated list of choices is a parameter.
- Intake.EverySubmissionIsComplete: Python's integer parsing and case folding are parameters of which only this is assumed: a parsed integer is nonempty and parses to itself, and only the empty string folds to the empty string. Address tokens and address modes are not modelled; sessions without a pinned edition, from before pinning, are not considered.
- White space is the ASCII part of what `strip` removes.
- The synchronous twin of service and store, which keys orders by id alone and clamps times differently.
- The Postgres repositories of orders and of the outbox, whose row locks and guarded updates play the role of the version check modelled in memory.
- HTTP, pages, settings, health checks, transports beyond the limiter and the polling loop, and the parsing of their payloads.
- Card texts, prompts, menus and button layout; a reply is success or refusal. A projected message has its buttons, but no text.
- Identities, roles, binding codes, statistics and heartbeats.
- Retention cleanup and session expiry: deleting rows ends the period in which duplicates are recognised.
- Randomness, UUIDs, hashes and clocks: tokens, identifiers and times are arguments of the steps that use them.
