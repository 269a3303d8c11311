# A verified model of a durable task runtime

The runtime keeps long-running provider tasks in a database and talks to adapters
that run them. Its hard logic is a set of protocols made of short atomic
transactions that competing workers run. This project models those transactions
in Dafny and proves what holds over every interleaving of them, with crashes, lost
and repeated messages and arbitrary clock readings.

Each protocol is modelled twice. The transactions are functions on table values
(`BusinessEventTables`, `TaskTables`, `Idempotency`, `ReferenceAdapter`), and a run is
any sequence of them; the invariants and the theorems are lemmas about runs. Beside
them, classes hold the tables as fields and update them statement by statement, as
the source does; every method's contract says that the new contents and the reply are
those of the function.

* **Business events**: `BusinessEventTables` (rows and transactions),
  `BusinessEventRepository` (the same, imperatively), `BusinessEventGenerations`,
  `BusinessEventOrdering`, `BusinessEventContiguity`, `BusinessEventIntake`,
  `BusinessEventLeases`, `BusinessEventReplay`, `BusinessEventStalls`,
  `BusinessEventContinuity`, `BusinessEventProvenance` (what holds over runs),
  `BusinessEventReplies` (what each answer says about the tables),
  `BusinessEventExactness` (the conditions on steps are exact),
  `BusinessEventCounterexamples` (runs that reach the failures),
  `BusinessEventSubscription` (replay and live delivery), `RelationPages`.
* **Tasks**: `TaskTables`, `TaskRepository`, `TaskLifecycle`, `TaskCauses`, `TaskStops`,
  `TaskSnapshots`, `TaskInput` (what holds over runs), `TaskStarts`, `TaskStopReasons`,
  `TaskCommands`, `TaskDeliveries`, `TaskResults` (exactly when each transaction takes
  effect, and what it means), `TaskViews`, `TaskEdges`.
* **Invocation**: `Idempotency`, `ReferenceAdapter`, `Invocation` (calls, recoverers,
  scheduler and adapter as one state machine), `InvocationCauses`, `AdapterBehaviour`,
  `CommandDispatch`.
* **Canonical JSON** (`CanonicalJson`) and the **rate limiter** (`RateLimiter`).

`dafny verify dfyconfig.toml` checks everything.

## Assumptions

* A transaction is atomic. Where one reads the clock several times, the readings are
  separate parameters with no order between them.
* Fresh identifiers are parameters that must not have been used; hashes are the values
  they identify.
* A snapshot transition and a source fact arrive validated: schema checks and the
  patterns of `validateSourceFact` enter as a verdict.
* Numbers in JSON stand for their shortest decimal text, so `0` and `-0` are one.
* A task table holds the rows of one task. Command facts and identity conflicts enter its
  outbox, and the cleaner leaves it, at any time; the gate's check for repeated keys sees
  what is left.
* Whether an event is delivered to a subscriber depends on its sequence only.

## Where the code does less than one might expect

* **Contiguity within a generation is not unconditional.** Three kinds of transaction can
  take it from a source: a rotation that skips a loss row behind a publishable one
  (`GenerationCanSkipARow`); an intake that stores a publishable row below a skipped or
  published one, or a loss row between two events (`IntakeCanLeaveAGap`); and giving up a
  best-effort head after an event of its generation. Without them there are no gaps,
  whatever the leases, clocks, streams and other sources (`GenerationsContiguous`); they are
  exactly the transactions that do not keep the invariant (`StepSoundExactly`), and each
  goes on to a gap or to disorder (`StepKeepsSourceExactly`). With a replayed log no intake
  does harm (`ReplayedIsContiguous`).
* **A source put back on a stream it left starts counting anew** and can publish out of
  order (`StreamReuseBreaksOrder`). A rotation leads to that exactly if a sequence of the
  stream is free below a published row (`RotationKeepsOrderExactly`); if the adapter replays
  a log of every stream, none does (`ReplayedIsOrdered`).
* **Intake checks the lease twice.** If it expires in between, the row is stored and the
  counter is not, and the check on the counters refuses its publication
  (`ExpiryInsideIntakeStalls`): exactly while the ready head is above the counter
  (`StallsExactly`), which only such an intake causes (`UncountedWasLate`) and the next
  counted event ends (`NextEventEndsStall`). If leases outlast intakes and no stream comes
  back, publication never fails (`PublicationNeverFails`).
* **`confirmBoundExecutionStarted` passes the larger of two adapter revisions to the gate**,
  which refuses an equal one, so a confirmation at the stored revision is lost
  (`ConfirmAppliesExactly`, `ConfirmationCanBeLost`).
* **`beginCancel` exhausts waiting update commands but leaves their responses assigned**
  (`CancelOrphansExactly`, `CancelCanOrphan`), and so does a terminal snapshot
  (`SnapshotOrphansExactly`, `SnapshotCanOrphan`).
* **`recordCooperativeCancellationIntent` requests a stop without entering the stopping
  state** (`IntentStopsElsewhereExactly`, `IntentCanStopElsewhere`).
* **After the last answer is acknowledged and before the next snapshot** the protocol
  projection of an input-required task fails (`AnsweredTaskCannotBeShown`); on a coherent
  row it fails for no other payload (`MapTaskToDetailedTask`).
* **`sanitizeResultPayload` looks names up in a plain object**, so a reported field with a
  name that every object inherits, such as `constructor`, is dropped like a reserved one
  (`FieldsLostExactly`).
* **With `maxKeys` below 1** the limiter still holds one window (`SizeBounded`).

## Model

| member | source | states |
|---|---|---|
| BusinessEventRepository.Repository.InitializeProvider | packages/persistence-postgres/src/business-events.ts:137-223 | The first call opens generation 1 with its roster, a repeated one returns the current stream; the tables after it are exactly `Initialize` of the tables before it. |
| BusinessEventRepository.Repository.AcquireSourceLease | packages/persistence-postgres/src/business-events.ts:268-347 | A lease is given only if the source's is free or expired, with the next fencing token; the tables become `Acquire` of the old ones. |
| BusinessEventRepository.Repository.RenewSourceLease | packages/persistence-postgres/src/business-events.ts:349-368 | Only the matching, unexpired lease is extended; nothing else changes. |
| BusinessEventRepository.Repository.LockAndValidateLease | packages/persistence-postgres/src/business-events.ts:1697-1717 | Returns the source row exactly if owner, stream, token and expiry all match, and changes nothing. |
| BusinessEventRepository.Repository.IntakeSourceFact | packages/persistence-postgres/src/business-events.ts:370-538 | Duplicate, conflicting, poison, out-of-order and new facts are told apart and stored or refused as `Intake` says, with separate clock readings for the lease check and for the counter update. |
| BusinessEventRepository.Repository.FindClashes | packages/persistence-postgres/src/business-events.ts:415-439 | Counts the stored rows that share an id or a sequence with a fact, and finds the first. |
| BusinessEventRepository.Repository.PersistUndecodablePoison | packages/persistence-postgres/src/business-events.ts:540-584 | A fact that cannot be decoded becomes a poison row and blocks its source. |
| BusinessEventRepository.Repository.SelectHead | packages/persistence-postgres/src/business-events.ts:603-611 | The head of line of a source: its open row of least sequence on its current stream. |
| BusinessEventRepository.Repository.PrepareNextSourceEvent | packages/persistence-postgres/src/business-events.ts:586-723 | The head is mapped, parked as a loss, or skipped for a best-effort source; no other row changes. |
| BusinessEventRepository.Repository.FinalizeNextSourceEvent | packages/persistence-postgres/src/business-events.ts:725-888 | The prepared head is appended to the current generation with the next sequence, or the constraint on the counters refuses it. |
| BusinessEventRepository.Repository.RotateStream | packages/persistence-postgres/src/business-events.ts:890-1138 | A rotation closes the current generation, opens an empty one, re-enrols the roster and skips the loss rows of the affected sources; a repeated reason returns the first record. |
| BusinessEventRepository.Repository.EnrolSource | packages/persistence-postgres/src/business-events.ts:1030-1047 | Re-enrolment clears the lease and keeps the fencing token; a changed source stream resets both counters. |
| BusinessEventRepository.Repository.SkipAffectedLosses | packages/persistence-postgres/src/business-events.ts:1056-1085 | Exactly the loss rows of the affected sources become skipped. |
| BusinessEventRepository.Repository.MarkSourceUnavailable | packages/persistence-postgres/src/business-events.ts:1252-1267 | Only the lease holder can mark its source, and only the status changes. |
| BusinessEventRepository.Repository.ContinuityForPreviousStream | packages/persistence-postgres/src/business-events.ts:1240-1250 | The continuity record that closed a stream, if there is one. |
| BusinessEventTables.HeadIsFirst | packages/persistence-postgres/src/business-events.ts:603-611 | The head of line is an open row with no open row of the same source stream below it, and there is one whenever any row is open. |
| BusinessEventGenerations.GenerationsSoundAlways | packages/persistence-postgres/src/business-events.ts:161-171 | In every reachable state one generation is current and the runtime points to it; every generation holds exactly the sequences 1 to its current one; a closed one has `lastReplayable` equal to it; the generations form one acyclic chain. |
| BusinessEventGenerations.ClosedGenerationsFrozen | packages/persistence-postgres/src/business-events.ts:970-1006 | Over any continuation of any run a stream's events are only extended, and a closed generation and its events never change. |
| BusinessEventGenerations.FollowReachesCurrent | packages/persistence-postgres/src/business-events.ts:1240-1250 | Following continuity records from any stream visits distinct streams and ends at the current one; the version is one more than the number of records. |
| BusinessEventGenerations.RotationIdempotent | packages/persistence-postgres/src/business-events.ts:901-925 | After a successful rotation, any later request with its reason identity gets the first record back and changes nothing. |
| BusinessEventGenerations.FinalizeFootprint | packages/persistence-postgres/src/business-events.ts:792-836 | Finalizing either changes nothing or appends exactly the returned event to the current generation. |
| BusinessEventContinuity.ContinuousExactly | packages/persistence-postgres/src/business-events.ts:970-1006 | In every reachable state a generation has a last continuous sequence if and only if it is closed and every source of its roster is durable, and it is then the number of its events, its last event sequence; its continuity class says whether all, none or some of its sources are durable. |
| BusinessEventContinuity.RecordsPromiseExactly | packages/persistence-postgres/src/business-events.ts:970-1006 | The same of every continuity record, about the generation it closed. |
| BusinessEventContinuity.RosterInstalled | packages/persistence-postgres/src/business-events.ts:933-945 | A rotation installs exactly the configured sources, each as configured, or the roster of the generation it closes; other rosters stay. |
| BusinessEventContinuity.SourcesFollowRoster | packages/persistence-postgres/src/business-events.ts:1030-1047 | In every reachable state the sources of the current roster are on its streams, with its semantics. |
| BusinessEventProvenance.EventsTellFacts | packages/persistence-postgres/src/business-events.ts:586-836 | Every event of every run was taken in, prepared and published by three transactions of the run, in this order. It carries the identity and body the intake was given, and the task the preparing transaction found mapped to its execution, or exactly the tasks it found bound to its resource, in their order. |
| BusinessEventProvenance.RowsGoOn | packages/persistence-postgres/src/business-events.ts:586-723 | What any transaction does to any row: it arrives as given; is made ready with the relation found; waits before its deadline and is lost after it, skipped if best effort and kept for a rotation if durable; is published; or is given up by a rotation naming its source. What it says never changes. |
| BusinessEventProvenance.RecordsTellRequests | packages/persistence-postgres/src/business-events.ts:890-1138 | Every continuity record was made by a rotation of the run, and carries its reason, its identity, the sources it named, or all if it named none, and the number of events then published. |
| BusinessEventReplies.InitializeExactly | packages/persistence-postgres/src/business-events.ts:137-223 | Initializing succeeds exactly for 1 to 16 sources, distinct the first time, and answers with the stream that is current after it. |
| BusinessEventReplies.RotateExactly | packages/persistence-postgres/src/business-events.ts:890-1138 | A rotation takes place exactly for a new reason, an existing stream, admissible sources and an unused stream id; refusals change nothing. |
| BusinessEventReplies.EnrolledExactly | packages/persistence-postgres/src/business-events.ts:1010-1047 | After a rotation every source of the roster is active and free, enrolled as it says, with its token, and with its counters exactly if it stays on its stream; every other is disabled and free. |
| BusinessEventReplies.RefusedFacts | packages/persistence-postgres/src/business-events.ts:370-470 | In a sound state a fact is refused for its range, a lease that is not valid, its stream, an identity it shares with another, or a sequence already passed, in this order, and the last three block the source; a stored fact is a duplicate and changes nothing. |
| BusinessEventReplies.TakenFacts | packages/persistence-postgres/src/business-events.ts:470-538 | Every other fact is stored as given, and counted if the lease is still valid; then the source is active, or, for an invalid fact, waits for a rotation if durable and is degraded if not. |
| BusinessEventReplies.PoisonExactly | packages/persistence-postgres/src/business-events.ts:540-584 | Undecodable facts are stored under a valid lease only, and block the source. |
| BusinessEventReplies.PrepareExactly | packages/persistence-postgres/src/business-events.ts:586-723 | The answer tells what the head has become, and that there is none exactly if nothing of the stream is open; a source that lost its head waits for a rotation if durable and is degraded if not. |
| BusinessEventReplies.PrepareProceeds | packages/persistence-postgres/src/business-events.ts:612-712 | A live head becomes ready exactly if it was, is of a resource, or its task is mapped. |
| BusinessEventReplies.MarkExactly | packages/persistence-postgres/src/business-events.ts:1252-1267 | A source is marked by the worker that holds it, at any time, and by nobody else. |
| BusinessEventReplies.RenewExactly | packages/persistence-postgres/src/business-events.ts:349-368 | Exactly a valid lease is extended; it is then valid up to the given time. |
| BusinessEventContiguity.TablesSoundAlways | packages/persistence-postgres/src/business-events.ts:370-538 | In every reachable state, whatever the rotations: a sequence and an event id name at most one row of a source stream, every event is the event of a published row and every published row has one, and the finalized counter is at most the persisted one. |
| BusinessEventContiguity.PublicationOrder | packages/persistence-postgres/src/business-events.ts:757-768 | Over every run whose rotations do not put a source back on a stream with a free sequence below a published row: the rows of that source are published in source order, each at most once, and no open row lies below a published one. |
| BusinessEventExactness.RotationKeepsOrderExactly | packages/persistence-postgres/src/business-events.ts:1039-1044 | After a rotation from any sound state some continuation with safe rotations publishes the source out of order, if and only if the rotation puts it back on a stream with a free sequence below a published row. |
| BusinessEventExactness.DisorderFollows | packages/persistence-postgres/src/business-events.ts:1039-1044 | Every safe run followed by such a rotation goes on, safely, to events out of order. |
| BusinessEventContiguity.StepKeepsFinished | packages/persistence-postgres/src/business-events.ts:757-790 | A published or skipped row never changes again, and no row loses its identity. |
| BusinessEventContiguity.SkipsAreJustified | packages/persistence-postgres/src/business-events.ts:1056-1085 | A row is skipped only by a rotation whose new record names its source, or when a best-effort source has nothing to map it to. |
| BusinessEventContiguity.BetweenPublishedOrSkipped | packages/persistence-postgres/src/business-events.ts:732-790 | Over every run safe for a source, whatever lies between two of its events of one stream in one generation was published between them there, or was skipped. |
| BusinessEventOrdering.StepOrderly | packages/persistence-postgres/src/business-events.ts:456-508 | Whatever the transaction, rotations included, order of a source is lost only to an intake that stores a publishable row below a published one. |
| BusinessEventExactness.StepSoundExactly | packages/persistence-postgres/src/business-events.ts:370-538 | A transaction from a state sound for a source leads to one that is sound for it if and only if it is careful: it stores no publishable row below a published or skipped one and no loss row between two events of one generation; it gives up no best-effort head after an event of its generation; and it skips no loss row with a publishable row of the stream below it. |
| BusinessEventExactness.StepKeepsSourceExactly | packages/persistence-postgres/src/business-events.ts:1056-1085 | The consequence of that, over all continuations: after any transaction from a sound state some careful continuation publishes the source out of order or leaves a gap in a generation of it only if the transaction is not careful; and if and only if it is not, when no loss row of the stream is open and the source has a sequence left to take. |
| BusinessEventExactness.BreakFollows | packages/persistence-postgres/src/business-events.ts:370-538 | Every careful run followed by such a transaction goes on, carefully, to events out of order or a generation with a gap. |
| BusinessEventExactness.GapFollows | packages/persistence-postgres/src/business-events.ts:1056-1085 | If the transaction stores nothing below a published row, it goes on to a generation with a gap. |
| BusinessEventContiguity.GenerationsContiguous | packages/persistence-postgres/src/business-events.ts:732-790 | Over every run that is careful with one source, whatever happens to the others and whatever the leases, clocks and streams, the events of that source in a generation are a contiguous run of its inbox, and all its events are in source order. |
| BusinessEventReplay.ReplayedIsOrdered | packages/persistence-postgres/src/business-events.ts:370-538 | If the adapter replays a log of every stream of a source, its events are in source order, with no condition on rotations, leases or streams. |
| BusinessEventReplay.ReplayedIsCareful | packages/persistence-postgres/src/business-events.ts:370-538 | If the adapter replays a log of every stream, a run needs no condition on intakes to be careful. |
| BusinessEventReplay.ReplayedIsContiguous | packages/persistence-postgres/src/business-events.ts:370-538 | So its generations are contiguous if rotations skip leading losses only and no head is given up after an event of its generation. |
| BusinessEventContiguity.PublicationNeverFails | packages/persistence-postgres/src/business-events.ts:792-836 | Over every run in which the leases of a source outlast its intakes and no rotation brings it back to a stream, finalizing for it never fails. |
| BusinessEventContiguity.StallsExactly | packages/persistence-postgres/src/business-events.ts:792-836 | In every reachable state finalizing meets the counter constraint if and only if the head of the source is ready and above its persisted counter. |
| BusinessEventStalls.UncountedWasLate | packages/persistence-postgres/src/business-events.ts:499-516 | Over every run that never brings a source back to a stream, a row above its counter was stored by an intake whose lease was valid at the first check and not at the second. |
| BusinessEventStalls.NextEventEndsStall | packages/persistence-postgres/src/business-events.ts:456-516 | The next event taken under a lease valid at both checks ends the stall: the head that was refused is published. |
| BusinessEventStalls.StallStays | packages/persistence-postgres/src/business-events.ts:792-836 | No other transaction ends it, but for a rotation or a row of that source. |
| BusinessEventCounterexamples.GenerationCanSkipARow | packages/persistence-postgres/src/business-events.ts:1056-1085 | A run of a durable source, careful but for one rotation that skips a stranded loss, in which a generation lacks a row between two of its events. |
| BusinessEventCounterexamples.IntakeCanLeaveAGap | packages/persistence-postgres/src/business-events.ts:456-508 | A run, careful but for one intake that stores an event below a skipped one, in which a generation lacks the skipped row. |
| BusinessEventCounterexamples.StreamReuseBreaksOrder | packages/persistence-postgres/src/business-events.ts:1039-1044 | A run in which nothing goes wrong up to the rotation that puts a source back on an old stream, and all later rotations are safe, in which the source is published out of order. |
| BusinessEventCounterexamples.ExpiryInsideIntakeStalls | packages/persistence-postgres/src/business-events.ts:499-516 | A run in which nothing goes wrong but for one intake inside which the lease expires, after which publication of the source fails on the counters. |
| BusinessEventIntakeRuns.InboxIsPrefixOfLog | packages/persistence-postgres/src/business-events.ts:370-538 | If the adapter replays a fixed increasing log, the inbox of that source stream is an exact prefix of the log in every reachable state, whatever the leases, workers, rotations and clocks. |
| BusinessEventIntake.RedeliveryChangesNothing | packages/persistence-postgres/src/business-events.ts:415-443 | Delivering again anything already stored is reported as a duplicate and changes nothing. |
| BusinessEventIntake.NextIsTaken | packages/persistence-postgres/src/business-events.ts:456-508 | The next event of the log is appended. |
| BusinessEventLeases.SupersededCannotWrite | packages/persistence-postgres/src/business-events.ts:1697-1717 | No transaction under a superseded lease changes anything, at any clock reading. |
| BusinessEventLeaseRuns.SupersededForever | packages/persistence-postgres/src/business-events.ts:1697-1717 | A superseded lease stays superseded over every continuation. |
| BusinessEventLeaseRuns.LaterAcquisitionFencesEarlier | packages/persistence-postgres/src/business-events.ts:268-347 | Of two acquisitions in a run the later has the greater token, and the earlier lease never passes validation again: at most one issued lease can be valid at a time. |
| BusinessEventLeaseRuns.TokensGrowOver | packages/persistence-postgres/src/business-events.ts:1030-1047 | Fencing tokens never decrease over any run, rotations included. |
| BusinessEventLeases.AcquireExactly | packages/persistence-postgres/src/business-events.ts:268-347 | An acquisition is refused if and only if the source is missing, on another stream, blocked or waiting for a rotation, or another owner's lease has not run out. |
| BusinessEventLeases.HolderChanges | packages/persistence-postgres/src/business-events.ts:268-347 | A held source passes to another owner only by an acquisition after its lease ran out, and is freed only by a rotation. |
| BusinessEventLeaseRuns.LeaseProtects | packages/persistence-postgres/src/business-events.ts:268-368 | Over every run, an owner whose lease lasts, renewed or not, keeps its source. |
| BusinessEventSubscription.Session.Listen | packages/mcp-protocol/src/business-events.ts:261-389 | A cursor starts after its sequence, `latest` after the last one, `earliest_available` before the earliest. The subscription is refused exactly for a missing or retired generation, a start beyond the last sequence, or one before the earliest, and then nothing is sent. Every message, even after a refused one, is a deliverable event after the start, in ascending order; the first is the first deliverable one after the start, and up to the first refused message none is left out. If the connection stays open, the reader shows what it announces and nothing is refused or fails, the subscriber is acknowledged, every deliverable event up to the watermark is sent, everything up to every poll's announcement is scanned, and it is told when the generation is over. |
| BusinessEventSubscription.Session.Follow | packages/mcp-protocol/src/business-events.ts:338-373 | The live loop stays in step over any number of polls, serves each announcement, and ends exactly when a poll finds the generation no longer current or the connection closes. |
| BusinessEventSubscription.ListenTwice | packages/mcp-protocol/src/business-events.ts:299-373 | Two sessions, the second asked for with the last sequence the first delivered: if neither is refused a message, together they received exactly the deliverable events from where the first started, none lost and none repeated. |
| BusinessEventSubscription.RunsShowPrefixes | packages/persistence-postgres/src/business-events.ts:1140-1154 | Over every run, what a reader shows of a stream at any moment is a prefix of what it ends up with, and that has no gaps. |
| BusinessEventSubscription.RunsAreHonest | packages/persistence-postgres/src/business-events.ts:236-246 | A reader that reads later and later shows at least what it announced. |
| BusinessEventSubscription.RunsAreReadable | packages/persistence-postgres/src/business-events.ts:225-246 | Every generation a subscriber finds in a run is within the events its stream ends up with. |
| BusinessEventSubscription.ReplayBatchIsQuery | packages/persistence-postgres/src/business-events.ts:1140-1154 | In every reachable state the limited replay query returns the batch a session reads. |
| BusinessEventSubscription.Session.Replay | packages/mcp-protocol/src/business-events.ts:425-492 | A scan stays in step with the log, terminates on `through - scanned`, and reaches `through` on a steady connection. |
| BusinessEventSubscription.Session.Scan | packages/mcp-protocol/src/business-events.ts:450-490 | Inside a batch the scan position moves before each message; a refusal or a fault stops it there. |
| BusinessEventSubscription.ReplayQueryIsSlice | packages/persistence-postgres/src/business-events.ts:1140-1154 | In every reachable state the replay query returns exactly the slice of the stream after the cursor up to `through`. |
| BusinessEventSubscription.VisibleExact | packages/mcp-protocol/src/business-events.ts:425-492 | What is received is exactly the authorized events in the interval, in ascending sequence. |
| BusinessEventSubscription.ReconnectConcatenates | packages/mcp-protocol/src/business-events.ts:299-373 | A session resumed at the last delivered sequence continues the first one with no loss and no repeat. |
| RelationPages.WalkGivesAll | packages/persistence-postgres/src/business-events.ts:1401-1502 | Walking by `nextAfterTaskId`, with any page sizes from 1 to 256, ends and gives each projected id once in ascending order, as many as each page's total. |
| RelationPages.PageIsBlock | packages/persistence-postgres/src/business-events.ts:1475-1501 | A page is the next block of the projection and has a cursor exactly if more is left. |
| RelationPages.ProjectedHolds | packages/persistence-postgres/src/business-events.ts:1335-1381 | A projection is strictly ascending and holds exactly the ids it was made from. |
| RelationPages.NotificationIsPrefix | packages/mcp-protocol/src/business-events.ts:719-726 | The list in a notification is the beginning of the walk, its count is the walk's length, and it is marked truncated exactly if ids are missing. |
| RelationPages.RefusedExactly | packages/persistence-postgres/src/business-events.ts:1401-1502 | A page is served exactly if its size is from 1 to 256, the projection is stored and unexpired, the event unexpired, subject and scope match, neither relation has changed, and the anchor is in the projection; it is then the page of the projected ids; each refusal has exactly its cause. |
| RelationPages.ProjectionServes | packages/persistence-postgres/src/business-events.ts:1335-1381 | A projection of the sorted ids an event is authorized for serves every page of the walk to its subject and scope until it or the event expires or the candidates change. |
| TaskRepository.Repository.TransitionTask | packages/persistence-postgres/src/tasks.ts:3808-3978 | The gate: a repeated event key, a finished row or a stale adapter revision changes nothing; otherwise exactly the named columns, one observation and one outbox row. |
| TaskRepository.Repository.ApplyAdapterSnapshot | packages/persistence-postgres/src/tasks.ts:3691-3788 | A newer snapshot is merged with a requested stop and applied with its input requests, all or nothing; a terminal one exhausts the commands under way. |
| TaskRepository.Repository.UpsertInputRequests | packages/persistence-postgres/src/tasks.ts:4229-4264 | Requests are added in order; a repeated key must carry the same request, and never changes its status. |
| TaskRepository.Repository.PersistStartWindowStop | packages/persistence-postgres/src/tasks.ts:4038-4143 | A missed start window turns into a stop, reusing an active cancel and keeping a deadline as the reason. |
| TaskRepository.Repository.PublishAcceptedTask | packages/persistence-postgres/src/tasks.ts:507-598 | A new row is published once with its first observation and its requests. |
| TaskRepository.Repository.AcceptScheduledTask | packages/persistence-postgres/src/tasks.ts:1697-1766 | A scheduled start is bound to its execution by the claim owner only. |
| TaskRepository.Repository.ClaimExpired | packages/persistence-postgres/src/tasks.ts:2199-2307 | A reached deadline becomes the stop reason, on the active cancel or a new one. |
| TaskRepository.Repository.BeginCancelCommand | packages/persistence-postgres/src/tasks.ts:2688-2840 | A cancel supersedes waiting control commands and asks for a stop, unless one is under way or the row is finished. |
| TaskRepository.Repository.BeginControlCommand | packages/persistence-postgres/src/tasks.ts:2871-3025 | A control command is created only if nothing is under way and no stop is requested. |
| TaskRepository.Repository.ClaimDue | packages/persistence-postgres/src/tasks.ts:777-931 | The due command that ranks first is claimed, after expired control claims of a stopping row are exhausted; the single-claim index rolls everything back. |
| TaskRepository.Repository.RejectCancel | packages/persistence-postgres/src/tasks.ts:3474-3582 | A rejected cancel clears the stop in one transaction with its command, or not at all. |
| TaskRepository.Repository.AcceptInputResponses | packages/persistence-postgres/src/tasks.ts:2383-2506 | For an admitted caller, and if no open request refuses its response, exactly the responses to open requests without an earlier one are stored; otherwise nothing changes. |
| TaskRepository.Repository.InsertResponses | packages/persistence-postgres/src/tasks.ts:2434-2474 | The loop over the responses stops at the first that an open request refuses, and otherwise stores exactly the new ones. |
| TaskRepository.Repository.PromotePending | packages/persistence-postgres/src/tasks.ts:2508-2622 | Pending responses become one update command that carries them, or are ignored once a stop is requested. |
| TaskResults.SnapshotsAdmissible | packages/domain/src/task.ts:154-266 | Every adapter state maps to a transition whose state, status, result and error agree. |
| TaskResults.StatusExactly | packages/domain/src/task.ts:154-226 | An unknown state maps to nothing; a task is failed exactly for a technical failure, cancelled exactly for a cancellation, completed exactly for the three business endings, waits for input exactly for WAITING_INPUT, and works exactly for the seven other states. |
| TaskResults.WorkingExactly | packages/domain/src/task.ts:154-170 | Each working state is shown as itself. |
| TaskResults.EndingExactly | packages/domain/src/task.ts:131-221 | A technical failure carries the adapter's reason and whether to retry, a business ending a result that is an error exactly if it is not a success. |
| TaskResults.StateRecoverable | packages/domain/src/task.ts:154-226 | Equal transitions come from equal adapter states. |
| TaskResults.SnapshotIsShown | packages/persistence-postgres/src/tasks.ts:3691-3788 | In every reachable state, a newer snapshot of a live task with no stop requested is what the row shows afterwards, state by state, with its requests stored. |
| TaskResults.SanitizeFields | packages/domain/src/task.ts:93-106 | The loop over the reported fields keeps exactly those that are neither reserved nor inherited. |
| TaskResults.ReservedFieldsAreTheRuntimes | packages/domain/src/task.ts:131-152 | An adapter cannot set a reserved field: a success has none, a failure has the runtime's; every other field is as reported. |
| TaskResults.FieldsLostExactly | packages/domain/src/task.ts:93-106 | A reported field is lost exactly if its name is reserved or one that every object inherits. |
| TaskLifecycle.CoherentAlways | packages/persistence-postgres/src/tasks.ts:3808-3978 | In every reachable state, command facts and outbox cleaning included: internal state, status, result and error agree; `cancel_requested` holds exactly when a stop reason is set; a row not yet started has no execution id; observations are exactly 1 to `observation_revision`, one per version; no outbox key occurs twice. |
| TaskLifecycle.OneRowPerObservation | packages/persistence-postgres/src/tasks.ts:3917-3978 | As long as nothing is cleaned, the outbox holds exactly one row written by the gate per observation, beside any number of facts. |
| TaskLifecycle.NothingIsUndone | packages/persistence-postgres/src/tasks.ts:3819-3844 | Over every continuation of every run a finished row never changes, a bound execution id and a recorded start stay, adapter and runtime revisions never decrease, and observations are only added. |
| TaskLifecycle.StepMoves | packages/persistence-postgres/src/tasks.ts:3819-3978 | Each transaction but the creating, binding and deferring ones, and those on the outbox alone, applies at most one change, which adds exactly one to version, runtime revision and observation revision and writes one observation and one outbox key. |
| TaskCauses.EndHasACause | packages/persistence-postgres/src/tasks.ts:3819-3978 | Every finished task was finished by one transaction of the run: the adapter reported this very end to one that may take its word, or the runtime missed its start, was refused it, lost the execution, could not stop it, or could not deliver an answer, and the row shows which. |
| TaskCauses.CancelledByAdapter | packages/persistence-postgres/src/tasks.ts:3691-3788 | A task is cancelled only if the adapter reported it cancelled. |
| TaskCauses.StopHasACause | packages/persistence-postgres/src/tasks.ts:4038-4143 | Every stop was asked for by a transaction of the run for the reason the row shows. |
| TaskCauses.ExecutionHasACause | packages/persistence-postgres/src/tasks.ts:1697-1766 | The execution of every task was bound by its publication, or by the owner of the claim of its scheduled start, with this id. |
| TaskStarts.PublishExactly | packages/persistence-postgres/src/tasks.ts:507-598 | A task is published once, showing the first snapshot, bound and with its requests; if its start window was missed and it is not over, stopping, with a cancel waiting. |
| TaskStarts.PublishScheduledExactly | packages/persistence-postgres/src/tasks.ts:600-678 | A scheduled task is published once, without an execution or an attempt. |
| TaskStarts.ClaimStartExactly | packages/persistence-postgres/src/tasks.ts:1525-1580 | Exactly an unbound scheduled task is claimed, by the given owner, for its next attempt. |
| TaskStarts.ReclaimStartExactly | packages/persistence-postgres/src/tasks.ts:1631-1680 | Exactly an unbound start passes to another owner, as the same attempt. |
| TaskStarts.BindExactly | packages/persistence-postgres/src/tasks.ts:1697-1766 | Nobody but the owner of the claim binds a start; then the row has the execution, the revision and the snapshot, and counts as started exactly if the snapshot says so. |
| TaskStarts.ReleaseExactly | packages/persistence-postgres/src/tasks.ts:1768-1818 | The owner gives a start back, to be tried again. |
| TaskStarts.UncertainExactly | packages/persistence-postgres/src/tasks.ts:1820-1866 | The owner gives an uncertain start up, still starting. |
| TaskStarts.MissedExactly | packages/persistence-postgres/src/tasks.ts:1877-1927 | A missed start is completed by the owner of its claim, or at once if it was not claimed; a bound one never. |
| TaskStarts.RejectionExactly | packages/persistence-postgres/src/tasks.ts:1929-1991 | A start refused for good is completed by the owner of its claim. |
| TaskStarts.ClaimConfirmationExactly | packages/persistence-postgres/src/tasks.ts:2023-2082 | Exactly a live, bound task that has not started and is not to be stopped is claimed for confirmation. |
| TaskStarts.DeferExactly | packages/persistence-postgres/src/tasks.ts:2100-2116 | Putting a confirmation off gives the claim back and writes no observation. |
| TaskStarts.ConfirmShows | packages/persistence-postgres/src/tasks.ts:2118-2165 | A confirmation that takes effect shows its snapshot and records the start. |
| TaskStarts.RecoveryExactly | packages/persistence-postgres/src/tasks.ts:1346-1386 | A recovery attempt on a live task is counted; one that finds no execution fails it with its message. |
| TaskStops.StopSticks | packages/persistence-postgres/src/tasks.ts:3790-3806 | While no cancel is rejected, a stopping row with a stop reason stays stopping until it is finished, and no update, pause or resume command is created or newly claimed, however long the run; a claim already given can be extended by its owner only. |
| TaskStops.CancelTakesHold | packages/persistence-postgres/src/tasks.ts:2688-2804 | A cancel of a live row with no cancel under way always takes hold, and leaves no control command waiting. |
| TaskStops.ClaimKeepsStop | packages/persistence-postgres/src/tasks.ts:788-860 | Claiming under a stop claims cancels only. |
| TaskStops.SnapshotKeepsStop | packages/persistence-postgres/src/tasks.ts:3790-3806 | A snapshot applied under a stop keeps the stop unless it is terminal. |
| TaskStopReasons.WindowStopExactly | packages/persistence-postgres/src/tasks.ts:4038-4143 | A missed start window: a live task without a cancel under way gets one; otherwise the newest is used, a user's becoming one for the window, and the row stops for the deadline if that is the cancel's reason and for the window if not. |
| TaskStopReasons.DeadlineExactly | packages/persistence-postgres/src/tasks.ts:2199-2307 | A reached deadline becomes the reason of the newest cancel under way or of a new one, and of the stop, exactly on a live, bound task not stopping for it. |
| TaskStopReasons.CancelExactly | packages/persistence-postgres/src/tasks.ts:2688-2840 | A user's cancel takes effect exactly on a live task without one under way; exactly the waiting control commands are exhausted. |
| TaskStopReasons.IntentExactly | packages/persistence-postgres/src/tasks.ts:2842-2869 | An intent is recorded once, for its user, on a live task, whose state stays. |
| TaskStopReasons.RejectCancelExactly | packages/persistence-postgres/src/tasks.ts:3474-3582 | A rejected cancel clears the stop, shows the snapshot and takes the newer revision, for the owner of its claim only; on a finished task only the command ends. |
| TaskStopReasons.FailSafeStopExactly | packages/persistence-postgres/src/tasks.ts:3584-3689 | A stop that is never confirmed fails the task with its message, for the owner of the command only. |
| TaskStopReasons.StoppedSnapshotExactly | packages/persistence-postgres/src/tasks.ts:3691-3806 | Under a stop a terminal snapshot is shown and any other changes nothing shown; revision and start are recorded either way, and a terminal one exhausts exactly the commands under way. |
| TaskStopReasons.FoundExactly | packages/persistence-postgres/src/tasks.ts:4052-4059 | The cancel a stop reuses is the newest one under way. |
| TaskCommands.ClaimDueExactly | packages/persistence-postgres/src/tasks.ts:777-931 | The command that is claimed is due and outranks every other that is: by priority, then by the time of its next attempt, then by sequence. Another claim still recorded undoes everything; apart from it only control commands whose claims ran out under a stop change, and are exhausted. |
| TaskCommands.BestDueOutranks | packages/persistence-postgres/src/tasks.ts:832-867 | The choice among the due commands outranks all others. |
| TaskSnapshots.SnapshotsConverge | packages/persistence-postgres/src/tasks.ts:3691-3806 | Any two deliveries of the same snapshots, in any order and with repeats, that include the newest end in the same state, status, substate, result, error and adapter revision, with or without a stop requested, if only the newest may be terminal. |
| TaskInput.FirstResponseWins | packages/persistence-postgres/src/tasks.ts:2436-2476 | The response first accepted for a key is kept through every continuation; once acknowledged it is the answer on record, and the update command it is assigned to carries it. |
| TaskInput.AnswersAreFinal | packages/persistence-postgres/src/tasks.ts:3398-3422 | A request that is not open never opens again, and a recorded answer never changes. |
| TaskInput.AcceptedExactly | packages/persistence-postgres/src/tasks.ts:2383-2476 | A response is stored exactly if the caller is admitted, no open request refuses its response, the request is open and nothing was accepted for the key, and with the text given. |
| TaskInput.PromotedExactly | packages/persistence-postgres/src/tasks.ts:2532-2599 | Exactly the pending responses go, unchanged, into one new update command, and each is assigned to it. |
| TaskInput.AnsweredExactly | packages/persistence-postgres/src/tasks.ts:3398-3445 | An acknowledged update answers exactly the requests it names with what it carries, settles itself, and acknowledges the responses assigned to it, which are then the answers on record. |
| TaskInput.StepKeepsInput | packages/persistence-postgres/src/tasks.ts:2532-2599 | Every transaction keeps requests, answers, accepted responses and what commands carry. |
| TaskDeliveries.RequestsStoredExactly | packages/persistence-postgres/src/tasks.ts:4229-4264 | Requests are stored exactly if none contradicts a stored one or another of the list; stored ones stay, new ones are open. |
| TaskDeliveries.BeginCommandExactly | packages/persistence-postgres/src/tasks.ts:2871-3025 | A control command is created, as asked for, exactly on a live task with no stop, nothing under way and no equal request before. |
| TaskDeliveries.RenewClaimExactly | packages/persistence-postgres/src/tasks.ts:1038-1050 | A claim is extended by its owner only. |
| TaskDeliveries.RejectCommandExactly | packages/persistence-postgres/src/tasks.ts:1052-1099 | A claimed command is rejected by its owner, and exactly the responses it carried fail. |
| TaskDeliveries.SupersedeExactly | packages/persistence-postgres/src/tasks.ts:3049-3100 | A stop exhausts a control command under way, and exactly the responses it carried are ignored. |
| TaskDeliveries.FailedDeliveryExactly | packages/persistence-postgres/src/tasks.ts:1101-1344 | Responses refused or not delivered fail a live task with the reason and withdraw its requests; of a task that is stopping or over they are ignored. |
| TaskDeliveries.LateDeliveryExactly | packages/persistence-postgres/src/tasks.ts:3300-3396 | Responses taken for a task that is stopping or over are ignored and their requests withdrawn. |
| TaskDeliveries.LatePromotionExactly | packages/persistence-postgres/src/tasks.ts:2546-2570 | Pending responses of a task that is stopping or over are ignored, and no command is made. |
| TaskDeliveries.SweptResponsesExactly | packages/persistence-postgres/src/tasks.ts:788-835 | Exactly the responses of update commands exhausted under a stop are ignored when the dispatcher claims. |
| TaskViews.MapTaskToDetailedTask | packages/task-engine/src/detailed-task.ts:6-69 | On a coherent row the projection fails only for a bad expiry or revision, or for input asked with no open request; otherwise status, message, substate, revisions, result, error and requests shown are the row's, and the result type is that of the projection. |
| TaskViews.PayloadsAlwaysThere | packages/task-engine/src/detailed-task.ts:54-66 | In every reachable state a completed row has a result and no error, a failed one an error and no result, so neither projection fails for a missing payload. |
| TaskViews.AnsweredTaskCannotBeShown | packages/task-engine/src/detailed-task.ts:54-60 | A run after which the remaining failure occurs: the last answer is acknowledged and the next snapshot has not come. |
| TaskViews.PageIsBlock | packages/persistence-postgres/src/tasks.ts:2634-2686 | A page of observations is the next block of the history, newest first, with a cursor exactly if more is left. |
| TaskViews.PageRefusedExactly | packages/persistence-postgres/src/tasks.ts:2634-2686 | A page is refused exactly for a size outside 1 to 100 or a cursor out of range. |
| TaskViews.WalkVisitsAll | packages/persistence-postgres/src/tasks.ts:2634-2686 | Following `nextCursor` visits every observation there was at the start, once and in descending order, whatever the page sizes and however the history grows in between. |
| TaskViews.HistoriesGrow | packages/persistence-postgres/src/tasks.ts:3917-3978 | The histories of a run are dense and only grow, as the walk over pages supposes. |
| TaskEdges.ConfirmAppliesExactly | packages/persistence-postgres/src/tasks.ts:2118-2165 | A confirmation takes effect exactly if the claim is held, the revision is newer than the stored one and was not confirmed before. |
| TaskEdges.ConfirmationCanBeLost | packages/persistence-postgres/src/tasks.ts:2118-2165 | A run after which a claimed confirmation at the stored revision changes nothing: the start of a queued task is claimed, a cancellation is recorded, and a snapshot reports it running first. |
| TaskEdges.CancelOrphansExactly | packages/persistence-postgres/src/tasks.ts:2720-2735 | A cancel leaves an assigned response behind with an exhausted command exactly if it takes effect while that command is pending or waits for a retry. |
| TaskEdges.SnapshotOrphansExactly | packages/persistence-postgres/src/tasks.ts:3744-3776 | A snapshot does exactly if it is newer, ends the task and is applied while that command is under way. |
| TaskEdges.CancelCanOrphan | packages/persistence-postgres/src/tasks.ts:2720-2735 | A run after which an accepted response is assigned to an exhausted command. |
| TaskEdges.SnapshotCanOrphan | packages/persistence-postgres/src/tasks.ts:3744-3776 | A run that reaches the same by a terminal snapshot. |
| TaskEdges.IntentStopsElsewhereExactly | packages/persistence-postgres/src/tasks.ts:2842-2869 | A recorded cancellation intent leaves a live task with a stop requested and not stopping exactly if it was live and not stopping, and the intent is new or a stop was requested before. |
| TaskEdges.IntentCanStopElsewhere | packages/persistence-postgres/src/tasks.ts:2842-2869 | A run after which a running task has a stop requested. |
| Idempotency.Repository.ClaimRecord | packages/persistence-postgres/src/idempotency.ts:84-146 | Claiming inserts, returns the outcome, refuses other arguments, waits, or takes over an expired lease, exactly as `Claim` says. |
| Idempotency.Repository.CompleteRecord | packages/persistence-postgres/src/idempotency.ts:148-175 | Only the lease holder stores the outcome; anyone else gets the stored one, or an error if there is none. |
| Idempotency.Repository.AbandonRecord | packages/persistence-postgres/src/idempotency.ts:177-188 | Only the lease holder's pending record expires at once. |
| Idempotency.ConflictExactly | packages/persistence-postgres/src/idempotency.ts:84-146 | A claim fails exactly for other arguments than the record's, and then, as when it waits or finds an outcome, changes nothing. |
| Idempotency.TransactionsKeepRecords | packages/persistence-postgres/src/idempotency.ts:84-188 | No transaction changes a record's arguments or task id, nor anything of a completed record. |
| Idempotency.AbandonedIsClaimable | packages/persistence-postgres/src/idempotency.ts:177-188 | After an abandon the next caller with the same arguments takes the record over as a recovery of the same task id, and the former owner can no longer complete it. |
| Idempotency.ClaimExactly | packages/persistence-postgres/src/idempotency.ts:84-146 | A pending record held by another caller is taken over, as a recovery of its task, if and only if its lease is over at both readings; otherwise the caller waits and nothing changes. A first claim gets the new id, a repeated one changes nothing, a completed record answers with its outcome. |
| Idempotency.CompleteExactly | packages/persistence-postgres/src/idempotency.ts:148-175 | An outcome is stored exactly by the holder of a pending record; everyone else is told the one on record, if there is one. |
| Invocation.HolderChanges | packages/persistence-postgres/src/idempotency.ts:84-188 | Whatever step is taken, a held record passes to another caller only when its lease is over, and is completed or given up by its holder only. |
| Invocation.LeaseProtects | packages/persistence-postgres/src/idempotency.ts:84-188 | Over every run, as long as its lease lasts, the holder's record is the one it claimed. |
| Invocation.HolderCompletes | packages/persistence-postgres/src/idempotency.ts:148-175 | What the holder then completes with is the outcome on record, for the task id it claimed, and is what it returns. |
| Invocation.SystemSoundAlways | packages/task-engine/src/engine.ts:153-178 | Over every interleaving of calls, recoverers, crashes, lost replies and late deliveries: every call works for its key's task id and arguments, leases are held by calls that have claimed, and ids, requests and executions belong to the arguments they were issued for. |
| Invocation.SameOutcomeForAll | packages/persistence-postgres/src/idempotency.ts:51-188 | All calls of a key that return have the same arguments and return the same outcome; a task outcome names the key's own task, which is published. |
| Invocation.OneFirstInvocation | packages/persistence-postgres/src/idempotency.ts:84-146 | At most one invocation of a key is not a recovery, and all of them use one task id. |
| Invocation.OneStartPerKey | packages/task-engine/src/engine.ts:279-445 | Every start request sent for a key names its one task id, no other key has it, at most one start took effect for it, and the execution runs the arguments first called with. |
| Invocation.OtherArgumentsRefused | packages/persistence-postgres/src/idempotency.ts:104-105 | A call with other arguments throws and changes nothing else. |
| Invocation.StepKeepsSystem | packages/task-engine/src/engine.ts:269-446 | What every step of the invocation keeps. |
| InvocationCauses.PhaseHasACause | packages/task-engine/src/engine.ts:269-446 | Every phase of every call of every run goes back to a step that entitled the call to it: what it found in the tables, what the adapter answered, what the record said. |
| InvocationCauses.RecoveryAsksFirst | packages/task-engine/src/engine.ts:665-689 | A recovered asynchronous invocation sends a start only after the adapter said that it does not know the task. |
| InvocationCauses.StartsOnceAdmitted | packages/task-engine/src/engine.ts:329-382 | Any asynchronous call sends a start only if it was the first to admit the task, or was told so. |
| InvocationCauses.PublicationHasACause | packages/task-engine/src/engine.ts:329-446 | A task is published only by a call that scheduled it, or that learnt from the adapter that this task, with these arguments, is under way. |
| InvocationCauses.IntentHasACause | packages/task-engine/src/engine.ts:310-329 | Every admission intent is that of the call that first admitted the task. |
| InvocationCauses.RequestHasACause | packages/task-engine/src/engine.ts:370-382 | Every start request ever sent asks for exactly what its call, or the intent of its task, says. |
| ReferenceAdapter.Server.HandleStart | examples/mock-adapter-typescript/src/server.ts:588-905 | A start for a known id is answered from the store or refused for other arguments; a new one takes effect once and is stored. |
| ReferenceAdapter.Server.HandleCancel | examples/mock-adapter-typescript/src/server.ts:397-490 | A cancel is answered from its stored acknowledgement, refused without effect, or takes effect and is stored. |
| ReferenceAdapter.Server.HandleUpdate | examples/mock-adapter-typescript/src/server.ts:491-585 | An update is answered from its stored acknowledgement; accepted or refused, the answer is stored. |
| ReferenceAdapter.Server.HandlePauseOrResume | examples/mock-adapter-typescript/src/server.ts:908-965 | Pausing and resuming take effect once per sequence. |
| ReferenceAdapter.Server.HandleGet | examples/mock-adapter-typescript/src/server.ts:300-330 | Reading lets an execution finish unless it is held or waits for input; it answers with the execution's id, or a wrong one where told to. |
| ReferenceAdapter.AtMostOneStart | examples/mock-adapter-typescript/src/server.ts:588-615 | However often and in whatever order requests arrive, an id is started at most once. |
| ReferenceAdapter.AtMostOneControl | examples/mock-adapter-typescript/src/server.ts:397-585 | However often a command is retried, its sequence takes effect at most once. |
| ReferenceAdapter.AcksAreFinal | examples/mock-adapter-typescript/src/server.ts:416-421 | An acknowledgement given once is the answer for ever. |
| ReferenceAdapter.AcknowledgedIsSilent | examples/mock-adapter-typescript/src/server.ts:502-510 | A request that was acknowledged changes nothing when repeated. |
| AdapterBehaviour.StartExactly | examples/mock-adapter-typescript/src/server.ts:588-905 | A start of a known task is an error exactly for other arguments or another reservation and otherwise answers with the execution; a new one is refused without effect or stored as asked for. |
| AdapterBehaviour.RefusedStartsExactly | examples/mock-adapter-typescript/src/server.ts:611-668 | Which starts are refused, with what, and whether trying again may help. |
| AdapterBehaviour.FirstSnapshots | examples/mock-adapter-typescript/src/server.ts:668-905 | What a new task reports, by its scenario. |
| AdapterBehaviour.FirstReplies | examples/mock-adapter-typescript/src/server.ts:668-905 | The reply to a start that took effect: lost, with a wrong identity where told so, or the execution. |
| AdapterBehaviour.InlineStarts | examples/mock-adapter-typescript/src/server.ts:668-905 | A synchronous operation, or one told to end inline, is answered with its success. |
| AdapterBehaviour.ReadExactly | examples/mock-adapter-typescript/src/server.ts:300-330 | A read answers with the execution's id, unless told otherwise, and touches no other execution. |
| AdapterBehaviour.CancelEnds | examples/mock-adapter-typescript/src/server.ts:397-490 | A cancel that takes effect is what every later read shows. |
| AdapterBehaviour.CancelExactly | examples/mock-adapter-typescript/src/server.ts:397-490 | Exactly the injected refusals have no effect; an effect is acknowledged as accepted. |
| AdapterBehaviour.PauseHolds | examples/mock-adapter-typescript/src/server.ts:908-965 | A pause is what every later read shows. |
| AdapterBehaviour.ResumeReleases | examples/mock-adapter-typescript/src/server.ts:908-965 | A resumed execution shows so once and has ended with the next read, at the next revision. |
| AdapterBehaviour.InputExactly | examples/mock-adapter-typescript/src/server.ts:491-570 | Input is accepted exactly by an execution that waits, in the round's own key; the first of two rounds is followed by the second. |
| AdapterBehaviour.ReconcileExactly | examples/mock-adapter-typescript/src/server.ts:331-396 | A known task is confirmed exactly for its own operation, arguments, context and execution id. |
| CommandDispatch.OneEffectPerCommand | packages/task-engine/src/command-dispatcher.ts:81-172 | Over every run of a row's transactions and every repetition of the requests sent for commands claimed in it, each command takes effect at most once. |
| CommandDispatch.ControlsExactly | packages/task-engine/src/command-dispatcher.ts:81-172 | A command asks the adapter for what it is. |
| CanonicalJson.CanonicalTextComplete | packages/observability/src/hash.ts:10-29 | Two JSON values have the same canonical text if and only if they are equal up to the order of object members, at any depth and for all strings. |
| CanonicalJson.QuoteRoundTrip | packages/observability/src/hash.ts:10-13 | Every string, lone surrogates and control characters included, can be read back from its quoted text with whatever follows it. |
| CanonicalJson.CanonUnique | packages/observability/src/hash.ts:10-29 | A text that begins with a canonical value begins with only one. |
| CanonicalJson.SortSorts | packages/observability/src/hash.ts:21-22 | Members are sorted strictly by code units. |
| CanonicalJson.SortHolds | packages/observability/src/hash.ts:21-22 | Sorting neither adds nor drops members. |
| RateLimiter.BoundedRateLimiter.ConsumeOne | apps/runtime/src/rate-limiter.ts:20-33 | A call prunes, makes room, counts and decides exactly as `Consume` says. |
| RateLimiter.BoundedRateLimiter.Prune | apps/runtime/src/rate-limiter.ts:39-43 | Exactly the windows that are over are dropped, in order. |
| RateLimiter.BoundedRateLimiter.EvictOldest | apps/runtime/src/rate-limiter.ts:45-55 | The first of the oldest windows is dropped, if there is one. |
| RateLimiter.AtMostTwiceTheLimit | apps/runtime/src/rate-limiter.ts:20-43 | With time never going back, a key not evicted inside a closed interval of length `windowMs` is allowed at most twice the limit in it. |
| RateLimiter.SizeBounded | apps/runtime/src/rate-limiter.ts:20-37 | With `maxKeys` at least 1 the limiter never holds more than `maxKeys` windows; with less it holds one after every call. |
| RateLimiter.ConsumeFind | apps/runtime/src/rate-limiter.ts:20-33 | What one call does to the window of every key: counted, opened, pruned, evicted or left alone. |
| RateLimiter.RemainingTells | apps/runtime/src/rate-limiter.ts:20-33 | The remaining count tells whether the key's next call in its window is allowed, which takes one off it. |

## Left out

- StepKeepsSourceExactly: the consequence is stated as an equivalence where no loss row of the stream is open and a sequence is left; behind an open loss that only a careless rotation could skip, no careful continuation publishes anything. `StepSoundExactly` has no such condition.
- BreakFollows: is stated under the same two conditions.
- GapFollows: is stated under the same two conditions.
- Transport, TLS, authentication, telemetry and configuration: plumbing around the protocols.
- SQL text, locking modes and connections: a transaction is one atomic step.
- Provider-ops delivery, the outbox publisher and metrics: written beside the modelled rows. The contents of outbox rows are left out, their keys are not.
- Event retention and `extendVisibilityRetention`: nothing in the modelled transactions retires a generation or moves its earliest sequence.
- `left_at_runtime_sequence`, resource bindings, visibility tombstones, handle expiry and time-to-live columns: written by the modelled transactions, read by parts that are not.
- Admission states (`UNCERTAIN`, `REJECTED`, `PUBLISHED`): an admission intent is only present or absent.
- `authorizedEventProjection` is a verdict per event in the subscription model and a sorted list of ids in the relation pages.
- `cleanupExpiredRelationProjections`: a projection that is gone is one that is not stored.
- Subscription counters and limits of the notification manager: they do not change what is delivered.
- The scheduler, the recovery manager and the source client are steps that may happen at any time.
- `execute` is modelled as steps of a call, not as a loop, because other calls run between its transactions; the waiting time and the hit counter are left out.
- `tick`, the timing of claim heartbeats, retry delays and payload parsing of the dispatcher: a dispatched request is one sent for a claimed command, any number of times.
- `SettleCommand` stands for every operation that retries, acknowledges, rejects or exhausts a command; it allows more than the code does, and no end state of a command is claimed to be final.
- `created_at`, by which due commands of equal priority and time are ordered before their sequence, is left out: commands are created in the order of their sequence.
- `SupersedeCommand` supersedes one command at a time where the code supersedes several in one statement.
- The start and confirmation operations of the task repository other than those in the table, `noteRecovery`, `failRecoveryNotFound` and `failSafeStopUnconfirmed` are modelled on values only, without the statement-by-statement form.
- `acknowledgeUpdateAndCompleteInputAnswers`, `rejectInputResponseAndFailTask` and `failInputResponseDelivery` are modelled on values only; the answers are those the update command carries.
- JSON values inside a result, and the text form of its four reserved fields, are opaque; the time a result was completed at is a parameter.
- Observations are modelled by their revision; type, payload and reason are left out.
- Task rows keep the latest claim owner of a scheduled start or of its confirmation; claim expiry times, confirmation deadlines and retry times are left out, so a claim may be taken over at any time. `actual_started_at` is only set or unset.
- `parseBusinessEventSequence` is modelled in its default branch, where sequences start at 1.
- Canonicalization of a value with an undefined entry or a number that is not finite is refused as a whole, without modelling which entry is met first.
- The Home Assistant provider.
