/**
 One task of the task tables: its row, commands, observations, outbox keys, input
 requests and accepted responses; every lifecycle transaction as a function of
 them. All but one of them change the task row through a single gate.
 */
module TaskTables {
  import opened Basics

  /* ---------- rows ---------- */

  datatype InternalState =
    | Scheduled | Starting | WaitingStartConfirmation | Queued | Running | Paused | Resuming
    | InputRequired | Stopping | TerminalCompleted | TerminalFailed | TerminalCancelled

  datatype McpStatus = Working | NeedsInput | Completed | Failed | Cancelled

  predicate IsTerminal(s: InternalState) {
    s.TerminalCompleted? || s.TerminalFailed? || s.TerminalCancelled?
  }

  datatype StopReason = UserRequested | DeadlineReached | StartWindowMissed

  /** A JSON document, opaque here. */
  type Json = string

  /** The result or error of a task: what the adapter reports, or why the runtime ended it. */
  datatype Document =
    | BusinessResult(text: string, isError: bool, content: map<string, Json>)
    | ExecutionError(reasonCode: string, retryable: bool)
    | RuntimeResult(reason: string)
    | RuntimeError(reason: string)

  /** A validated adapter snapshot, or a change the runtime decides itself. */
  datatype Transition = Transition(
    internalState: InternalState,
    mcpStatus: McpStatus,
    substate: Option<string>,
    statusMessage: string,
    result: Option<Document>,
    error: Option<Document>,
    terminal: bool)

  datatype Task = Task(
    internalState: InternalState,
    mcpStatus: McpStatus,
    substate: Option<string>,
    statusMessage: Option<string>,
    result: Option<Document>,
    error: Option<Document>,
    adapterRevision: nat,
    observationRevision: nat,
    runtimeRevision: nat,
    version: nat,
    externalExecutionId: Option<Id>,
    cancelRequested: bool,
    stopReason: Option<StopReason>,
    claimOwner: Option<Id>,
    invocationAttempt: nat,
    confirmationAttempts: nat,
    recoveryAttempts: nat,
    started: bool)

  datatype CommandType = CancelCommand | UpdateCommand | PauseCommand | ResumeCommand

  datatype CommandState = Pending | Claimed | RetryWait | Acknowledged | RejectedCommand | Exhausted

  /** The command with sequence `n` is at position `n - 1`. */
  datatype Command = Command(
    kind: CommandType,
    state: CommandState,
    owner: Option<Id>,
    claimUntil: Instant,
    nextAttemptAt: Instant,
    priority: nat,
    requestHash: Id,
    stopReason: Option<StopReason>,
    responses: map<Id, Json>)

  /** What an observation tells is left out; its place in the history is not. */
  datatype Observation = Observation(revision: nat)

  datatype EventKey =
    | Created
    | AdapterKey(revision: nat)
    | CommandKey(sequence: nat, tag: string)
    | RuntimeKey(tag: string, attempt: nat)
    | ResponseKey(accepted: map<Id, Json>)
    | FactKey(text: string)

  datatype RequestStatus = Open | Answered | SupersededRequest

  datatype InputRequest = InputRequest(definition: Json, status: RequestStatus, answer: Option<Json>)

  datatype ResponseState = ResponsePending | Assigned | ResponseAcknowledged | Ignored | ResponseFailed

  datatype AcceptedResponse = AcceptedResponse(response: Json, state: ResponseState, command: Option<nat>)

  datatype TaskTable = TaskTable(
    task: Option<Task>,
    commands: seq<Command>,
    observations: seq<Observation>,
    outbox: seq<EventKey>,
    requests: map<Id, InputRequest>,
    responses: map<Id, AcceptedResponse>)

  const NO_TASK := TaskTable(None, [], [], [], map[], map[])

  /* ---------- adapter snapshots ---------- */

  /** The result an adapter reports: an object, or a value of another kind. */
  datatype AdapterResult = Fields(fields: map<string, Json>) | OtherValue(value: Json)

  datatype Snapshot = Snapshot(
    state: string, reasonCode: string, message: string, retryable: bool, result: Option<AdapterResult>)

  function WorkingTransition(s: InternalState, substate: string, snapshot: Snapshot): Transition {
    Transition(s, Working, Some(substate), snapshot.message, None, None, false)
  }

  function TerminalTransition(s: InternalState, status: McpStatus, result: Option<Document>, error: Option<Document>,
                              snapshot: Snapshot): Transition
  {
    Transition(s, status, None, snapshot.message, result, error, true)
  }

  const RESERVED_FIELDS := {"outcome", "reasonCode", "retryable", "completedAt"}

  /** The names a plain object inherits; looking them up in the table of reserved fields finds something, too. */
  const INHERITED_FIELDS := {
    "constructor", "hasOwnProperty", "isPrototypeOf", "propertyIsEnumerable", "toLocaleString", "toString", "valueOf",
    "__defineGetter__", "__defineSetter__", "__lookupGetter__", "__lookupSetter__", "__proto__"}

  function Sanitized(result: Option<AdapterResult>): map<string, Json> {
    match result
    case None => map[]
    case Some(OtherValue(value)) => map["value" := value]
    case Some(Fields(fields)) =>
      map key | key in fields && key !in RESERVED_FIELDS && key !in INHERITED_FIELDS :: fields[key]
  }

  function OrElse(text: string, default': string): string {
    if text == "" then default' else text
  }

  function SuccessOf(snapshot: Snapshot): Document {
    BusinessResult(OrElse(snapshot.message, "success"), false, Sanitized(snapshot.result))
  }

  /** What the adapter reports comes last, so it would win over a field of the same name. */
  function FailureOf(snapshot: Snapshot, outcome: string, defaultReason: string, completedAt: string): Document {
    BusinessResult(
      OrElse(snapshot.message, outcome), true,
      map["outcome" := outcome, "reasonCode" := OrElse(snapshot.reasonCode, defaultReason),
          "retryable" := if snapshot.retryable then "true" else "false", "completedAt" := completedAt]
      + Sanitized(snapshot.result))
  }

  /** An unknown adapter state is an error. */
  function MapAdapterSnapshot(snapshot: Snapshot, completedAt: string): Option<Transition> {
    match snapshot.state
    case "ACCEPTED" => Some(WorkingTransition(Queued, "accepted", snapshot))
    case "SCHEDULED" => Some(WorkingTransition(Queued, "scheduled", snapshot))
    case "QUEUED" => Some(WorkingTransition(Queued, "queued", snapshot))
    case "RUNNING" => Some(WorkingTransition(Running, "running", snapshot))
    case "PAUSED" => Some(WorkingTransition(Paused, "paused", snapshot))
    case "RESUMING" => Some(WorkingTransition(Resuming, "resuming", snapshot))
    case "STOPPING" => Some(WorkingTransition(Stopping, "stopping", snapshot))
    case "WAITING_INPUT" =>
      Some(Transition(InputRequired, NeedsInput, None, snapshot.message, None, None, false))
    case "SUCCEEDED" =>
      Some(TerminalTransition(TerminalCompleted, Completed, Some(SuccessOf(snapshot)), None, snapshot))
    case "BUSINESS_FAILED" =>
      var result := FailureOf(snapshot, "business_failure", "BUSINESS_FAILURE", completedAt);
      Some(TerminalTransition(TerminalCompleted, Completed, Some(result), None, snapshot))
    case "PARTIALLY_COMPLETED" =>
      var result := FailureOf(snapshot, "partial_completion", "PARTIAL_COMPLETION", completedAt);
      Some(TerminalTransition(TerminalCompleted, Completed, Some(result), None, snapshot))
    case "CANCELLED" => Some(TerminalTransition(TerminalCancelled, Cancelled, None, None, snapshot))
    case "TECHNICAL_FAILED" =>
      var error := ExecutionError(OrElse(snapshot.reasonCode, "TECHNICAL_EXECUTION_FAILED"), snapshot.retryable);
      Some(TerminalTransition(TerminalFailed, Failed, None, Some(error), snapshot))
    case _ => None
  }

  /** Internal state, MCP status, result and error agree. */
  predicate Agree(s: InternalState, status: McpStatus, result: Option<Document>, error: Option<Document>) {
    && (s.TerminalCompleted? <==> status.Completed?)
    && (s.TerminalFailed? <==> status.Failed?)
    && (s.TerminalCancelled? <==> status.Cancelled?)
    && (s.InputRequired? <==> status.NeedsInput?)
    && (result.Some? <==> status.Completed?)
    && (error.Some? <==> status.Failed?)
  }

  /** What the contract with the adapter lets through. */
  predicate Admissible(tr: Transition) {
    && Agree(tr.internalState, tr.mcpStatus, tr.result, tr.error)
    && (tr.terminal <==> IsTerminal(tr.internalState))
    && !tr.internalState.Scheduled? && !tr.internalState.Starting?
  }

  /* ---------- the gate ---------- */

  /** Columns a transition sets; None leaves a column alone. */
  datatype Update = Update(
    internalState: Option<InternalState>,
    mcpStatus: Option<McpStatus>,
    substate: Option<Option<string>>,
    statusMessage: Option<string>,
    result: Option<Option<Document>>,
    error: Option<Option<Document>>,
    adapterRevision: Option<nat>,
    externalExecutionId: Option<Id>,
    cancelRequested: Option<bool>,
    stopReason: Option<Option<StopReason>>,
    claimOwner: Option<Option<Id>>,
    invocationAttempt: Option<nat>,
    confirmationAttempts: Option<nat>,
    recoveryAttempts: Option<nat>,
    started: Option<bool>)

  const UNCHANGED := Update(None, None, None, None, None, None, None, None, None, None, None, None, None, None, None)

  function Or<T>(o: Option<T>, d: T): T {
    if o.Some? then o.value else d
  }

  function Assign(t: Task, u: Update): Task {
    Task(
      Or(u.internalState, t.internalState),
      Or(u.mcpStatus, t.mcpStatus),
      Or(u.substate, t.substate),
      if u.statusMessage.Some? then u.statusMessage else t.statusMessage,
      Or(u.result, t.result),
      Or(u.error, t.error),
      Or(u.adapterRevision, t.adapterRevision),
      t.observationRevision + 1,
      t.runtimeRevision + 1,
      t.version + 1,
      if u.externalExecutionId.Some? then u.externalExecutionId else t.externalExecutionId,
      Or(u.cancelRequested, t.cancelRequested),
      Or(u.stopReason, t.stopReason),
      Or(u.claimOwner, t.claimOwner),
      Or(u.invocationAttempt, t.invocationAttempt),
      Or(u.confirmationAttempts, t.confirmationAttempts),
      Or(u.recoveryAttempts, t.recoveryAttempts),
      Or(u.started, t.started))
  }

  /** The gate lets a change through: a new key, a live task, a newer adapter revision if any. */
  predicate Applies(d: TaskTable, u: Update, key: EventKey)
    requires d.task.Some?
  {
    && key !in d.outbox
    && !IsTerminal(d.task.value.internalState)
    && (u.adapterRevision.Some? ==> u.adapterRevision.value > d.task.value.adapterRevision)
  }

  /** `transitionTask` with the version read in the same transaction. */
  function Gate(d: TaskTable, u: Update, key: EventKey): TaskTable
    requires d.task.Some?
  {
    if !Applies(d, u, key) then d
    else
      var t := Assign(d.task.value, u);
      d.(task := Some(t),
         observations := d.observations + [Observation(t.observationRevision)],
         outbox := d.outbox + [key])
  }

  function Moved(tr: Transition): Update {
    UNCHANGED.(internalState := Some(tr.internalState), mcpStatus := Some(tr.mcpStatus),
               substate := Some(tr.substate), statusMessage := Some(tr.statusMessage),
               result := Some(tr.result), error := Some(tr.error))
  }

  function FailedWith(reason: string): Update {
    Moved(Transition(TerminalFailed, Failed, None, reason, None, Some(RuntimeError(reason)), true))
  }

  /* ---------- publication ---------- */

  function PutRequest(requests: map<Id, InputRequest>, key: Id, definition: Json): map<Id, InputRequest> {
    if key in requests then requests else requests[key := InputRequest(definition, Open, None)]
  }

  /** A repeated request must be the stored one; it never changes its status. */
  function PutRequests(requests: map<Id, InputRequest>, news: seq<(Id, Json)>): Option<map<Id, InputRequest>> {
    if news == [] then Some(requests)
    else
      var front := PutRequests(requests, news[..|news| - 1]);
      var (key, definition) := news[|news| - 1];
      if front.None? || (key in front.value && front.value[key].definition != definition) then None
      else Some(PutRequest(front.value, key, definition))
  }

  function NewTask(s: InternalState, status: McpStatus, substate: Option<string>, message: string,
                   result: Option<Document>, error: Option<Document>, adapterRevision: nat, ext: Option<Id>,
                   attempt: nat, started: bool): Task
  {
    Task(s, status, substate, Some(message), result, error, adapterRevision, 1, 0, 0, ext, false, None, None, attempt,
         0, 0, started)
  }

  /** What the callers that publish take for a start, and what a snapshot applied later counts as one. */
  predicate PublishedStarted(tr: Transition) {
    TransitionHasStarted(tr) || tr.internalState.InputRequired?
  }

  predicate TransitionHasStarted(tr: Transition) {
    || tr.internalState.Running? || tr.internalState.Paused? || tr.internalState.Resuming?
    || tr.internalState.TerminalCompleted? || tr.internalState.TerminalFailed?
  }

  /** A failed transaction changes nothing. */
  function PublishAccepted(d: TaskTable, ext: Id, revision: nat, tr: Transition, news: seq<(Id, Json)>, missed: bool)
    : TaskTable
  {
    var requests := PutRequests(d.requests, news);
    if d.task.Some? || requests.None? then d
    else
      var t := NewTask(tr.internalState, tr.mcpStatus, tr.substate, tr.statusMessage, tr.result, tr.error,
                       revision, Some(ext), 1, PublishedStarted(tr));
      var d' := d.(task := Some(t), observations := [Observation(1)]);
      var d'' := if missed then StartWindowStop(d') else d';
      d''.(outbox := d''.outbox + [Created], requests := requests.value)
  }

  function PublishScheduled(d: TaskTable): TaskTable {
    if d.task.Some? then d
    else
      d.(task := Some(NewTask(Scheduled, Working, Some("scheduled"), "Waiting for scheduled start.", None, None, 0,
                              None, 0, false)),
         observations := [Observation(1)],
         outbox := d.outbox + [Created])
  }

  /* ---------- scheduled starts ---------- */

  predicate Holds(d: TaskTable, s: InternalState, owner: Id) {
    d.task.Some? && d.task.value.internalState == s && d.task.value.claimOwner == Some(owner)
  }

  function ClaimDueScheduled(d: TaskTable, owner: Id): TaskTable {
    if d.task.None? || !d.task.value.internalState.Scheduled? || d.task.value.externalExecutionId.Some? then d
    else
      var attempt := d.task.value.invocationAttempt + 1;
      Gate(d, UNCHANGED.(internalState := Some(Starting), statusMessage := Some("Claimed for scheduled start."),
                         claimOwner := Some(Some(owner)), invocationAttempt := Some(attempt)),
           RuntimeKey("start-attempt", attempt))
  }

  function ReclaimScheduled(d: TaskTable, owner: Id, previousLease: nat): TaskTable {
    if d.task.None? || !d.task.value.internalState.Starting? || d.task.value.externalExecutionId.Some? then d
    else
      Gate(d, UNCHANGED.(claimOwner := Some(Some(owner)),
                         statusMessage := Some("Reconciling an uncertain scheduled start.")),
           RuntimeKey("start-reconcile", previousLease))
  }

  function Bound(t: Task, ext: Id, revision: nat, tr: Transition): Update {
    Moved(tr).(externalExecutionId := Some(ext), adapterRevision := Some(revision), claimOwner := Some(None),
               started := Some(t.started || PublishedStarted(tr)))
  }

  function AcceptScheduled(
      d: TaskTable, owner: Id, ext: Id, revision: nat, tr: Transition, news: seq<(Id, Json)>, missed: bool): TaskTable
  {
    var requests := PutRequests(d.requests, news);
    if !Holds(d, Starting, owner) || requests.None? then d
    else
      var d' := Gate(d, Bound(d.task.value, ext, revision, tr), AdapterKey(revision));
      if missed && !IsTerminal(d'.task.value.internalState) && d'.task.value.externalExecutionId.None? then d
      else (if missed then StartWindowStop(d') else d').(requests := requests.value)
  }

  function ReleaseScheduleRetry(d: TaskTable, owner: Id, message: string): TaskTable {
    if !Holds(d, Starting, owner) then d
    else
      Gate(d, UNCHANGED.(internalState := Some(Scheduled), substate := Some(Some("scheduled")),
                         statusMessage := Some(message), claimOwner := Some(None)),
           RuntimeKey("start-retry", d.task.value.invocationAttempt))
  }

  function MarkScheduleUncertain(d: TaskTable, owner: Id, message: string, at: nat): TaskTable {
    if !Holds(d, Starting, owner) then d
    else
      Gate(d, UNCHANGED.(statusMessage := Some(message), claimOwner := Some(None)), RuntimeKey("start-uncertain", at))
  }

  function CompletedBy(reason: string): Update {
    Moved(Transition(TerminalCompleted, Completed, None, "", Some(RuntimeResult(reason)), None, true))
      .(claimOwner := Some(None))
  }

  function CompleteStartWindowMissed(d: TaskTable, owner: Id): TaskTable {
    if !Holds(d, Starting, owner) || d.task.value.externalExecutionId.Some? then d
    else Gate(d, CompletedBy("start_window_missed"), RuntimeKey("start-window-missed", 0))
  }

  function CompleteDueStartWindowMiss(d: TaskTable): TaskTable {
    if d.task.None? || !d.task.value.internalState.Scheduled? || d.task.value.externalExecutionId.Some? then d
    else Gate(d, CompletedBy("start_window_missed"), RuntimeKey("start-window-missed", 0))
  }

  function CompleteScheduledRejection(d: TaskTable, owner: Id): TaskTable {
    if !Holds(d, Starting, owner) then d
    else
      Gate(d, CompletedBy("admission_rejected"), RuntimeKey("admission-rejected", d.task.value.invocationAttempt))
  }

  /* ---------- start confirmation ---------- */

  function ClaimStartConfirmation(d: TaskTable, owner: Id): TaskTable {
    if d.task.None? || IsTerminal(d.task.value.internalState) || d.task.value.externalExecutionId.None?
       || d.task.value.stopReason.Some? || d.task.value.started then d
    else
      var attempt := d.task.value.confirmationAttempts + 1;
      Gate(d, UNCHANGED.(internalState := Some(WaitingStartConfirmation), mcpStatus := Some(Working),
                         statusMessage := Some("Reconciling bound execution start confirmation."),
                         confirmationAttempts := Some(attempt), claimOwner := Some(Some(owner))),
           RuntimeKey("start-confirmation", attempt))
  }

  function Max(a: nat, b: nat): nat {
    if a >= b then a else b
  }

  function ConfirmStarted(d: TaskTable, owner: Id, revision: nat, tr: Transition): TaskTable {
    if !Holds(d, WaitingStartConfirmation, owner) then d
    else
      Gate(d, Moved(tr).(adapterRevision := Some(Max(revision, d.task.value.adapterRevision)),
                         claimOwner := Some(None), started := Some(true)),
           RuntimeKey("start-confirmed", revision))
  }

  /** The one change of the task row that bypasses the gate. */
  function DeferStartConfirmation(d: TaskTable, owner: Id, message: string): TaskTable {
    if !Holds(d, WaitingStartConfirmation, owner) then d
    else
      d.(task := Some(d.task.value.(claimOwner := None, statusMessage := Some(message),
                                    runtimeRevision := d.task.value.runtimeRevision + 1)))
  }

  /* ---------- stops ---------- */

  predicate ActiveCancel(c: Command) {
    c.kind.CancelCommand? && (c.state.Pending? || c.state.Claimed? || c.state.RetryWait? || c.state.Acknowledged?)
  }

  /** Position of the newest active cancel among the first `n` commands. */
  function FindCancel(commands: seq<Command>, n: nat): (r: Option<nat>)
    requires n <= |commands|
    ensures r.Some? ==> r.value < n && ActiveCancel(commands[r.value])
  {
    if n == 0 then None
    else if ActiveCancel(commands[n - 1]) then Some(n - 1)
    else FindCancel(commands, n - 1)
  }

  function CancelFor(reason: StopReason, priority: nat, hash: Id): Command {
    Command(CancelCommand, Pending, None, 0, 0, priority, hash, Some(reason), map[])
  }

  function StopRequested(reason: StopReason): Update {
    UNCHANGED.(internalState := Some(Stopping), mcpStatus := Some(Working), substate := Some(Some("stopping")),
               cancelRequested := Some(true), stopReason := Some(Some(reason)))
  }

  /** `persistStartWindowStop` on a task with a bound execution, or a terminal one. */
  function StartWindowStop(d: TaskTable): TaskTable
    requires d.task.Some?
  {
    if IsTerminal(d.task.value.internalState) then d
    else
      var active := FindCancel(d.commands, |d.commands|);
      var commands :=
        if active.None? then d.commands + [CancelFor(StartWindowMissed, 200, "start_window_missed")]
        else if d.commands[active.value].stopReason == Some(UserRequested) then
          d.commands[active.value := d.commands[active.value].(stopReason := Some(StartWindowMissed), priority := 200)]
        else d.commands;
      var sequence := if active.None? then |commands| else active.value + 1;
      var reason :=
        if active.Some? && d.commands[active.value].stopReason == Some(DeadlineReached) then DeadlineReached
        else StartWindowMissed;
      Gate(d.(commands := commands),
           StopRequested(reason).(statusMessage := Some("Start window missed; safe stop requested."),
                                  claimOwner := Some(None)),
           CommandKey(sequence, "start-window-stop"))
  }

  function RequestStartWindowStop(d: TaskTable): TaskTable {
    if d.task.None? || (!IsTerminal(d.task.value.internalState) && d.task.value.externalExecutionId.None?) then d
    else StartWindowStop(d)
  }

  function StopUnconfirmed(d: TaskTable, owner: Id): TaskTable {
    if !Holds(d, WaitingStartConfirmation, owner) || d.task.value.externalExecutionId.None? then d
    else StartWindowStop(d)
  }

  function ClaimExpiredDeadline(d: TaskTable): TaskTable {
    if d.task.None? || d.task.value.stopReason == Some(DeadlineReached) || d.task.value.externalExecutionId.None?
       || IsTerminal(d.task.value.internalState) then d
    else
      var active := FindCancel(d.commands, |d.commands|);
      var commands :=
        if active.None? then d.commands + [CancelFor(DeadlineReached, 100, "deadline_reached")]
        else
          d.commands[active.value :=
            d.commands[active.value].(stopReason := Some(DeadlineReached), priority := 100)];
      var sequence := if active.None? then |commands| else active.value + 1;
      Gate(d.(commands := commands),
           StopRequested(DeadlineReached).(statusMessage := Some("Deadline reached; safe stop requested.")),
           CommandKey(sequence, "deadline-stop"))
  }

  predicate IsControl(kind: CommandType) {
    !kind.CancelCommand?
  }

  /** Safe stop exhausts waiting control commands; claimed ones run on. */
  function SupersedeWaiting(c: Command): Command {
    if IsControl(c.kind) && (c.state.Pending? || c.state.RetryWait?) then c.(state := Exhausted, owner := None) else c
  }

  function SupersedeAll(commands: seq<Command>): seq<Command> {
    seq(|commands|, i requires 0 <= i < |commands| => SupersedeWaiting(commands[i]))
  }

  function BeginCancel(d: TaskTable, hash: Id): TaskTable {
    if d.task.None? || FindCancel(d.commands, |d.commands|).Some? || IsTerminal(d.task.value.internalState) then d
    else
      var commands := SupersedeAll(d.commands) + [CancelFor(UserRequested, 100, hash)];
      Gate(d.(commands := commands),
           StopRequested(UserRequested).(statusMessage := Some("Cancellation requested.")),
           CommandKey(|commands|, "requested"))
  }

  function RecordCancelIntent(d: TaskTable): TaskTable {
    if d.task.None? then d
    else
      Gate(d, UNCHANGED.(cancelRequested := Some(true), stopReason := Some(Some(UserRequested))),
           RuntimeKey("cancel-intent", 0))
  }

  /* ---------- control commands ---------- */

  /** The task no longer takes input or control. */
  predicate Halting(t: Task) {
    t.cancelRequested || t.stopReason.Some? || t.internalState.Stopping?
  }

  predicate SameRequest(c: Command, kind: CommandType, hash: Id) {
    c.kind == kind && c.requestHash == hash
  }

  predicate InFlight(c: Command) {
    c.state.Pending? || c.state.Claimed? || c.state.RetryWait?
  }

  function BeginCommand(d: TaskTable, kind: CommandType, hash: Id, responses: map<Id, Json>): TaskTable {
    if d.task.None? || kind.CancelCommand?
       || (exists i :: 0 <= i < |d.commands| && SameRequest(d.commands[i], kind, hash))
       || IsTerminal(d.task.value.internalState) || Halting(d.task.value)
       || (exists i :: 0 <= i < |d.commands| && InFlight(d.commands[i])) then d
    else
      var commands := d.commands + [Command(kind, Pending, None, 0, 0, 0, hash, None, responses)];
      Gate(d.(commands := commands), UNCHANGED, CommandKey(|commands|, "requested"))
  }

  predicate Expired(c: Command, now: Instant) {
    c.state.Claimed? && c.claimUntil <= now
  }

  /** A command the dispatcher may take at `now`. */
  predicate Due(d: TaskTable, i: nat, now: Instant)
    requires i < |d.commands| && d.task.Some?
  {
    var c := d.commands[i];
    && (((c.state.Pending? || c.state.RetryWait?) && c.nextAttemptAt <= now) || Expired(c, now))
    && (c.kind.CancelCommand? || !d.task.value.cancelRequested)
    && forall j :: 0 <= j < |d.commands| && j != i ==> !(d.commands[j].state.Claimed? && d.commands[j].claimUntil > now)
  }

  /** `ORDER BY priority DESC, next_attempt_at, command_sequence`. */
  predicate Ahead(a: Command, i: nat, b: Command, j: nat) {
    a.priority > b.priority || (a.priority == b.priority
      && (a.nextAttemptAt < b.nextAttemptAt || (a.nextAttemptAt == b.nextAttemptAt && i <= j)))
  }

  /** Expired claims of control commands are exhausted once a stop is requested. */
  function SupersedeExpired(c: Command, stopping: bool, now: Instant): Command {
    if stopping && IsControl(c.kind) && Expired(c, now) then c.(state := Exhausted, owner := None) else c
  }

  function SupersedeAllExpired(commands: seq<Command>, stopping: bool, now: Instant): seq<Command> {
    seq(|commands|, i requires 0 <= i < |commands| => SupersedeExpired(commands[i], stopping, now))
  }

  /** The best due command among the first `n`. */
  function BestDue(d: TaskTable, n: nat, now: Instant): (r: Option<nat>)
    requires d.task.Some? && n <= |d.commands|
    ensures r.Some? ==> r.value < n && Due(d, r.value, now)
  {
    if n == 0 then None
    else
      var r := BestDue(d, n - 1, now);
      if !Due(d, n - 1, now) then r
      else if r.Some? && Ahead(d.commands[r.value], r.value, d.commands[n - 1], n - 1) then r
      else Some(n - 1)
  }

  /** Responses assigned to an exhausted update command are ignored. */
  function IgnoreAssigned(responses: map<Id, AcceptedResponse>, exhausted: set<nat>): map<Id, AcceptedResponse> {
    map key | key in responses ::
      if responses[key].state.Assigned? && responses[key].command.Some? && responses[key].command.value in exhausted
      then responses[key].(state := Ignored) else responses[key]
  }

  function NewlyExhausted(commands: seq<Command>, commands': seq<Command>): set<nat>
    requires |commands| == |commands'|
  {
    set i | 0 <= i < |commands| && commands[i].kind.UpdateCommand?
            && !commands[i].state.Exhausted? && commands'[i].state.Exhausted? :: i + 1
  }

  /** Violates the index that allows a task one claimed command. */
  predicate OtherClaimed(commands: seq<Command>, i: nat) {
    exists j :: 0 <= j < |commands| && j != i && commands[j].state.Claimed?
  }

  function ClaimDueCommand(d: TaskTable, now: Instant, owner: Id, until: Instant): TaskTable {
    if d.task.None? then d
    else
      var commands := SupersedeAllExpired(d.commands, d.task.value.cancelRequested, now);
      var d' := d.(commands := commands,
                   responses := IgnoreAssigned(d.responses, NewlyExhausted(d.commands, commands)));
      var best := BestDue(d', |commands|, now);
      if best.None? then d'
      else if OtherClaimed(commands, best.value) then d
      else
        d'.(commands := commands[best.value :=
              commands[best.value].(state := Claimed, owner := Some(owner), claimUntil := until)])
  }

  predicate ClaimedBy(d: TaskTable, i: nat, owner: Id) {
    i < |d.commands| && d.commands[i].state.Claimed? && d.commands[i].owner == Some(owner)
  }

  /**
   Retrying, rejecting, acknowledging, exhausting: whichever operation settles
   or puts back a command, with or without a claim check, it neither creates one
   nor claims one.
   */
  function SettleCommand(d: TaskTable, i: nat, state: CommandState, at: Instant): TaskTable {
    if i >= |d.commands| || state.Claimed? || state.Pending? then d
    else d.(commands := d.commands[i := d.commands[i].(state := state, owner := None, nextAttemptAt := at)])
  }

  /** The heartbeat of a claim. */
  function RenewClaim(d: TaskTable, i: nat, owner: Id, until: Instant): TaskTable {
    if !ClaimedBy(d, i, owner) then d else d.(commands := d.commands[i := d.commands[i].(claimUntil := until)])
  }

  /** A claimed command is rejected for good; the responses assigned to an update fail with it. */
  function RejectCommand(d: TaskTable, i: nat, owner: Id): TaskTable {
    if !ClaimedBy(d, i, owner) then d
    else
      d.(commands := d.commands[i := d.commands[i].(state := RejectedCommand, owner := None)],
         responses := if d.commands[i].kind.UpdateCommand? then FinishAssigned(d.responses, i + 1, ResponseFailed)
                      else d.responses)
  }

  /* ---------- the outbox beside the gate ---------- */

  /** Command facts and identity conflicts are outbox rows without an observation; a repeated key is dropped. */
  function InsertFact(d: TaskTable, text: string): TaskTable {
    if d.task.None? || FactKey(text) in d.outbox then d else d.(outbox := d.outbox + [FactKey(text)])
  }

  /** The cleaner deletes published rows; a batch is one row after the other. */
  function CleanOutbox(d: TaskTable, i: nat): TaskTable {
    if i >= |d.outbox| then d else d.(outbox := d.outbox[..i] + d.outbox[i + 1..])
  }

  /**
   A safe stop supersedes one control command under way, with the responses
   assigned to it; superseding several is superseding them one after the other.
   */
  function SupersedeCommand(d: TaskTable, i: nat): TaskTable {
    if i >= |d.commands| || !IsControl(d.commands[i].kind) || !InFlight(d.commands[i]) then d
    else
      d.(commands := d.commands[i := d.commands[i].(state := Exhausted, owner := None)],
         responses := if d.commands[i].kind.UpdateCommand? then FinishAssigned(d.responses, i + 1, Ignored)
                      else d.responses)
  }

  /* ---------- snapshots and failures ---------- */

  function MergeStopState(t: Task, tr: Transition): Transition {
    if (!t.cancelRequested && t.stopReason.None?) || tr.terminal then tr
    else
      tr.(internalState := t.internalState, mcpStatus := t.mcpStatus, substate := t.substate,
          statusMessage := Or(t.statusMessage, tr.statusMessage), result := t.result, error := t.error)
  }

  function ExhaustInFlight(c: Command): Command {
    if InFlight(c) then c.(state := Exhausted, owner := None) else c
  }

  function ExhaustAll(commands: seq<Command>): seq<Command> {
    seq(|commands|, i requires 0 <= i < |commands| => ExhaustInFlight(commands[i]))
  }

  function SnapshotUpdate(t: Task, revision: nat, tr: Transition): Update {
    Moved(MergeStopState(t, tr)).(
      adapterRevision := Some(revision),
      started := if TransitionHasStarted(tr) && !t.started then Some(true) else None)
  }

  function ApplySnapshot(d: TaskTable, revision: nat, tr: Transition, news: seq<(Id, Json)>): TaskTable {
    if d.task.None? || IsTerminal(d.task.value.internalState) || revision <= d.task.value.adapterRevision then d
    else
      var requests := PutRequests(d.requests, news);
      if requests.None? then d
      else
        var d' := Gate(d, SnapshotUpdate(d.task.value, revision, tr), AdapterKey(revision));
        d'.(requests := requests.value,
            commands := if tr.terminal then ExhaustAll(d'.commands) else d'.commands)
  }

  function NoteRecovery(d: TaskTable): TaskTable {
    if d.task.None? then d
    else
      var attempt := d.task.value.recoveryAttempts + 1;
      Gate(d, UNCHANGED.(recoveryAttempts := Some(attempt)), RuntimeKey("recovery", attempt))
  }

  function FailRecoveryNotFound(d: TaskTable, message: string): TaskTable {
    if d.task.None? then d
    else
      var attempt := d.task.value.recoveryAttempts + 1;
      Gate(d, FailedWith(message).(recoveryAttempts := Some(attempt)), RuntimeKey("recovery-failed", attempt))
  }

  function RejectUserCancel(d: TaskTable, i: nat, owner: Id, revision: nat, tr: Transition): TaskTable {
    if d.task.None? then d
    else if IsTerminal(d.task.value.internalState) then
      if i < |d.commands| then d.(commands := d.commands[i := d.commands[i].(state := Exhausted, owner := None)]) else d
    else if !ClaimedBy(d, i, owner) then d
    else
      var u := Moved(tr).(cancelRequested := Some(false), stopReason := Some(None));
      var u' := if revision > d.task.value.adapterRevision then u.(adapterRevision := Some(revision)) else u;
      var d' := Gate(d, u', CommandKey(i + 1, "rejected"));
      d'.(commands := d'.commands[i := d'.commands[i].(state := RejectedCommand, owner := None)])
  }

  function FailSafeStopUnconfirmed(d: TaskTable, i: nat, owner: Id, message: string): TaskTable {
    if d.task.None? || i >= |d.commands| || d.commands[i].owner != Some(owner) then d
    else
      var d' := Gate(d, FailedWith(message), CommandKey(i + 1, "safe-stop-failed"));
      d'.(commands := d'.commands[i := d'.commands[i].(state := Exhausted, owner := None)])
  }

  /* ---------- input responses ---------- */

  /** The responses of a call that are accepted: open request, nothing accepted for the key before. */
  function NewlyAccepted(d: TaskTable, given: map<Id, Json>): map<Id, Json> {
    map key | key in given && key in d.requests && d.requests[key].status.Open? && key !in d.responses :: given[key]
  }

  function WithPending(responses: map<Id, AcceptedResponse>, accepted: map<Id, Json>): map<Id, AcceptedResponse> {
    responses + map key | key in accepted :: AcceptedResponse(accepted[key], ResponsePending, None)
  }

  /** A response to an open request that does not fit its schema refuses the whole call. */
  predicate AnyInvalid(d: TaskTable, given: map<Id, Json>, invalid: set<Id>) {
    exists key :: key in given && key in d.requests && d.requests[key].status.Open? && key in invalid
  }

  /**
   `admitted`: the caller may see the task and its handle has not expired;
   `invalid`: the keys whose response the schema of the request refuses.
   */
  function AcceptResponses(d: TaskTable, given: map<Id, Json>, admitted: bool, invalid: set<Id>): TaskTable {
    if d.task.None? || !admitted || AnyInvalid(d, given, invalid) then d
    else
      var accepted := NewlyAccepted(d, given);
      var d' := d.(responses := WithPending(d.responses, accepted));
      if accepted == map[] then d else Gate(d', UNCHANGED, ResponseKey(accepted))
  }

  function PendingResponses(d: TaskTable): map<Id, Json> {
    map key | key in d.responses && d.responses[key].state.ResponsePending? :: d.responses[key].response
  }

  function SetPending(responses: map<Id, AcceptedResponse>, state: ResponseState, command: Option<nat>)
    : map<Id, AcceptedResponse>
  {
    map key | key in responses ::
      if responses[key].state.ResponsePending? then AcceptedResponse(responses[key].response, state, command)
      else responses[key]
  }

  function PromoteResponses(d: TaskTable, hash: Id): TaskTable {
    if d.task.None? || PendingResponses(d) == map[] then d
    else if Halting(d.task.value) || IsTerminal(d.task.value.internalState) then
      d.(responses := SetPending(d.responses, Ignored, None))
    else
      d.(commands := d.commands + [Command(UpdateCommand, Pending, None, 0, 0, 0, hash, None, PendingResponses(d))],
         responses := SetPending(d.responses, Assigned, Some(|d.commands| + 1)))
  }

  /** Give the responses assigned to a command their final state. */
  function FinishAssigned(responses: map<Id, AcceptedResponse>, sequence: nat, state: ResponseState)
    : map<Id, AcceptedResponse>
  {
    map key | key in responses ::
      if responses[key].state.Assigned? && responses[key].command == Some(sequence)
      then responses[key].(state := state) else responses[key]
  }

  function SupersedeOpen(requests: map<Id, InputRequest>, keys: set<Id>): map<Id, InputRequest> {
    map key | key in requests ::
      if key in keys && requests[key].status.Open? then requests[key].(status := SupersededRequest) else requests[key]
  }

  function AnswerAll(requests: map<Id, InputRequest>, answers: map<Id, Json>): map<Id, InputRequest> {
    map key | key in requests ::
      if key in answers then requests[key].(status := Answered, answer := Some(answers[key])) else requests[key]
  }

  predicate AllOpen(requests: map<Id, InputRequest>, keys: set<Id>) {
    forall key :: key in keys ==> key in requests && requests[key].status.Open?
  }

  /** The dispatcher answers with the responses the update command carries. */
  function AcknowledgeUpdate(d: TaskTable, i: nat, owner: Id): TaskTable {
    if d.task.None? || !ClaimedBy(d, i, owner) || !d.commands[i].kind.UpdateCommand? then d
    else
      var answers := d.commands[i].responses;
      if IsTerminal(d.task.value.internalState) || Halting(d.task.value) then
        d.(commands := d.commands[i := d.commands[i].(state := Exhausted, owner := None)],
           requests := SupersedeOpen(d.requests, answers.Keys),
           responses := FinishAssigned(d.responses, i + 1, Ignored))
      else if !AllOpen(d.requests, answers.Keys) then d
      else
        var d' := Gate(d.(requests := AnswerAll(d.requests, answers),
                          responses := FinishAssigned(d.responses, i + 1, ResponseAcknowledged)),
                       UNCHANGED, CommandKey(i + 1, "input-answered"));
        d'.(commands := d'.commands[i := d'.commands[i].(state := Acknowledged, owner := None)])
  }

  /** The rows of an update command that ends without its answers. */
  function WithoutAnswers(d: TaskTable, i: nat, state: CommandState, over: bool, responses: ResponseState): TaskTable
    requires i < |d.commands|
  {
    d.(commands := d.commands[i := d.commands[i].(state := state, owner := None)],
       requests := if over then d.requests else SupersedeOpen(d.requests, d.commands[i].responses.Keys),
       responses := FinishAssigned(d.responses, i + 1, responses))
  }

  /** Rejected or undeliverable responses fail the task, unless it is stopping or over. */
  function FailResponses(d: TaskTable, i: nat, owner: Id, rejected: bool): TaskTable {
    if d.task.None? || !ClaimedBy(d, i, owner) || !d.commands[i].kind.UpdateCommand? then d
    else
      var over := IsTerminal(d.task.value.internalState);
      if over || Halting(d.task.value) then WithoutAnswers(d, i, Exhausted, over, Ignored)
      else
        Gate(WithoutAnswers(d, i, if rejected then RejectedCommand else Exhausted, false, ResponseFailed),
             FailedWith(if rejected then "INPUT_RESPONSE_REJECTED" else "INPUT_RESPONSE_DELIVERY_EXHAUSTED"),
             CommandKey(i + 1, if rejected then "input-rejected" else "input-delivery-exhausted"))
  }

  /* ---------- runs ---------- */

  datatype TaskOp =
    | OpPublishAccepted(ext: Id, revision: nat, tr: Transition, news: seq<(Id, Json)>, missed: bool)
    | OpPublishScheduled
    | OpClaimDueScheduled(owner: Id)
    | OpReclaimScheduled(owner: Id, previousLease: nat)
    | OpAcceptScheduled(owner: Id, ext: Id, revision: nat, tr: Transition, news: seq<(Id, Json)>, missed: bool)
    | OpReleaseScheduleRetry(owner: Id, message: string)
    | OpMarkScheduleUncertain(owner: Id, message: string, at: nat)
    | OpCompleteStartWindowMissed(owner: Id)
    | OpCompleteDueStartWindowMiss
    | OpCompleteScheduledRejection(owner: Id)
    | OpClaimStartConfirmation(owner: Id)
    | OpConfirmStarted(owner: Id, revision: nat, tr: Transition)
    | OpDeferStartConfirmation(owner: Id, message: string)
    | OpRequestStartWindowStop
    | OpStopUnconfirmed(owner: Id)
    | OpClaimExpiredDeadline
    | OpBeginCancel(hash: Id)
    | OpRecordCancelIntent
    | OpBeginCommand(kind: CommandType, hash: Id, responses: map<Id, Json>)
    | OpClaimDueCommand(now: Instant, owner: Id, until: Instant)
    | OpSettleCommand(index: nat, state: CommandState, until: Instant)
    | OpSupersedeCommand(index: nat)
    | OpRejectCommand(index: nat, owner: Id)
    | OpRenewClaim(index: nat, owner: Id, until: Instant)
    | OpInsertFact(text: string)
    | OpCleanOutbox(index: nat)
    | OpApplySnapshot(revision: nat, tr: Transition, news: seq<(Id, Json)>)
    | OpNoteRecovery
    | OpFailRecoveryNotFound(message: string)
    | OpRejectUserCancel(index: nat, owner: Id, revision: nat, tr: Transition)
    | OpFailSafeStop(index: nat, owner: Id, message: string)
    | OpAcceptResponses(given: map<Id, Json>, admitted: bool, invalid: set<Id>)
    | OpPromoteResponses(hash: Id)
    | OpAcknowledgeUpdate(index: nat, owner: Id)
    | OpFailResponses(index: nat, owner: Id, rejected: bool)

  function TaskStep(d: TaskTable, op: TaskOp): TaskTable {
    match op
    case OpPublishAccepted(ext, revision, tr, news, missed) => PublishAccepted(d, ext, revision, tr, news, missed)
    case OpPublishScheduled => PublishScheduled(d)
    case OpClaimDueScheduled(owner) => ClaimDueScheduled(d, owner)
    case OpReclaimScheduled(owner, previousLease) => ReclaimScheduled(d, owner, previousLease)
    case OpAcceptScheduled(owner, ext, revision, tr, news, missed) =>
      AcceptScheduled(d, owner, ext, revision, tr, news, missed)
    case OpReleaseScheduleRetry(owner, message) => ReleaseScheduleRetry(d, owner, message)
    case OpMarkScheduleUncertain(owner, message, at) => MarkScheduleUncertain(d, owner, message, at)
    case OpCompleteStartWindowMissed(owner) => CompleteStartWindowMissed(d, owner)
    case OpCompleteDueStartWindowMiss => CompleteDueStartWindowMiss(d)
    case OpCompleteScheduledRejection(owner) => CompleteScheduledRejection(d, owner)
    case OpClaimStartConfirmation(owner) => ClaimStartConfirmation(d, owner)
    case OpConfirmStarted(owner, revision, tr) => ConfirmStarted(d, owner, revision, tr)
    case OpDeferStartConfirmation(owner, message) => DeferStartConfirmation(d, owner, message)
    case OpRequestStartWindowStop => RequestStartWindowStop(d)
    case OpStopUnconfirmed(owner) => StopUnconfirmed(d, owner)
    case OpClaimExpiredDeadline => ClaimExpiredDeadline(d)
    case OpBeginCancel(hash) => BeginCancel(d, hash)
    case OpRecordCancelIntent => RecordCancelIntent(d)
    case OpBeginCommand(kind, hash, responses) => BeginCommand(d, kind, hash, responses)
    case OpClaimDueCommand(now, owner, until) => ClaimDueCommand(d, now, owner, until)
    case OpSettleCommand(index, state, until) => SettleCommand(d, index, state, until)
    case OpSupersedeCommand(index) => SupersedeCommand(d, index)
    case OpRejectCommand(index, owner) => RejectCommand(d, index, owner)
    case OpRenewClaim(index, owner, until) => RenewClaim(d, index, owner, until)
    case OpInsertFact(text) => InsertFact(d, text)
    case OpCleanOutbox(index) => CleanOutbox(d, index)
    case OpApplySnapshot(revision, tr, news) => ApplySnapshot(d, revision, tr, news)
    case OpNoteRecovery => NoteRecovery(d)
    case OpFailRecoveryNotFound(message) => FailRecoveryNotFound(d, message)
    case OpRejectUserCancel(index, owner, revision, tr) => RejectUserCancel(d, index, owner, revision, tr)
    case OpFailSafeStop(index, owner, message) => FailSafeStopUnconfirmed(d, index, owner, message)
    case OpAcceptResponses(given, admitted, invalid) => AcceptResponses(d, given, admitted, invalid)
    case OpPromoteResponses(hash) => PromoteResponses(d, hash)
    case OpAcknowledgeUpdate(index, owner) => AcknowledgeUpdate(d, index, owner)
    case OpFailResponses(index, owner, rejected) => FailResponses(d, index, owner, rejected)
  }

  /** Every adapter transition an operation carries has passed the contract. */
  predicate CarriesAdmissible(op: TaskOp) {
    match op
    case OpPublishAccepted(_, _, tr, _, _) => Admissible(tr)
    case OpAcceptScheduled(_, _, _, tr, _, _) => Admissible(tr)
    case OpConfirmStarted(_, _, tr) => Admissible(tr)
    case OpApplySnapshot(_, tr, _) => Admissible(tr)
    case OpRejectUserCancel(_, _, _, tr) => Admissible(tr)
    case _ => true
  }

  function TaskRun(ops: seq<TaskOp>): TaskTable {
    if ops == [] then NO_TASK else TaskStep(TaskRun(ops[..|ops| - 1]), ops[|ops| - 1])
  }

  lemma TaskRunLast(ops: seq<TaskOp>, front: seq<TaskOp>, last: TaskOp)
    requires ops != [] && ops[..|ops| - 1] == front && ops[|ops| - 1] == last
    ensures TaskRun(ops) == TaskStep(TaskRun(front), last)
  {
  }

  /** The last step of a run that continues another. */
  lemma TaskRunSplit(ops: seq<TaskOp>, more: seq<TaskOp>)
    requires more != []
    ensures TaskRun(ops + more) == TaskStep(TaskRun(ops + more[..|more| - 1]), more[|more| - 1])
  {
    LastOf(ops, more);
    TaskRunLast(ops + more, ops + more[..|more| - 1], more[|more| - 1]);
  }
}
