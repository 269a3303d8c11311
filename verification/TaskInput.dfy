/** Input requests and the responses accepted for them: the first response wins, for ever. */
module TaskInput {
  import opened Basics
  import opened TaskTables
  import opened TaskLifecycle

  /* ---------- what holds of the tables ---------- */

  predicate RequestSound(r: InputRequest) {
    r.answer.Some? <==> r.status.Answered?
  }

  /** Command `sequence` is an update that carries this response. */
  predicate Carries(commands: seq<Command>, sequence: nat, key: Id, response: Json) {
    && 1 <= sequence <= |commands|
    && commands[sequence - 1].kind.UpdateCommand?
    && key in commands[sequence - 1].responses
    && commands[sequence - 1].responses[key] == response
  }

  predicate Delivered(requests: map<Id, InputRequest>, key: Id, response: Json) {
    key in requests && requests[key].answer == Some(response)
  }

  predicate ResponseSound(commands: seq<Command>, requests: map<Id, InputRequest>, key: Id, a: AcceptedResponse) {
    && key in requests
    && (a.state.Assigned? ==> a.command.Some?)
    && (a.command.Some? ==> Carries(commands, a.command.value, key, a.response))
    && (a.state.ResponseAcknowledged? ==> Delivered(requests, key, a.response))
  }

  ghost predicate InputSound(d: TaskTable) {
    && (forall key :: key in d.requests ==> RequestSound(d.requests[key]))
    && forall key :: key in d.responses ==> ResponseSound(d.commands, d.requests, key, d.responses[key])
  }

  /* ---------- what a transaction keeps ---------- */

  /** Commands are only added, and what they carry stays. */
  ghost predicate CommandsKept(commands: seq<Command>, commands': seq<Command>) {
    && |commands| <= |commands'|
    && forall i :: 0 <= i < |commands| ==>
        commands'[i].kind == commands[i].kind && commands'[i].responses == commands[i].responses
  }

  predicate RequestKept(r: InputRequest, r': InputRequest) {
    && r'.definition == r.definition
    && (!r.status.Open? ==> !r'.status.Open?)
    && (r.answer.Some? ==> r'.answer == r.answer)
  }

  ghost predicate RequestsKept(requests: map<Id, InputRequest>, requests': map<Id, InputRequest>) {
    forall key :: key in requests ==> key in requests' && RequestKept(requests[key], requests'[key])
  }

  /** An accepted response stays and is never replaced. */
  ghost predicate ResponsesKept(responses: map<Id, AcceptedResponse>, responses': map<Id, AcceptedResponse>) {
    forall key :: key in responses ==> key in responses' && responses'[key].response == responses[key].response
  }

  ghost predicate InputKept(d: TaskTable, d': TaskTable) {
    && CommandsKept(d.commands, d'.commands)
    && RequestsKept(d.requests, d'.requests)
    && ResponsesKept(d.responses, d'.responses)
  }

  ghost predicate KeepsInput(d: TaskTable, d': TaskTable) {
    InputSound(d') && InputKept(d, d')
  }

  lemma CommandsApart(d: TaskTable, d': TaskTable)
    requires InputSound(d) && InputApart(d, d')
    ensures KeepsInput(d, d')
  {
  }

  /* ---------- operations that leave requests and responses alone ---------- */

  /** Requests and responses are the same, and commands are kept. */
  ghost predicate InputApart(d: TaskTable, d': TaskTable) {
    CommandsKept(d.commands, d'.commands) && d'.requests == d.requests && d'.responses == d.responses
  }

  lemma ScheduleOpsLeaveInput(d: TaskTable, owner: Id, message: string, at: nat)
    ensures InputApart(d, ClaimDueScheduled(d, owner)) && InputApart(d, ReclaimScheduled(d, owner, at))
    ensures InputApart(d, ReleaseScheduleRetry(d, owner, message))
    ensures InputApart(d, MarkScheduleUncertain(d, owner, message, at))
  {
  }

  lemma OutcomeOpsLeaveInput(d: TaskTable, owner: Id)
    ensures InputApart(d, CompleteStartWindowMissed(d, owner)) && InputApart(d, CompleteDueStartWindowMiss(d))
    ensures InputApart(d, CompleteScheduledRejection(d, owner)) && InputApart(d, PublishScheduled(d))
  {
  }

  lemma ConfirmationOpsLeaveInput(d: TaskTable, owner: Id, revision: nat, tr: Transition, message: string)
    ensures InputApart(d, ClaimStartConfirmation(d, owner)) && InputApart(d, ConfirmStarted(d, owner, revision, tr))
    ensures InputApart(d, DeferStartConfirmation(d, owner, message))
    ensures InputApart(d, NoteRecovery(d)) && InputApart(d, FailRecoveryNotFound(d, message))
  {
  }

  lemma StartWindowStopLeavesInput(d: TaskTable)
    requires d.task.Some?
    ensures InputApart(d, StartWindowStop(d))
  {
  }

  lemma BeginCancelLeavesInput(d: TaskTable, hash: Id)
    ensures InputApart(d, BeginCancel(d, hash))
  {
  }

  lemma DeadlineLeavesInput(d: TaskTable)
    ensures InputApart(d, ClaimExpiredDeadline(d))
  {
  }

  lemma BeginCommandLeavesInput(d: TaskTable, kind: CommandType, hash: Id, responses: map<Id, Json>)
    ensures InputApart(d, BeginCommand(d, kind, hash, responses))
  {
  }

  lemma RenewLeavesInput(d: TaskTable, i: nat, owner: Id, until: Instant)
    ensures InputApart(d, RenewClaim(d, i, owner, until))
  {
  }

  lemma SettleLeavesInput(d: TaskTable, i: nat, state: CommandState, at: Instant)
    ensures InputApart(d, SettleCommand(d, i, state, at)) && InputApart(d, RecordCancelIntent(d))
  {
  }

  lemma RejectCancelLeavesInput(d: TaskTable, i: nat, owner: Id, revision: nat, tr: Transition)
    ensures InputApart(d, RejectUserCancel(d, i, owner, revision, tr))
  {
  }

  lemma FailSafeStopLeavesInput(d: TaskTable, i: nat, owner: Id, message: string)
    ensures InputApart(d, FailSafeStopUnconfirmed(d, i, owner, message))
  {
  }

  /* ---------- operations that bring new requests ---------- */

  lemma {:induction false} PutRequestsKeeps(requests: map<Id, InputRequest>, news: seq<(Id, Json)>)
    requires forall key :: key in requests ==> RequestSound(requests[key])
    requires PutRequests(requests, news).Some?
    ensures forall key :: key in PutRequests(requests, news).value ==>
              RequestSound(PutRequests(requests, news).value[key])
    ensures forall key :: key in requests ==>
              key in PutRequests(requests, news).value && PutRequests(requests, news).value[key] == requests[key]
  {
    if news != [] {
      PutRequestsKeeps(requests, news[..|news| - 1]);
    }
  }

  lemma NewRequestsKeep(d: TaskTable, d': TaskTable, news: seq<(Id, Json)>)
    requires InputSound(d) && CommandsKept(d.commands, d'.commands) && d'.responses == d.responses
    requires PutRequests(d.requests, news).Some? && d'.requests == PutRequests(d.requests, news).value
    ensures KeepsInput(d, d')
  {
    PutRequestsKeeps(d.requests, news);
  }

  lemma SnapshotKeepsInput(d: TaskTable, revision: nat, tr: Transition, news: seq<(Id, Json)>)
    requires InputSound(d)
    ensures KeepsInput(d, ApplySnapshot(d, revision, tr, news))
  {
    var d' := ApplySnapshot(d, revision, tr, news);
    if d' != d {
      NewRequestsKeep(d, d', news);
    }
  }

  lemma PublishKeepsInput(d: TaskTable, ext: Id, revision: nat, tr: Transition, news: seq<(Id, Json)>, missed: bool)
    requires InputSound(d)
    ensures KeepsInput(d, PublishAccepted(d, ext, revision, tr, news, missed))
  {
    var d' := PublishAccepted(d, ext, revision, tr, news, missed);
    if d' != d {
      NewRequestsKeep(d, d', news);
    }
  }

  lemma AcceptScheduledKeepsInput(
      d: TaskTable, owner: Id, ext: Id, revision: nat, tr: Transition, news: seq<(Id, Json)>, missed: bool)
    requires InputSound(d)
    ensures KeepsInput(d, AcceptScheduled(d, owner, ext, revision, tr, news, missed))
  {
    var requests := PutRequests(d.requests, news);
    if Holds(d, Starting, owner) && requests.Some? {
      var u := Bound(d.task.value, ext, revision, tr);
      var d' := Gate(d, u, AdapterKey(revision));
      StartWindowStopLeavesInput(d');
      NewRequestsKeep(d, d'.(requests := requests.value), news);
      NewRequestsKeep(d, StartWindowStop(d').(requests := requests.value), news);
    }
  }

  /* ---------- operations on accepted responses ---------- */

  /** Some assigned responses of known commands end without an answer. */
  predicate Ended(a: AcceptedResponse, a': AcceptedResponse) {
    && a'.response == a.response && a'.command == a.command
    && (a'.state == a.state || (!a'.state.Assigned? && !a'.state.ResponseAcknowledged?))
  }

  ghost predicate AllEnded(responses: map<Id, AcceptedResponse>, responses': map<Id, AcceptedResponse>) {
    && (forall key :: key in responses ==> key in responses' && Ended(responses[key], responses'[key]))
    && forall key :: key in responses' ==> key in responses
  }

  predicate Withdrawn(r: InputRequest, r': InputRequest) {
    r' == r || (r.status.Open? && r' == r.(status := SupersededRequest))
  }

  ghost predicate AllWithdrawn(requests: map<Id, InputRequest>, requests': map<Id, InputRequest>) {
    && (forall key :: key in requests ==> key in requests' && Withdrawn(requests[key], requests'[key]))
    && forall key :: key in requests' ==> key in requests
  }

  lemma EndingKeepsInput(d: TaskTable, d': TaskTable)
    requires InputSound(d) && CommandsKept(d.commands, d'.commands)
    requires AllEnded(d.responses, d'.responses) && AllWithdrawn(d.requests, d'.requests)
    ensures KeepsInput(d, d')
  {
    forall key | key in d'.responses
      ensures ResponseSound(d'.commands, d'.requests, key, d'.responses[key])
    {
      assert ResponseSound(d.commands, d.requests, key, d.responses[key]);
      assert Ended(d.responses[key], d'.responses[key]);
      assert Withdrawn(d.requests[key], d'.requests[key]);
      assert RequestSound(d.requests[key]);
    }
    forall key | key in d'.requests
      ensures RequestSound(d'.requests[key])
    {
      assert RequestSound(d.requests[key]) && Withdrawn(d.requests[key], d'.requests[key]);
    }
  }

  lemma ClaimKeepsInput(d: TaskTable, now: Instant, owner: Id, until: Instant)
    requires InputSound(d)
    ensures KeepsInput(d, ClaimDueCommand(d, now, owner, until))
  {
    var d' := ClaimDueCommand(d, now, owner, until);
    if d' != d {
      var commands := SupersedeAllExpired(d.commands, d.task.value.cancelRequested, now);
      assert CommandsKept(d.commands, commands);
      assert CommandsKept(commands, d'.commands);
      EndingKeepsInput(d, d');
    }
  }

  lemma SupersedeKeepsInput(d: TaskTable, i: nat)
    requires InputSound(d)
    ensures KeepsInput(d, SupersedeCommand(d, i))
  {
    EndingKeepsInput(d, SupersedeCommand(d, i));
  }

  lemma RejectKeepsInput(d: TaskTable, i: nat, owner: Id)
    requires InputSound(d)
    ensures KeepsInput(d, RejectCommand(d, i, owner))
  {
    EndingKeepsInput(d, RejectCommand(d, i, owner));
  }

  lemma AcceptKeepsInput(d: TaskTable, given: map<Id, Json>, admitted: bool, invalid: set<Id>)
    requires InputSound(d)
    ensures KeepsInput(d, AcceptResponses(d, given, admitted, invalid))
  {
  }

  lemma PromoteKeepsInput(d: TaskTable, hash: Id)
    requires InputSound(d)
    ensures KeepsInput(d, PromoteResponses(d, hash))
  {
  }

  /** The answering branch: requests and responses after it. */
  lemma AnsweringKeepsInput(d: TaskTable, d': TaskTable, i: nat)
    requires InputSound(d) && i < |d.commands| && CommandsKept(d.commands, d'.commands)
    requires AllOpen(d.requests, d.commands[i].responses.Keys)
    requires d'.requests == AnswerAll(d.requests, d.commands[i].responses)
    requires d'.responses == FinishAssigned(d.responses, i + 1, ResponseAcknowledged)
    ensures KeepsInput(d, d')
  {
    forall key | key in d'.responses
      ensures ResponseSound(d'.commands, d'.requests, key, d'.responses[key])
    {
      assert ResponseSound(d.commands, d.requests, key, d.responses[key]);
      assert RequestSound(d.requests[key]);
    }
    forall key | key in d.requests
      ensures RequestKept(d.requests[key], d'.requests[key]) && RequestSound(d'.requests[key])
    {
      assert RequestSound(d.requests[key]);
    }
  }

  lemma AcknowledgeKeepsInput(d: TaskTable, i: nat, owner: Id)
    requires InputSound(d)
    ensures KeepsInput(d, AcknowledgeUpdate(d, i, owner))
  {
    var d' := AcknowledgeUpdate(d, i, owner);
    if d.task.Some? && ClaimedBy(d, i, owner) && d.commands[i].kind.UpdateCommand? {
      if IsTerminal(d.task.value.internalState) || Halting(d.task.value) {
        assert d' == WithoutAnswers(d, i, Exhausted, false, Ignored);
        WithoutAnswersKeeps(d, i, Exhausted, false, Ignored);
      } else if AllOpen(d.requests, d.commands[i].responses.Keys) {
        assert CommandsKept(d.commands, d'.commands);
        AnsweringKeepsInput(d, d', i);
      }
    }
  }

  lemma WithoutAnswersKeeps(d: TaskTable, i: nat, state: CommandState, over: bool, responses: ResponseState)
    requires InputSound(d) && i < |d.commands| && (responses.Ignored? || responses.ResponseFailed?)
    ensures KeepsInput(d, WithoutAnswers(d, i, state, over, responses))
  {
    var d' := WithoutAnswers(d, i, state, over, responses);
    assert CommandsKept(d.commands, d'.commands);
    EndingKeepsInput(d, d');
  }

  lemma FailKeepsInput(d: TaskTable, i: nat, owner: Id, rejected: bool)
    requires InputSound(d)
    ensures KeepsInput(d, FailResponses(d, i, owner, rejected))
  {
    if d.task.Some? && ClaimedBy(d, i, owner) && d.commands[i].kind.UpdateCommand? {
      var over := IsTerminal(d.task.value.internalState);
      if over || Halting(d.task.value) {
        WithoutAnswersKeeps(d, i, Exhausted, over, Ignored);
      } else {
        WithoutAnswersKeeps(d, i, if rejected then RejectedCommand else Exhausted, false, ResponseFailed);
      }
    }
  }

  /* ---------- every operation ---------- */

  predicate IsScheduleOp(op: TaskOp) {
    op.OpClaimDueScheduled? || op.OpReclaimScheduled? || op.OpReleaseScheduleRetry? || op.OpMarkScheduleUncertain?
  }

  lemma ScheduleOpsApart(d: TaskTable, op: TaskOp)
    requires IsScheduleOp(op)
    ensures InputApart(d, TaskStep(d, op))
  {
    match op
    case OpClaimDueScheduled(owner) => ScheduleOpsLeaveInput(d, owner, "", 0);
    case OpReclaimScheduled(owner, lease) => ScheduleOpsLeaveInput(d, owner, "", lease);
    case OpReleaseScheduleRetry(owner, message) => ScheduleOpsLeaveInput(d, owner, message, 0);
    case OpMarkScheduleUncertain(owner, message, at) => ScheduleOpsLeaveInput(d, owner, message, at);
  }

  predicate IsOutcomeOp(op: TaskOp) {
    op.OpPublishScheduled? || op.OpCompleteStartWindowMissed? || op.OpCompleteDueStartWindowMiss?
    || op.OpCompleteScheduledRejection?
  }

  lemma OutcomeOpsApart(d: TaskTable, op: TaskOp)
    requires IsOutcomeOp(op)
    ensures InputApart(d, TaskStep(d, op))
  {
    OutcomeOpsLeaveInput(d, if op.OpPublishScheduled? || op.OpCompleteDueStartWindowMiss? then "" else op.owner);
  }

  const TO_RUNNING := Transition(Running, Working, None, "", None, None, false)

  lemma ConfirmationOpsApart(d: TaskTable, op: TaskOp)
    requires IsConfirmationOp(op) || op.OpDeferStartConfirmation?
    ensures InputApart(d, TaskStep(d, op))
  {
    match op
    case OpClaimStartConfirmation(owner) => ConfirmationOpsLeaveInput(d, owner, 0, TO_RUNNING, "");
    case OpConfirmStarted(owner, revision, tr) => ConfirmationOpsLeaveInput(d, owner, revision, tr, "");
    case OpDeferStartConfirmation(owner, message) => ConfirmationOpsLeaveInput(d, owner, 0, TO_RUNNING, message);
    case OpFailRecoveryNotFound(message) => ConfirmationOpsLeaveInput(d, "", 0, TO_RUNNING, message);
    case OpNoteRecovery => ConfirmationOpsLeaveInput(d, "", 0, TO_RUNNING, "");
  }

  lemma StartStopsLeaveInput(d: TaskTable, owner: Id)
    ensures InputApart(d, RequestStartWindowStop(d)) && InputApart(d, StopUnconfirmed(d, owner))
  {
    if d.task.Some? {
      StartWindowStopLeavesInput(d);
    }
  }

  lemma StopOpsApart(d: TaskTable, op: TaskOp)
    requires IsStopOp(op)
    ensures InputApart(d, TaskStep(d, op))
  {
    match op
    case OpBeginCancel(hash) => BeginCancelLeavesInput(d, hash);
    case OpClaimExpiredDeadline => DeadlineLeavesInput(d);
    case OpRecordCancelIntent => SettleLeavesInput(d, 0, Exhausted, 0);
    case OpRequestStartWindowStop => StartStopsLeaveInput(d, "");
    case OpStopUnconfirmed(owner) => StartStopsLeaveInput(d, owner);
  }

  predicate IsSettlingOp(op: TaskOp) {
    op.OpBeginCommand? || op.OpSettleCommand? || op.OpRejectUserCancel? || op.OpFailSafeStop?
  }

  lemma OutboxOpsApart(d: TaskTable, op: TaskOp)
    requires op.OpInsertFact? || op.OpCleanOutbox? || op.OpRenewClaim?
    ensures InputApart(d, TaskStep(d, op))
  {
    if op.OpRenewClaim? {
      RenewLeavesInput(d, op.index, op.owner, op.until);
    }
  }

  lemma SettlingOpsApart(d: TaskTable, op: TaskOp)
    requires IsSettlingOp(op)
    ensures InputApart(d, TaskStep(d, op))
  {
    match op
    case OpBeginCommand(kind, hash, responses) => BeginCommandLeavesInput(d, kind, hash, responses);
    case OpSettleCommand(index, state, until) => SettleLeavesInput(d, index, state, until);
    case OpRejectUserCancel(index, owner, revision, tr) => RejectCancelLeavesInput(d, index, owner, revision, tr);
    case OpFailSafeStop(index, owner, message) => FailSafeStopLeavesInput(d, index, owner, message);
  }

  predicate BringsRequests(op: TaskOp) {
    op.OpPublishAccepted? || op.OpAcceptScheduled? || op.OpApplySnapshot?
  }

  lemma RequestOpsKeepInput(d: TaskTable, op: TaskOp)
    requires InputSound(d) && BringsRequests(op)
    ensures KeepsInput(d, TaskStep(d, op))
  {
    match op
    case OpPublishAccepted(ext, revision, tr, news, missed) => PublishKeepsInput(d, ext, revision, tr, news, missed);
    case OpAcceptScheduled(owner, ext, revision, tr, news, missed) =>
      AcceptScheduledKeepsInput(d, owner, ext, revision, tr, news, missed);
    case OpApplySnapshot(revision, tr, news) => SnapshotKeepsInput(d, revision, tr, news);
  }

  predicate IsInboxOp(op: TaskOp) {
    op.OpAcceptResponses? || op.OpPromoteResponses?
  }

  lemma InboxOpsKeepInput(d: TaskTable, op: TaskOp)
    requires InputSound(d) && IsInboxOp(op)
    ensures KeepsInput(d, TaskStep(d, op))
  {
    match op
    case OpAcceptResponses(given, admitted, invalid) => AcceptKeepsInput(d, given, admitted, invalid);
    case OpPromoteResponses(hash) => PromoteKeepsInput(d, hash);
  }

  predicate IsDispatchOp(op: TaskOp) {
    op.OpClaimDueCommand? || op.OpSupersedeCommand? || op.OpRejectCommand?
  }

  lemma DispatchOpsKeepInput(d: TaskTable, op: TaskOp)
    requires InputSound(d) && IsDispatchOp(op)
    ensures KeepsInput(d, TaskStep(d, op))
  {
    match op
    case OpClaimDueCommand(now, owner, until) => ClaimKeepsInput(d, now, owner, until);
    case OpSupersedeCommand(index) => SupersedeKeepsInput(d, index);
    case OpRejectCommand(index, owner) => RejectKeepsInput(d, index, owner);
  }

  lemma AnswerOpsKeepInput(d: TaskTable, op: TaskOp)
    requires InputSound(d) && (op.OpAcknowledgeUpdate? || op.OpFailResponses?)
    ensures KeepsInput(d, TaskStep(d, op))
  {
    match op
    case OpAcknowledgeUpdate(index, owner) => AcknowledgeKeepsInput(d, index, owner);
    case OpFailResponses(index, owner, rejected) => FailKeepsInput(d, index, owner, rejected);
  }

  /** Operations that leave requests and responses alone. */
  lemma QuietOpsApart(d: TaskTable, op: TaskOp)
    requires !BringsRequests(op) && !IsInboxOp(op) && !IsDispatchOp(op)
    requires !op.OpAcknowledgeUpdate? && !op.OpFailResponses?
    ensures InputApart(d, TaskStep(d, op))
  {
    if IsScheduleOp(op) {
      ScheduleOpsApart(d, op);
    } else if IsOutcomeOp(op) {
      OutcomeOpsApart(d, op);
    } else if IsStopOp(op) {
      StopOpsApart(d, op);
    } else if IsSettlingOp(op) {
      SettlingOpsApart(d, op);
    } else if op.OpInsertFact? || op.OpCleanOutbox? || op.OpRenewClaim? {
      OutboxOpsApart(d, op);
    } else {
      ConfirmationOpsApart(d, op);
    }
  }

  lemma StepKeepsInput(d: TaskTable, op: TaskOp)
    requires InputSound(d)
    ensures KeepsInput(d, TaskStep(d, op))
  {
    if BringsRequests(op) {
      RequestOpsKeepInput(d, op);
    } else if IsInboxOp(op) {
      InboxOpsKeepInput(d, op);
    } else if IsDispatchOp(op) {
      DispatchOpsKeepInput(d, op);
    } else if op.OpAcknowledgeUpdate? || op.OpFailResponses? {
      AnswerOpsKeepInput(d, op);
    } else {
      QuietOpsApart(d, op);
      CommandsApart(d, TaskStep(d, op));
    }
  }

  /* ---------- runs ---------- */

  lemma {:induction false} InputSoundAlways(ops: seq<TaskOp>)
    ensures InputSound(TaskRun(ops))
  {
    if ops != [] {
      InputSoundAlways(ops[..|ops| - 1]);
      StepKeepsInput(TaskRun(ops[..|ops| - 1]), ops[|ops| - 1]);
    }
  }

  lemma KeptTransitive(a: TaskTable, b: TaskTable, c: TaskTable)
    requires InputKept(a, b) && InputKept(b, c)
    ensures InputKept(a, c)
  {
    forall key | key in a.requests
      ensures key in c.requests && RequestKept(a.requests[key], c.requests[key])
    {
      assert RequestKept(a.requests[key], b.requests[key]) && RequestKept(b.requests[key], c.requests[key]);
    }
  }

  lemma {:induction false} InputKeptOver(ops: seq<TaskOp>, more: seq<TaskOp>)
    ensures InputKept(TaskRun(ops), TaskRun(ops + more))
  {
    if more == [] {
      assert ops + more == ops;
    } else {
      var front, last := more[..|more| - 1], more[|more| - 1];
      TaskRunSplit(ops, more);
      InputKeptOver(ops, front);
      InputSoundAlways(ops + front);
      StepKeepsInput(TaskRun(ops + front), last);
      KeptTransitive(TaskRun(ops), TaskRun(ops + front), TaskRun(ops + more));
    }
  }

  /**
   The response accepted first for a key is the one kept through any later run,
   and if it is ever acknowledged it is the answer on record.
   */
  lemma FirstResponseWins(ops: seq<TaskOp>, more: seq<TaskOp>, key: Id)
    requires key in TaskRun(ops).responses
    ensures var first := TaskRun(ops).responses[key].response;
      var d := TaskRun(ops + more);
      && key in d.responses && d.responses[key].response == first
      && (d.responses[key].state.ResponseAcknowledged? ==> Delivered(d.requests, key, first))
      && (d.responses[key].command.Some? ==> Carries(d.commands, d.responses[key].command.value, key, first))
  {
    InputKeptOver(ops, more);
    InputSoundAlways(ops + more);
    var d := TaskRun(ops + more);
    assert ResponseSound(d.commands, d.requests, key, d.responses[key]);
  }

  /** A request that is closed stays closed, and an answer on record stays on record. */
  lemma AnswersAreFinal(ops: seq<TaskOp>, more: seq<TaskOp>, key: Id)
    requires key in TaskRun(ops).requests && !TaskRun(ops).requests[key].status.Open?
    ensures key in TaskRun(ops + more).requests && !TaskRun(ops + more).requests[key].status.Open?
    ensures TaskRun(ops).requests[key].answer.Some? ==>
              TaskRun(ops + more).requests[key].answer == TaskRun(ops).requests[key].answer
  {
    InputKeptOver(ops, more);
    assert RequestKept(TaskRun(ops).requests[key], TaskRun(ops + more).requests[key]);
  }

  /** Which responses of a call are taken, exactly, and with which text. */
  lemma AcceptedExactly(d: TaskTable, given: map<Id, Json>, admitted: bool, invalid: set<Id>, key: Id)
    requires d.task.Some?
    ensures var d' := AcceptResponses(d, given, admitted, invalid);
      var fresh' := admitted && !AnyInvalid(d, given, invalid)
                    && key in given && key in d.requests && d.requests[key].status.Open? && key !in d.responses;
      && (key in d'.responses <==> key in d.responses || fresh')
      && (key in d.responses ==> d'.responses[key] == d.responses[key])
      && (fresh' ==> d'.responses[key] == AcceptedResponse(given[key], ResponsePending, None))
      && (!admitted || AnyInvalid(d, given, invalid) ==> d' == d)
  {
    assert key in NewlyAccepted(d, given) ==> NewlyAccepted(d, given) != map[];
  }

  /** Promotion puts exactly the pending responses into one new update command, and assigns them to it. */
  lemma PromotedExactly(d: TaskTable, hash: Id, key: Id)
    requires d.task.Some? && !Halting(d.task.value) && !IsTerminal(d.task.value.internalState)
    requires key in d.responses && d.responses[key].state.ResponsePending?
    ensures var d' := PromoteResponses(d, hash);
      && |d'.commands| == |d.commands| + 1 && d'.commands[..|d.commands|] == d.commands
      && Carries(d'.commands, |d'.commands|, key, d.responses[key].response)
      && d'.commands[|d.commands|].responses.Keys
         == (set k | k in d.responses && d.responses[k].state.ResponsePending?)
      && d'.responses[key] == AcceptedResponse(d.responses[key].response, Assigned, Some(|d'.commands|))
  {
    assert key in PendingResponses(d);
    var d' := PromoteResponses(d, hash);
    assert d'.commands[..|d.commands|] == d.commands;
    assert d'.commands[|d.commands|].responses == PendingResponses(d);
  }

  /**
   An acknowledged update answers every request it names with what it carries, and
   settles its responses and itself.
   */
  lemma AnsweredExactly(d: TaskTable, i: nat, owner: Id, key: Id)
    requires InputSound(d) && d.task.Some? && ClaimedBy(d, i, owner) && d.commands[i].kind.UpdateCommand?
    requires !IsTerminal(d.task.value.internalState) && !Halting(d.task.value)
    requires AllOpen(d.requests, d.commands[i].responses.Keys) && key in d.requests
    ensures var d' := AcknowledgeUpdate(d, i, owner);
      && d'.commands == d.commands[i := d.commands[i].(state := Acknowledged, owner := None)]
      && d'.requests.Keys == d.requests.Keys
      && (key in d.commands[i].responses ==>
            d'.requests[key] == InputRequest(d.requests[key].definition, Answered, Some(d.commands[i].responses[key])))
      && (key !in d.commands[i].responses ==> d'.requests[key] == d.requests[key])
      && (key in d.responses && d.responses[key].state.Assigned? && d.responses[key].command == Some(i + 1) ==>
            key in d'.responses && d'.responses[key].state.ResponseAcknowledged?
            && Delivered(d'.requests, key, d.responses[key].response))
  {
    var d' := AcknowledgeUpdate(d, i, owner);
    assert d'.requests == AnswerAll(d.requests, d.commands[i].responses);
    assert d'.responses == FinishAssigned(d.responses, i + 1, ResponseAcknowledged);
    assert key in d.responses ==> ResponseSound(d.commands, d.requests, key, d.responses[key]);
  }
}
