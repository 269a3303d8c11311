/**
 Why a task is as it is: over every run, its end, its stop and its execution each go
 back to a transaction of the run that was entitled to it, and say what that was given.
 */
module TaskCauses {
  import opened Basics
  import opened TaskTables
  import opened TaskLifecycle
  import opened TaskStarts
  import opened TaskStopReasons

  /* ---------- causes ---------- */

  /** The adapter reported the end, to a transaction that may take its word. */
  ghost predicate EndedByAdapter(d: TaskTable, op: TaskOp, t: Task) {
    match op
    case OpPublishAccepted(_, _, tr, _, _) => d.task.None? && tr.terminal && Shows(t, tr)
    case OpAcceptScheduled(owner, _, _, tr, _, _) => Holds(d, Starting, owner) && tr.terminal && Shows(t, tr)
    case OpConfirmStarted(owner, _, tr) => Holds(d, WaitingStartConfirmation, owner) && tr.terminal && Shows(t, tr)
    case OpApplySnapshot(_, tr, _) => tr.terminal && Shows(t, tr)
    case OpRejectUserCancel(index, owner, _, tr) => ClaimedBy(d, index, owner) && tr.terminal && Shows(t, tr)
    case _ => false
  }

  /** The runtime ended it: not started in time, not admitted, lost, not to be stopped, or not to be answered. */
  ghost predicate EndedByRuntime(d: TaskTable, op: TaskOp, t: Task) {
    match op
    case OpCompleteStartWindowMissed(owner) =>
      Holds(d, Starting, owner) && t.externalExecutionId.None? && CompletedFor(t, "start_window_missed")
    case OpCompleteDueStartWindowMiss =>
      Awaits(d, Scheduled) && t.externalExecutionId.None? && CompletedFor(t, "start_window_missed")
    case OpCompleteScheduledRejection(owner) =>
      Holds(d, Starting, owner) && t.externalExecutionId.None? && CompletedFor(t, "admission_rejected")
    case OpFailRecoveryNotFound(message) => FailedFor(t, message)
    case OpFailSafeStop(index, owner, message) =>
      index < |d.commands| && d.commands[index].owner == Some(owner) && FailedFor(t, message)
    case OpFailResponses(index, owner, rejected) =>
      ClaimedBy(d, index, owner)
      && FailedFor(t, if rejected then "INPUT_RESPONSE_REJECTED" else "INPUT_RESPONSE_DELIVERY_EXHAUSTED")
    case _ => false
  }

  ghost predicate EndedBy(d: TaskTable, op: TaskOp, t: Task) {
    EndedByAdapter(d, op, t) || EndedByRuntime(d, op, t)
  }

  /** The transaction asks for a stop on account of the start window. */
  predicate WindowMissed(op: TaskOp) {
    || op.OpRequestStartWindowStop? || op.OpStopUnconfirmed?
    || (op.OpPublishAccepted? && op.missed) || (op.OpAcceptScheduled? && op.missed)
  }

  ghost predicate StoppedBy(d: TaskTable, op: TaskOp, reason: StopReason) {
    match reason
    case UserRequested => op.OpBeginCancel? || op.OpRecordCancelIntent?
    case StartWindowMissed => WindowMissed(op)
    case DeadlineReached => op.OpClaimExpiredDeadline? || (WindowMissed(op) && DeadlineCancel(d.commands))
  }

  /** The newest cancel under way is for the deadline. */
  ghost predicate DeadlineCancel(commands: seq<Command>) {
    exists i: nat :: NewestCancel(commands, i) && commands[i].stopReason == Some(DeadlineReached)
  }

  /** The execution was accepted for a new task, or for the owner of the claim of a scheduled one. */
  ghost predicate BoundBy(d: TaskTable, op: TaskOp, ext: Id) {
    match op
    case OpPublishAccepted(id, _, _, _, _) => d.task.None? && id == ext
    case OpAcceptScheduled(owner, id, _, _, _, _) => Holds(d, Starting, owner) && id == ext
    case _ => false
  }

  predicate IsOver(d: TaskTable) {
    d.task.Some? && IsTerminal(d.task.value.internalState)
  }

  predicate StopsFor(d: TaskTable, reason: StopReason) {
    d.task.Some? && d.task.value.stopReason == Some(reason)
  }

  predicate BoundTo(d: TaskTable, ext: Id) {
    d.task.Some? && d.task.value.externalExecutionId == Some(ext)
  }

  /** What the step brings about has a cause. */
  ghost predicate Explained(d: TaskTable, op: TaskOp, d': TaskTable) {
    && (IsOver(d') && !IsOver(d) ==> EndedBy(d, op, d'.task.value))
    && (forall reason :: StopsFor(d', reason) && !StopsFor(d, reason) ==> StoppedBy(d, op, reason))
    && (forall ext :: BoundTo(d', ext) && !BoundTo(d, ext) ==> BoundBy(d, op, ext))
  }

  /* ---------- every transaction ---------- */

  /** Nothing to explain. */
  predicate NothingNew(d: TaskTable, d': TaskTable) {
    && (IsOver(d') ==> IsOver(d))
    && (d'.task.Some? ==> d.task.Some? && d'.task.value.stopReason == d.task.value.stopReason
                          && d'.task.value.externalExecutionId == d.task.value.externalExecutionId)
  }

  lemma NewsExplained(d: TaskTable, op: TaskOp, d': TaskTable)
    requires NothingNew(d, d')
    ensures Explained(d, op, d')
  {
  }

  lemma ScheduleOpsNothingNew(d: TaskTable, op: TaskOp)
    requires IsWaitingOp(op)
    ensures NothingNew(d, TaskStep(d, op))
  {
  }

  lemma ConfirmationOpsNothingNew(d: TaskTable, op: TaskOp)
    requires op.OpClaimStartConfirmation? || op.OpDeferStartConfirmation? || op.OpNoteRecovery?
    ensures NothingNew(d, TaskStep(d, op))
  {
  }

  lemma CommandOpsNothingNew(d: TaskTable, op: TaskOp)
    requires op.OpBeginCommand? || op.OpClaimDueCommand? || op.OpSettleCommand?
    ensures NothingNew(d, TaskStep(d, op))
  {
  }

  lemma SettlingOpsNothingNew(d: TaskTable, op: TaskOp)
    requires op.OpSupersedeCommand? || op.OpRejectCommand? || op.OpRenewClaim? || op.OpInsertFact? || op.OpCleanOutbox?
    ensures NothingNew(d, TaskStep(d, op))
  {
  }

  lemma ResponseOpsNothingNew(d: TaskTable, op: TaskOp)
    requires op.OpAcceptResponses? || op.OpPromoteResponses? || op.OpAcknowledgeUpdate?
    ensures NothingNew(d, TaskStep(d, op))
  {
  }

  lemma WindowStopExplained(d: TaskTable, op: TaskOp)
    requires Coherent(d) && d.task.Some? && WindowMissed(op)
    ensures Explained(d, op, StartWindowStop(d))
  {
    WindowStopRow(d);
    WindowReason(d);
  }

  /** The reason a missed window leaves is the one there was, the window, or the deadline of the newest cancel. */
  lemma WindowReason(d: TaskTable)
    requires d.task.Some?
    ensures StartWindowStop(d).task.Some?
    ensures var reason := StartWindowStop(d).task.value.stopReason;
      || reason == d.task.value.stopReason || reason == Some(StartWindowMissed)
      || (reason == Some(DeadlineReached) && DeadlineCancel(d.commands))
  {
    var active := FindCancel(d.commands, |d.commands|);
    if active.Some? {
      FoundExactly(d.commands, active.value);
    }
  }

  lemma WindowStopRow(d: TaskTable)
    requires d.task.Some?
    ensures StartWindowStop(d).task.Some?
    ensures StartWindowStop(d).task.value.externalExecutionId == d.task.value.externalExecutionId
    ensures IsOver(StartWindowStop(d)) <==> IsOver(d)
  {
  }

  lemma StopOpsExplained(d: TaskTable, op: TaskOp)
    requires Coherent(d) && d.task.Some? && IsStopOp(op)
    ensures Explained(d, op, TaskStep(d, op))
  {
    if op.OpRequestStartWindowStop? || op.OpStopUnconfirmed? {
      WindowStopExplained(d, op);
    } else if op.OpClaimExpiredDeadline? {
      DeadlineExplained(d, op);
    } else {
      CancelExplained(d, op);
    }
  }

  lemma DeadlineExplained(d: TaskTable, op: TaskOp)
    requires op.OpClaimExpiredDeadline?
    ensures Explained(d, op, TaskStep(d, op))
  {
  }

  lemma CancelExplained(d: TaskTable, op: TaskOp)
    requires op.OpBeginCancel? || op.OpRecordCancelIntent?
    ensures Explained(d, op, TaskStep(d, op))
  {
  }

  lemma StartEndingsExplained(d: TaskTable, op: TaskOp)
    requires Coherent(d)
    requires op.OpCompleteStartWindowMissed? || op.OpCompleteDueStartWindowMiss? || op.OpCompleteScheduledRejection?
    ensures Explained(d, op, TaskStep(d, op))
  {
  }

  lemma LostExplained(d: TaskTable, op: TaskOp)
    requires op.OpFailRecoveryNotFound?
    ensures Explained(d, op, TaskStep(d, op))
  {
  }

  lemma UnstoppedExplained(d: TaskTable, op: TaskOp)
    requires op.OpFailSafeStop?
    ensures Explained(d, op, TaskStep(d, op))
  {
  }

  lemma UndeliveredExplained(d: TaskTable, op: TaskOp)
    requires op.OpFailResponses?
    ensures Explained(d, op, TaskStep(d, op))
  {
  }

  lemma SnapshotExplained(d: TaskTable, op: TaskOp)
    requires CarriesAdmissible(op) && op.OpApplySnapshot?
    ensures Explained(d, op, TaskStep(d, op))
  {
  }

  lemma ConfirmationExplained(d: TaskTable, op: TaskOp)
    requires CarriesAdmissible(op) && op.OpConfirmStarted?
    ensures Explained(d, op, TaskStep(d, op))
  {
  }

  lemma RejectionExplained(d: TaskTable, op: TaskOp)
    requires CarriesAdmissible(op) && op.OpRejectUserCancel?
    ensures Explained(d, op, TaskStep(d, op))
  {
  }

  lemma PublicationExplained(d: TaskTable, op: TaskOp)
    requires Coherent(d) && CarriesAdmissible(op) && (op.OpPublishAccepted? || op.OpPublishScheduled?)
    ensures Explained(d, op, TaskStep(d, op))
  {
    if op.OpPublishAccepted? {
      PublishExactly(d, op.ext, op.revision, op.tr, op.news, op.missed);
    } else {
      PublishScheduledExactly(d);
    }
  }

  /** The row just bound, before its window is looked at. */
  lemma BindingExplained(d: TaskTable, op: TaskOp)
    requires Coherent(d) && CarriesAdmissible(op) && op.OpAcceptScheduled? && Holds(d, Starting, op.owner)
    ensures var d' := Gate(d, Bound(d.task.value, op.ext, op.revision, op.tr), AdapterKey(op.revision));
      Explained(d, op, d') && Coherent(d') && d'.commands == d.commands
  {
    var u := Bound(d.task.value, op.ext, op.revision, op.tr);
    var d' := Gate(d, u, AdapterKey(op.revision));
    GateMoves(d, u, AdapterKey(op.revision));
    OneChangeKeeps(d, d');
  }

  /** A stop after something that is explained is explained. */
  lemma StopAfterwards(d: TaskTable, op: TaskOp, d1: TaskTable, d2: TaskTable)
    requires Explained(d, op, d1) && Explained(d1, op, d2) && WindowMissed(op) && d1.commands == d.commands
    requires d1.task.Some? && d2.task.Some? && (IsOver(d2) <==> IsOver(d1)) && (IsOver(d1) ==> d2.task == d1.task)
    requires d2.task.value.externalExecutionId == d1.task.value.externalExecutionId
    ensures Explained(d, op, d2)
  {
  }

  lemma AcceptanceExplained(d: TaskTable, op: TaskOp)
    requires Coherent(d) && CarriesAdmissible(op) && op.OpAcceptScheduled?
    ensures Explained(d, op, TaskStep(d, op))
  {
    if Holds(d, Starting, op.owner) && TaskStep(d, op) != d {
      BindingExplained(d, op);
      var d1 := Gate(d, Bound(d.task.value, op.ext, op.revision, op.tr), AdapterKey(op.revision));
      if op.missed {
        WindowStopExplained(d1, op);
        WindowStopRow(d1);
        StopAfterwards(d, op, d1, StartWindowStop(d1));
        assert TaskStep(d, op).task == StartWindowStop(d1).task;
      } else {
        assert TaskStep(d, op).task == d1.task;
      }
    }
  }

  lemma QuietOpsExplained(d: TaskTable, op: TaskOp)
    requires d.task.Some?
    requires IsWaitingOp(op) || op.OpClaimStartConfirmation? || op.OpDeferStartConfirmation? || op.OpNoteRecovery?
          || op.OpBeginCommand? || op.OpClaimDueCommand? || op.OpSettleCommand? || op.OpSupersedeCommand?
          || op.OpRejectCommand? || op.OpRenewClaim? || op.OpInsertFact? || op.OpCleanOutbox?
          || op.OpAcceptResponses? || op.OpPromoteResponses? || op.OpAcknowledgeUpdate?
    ensures Explained(d, op, TaskStep(d, op))
  {
    if IsWaitingOp(op) {
      ScheduleOpsNothingNew(d, op);
    } else if op.OpClaimStartConfirmation? || op.OpDeferStartConfirmation? || op.OpNoteRecovery? {
      ConfirmationOpsNothingNew(d, op);
    } else if op.OpBeginCommand? || op.OpClaimDueCommand? || op.OpSettleCommand? {
      CommandOpsNothingNew(d, op);
    } else if op.OpAcceptResponses? || op.OpPromoteResponses? || op.OpAcknowledgeUpdate? {
      ResponseOpsNothingNew(d, op);
    } else {
      SettlingOpsNothingNew(d, op);
    }
    NewsExplained(d, op, TaskStep(d, op));
  }

  lemma StepExplained(d: TaskTable, op: TaskOp)
    requires Coherent(d) && CarriesAdmissible(op)
    ensures Explained(d, op, TaskStep(d, op))
  {
    if op.OpPublishAccepted? || op.OpPublishScheduled? {
      PublicationExplained(d, op);
    } else if d.task.None? {
      NothingWithoutTask(op);
    } else if op.OpAcceptScheduled? {
      AcceptanceExplained(d, op);
    } else if IsStopOp(op) {
      StopOpsExplained(d, op);
    } else if op.OpCompleteStartWindowMissed? || op.OpCompleteDueStartWindowMiss? || op.OpCompleteScheduledRejection? {
      StartEndingsExplained(d, op);
    } else if op.OpFailRecoveryNotFound? {
      LostExplained(d, op);
    } else if op.OpFailSafeStop? {
      UnstoppedExplained(d, op);
    } else if op.OpFailResponses? {
      UndeliveredExplained(d, op);
    } else if op.OpApplySnapshot? {
      SnapshotExplained(d, op);
    } else if op.OpConfirmStarted? {
      ConfirmationExplained(d, op);
    } else if op.OpRejectUserCancel? {
      RejectionExplained(d, op);
    } else {
      QuietOpsExplained(d, op);
    }
  }

  /* ---------- over runs ---------- */

  /** Step `k` of the run, and the task before it. */
  ghost predicate EndsAt(ops: seq<TaskOp>, k: nat, t: Task) {
    k < |ops| && !IsOver(TaskRun(ops[..k])) && EndedBy(TaskRun(ops[..k]), ops[k], t)
  }

  /**
   Every finished task was finished by one transaction of the run: the adapter reported
   this very end to it, or the runtime gave the reason the row shows. So a task is
   cancelled only if the adapter says so.
   */
  lemma {:induction false} EndHasACause(ops: seq<TaskOp>)
    requires AllAdmissible(ops) && IsOver(TaskRun(ops))
    ensures exists k: nat :: EndsAt(ops, k, TaskRun(ops).task.value)
  {
    var n := |ops| - 1;
    var front := ops[..n];
    if IsOver(TaskRun(front)) {
      EndHasACause(front);
      var k: nat :| EndsAt(front, k, TaskRun(front).task.value);
      assert front[..k] == ops[..k];
      CoherentAlways(front);
      StepKeepsCoherent(TaskRun(front), ops[n]);
      assert EndsAt(ops, k, TaskRun(ops).task.value);
    } else {
      CoherentAlways(front);
      StepExplained(TaskRun(front), ops[n]);
      assert ops[..n] == front && EndsAt(ops, n, TaskRun(ops).task.value);
    }
  }

  /** A cancelled task was reported cancelled. */
  lemma CancelledByAdapter(ops: seq<TaskOp>)
    requires AllAdmissible(ops) && TaskRun(ops).task.Some? && TaskRun(ops).task.value.internalState.TerminalCancelled?
    ensures exists k: nat :: ReportedAt(ops, k, TaskRun(ops).task.value)
  {
    EndHasACause(ops);
    var t := TaskRun(ops).task.value;
    var k: nat :| EndsAt(ops, k, t);
    NotByRuntime(ops, k, t);
  }

  /** The adapter reported the end to step `k` of the run. */
  ghost predicate ReportedAt(ops: seq<TaskOp>, k: nat, t: Task) {
    k < |ops| && EndedByAdapter(TaskRun(ops[..k]), ops[k], t)
  }

  lemma NotByRuntime(ops: seq<TaskOp>, k: nat, t: Task)
    requires EndsAt(ops, k, t) && t.internalState.TerminalCancelled?
    ensures ReportedAt(ops, k, t)
  {
    if EndedByRuntime(TaskRun(ops[..k]), ops[k], t) {
      RuntimeNeverCancels(TaskRun(ops[..k]), ops[k], t);
    }
  }

  lemma RuntimeNeverCancels(d: TaskTable, op: TaskOp, t: Task)
    requires EndedByRuntime(d, op, t)
    ensures !t.internalState.TerminalCancelled?
  {
  }

  ghost predicate StoppedAt(ops: seq<TaskOp>, k: nat, reason: StopReason) {
    k < |ops| && StoppedBy(TaskRun(ops[..k]), ops[k], reason)
  }

  ghost predicate BoundAt(ops: seq<TaskOp>, k: nat, ext: Id) {
    k < |ops| && BoundBy(TaskRun(ops[..k]), ops[k], ext)
  }

  /** Every stop was asked for by a transaction of the run, for the reason the row shows. */
  lemma {:induction false} StopHasACause(ops: seq<TaskOp>, reason: StopReason)
    requires AllAdmissible(ops) && StopsFor(TaskRun(ops), reason)
    ensures exists k: nat :: StoppedAt(ops, k, reason)
  {
    var n := |ops| - 1;
    var front := ops[..n];
    if StopsFor(TaskRun(front), reason) {
      StopHasACause(front, reason);
      var k: nat :| StoppedAt(front, k, reason);
      assert front[..k] == ops[..k];
      assert StoppedAt(ops, k, reason);
    } else {
      CoherentAlways(front);
      StepExplained(TaskRun(front), ops[n]);
      assert StoppedAt(ops, n, reason);
    }
  }

  /** Every execution was bound by a transaction of the run that was given its id. */
  lemma {:induction false} ExecutionHasACause(ops: seq<TaskOp>, ext: Id)
    requires AllAdmissible(ops) && BoundTo(TaskRun(ops), ext)
    ensures exists k: nat :: BoundAt(ops, k, ext)
  {
    var n := |ops| - 1;
    var front := ops[..n];
    if BoundTo(TaskRun(front), ext) {
      ExecutionHasACause(front, ext);
      var k: nat :| BoundAt(front, k, ext);
      assert front[..k] == ops[..k];
      assert BoundAt(ops, k, ext);
    } else {
      CoherentAlways(front);
      StepExplained(TaskRun(front), ops[n]);
      assert BoundAt(ops, n, ext);
    }
  }
}
