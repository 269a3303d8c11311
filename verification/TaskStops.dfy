/** A requested stop holds until the task is over or the adapter refuses it. */
module TaskStops {
  import opened Basics
  import opened TaskTables
  import opened TaskLifecycle

  /** A stop is requested, and the task is stopping or over. */
  predicate StopHeld(d: TaskTable) {
    && d.task.Some?
    && d.task.value.cancelRequested && d.task.value.stopReason.Some?
    && (d.task.value.internalState.Stopping? || IsTerminal(d.task.value.internalState))
  }

  /** The command is of the same kind, and if it is a claimed control command it was already, by the same owner. */
  predicate SameClaim(c: Command, c': Command) {
    c'.kind == c.kind && (IsControl(c.kind) && c'.state.Claimed? ==> c.state.Claimed? && c'.owner == c.owner)
  }

  /** No UPDATE, PAUSE or RESUME command is created or newly claimed. */
  ghost predicate ControlFrozen(commands: seq<Command>, commands': seq<Command>) {
    && |commands| <= |commands'|
    && (forall i :: 0 <= i < |commands| ==> SameClaim(commands[i], commands'[i]))
    && forall i :: |commands| <= i < |commands'| ==> commands'[i].kind.CancelCommand?
  }

  lemma FrozenTransitive(a: seq<Command>, b: seq<Command>, c: seq<Command>)
    requires ControlFrozen(a, b) && ControlFrozen(b, c)
    ensures ControlFrozen(a, c)
  {
    forall i | 0 <= i < |a|
      ensures SameClaim(a[i], c[i])
    {
      assert SameClaim(a[i], b[i]) && SameClaim(b[i], c[i]);
    }
    forall i | |a| <= i < |c|
      ensures c[i].kind.CancelCommand?
    {
      if i < |b| {
        assert SameClaim(b[i], c[i]);
      }
    }
  }

  /* ---------- the task row ---------- */

  lemma StartOpsKeepStop(d: TaskTable, op: TaskOp)
    requires HasCoherentRow(d) && StopHeld(d) && IsStartOp(op)
    ensures StopHeld(TaskStep(d, op)) && TaskStep(d, op).commands == d.commands
  {
  }

  lemma ConfirmationOpsKeepStop(d: TaskTable, op: TaskOp)
    requires HasCoherentRow(d) && StopHeld(d) && IsConfirmationOp(op)
    ensures StopHeld(TaskStep(d, op)) && TaskStep(d, op).commands == d.commands
  {
  }

  lemma RowOpsKeepStop(d: TaskTable, op: TaskOp)
    requires HasCoherentRow(d) && StopHeld(d)
    requires Creates(op) || op.OpAcceptScheduled? || op.OpDeferStartConfirmation? || op.OpInsertFact?
          || op.OpCleanOutbox?
    ensures StopHeld(TaskStep(d, op)) && TaskStep(d, op).commands == d.commands
  {
  }

  lemma StartWindowStopKeepsStop(d: TaskTable)
    requires StopHeld(d)
    ensures StopHeld(StartWindowStop(d))
    ensures ControlFrozen(d.commands, StartWindowStop(d).commands)
  {
  }

  lemma StartStopsKeepStop(d: TaskTable, owner: Id)
    requires StopHeld(d)
    ensures StopHeld(RequestStartWindowStop(d)) && ControlFrozen(d.commands, RequestStartWindowStop(d).commands)
    ensures StopHeld(StopUnconfirmed(d, owner)) && ControlFrozen(d.commands, StopUnconfirmed(d, owner).commands)
  {
    StartWindowStopKeepsStop(d);
  }

  lemma IntentKeepsStop(d: TaskTable)
    requires StopHeld(d)
    ensures StopHeld(RecordCancelIntent(d)) && RecordCancelIntent(d).commands == d.commands
  {
  }

  lemma DeadlineKeepsStop(d: TaskTable)
    requires StopHeld(d)
    ensures StopHeld(ClaimExpiredDeadline(d))
    ensures ControlFrozen(d.commands, ClaimExpiredDeadline(d).commands)
  {
  }

  lemma BeginCancelKeepsStop(d: TaskTable, hash: Id)
    requires StopHeld(d)
    ensures StopHeld(BeginCancel(d, hash))
    ensures ControlFrozen(d.commands, BeginCancel(d, hash).commands)
  {
  }

  lemma BeginCommandKeepsStop(d: TaskTable, kind: CommandType, hash: Id, responses: map<Id, Json>)
    requires StopHeld(d)
    ensures BeginCommand(d, kind, hash, responses) == d
  {
  }

  /** A command that is settled, superseded or failed is not claimed any more. */
  lemma SettlingFreezes(d: TaskTable, i: nat, c: Command)
    requires i < |d.commands| && c.kind == d.commands[i].kind && !c.state.Claimed?
    ensures ControlFrozen(d.commands, d.commands[i := c])
  {
  }

  lemma SettleKeepsStop(d: TaskTable, i: nat, state: CommandState, at: Instant)
    requires StopHeld(d)
    ensures StopHeld(SettleCommand(d, i, state, at))
    ensures ControlFrozen(d.commands, SettleCommand(d, i, state, at).commands)
  {
  }

  lemma SupersedeKeepsStop(d: TaskTable, i: nat)
    requires StopHeld(d)
    ensures StopHeld(SupersedeCommand(d, i)) && ControlFrozen(d.commands, SupersedeCommand(d, i).commands)
  {
  }

  lemma RejectKeepsStop(d: TaskTable, i: nat, owner: Id)
    requires StopHeld(d)
    ensures StopHeld(RejectCommand(d, i, owner)) && ControlFrozen(d.commands, RejectCommand(d, i, owner).commands)
  {
  }

  lemma RenewKeepsStop(d: TaskTable, i: nat, owner: Id, until: Instant)
    requires StopHeld(d)
    ensures StopHeld(RenewClaim(d, i, owner, until))
    ensures ControlFrozen(d.commands, RenewClaim(d, i, owner, until).commands)
  {
  }

  lemma FailSafeStopKeepsStop(d: TaskTable, i: nat, owner: Id, message: string)
    requires StopHeld(d)
    ensures StopHeld(FailSafeStopUnconfirmed(d, i, owner, message))
    ensures ControlFrozen(d.commands, FailSafeStopUnconfirmed(d, i, owner, message).commands)
  {
    if i < |d.commands| {
      SettlingFreezes(d, i, d.commands[i].(state := Exhausted, owner := None));
    }
  }

  lemma ClaimKeepsStop(d: TaskTable, now: Instant, owner: Id, until: Instant)
    requires StopHeld(d)
    ensures StopHeld(ClaimDueCommand(d, now, owner, until))
    ensures ControlFrozen(d.commands, ClaimDueCommand(d, now, owner, until).commands)
  {
  }

  lemma SnapshotKeepsStop(d: TaskTable, revision: nat, tr: Transition, news: seq<(Id, Json)>)
    requires StopHeld(d) && Admissible(tr)
    ensures StopHeld(ApplySnapshot(d, revision, tr, news))
    ensures ControlFrozen(d.commands, ApplySnapshot(d, revision, tr, news).commands)
  {
  }

  lemma AcceptKeepsStop(d: TaskTable, given: map<Id, Json>, admitted: bool, invalid: set<Id>)
    requires StopHeld(d)
    ensures StopHeld(AcceptResponses(d, given, admitted, invalid))
    ensures AcceptResponses(d, given, admitted, invalid).commands == d.commands
  {
  }

  lemma PromoteKeepsStop(d: TaskTable, hash: Id)
    requires StopHeld(d)
    ensures StopHeld(PromoteResponses(d, hash)) && PromoteResponses(d, hash).commands == d.commands
  {
  }

  lemma AcknowledgeKeepsStop(d: TaskTable, i: nat, owner: Id)
    requires StopHeld(d)
    ensures StopHeld(AcknowledgeUpdate(d, i, owner))
    ensures ControlFrozen(d.commands, AcknowledgeUpdate(d, i, owner).commands)
  {
  }

  lemma FailResponsesKeepsStop(d: TaskTable, i: nat, owner: Id, rejected: bool)
    requires StopHeld(d)
    ensures StopHeld(FailResponses(d, i, owner, rejected))
    ensures ControlFrozen(d.commands, FailResponses(d, i, owner, rejected).commands)
  {
  }

  /* ---------- every operation ---------- */

  lemma StartStopOpsKeepStop(d: TaskTable, op: TaskOp)
    requires StopHeld(d) && (op.OpRequestStartWindowStop? || op.OpStopUnconfirmed?)
    ensures StopHeld(TaskStep(d, op)) && ControlFrozen(d.commands, TaskStep(d, op).commands)
  {
    StartStopsKeepStop(d, if op.OpStopUnconfirmed? then op.owner else "");
  }

  lemma CancelOpsKeepStop(d: TaskTable, op: TaskOp)
    requires StopHeld(d) && (op.OpClaimExpiredDeadline? || op.OpBeginCancel? || op.OpRecordCancelIntent?)
    ensures StopHeld(TaskStep(d, op)) && ControlFrozen(d.commands, TaskStep(d, op).commands)
  {
    match op
    case OpClaimExpiredDeadline => DeadlineKeepsStop(d);
    case OpBeginCancel(hash) => BeginCancelKeepsStop(d, hash);
    case OpRecordCancelIntent => IntentKeepsStop(d);
  }

  lemma ClaimOpsKeepStop(d: TaskTable, op: TaskOp)
    requires StopHeld(d) && (op.OpBeginCommand? || op.OpSettleCommand? || op.OpClaimDueCommand?)
    ensures StopHeld(TaskStep(d, op)) && ControlFrozen(d.commands, TaskStep(d, op).commands)
  {
    match op
    case OpBeginCommand(kind, hash, responses) => BeginCommandKeepsStop(d, kind, hash, responses);
    case OpSettleCommand(index, state, until) => SettleKeepsStop(d, index, state, until);
    case OpClaimDueCommand(now, owner, until) => ClaimKeepsStop(d, now, owner, until);
  }

  lemma VerdictOpsKeepStop(d: TaskTable, op: TaskOp)
    requires StopHeld(d)
    requires op.OpSupersedeCommand? || op.OpRejectCommand? || op.OpRenewClaim? || op.OpFailSafeStop?
    ensures StopHeld(TaskStep(d, op)) && ControlFrozen(d.commands, TaskStep(d, op).commands)
  {
    match op
    case OpSupersedeCommand(index) => SupersedeKeepsStop(d, index);
    case OpRejectCommand(index, owner) => RejectKeepsStop(d, index, owner);
    case OpRenewClaim(index, owner, until) => RenewKeepsStop(d, index, owner, until);
    case OpFailSafeStop(index, owner, message) => FailSafeStopKeepsStop(d, index, owner, message);
  }

  lemma ResponseOpsKeepStop(d: TaskTable, op: TaskOp)
    requires StopHeld(d) && (op.OpAcceptResponses? || op.OpPromoteResponses?)
    ensures StopHeld(TaskStep(d, op)) && ControlFrozen(d.commands, TaskStep(d, op).commands)
  {
    match op
    case OpAcceptResponses(given, admitted, invalid) => AcceptKeepsStop(d, given, admitted, invalid);
    case OpPromoteResponses(hash) => PromoteKeepsStop(d, hash);
  }

  lemma DeliveryOpsKeepStop(d: TaskTable, op: TaskOp)
    requires StopHeld(d) && (op.OpAcknowledgeUpdate? || op.OpFailResponses?)
    ensures StopHeld(TaskStep(d, op)) && ControlFrozen(d.commands, TaskStep(d, op).commands)
  {
    match op
    case OpAcknowledgeUpdate(index, owner) => AcknowledgeKeepsStop(d, index, owner);
    case OpFailResponses(index, owner, rejected) => FailResponsesKeepsStop(d, index, owner, rejected);
  }

  lemma StepKeepsStop(d: TaskTable, op: TaskOp)
    requires HasCoherentRow(d) && CarriesAdmissible(op) && StopHeld(d) && !op.OpRejectUserCancel?
    ensures StopHeld(TaskStep(d, op))
    ensures ControlFrozen(d.commands, TaskStep(d, op).commands)
  {
    if op.OpRequestStartWindowStop? || op.OpStopUnconfirmed? {
      StartStopOpsKeepStop(d, op);
    } else if IsStopOp(op) {
      CancelOpsKeepStop(d, op);
    } else if op.OpBeginCommand? || op.OpSettleCommand? || op.OpClaimDueCommand? {
      ClaimOpsKeepStop(d, op);
    } else if IsCommandOp(op) {
      VerdictOpsKeepStop(d, op);
    } else if op.OpApplySnapshot? {
      SnapshotKeepsStop(d, op.revision, op.tr, op.news);
    } else if op.OpAcceptResponses? || op.OpPromoteResponses? {
      ResponseOpsKeepStop(d, op);
    } else if op.OpAcknowledgeUpdate? || op.OpFailResponses? {
      DeliveryOpsKeepStop(d, op);
    } else if IsStartOp(op) {
      StartOpsKeepStop(d, op);
    } else if IsConfirmationOp(op) {
      ConfirmationOpsKeepStop(d, op);
    } else {
      RowOpsKeepStop(d, op);
    }
  }

  /* ---------- runs ---------- */

  /** Until a cancel is rejected, a stop holds and control commands stay as they are, however long the run. */
  lemma {:induction false} StopSticks(ops: seq<TaskOp>, more: seq<TaskOp>)
    requires forall i :: 0 <= i < |ops| ==> CarriesAdmissible(ops[i])
    requires forall i :: 0 <= i < |more| ==> CarriesAdmissible(more[i]) && !more[i].OpRejectUserCancel?
    requires StopHeld(TaskRun(ops))
    ensures StopHeld(TaskRun(ops + more))
    ensures ControlFrozen(TaskRun(ops).commands, TaskRun(ops + more).commands)
  {
    if more == [] {
      assert ops + more == ops;
    } else {
      var front, last := more[..|more| - 1], more[|more| - 1];
      TaskRunSplit(ops, more);
      StopSticks(ops, front);
      CoherentAlways(ops + front);
      StepKeepsStop(TaskRun(ops + front), last);
      FrozenTransitive(TaskRun(ops).commands, TaskRun(ops + front).commands, TaskRun(ops + more).commands);
    }
  }

  /** A cancel of a live task with no cancel under way always takes hold. */
  lemma CancelTakesHold(d: TaskTable, hash: Id)
    requires Coherent(d) && d.task.Some?
    requires !IsTerminal(d.task.value.internalState) && FindCancel(d.commands, |d.commands|).None?
    ensures StopHeld(BeginCancel(d, hash))
    ensures |BeginCancel(d, hash).commands| == |d.commands| + 1
    ensures BeginCancel(d, hash).commands[|d.commands|] == CancelFor(UserRequested, 100, hash)
    ensures forall i :: 0 <= i < |d.commands| && IsControl(d.commands[i].kind) ==>
              !BeginCancel(d, hash).commands[i].state.Pending? && !BeginCancel(d, hash).commands[i].state.RetryWait?
  {
  }
}
