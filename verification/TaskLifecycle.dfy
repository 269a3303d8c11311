/** What every lifecycle transaction keeps, and what holds of a task in every run. */
module TaskLifecycle {
  import opened Basics
  import opened TaskTables

  /* ---------- coherence ---------- */

  predicate RowCoherent(t: Task) {
    && Agree(t.internalState, t.mcpStatus, t.result, t.error)
    && (t.cancelRequested <==> t.stopReason.Some?)
    && (t.internalState.Scheduled? || t.internalState.Starting? ==> t.externalExecutionId.None?)
  }

  /** Observation revisions are exactly 1, 2, ..., one per change of the row. */
  ghost predicate HistoryDense(d: TaskTable)
    requires d.task.Some?
  {
    && d.task.value.observationRevision == |d.observations|
    && d.task.value.version + 1 == |d.observations|
    && forall i :: 0 <= i < |d.observations| ==> d.observations[i].revision == i + 1
  }

  /** A key names a revision or a command the task has had. */
  predicate KeyBounded(d: TaskTable, key: EventKey)
    requires d.task.Some?
  {
    && (key.AdapterKey? ==> key.revision <= d.task.value.adapterRevision)
    && (key.CommandKey? ==> key.sequence <= |d.commands|)
  }

  /** An event key is used once, and never ahead of time. */
  ghost predicate KeysSound(d: TaskTable)
    requires d.task.Some?
  {
    && (forall i, j :: 0 <= i < j < |d.outbox| ==> d.outbox[i] != d.outbox[j])
    && forall i :: 0 <= i < |d.outbox| ==> KeyBounded(d, d.outbox[i])
  }

  ghost predicate Coherent(d: TaskTable) {
    if d.task.None? then d == NO_TASK
    else RowCoherent(d.task.value) && HistoryDense(d) && KeysSound(d)
  }

  /** No newer revision was observed. */
  lemma NewerIsNew(d: TaskTable, revision: nat)
    requires Coherent(d) && d.task.Some? && revision > d.task.value.adapterRevision
    ensures AdapterKey(revision) !in d.outbox
  {
    forall i | 0 <= i < |d.outbox| ensures d.outbox[i] != AdapterKey(revision) {
      assert KeyBounded(d, d.outbox[i]);
    }
  }

  /** `d'` continues `d`: what no transaction may undo. */
  ghost predicate Continues(d: TaskTable, d': TaskTable) {
    d.task.Some? ==>
      && d'.task.Some?
      && (IsTerminal(d.task.value.internalState) ==> d'.task == d.task)
      && (d.task.value.externalExecutionId.Some? ==>
            d'.task.value.externalExecutionId == d.task.value.externalExecutionId)
      && (d.task.value.started ==> d'.task.value.started)
      && d.task.value.adapterRevision <= d'.task.value.adapterRevision
      && d.task.value.runtimeRevision <= d'.task.value.runtimeRevision
      && d'.task.value.runtimeRevision - d.task.value.runtimeRevision >= |d'.observations| - |d.observations|
      && d.observations <= d'.observations
  }

  /** How many outbox rows the gate wrote, facts not counted. */
  function GateRows(outbox: seq<EventKey>): nat {
    if outbox == [] then 0
    else GateRows(outbox[..|outbox| - 1]) + if outbox[|outbox| - 1].FactKey? then 0 else 1
  }

  lemma GateRowsAppend(outbox: seq<EventKey>, key: EventKey)
    ensures GateRows(outbox + [key]) == GateRows(outbox) + if key.FactKey? then 0 else 1
  {
    assert (outbox + [key])[..|outbox|] == outbox;
  }

  /** As many observations as outbox rows of the gate are added. */
  ghost predicate KeepsPace(d: TaskTable, d': TaskTable) {
    GateRows(d'.outbox) - GateRows(d.outbox) == |d'.observations| - |d.observations|
  }

  /* ---------- one transaction ---------- */

  /** The row after an applied change. */
  predicate RowMoves(t: Task, t': Task) {
    && !IsTerminal(t.internalState)
    && RowCoherent(t')
    && t'.observationRevision == t.observationRevision + 1
    && t'.version == t.version + 1
    && t'.runtimeRevision == t.runtimeRevision + 1
    && t.adapterRevision <= t'.adapterRevision
    && (t.externalExecutionId.Some? ==> t'.externalExecutionId == t.externalExecutionId)
    && (t.started ==> t'.started)
  }

  /** The history after an applied change: one observation and one new outbox key. */
  predicate HistoryMoves(d: TaskTable, d': TaskTable)
    requires d'.task.Some?
  {
    && |d'.outbox| == |d.outbox| + 1
    && d'.outbox == d.outbox + [d'.outbox[|d.outbox|]]
    && d'.outbox[|d.outbox|] !in d.outbox
    && KeyBounded(d', d'.outbox[|d.outbox|]) && !d'.outbox[|d.outbox|].FactKey?
    && d'.observations == d.observations + [Observation(d'.task.value.observationRevision)]
  }

  predicate Moves(d: TaskTable, d': TaskTable) {
    && d.task.Some? && d'.task.Some?
    && RowMoves(d.task.value, d'.task.value)
    && HistoryMoves(d, d')
  }

  predicate Rests(d: TaskTable, d': TaskTable) {
    d'.task == d.task && d'.observations == d.observations && d'.outbox == d.outbox
  }

  /** A transaction on an existing task: at most one applied change. */
  predicate OneChange(d: TaskTable, d': TaskTable) {
    |d.commands| <= |d'.commands| && (Rests(d, d') || Moves(d, d'))
  }

  predicate HasCoherentRow(d: TaskTable) {
    d.task.Some? ==> RowCoherent(d.task.value)
  }

  lemma OneChangeKeeps(d: TaskTable, d': TaskTable)
    requires Coherent(d) && d.task.Some? && OneChange(d, d')
    ensures Coherent(d') && Continues(d, d') && KeepsPace(d, d')
  {
    if Moves(d, d') {
      GateRowsAppend(d.outbox, d'.outbox[|d.outbox|]);
    }
  }

  /** A change the gate may be asked for. */
  predicate Proper(t: Task, u: Update) {
    && RowCoherent(Assign(t, u))
    && (u.externalExecutionId.Some? ==> t.externalExecutionId.None?)
    && (t.started ==> Assign(t, u).started)
  }

  lemma GateMoves(d: TaskTable, u: Update, key: EventKey)
    requires d.task.Some?
    requires Applies(d, u, key) ==> Proper(d.task.value, u)
    requires key.AdapterKey? ==> u.adapterRevision == Some(key.revision)
    requires !key.FactKey? && (key.CommandKey? ==> key.sequence <= |d.commands|)
    ensures OneChange(d, Gate(d, u, key))
  {
  }

  lemma StartWindowStopMoves(d: TaskTable)
    requires d.task.Some? && HasCoherentRow(d)
    requires IsTerminal(d.task.value.internalState) || d.task.value.externalExecutionId.Some?
    ensures OneChange(d, StartWindowStop(d))
  {
  }

  lemma PublishAcceptedKeeps(d: TaskTable, ext: Id, revision: nat, tr: Transition, news: seq<(Id, Json)>, missed: bool)
    requires Coherent(d) && Admissible(tr)
    ensures var d' := PublishAccepted(d, ext, revision, tr, news, missed);
      Coherent(d') && Continues(d, d') && KeepsPace(d, d')
  {
    var requests := PutRequests(d.requests, news);
    if d.task.None? && requests.Some? {
      NewRowKeeps(d, NewTask(tr.internalState, tr.mcpStatus, tr.substate, tr.statusMessage, tr.result, tr.error,
                             revision, Some(ext), 1, PublishedStarted(tr)), missed, requests.value);
    }
  }

  lemma NewRowKeeps(d: TaskTable, t: Task, missed: bool, requests: map<Id, InputRequest>)
    requires d == NO_TASK && RowCoherent(t) && t.externalExecutionId.Some?
    requires t.observationRevision == 1 && t.version == 0
    ensures var d1 := d.(task := Some(t), observations := [Observation(1)]);
      var d2 := if missed then StartWindowStop(d1) else d1;
      var d3 := d2.(outbox := d2.outbox + [Created], requests := requests);
      Coherent(d3) && Continues(d, d3) && KeepsPace(d, d3)
  {
    var d1 := d.(task := Some(t), observations := [Observation(1)]);
    FirstStop(d1);
    if missed {
      RowKeeps(StartWindowStop(d1), requests);
    } else {
      RowKeeps(d1, requests);
    }
  }

  lemma RowKeeps(d: TaskTable, requests: map<Id, InputRequest>)
    requires JustCreated(d) && |d.observations| == |d.outbox| + 1
    ensures var d' := d.(outbox := d.outbox + [Created], requests := requests);
      Coherent(d') && Continues(NO_TASK, d') && KeepsPace(NO_TASK, d')
  {
    FirstRow(d);
    RequestsApart(NO_TASK, d.(outbox := d.outbox + [Created]), requests);
  }

  /** A row without outbox rows but those of its first changes. */
  ghost predicate JustCreated(d: TaskTable) {
    && d.task.Some? && RowCoherent(d.task.value) && HistoryDense(d) && |d.outbox| <= 1
    && (|d.outbox| == 1 ==> d.outbox[0].CommandKey? && KeyBounded(d, d.outbox[0]))
  }

  /** A new row, and the key of its creation. */
  lemma FirstRow(d: TaskTable)
    requires JustCreated(d) && |d.observations| == |d.outbox| + 1
    ensures Coherent(d.(outbox := d.outbox + [Created])) && GateRows(d.outbox + [Created]) == |d.observations|
  {
    FirstKeys(d);
    assert HistoryDense(d.(outbox := d.outbox + [Created]));
    FirstCount(d.outbox);
  }

  lemma FirstCount(outbox: seq<EventKey>)
    requires |outbox| <= 1 && (|outbox| == 1 ==> !outbox[0].FactKey?)
    ensures GateRows(outbox + [Created]) == |outbox| + 1
  {
    GateRowsAppend(outbox, Created);
    if |outbox| == 1 {
      PublishedKeys(outbox);
    }
  }

  lemma FirstKeys(d: TaskTable)
    requires JustCreated(d)
    ensures KeysSound(d.(outbox := d.outbox + [Created]))
  {
    var d' := d.(outbox := d.outbox + [Created]);
    forall i | 0 <= i < |d'.outbox| ensures KeyBounded(d', d'.outbox[i]) {
      assert i < |d.outbox| ==> KeyBounded(d, d.outbox[i]);
    }
  }

  /** A new row that is stopped at once. */
  lemma FirstStop(d: TaskTable)
    requires JustCreated(d) && d.outbox == [] && |d.observations| == 1 && d.task.value.externalExecutionId.Some?
    ensures JustCreated(StartWindowStop(d)) && |StartWindowStop(d).observations| == |StartWindowStop(d).outbox| + 1
  {
    StartWindowStopMoves(d);
    var d' := StartWindowStop(d);
    if d'.outbox != d.outbox {
      assert d'.outbox[0].CommandKey? && d'.observations == d.observations + [Observation(2)];
    }
  }

  lemma PublishedKeys(outbox: seq<EventKey>)
    requires 1 <= |outbox| <= 2 && forall i :: 0 <= i < |outbox| ==> !outbox[i].FactKey?
    ensures GateRows(outbox) == |outbox|
  {
    assert GateRows(outbox[..0]) == 0;
    GateRowsAppend([], outbox[0]);
    assert [] + [outbox[0]] == outbox[..1];
    if |outbox| == 2 {
      GateRowsAppend(outbox[..1], outbox[1]);
      assert outbox[..1] + [outbox[1]] == outbox;
    } else {
      assert outbox[..1] == outbox;
    }
  }

  lemma ContinuesTransitive(a: TaskTable, b: TaskTable, c: TaskTable)
    requires Continues(a, b) && Continues(b, c)
    ensures Continues(a, c) && (KeepsPace(a, b) && KeepsPace(b, c) ==> KeepsPace(a, c))
  {
  }

  lemma RequestsApart(d: TaskTable, d': TaskTable, requests: map<Id, InputRequest>)
    requires Coherent(d') && d'.task.Some? && Continues(d, d')
    ensures Coherent(d'.(requests := requests)) && Continues(d, d'.(requests := requests))
    ensures KeepsPace(d, d') ==> KeepsPace(d, d'.(requests := requests))
  {
  }

  /** The binding change of acceptScheduled, before a stop is added to it. */
  lemma BindingKeeps(d: TaskTable, owner: Id, ext: Id, revision: nat, tr: Transition) returns (d': TaskTable)
    requires Coherent(d) && Admissible(tr) && Holds(d, Starting, owner)
    ensures d' == Gate(d, Bound(d.task.value, ext, revision, tr), AdapterKey(revision))
    ensures Coherent(d') && Continues(d, d') && KeepsPace(d, d')
  {
    var u := Bound(d.task.value, ext, revision, tr);
    d' := Gate(d, u, AdapterKey(revision));
    GateMoves(d, u, AdapterKey(revision));
    OneChangeKeeps(d, d');
  }

  lemma AcceptScheduledKeeps(
      d: TaskTable, owner: Id, ext: Id, revision: nat, tr: Transition, news: seq<(Id, Json)>, missed: bool)
    requires Coherent(d) && Admissible(tr)
    ensures var d' := AcceptScheduled(d, owner, ext, revision, tr, news, missed);
      Coherent(d') && Continues(d, d') && KeepsPace(d, d')
  {
    var requests := PutRequests(d.requests, news);
    if Holds(d, Starting, owner) && requests.Some? {
      var d' := BindingKeeps(d, owner, ext, revision, tr);
      RequestsApart(d, d', requests.value);
      if IsTerminal(d'.task.value.internalState) || d'.task.value.externalExecutionId.Some? {
        StopAfterBinding(d, d', requests.value);
      }
    }
  }

  lemma StopAfterBinding(d: TaskTable, d': TaskTable, requests: map<Id, InputRequest>)
    requires Coherent(d') && d'.task.Some? && Continues(d, d') && KeepsPace(d, d')
    requires IsTerminal(d'.task.value.internalState) || d'.task.value.externalExecutionId.Some?
    ensures var d'' := StartWindowStop(d').(requests := requests);
      Coherent(d'') && Continues(d, d'') && KeepsPace(d, d'')
  {
    StartWindowStopMoves(d');
    var d'' := StartWindowStop(d');
    OneChangeKeeps(d', d'');
    ContinuesTransitive(d, d', d'');
    RequestsApart(d, d'', requests);
  }

  predicate IsStartOp(op: TaskOp) {
    op.OpClaimDueScheduled? || op.OpReclaimScheduled? || op.OpReleaseScheduleRetry? || op.OpMarkScheduleUncertain?
    || op.OpCompleteStartWindowMissed? || op.OpCompleteDueStartWindowMiss? || op.OpCompleteScheduledRejection?
  }

  /** The operations on a claimed start that leave the row waiting. */
  predicate IsWaitingOp(op: TaskOp) {
    op.OpClaimDueScheduled? || op.OpReclaimScheduled? || op.OpReleaseScheduleRetry? || op.OpMarkScheduleUncertain?
  }

  lemma WaitingOpsMove(d: TaskTable, op: TaskOp)
    requires HasCoherentRow(d) && IsWaitingOp(op)
    ensures OneChange(d, TaskStep(d, op))
  {
  }

  lemma StartOpsMove(d: TaskTable, op: TaskOp)
    requires HasCoherentRow(d) && IsStartOp(op)
    ensures OneChange(d, TaskStep(d, op))
  {
    if IsWaitingOp(op) {
      WaitingOpsMove(d, op);
    }
  }

  predicate IsConfirmationOp(op: TaskOp) {
    op.OpClaimStartConfirmation? || op.OpConfirmStarted? || op.OpNoteRecovery? || op.OpFailRecoveryNotFound?
  }

  lemma ConfirmationOpsMove(d: TaskTable, op: TaskOp)
    requires HasCoherentRow(d) && CarriesAdmissible(op) && IsConfirmationOp(op)
    ensures OneChange(d, TaskStep(d, op))
  {
  }

  predicate IsStopOp(op: TaskOp) {
    op.OpRequestStartWindowStop? || op.OpStopUnconfirmed? || op.OpClaimExpiredDeadline? || op.OpBeginCancel?
    || op.OpRecordCancelIntent?
  }

  lemma DeadlineMoves(d: TaskTable)
    requires HasCoherentRow(d)
    ensures OneChange(d, ClaimExpiredDeadline(d))
  {
  }

  lemma BeginCancelMoves(d: TaskTable, hash: Id)
    requires HasCoherentRow(d)
    ensures OneChange(d, BeginCancel(d, hash))
  {
  }

  lemma StopOpsMove(d: TaskTable, op: TaskOp)
    requires HasCoherentRow(d) && IsStopOp(op)
    ensures OneChange(d, TaskStep(d, op))
  {
    if op.OpClaimExpiredDeadline? {
      DeadlineMoves(d);
    } else if op.OpBeginCancel? {
      BeginCancelMoves(d, op.hash);
    } else if op.OpRecordCancelIntent? {
    } else if TaskStep(d, op) != d {
      StartWindowStopMoves(d);
    }
  }

  predicate IsCommandOp(op: TaskOp) {
    op.OpBeginCommand? || op.OpClaimDueCommand? || op.OpSettleCommand? || op.OpRejectUserCancel? || op.OpFailSafeStop?
    || op.OpSupersedeCommand? || op.OpRejectCommand? || op.OpRenewClaim?
  }

  lemma BeginCommandMoves(d: TaskTable, kind: CommandType, hash: Id, responses: map<Id, Json>)
    requires HasCoherentRow(d)
    ensures OneChange(d, BeginCommand(d, kind, hash, responses))
  {
  }

  lemma RejectCancelMoves(d: TaskTable, i: nat, owner: Id, revision: nat, tr: Transition)
    requires HasCoherentRow(d) && Admissible(tr)
    ensures OneChange(d, RejectUserCancel(d, i, owner, revision, tr))
  {
  }

  lemma FailSafeStopMoves(d: TaskTable, i: nat, owner: Id, message: string)
    requires HasCoherentRow(d)
    ensures OneChange(d, FailSafeStopUnconfirmed(d, i, owner, message))
  {
  }

  lemma CommandOpsMove(d: TaskTable, op: TaskOp)
    requires HasCoherentRow(d) && CarriesAdmissible(op) && IsCommandOp(op)
    ensures OneChange(d, TaskStep(d, op))
  {
    match op
    case OpBeginCommand(kind, hash, responses) => BeginCommandMoves(d, kind, hash, responses);
    case OpRejectUserCancel(index, owner, revision, tr) => RejectCancelMoves(d, index, owner, revision, tr);
    case OpFailSafeStop(index, owner, message) => FailSafeStopMoves(d, index, owner, message);
    case OpClaimDueCommand(now, owner, until) => assert Rests(d, ClaimDueCommand(d, now, owner, until));
    case OpSettleCommand(index, state, until) => assert Rests(d, SettleCommand(d, index, state, until));
    case OpSupersedeCommand(index) => assert Rests(d, SupersedeCommand(d, index));
    case OpRejectCommand(index, owner) => assert Rests(d, RejectCommand(d, index, owner));
    case OpRenewClaim(index, owner, until) => assert Rests(d, RenewClaim(d, index, owner, until));
  }

  lemma SnapshotMoves(d: TaskTable, revision: nat, tr: Transition, news: seq<(Id, Json)>)
    requires HasCoherentRow(d) && Admissible(tr)
    ensures OneChange(d, ApplySnapshot(d, revision, tr, news))
  {
  }

  lemma AcceptMoves(d: TaskTable, given: map<Id, Json>, admitted: bool, invalid: set<Id>)
    requires HasCoherentRow(d)
    ensures OneChange(d, AcceptResponses(d, given, admitted, invalid))
  {
  }

  lemma PromoteMoves(d: TaskTable, hash: Id)
    ensures OneChange(d, PromoteResponses(d, hash))
  {
  }

  lemma AcknowledgeUpdateMoves(d: TaskTable, i: nat, owner: Id)
    requires HasCoherentRow(d)
    ensures OneChange(d, AcknowledgeUpdate(d, i, owner))
  {
  }

  lemma FailResponsesMoves(d: TaskTable, i: nat, owner: Id, rejected: bool)
    requires HasCoherentRow(d)
    ensures OneChange(d, FailResponses(d, i, owner, rejected))
  {
    if d.task.Some? && ClaimedBy(d, i, owner) && !IsTerminal(d.task.value.internalState) && !Halting(d.task.value) {
      GateMoves(WithoutAnswers(d, i, if rejected then RejectedCommand else Exhausted, false, ResponseFailed),
                FailedWith(if rejected then "INPUT_RESPONSE_REJECTED" else "INPUT_RESPONSE_DELIVERY_EXHAUSTED"),
                CommandKey(i + 1, if rejected then "input-rejected" else "input-delivery-exhausted"));
    }
  }

  lemma DeferKeeps(d: TaskTable, owner: Id, message: string)
    requires Coherent(d)
    ensures Coherent(DeferStartConfirmation(d, owner, message))
    ensures Continues(d, DeferStartConfirmation(d, owner, message))
    ensures KeepsPace(d, DeferStartConfirmation(d, owner, message))
  {
  }

  lemma FactKeeps(d: TaskTable, text: string)
    requires Coherent(d)
    ensures Coherent(InsertFact(d, text)) && Continues(d, InsertFact(d, text)) && KeepsPace(d, InsertFact(d, text))
  {
    GateRowsAppend(d.outbox, FactKey(text));
    var d' := InsertFact(d, text);
    if d' != d {
      FactKeysSound(d, d', FactKey(text));
    }
  }

  lemma FactKeysSound(d: TaskTable, d': TaskTable, key: EventKey)
    requires d.task.Some? && KeysSound(d) && key.FactKey? && key !in d.outbox && d' == d.(outbox := d.outbox + [key])
    ensures KeysSound(d')
  {
    forall i | 0 <= i < |d'.outbox| ensures KeyBounded(d', d'.outbox[i]) {
      assert i < |d.outbox| ==> KeyBounded(d, d.outbox[i]);
    }
    forall i, j | 0 <= i < j < |d'.outbox| ensures d'.outbox[i] != d'.outbox[j] {
      assert j < |d.outbox| ==> d.outbox[i] != d.outbox[j];
      assert d'.outbox[i] == d.outbox[i];
    }
  }

  lemma CleanKeeps(d: TaskTable, i: nat)
    requires Coherent(d)
    ensures Coherent(CleanOutbox(d, i)) && Continues(d, CleanOutbox(d, i))
  {
    var d' := CleanOutbox(d, i);
    if d' != d {
      assert forall j :: 0 <= j < |d'.outbox| ==> d'.outbox[j] == d.outbox[if j < i then j else j + 1];
      forall j | 0 <= j < |d'.outbox| ensures KeyBounded(d', d'.outbox[j]) {
        assert KeyBounded(d, d.outbox[if j < i then j else j + 1]);
      }
    }
  }

  predicate Creates(op: TaskOp) {
    op.OpPublishAccepted? || op.OpPublishScheduled?
  }

  /** Without a task there is nothing to change. */
  lemma NothingWithoutTask(op: TaskOp)
    requires !Creates(op)
    ensures TaskStep(NO_TASK, op) == NO_TASK
  {
  }

  /** All operations but the creating ones, acceptScheduled, deferStartConfirmation and what writes the outbox only. */
  predicate MovesOnce(op: TaskOp) {
    !Creates(op) && !op.OpAcceptScheduled? && !op.OpDeferStartConfirmation? && !op.OpInsertFact? && !op.OpCleanOutbox?
  }

  lemma StepMoves(d: TaskTable, op: TaskOp)
    requires HasCoherentRow(d) && CarriesAdmissible(op) && MovesOnce(op)
    ensures OneChange(d, TaskStep(d, op))
  {
    if IsStartOp(op) {
      StartOpsMove(d, op);
    } else if IsConfirmationOp(op) {
      ConfirmationOpsMove(d, op);
    } else if IsStopOp(op) {
      StopOpsMove(d, op);
    } else if IsCommandOp(op) {
      CommandOpsMove(d, op);
    } else if op.OpApplySnapshot? {
      SnapshotMoves(d, op.revision, op.tr, op.news);
    } else if op.OpAcceptResponses? {
      AcceptMoves(d, op.given, op.admitted, op.invalid);
    } else if op.OpPromoteResponses? {
      PromoteMoves(d, op.hash);
    } else if op.OpAcknowledgeUpdate? {
      AcknowledgeUpdateMoves(d, op.index, op.owner);
    } else {
      FailResponsesMoves(d, op.index, op.owner, op.rejected);
    }
  }

  /** Every transaction keeps a task coherent and undoes nothing. */
  lemma StepKeepsCoherent(d: TaskTable, op: TaskOp)
    requires Coherent(d) && CarriesAdmissible(op)
    ensures Coherent(TaskStep(d, op)) && Continues(d, TaskStep(d, op))
    ensures !op.OpCleanOutbox? ==> KeepsPace(d, TaskStep(d, op))
  {
    if op.OpPublishAccepted? {
      PublishAcceptedKeeps(d, op.ext, op.revision, op.tr, op.news, op.missed);
    } else if op.OpAcceptScheduled? {
      AcceptScheduledKeeps(d, op.owner, op.ext, op.revision, op.tr, op.news, op.missed);
    } else if op.OpDeferStartConfirmation? {
      DeferKeeps(d, op.owner, op.message);
    } else if op.OpPublishScheduled? {
      PublishScheduledKeeps(d);
    } else if op.OpInsertFact? {
      FactKeeps(d, op.text);
    } else if op.OpCleanOutbox? {
      CleanKeeps(d, op.index);
    } else if d.task.None? {
      NothingWithoutTask(op);
    } else {
      StepMoves(d, op);
      OneChangeKeeps(d, TaskStep(d, op));
    }
  }

  lemma PublishScheduledKeeps(d: TaskTable)
    requires Coherent(d)
    ensures Coherent(PublishScheduled(d)) && Continues(d, PublishScheduled(d)) && KeepsPace(d, PublishScheduled(d))
  {
    if d.task.None? {
      PublishedKeys(PublishScheduled(d).outbox);
    }
  }

  /* ---------- runs ---------- */

  ghost predicate AllAdmissible(ops: seq<TaskOp>) {
    forall i :: 0 <= i < |ops| ==> CarriesAdmissible(ops[i])
  }

  lemma {:induction false} CoherentAlways(ops: seq<TaskOp>)
    requires AllAdmissible(ops)
    ensures Coherent(TaskRun(ops))
  {
    if ops != [] {
      CoherentAlways(ops[..|ops| - 1]);
      StepKeepsCoherent(TaskRun(ops[..|ops| - 1]), ops[|ops| - 1]);
    }
  }

  /** As long as nothing is cleaned, the outbox holds one row of the gate for every observation. */
  lemma {:induction false} OneRowPerObservation(ops: seq<TaskOp>)
    requires AllAdmissible(ops) && forall i :: 0 <= i < |ops| ==> !ops[i].OpCleanOutbox?
    ensures GateRows(TaskRun(ops).outbox) == |TaskRun(ops).observations|
  {
    if ops != [] {
      var front := ops[..|ops| - 1];
      OneRowPerObservation(front);
      CoherentAlways(front);
      StepKeepsCoherent(TaskRun(front), ops[|ops| - 1]);
    }
  }

  /** Terminal rows, bound executions, revisions and history are never taken back. */
  lemma {:induction false} NothingIsUndone(ops: seq<TaskOp>, more: seq<TaskOp>)
    requires AllAdmissible(ops) && AllAdmissible(more)
    ensures Continues(TaskRun(ops), TaskRun(ops + more))
  {
    if more == [] {
      assert ops + more == ops;
    } else {
      var front, last := more[..|more| - 1], more[|more| - 1];
      TaskRunSplit(ops, more);
      NothingIsUndone(ops, front);
      CoherentAlways(ops + front);
      StepKeepsCoherent(TaskRun(ops + front), last);
      ContinuesTransitive(TaskRun(ops), TaskRun(ops + front), TaskRun(ops + more));
    }
  }
}
