/**
 Operations that do less than their names suggest: exactly when, and a run in
 which each of them does.
 */
module TaskEdges {
  import opened Basics
  import opened TaskTables
  import opened TaskLifecycle
  import opened TaskInput
  import V = TaskViews

  const RUNNING := Transition(Running, Working, Some("running"), "running", None, None, false)

  /** A task accepted by the adapter and running. */
  lemma RunningRun() returns (ops: seq<TaskOp>)
    ensures AllAdmissible(ops)
    ensures JustRunning(TaskRun(ops))
  {
    var op := OpPublishAccepted("e", 1, RUNNING, [], false);
    PublishRunning();
    V.RunMore([], op);
    ops := [] + [op];
  }

  ghost predicate JustRunning(d: TaskTable) {
    && d.task.Some? && d.task.value.internalState.Running? && d.task.value.adapterRevision == 1
    && d.task.value.externalExecutionId == Some("e") && !d.task.value.cancelRequested && d.task.value.stopReason.None?
    && d.task.value.confirmationAttempts == 0 && d.outbox == [Created]
  }

  lemma PublishRunning()
    ensures JustRunning(PublishAccepted(NO_TASK, "e", 1, RUNNING, [], false))
  {
    assert PutRequests(map[], []) == Some(map[]);
  }

  /* ---------- confirming a start ---------- */

  /** A confirmation takes effect exactly under the claim, for a newer revision, once. */
  lemma ConfirmAppliesExactly(d: TaskTable, owner: Id, revision: nat, tr: Transition)
    requires d.task.Some?
    ensures ConfirmStarted(d, owner, revision, tr) != d <==>
            Holds(d, WaitingStartConfirmation, owner) && revision > d.task.value.adapterRevision
            && RuntimeKey("start-confirmed", revision) !in d.outbox
    ensures ConfirmStarted(d, owner, revision, tr) != d ==>
            var t := ConfirmStarted(d, owner, revision, tr).task.value;
            t.internalState == tr.internalState && t.adapterRevision == revision && t.claimOwner.None?
  {
  }

  const QUEUED := Transition(Queued, Working, Some("queued"), "queued", None, None, false)

  /** A start confirmation is claimed, under way at revision 1, with no stop requested. */
  ghost predicate Confirming(d: TaskTable, revision: nat, stop: bool) {
    && Holds(d, WaitingStartConfirmation, "w") && d.task.value.adapterRevision == revision
    && d.task.value.cancelRequested == stop && d.task.value.stopReason.Some? == stop
    && (RuntimeKey("cancel-intent", 0) in d.outbox <==> stop)
  }

  lemma ClaimStage()
    ensures var d := PublishAccepted(NO_TASK, "e", 1, QUEUED, [], false);
      Confirming(ClaimStartConfirmation(d, "w"), 1, false)
  {
    assert PutRequests(map[], []) == Some(map[]);
  }

  lemma IntentStage(d: TaskTable)
    requires Confirming(d, 1, false)
    ensures Confirming(RecordCancelIntent(d), 1, true)
  {
  }

  lemma SnapshotStage(d: TaskTable)
    requires Coherent(d) && Confirming(d, 1, true)
    ensures Confirming(ApplySnapshot(d, 2, RUNNING, []), 2, true)
  {
    assert PutRequests(d.requests, []) == Some(d.requests);
    NewerIsNew(d, 2);
  }

  /**
   A confirmation is claimed for a queued task, an intent to cancel is recorded,
   and a snapshot says that it runs: the confirmation at that revision, though
   its claim is held, is lost.
   */
  lemma ConfirmationCanBeLost() returns (ops: seq<TaskOp>)
    ensures AllAdmissible(ops)
    ensures var d := TaskRun(ops);
      && Holds(d, WaitingStartConfirmation, "w") && d.task.value.adapterRevision == 2
      && ConfirmStarted(d, "w", 2, RUNNING) == d
  {
    var claimed := ConfirmingRun();
    IntentStage(TaskRun(claimed));
    V.RunMore(claimed, OpRecordCancelIntent);
    var stopped := claimed + [OpRecordCancelIntent];
    CoherentAlways(stopped);
    SnapshotStage(TaskRun(stopped));
    V.RunMore(stopped, OpApplySnapshot(2, RUNNING, []));
    ops := stopped + [OpApplySnapshot(2, RUNNING, [])];
  }

  lemma ConfirmingRun() returns (ops: seq<TaskOp>)
    ensures AllAdmissible(ops) && Confirming(TaskRun(ops), 1, false)
  {
    var publish := OpPublishAccepted("e", 1, QUEUED, [], false);
    ClaimStage();
    V.RunMore([], publish);
    V.RunMore([] + [publish], OpClaimStartConfirmation("w"));
    ops := [] + [publish] + [OpClaimStartConfirmation("w")];
  }

  /* ---------- responses left behind ---------- */

  /** The response is assigned to a command that will not be delivered. */
  ghost predicate Orphaned(d: TaskTable, key: Id) {
    && key in d.responses && d.responses[key].state.Assigned? && d.responses[key].command.Some?
    && 1 <= d.responses[key].command.value <= |d.commands|
    && d.commands[d.responses[key].command.value - 1].state.Exhausted?
  }

  /** An assigned response, and the command it is assigned to. */
  ghost predicate AssignedTo(d: TaskTable, key: Id, i: nat) {
    && key in d.responses && d.responses[key].state.Assigned?
    && d.responses[key].command == Some(i + 1) && i < |d.commands|
  }

  /** A cancel leaves a response behind exactly if it takes effect while the response's command waits. */
  lemma CancelOrphansExactly(d: TaskTable, hash: Id, key: Id, i: nat)
    requires InputSound(d) && d.task.Some? && AssignedTo(d, key, i) && !Orphaned(d, key)
    ensures Orphaned(BeginCancel(d, hash), key) <==>
            FindCancel(d.commands, |d.commands|).None? && !IsTerminal(d.task.value.internalState)
            && (d.commands[i].state.Pending? || d.commands[i].state.RetryWait?)
  {
    assert ResponseSound(d.commands, d.requests, key, d.responses[key]);
  }

  /** A snapshot leaves a response behind exactly if it ends the task while the response's command is under way. */
  lemma SnapshotOrphansExactly(d: TaskTable, revision: nat, tr: Transition, news: seq<(Id, Json)>, key: Id, i: nat)
    requires InputSound(d) && d.task.Some? && AssignedTo(d, key, i) && !Orphaned(d, key)
    ensures Orphaned(ApplySnapshot(d, revision, tr, news), key) <==>
            tr.terminal && InFlight(d.commands[i]) && !IsTerminal(d.task.value.internalState)
            && revision > d.task.value.adapterRevision && PutRequests(d.requests, news).Some?
  {
    assert ResponseSound(d.commands, d.requests, key, d.responses[key]);
  }

  /** A response accepted, promoted, and left behind by a cancel. */
  lemma CancelCanOrphan() returns (ops: seq<TaskOp>)
    ensures AllAdmissible(ops) && Orphaned(TaskRun(ops), "k")
  {
    var start := V.DeliveryUnderWay();
    var d := TaskRun(start);
    InputSoundAlways(start);
    assert FindCancel(d.commands, 0).None? && FindCancel(d.commands, 1).None?;
    CancelOrphansExactly(d, "c", "k", 0);
    V.RunMore(start, OpBeginCancel("c"));
    ops := start + [OpBeginCancel("c")];
  }

  const DONE := Transition(TerminalCompleted, Completed, None, "done", Some(RuntimeResult("done")), None, true)

  /** A response accepted, promoted, and left behind by the snapshot that ends the task. */
  lemma SnapshotCanOrphan() returns (ops: seq<TaskOp>)
    ensures AllAdmissible(ops) && Orphaned(TaskRun(ops), "k")
  {
    var start := V.DeliveryUnderWay();
    var d := TaskRun(start);
    InputSoundAlways(start);
    var revision := d.task.value.adapterRevision + 1;
    assert PutRequests(d.requests, []) == Some(d.requests);
    SnapshotOrphansExactly(d, revision, DONE, [], "k", 0);
    V.RunMore(start, OpApplySnapshot(revision, DONE, []));
    ops := start + [OpApplySnapshot(revision, DONE, [])];
  }

  /* ---------- a stop without stopping ---------- */

  /** A stop is requested, and the task is neither stopping nor over. */
  predicate StopsElsewhere(t: Task) {
    t.cancelRequested && t.stopReason.Some? && !t.internalState.Stopping? && !IsTerminal(t.internalState)
  }

  /**
   A recorded intent leaves such a task exactly if it was live, not stopping, and
   the intent new or the stop requested before.
   */
  lemma IntentStopsElsewhereExactly(d: TaskTable)
    requires Coherent(d) && d.task.Some?
    ensures StopsElsewhere(RecordCancelIntent(d).task.value) <==>
            !IsTerminal(d.task.value.internalState) && !d.task.value.internalState.Stopping?
            && (d.task.value.cancelRequested || RuntimeKey("cancel-intent", 0) !in d.outbox)
  {
  }

  lemma IntentCanStopElsewhere() returns (ops: seq<TaskOp>)
    ensures AllAdmissible(ops) && TaskRun(ops).task.Some? && StopsElsewhere(TaskRun(ops).task.value)
    ensures TaskRun(ops).task.value.internalState.Running?
  {
    var start := RunningRun();
    CoherentAlways(start);
    IntentStopsElsewhereExactly(TaskRun(start));
    V.RunMore(start, OpRecordCancelIntent);
    ops := start + [OpRecordCancelIntent];
  }
}
