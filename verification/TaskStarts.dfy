/**
 Publishing a task, starting a scheduled one and confirming a bound one: exactly
 when each transaction takes effect, for whom, and what the row is after it.
 */
module TaskStarts {
  import opened Basics
  import opened TaskTables
  import opened TaskLifecycle

  /** The states in which an execution counts as started when a snapshot is applied. */
  const STARTED_STATES := {Running, Paused, Resuming, TerminalCompleted, TerminalFailed}

  /** Everything of a row but what a start or its claim changes is as it was. */
  predicate SameOutcome(t: Task, t': Task) {
    && t'.mcpStatus == t.mcpStatus && t'.result == t.result && t'.error == t.error
    && t'.cancelRequested == t.cancelRequested && t'.stopReason == t.stopReason
    && t'.adapterRevision == t.adapterRevision && t'.externalExecutionId == t.externalExecutionId
    && t'.started == t.started
  }

  /** The row shows the transition. */
  predicate Shows(t: Task, tr: Transition) {
    && t.internalState == tr.internalState && t.mcpStatus == tr.mcpStatus && t.substate == tr.substate
    && t.statusMessage == Some(tr.statusMessage) && t.result == tr.result && t.error == tr.error
  }

  /** The runtime ended the task itself, completed with its reason. */
  predicate CompletedFor(t: Task, reason: string) {
    && t.internalState.TerminalCompleted? && t.mcpStatus.Completed? && t.substate.None?
    && t.result == Some(RuntimeResult(reason)) && t.error.None? && t.claimOwner.None?
  }

  /* ---------- publication ---------- */

  /**
   A task is published once. It shows the adapter's first snapshot, bound to its
   execution, with its requests open; if its start window was missed and it is not
   over, it is stopping, and a cancel waits.
   */
  lemma PublishExactly(d: TaskTable, ext: Id, revision: nat, tr: Transition, news: seq<(Id, Json)>, missed: bool)
    requires Coherent(d)
    ensures var d' := PublishAccepted(d, ext, revision, tr, news, missed);
      && (d' != d <==> d.task.None? && PutRequests(map[], news).Some?)
      && (d' != d ==>
            && d'.task.Some? && d'.requests == PutRequests(map[], news).value
            && var t := d'.task.value;
            && t.externalExecutionId == Some(ext) && t.adapterRevision == revision && t.claimOwner.None?
            && t.invocationAttempt == 1
            && (t.started <==> tr.internalState in STARTED_STATES + {InputRequired})
            && (!missed || tr.internalState in {TerminalCompleted, TerminalFailed, TerminalCancelled} ==>
                  Shows(t, tr) && !t.cancelRequested && d'.commands == [])
            && (missed && tr.internalState !in {TerminalCompleted, TerminalFailed, TerminalCancelled} ==>
                  && t.internalState.Stopping? && t.stopReason == Some(StartWindowMissed) && |d'.commands| == 1
                  && WaitsToCancel(d'.commands[0], StartWindowMissed)))
  {
  }

  /** A cancel to be dispatched, for this reason. */
  predicate WaitsToCancel(c: Command, reason: StopReason) {
    c.kind.CancelCommand? && c.state.Pending? && c.stopReason == Some(reason) && c.owner.None?
  }

  lemma PublishScheduledExactly(d: TaskTable)
    requires Coherent(d)
    ensures var d' := PublishScheduled(d);
      && (d' != d <==> d.task.None?)
      && (d' != d ==>
            && d'.task.Some? && d'.task.value.internalState.Scheduled? && d'.task.value.mcpStatus.Working?
            && d'.task.value.externalExecutionId.None? && d'.task.value.claimOwner.None?
            && d'.task.value.adapterRevision == 0 && d'.task.value.invocationAttempt == 0 && !d'.task.value.started)
  {
  }

  /* ---------- scheduled starts ---------- */

  predicate Awaits(d: TaskTable, s: InternalState) {
    d.task.Some? && d.task.value.internalState == s && d.task.value.externalExecutionId.None?
  }

  /** A scheduled task without an execution is claimed for its next attempt. */
  lemma ClaimStartExactly(d: TaskTable, owner: Id)
    ensures var d' := ClaimDueScheduled(d, owner);
      && (d' != d <==>
            Awaits(d, Scheduled) && RuntimeKey("start-attempt", d.task.value.invocationAttempt + 1) !in d.outbox)
      && (d' != d ==>
            && Holds(d', Starting, owner) && SameOutcome(d.task.value, d'.task.value)
            && d'.task.value.invocationAttempt == d.task.value.invocationAttempt + 1)
  {
  }

  /** A start whose claim ran out passes to another owner; it is the same attempt. */
  lemma ReclaimStartExactly(d: TaskTable, owner: Id, previousLease: nat)
    ensures var d' := ReclaimScheduled(d, owner, previousLease);
      && (d' != d <==> Awaits(d, Starting) && RuntimeKey("start-reconcile", previousLease) !in d.outbox)
      && (d' != d ==>
            && Holds(d', Starting, owner) && SameOutcome(d.task.value, d'.task.value)
            && d'.task.value.invocationAttempt == d.task.value.invocationAttempt)
  {
  }

  /**
   Only the owner of the claim binds a start to its execution; then the row shows the
   snapshot, and a start counts as made if the snapshot is of a started execution.
   */
  lemma BindExactly(
      d: TaskTable, owner: Id, ext: Id, revision: nat, tr: Transition, news: seq<(Id, Json)>, missed: bool)
    requires Coherent(d)
    ensures var d' := AcceptScheduled(d, owner, ext, revision, tr, news, missed);
      && (!Holds(d, Starting, owner) || PutRequests(d.requests, news).None? ==> d' == d)
      && (Holds(d, Starting, owner) && PutRequests(d.requests, news).Some?
          && revision > d.task.value.adapterRevision ==>
            && d'.task.Some? && d'.requests == PutRequests(d.requests, news).value
            && var t := d'.task.value;
            && t.externalExecutionId == Some(ext) && t.adapterRevision == revision && t.claimOwner.None?
            && (t.started <==> d.task.value.started || tr.internalState in STARTED_STATES + {InputRequired})
            && (!missed || IsTerminal(tr.internalState) ==> Shows(t, tr) && d'.commands == d.commands))
  {
    if Holds(d, Starting, owner) && PutRequests(d.requests, news).Some? && revision > d.task.value.adapterRevision {
      BoundRow(d, owner, ext, revision, tr);
      BoundStops(Gate(d, Bound(d.task.value, ext, revision, tr), AdapterKey(revision)), missed);
    }
  }

  /** The row just bound, before its window is looked at. */
  lemma BoundRow(d: TaskTable, owner: Id, ext: Id, revision: nat, tr: Transition)
    requires Coherent(d) && Holds(d, Starting, owner) && revision > d.task.value.adapterRevision
    ensures var d' := Gate(d, Bound(d.task.value, ext, revision, tr), AdapterKey(revision));
      && d'.task.Some? && d'.requests == d.requests && d'.commands == d.commands
      && var t := d'.task.value;
      && t.externalExecutionId == Some(ext) && t.adapterRevision == revision && t.claimOwner.None? && Shows(t, tr)
      && (t.started <==> d.task.value.started || tr.internalState in STARTED_STATES + {InputRequired})
  {
    NewerIsNew(d, revision);
  }

  /** What a missed window leaves of a bound row. */
  lemma BoundStops(d: TaskTable, missed: bool)
    requires d.task.Some? && d.task.value.claimOwner.None?
    ensures var d' := if missed then StartWindowStop(d) else d;
      && d'.task.Some? && d'.requests == d.requests
      && d'.task.value.externalExecutionId == d.task.value.externalExecutionId
      && d'.task.value.adapterRevision == d.task.value.adapterRevision && d'.task.value.claimOwner.None?
      && d'.task.value.started == d.task.value.started
      && (!missed || IsTerminal(d.task.value.internalState) ==> d' == d)
  {
  }

  /** A start that can be tried again is given back by its owner. */
  lemma ReleaseExactly(d: TaskTable, owner: Id, message: string)
    ensures var d' := ReleaseScheduleRetry(d, owner, message);
      && (d' != d <==> Holds(d, Starting, owner)
                       && RuntimeKey("start-retry", d.task.value.invocationAttempt) !in d.outbox)
      && (d' != d ==>
            && d'.task.value.internalState.Scheduled? && d'.task.value.claimOwner.None?
            && SameOutcome(d.task.value, d'.task.value) && d'.task.value.statusMessage == Some(message)
            && d'.task.value.invocationAttempt == d.task.value.invocationAttempt)
  {
  }

  /** An uncertain start stays as it is, to be claimed again. */
  lemma UncertainExactly(d: TaskTable, owner: Id, message: string, at: nat)
    ensures var d' := MarkScheduleUncertain(d, owner, message, at);
      && (d' != d <==> Holds(d, Starting, owner) && RuntimeKey("start-uncertain", at) !in d.outbox)
      && (d' != d ==>
            && d'.task.value.internalState.Starting? && d'.task.value.claimOwner.None?
            && SameOutcome(d.task.value, d'.task.value) && d'.task.value.statusMessage == Some(message))
  {
  }

  /** A missed start is completed by the owner of its claim, or at once if it was not claimed. */
  lemma MissedExactly(d: TaskTable, owner: Id)
    ensures var d' := CompleteStartWindowMissed(d, owner);
      && (d' != d <==> Awaits(d, Starting) && d.task.value.claimOwner == Some(owner)
                       && RuntimeKey("start-window-missed", 0) !in d.outbox)
      && (d' != d ==> CompletedFor(d'.task.value, "start_window_missed"))
    ensures var d' := CompleteDueStartWindowMiss(d);
      && (d' != d <==> Awaits(d, Scheduled) && RuntimeKey("start-window-missed", 0) !in d.outbox)
      && (d' != d ==> CompletedFor(d'.task.value, "start_window_missed"))
  {
  }

  /** A start the adapter refuses for good is completed by the owner of its claim. */
  lemma RejectionExactly(d: TaskTable, owner: Id)
    ensures var d' := CompleteScheduledRejection(d, owner);
      && (d' != d <==> Holds(d, Starting, owner)
                       && RuntimeKey("admission-rejected", d.task.value.invocationAttempt) !in d.outbox)
      && (d' != d ==> CompletedFor(d'.task.value, "admission_rejected"))
  {
  }

  /* ---------- confirmation ---------- */

  /** A live bound execution that has not started, and is not to be stopped, is claimed for confirmation. */
  lemma ClaimConfirmationExactly(d: TaskTable, owner: Id)
    ensures var d' := ClaimStartConfirmation(d, owner);
      && (d' != d <==>
            && d.task.Some? && !IsTerminal(d.task.value.internalState) && d.task.value.externalExecutionId.Some?
            && d.task.value.stopReason.None? && !d.task.value.started
            && RuntimeKey("start-confirmation", d.task.value.confirmationAttempts + 1) !in d.outbox)
      && (d' != d ==>
            && Holds(d', WaitingStartConfirmation, owner) && d'.task.value.mcpStatus.Working?
            && d'.task.value.confirmationAttempts == d.task.value.confirmationAttempts + 1
            && d'.task.value.externalExecutionId == d.task.value.externalExecutionId && !d'.task.value.started)
  {
  }

  /** Putting a confirmation off gives its claim back and changes nothing else that is observed. */
  lemma DeferExactly(d: TaskTable, owner: Id, message: string)
    ensures var d' := DeferStartConfirmation(d, owner, message);
      && (d' != d <==> Holds(d, WaitingStartConfirmation, owner))
      && (d' != d ==>
            && d'.task.value.internalState.WaitingStartConfirmation? && d'.task.value.claimOwner.None?
            && SameOutcome(d.task.value, d'.task.value) && d'.task.value.statusMessage == Some(message)
            && d'.task.value.runtimeRevision == d.task.value.runtimeRevision + 1
            && d'.observations == d.observations && d'.outbox == d.outbox && d'.commands == d.commands)
  {
  }

  /** A confirmation that takes effect shows the snapshot and records the start; the claim is over. */
  lemma ConfirmShows(d: TaskTable, owner: Id, revision: nat, tr: Transition)
    ensures var d' := ConfirmStarted(d, owner, revision, tr);
      d' != d ==>
        && Holds(d, WaitingStartConfirmation, owner) && d'.task.Some?
        && Shows(d'.task.value, tr) && d'.task.value.started && d'.task.value.claimOwner.None?
        && d'.task.value.adapterRevision == revision && d'.commands == d.commands
  {
  }

  /* ---------- recovery ---------- */

  /** An attempt to recover a live task is counted; one that finds no execution fails it with the message given. */
  lemma RecoveryExactly(d: TaskTable, message: string)
    requires d.task.Some?
    ensures var d' := NoteRecovery(d);
      && (d' != d <==> !IsTerminal(d.task.value.internalState)
                       && RuntimeKey("recovery", d.task.value.recoveryAttempts + 1) !in d.outbox)
      && (d' != d ==>
            && d'.task.value.internalState == d.task.value.internalState && SameOutcome(d.task.value, d'.task.value)
            && d'.task.value.recoveryAttempts == d.task.value.recoveryAttempts + 1)
    ensures var d' := FailRecoveryNotFound(d, message);
      && (d' != d <==> !IsTerminal(d.task.value.internalState)
                       && RuntimeKey("recovery-failed", d.task.value.recoveryAttempts + 1) !in d.outbox)
      && (d' != d ==> FailedFor(d'.task.value, message)
                      && d'.task.value.recoveryAttempts == d.task.value.recoveryAttempts + 1)
  {
  }

  /** The runtime failed the task, for this reason. */
  predicate FailedFor(t: Task, reason: string) {
    && t.internalState.TerminalFailed? && t.mcpStatus.Failed? && t.substate.None?
    && t.error == Some(RuntimeError(reason)) && t.result.None?
  }
}
