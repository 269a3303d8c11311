/**
 How a stop begins, for which reason, and how it ends: exactly when each transaction
 takes effect, and what the row and its cancel command are after it.
 */
module TaskStopReasons {
  import opened Basics
  import opened TaskTables
  import opened TaskLifecycle
  import opened TaskStarts

  /** The command is a cancel that was not given up: waiting, claimed, or acknowledged. */
  predicate UnderWay(c: Command) {
    c.kind.CancelCommand? && c.state in {Pending, Claimed, RetryWait, Acknowledged}
  }

  ghost predicate NoCancel(commands: seq<Command>) {
    forall j :: 0 <= j < |commands| ==> !UnderWay(commands[j])
  }

  ghost predicate NewestCancel(commands: seq<Command>, i: nat) {
    i < |commands| && UnderWay(commands[i]) && forall j :: i < j < |commands| ==> !UnderWay(commands[j])
  }

  /** The cancel that a stop reuses is the newest one under way. */
  lemma {:induction false} FoundIsNewest(commands: seq<Command>, n: nat)
    requires n <= |commands|
    ensures FindCancel(commands, n).None? <==> NoCancel(commands[..n])
    ensures FindCancel(commands, n).Some? ==> NewestCancel(commands[..n], FindCancel(commands, n).value)
  {
    if n > 0 {
      FoundIsNewest(commands, n - 1);
      assert commands[..n] == commands[..n - 1] + [commands[n - 1]];
    }
  }

  lemma FoundExactly(commands: seq<Command>, i: nat)
    ensures FindCancel(commands, |commands|).None? <==> NoCancel(commands)
    ensures FindCancel(commands, |commands|) == Some(i) <==> NewestCancel(commands, i)
  {
    assert commands[..|commands|] == commands;
    FoundIsNewest(commands, |commands|);
  }

  /** The row is stopping for this reason. */
  predicate StoppedFor(t: Task, reason: StopReason) {
    t.internalState.Stopping? && t.mcpStatus.Working? && t.cancelRequested && t.stopReason == Some(reason)
  }

  /** A sequence that no command has had yet makes a new key. */
  lemma NextCommandIsNew(d: TaskTable, tag: string)
    requires Coherent(d) && d.task.Some?
    ensures CommandKey(|d.commands| + 1, tag) !in d.outbox
  {
    forall i | 0 <= i < |d.outbox| ensures d.outbox[i] != CommandKey(|d.commands| + 1, tag) {
      assert KeyBounded(d, d.outbox[i]);
    }
  }

  /** One new command at the end, a cancel to be dispatched. */
  ghost predicate AddsCancel(d: TaskTable, d': TaskTable, reason: StopReason, priority: nat) {
    && |d'.commands| == |d.commands| + 1 && d'.commands[..|d.commands|] == d.commands
    && WaitsToCancel(d'.commands[|d.commands|], reason) && d'.commands[|d.commands|].priority == priority
  }

  /** The cancel keeps everything but its reason and priority. */
  ghost predicate Retargets(d: TaskTable, d': TaskTable, i: nat, reason: StopReason, priority: nat) {
    i < |d.commands|
    && d'.commands == d.commands[i := d.commands[i].(stopReason := Some(reason), priority := priority)]
  }

  /* ---------- a missed start window ---------- */

  /**
   A live task without a cancel under way gets one and is stopping. Otherwise the
   newest one is used: a user's becomes one for the start window, any other stays; the
   row, unless this stop was recorded before, is stopping for the deadline if that is
   the cancel's reason, and else for the start window.
   */
  lemma WindowStopExactly(d: TaskTable, i: nat)
    requires Coherent(d) && d.task.Some?
    ensures var d' := StartWindowStop(d);
      && d'.task.Some?
      && (IsTerminal(d.task.value.internalState) ==> d' == d)
      && (!IsTerminal(d.task.value.internalState) && NoCancel(d.commands) ==>
            StoppedFor(d'.task.value, StartWindowMissed) && AddsCancel(d, d', StartWindowMissed, 200)
            && d'.task.value.claimOwner.None?)
      && (!IsTerminal(d.task.value.internalState) && NewestCancel(d.commands, i) ==>
            && (d.commands[i].stopReason == Some(UserRequested) ==> Retargets(d, d', i, StartWindowMissed, 200))
            && (d.commands[i].stopReason != Some(UserRequested) ==> d'.commands == d.commands)
            && (CommandKey(i + 1, "start-window-stop") in d.outbox ==> d'.task == d.task)
            && (CommandKey(i + 1, "start-window-stop") !in d.outbox ==>
                  && d'.task.value.claimOwner.None?
                  && (d.commands[i].stopReason == Some(DeadlineReached) ==> StoppedFor(d'.task.value, DeadlineReached))
                  && (d.commands[i].stopReason != Some(DeadlineReached) ==>
                        StoppedFor(d'.task.value, StartWindowMissed))))
  {
    FoundExactly(d.commands, i);
    NextCommandIsNew(d, "start-window-stop");
  }

  /** The stop needs a bound execution; a confirmation that is not made is stopped by the owner of its claim. */
  lemma WindowStopRequested(d: TaskTable, owner: Id)
    ensures RequestStartWindowStop(d)
         == if d.task.Some? && (IsTerminal(d.task.value.internalState) || d.task.value.externalExecutionId.Some?)
            then StartWindowStop(d) else d
    ensures StopUnconfirmed(d, owner) != d ==>
      Holds(d, WaitingStartConfirmation, owner) && d.task.value.externalExecutionId.Some?
    ensures Holds(d, WaitingStartConfirmation, owner) && d.task.value.externalExecutionId.Some? ==>
      StopUnconfirmed(d, owner) == StartWindowStop(d)
  {
  }

  /* ---------- a reached deadline ---------- */

  /** A deadline matters to a live, bound task that is not being stopped for it. */
  predicate DeadlineMatters(d: TaskTable) {
    && d.task.Some? && !IsTerminal(d.task.value.internalState) && d.task.value.externalExecutionId.Some?
    && d.task.value.stopReason != Some(DeadlineReached)
  }

  /** It becomes the reason of the newest cancel under way, or of a new one, and of the stop. */
  lemma DeadlineExactly(d: TaskTable, i: nat)
    requires Coherent(d)
    ensures var d' := ClaimExpiredDeadline(d);
      && (!DeadlineMatters(d) ==> d' == d)
      && (DeadlineMatters(d) && NoCancel(d.commands) ==>
            StoppedFor(d'.task.value, DeadlineReached) && AddsCancel(d, d', DeadlineReached, 100))
      && (DeadlineMatters(d) && NewestCancel(d.commands, i) ==>
            && Retargets(d, d', i, DeadlineReached, 100)
            && (CommandKey(i + 1, "deadline-stop") !in d.outbox ==> StoppedFor(d'.task.value, DeadlineReached))
            && (CommandKey(i + 1, "deadline-stop") in d.outbox ==> d'.task == d.task))
  {
    FoundExactly(d.commands, i);
    if d.task.Some? {
      NextCommandIsNew(d, "deadline-stop");
    }
  }

  /* ---------- a user's cancel ---------- */

  /** Control commands that wait are exhausted, all others stay. */
  ghost predicate OnlyWaitingExhausted(commands: seq<Command>, commands': seq<Command>) {
    && |commands'| == |commands|
    && forall j :: 0 <= j < |commands| ==>
         commands'[j] == if !commands[j].kind.CancelCommand? && commands[j].state in {Pending, RetryWait}
                         then commands[j].(state := Exhausted, owner := None) else commands[j]
  }

  /** A cancel takes effect exactly on a live task without one under way, and asks for it with the caller's request. */
  lemma CancelExactly(d: TaskTable, hash: Id)
    requires Coherent(d)
    ensures var d' := BeginCancel(d, hash);
      && (d' != d <==> d.task.Some? && !IsTerminal(d.task.value.internalState) && NoCancel(d.commands))
      && (d' != d ==>
            && StoppedFor(d'.task.value, UserRequested) && |d'.commands| == |d.commands| + 1
            && OnlyWaitingExhausted(d.commands, d'.commands[..|d.commands|])
            && WaitsToCancel(d'.commands[|d.commands|], UserRequested)
            && d'.commands[|d.commands|].requestHash == hash && d'.commands[|d.commands|].priority == 100)
  {
    FoundExactly(d.commands, 0);
    var d' := BeginCancel(d, hash);
    if d.task.Some? && !IsTerminal(d.task.value.internalState) && NoCancel(d.commands) {
      CancelKeyIsNew(d, hash);
      assert d'.commands[..|d.commands|] == SupersedeAll(d.commands);
    }
  }

  lemma CancelKeyIsNew(d: TaskTable, hash: Id)
    requires Coherent(d) && d.task.Some?
    ensures CommandKey(|SupersedeAll(d.commands) + [CancelFor(UserRequested, 100, hash)]|, "requested") !in d.outbox
  {
    NextCommandIsNew(d, "requested");
  }

  /** An intent is recorded once on a live task, which is then to be stopped for its user; its state stays. */
  lemma IntentExactly(d: TaskTable)
    ensures var d' := RecordCancelIntent(d);
      && (d' != d <==> d.task.Some? && !IsTerminal(d.task.value.internalState)
                       && RuntimeKey("cancel-intent", 0) !in d.outbox)
      && (d' != d ==>
            && d'.task.value.cancelRequested && d'.task.value.stopReason == Some(UserRequested)
            && d'.task.value.internalState == d.task.value.internalState
            && d'.task.value.mcpStatus == d.task.value.mcpStatus && d'.commands == d.commands)
  {
  }

  /* ---------- how a stop ends ---------- */

  /**
   A rejected cancel of a live task clears the stop and shows the snapshot, with the
   newer of the two revisions, unless it was recorded before; the command is rejected
   in any case. Only the owner of its claim can do this. On a finished task the command
   is exhausted and the row stays.
   */
  lemma RejectCancelExactly(d: TaskTable, i: nat, owner: Id, revision: nat, tr: Transition)
    ensures var d' := RejectUserCancel(d, i, owner, revision, tr);
      && (d.task.None? || (!IsTerminal(d.task.value.internalState) && !ClaimedBy(d, i, owner)) ==> d' == d)
      && (d.task.Some? && IsTerminal(d.task.value.internalState) ==>
            && d'.task == d.task && |d'.commands| == |d.commands|
            && (i < |d.commands| ==> d'.commands[i].state.Exhausted?))
      && (d.task.Some? && !IsTerminal(d.task.value.internalState) && ClaimedBy(d, i, owner) ==>
            && d'.commands == d.commands[i := d.commands[i].(state := RejectedCommand, owner := None)]
            && (CommandKey(i + 1, "rejected") in d.outbox ==> d'.task == d.task)
            && (CommandKey(i + 1, "rejected") !in d.outbox ==>
                  && Shows(d'.task.value, tr) && !d'.task.value.cancelRequested && d'.task.value.stopReason.None?
                  && d'.task.value.adapterRevision == Max(revision, d.task.value.adapterRevision)))
  {
  }

  /** A stop that is never confirmed fails the task, with the message given, once; its command is exhausted. */
  lemma FailSafeStopExactly(d: TaskTable, i: nat, owner: Id, message: string)
    ensures var d' := FailSafeStopUnconfirmed(d, i, owner, message);
      var mine := d.task.Some? && i < |d.commands| && d.commands[i].owner == Some(owner);
      && (!mine ==> d' == d)
      && (mine ==> d'.commands == d.commands[i := d.commands[i].(state := Exhausted, owner := None)])
      && (mine && !IsTerminal(d.task.value.internalState) && CommandKey(i + 1, "safe-stop-failed") !in d.outbox ==>
            FailedFor(d'.task.value, message))
      && (mine && IsTerminal(d.task.value.internalState) ==> d'.task == d.task)
  {
  }

  /**
   A newer snapshot of a task that is being stopped: a terminal one is shown, any other
   leaves what is shown as it is; the revision and a start are recorded either way.
   */
  lemma StoppedSnapshotExactly(d: TaskTable, revision: nat, tr: Transition, news: seq<(Id, Json)>)
    requires Coherent(d) && d.task.Some? && !IsTerminal(d.task.value.internalState) && d.task.value.cancelRequested
    requires revision > d.task.value.adapterRevision && PutRequests(d.requests, news).Some?
    ensures var t := d.task.value;
      var d' := ApplySnapshot(d, revision, tr, news);
      && d'.task.Some? && d'.task.value.adapterRevision == revision
      && d'.task.value.cancelRequested && d'.task.value.stopReason == t.stopReason
      && (d'.task.value.started <==> t.started || tr.internalState in STARTED_STATES)
      && (tr.terminal ==> Shows(d'.task.value, tr))
      && (!tr.terminal ==>
            && d'.task.value.internalState == t.internalState && d'.task.value.mcpStatus == t.mcpStatus
            && d'.task.value.substate == t.substate && d'.task.value.result == t.result
            && d'.task.value.error == t.error)
      && |d'.commands| == |d.commands|
      && forall j :: 0 <= j < |d.commands| ==>
           d'.commands[j] == if tr.terminal && d.commands[j].state in {Pending, Claimed, RetryWait}
                             then d.commands[j].(state := Exhausted, owner := None) else d.commands[j]
  {
    NewerIsNew(d, revision);
  }
}
