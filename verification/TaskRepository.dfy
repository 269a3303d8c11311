/** The transactions on one task as they update its rows, each against its function on the tables. */
module TaskRepository {
  import opened Basics
  import opened TaskTables

  class Repository {
    var task: Option<Task>
    var commands: seq<Command>
    var observations: seq<Observation>
    var outbox: seq<EventKey>
    var requests: map<Id, InputRequest>
    var responses: map<Id, AcceptedResponse>

    function Contents(): TaskTable
      reads this
    {
      TaskTable(task, commands, observations, outbox, requests, responses)
    }

    constructor ()
      ensures Contents() == NO_TASK
    {
      task, commands, observations, outbox, requests, responses := None, [], [], [], map[], map[];
    }

    /** Undo a failed transaction. */
    method Rollback(d: TaskTable)
      modifies this
      ensures Contents() == d
    {
      task, commands, observations, outbox, requests, responses :=
        d.task, d.commands, d.observations, d.outbox, d.requests, d.responses;
    }

    /** Set a column if the update names it. */
    static method Column<T>(current: T, update: Option<T>) returns (value: T)
      ensures value == Or(update, current)
    {
      value := current;
      if update.Some? {
        value := update.value;
      }
    }

    static method OptionalColumn<T>(current: Option<T>, update: Option<T>) returns (value: Option<T>)
      ensures value == if update.Some? then update else current
    {
      value := current;
      if update.Some? {
        value := update;
      }
    }

    /** The column assignments of one update statement. */
    static method AssignColumns(existing: Task, u: Update) returns (row: Task)
      ensures row == Assign(existing, u)
    {
      var internalState := Column(existing.internalState, u.internalState);
      var mcpStatus := Column(existing.mcpStatus, u.mcpStatus);
      var substate := Column(existing.substate, u.substate);
      var result := Column(existing.result, u.result);
      var error := Column(existing.error, u.error);
      var adapterRevision := Column(existing.adapterRevision, u.adapterRevision);
      var cancelRequested := Column(existing.cancelRequested, u.cancelRequested);
      var stopReason := Column(existing.stopReason, u.stopReason);
      var claimOwner := Column(existing.claimOwner, u.claimOwner);
      var invocationAttempt := Column(existing.invocationAttempt, u.invocationAttempt);
      var confirmationAttempts := Column(existing.confirmationAttempts, u.confirmationAttempts);
      var recoveryAttempts := Column(existing.recoveryAttempts, u.recoveryAttempts);
      var started := Column(existing.started, u.started);
      var statusMessage := OptionalColumn(existing.statusMessage, u.statusMessage);
      var ext := OptionalColumn(existing.externalExecutionId, u.externalExecutionId);
      row := Task(
        internalState, mcpStatus, substate, statusMessage, result, error, adapterRevision,
        existing.observationRevision + 1, existing.runtimeRevision + 1, existing.version + 1,
        ext, cancelRequested, stopReason, claimOwner, invocationAttempt, confirmationAttempts, recoveryAttempts,
        started);
    }

    method TransitionTask(u: Update, key: EventKey) returns (applied: bool)
      requires task.Some?
      modifies this
      ensures Contents() == Gate(old(Contents()), u, key)
      ensures applied <==> Applies(old(Contents()), u, key)
    {
      var existing := task.value;
      if key in outbox {
        return false;
      }
      if IsTerminal(existing.internalState) {
        return false;
      }
      if u.adapterRevision.Some? && u.adapterRevision.value <= existing.adapterRevision {
        return false;
      }
      var row := AssignColumns(existing, u);
      task := Some(row);
      observations := observations + [Observation(row.observationRevision)];
      outbox := outbox + [key];
      return true;
    }

    /** Stops at the first request that clashes with a stored one. */
    method UpsertInputRequests(news: seq<(Id, Json)>) returns (ok: bool)
      modifies this
      ensures ok <==> PutRequests(old(requests), news).Some?
      ensures ok ==> Contents() == old(Contents()).(requests := PutRequests(old(requests), news).value)
      ensures !ok ==> Contents() == old(Contents()).(requests := requests)
    {
      var i := 0;
      while i < |news|
        invariant 0 <= i <= |news|
        invariant PutRequests(old(requests), news[..i]) == Some(requests)
        invariant Contents() == old(Contents()).(requests := requests)
      {
        var (key, definition) := news[i];
        assert news[..i + 1][..i] == news[..i];
        if key in requests && requests[key].definition != definition {
          ClashStays(old(requests), news, i + 1);
          return false;
        }
        if key !in requests {
          requests := requests[key := InputRequest(definition, Open, None)];
        }
        i := i + 1;
      }
      assert news[..i] == news;
      return true;
    }

    method PersistStartWindowStop()
      requires task.Some?
      modifies this
      ensures Contents() == StartWindowStop(old(Contents()))
    {
      if IsTerminal(task.value.internalState) {
        return;
      }
      var existing := FindCancel(commands, |commands|);
      var sequence;
      var reason := StartWindowMissed;
      if existing.None? {
        commands := commands + [CancelFor(StartWindowMissed, 200, "start_window_missed")];
        sequence := |commands|;
      } else {
        sequence := existing.value + 1;
        if commands[existing.value].stopReason == Some(DeadlineReached) {
          reason := DeadlineReached;
        }
        if commands[existing.value].stopReason == Some(UserRequested) {
          commands := commands[existing.value :=
            commands[existing.value].(stopReason := Some(StartWindowMissed), priority := 200)];
        }
      }
      var _ := TransitionTask(
        StopRequested(reason).(statusMessage := Some("Start window missed; safe stop requested."),
                               claimOwner := Some(None)),
        CommandKey(sequence, "start-window-stop"));
    }

    /** The new row, stopped at once if its start window was missed. */
    method InsertTask(row: Task, missed: bool)
      modifies this
      ensures var d := old(Contents()).(task := Some(row), observations := [Observation(1)]);
        Contents() == if missed then StartWindowStop(d) else d
    {
      task := Some(row);
      observations := [Observation(1)];
      if missed {
        PersistStartWindowStop();
      }
    }

    method PublishAcceptedTask(ext: Id, revision: nat, tr: Transition, news: seq<(Id, Json)>, missed: bool)
      modifies this
      ensures Contents() == PublishAccepted(old(Contents()), ext, revision, tr, news, missed)
    {
      var before := Contents();
      if task.Some? {
        return;
      }
      InsertTask(NewTask(tr.internalState, tr.mcpStatus, tr.substate, tr.statusMessage, tr.result, tr.error,
                         revision, Some(ext), 1, PublishedStarted(tr)), missed);
      outbox := outbox + [Created];
      var ok := UpsertInputRequests(news);
      if !ok {
        Rollback(before);
      }
    }

    /** The stop of a missed window needs a bound or a finished row. */
    method StopIfMissed(missed: bool) returns (ok: bool)
      requires task.Some?
      modifies this
      ensures ok <==> !missed || IsTerminal(old(task).value.internalState) || old(task).value.externalExecutionId.Some?
      ensures Contents() == if missed && ok then StartWindowStop(old(Contents())) else old(Contents())
    {
      if missed {
        if !IsTerminal(task.value.internalState) && task.value.externalExecutionId.None? {
          return false;
        }
        PersistStartWindowStop();
      }
      return true;
    }

    method BindExecution(ext: Id, revision: nat, tr: Transition)
      requires task.Some?
      modifies this
      ensures task.Some? && requests == old(requests)
      ensures Contents() == Gate(old(Contents()), Bound(old(task).value, ext, revision, tr), AdapterKey(revision))
    {
      var _ := TransitionTask(
        Moved(tr).(externalExecutionId := Some(ext), adapterRevision := Some(revision), claimOwner := Some(None),
                   started := Some(task.value.started || PublishedStarted(tr))),
        AdapterKey(revision));
    }

    method AcceptScheduledTask(
        owner: Id, ext: Id, revision: nat, tr: Transition, news: seq<(Id, Json)>, missed: bool)
      modifies this
      ensures Contents() == AcceptScheduled(old(Contents()), owner, ext, revision, tr, news, missed)
    {
      var before := Contents();
      if task.None? || !task.value.internalState.Starting? || task.value.claimOwner != Some(owner) {
        return;
      }
      BindExecution(ext, revision, tr);
      var ok := StopIfMissed(missed);
      if ok {
        ok := UpsertInputRequests(news);
      }
      if !ok {
        Rollback(before);
      }
    }

    method ApplyAdapterSnapshot(revision: nat, tr: Transition, news: seq<(Id, Json)>)
      modifies this
      ensures Contents() == ApplySnapshot(old(Contents()), revision, tr, news)
    {
      var before := Contents();
      if task.None? || IsTerminal(task.value.internalState) || revision < task.value.adapterRevision {
        return;
      }
      if revision == task.value.adapterRevision {
        return;
      }
      var u := Moved(MergeStopState(task.value, tr)).(adapterRevision := Some(revision));
      if TransitionHasStarted(tr) && !task.value.started {
        u := u.(started := Some(true));
      }
      var _ := TransitionTask(u, AdapterKey(revision));
      var ok := UpsertInputRequests(news);
      if !ok {
        Rollback(before);
        return;
      }
      if tr.terminal {
        commands := ExhaustAll(commands);
      }
    }

    method ClaimExpired()
      modifies this
      ensures Contents() == ClaimExpiredDeadline(old(Contents()))
    {
      if task.None? || task.value.stopReason == Some(DeadlineReached) || task.value.externalExecutionId.None?
         || IsTerminal(task.value.internalState) {
        return;
      }
      var active := FindCancel(commands, |commands|);
      var sequence;
      if active.None? {
        commands := commands + [CancelFor(DeadlineReached, 100, "deadline_reached")];
        sequence := |commands|;
      } else {
        commands := commands[active.value :=
          commands[active.value].(stopReason := Some(DeadlineReached), priority := 100)];
        sequence := active.value + 1;
      }
      var _ := TransitionTask(
        StopRequested(DeadlineReached).(statusMessage := Some("Deadline reached; safe stop requested.")),
        CommandKey(sequence, "deadline-stop"));
    }

    method BeginCancelCommand(hash: Id) returns (created: bool)
      modifies this
      ensures Contents() == BeginCancel(old(Contents()), hash)
      ensures created ==> |commands| == |old(commands)| + 1
    {
      if task.None? {
        return false;
      }
      if FindCancel(commands, |commands|).Some? {
        return false;
      }
      if IsTerminal(task.value.internalState) {
        return false;
      }
      commands := SupersedeAll(commands);
      commands := commands + [CancelFor(UserRequested, 100, hash)];
      var _ := TransitionTask(
        StopRequested(UserRequested).(statusMessage := Some("Cancellation requested.")),
        CommandKey(|commands|, "requested"));
      return true;
    }

    method BeginControlCommand(kind: CommandType, hash: Id, answers: map<Id, Json>) returns (created: bool)
      requires !kind.CancelCommand?
      modifies this
      ensures Contents() == BeginCommand(old(Contents()), kind, hash, answers)
      ensures created ==> |commands| == |old(commands)| + 1
    {
      if task.None? {
        return false;
      }
      if exists i :: 0 <= i < |commands| && SameRequest(commands[i], kind, hash) {
        return false;
      }
      if IsTerminal(task.value.internalState) {
        return false;
      }
      if Halting(task.value) {
        return false;
      }
      if exists i :: 0 <= i < |commands| && InFlight(commands[i]) {
        return false;
      }
      commands := commands + [Command(kind, Pending, None, 0, 0, 0, hash, None, answers)];
      var _ := TransitionTask(UNCHANGED, CommandKey(|commands|, "requested"));
      return true;
    }

    method RejectCancel(i: nat, owner: Id, revision: nat, tr: Transition)
      modifies this
      ensures Contents() == RejectUserCancel(old(Contents()), i, owner, revision, tr)
    {
      var before := Contents();
      if task.None? {
        return;
      }
      if IsTerminal(task.value.internalState) {
        if i < |commands| {
          commands := commands[i := commands[i].(state := Exhausted, owner := None)];
        }
        return;
      }
      var u := Moved(tr).(cancelRequested := Some(false), stopReason := Some(None));
      if revision > task.value.adapterRevision {
        u := u.(adapterRevision := Some(revision));
      }
      var _ := TransitionTask(u, CommandKey(i + 1, "rejected"));
      if i < |commands| && commands[i].state.Claimed? && commands[i].owner == Some(owner) {
        commands := commands[i := commands[i].(state := RejectedCommand, owner := None)];
      } else {
        Rollback(before);
      }
    }

    /** The loop over the responses of one call; it stops at the first that its request refuses. */
    method InsertResponses(entries: seq<(Id, Json)>, invalid: set<Id>) returns (ok: bool, accepted: map<Id, Json>)
      requires Distinct(entries)
      modifies this
      ensures ok <==> !AnyInvalid(old(Contents()), Given(entries), invalid)
      ensures ok ==> accepted == NewlyAccepted(old(Contents()), Given(entries))
      ensures ok ==> Contents() == old(Contents()).(responses := WithPending(old(responses), accepted))
    {
      ghost var before := Contents();
      accepted := map[];
      var i := 0;
      while i < |entries|
        invariant 0 <= i <= |entries|
        invariant accepted == NewlyAccepted(before, Given(entries[..i]))
        invariant !AnyInvalid(before, Given(entries[..i]), invalid)
        invariant Contents() == before.(responses := WithPending(before.responses, accepted))
      {
        var (key, response) := entries[i];
        GivenStep(entries, i);
        AcceptOne(before, Given(entries[..i]), key, response);
        if key in requests && requests[key].status.Open? {
          if key in invalid {
            InvalidStays(before, entries, i, invalid);
            return false, map[];
          }
          if key !in responses {
            responses := responses[key := AcceptedResponse(response, ResponsePending, None)];
            accepted := accepted[key := response];
          }
        }
        i := i + 1;
      }
      assert entries[..i] == entries;
      return true, accepted;
    }

    method AcceptInputResponses(entries: seq<(Id, Json)>, admitted: bool, invalid: set<Id>)
      returns (accepted: map<Id, Json>)
      requires Distinct(entries)
      modifies this
      ensures Contents() == AcceptResponses(old(Contents()), Given(entries), admitted, invalid)
      ensures accepted == map[] || accepted == NewlyAccepted(old(Contents()), Given(entries))
    {
      if task.None? || !admitted {
        return map[];
      }
      var before := Contents();
      var ok;
      ok, accepted := InsertResponses(entries, invalid);
      if !ok {
        Rollback(before);
        return map[];
      }
      if accepted != map[] {
        var _ := TransitionTask(UNCHANGED, ResponseKey(accepted));
      } else {
        assert responses == before.responses;
      }
    }

    method PromotePending(hash: Id) returns (promoted: bool)
      modifies this
      ensures Contents() == PromoteResponses(old(Contents()), hash)
      ensures promoted <==> |commands| == |old(commands)| + 1
    {
      if task.None? {
        return false;
      }
      var pending := PendingResponses(Contents());
      if pending == map[] {
        return false;
      }
      if Halting(task.value) || IsTerminal(task.value.internalState) {
        responses := SetPending(responses, Ignored, None);
        return false;
      }
      var sequence := |commands| + 1;
      commands := commands + [Command(UpdateCommand, Pending, None, 0, 0, 0, hash, None, pending)];
      responses := SetPending(responses, Assigned, Some(sequence));
      return true;
    }

    method ClaimDue(now: Instant, owner: Id, until: Instant) returns (claimed: Option<nat>)
      modifies this
      ensures Contents() == ClaimDueCommand(old(Contents()), now, owner, until)
      ensures claimed.Some? ==> claimed.value < |commands| && commands[claimed.value].owner == Some(owner)
                                && commands[claimed.value].state.Claimed?
    {
      var before := Contents();
      if task.None? {
        return None;
      }
      commands := SupersedeAllExpired(commands, task.value.cancelRequested, now);
      responses := IgnoreAssigned(responses, NewlyExhausted(before.commands, commands));
      var best := BestDue(Contents(), |commands|, now);
      if best.None? {
        return None;
      }
      if OtherClaimed(commands, best.value) {
        Rollback(before);
        return None;
      }
      commands := commands[best.value :=
        commands[best.value].(state := Claimed, owner := Some(owner), claimUntil := until)];
      return best;
    }
  }

  /* ---------- sequences of entries ---------- */

  ghost predicate Distinct(entries: seq<(Id, Json)>) {
    forall i, j :: 0 <= i < j < |entries| ==> entries[i].0 != entries[j].0
  }

  function Given(entries: seq<(Id, Json)>): map<Id, Json> {
    if entries == [] then map[]
    else Given(entries[..|entries| - 1])[entries[|entries| - 1].0 := entries[|entries| - 1].1]
  }

  lemma {:induction false} GivenKeys(entries: seq<(Id, Json)>, key: Id)
    requires key in Given(entries)
    ensures exists i :: 0 <= i < |entries| && entries[i].0 == key
  {
    if entries != [] && entries[|entries| - 1].0 != key {
      GivenKeys(entries[..|entries| - 1], key);
    }
  }

  lemma GivenStep(entries: seq<(Id, Json)>, i: nat)
    requires i < |entries| && Distinct(entries)
    ensures Given(entries[..i + 1]) == Given(entries[..i])[entries[i].0 := entries[i].1]
    ensures entries[i].0 !in Given(entries[..i])
  {
    assert entries[..i + 1][..i] == entries[..i];
    if entries[i].0 in Given(entries[..i]) {
      GivenKeys(entries[..i], entries[i].0);
    }
  }

  /** An entry is part of the call. */
  lemma {:induction false} GivenHolds(entries: seq<(Id, Json)>, i: nat)
    requires i < |entries|
    ensures entries[i].0 in Given(entries)
  {
    if i < |entries| - 1 {
      GivenHolds(entries[..|entries| - 1], i);
    }
  }

  lemma InvalidStays(d: TaskTable, entries: seq<(Id, Json)>, i: nat, invalid: set<Id>)
    requires i < |entries| && entries[i].0 in invalid
    requires entries[i].0 in d.requests && d.requests[entries[i].0].status.Open?
    ensures AnyInvalid(d, Given(entries), invalid)
  {
    GivenHolds(entries, i);
  }

  /** One more response of a call, for a key the call has not named before. */
  lemma AcceptOne(d: TaskTable, given: map<Id, Json>, key: Id, response: Json)
    requires key !in given
    ensures var (one, two) := (NewlyAccepted(d, given), NewlyAccepted(d, given[key := response]));
      var taken := key in d.requests && d.requests[key].status.Open? && key !in WithPending(d.responses, one);
      && two == (if taken then one[key := response] else one)
      && (taken ==> WithPending(d.responses, two)
                    == WithPending(d.responses, one)[key := AcceptedResponse(response, ResponsePending, None)])
  {
  }

  /** Once a prefix of the requests clashes, so does the whole list. */
  lemma {:induction false} ClashStays(requests: map<Id, InputRequest>, news: seq<(Id, Json)>, n: nat)
    requires n <= |news| && PutRequests(requests, news[..n]).None?
    ensures PutRequests(requests, news).None?
  {
    if n == |news| {
      assert news[..n] == news;
    } else {
      assert news[..|news| - 1][..n] == news[..n];
      ClashStays(requests, news[..|news| - 1], n);
    }
  }
}
