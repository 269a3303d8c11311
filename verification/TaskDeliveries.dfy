/**
 Requests for input, and how the delivery of responses begins and ends: exactly what
 each transaction does to requests, responses and the command that carries them.
 */
module TaskDeliveries {
  import opened Basics
  import opened TaskTables
  import opened TaskLifecycle
  import opened TaskStarts
  import opened TaskStopReasons

  /* ---------- requests ---------- */

  /** No request of the list differs from a stored one, or from another of the list, with its key. */
  ghost predicate Consistent(requests: map<Id, InputRequest>, news: seq<(Id, Json)>) {
    && (forall i :: 0 <= i < |news| && news[i].0 in requests ==> requests[news[i].0].definition == news[i].1)
    && forall i, j :: 0 <= i < j < |news| && news[i].0 == news[j].0 ==> news[i].1 == news[j].1
  }

  ghost predicate Asked(news: seq<(Id, Json)>, key: Id, definition: Json) {
    exists i :: 0 <= i < |news| && news[i] == (key, definition)
  }

  /** Stored requests stay as they are, new ones are open. */
  ghost predicate Merged(requests: map<Id, InputRequest>, news: seq<(Id, Json)>, all: map<Id, InputRequest>) {
    && (forall key :: key in requests ==> key in all && all[key] == requests[key])
    && (forall i :: 0 <= i < |news| ==> news[i].0 in all && all[news[i].0].definition == news[i].1)
    && forall key :: key in all && key !in requests ==>
         all[key] == InputRequest(all[key].definition, Open, None) && Asked(news, key, all[key].definition)
  }

  /** One more request that contradicts none. */
  lemma OneMoreMerges(
      requests: map<Id, InputRequest>, front: seq<(Id, Json)>, all: map<Id, InputRequest>, last: (Id, Json))
    requires Merged(requests, front, all) && (last.0 in all ==> all[last.0].definition == last.1)
    ensures Merged(requests, front + [last], PutRequest(all, last.0, last.1))
  {
    var news, all' := front + [last], PutRequest(all, last.0, last.1);
    assert forall i :: 0 <= i < |front| ==> news[i] == front[i];
    forall key | key in all' && key !in requests
      ensures all'[key] == InputRequest(all'[key].definition, Open, None) && Asked(news, key, all'[key].definition)
    {
      if key in all {
        assert Asked(front, key, all[key].definition);
        var i :| 0 <= i < |front| && front[i] == (key, all[key].definition);
        assert news[i] == (key, all'[key].definition);
      } else {
        assert news[|front|] == (key, all'[key].definition);
      }
    }
  }

  lemma OneMoreConsistent(
      requests: map<Id, InputRequest>, front: seq<(Id, Json)>, all: map<Id, InputRequest>, last: (Id, Json))
    requires Consistent(requests, front) && Merged(requests, front, all)
    requires last.0 in all ==> all[last.0].definition == last.1
    ensures Consistent(requests, front + [last])
  {
    var news := front + [last];
    assert forall i :: 0 <= i < |front| ==> news[i] == front[i];
  }

  lemma {:induction false} RequestsMerge(requests: map<Id, InputRequest>, news: seq<(Id, Json)>)
    ensures PutRequests(requests, news).Some? ==>
      Consistent(requests, news) && Merged(requests, news, PutRequests(requests, news).value)
  {
    if news != [] && PutRequests(requests, news).Some? {
      var front, last := news[..|news| - 1], news[|news| - 1];
      RequestsMerge(requests, front);
      OneMoreMerges(requests, front, PutRequests(requests, front).value, last);
      OneMoreConsistent(requests, front, PutRequests(requests, front).value, last);
      assert news == front + [last];
    }
  }

  lemma {:induction false} ConsistentRequestsMerge(requests: map<Id, InputRequest>, news: seq<(Id, Json)>)
    requires Consistent(requests, news)
    ensures PutRequests(requests, news).Some?
  {
    if news != [] {
      var front, last := news[..|news| - 1], news[|news| - 1];
      assert forall i :: 0 <= i < |front| ==> front[i] == news[i];
      ConsistentRequestsMerge(requests, front);
      RequestsMerge(requests, front);
      var all := PutRequests(requests, front).value;
      if last.0 in all && last.0 !in requests {
        assert Asked(front, last.0, all[last.0].definition);
        var i :| 0 <= i < |front| && front[i] == (last.0, all[last.0].definition);
        assert news[i].0 == news[|news| - 1].0;
      }
    }
  }

  /** Requests are stored exactly if none contradicts another; stored ones stay, whatever their status. */
  lemma RequestsStoredExactly(requests: map<Id, InputRequest>, news: seq<(Id, Json)>)
    ensures PutRequests(requests, news).Some? <==> Consistent(requests, news)
    ensures PutRequests(requests, news).Some? ==> Merged(requests, news, PutRequests(requests, news).value)
  {
    RequestsMerge(requests, news);
    if Consistent(requests, news) {
      ConsistentRequestsMerge(requests, news);
    }
  }

  /* ---------- control commands ---------- */

  /** The task takes control: it is live and no stop is requested or under way. */
  predicate TakesControl(d: TaskTable) {
    && d.task.Some? && !IsTerminal(d.task.value.internalState) && !d.task.value.internalState.Stopping?
    && !d.task.value.cancelRequested && d.task.value.stopReason.None?
  }

  /** No command is waiting or claimed, and none asked for the same before. */
  ghost predicate Idle(d: TaskTable, kind: CommandType, hash: Id) {
    && (forall j :: 0 <= j < |d.commands| ==> d.commands[j].state !in {Pending, Claimed, RetryWait})
    && forall j :: 0 <= j < |d.commands| ==> d.commands[j].kind != kind || d.commands[j].requestHash != hash
  }

  /** A control command is created exactly on a task that takes control and is idle, as it was asked for. */
  lemma BeginCommandExactly(d: TaskTable, kind: CommandType, hash: Id, responses: map<Id, Json>)
    requires Coherent(d)
    ensures var d' := BeginCommand(d, kind, hash, responses);
      && (d' != d <==> !kind.CancelCommand? && TakesControl(d) && Idle(d, kind, hash))
      && (d' != d ==>
            && |d'.commands| == |d.commands| + 1 && d'.commands[..|d.commands|] == d.commands
            && var c := d'.commands[|d.commands|];
            && c.kind == kind && c.requestHash == hash && c.responses == responses && c.state.Pending?
            && c.owner.None? && c.stopReason.None?
            && d'.task.Some? && d'.task.value.internalState == d.task.value.internalState
            && SameOutcome(d.task.value, d'.task.value))
  {
    if d.task.Some? {
      NextCommandIsNew(d, "requested");
    }
    IdleExactly(d, kind, hash);
  }

  lemma IdleExactly(d: TaskTable, kind: CommandType, hash: Id)
    ensures Idle(d, kind, hash) <==>
      && !(exists i :: 0 <= i < |d.commands| && SameRequest(d.commands[i], kind, hash))
      && !(exists i :: 0 <= i < |d.commands| && InFlight(d.commands[i]))
  {
    if Idle(d, kind, hash) {
      forall i | 0 <= i < |d.commands| ensures !SameRequest(d.commands[i], kind, hash) && !InFlight(d.commands[i]) {
        assert d.commands[i].state !in {Pending, Claimed, RetryWait};
        assert d.commands[i].kind != kind || d.commands[i].requestHash != hash;
      }
    } else {
      var j :| 0 <= j < |d.commands| && (d.commands[j].state in {Pending, Claimed, RetryWait}
                                         || (d.commands[j].kind == kind && d.commands[j].requestHash == hash));
      assert SameRequest(d.commands[j], kind, hash) || InFlight(d.commands[j]);
    }
  }

  /** A claim is extended by its owner and by nobody else. */
  lemma RenewClaimExactly(d: TaskTable, i: nat, owner: Id, until: Instant)
    ensures var d' := RenewClaim(d, i, owner, until);
      && (d' != d ==> i < |d.commands| && d.commands[i].state.Claimed? && d.commands[i].owner == Some(owner))
      && (i < |d.commands| && d.commands[i].state.Claimed? && d.commands[i].owner == Some(owner) ==>
            d' == d.(commands := d.commands[i := d.commands[i].(claimUntil := until)]))
  {
  }

  /** Settling neither creates a command nor claims one: it gives one a state, and its owner up. */
  lemma SettleExactly(d: TaskTable, i: nat, state: CommandState, at: Instant)
    ensures var d' := SettleCommand(d, i, state, at);
      && (d' != d ==> i < |d.commands| && state in {RetryWait, Acknowledged, RejectedCommand, Exhausted})
      && (i < |d.commands| && state in {RetryWait, Acknowledged, RejectedCommand, Exhausted} ==>
            && |d'.commands| == |d.commands| && d'.commands[i].state == state && d'.commands[i].owner.None?
            && d'.commands[i].kind == d.commands[i].kind && d'.commands[i].nextAttemptAt == at
            && d'.task == d.task && forall j :: 0 <= j < |d.commands| && j != i ==> d'.commands[j] == d.commands[j])
  {
  }

  /* ---------- how a delivery ends ---------- */

  /** The response was assigned to command `i`. */
  predicate Rides(a: AcceptedResponse, i: nat) {
    a.state.Assigned? && a.command == Some(i + 1)
  }

  /** Exactly the responses of command `i` get this state; nothing else of any response changes. */
  ghost predicate ResponsesEnd(d: TaskTable, d': TaskTable, i: nat, state: ResponseState) {
    && d'.responses.Keys == d.responses.Keys
    && forall key :: key in d.responses ==>
         d'.responses[key] == if Rides(d.responses[key], i) then d.responses[key].(state := state)
                              else d.responses[key]
  }

  /** Exactly the open requests that command `i` answers are withdrawn. */
  ghost predicate RequestsEnd(d: TaskTable, d': TaskTable, i: nat)
    requires i < |d.commands|
  {
    && d'.requests.Keys == d.requests.Keys
    && forall key :: key in d.requests ==>
         d'.requests[key] == if key in d.commands[i].responses && d.requests[key].status.Open?
                             then d.requests[key].(status := SupersededRequest) else d.requests[key]
  }

  ghost predicate CommandEnds(d: TaskTable, d': TaskTable, i: nat, state: CommandState) {
    i < |d.commands| && d'.commands == d.commands[i := d.commands[i].(state := state, owner := None)]
  }

  /** A claimed command is rejected by its owner, and what it carried has failed. */
  lemma RejectCommandExactly(d: TaskTable, i: nat, owner: Id)
    ensures var d' := RejectCommand(d, i, owner);
      && (!ClaimedBy(d, i, owner) ==> d' == d)
      && (ClaimedBy(d, i, owner) ==>
            && CommandEnds(d, d', i, RejectedCommand) && d'.task == d.task && d'.requests == d.requests
            && (d.commands[i].kind.UpdateCommand? ==> ResponsesEnd(d, d', i, ResponseFailed))
            && (!d.commands[i].kind.UpdateCommand? ==> d'.responses == d.responses))
  {
  }

  /** A stop supersedes a control command under way, and what it carried is ignored. */
  lemma SupersedeExactly(d: TaskTable, i: nat)
    ensures var d' := SupersedeCommand(d, i);
      var ends := i < |d.commands| && !d.commands[i].kind.CancelCommand?
                  && d.commands[i].state in {Pending, Claimed, RetryWait};
      && (!ends ==> d' == d)
      && (ends ==>
            && CommandEnds(d, d', i, Exhausted) && d'.task == d.task && d'.requests == d.requests
            && (d.commands[i].kind.UpdateCommand? ==> ResponsesEnd(d, d', i, Ignored))
            && (!d.commands[i].kind.UpdateCommand? ==> d'.responses == d.responses))
  {
  }

  /**
   Responses the adapter refused, or that could not be delivered, fail a live task
   that takes control, with the reason, unless that was recorded before; its requests
   are withdrawn. Of a task that is stopping or over they are ignored.
   */
  lemma FailedDeliveryExactly(d: TaskTable, i: nat, owner: Id, rejected: bool)
    ensures var d' := FailResponses(d, i, owner, rejected);
      var mine := d.task.Some? && ClaimedBy(d, i, owner) && d.commands[i].kind.UpdateCommand?;
      && (!mine ==> d' == d)
      && (mine && TakesControl(d) ==>
            && CommandEnds(d, d', i, if rejected then RejectedCommand else Exhausted)
            && ResponsesEnd(d, d', i, ResponseFailed) && RequestsEnd(d, d', i)
            && (CommandKey(i + 1, if rejected then "input-rejected" else "input-delivery-exhausted") !in d.outbox ==>
                  FailedFor(d'.task.value, if rejected then "INPUT_RESPONSE_REJECTED"
                                           else "INPUT_RESPONSE_DELIVERY_EXHAUSTED")))
      && (mine && !TakesControl(d) ==>
            && CommandEnds(d, d', i, Exhausted) && d'.task == d.task && ResponsesEnd(d, d', i, Ignored)
            && (IsTerminal(d.task.value.internalState) ==> d'.requests == d.requests)
            && (!IsTerminal(d.task.value.internalState) ==> RequestsEnd(d, d', i)))
  {
  }

  /** So are responses the adapter took for a task that is stopping or over. */
  lemma LateDeliveryExactly(d: TaskTable, i: nat, owner: Id)
    requires d.task.Some? && ClaimedBy(d, i, owner) && d.commands[i].kind.UpdateCommand? && !TakesControl(d)
    ensures var d' := AcknowledgeUpdate(d, i, owner);
      CommandEnds(d, d', i, Exhausted) && d'.task == d.task && ResponsesEnd(d, d', i, Ignored) && RequestsEnd(d, d', i)
  {
  }

  /** Pending responses of a task that is stopping or over are ignored, and no command is made. */
  lemma LatePromotionExactly(d: TaskTable, hash: Id)
    requires d.task.Some? && !TakesControl(d)
    ensures var d' := PromoteResponses(d, hash);
      && d'.commands == d.commands && d'.task == d.task && d'.requests == d.requests
      && d'.responses.Keys == d.responses.Keys
      && forall key :: key in d.responses ==>
           d'.responses[key] == if d.responses[key].state.ResponsePending?
                                then AcceptedResponse(d.responses[key].response, Ignored, None)
                                else d.responses[key]
  {
    if PendingResponses(d) == map[] {
      forall key | key in d.responses ensures !d.responses[key].state.ResponsePending? {
        assert key !in PendingResponses(d);
      }
    }
  }

  /**
   When the dispatcher finds a stop requested, it exhausts control commands whose
   claims ran out, and exactly the responses of the update commands among them are
   ignored.
   */
  lemma SweptResponsesExactly(d: TaskTable, now: Instant, owner: Id, until: Instant, key: Id)
    requires d.task.Some? && key in d.responses && ClaimDueCommand(d, now, owner, until) != d
    ensures var d' := ClaimDueCommand(d, now, owner, until);
      && key in d'.responses
      && (d'.responses[key] == d.responses[key] || d'.responses[key] == d.responses[key].(state := Ignored))
      && (forall i :: 0 <= i < |d.commands| && Rides(d.responses[key], i) ==>
            d'.responses[key].state
            == if d.task.value.cancelRequested && d.commands[i].kind.UpdateCommand?
                  && d.commands[i].state.Claimed? && d.commands[i].claimUntil <= now then Ignored
               else d.responses[key].state)
      && (!d.responses[key].state.Assigned? ==> d'.responses[key] == d.responses[key])
  {
    var commands := SupersedeAllExpired(d.commands, d.task.value.cancelRequested, now);
    var gone := NewlyExhausted(d.commands, commands);
    assert forall i :: 0 <= i < |d.commands| ==>
      (i + 1 in gone <==> d.task.value.cancelRequested && d.commands[i].kind.UpdateCommand?
                          && d.commands[i].state.Claimed? && d.commands[i].claimUntil <= now);
    assert ClaimDueCommand(d, now, owner, until).responses == IgnoreAssigned(d.responses, gone);
  }
}
