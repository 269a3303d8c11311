/** What the reference adapter's answers mean over time: repeated starts, holds, endings and rounds of input. */
module AdapterBehaviour {
  import opened Basics
  import opened ReferenceAdapter

  /* ---------- starting ---------- */

  /**
   A start of a known task is an error exactly if its arguments or reservation differ,
   and is otherwise answered with the execution there is; nothing changes. A new one is
   refused without effect, or stored with what was asked for and counted as an effect.
   */
  lemma StartExactly(a: Adapter, req: StartRequest)
    ensures var (a', reply) := StartOperation(a, req);
      && (req.taskId in a.executions ==>
            var e := a.executions[req.taskId];
            && a' == a
            && (reply == StartError("ALREADY_EXISTS") <==>
                  e.argumentHash != req.argumentHash || e.reservationRef != req.reservationRef)
            && (!reply.StartError? ==> reply == StartAccepted(req.taskId, e.externalExecutionId, e.snapshot)))
      && (req.taskId !in a.executions && Refusal(req).Some? ==> a' == a && reply == Refusal(req).value)
      && (req.taskId !in a.executions && Refusal(req).None? ==>
            && a'.executions.Keys == a.executions.Keys + {req.taskId} && a'.starts == a.starts + [req.taskId]
            && var e := a'.executions[req.taskId];
            && e.operationName == req.operationName && e.argumentHash == req.argumentHash
            && e.reservationRef == req.reservationRef && e.context == req.context && e.commandAcks == map[])
  {
  }

  /** Which starts are refused, with what, and whether trying again may help. */
  lemma RefusedStartsExactly(req: StartRequest)
    ensures var known := req.operationName in {"echo_sync", "durable_task", "flex_task"};
      var fails := req.operationName == "echo_sync" && req.message == "__technical_failure__";
      var retries := req.scenario == "scheduled_retry_always"
                     || (req.scenario == "scheduled_retry_once" && req.invocationAttempt == 1);
      && (Refusal(req) == Some(StartRejected("UNSUPPORTED_R1_SCENARIO", false)) <==> !known)
      && (Refusal(req) == Some(StartError("INTERNAL")) <==> fails)
      && (Refusal(req) == Some(StartRejected("START_CAPACITY_RETRY", true)) <==> known && !fails && retries)
      && (Refusal(req) == Some(StartRejected("START_NOT_PERMITTED", false)) <==>
            known && !fails && req.scenario == "scheduled_permanent_reject")
      && (Refusal(req).None? <==> known && !fails && !retries && req.scenario != "scheduled_permanent_reject")
  {
  }

  const WAITING_SCENARIOS := {"input_required", "multi_round_input", "input_required_frozen"}

  /** The operation is over with its start: a synchronous one, or one told to end inline. */
  predicate IsInline(req: StartRequest) {
    || req.operationName !in {"durable_task", "flex_task"}
    || (req.operationName == "flex_task" && req.scenario in {"terminal", "terminal_invalid_output"})
  }

  /** Such a start is answered with its success, under its own identity. */
  lemma InlineStarts(req: StartRequest)
    requires IsInline(req)
    ensures var (e, reply) := (NewExecution(req), FirstReply(req, NewExecution(req)));
      && e.snapshot == ExecutionSnapshot("SUCCEEDED", 1, "SUCCESS") && e.terminalSnapshot == e.snapshot
      && !e.waitingForInput && !e.holdSnapshot
      && reply == StartAccepted(req.taskId, e.externalExecutionId, e.snapshot)
  {
  }

  /** Executions of different tasks have different ids. */
  lemma ExecutionIdsDistinct(a: StartRequest, b: StartRequest)
    requires NewExecution(a).externalExecutionId == NewExecution(b).externalExecutionId
    ensures a.taskId == b.taskId
  {
    var id, id' := NewExecution(a).externalExecutionId, NewExecution(b).externalExecutionId;
    assert id[0] == id'[0];
    if id[0] == 't' {
      assert a.taskId == id[|"task-"|..] && b.taskId == id'[|"task-"|..];
    } else if id[0] == 's' {
      assert a.taskId == id[|"sync-"|..] && b.taskId == id'[|"sync-"|..];
    } else {
      assert a.taskId == id[|"inline-"|..] && b.taskId == id'[|"inline-"|..];
    }
  }

  /** What a new task reports, by its scenario. */
  lemma FirstSnapshots(req: StartRequest)
    requires !IsInline(req)
    ensures var e := NewExecution(req);
      && (e.snapshot.state == "QUEUED" <==> req.scenario == "queued_start")
      && (e.snapshot.state == "WAITING_INPUT" <==> req.scenario in WAITING_SCENARIOS)
      && (e.waitingForInput <==> req.scenario in WAITING_SCENARIOS)
      && (e.snapshot.state == "PARTIALLY_COMPLETED" <==> req.scenario in {"partial_valid", "partial_invalid"})
      && (e.snapshot.state == "BUSINESS_FAILED" <==> req.scenario == "business_failure")
      && (e.snapshot.state == "TECHNICAL_FAILED" <==> req.scenario == "technical_failure")
      && e.snapshot.revision == 1 && e.terminalSnapshot == ExecutionSnapshot("SUCCEEDED", 2, "SUCCESS")
      && (e.holdSnapshot <==> req.scenario == "queued_start") && e.holdReads == 0
  {
  }

  /** The reply to a start that took effect: lost, with a wrong identity where told so, or the execution. */
  lemma FirstReplies(req: StartRequest)
    requires !IsInline(req)
    ensures var (e, reply) := (NewExecution(req), FirstReply(req, NewExecution(req)));
      && (reply.StartError? <==> req.scenario == "response_loss")
      && (reply.StartAccepted? ==>
            && reply.snapshot == e.snapshot
            && (reply.taskId == req.taskId <==> req.scenario != "start_task_identity_mismatch")
            && (reply.externalExecutionId == e.externalExecutionId <==>
                  req.scenario != "start_external_identity_mismatch"))
      && !reply.StartRejected?
  {
    LongerDiffers("wrong-", req.taskId);
    LongerDiffers("wrong-", NewExecution(req).externalExecutionId);
  }

  lemma LongerDiffers(prefix: string, text: string)
    requires prefix != ""
    ensures prefix + text != text
  {
    assert |prefix + text| > |text|;
  }

  /* ---------- reading ---------- */

  /** The store after reading the task `n` times. */
  function Reads(a: Adapter, taskId: Id, n: nat): Adapter {
    if n == 0 then a else GetExecution(Reads(a, taskId, n - 1), taskId).0
  }

  /** What the next read shows. */
  ghost predicate NextRead(a: Adapter, taskId: Id, snapshot: ExecutionSnapshot) {
    GetExecution(a, taskId).1.Some? && GetExecution(a, taskId).1.value.1 == snapshot
  }

  predicate Readable(a: Adapter, taskId: Id) {
    taskId in a.executions && a.executions[taskId].scenario != "get_transient_failure"
  }

  /** Reading shows the execution's own id, unless told otherwise, and touches no other execution. */
  lemma ReadExactly(a: Adapter, taskId: Id)
    ensures var (a', reply) := GetExecution(a, taskId);
      && (reply.None? <==> !Readable(a, taskId))
      && (reply.None? ==> a' == a)
      && a'.starts == a.starts && a'.controls == a.controls && a'.executions.Keys == a.executions.Keys
      && (reply.Some? ==>
            && a'.executions == a.executions[taskId := a'.executions[taskId]]
            && reply.value.1 == a'.executions[taskId].snapshot
            && (reply.value.0 == a.executions[taskId].externalExecutionId <==>
                  a.executions[taskId].scenario != "get_external_identity_mismatch"))
  {
    if taskId in a.executions {
      LongerDiffers("wrong-", a.executions[taskId].externalExecutionId);
    }
  }

  /** A held execution, or one that is settled, keeps what it shows however often it is read. */
  lemma {:induction false} HeldReads(a: Adapter, taskId: Id, n: nat)
    requires Readable(a, taskId)
    requires var e := a.executions[taskId];
      e.holdSnapshot || e.waitingForInput || e.terminalSnapshot == e.snapshot
    ensures Readable(Reads(a, taskId, n), taskId)
    ensures var (e, e') := (a.executions[taskId], Reads(a, taskId, n).executions[taskId]);
      && e'.snapshot == e.snapshot && e'.terminalSnapshot == e.terminalSnapshot && e'.holdSnapshot == e.holdSnapshot
      && e'.waitingForInput == e.waitingForInput
    ensures NextRead(Reads(a, taskId, n), taskId, a.executions[taskId].snapshot)
  {
    if n > 0 {
      HeldReads(a, taskId, n - 1);
    }
  }

  /** An execution that is neither held nor waiting ends with the first read after the held ones. */
  lemma {:induction false} FreeReads(a: Adapter, taskId: Id, n: nat)
    requires Readable(a, taskId) && !a.executions[taskId].holdSnapshot && !a.executions[taskId].waitingForInput
    ensures Readable(Reads(a, taskId, n), taskId)
    ensures var (e, e') := (a.executions[taskId], Reads(a, taskId, n).executions[taskId]);
      && e'.terminalSnapshot == e.terminalSnapshot && !e'.holdSnapshot && !e'.waitingForInput
      && e'.holdReads == (if n <= e.holdReads then e.holdReads - n else 0)
      && e'.snapshot == if n <= e.holdReads then e.snapshot else e.terminalSnapshot
  {
    if n > 0 {
      FreeReads(a, taskId, n - 1);
    }
  }

  /* ---------- control ---------- */

  /** A cancel that takes effect is final: every later read shows the cancellation, or the natural end where told so. */
  lemma CancelEnds(a: Adapter, taskId: Id, sequence: nat, n: nat)
    requires Readable(a, taskId) && RequestCancel(a, taskId, sequence).0.controls != a.controls
    ensures var a' := Reads(RequestCancel(a, taskId, sequence).0, taskId, n);
      var e := a.executions[taskId];
      NextRead(a', taskId, if e.scenario == "natural_completion" then e.terminalSnapshot
                           else ExecutionSnapshot("CANCELLED", e.snapshot.revision + 1, "SAFE_STOP_CONFIRMED"))
  {
    HeldReads(RequestCancel(a, taskId, sequence).0, taskId, n);
  }

  /** Which cancels have no effect, and what they are answered with; an effect is always acknowledged as accepted. */
  lemma CancelExactly(a: Adapter, taskId: Id, sequence: nat)
    requires taskId in a.executions && AckKey(CancelControl, sequence) !in a.executions[taskId].commandAcks
    ensures var (e, r) := (a.executions[taskId], RequestCancel(a, taskId, sequence));
      var first := e.cancelAttempts == 0;
      && (r.0.controls == a.controls <==>
            || e.scenario in {"cancel_permanent_reject", "cancel_transport_failure"}
            || (e.scenario == "cancel_retryable_reject" && first))
      && (e.scenario == "cancel_permanent_reject" ==> r.1 == Acked(Ack(false, "CANCEL_NOT_PERMITTED", sequence)))
      && (e.scenario == "cancel_retryable_reject" && first ==>
            r.1 == Acked(Ack(false, "TRANSIENT_UNAVAILABLE", sequence)))
      && (r.1 == ControlLost <==> e.scenario in {"cancel_transport_failure", "cancel_response_loss"})
      && (r.0.controls != a.controls && r.1.Acked? ==>
            && r.1.ack.accepted
            && (r.1.ack.sequence == sequence <==> e.scenario != "command_sequence_mismatch"))
  {
  }

  /** A pause holds: every read shows the pause, however often. */
  lemma PauseHolds(a: Adapter, taskId: Id, sequence: nat, n: nat)
    requires Readable(a, taskId) && PauseOrResume(a, taskId, sequence, true).0.controls != a.controls
    ensures var a' := Reads(PauseOrResume(a, taskId, sequence, true).0, taskId, n);
      NextRead(a', taskId,
               ExecutionSnapshot("PAUSED", a.executions[taskId].snapshot.revision + 1, "PAUSED_BY_CLIENT"))
  {
    HeldReads(PauseOrResume(a, taskId, sequence, true).0, taskId, n);
  }

  /** A resumed execution shows so once, and has ended with the read after that, at the next revision. */
  lemma ResumeReleases(a: Adapter, taskId: Id, sequence: nat, n: nat)
    requires Readable(a, taskId) && !a.executions[taskId].waitingForInput
    requires PauseOrResume(a, taskId, sequence, false).0.controls != a.controls
    ensures var (e, a') := (a.executions[taskId], Reads(PauseOrResume(a, taskId, sequence, false).0, taskId, n));
      && (n == 0 ==>
            NextRead(a', taskId, ExecutionSnapshot("RESUMING", e.snapshot.revision + 1, "RESUMED_BY_CLIENT")))
      && (n > 0 ==> NextRead(a', taskId, e.terminalSnapshot.(revision := e.snapshot.revision + 2)))
  {
    FreeReads(PauseOrResume(a, taskId, sequence, false).0, taskId, n);
  }

  /** The input is the one the round asks for, in one of the two forms. */
  ghost predicate Answers(inputs: Inputs, key: Id) {
    || (inputs.responses == [] && inputs.legacy != [] && forall k :: k in inputs.legacy ==> k == key)
    || (inputs.legacy == [] && inputs.responses != [] && forall r :: r in inputs.responses ==> r == (key, true))
  }

  /**
   Input is accepted exactly by an execution that waits for it, in the round's own key.
   The first of two rounds is followed by the second; after the last the execution runs,
   and ends with the next read.
   */
  lemma InputExactly(a: Adapter, taskId: Id, sequence: nat, inputs: Inputs)
    requires taskId in a.executions && AckKey(UpdateControl, sequence) !in a.executions[taskId].commandAcks
    ensures var (e, r) := (a.executions[taskId], UpdateExecution(a, taskId, sequence, inputs));
      var accepted := e.waitingForInput && Answers(inputs, if e.inputRound == 2 then "comment" else "approval");
      && r.1 == Acked(Ack(accepted, if accepted then "INPUT_ACCEPTED" else "INPUT_REJECTED", sequence))
      && (r.0.controls != a.controls <==> accepted)
      && (!accepted ==>
            r.0.executions[taskId].snapshot == e.snapshot && r.0.executions[taskId].inputRound == e.inputRound)
      && (accepted && e.scenario == "multi_round_input" && e.inputRound != 2 ==>
            r.0.executions[taskId].waitingForInput && r.0.executions[taskId].inputRound == 2
            && r.0.executions[taskId].snapshot.reasonCode == "COMMENT_REQUIRED")
      && (accepted && (e.scenario != "multi_round_input" || e.inputRound == 2) ==>
            !r.0.executions[taskId].waitingForInput && r.0.executions[taskId].snapshot.state == "RUNNING")
  {
    ExpectedExactly(inputs, if a.executions[taskId].inputRound == 2 then "comment" else "approval");
  }

  lemma ExpectedExactly(inputs: Inputs, key: Id)
    ensures Expected(inputs, key) <==> Answers(inputs, key)
  {
    if Answers(inputs, key) {
      forall i | 0 <= i < |inputs.responses| ensures inputs.responses[i] == (key, true) || inputs.legacy != [] {
        assert inputs.responses[i] in inputs.responses;
      }
      forall i | 0 <= i < |inputs.legacy| ensures inputs.legacy[i] == key || inputs.responses != [] {
        assert inputs.legacy[i] in inputs.legacy;
      }
    }
  }

  /* ---------- reconciling ---------- */

  /** A known task is confirmed exactly for its own operation, arguments, context and execution id. */
  lemma ReconcileExactly(a: Adapter, taskId: Id, operation: string, hash: Id, context: Id, ext: Option<Id>)
    ensures var r := Reconcile(a, taskId, operation, hash, context, ext);
      && (r.NotFound? <==> taskId !in a.executions)
      && (taskId in a.executions ==>
            var e := a.executions[taskId];
            var same := e.argumentHash == hash && e.operationName == operation && e.context == context
                        && (ext.Some? ==> ext.value == e.externalExecutionId);
            && (r.Transient? <==> e.scenario == "get_transient_failure")
            && (r.Conflict? <==> e.scenario != "get_transient_failure" && !same)
            && (r.Found? ==>
                  && r.externalExecutionId == e.externalExecutionId && r.snapshot == e.snapshot
                  && (r.genuine <==> e.scenario != "reconcile_identity_mismatch")))
  {
  }
}
