/**
 The adapter's side of the protocol: starts are deduplicated by task id, control
 commands by their type and sequence.
 */
module ReferenceAdapter {
  import opened Basics

  datatype ControlKind = CancelControl | UpdateControl | PauseControl | ResumeControl

  datatype AckKey = AckKey(kind: ControlKind, sequence: nat)

  datatype Ack = Ack(accepted: bool, reasonCode: string, sequence: nat)

  datatype ExecutionSnapshot = ExecutionSnapshot(state: string, revision: nat, reasonCode: string)

  datatype Execution = Execution(
    externalExecutionId: Id,
    operationName: string,
    argumentHash: Id,
    reservationRef: Option<Id>,
    context: Id,
    snapshot: ExecutionSnapshot,
    terminalSnapshot: ExecutionSnapshot,
    commandAcks: map<AckKey, Ack>,
    waitingForInput: bool,
    inputRound: nat,
    scenario: string,
    cancelAttempts: nat,
    holdSnapshot: bool,
    holdReads: nat)

  /** A control side effect, with the command that caused it. */
  datatype ControlEffect = ControlEffect(taskId: Id, key: AckKey)

  /** The store, and the side effects so far. */
  datatype Adapter = Adapter(executions: map<Id, Execution>, starts: seq<Id>, controls: seq<ControlEffect>)

  const NO_EXECUTIONS := Adapter(map[], [], [])

  /* ---------- starting ---------- */

  datatype StartRequest = StartRequest(
    taskId: Id,
    operationName: string,
    argumentHash: Id,
    reservationRef: Option<Id>,
    context: Id,
    scenario: string,
    message: string,
    invocationAttempt: nat)

  datatype StartReply =
    | StartAccepted(taskId: Id, externalExecutionId: Id, snapshot: ExecutionSnapshot)
    | StartRejected(reasonCode: string, retryable: bool)
    | StartError(code: string)

  predicate IsTaskOperation(name: string) {
    name == "durable_task" || name == "flex_task"
  }

  predicate EndsInline(req: StartRequest) {
    req.operationName == "flex_task" && (req.scenario == "terminal" || req.scenario == "terminal_invalid_output")
  }

  predicate AsksInput(scenario: string) {
    scenario == "input_required" || scenario == "multi_round_input" || scenario == "input_required_frozen"
  }

  function InitialSnapshot(scenario: string): ExecutionSnapshot {
    if scenario == "queued_start" then ExecutionSnapshot("QUEUED", 1, "QUEUED")
    else if AsksInput(scenario) then ExecutionSnapshot("WAITING_INPUT", 1, "APPROVAL_REQUIRED")
    else if scenario == "partial_valid" || scenario == "partial_invalid"
    then ExecutionSnapshot("PARTIALLY_COMPLETED", 1, "PARTIAL_RESULT")
    else if scenario == "business_failure" then ExecutionSnapshot("BUSINESS_FAILED", 1, "BUSINESS_RULE_REJECTED")
    else if scenario == "technical_failure" then ExecutionSnapshot("TECHNICAL_FAILED", 1, "ADAPTER_EXECUTION_FAILED")
    else ExecutionSnapshot("RUNNING", 1, "STARTED")
  }

  function NewExecution(req: StartRequest): Execution {
    var done := ExecutionSnapshot("SUCCEEDED", 1, "SUCCESS");
    if EndsInline(req) then
      Execution("inline-" + req.taskId, req.operationName, req.argumentHash, req.reservationRef, req.context,
                done, done, map[], false, 0, "", 0, false, 0)
    else if IsTaskOperation(req.operationName) then
      Execution("task-" + req.taskId, req.operationName, req.argumentHash, req.reservationRef, req.context,
                InitialSnapshot(req.scenario), ExecutionSnapshot("SUCCEEDED", 2, "SUCCESS"), map[],
                AsksInput(req.scenario), if req.scenario == "multi_round_input" then 1 else 0, req.scenario, 0,
                req.scenario == "queued_start", 0)
    else
      Execution("sync-" + req.taskId, req.operationName, req.argumentHash, req.reservationRef, req.context,
                done, done, map[], false, 0, "", 0, false, 0)
  }

  /** What the adapter refuses before any side effect. */
  function Refusal(req: StartRequest): Option<StartReply> {
    if req.operationName != "echo_sync" && !IsTaskOperation(req.operationName)
    then Some(StartRejected("UNSUPPORTED_R1_SCENARIO", false))
    else if req.operationName == "echo_sync" && req.message == "__technical_failure__" then Some(StartError("INTERNAL"))
    else if (req.scenario == "scheduled_retry_once" && req.invocationAttempt == 1)
            || req.scenario == "scheduled_retry_always"
    then Some(StartRejected("START_CAPACITY_RETRY", true))
    else if req.scenario == "scheduled_permanent_reject" then Some(StartRejected("START_NOT_PERMITTED", false))
    else None
  }

  function FirstReply(req: StartRequest, e: Execution): StartReply {
    if EndsInline(req) || !IsTaskOperation(req.operationName)
    then StartAccepted(req.taskId, e.externalExecutionId, e.snapshot)
    else if req.scenario == "response_loss" then StartError("UNAVAILABLE")
    else
      StartAccepted(if req.scenario == "start_task_identity_mismatch" then "wrong-" + req.taskId else req.taskId,
                    if req.scenario == "start_external_identity_mismatch" then "wrong-" + e.externalExecutionId
                    else e.externalExecutionId,
                    e.snapshot)
  }

  function StartOperation(a: Adapter, req: StartRequest): (Adapter, StartReply) {
    if req.taskId in a.executions then
      var e := a.executions[req.taskId];
      if e.argumentHash != req.argumentHash || e.reservationRef != req.reservationRef
      then (a, StartError("ALREADY_EXISTS"))
      else (a, StartAccepted(req.taskId, e.externalExecutionId, e.snapshot))
    else if Refusal(req).Some? then (a, Refusal(req).value)
    else
      var e := NewExecution(req);
      (a.(executions := a.executions[req.taskId := e], starts := a.starts + [req.taskId]), FirstReply(req, e))
  }

  /** The execution id a read answers with. */
  function ShownId(e: Execution): Id {
    if e.scenario == "get_external_identity_mismatch" then "wrong-" + e.externalExecutionId else e.externalExecutionId
  }

  /** Reading an execution lets it finish, unless it is held. */
  function GetExecution(a: Adapter, taskId: Id): (Adapter, Option<(Id, ExecutionSnapshot)>) {
    if taskId !in a.executions || a.executions[taskId].scenario == "get_transient_failure" then (a, None)
    else
      var e := a.executions[taskId];
      var e' := if e.holdReads > 0 then e.(holdReads := e.holdReads - 1)
                else if !e.waitingForInput && !e.holdSnapshot then e.(snapshot := e.terminalSnapshot)
                else e;
      (a.(executions := a.executions[taskId := e']), Some((ShownId(e'), e'.snapshot)))
  }

  /** `genuine`: the snapshot carries the identity it was asked for. */
  datatype ReconcileReply =
    | Found(externalExecutionId: Id, snapshot: ExecutionSnapshot, genuine: bool)
    | NotFound
    | Conflict
    | Transient

  /** Reconciliation only reads. */
  function Reconcile(
      a: Adapter, taskId: Id, operationName: string, hash: Id, context: Id, ext: Option<Id>): ReconcileReply
  {
    if taskId !in a.executions then NotFound
    else
      var e := a.executions[taskId];
      if e.scenario == "get_transient_failure" then Transient
      else if e.argumentHash != hash || e.operationName != operationName || e.context != context
              || (ext.Some? && ext.value != e.externalExecutionId) then Conflict
      else Found(e.externalExecutionId, e.snapshot, e.scenario != "reconcile_identity_mismatch")
  }

  /* ---------- control ---------- */

  datatype ControlReply = Acked(ack: Ack) | ControlLost

  function Stored(a: Adapter, taskId: Id, e: Execution): Adapter {
    a.(executions := a.executions[taskId := e])
  }

  function Effect(a: Adapter, taskId: Id, key: AckKey, e: Execution, ack: Ack): Adapter {
    Stored(a, taskId, e.(commandAcks := e.commandAcks[key := ack]))
      .(controls := a.controls + [ControlEffect(taskId, key)])
  }

  const NOT_FOUND := "EXECUTION_NOT_FOUND"

  /** A cancel that is answered without effect, and without being remembered. */
  function CancelRefusal(e: Execution, sequence: nat): Option<ControlReply> {
    if e.scenario == "cancel_permanent_reject" then Some(Acked(Ack(false, "CANCEL_NOT_PERMITTED", sequence)))
    else if e.scenario == "cancel_retryable_reject" && e.cancelAttempts == 1
    then Some(Acked(Ack(false, "TRANSIENT_UNAVAILABLE", sequence)))
    else if e.scenario == "cancel_transport_failure" then Some(ControlLost)
    else None
  }

  function AfterCancel(e: Execution): Execution {
    var snapshot := if e.scenario == "natural_completion" then e.terminalSnapshot
                    else ExecutionSnapshot("CANCELLED", e.snapshot.revision + 1, "SAFE_STOP_CONFIRMED");
    e.(snapshot := snapshot, terminalSnapshot := snapshot)
  }

  function CancelAck(e: Execution, sequence: nat): Ack {
    Ack(true, "STOP_ACCEPTED", if e.scenario == "command_sequence_mismatch" then sequence + 1 else sequence)
  }

  function RequestCancel(a: Adapter, taskId: Id, sequence: nat): (Adapter, ControlReply) {
    var key := AckKey(CancelControl, sequence);
    if taskId !in a.executions then (a, Acked(Ack(false, NOT_FOUND, sequence)))
    else if key in a.executions[taskId].commandAcks then (a, Acked(a.executions[taskId].commandAcks[key]))
    else
      var e := a.executions[taskId].(cancelAttempts := a.executions[taskId].cancelAttempts + 1);
      var refusal := CancelRefusal(e, sequence);
      if refusal.Some? then (Stored(a, taskId, e), refusal.value)
      else
        var ack := CancelAck(e, sequence);
        (Effect(a, taskId, key, AfterCancel(e), ack),
         if e.scenario == "cancel_response_loss" then ControlLost else Acked(ack))
  }

  /** `inputs` are the keys of the inputs given; `legacy` tells in which of the two forms they came. */
  datatype Inputs = Inputs(legacy: seq<Id>, responses: seq<(Id, bool)>)

  predicate Expected(inputs: Inputs, key: Id) {
    || (|inputs.legacy| > 0 && inputs.responses == []
        && forall i :: 0 <= i < |inputs.legacy| ==> inputs.legacy[i] == key)
    || (|inputs.responses| > 0 && inputs.legacy == []
        && forall i :: 0 <= i < |inputs.responses| ==> inputs.responses[i].0 == key && inputs.responses[i].1)
  }

  function AfterInput(e: Execution): Execution {
    if e.scenario == "multi_round_input" && e.inputRound != 2 then
      e.(inputRound := 2, snapshot := ExecutionSnapshot("WAITING_INPUT", 2, "COMMENT_REQUIRED"))
    else
      e.(waitingForInput := false,
         snapshot := ExecutionSnapshot("RUNNING", if e.inputRound == 2 then 3 else 2, "INPUT_ACCEPTED"),
         terminalSnapshot := e.terminalSnapshot.(revision := if e.inputRound == 2 then 4 else 3))
  }

  /** A refused update is remembered too, without a side effect. */
  function UpdateExecution(a: Adapter, taskId: Id, sequence: nat, inputs: Inputs): (Adapter, ControlReply) {
    var key := AckKey(UpdateControl, sequence);
    var refused := Ack(false, "INPUT_REJECTED", sequence);
    if taskId !in a.executions then (a, Acked(refused))
    else
      var e := a.executions[taskId];
      if key in e.commandAcks then (a, Acked(e.commandAcks[key]))
      else if e.waitingForInput && Expected(inputs, if e.inputRound == 2 then "comment" else "approval") then
        var ack := Ack(true, "INPUT_ACCEPTED", sequence);
        (Effect(a, taskId, key, AfterInput(e), ack), Acked(ack))
      else (Stored(a, taskId, e.(commandAcks := e.commandAcks[key := refused])), Acked(refused))
  }

  function AfterPauseOrResume(e: Execution, pause: bool): Execution {
    var snapshot := ExecutionSnapshot(if pause then "PAUSED" else "RESUMING", e.snapshot.revision + 1,
                                      if pause then "PAUSED_BY_CLIENT" else "RESUMED_BY_CLIENT");
    var e' := e.(snapshot := snapshot, holdSnapshot := pause);
    if pause then e'
    else e'.(holdReads := 1, terminalSnapshot := e.terminalSnapshot.(revision := snapshot.revision + 1))
  }

  function PauseOrResume(a: Adapter, taskId: Id, sequence: nat, pause: bool): (Adapter, ControlReply) {
    var key := AckKey(if pause then PauseControl else ResumeControl, sequence);
    if taskId !in a.executions then (a, Acked(Ack(false, NOT_FOUND, sequence)))
    else
      var e := a.executions[taskId];
      if key in e.commandAcks then (a, Acked(e.commandAcks[key]))
      else
        var ack := Ack(true, if pause then "PAUSE_ACCEPTED" else "RESUME_ACCEPTED", sequence);
        (Effect(a, taskId, key, AfterPauseOrResume(e, pause), ack), Acked(ack))
  }

  /* ---------- the handlers as they update the store ---------- */

  class Server {
    var executions: map<Id, Execution>
    var starts: seq<Id>
    var controls: seq<ControlEffect>

    function Contents(): Adapter
      reads this
    {
      Adapter(executions, starts, controls)
    }

    constructor ()
      ensures Contents() == NO_EXECUTIONS
    {
      executions, starts, controls := map[], [], [];
    }

    method HandleStart(req: StartRequest) returns (reply: StartReply)
      modifies this
      ensures (Contents(), reply) == StartOperation(old(Contents()), req)
    {
      if req.taskId in executions {
        var existing := executions[req.taskId];
        if existing.argumentHash != req.argumentHash || existing.reservationRef != req.reservationRef {
          return StartError("ALREADY_EXISTS");
        }
        return StartAccepted(req.taskId, existing.externalExecutionId, existing.snapshot);
      }
      if req.operationName != "echo_sync" && !IsTaskOperation(req.operationName) {
        return StartRejected("UNSUPPORTED_R1_SCENARIO", false);
      }
      if req.operationName == "echo_sync" && req.message == "__technical_failure__" {
        return StartError("INTERNAL");
      }
      if (req.scenario == "scheduled_retry_once" && req.invocationAttempt == 1)
         || req.scenario == "scheduled_retry_always" {
        return StartRejected("START_CAPACITY_RETRY", true);
      }
      if req.scenario == "scheduled_permanent_reject" {
        return StartRejected("START_NOT_PERMITTED", false);
      }
      starts := starts + [req.taskId];
      var execution := NewExecution(req);
      executions := executions[req.taskId := execution];
      return FirstReply(req, execution);
    }

    method HandleGet(taskId: Id) returns (reply: Option<(Id, ExecutionSnapshot)>)
      modifies this
      ensures (Contents(), reply) == GetExecution(old(Contents()), taskId)
    {
      if taskId !in executions || executions[taskId].scenario == "get_transient_failure" {
        return None;
      }
      var execution := executions[taskId];
      if execution.holdReads > 0 {
        execution := execution.(holdReads := execution.holdReads - 1);
      } else if !execution.waitingForInput && !execution.holdSnapshot {
        execution := execution.(snapshot := execution.terminalSnapshot);
      }
      executions := executions[taskId := execution];
      var shown := execution.externalExecutionId;
      if execution.scenario == "get_external_identity_mismatch" {
        shown := "wrong-" + shown;
      }
      return Some((shown, execution.snapshot));
    }

    method HandleCancel(taskId: Id, sequence: nat) returns (reply: ControlReply)
      modifies this
      ensures (Contents(), reply) == RequestCancel(old(Contents()), taskId, sequence)
    {
      if taskId !in executions {
        return Acked(Ack(false, NOT_FOUND, sequence));
      }
      var execution := executions[taskId];
      var key := AckKey(CancelControl, sequence);
      if key in execution.commandAcks {
        return Acked(execution.commandAcks[key]);
      }
      execution := execution.(cancelAttempts := execution.cancelAttempts + 1);
      if execution.scenario == "cancel_permanent_reject" {
        executions := executions[taskId := execution];
        return Acked(Ack(false, "CANCEL_NOT_PERMITTED", sequence));
      }
      if execution.scenario == "cancel_retryable_reject" && execution.cancelAttempts == 1 {
        executions := executions[taskId := execution];
        return Acked(Ack(false, "TRANSIENT_UNAVAILABLE", sequence));
      }
      if execution.scenario == "cancel_transport_failure" {
        executions := executions[taskId := execution];
        return ControlLost;
      }
      controls := controls + [ControlEffect(taskId, key)];
      var snapshot := ExecutionSnapshot("CANCELLED", execution.snapshot.revision + 1, "SAFE_STOP_CONFIRMED");
      if execution.scenario == "natural_completion" {
        snapshot := execution.terminalSnapshot;
      }
      execution := execution.(snapshot := snapshot, terminalSnapshot := snapshot);
      var ack := Ack(true, "STOP_ACCEPTED",
                     if execution.scenario == "command_sequence_mismatch" then sequence + 1 else sequence);
      execution := execution.(commandAcks := execution.commandAcks[key := ack]);
      executions := executions[taskId := execution];
      if execution.scenario == "cancel_response_loss" {
        return ControlLost;
      }
      return Acked(ack);
    }

    method HandleUpdate(taskId: Id, sequence: nat, inputs: Inputs) returns (reply: ControlReply)
      modifies this
      ensures (Contents(), reply) == UpdateExecution(old(Contents()), taskId, sequence, inputs)
    {
      if taskId !in executions {
        return Acked(Ack(false, "INPUT_REJECTED", sequence));
      }
      var execution := executions[taskId];
      var key := AckKey(UpdateControl, sequence);
      if key in execution.commandAcks {
        return Acked(execution.commandAcks[key]);
      }
      var accepted := execution.waitingForInput
                      && Expected(inputs, if execution.inputRound == 2 then "comment" else "approval");
      if accepted {
        controls := controls + [ControlEffect(taskId, key)];
        execution := AfterInput(execution);
      }
      var ack := Ack(accepted, if accepted then "INPUT_ACCEPTED" else "INPUT_REJECTED", sequence);
      execution := execution.(commandAcks := execution.commandAcks[key := ack]);
      executions := executions[taskId := execution];
      return Acked(ack);
    }

    method HandlePauseOrResume(taskId: Id, sequence: nat, pause: bool) returns (reply: ControlReply)
      modifies this
      ensures (Contents(), reply) == PauseOrResume(old(Contents()), taskId, sequence, pause)
    {
      if taskId !in executions {
        return Acked(Ack(false, NOT_FOUND, sequence));
      }
      var execution := executions[taskId];
      var key := AckKey(if pause then PauseControl else ResumeControl, sequence);
      if key in execution.commandAcks {
        return Acked(execution.commandAcks[key]);
      }
      controls := controls + [ControlEffect(taskId, key)];
      execution := AfterPauseOrResume(execution, pause);
      var ack := Ack(true, if pause then "PAUSE_ACCEPTED" else "RESUME_ACCEPTED", sequence);
      execution := execution.(commandAcks := execution.commandAcks[key := ack]);
      executions := executions[taskId := execution];
      return Acked(ack);
    }
  }

  /* ---------- runs ---------- */

  /** Requests arrive in any order and any number of times. */
  datatype AdapterOp =
    | OpStart(req: StartRequest)
    | OpGet(taskId: Id)
    | OpCancel(taskId: Id, sequence: nat)
    | OpUpdate(taskId: Id, sequence: nat, inputs: Inputs)
    | OpPause(taskId: Id, sequence: nat)
    | OpResume(taskId: Id, sequence: nat)

  function AdapterStep(a: Adapter, op: AdapterOp): Adapter {
    match op
    case OpStart(req) => StartOperation(a, req).0
    case OpGet(taskId) => GetExecution(a, taskId).0
    case OpCancel(taskId, sequence) => RequestCancel(a, taskId, sequence).0
    case OpUpdate(taskId, sequence, inputs) => UpdateExecution(a, taskId, sequence, inputs).0
    case OpPause(taskId, sequence) => PauseOrResume(a, taskId, sequence, true).0
    case OpResume(taskId, sequence) => PauseOrResume(a, taskId, sequence, false).0
  }

  function AdapterRun(ops: seq<AdapterOp>): Adapter {
    if ops == [] then NO_EXECUTIONS else AdapterStep(AdapterRun(ops[..|ops| - 1]), ops[|ops| - 1])
  }

  /** Every side effect is remembered, and none happened twice. */
  predicate Remembered(a: Adapter, effect: ControlEffect) {
    effect.taskId in a.executions && effect.key in a.executions[effect.taskId].commandAcks
  }

  ghost predicate EffectsSound(a: Adapter) {
    && (forall i :: 0 <= i < |a.starts| ==> a.starts[i] in a.executions)
    && (forall i, j :: 0 <= i < j < |a.starts| ==> a.starts[i] != a.starts[j])
    && (forall i :: 0 <= i < |a.controls| ==> Remembered(a, a.controls[i]))
    && forall i, j :: 0 <= i < j < |a.controls| ==> a.controls[i] != a.controls[j]
  }

  /** What an execution was started with. */
  predicate SameOrigin(e: Execution, e': Execution) {
    && e'.externalExecutionId == e.externalExecutionId && e'.operationName == e.operationName
    && e'.argumentHash == e.argumentHash && e'.reservationRef == e.reservationRef && e'.context == e.context
  }

  ghost predicate ExecutionKept(e: Execution, e': Execution) {
    && SameOrigin(e, e')
    && forall key :: key in e.commandAcks ==> key in e'.commandAcks && e'.commandAcks[key] == e.commandAcks[key]
  }

  /** Executions stay, with their origin and every answer given. */
  ghost predicate AdapterKept(a: Adapter, a': Adapter) {
    forall t :: t in a.executions ==> t in a'.executions && ExecutionKept(a.executions[t], a'.executions[t])
  }

  lemma StoringKeeps(a: Adapter, taskId: Id, e: Execution)
    requires EffectsSound(a) && taskId in a.executions && ExecutionKept(a.executions[taskId], e)
    ensures EffectsSound(Stored(a, taskId, e)) && AdapterKept(a, Stored(a, taskId, e))
  {
    var a' := Stored(a, taskId, e);
    forall i | 0 <= i < |a.controls|
      ensures Remembered(a', a.controls[i])
    {
      assert Remembered(a, a.controls[i]);
    }
  }

  lemma EffectKeeps(a: Adapter, taskId: Id, key: AckKey, e: Execution, ack: Ack)
    requires EffectsSound(a) && taskId in a.executions && key !in a.executions[taskId].commandAcks
    requires SameOrigin(a.executions[taskId], e) && e.commandAcks == a.executions[taskId].commandAcks
    ensures EffectsSound(Effect(a, taskId, key, e, ack)) && AdapterKept(a, Effect(a, taskId, key, e, ack))
  {
    var e' := e.(commandAcks := e.commandAcks[key := ack]);
    StoringKeeps(a, taskId, e');
    var a' := Effect(a, taskId, key, e, ack);
    forall i | 0 <= i < |a'.controls|
      ensures Remembered(a', a'.controls[i])
      ensures i < |a.controls| ==> a'.controls[i] != ControlEffect(taskId, key)
    {
      if i < |a.controls| {
        assert Remembered(a, a.controls[i]);
        assert Remembered(Stored(a, taskId, e'), a.controls[i]);
      }
    }
  }

  lemma CancelKeeps(a: Adapter, taskId: Id, sequence: nat)
    requires EffectsSound(a)
    ensures EffectsSound(RequestCancel(a, taskId, sequence).0) && AdapterKept(a, RequestCancel(a, taskId, sequence).0)
  {
    var key := AckKey(CancelControl, sequence);
    if taskId in a.executions && key !in a.executions[taskId].commandAcks {
      var e := a.executions[taskId].(cancelAttempts := a.executions[taskId].cancelAttempts + 1);
      StoringKeeps(a, taskId, e);
      EffectKeeps(a, taskId, key, AfterCancel(e), CancelAck(e, sequence));
    }
  }

  lemma UpdateKeeps(a: Adapter, taskId: Id, sequence: nat, inputs: Inputs)
    requires EffectsSound(a)
    ensures EffectsSound(UpdateExecution(a, taskId, sequence, inputs).0)
    ensures AdapterKept(a, UpdateExecution(a, taskId, sequence, inputs).0)
  {
    var key := AckKey(UpdateControl, sequence);
    if taskId in a.executions && key !in a.executions[taskId].commandAcks {
      var e := a.executions[taskId];
      StoringKeeps(a, taskId, e.(commandAcks := e.commandAcks[key := Ack(false, "INPUT_REJECTED", sequence)]));
      EffectKeeps(a, taskId, key, AfterInput(e), Ack(true, "INPUT_ACCEPTED", sequence));
    }
  }

  lemma PauseOrResumeKeeps(a: Adapter, taskId: Id, sequence: nat, pause: bool)
    requires EffectsSound(a)
    ensures EffectsSound(PauseOrResume(a, taskId, sequence, pause).0)
    ensures AdapterKept(a, PauseOrResume(a, taskId, sequence, pause).0)
  {
    var key := AckKey(if pause then PauseControl else ResumeControl, sequence);
    if taskId in a.executions && key !in a.executions[taskId].commandAcks {
      EffectKeeps(a, taskId, key, AfterPauseOrResume(a.executions[taskId], pause),
                  Ack(true, if pause then "PAUSE_ACCEPTED" else "RESUME_ACCEPTED", sequence));
    }
  }

  lemma StartKeeps(a: Adapter, req: StartRequest)
    requires EffectsSound(a)
    ensures EffectsSound(StartOperation(a, req).0) && AdapterKept(a, StartOperation(a, req).0)
  {
    var a' := StartOperation(a, req).0;
    forall i | 0 <= i < |a.controls|
      ensures Remembered(a', a.controls[i])
    {
      assert Remembered(a, a.controls[i]);
    }
  }

  lemma GetKeeps(a: Adapter, taskId: Id)
    requires EffectsSound(a)
    ensures EffectsSound(GetExecution(a, taskId).0) && AdapterKept(a, GetExecution(a, taskId).0)
  {
    var a' := GetExecution(a, taskId).0;
    if a' != a {
      StoringKeeps(a, taskId, a'.executions[taskId]);
    }
  }

  lemma StepKeepsAdapter(a: Adapter, op: AdapterOp)
    requires EffectsSound(a)
    ensures EffectsSound(AdapterStep(a, op)) && AdapterKept(a, AdapterStep(a, op))
  {
    match op
    case OpStart(req) => StartKeeps(a, req);
    case OpGet(taskId) => GetKeeps(a, taskId);
    case OpCancel(taskId, sequence) => CancelKeeps(a, taskId, sequence);
    case OpUpdate(taskId, sequence, inputs) => UpdateKeeps(a, taskId, sequence, inputs);
    case OpPause(taskId, sequence) => PauseOrResumeKeeps(a, taskId, sequence, true);
    case OpResume(taskId, sequence) => PauseOrResumeKeeps(a, taskId, sequence, false);
  }

  lemma {:induction false} EffectsSoundAlways(ops: seq<AdapterOp>)
    ensures EffectsSound(AdapterRun(ops))
  {
    if ops != [] {
      EffectsSoundAlways(ops[..|ops| - 1]);
      StepKeepsAdapter(AdapterRun(ops[..|ops| - 1]), ops[|ops| - 1]);
    }
  }

  /* ---------- at most one side effect ---------- */

  /** However often and in whatever order requests arrive, a task is started at most once. */
  lemma AtMostOneStart(ops: seq<AdapterOp>, i: nat, j: nat)
    requires i < |AdapterRun(ops).starts| && j < |AdapterRun(ops).starts|
    requires AdapterRun(ops).starts[i] == AdapterRun(ops).starts[j]
    ensures i == j
  {
    EffectsSoundAlways(ops);
  }

  function ControlOf(op: AdapterOp): Option<ControlEffect> {
    match op
    case OpCancel(taskId, sequence) => Some(ControlEffect(taskId, AckKey(CancelControl, sequence)))
    case OpUpdate(taskId, sequence, _) => Some(ControlEffect(taskId, AckKey(UpdateControl, sequence)))
    case OpPause(taskId, sequence) => Some(ControlEffect(taskId, AckKey(PauseControl, sequence)))
    case OpResume(taskId, sequence) => Some(ControlEffect(taskId, AckKey(ResumeControl, sequence)))
    case _ => None
  }

  /** A step adds at most the effect its request asks for. */
  lemma StepEffect(a: Adapter, op: AdapterOp)
    ensures AdapterStep(a, op).controls == a.controls
            || (ControlOf(op).Some? && AdapterStep(a, op).controls == a.controls + [ControlOf(op).value])
  {
  }

  /** The requests for a task ask, for each sequence, for one kind of control. */
  ghost predicate KindsFixed(ops: seq<AdapterOp>, taskId: Id, kinds: nat -> ControlKind) {
    forall i :: 0 <= i < |ops| && ControlOf(ops[i]).Some? && ControlOf(ops[i]).value.taskId == taskId ==>
      ControlOf(ops[i]).value.key.kind == kinds(ControlOf(ops[i]).value.key.sequence)
  }

  lemma {:induction false} EffectKinds(ops: seq<AdapterOp>, taskId: Id, kinds: nat -> ControlKind)
    requires KindsFixed(ops, taskId, kinds)
    ensures forall i :: 0 <= i < |AdapterRun(ops).controls| && AdapterRun(ops).controls[i].taskId == taskId ==>
              AdapterRun(ops).controls[i].key.kind == kinds(AdapterRun(ops).controls[i].key.sequence)
  {
    if ops != [] {
      EffectKinds(ops[..|ops| - 1], taskId, kinds);
      StepEffect(AdapterRun(ops[..|ops| - 1]), ops[|ops| - 1]);
    }
  }

  /** However often a command is retried, it takes effect at most once. */
  lemma AtMostOneControl(ops: seq<AdapterOp>, taskId: Id, kinds: nat -> ControlKind, i: nat, j: nat)
    requires KindsFixed(ops, taskId, kinds)
    requires i < |AdapterRun(ops).controls| && j < |AdapterRun(ops).controls|
    requires AdapterRun(ops).controls[i].taskId == taskId == AdapterRun(ops).controls[j].taskId
    requires AdapterRun(ops).controls[i].key.sequence == AdapterRun(ops).controls[j].key.sequence
    ensures i == j
  {
    EffectsSoundAlways(ops);
    EffectKinds(ops, taskId, kinds);
  }

  /** A request that was acknowledged is answered the same way ever after, and changes nothing. */
  lemma AcknowledgedIsSilent(a: Adapter, op: AdapterOp)
    requires ControlOf(op).Some? && Remembered(a, ControlOf(op).value)
    ensures AdapterStep(a, op) == a
  {
  }

  lemma {:induction false} AcksAreFinal(ops: seq<AdapterOp>, more: seq<AdapterOp>, effect: ControlEffect)
    requires Remembered(AdapterRun(ops), effect)
    ensures Remembered(AdapterRun(ops + more), effect)
    ensures AdapterRun(ops + more).executions[effect.taskId].commandAcks[effect.key]
            == AdapterRun(ops).executions[effect.taskId].commandAcks[effect.key]
  {
    if more == [] {
      assert ops + more == ops;
    } else {
      var front, last := more[..|more| - 1], more[|more| - 1];
      LastOf(ops, more);
      AcksAreFinal(ops, front, effect);
      EffectsSoundAlways(ops + front);
      StepKeepsAdapter(AdapterRun(ops + front), last);
      var e, e' := AdapterRun(ops + front).executions[effect.taskId], AdapterRun(ops + more).executions[effect.taskId];
      assert ExecutionKept(e, e');
    }
  }
}
