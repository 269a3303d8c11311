/**
 Calls racing for idempotency keys, recoverers beside them, and an adapter that
 may see a start request late, twice or never: the whole path from a call to its
 side effect, one atomic step at a time.
 */
module Invocation {
  import opened Basics
  import opened Idempotency
  import opened ReferenceAdapter

  /** What a call asks for besides the arguments that are hashed. */
  datatype Plan = Plan(
    operationName: string,
    synchronous: bool,
    taskCapable: bool,
    scheduled: bool,
    reservationRef: Option<Id>,
    context: Id,
    scenario: string,
    message: string)

  /** Where `#executeOperation` stands. */
  datatype Stage = Admit | LookUp | Reconciling | Dispatch | AwaitStart | Publish

  datatype Phase =
    | Claiming
    | Invoking(taskId: Id, recovering: bool, stage: Stage)
    | Completing(taskId: Id, outcome: Outcome)
    | Abandoning
    | Returned(outcome: Outcome)
    | Threw

  /** A call with a key, or one without: a plain call or the recovery of an admission. */
  datatype Call = Call(key: Option<Key>, hash: Id, plan: Plan, phase: Phase)

  datatype Intent = Intent(hash: Id, plan: Plan)

  datatype Sent = Sent(req: StartRequest, key: Option<Key>)

  datatype Invoked = Invoked(key: Key, taskId: Id, recovering: bool)

  datatype System = System(
    records: Records,
    intents: map<Id, Intent>,
    tasks: set<Id>,
    adapter: Adapter,
    sent: seq<Sent>,
    calls: map<Id, Call>,
    issued: map<Id, Id>,
    invocations: seq<Invoked>)

  const IDLE_SYSTEM := System(map[], map[], {}, NO_EXECUTIONS, [], map[], map[], [])

  /* ---------- steps ---------- */

  function Advance(s: System, caller: Id, phase: Phase): System
    requires caller in s.calls
  {
    s.(calls := s.calls[caller := s.calls[caller].(phase := phase)])
  }

  function FirstStage(plan: Plan): Stage {
    if plan.synchronous then Dispatch else Admit
  }

  predicate At(s: System, caller: Id, stage: Stage) {
    caller in s.calls && s.calls[caller].phase.Invoking? && s.calls[caller].phase.stage == stage
  }

  function BeginKeyed(s: System, caller: Id, key: Key, hash: Id, plan: Plan): System {
    if caller in s.calls then s else s.(calls := s.calls[caller := Call(Some(key), hash, plan, Claiming)])
  }

  function BeginPlain(s: System, caller: Id, hash: Id, plan: Plan, fresh': Id): System {
    if caller in s.calls || fresh' in s.issued then s
    else
      s.(calls := s.calls[caller := Call(None, hash, plan, Invoking(fresh', false, FirstStage(plan)))],
         issued := s.issued[fresh' := hash])
  }

  function RecoverAdmission(s: System, caller: Id, taskId: Id): System {
    if caller in s.calls || taskId !in s.intents then s
    else
      var intent := s.intents[taskId];
      var phase := Invoking(taskId, true, FirstStage(intent.plan));
      s.(calls := s.calls[caller := Call(None, intent.hash, intent.plan, phase)])
  }

  function ClaimStep(s: System, caller: Id, fresh': Id, now: Readings, leaseMs: int): System {
    if caller !in s.calls || !s.calls[caller].phase.Claiming? || s.calls[caller].key.None? || fresh' in s.issued then s
    else
      var c := s.calls[caller];
      var (records, r) := Claim(s.records, c.key.value, c.hash, caller, fresh', now, leaseMs);
      var s' := s.(records := records,
                   issued := if c.key.value in s.records then s.issued else s.issued[fresh' := c.hash]);
      match r
      case KeyConflict => Advance(s', caller, Threw)
      case Wait => s'
      case AlreadyComplete(outcome) => Advance(s', caller, Returned(outcome))
      case Claimed(taskId, recovering, _) =>
        Advance(s', caller, Invoking(taskId, recovering, FirstStage(c.plan)))
          .(invocations := s.invocations + [Invoked(c.key.value, taskId, recovering)])
  }

  function AdmitStep(s: System, caller: Id): System {
    if !At(s, caller, Admit) then s
    else
      var c := s.calls[caller];
      var taskId := c.phase.taskId;
      var inserted := taskId !in s.intents;
      var s' := if inserted then s.(intents := s.intents[taskId := Intent(c.hash, c.plan)]) else s;
      Advance(s', caller, c.phase.(stage := if !inserted || c.phase.recovering then LookUp else Dispatch))
  }

  function LookUpStep(s: System, caller: Id): System {
    if !At(s, caller, LookUp) then s
    else
      var phase := s.calls[caller].phase;
      if phase.taskId in s.tasks then Advance(s, caller, Completing(phase.taskId, TaskOutcome(phase.taskId)))
      else Advance(s, caller, phase.(stage := Reconciling))
  }

  /** After a failure inside the invocation, a keyed call gives its lease back. */
  function Failing(c: Call): Phase {
    if c.key.Some? then Abandoning else Threw
  }

  /** `inline` is the result of an execution that ended before it became a task. */
  function ReconcileStep(s: System, caller: Id, inline: Option<string>): System {
    if !At(s, caller, Reconciling) then s
    else
      var c := s.calls[caller];
      var taskId := c.phase.taskId;
      match Reconcile(s.adapter, taskId, c.plan.operationName, c.hash, c.plan.context, None)
      case Found(_, _, genuine) =>
        Advance(s, caller, if !genuine then Failing(c)
                           else if c.plan.taskCapable && inline.Some?
                           then Completing(taskId, ResultOutcome(inline.value))
                           else c.phase.(stage := Publish))
      case NotFound => Advance(s, caller, c.phase.(stage := Dispatch))
      case Conflict => Advance(s, caller, Failing(c))
      case Transient => Advance(s, caller, Failing(c))
  }

  function RequestFor(taskId: Id, hash: Id, plan: Plan, attempt: nat): StartRequest {
    StartRequest(
      taskId, plan.operationName, hash, plan.reservationRef, plan.context, plan.scenario, plan.message, attempt)
  }

  function DispatchStep(s: System, caller: Id): System {
    if !At(s, caller, Dispatch) then s
    else
      var c := s.calls[caller];
      var taskId := c.phase.taskId;
      if !c.plan.synchronous && c.plan.scheduled
      then Advance(s.(tasks := s.tasks + {taskId}), caller, Completing(taskId, TaskOutcome(taskId)))
      else
        Advance(s.(sent := s.sent + [Sent(RequestFor(taskId, c.hash, c.plan, 1), c.key)]), caller,
                c.phase.(stage := AwaitStart))
  }

  /** Any reply at all may arrive; a lost one is an error. */
  function ReceiveStep(s: System, caller: Id, reply: StartReply, inline: Option<string>): System {
    if !At(s, caller, AwaitStart) then s
    else
      var c := s.calls[caller];
      var taskId := c.phase.taskId;
      match reply
      case StartError(_) => Advance(s, caller, Failing(c))
      case StartRejected(reasonCode, _) => Advance(s, caller, Completing(taskId, ResultOutcome(reasonCode)))
      case StartAccepted(started, _, _) =>
        if started != taskId then Advance(s, caller, Failing(c))
        else if c.plan.synchronous || c.plan.taskCapable then
          if inline.Some? then Advance(s, caller, Completing(taskId, ResultOutcome(inline.value)))
          else Advance(s, caller, if c.plan.synchronous then Failing(c) else c.phase.(stage := Publish))
        else Advance(s, caller, c.phase.(stage := Publish))
  }

  function PublishStep(s: System, caller: Id): System {
    if !At(s, caller, Publish) then s
    else
      var taskId := s.calls[caller].phase.taskId;
      Advance(s.(tasks := s.tasks + {taskId}), caller, Completing(taskId, TaskOutcome(taskId)))
  }

  function CompleteStep(s: System, caller: Id): System {
    if caller !in s.calls || !s.calls[caller].phase.Completing? then s
    else
      var c := s.calls[caller];
      if c.key.None? then Advance(s, caller, Returned(c.phase.outcome))
      else
        var (records, r) := Complete(s.records, c.key.value, caller, c.phase.outcome);
        Advance(s.(records := records), caller, if r.Some? then Returned(r.value) else Abandoning)
  }

  function AbandonStep(s: System, caller: Id, now: Instant): System {
    if caller !in s.calls || !s.calls[caller].phase.Abandoning? || s.calls[caller].key.None? then s
    else Advance(s.(records := Abandon(s.records, s.calls[caller].key.value, caller, now)), caller, Threw)
  }

  predicate Finished(c: Call) {
    c.phase.Returned? || c.phase.Threw?
  }

  /** An exception inside the invocation, or waiting for too long. */
  function FailStep(s: System, caller: Id): System {
    if caller !in s.calls || Finished(s.calls[caller]) then s
    else Advance(s, caller, if s.calls[caller].phase.Claiming? then Threw else Failing(s.calls[caller]))
  }

  /** The process disappears; nothing is given back. */
  function CrashStep(s: System, caller: Id): System {
    if caller !in s.calls || Finished(s.calls[caller]) then s else Advance(s, caller, Threw)
  }

  /** The scheduler starts a published task. */
  function SchedulerStep(s: System, taskId: Id, attempt: nat): System {
    if taskId !in s.tasks || taskId !in s.intents then s
    else
      s.(sent := s.sent + [Sent(RequestFor(taskId, s.intents[taskId].hash, s.intents[taskId].plan, attempt), None)])
  }

  /** The adapter handles a request that was sent at some time. */
  function DeliverStep(s: System, i: nat): System {
    if i >= |s.sent| then s else s.(adapter := StartOperation(s.adapter, s.sent[i].req).0)
  }

  /** The adapter handles anything but a start. */
  function ControlStep(s: System, op: AdapterOp): System {
    if op.OpStart? then s else s.(adapter := AdapterStep(s.adapter, op))
  }

  datatype Step =
    | DoBeginKeyed(caller: Id, key: Key, hash: Id, plan: Plan)
    | DoBeginPlain(caller: Id, hash: Id, plan: Plan, freshId: Id)
    | DoRecover(caller: Id, taskId: Id)
    | DoClaim(caller: Id, freshId: Id, now: Readings, leaseMs: int)
    | DoAdmit(caller: Id)
    | DoLookUp(caller: Id)
    | DoReconcile(caller: Id, inline: Option<string>)
    | DoDispatch(caller: Id)
    | DoReceive(caller: Id, reply: StartReply, inline: Option<string>)
    | DoPublish(caller: Id)
    | DoComplete(caller: Id)
    | DoAbandon(caller: Id, at: Instant)
    | DoFail(caller: Id)
    | DoCrash(caller: Id)
    | DoSchedule(taskId: Id, attempt: nat)
    | DoDeliver(index: nat)
    | DoControl(op: AdapterOp)

  function SystemStep(s: System, step: Step): System {
    match step
    case DoBeginKeyed(caller, key, hash, plan) => BeginKeyed(s, caller, key, hash, plan)
    case DoBeginPlain(caller, hash, plan, freshId) => BeginPlain(s, caller, hash, plan, freshId)
    case DoRecover(caller, taskId) => RecoverAdmission(s, caller, taskId)
    case DoClaim(caller, freshId, now, leaseMs) => ClaimStep(s, caller, freshId, now, leaseMs)
    case DoAdmit(caller) => AdmitStep(s, caller)
    case DoLookUp(caller) => LookUpStep(s, caller)
    case DoReconcile(caller, inline) => ReconcileStep(s, caller, inline)
    case DoDispatch(caller) => DispatchStep(s, caller)
    case DoReceive(caller, reply, inline) => ReceiveStep(s, caller, reply, inline)
    case DoPublish(caller) => PublishStep(s, caller)
    case DoComplete(caller) => CompleteStep(s, caller)
    case DoAbandon(caller, at) => AbandonStep(s, caller, at)
    case DoFail(caller) => FailStep(s, caller)
    case DoCrash(caller) => CrashStep(s, caller)
    case DoSchedule(taskId, attempt) => SchedulerStep(s, taskId, attempt)
    case DoDeliver(index) => DeliverStep(s, index)
    case DoControl(op) => ControlStep(s, op)
  }

  function SystemRun(steps: seq<Step>): System {
    if steps == [] then IDLE_SYSTEM else SystemStep(SystemRun(steps[..|steps| - 1]), steps[|steps| - 1])
  }

  /* ---------- what every step keeps ---------- */

  predicate Bound(records: Records, key: Option<Key>, taskId: Id) {
    key.Some? ==> key.value in records && records[key.value].stableTaskId == taskId
  }

  /** The id was issued for these arguments. */
  predicate IssuedFor(issued: map<Id, Id>, taskId: Id, hash: Id) {
    taskId in issued && issued[taskId] == hash
  }

  /** A task outcome names the task of its record, and the task is there. */
  predicate OutcomeFits(tasks: set<Id>, taskId: Id, outcome: Outcome) {
    outcome.TaskOutcome? ==> outcome.taskId == taskId && taskId in tasks
  }

  predicate CallSound(s: System, c: Call) {
    match c.phase
    case Claiming => c.key.Some?
    case Invoking(taskId, _, _) => IssuedFor(s.issued, taskId, c.hash) && Bound(s.records, c.key, taskId)
    case Completing(taskId, outcome) =>
      IssuedFor(s.issued, taskId, c.hash) && Bound(s.records, c.key, taskId) && OutcomeFits(s.tasks, taskId, outcome)
    case Returned(outcome) =>
      c.key.Some? ==> c.key.value in s.records && s.records[c.key.value].outcome == Some(outcome)
                      && s.records[c.key.value].argumentHash == c.hash
    case Abandoning => true
    case Threw => true
  }

  ghost predicate CallsSound(s: System) {
    forall o :: o in s.calls ==> CallSound(s, s.calls[o])
  }

  predicate RecordSound(s: System, r: Record) {
    && IssuedFor(s.issued, r.stableTaskId, r.argumentHash)
    && (r.outcome.Some? ==> OutcomeFits(s.tasks, r.stableTaskId, r.outcome.value))
  }

  ghost predicate RecordsSound(s: System) {
    && (forall k :: k in s.records ==> RecordSound(s, s.records[k]))
    && forall k, k' ::
         (k in s.records && k' in s.records && s.records[k].stableTaskId == s.records[k'].stableTaskId) ==> k == k'
  }

  /** The holder of a lease has left the claiming phase of a call for that key. */
  predicate OwnerSound(s: System, k: Key, r: Record) {
    r.leaseOwner.Some? ==> r.leaseOwner.value in s.calls && s.calls[r.leaseOwner.value].key == Some(k)
                           && !s.calls[r.leaseOwner.value].phase.Claiming?
  }

  ghost predicate OwnersSound(s: System) {
    forall k :: k in s.records ==> OwnerSound(s, k, s.records[k])
  }

  ghost predicate IdsSound(s: System) {
    && (forall t :: t in s.intents ==> IssuedFor(s.issued, t, s.intents[t].hash))
    && (forall i :: 0 <= i < |s.sent| ==>
          IssuedFor(s.issued, s.sent[i].req.taskId, s.sent[i].req.argumentHash)
          && Bound(s.records, s.sent[i].key, s.sent[i].req.taskId))
    && forall t :: t in s.adapter.executions ==> IssuedFor(s.issued, t, s.adapter.executions[t].argumentHash)
  }

  /** Only the first invocation for a key is not a recovery, and all use the task id of its record. */
  ghost predicate InvocationsSound(s: System) {
    && (forall i :: 0 <= i < |s.invocations| ==> Bound(s.records, Some(s.invocations[i].key), s.invocations[i].taskId))
    && forall i, j :: 0 <= i < j < |s.invocations| && s.invocations[i].key == s.invocations[j].key ==>
        s.invocations[j].recovering
  }

  ghost predicate SystemSound(s: System) {
    && CallsSound(s) && RecordsSound(s) && OwnersSound(s) && IdsSound(s) && InvocationsSound(s)
    && EffectsSound(s.adapter)
  }

  /* ---------- changes of one component ---------- */

  /** Ids issued and tasks published stay, and a call goes on soundly or not at all. */
  ghost predicate CallsMove(s: System, s': System) {
    && (forall id :: id in s.issued ==> id in s'.issued && s'.issued[id] == s.issued[id])
    && s.tasks <= s'.tasks
    && (forall o :: o in s.calls ==> o in s'.calls && s'.calls[o].key == s.calls[o].key
                                     && (s'.calls[o] == s.calls[o] || !s'.calls[o].phase.Claiming?))
    && forall o :: o in s'.calls ==> (o in s.calls && s'.calls[o] == s.calls[o]) || CallSound(s', s'.calls[o])
  }

  lemma CallsMoveKeeps(s: System, s': System)
    requires SystemSound(s) && CallsMove(s, s')
    requires s' == s.(calls := s'.calls, issued := s'.issued, tasks := s'.tasks)
    ensures SystemSound(s')
  {
    forall k | k in s'.records
      ensures OwnerSound(s', k, s'.records[k]) && RecordSound(s', s'.records[k])
    {
      assert OwnerSound(s, k, s.records[k]) && RecordSound(s, s.records[k]);
    }
    forall o | o in s'.calls
      ensures CallSound(s', s'.calls[o])
    {
      if o in s.calls {
        assert CallSound(s, s.calls[o]);
      }
    }
  }

  lemma AdvanceKeeps(s: System, caller: Id, phase: Phase)
    requires SystemSound(s) && caller in s.calls && !phase.Claiming?
    requires CallSound(s, s.calls[caller].(phase := phase))
    ensures SystemSound(Advance(s, caller, phase))
  {
    CallsMoveKeeps(s, Advance(s, caller, phase));
  }

  lemma IntentKeeps(s: System, taskId: Id, intent: Intent)
    requires SystemSound(s) && IssuedFor(s.issued, taskId, intent.hash)
    ensures SystemSound(s.(intents := s.intents[taskId := intent]))
  {
    var s' := s.(intents := s.intents[taskId := intent]);
    FrameKeeps(s, s');
  }

  lemma SendKeeps(s: System, m: Sent)
    requires SystemSound(s)
    requires IssuedFor(s.issued, m.req.taskId, m.req.argumentHash) && Bound(s.records, m.key, m.req.taskId)
    ensures SystemSound(s.(sent := s.sent + [m]))
  {
    var s' := s.(sent := s.sent + [m]);
    FrameKeeps(s, s');
  }

  /** Calls, records and owners do not look at intents, messages or the adapter. */
  lemma FrameKeeps(s: System, s': System)
    requires CallsSound(s) && RecordsSound(s) && OwnersSound(s) && InvocationsSound(s)
    requires s' == s.(intents := s'.intents, sent := s'.sent, adapter := s'.adapter)
    ensures CallsSound(s') && RecordsSound(s') && OwnersSound(s') && InvocationsSound(s')
  {
    forall k | k in s'.records
      ensures OwnerSound(s', k, s'.records[k]) && RecordSound(s', s'.records[k])
    {
      assert OwnerSound(s, k, s.records[k]) && RecordSound(s, s.records[k]);
    }
    forall o | o in s'.calls
      ensures CallSound(s', s'.calls[o])
    {
      assert CallSound(s, s.calls[o]);
    }
  }

  lemma StartAdds(a: Adapter, req: StartRequest, t: Id)
    requires t in StartOperation(a, req).0.executions
    ensures (t in a.executions && StartOperation(a, req).0.executions[t] == a.executions[t])
            || (t == req.taskId && StartOperation(a, req).0.executions[t].argumentHash == req.argumentHash)
  {
  }

  lemma DeliverKeeps(s: System, i: nat)
    requires SystemSound(s)
    ensures SystemSound(DeliverStep(s, i))
  {
    if i < |s.sent| {
      var s' := DeliverStep(s, i);
      StartKeeps(s.adapter, s.sent[i].req);
      forall t | t in s'.adapter.executions
        ensures IssuedFor(s'.issued, t, s'.adapter.executions[t].argumentHash)
      {
        StartAdds(s.adapter, s.sent[i].req, t);
      }
      FrameKeeps(s, s');
    }
  }

  lemma ControlAdds(a: Adapter, op: AdapterOp, t: Id)
    requires !op.OpStart? && t in AdapterStep(a, op).executions
    ensures t in a.executions
  {
  }

  lemma ControlKeeps(s: System, op: AdapterOp)
    requires SystemSound(s)
    ensures SystemSound(ControlStep(s, op))
  {
    if !op.OpStart? {
      var s' := ControlStep(s, op);
      StepKeepsAdapter(s.adapter, op);
      forall t | t in s'.adapter.executions
        ensures IssuedFor(s'.issued, t, s'.adapter.executions[t].argumentHash)
      {
        ControlAdds(s.adapter, op, t);
        assert ExecutionKept(s.adapter.executions[t], s'.adapter.executions[t]);
      }
      FrameKeeps(s, s');
    }
  }

  /* ---------- records ---------- */

  /** Records change soundly: kept, still sound, still owned. */
  lemma RecordsMoveKeeps(s: System, s': System)
    requires SystemSound(s) && s' == s.(records := s'.records) && RecordsKept(s.records, s'.records)
    requires RecordsSound(s') && OwnersSound(s')
    ensures SystemSound(s')
  {
    forall o | o in s'.calls
      ensures CallSound(s', s'.calls[o])
    {
      assert CallSound(s, s.calls[o]);
      if s.calls[o].key.Some? && s.calls[o].key.value in s.records {
        assert RecordKept(s.records[s.calls[o].key.value], s'.records[s.calls[o].key.value]);
      }
    }
    forall i | 0 <= i < |s'.sent|
      ensures Bound(s'.records, s'.sent[i].key, s'.sent[i].req.taskId)
    {
      assert Bound(s.records, s.sent[i].key, s.sent[i].req.taskId);
    }
    forall i | 0 <= i < |s'.invocations|
      ensures Bound(s'.records, Some(s'.invocations[i].key), s'.invocations[i].taskId)
    {
      assert Bound(s.records, Some(s.invocations[i].key), s.invocations[i].taskId);
    }
  }

  lemma CompleteKeeps(s: System, caller: Id)
    requires SystemSound(s)
    ensures SystemSound(CompleteStep(s, caller))
  {
    if caller in s.calls && s.calls[caller].phase.Completing? {
      var c := s.calls[caller];
      assert CallSound(s, c);
      if c.key.None? {
        AdvanceKeeps(s, caller, Returned(c.phase.outcome));
      } else {
        var k := c.key.value;
        var (records, r) := Complete(s.records, k, caller, c.phase.outcome);
        var s1 := s.(records := records);
        assert RecordSound(s, s.records[k]);
        forall k' | k' in s1.records
          ensures RecordSound(s1, s1.records[k']) && OwnerSound(s1, k', s1.records[k'])
        {
          assert RecordSound(s, s.records[k']) && OwnerSound(s, k', s.records[k']);
        }
        RecordsMoveKeeps(s, s1);
        AdvanceKeeps(s1, caller, if r.Some? then Returned(r.value) else Abandoning);
      }
    }
  }

  lemma AbandonKeeps(s: System, caller: Id, now: Instant)
    requires SystemSound(s)
    ensures SystemSound(AbandonStep(s, caller, now))
  {
    if caller in s.calls && s.calls[caller].phase.Abandoning? && s.calls[caller].key.Some? {
      var s1 := s.(records := Abandon(s.records, s.calls[caller].key.value, caller, now));
      forall k' | k' in s1.records
        ensures RecordSound(s1, s1.records[k']) && OwnerSound(s1, k', s1.records[k'])
      {
        assert RecordSound(s, s.records[k']) && OwnerSound(s, k', s.records[k']);
      }
      RecordsMoveKeeps(s, s1);
      AdvanceKeeps(s1, caller, Threw);
    }
  }

  lemma LogKeeps(s: System, inv: Invoked)
    requires SystemSound(s) && Bound(s.records, Some(inv.key), inv.taskId)
    requires inv.recovering || forall i :: 0 <= i < |s.invocations| ==> s.invocations[i].key != inv.key
    ensures SystemSound(s.(invocations := s.invocations + [inv]))
  {
    var s' := s.(invocations := s.invocations + [inv]);
    forall k | k in s'.records
      ensures OwnerSound(s', k, s'.records[k]) && RecordSound(s', s'.records[k])
    {
      assert OwnerSound(s, k, s.records[k]) && RecordSound(s, s.records[k]);
    }
    forall o | o in s'.calls
      ensures CallSound(s', s'.calls[o])
    {
      assert CallSound(s, s.calls[o]);
    }
  }

  /** One record is written by a caller that has stopped claiming. */
  lemma RecordKeeps(s: System, k: Key, r: Record, owner: Id)
    requires SystemSound(s) && RecordSound(s, r)
    requires owner in s.calls && s.calls[owner].key == Some(k) && !s.calls[owner].phase.Claiming?
    requires r.leaseOwner == Some(owner)
    requires k in s.records ==> RecordKept(s.records[k], r)
    requires k !in s.records ==> forall k' :: k' in s.records ==> s.records[k'].stableTaskId != r.stableTaskId
    ensures SystemSound(s.(records := s.records[k := r]))
  {
    var s' := s.(records := s.records[k := r]);
    forall k' | k' in s'.records
      ensures RecordSound(s', s'.records[k']) && OwnerSound(s', k', s'.records[k'])
    {
      if k' != k {
        assert RecordSound(s, s.records[k']) && OwnerSound(s, k', s.records[k']);
      }
    }
    RecordsMoveKeeps(s, s');
  }

  lemma NoneInvoked(s: System, k: Id)
    requires SystemSound(s) && k !in s.records
    ensures forall i :: 0 <= i < |s.invocations| ==> s.invocations[i].key != k
  {
    forall i | 0 <= i < |s.invocations| ensures s.invocations[i].key != k {
      assert Bound(s.records, Some(s.invocations[i].key), s.invocations[i].taskId);
    }
  }

  /** A caller that gets the claim: it stops claiming, the record is written, the invocation begins. */
  lemma TakenKeeps(s: System, caller: Id, r: Record, recovering: bool)
    requires SystemSound(s) && caller in s.calls && s.calls[caller].key.Some?
    requires RecordSound(s, r) && r.leaseOwner == Some(caller) && r.argumentHash == s.calls[caller].hash
    requires var k := s.calls[caller].key.value;
      && (k in s.records ==> RecordKept(s.records[k], r) && recovering)
      && (k !in s.records ==> forall k' :: k' in s.records ==> s.records[k'].stableTaskId != r.stableTaskId)
    ensures var k := s.calls[caller].key.value;
      SystemSound(Advance(s.(records := s.records[k := r]), caller,
                          Invoking(r.stableTaskId, recovering, FirstStage(s.calls[caller].plan)))
                    .(invocations := s.invocations + [Invoked(k, r.stableTaskId, recovering)]))
  {
    var k := s.calls[caller].key.value;
    var phase := Invoking(r.stableTaskId, recovering, FirstStage(s.calls[caller].plan));
    if k !in s.records {
      NoneInvoked(s, k);
    }
    var s1 := Advance(s, caller, Abandoning);
    AdvanceKeeps(s, caller, Abandoning);
    RecordKeeps(s1, k, r, caller);
    var s2 := s1.(records := s1.records[k := r]);
    AdvanceKeeps(s2, caller, phase);
    var s3 := Advance(s2, caller, phase);
    LogKeeps(s3, Invoked(k, r.stableTaskId, recovering));
    assert s3.calls == Advance(s.(records := s.records[k := r]), caller, phase).calls;
  }

  predicate MayClaim(s: System, caller: Id, fresh': Id) {
    caller in s.calls && s.calls[caller].phase.Claiming? && s.calls[caller].key.Some? && fresh' !in s.issued
  }

  lemma FirstClaimKeeps(s: System, caller: Id, fresh': Id, now: Readings, leaseMs: int)
    requires SystemSound(s) && MayClaim(s, caller, fresh') && s.calls[caller].key.value !in s.records
    ensures SystemSound(ClaimStep(s, caller, fresh', now, leaseMs))
  {
    var c := s.calls[caller];
    var r := Record(c.hash, fresh', None, Some(caller), now.insert + leaseMs, 1);
    assert Claim(s.records, c.key.value, c.hash, caller, fresh', now, leaseMs)
        == (s.records[c.key.value := r], Claimed(fresh', false, false));
    var s1 := s.(issued := s.issued[fresh' := c.hash]);
    CallsMoveKeeps(s, s1);
    forall k | k in s.records
      ensures s.records[k].stableTaskId != fresh'
    {
      assert RecordSound(s, s.records[k]);
    }
    TakenKeeps(s1, caller, r, false);
  }

  lemma TakeOverKeeps(s: System, caller: Id, fresh': Id, now: Readings, leaseMs: int)
    requires SystemSound(s) && MayClaim(s, caller, fresh') && s.calls[caller].key.value in s.records
    requires Claim(s.records, s.calls[caller].key.value, s.calls[caller].hash, caller, fresh', now, leaseMs).1.Claimed?
    ensures SystemSound(ClaimStep(s, caller, fresh', now, leaseMs))
  {
    var c := s.calls[caller];
    var row := s.records[c.key.value];
    assert OwnerSound(s, c.key.value, row) && RecordSound(s, row);
    assert row.leaseOwner != Some(caller);
    var r := row.(leaseOwner := Some(caller), leaseExpiresAt := now.takeOver + leaseMs,
                  claimAttempt := row.claimAttempt + 1);
    assert Claim(s.records, c.key.value, c.hash, caller, fresh', now, leaseMs)
        == (s.records[c.key.value := r], Claimed(row.stableTaskId, true, true));
    TakenKeeps(s, caller, r, true);
  }

  lemma ClaimKeeps(s: System, caller: Id, fresh': Id, now: Readings, leaseMs: int)
    requires SystemSound(s)
    ensures SystemSound(ClaimStep(s, caller, fresh', now, leaseMs))
  {
    if MayClaim(s, caller, fresh') {
      var c := s.calls[caller];
      if c.key.value !in s.records {
        FirstClaimKeeps(s, caller, fresh', now, leaseMs);
      } else {
        var result := Claim(s.records, c.key.value, c.hash, caller, fresh', now, leaseMs).1;
        if result.Claimed? {
          TakeOverKeeps(s, caller, fresh', now, leaseMs);
        } else if result.AlreadyComplete? {
          AdvanceKeeps(s, caller, Returned(result.outcome));
        } else {
          AdvanceKeeps(s, caller, Threw);
        }
      }
    }
  }

  /* ---------- the invocation ---------- */

  lemma AdmitKeeps(s: System, caller: Id)
    requires SystemSound(s)
    ensures SystemSound(AdmitStep(s, caller))
  {
    if At(s, caller, Admit) {
      var c := s.calls[caller];
      assert CallSound(s, c);
      var inserted := c.phase.taskId !in s.intents;
      var s' := if inserted then s.(intents := s.intents[c.phase.taskId := Intent(c.hash, c.plan)]) else s;
      IntentKeeps(s, c.phase.taskId, Intent(c.hash, c.plan));
      AdvanceKeeps(s', caller, c.phase.(stage := if !inserted || c.phase.recovering then LookUp else Dispatch));
    }
  }

  lemma LookUpKeeps(s: System, caller: Id)
    requires SystemSound(s)
    ensures SystemSound(LookUpStep(s, caller))
  {
    if At(s, caller, LookUp) {
      var phase := s.calls[caller].phase;
      assert CallSound(s, s.calls[caller]);
      if phase.taskId in s.tasks {
        AdvanceKeeps(s, caller, Completing(phase.taskId, TaskOutcome(phase.taskId)));
      } else {
        AdvanceKeeps(s, caller, phase.(stage := Reconciling));
      }
    }
  }

  lemma ReconcileKeeps(s: System, caller: Id, inline: Option<string>)
    requires SystemSound(s)
    ensures SystemSound(ReconcileStep(s, caller, inline))
  {
    if At(s, caller, Reconciling) {
      var c := s.calls[caller];
      assert CallSound(s, c);
      AdvanceKeeps(s, caller, c.phase.(stage := Publish));
      AdvanceKeeps(s, caller, c.phase.(stage := Dispatch));
      AdvanceKeeps(s, caller, Failing(c));
      if inline.Some? {
        AdvanceKeeps(s, caller, Completing(c.phase.taskId, ResultOutcome(inline.value)));
      }
    }
  }

  lemma DispatchKeeps(s: System, caller: Id)
    requires SystemSound(s)
    ensures SystemSound(DispatchStep(s, caller))
  {
    if At(s, caller, Dispatch) {
      var c := s.calls[caller];
      var taskId := c.phase.taskId;
      assert CallSound(s, c);
      if !c.plan.synchronous && c.plan.scheduled {
        PublishedKeeps(s, caller, taskId);
      } else {
        var m := Sent(RequestFor(taskId, c.hash, c.plan, 1), c.key);
        SendKeeps(s, m);
        AdvanceKeeps(s.(sent := s.sent + [m]), caller, c.phase.(stage := AwaitStart));
      }
    }
  }

  lemma PublishedKeeps(s: System, caller: Id, taskId: Id)
    requires SystemSound(s) && caller in s.calls
    requires s.calls[caller].phase.Invoking? && s.calls[caller].phase.taskId == taskId
    ensures SystemSound(Advance(s.(tasks := s.tasks + {taskId}), caller, Completing(taskId, TaskOutcome(taskId))))
  {
    assert CallSound(s, s.calls[caller]);
    CallsMoveKeeps(s, Advance(s.(tasks := s.tasks + {taskId}), caller, Completing(taskId, TaskOutcome(taskId))));
  }

  lemma ReceiveKeeps(s: System, caller: Id, reply: StartReply, inline: Option<string>)
    requires SystemSound(s)
    ensures SystemSound(ReceiveStep(s, caller, reply, inline))
  {
    if At(s, caller, AwaitStart) {
      var c := s.calls[caller];
      assert CallSound(s, c);
      AdvanceKeeps(s, caller, c.phase.(stage := Publish));
      AdvanceKeeps(s, caller, Failing(c));
      if inline.Some? {
        AdvanceKeeps(s, caller, Completing(c.phase.taskId, ResultOutcome(inline.value)));
      }
      if reply.StartRejected? {
        AdvanceKeeps(s, caller, Completing(c.phase.taskId, ResultOutcome(reply.reasonCode)));
      }
    }
  }

  lemma ScheduleKeeps(s: System, taskId: Id, attempt: nat)
    requires SystemSound(s)
    ensures SystemSound(SchedulerStep(s, taskId, attempt))
  {
    if taskId in s.tasks && taskId in s.intents {
      SendKeeps(s, Sent(RequestFor(taskId, s.intents[taskId].hash, s.intents[taskId].plan, attempt), None));
    }
  }

  lemma BeginKeeps(s: System, caller: Id, c: Call)
    requires SystemSound(s) && caller !in s.calls && CallSound(s, c)
    ensures SystemSound(s.(calls := s.calls[caller := c]))
  {
    CallsMoveKeeps(s, s.(calls := s.calls[caller := c]));
  }

  lemma BeginPlainKeeps(s: System, caller: Id, hash: Id, plan: Plan, fresh': Id)
    requires SystemSound(s)
    ensures SystemSound(BeginPlain(s, caller, hash, plan, fresh'))
  {
    if caller !in s.calls && fresh' !in s.issued {
      CallsMoveKeeps(s, BeginPlain(s, caller, hash, plan, fresh'));
    }
  }

  lemma EndKeeps(s: System, caller: Id)
    requires SystemSound(s)
    ensures SystemSound(FailStep(s, caller)) && SystemSound(CrashStep(s, caller))
  {
    if caller in s.calls {
      AdvanceKeeps(s, caller, Threw);
      AdvanceKeeps(s, caller, Failing(s.calls[caller]));
    }
  }

  /** Steps at the edge of a call: its beginning, its claim and its end. */
  predicate IsEdge(step: Step) {
    step.DoBeginKeyed? || step.DoBeginPlain? || step.DoRecover? || step.DoFail? || step.DoCrash?
  }

  lemma EdgesKeep(s: System, step: Step)
    requires SystemSound(s) && IsEdge(step)
    ensures SystemSound(SystemStep(s, step))
  {
    match step
    case DoBeginKeyed(caller, key, hash, plan) =>
      if caller !in s.calls {
        BeginKeeps(s, caller, Call(Some(key), hash, plan, Claiming));
      }
    case DoBeginPlain(caller, hash, plan, freshId) => BeginPlainKeeps(s, caller, hash, plan, freshId);
    case DoRecover(caller, taskId) =>
      if caller !in s.calls && taskId in s.intents {
        var intent := s.intents[taskId];
        BeginKeeps(s, caller, Call(None, intent.hash, intent.plan, Invoking(taskId, true, FirstStage(intent.plan))));
      }
    case DoFail(caller) => EndKeeps(s, caller);
    case DoCrash(caller) => EndKeeps(s, caller);
  }

  predicate IsAdmission(step: Step) {
    step.DoAdmit? || step.DoLookUp? || step.DoReconcile?
  }

  lemma AdmissionsKeep(s: System, step: Step)
    requires SystemSound(s) && IsAdmission(step)
    ensures SystemSound(SystemStep(s, step))
  {
    match step
    case DoAdmit(caller) => AdmitKeeps(s, caller);
    case DoLookUp(caller) => LookUpKeeps(s, caller);
    case DoReconcile(caller, inline) => ReconcileKeeps(s, caller, inline);
  }

  predicate IsStart(step: Step) {
    step.DoDispatch? || step.DoReceive? || step.DoPublish?
  }

  lemma StartsKeep(s: System, step: Step)
    requires SystemSound(s) && IsStart(step)
    ensures SystemSound(SystemStep(s, step))
  {
    match step
    case DoDispatch(caller) => DispatchKeeps(s, caller);
    case DoReceive(caller, reply, inline) => ReceiveKeeps(s, caller, reply, inline);
    case DoPublish(caller) =>
      if At(s, caller, Publish) {
        PublishedKeeps(s, caller, s.calls[caller].phase.taskId);
      }
  }

  predicate IsRecordStep(step: Step) {
    step.DoClaim? || step.DoComplete? || step.DoAbandon?
  }

  lemma RecordStepsKeep(s: System, step: Step)
    requires SystemSound(s) && IsRecordStep(step)
    ensures SystemSound(SystemStep(s, step))
  {
    match step
    case DoClaim(caller, freshId, now, leaseMs) => ClaimKeeps(s, caller, freshId, now, leaseMs);
    case DoComplete(caller) => CompleteKeeps(s, caller);
    case DoAbandon(caller, at) => AbandonKeeps(s, caller, at);
  }

  lemma AdapterStepsKeep(s: System, step: Step)
    requires SystemSound(s) && (step.DoSchedule? || step.DoDeliver? || step.DoControl?)
    ensures SystemSound(SystemStep(s, step))
  {
    match step
    case DoSchedule(taskId, attempt) => ScheduleKeeps(s, taskId, attempt);
    case DoDeliver(index) => DeliverKeeps(s, index);
    case DoControl(op) => ControlKeeps(s, op);
  }

  lemma StepKeepsSystem(s: System, step: Step)
    requires SystemSound(s)
    ensures SystemSound(SystemStep(s, step))
  {
    if IsEdge(step) {
      EdgesKeep(s, step);
    } else if IsAdmission(step) {
      AdmissionsKeep(s, step);
    } else if IsStart(step) {
      StartsKeep(s, step);
    } else if IsRecordStep(step) {
      RecordStepsKeep(s, step);
    } else {
      AdapterStepsKeep(s, step);
    }
  }

  lemma {:induction false} SystemSoundAlways(steps: seq<Step>)
    ensures SystemSound(SystemRun(steps))
  {
    if steps != [] {
      SystemSoundAlways(steps[..|steps| - 1]);
      StepKeepsSystem(SystemRun(steps[..|steps| - 1]), steps[|steps| - 1]);
    }
  }

  /* ---------- the theorems ---------- */

  /** All calls of a key that return, return the same outcome; a task outcome is the key's own, published task. */
  lemma SameOutcomeForAll(steps: seq<Step>, a: Id, b: Id)
    requires var s := SystemRun(steps);
      && a in s.calls && b in s.calls && s.calls[a].key.Some? && s.calls[a].key == s.calls[b].key
      && s.calls[a].phase.Returned? && s.calls[b].phase.Returned?
    ensures var s := SystemRun(steps);
      && s.calls[a].phase.outcome == s.calls[b].phase.outcome
      && s.calls[a].hash == s.calls[b].hash
      && s.calls[a].key.value in s.records
      && OutcomeFits(s.tasks, s.records[s.calls[a].key.value].stableTaskId, s.calls[a].phase.outcome)
  {
    SystemSoundAlways(steps);
    var s := SystemRun(steps);
    assert CallSound(s, s.calls[a]) && CallSound(s, s.calls[b]);
    assert RecordSound(s, s.records[s.calls[a].key.value]);
  }

  /** At most one invocation for a key is not a recovery, and all of them use one task id. */
  lemma OneFirstInvocation(steps: seq<Step>, i: nat, j: nat)
    requires var s := SystemRun(steps);
      i < |s.invocations| && j < |s.invocations| && s.invocations[i].key == s.invocations[j].key
    ensures var s := SystemRun(steps);
      && s.invocations[i].taskId == s.invocations[j].taskId
      && (!s.invocations[i].recovering && !s.invocations[j].recovering ==> i == j)
  {
    SystemSoundAlways(steps);
    var s := SystemRun(steps);
    assert Bound(s.records, Some(s.invocations[i].key), s.invocations[i].taskId);
    assert Bound(s.records, Some(s.invocations[j].key), s.invocations[j].taskId);
  }

  /**
   However often a key is called, claimed, recovered and retried, and whatever
   is lost or delivered twice: every start request sent for it names the key's
   one task id, no other key shares that id, at most one start took effect for
   it, and the execution runs the arguments the key was first called with.
   */
  lemma OneStartPerKey(steps: seq<Step>, key: Key)
    requires key in SystemRun(steps).records
    ensures var s := SystemRun(steps);
      var t := s.records[key].stableTaskId;
      && (forall m :: 0 <= m < |s.sent| && s.sent[m].key == Some(key) ==> s.sent[m].req.taskId == t)
      && (forall k :: k in s.records && s.records[k].stableTaskId == t ==> k == key)
      && (forall i, j :: 0 <= i < j < |s.adapter.starts| ==> !(s.adapter.starts[i] == t && s.adapter.starts[j] == t))
      && (t in s.adapter.executions ==> s.adapter.executions[t].argumentHash == s.records[key].argumentHash)
  {
    SystemSoundAlways(steps);
    var s := SystemRun(steps);
    assert RecordSound(s, s.records[key]);
    forall m | 0 <= m < |s.sent| && s.sent[m].key == Some(key)
      ensures s.sent[m].req.taskId == s.records[key].stableTaskId
    {
      assert Bound(s.records, s.sent[m].key, s.sent[m].req.taskId);
    }
  }

  /* ---------- leases over runs ---------- */

  /** The step's caller claims the key. */
  predicate ClaimsKey(s: System, step: Step, key: Key) {
    step.DoClaim? && step.caller in s.calls && s.calls[step.caller].key == Some(key)
  }

  /** The step is the caller's own completion or abandonment. */
  predicate GivesUp(step: Step, caller: Id) {
    (step.DoComplete? || step.DoAbandon?) && step.caller == caller
  }

  lemma RecordsStay(s: System, step: Step)
    requires !IsRecordStep(step)
    ensures SystemStep(s, step).records == s.records
  {
  }

  /**
   A held record passes to another holder only when its lease is over, at both
   readings of the claim; it is completed and given up by its holder only.
   */
  lemma HolderChanges(s: System, step: Step, key: Key, holder: Id)
    requires SystemSound(s) && HeldBy(s.records, key, holder)
    ensures var s' := SystemStep(s, step);
      && key in s'.records
      && (s'.records[key] != s.records[key] ==>
            || GivesUp(step, holder)
            || (ClaimsKey(s, step, key) && step.caller != holder && Lapsed(s.records[key], step.now)
                && HeldBy(s'.records, key, step.caller)))
  {
    if IsRecordStep(step) {
      assert OwnerSound(s, key, s.records[key]);
    } else {
      RecordsStay(s, step);
    }
  }

  /** No claim of the key after `from` in the run finds its lease over, and the holder does not give it up. */
  ghost predicate LeaseLasts(steps: seq<Step>, from: nat, key: Key, holder: Id, expiry: Instant) {
    forall i :: from <= i < |steps| ==>
      && !GivesUp(steps[i], holder)
      && (ClaimsKey(SystemRun(steps[..i]), steps[i], key) ==>
            steps[i].now.find < expiry || steps[i].now.takeOver < expiry)
  }

  /**
   As long as its lease lasts, whatever the other callers, recoverers and the
   adapter do, the holder's record is the one it claimed.
   */
  lemma {:induction false} LeaseProtects(steps: seq<Step>, from: nat, key: Key, holder: Id)
    requires from <= |steps| && HeldBy(SystemRun(steps[..from]).records, key, holder)
    requires LeaseLasts(steps, from, key, holder, SystemRun(steps[..from]).records[key].leaseExpiresAt)
    ensures key in SystemRun(steps).records
    ensures SystemRun(steps).records[key] == SystemRun(steps[..from]).records[key]
    decreases |steps|
  {
    if from < |steps| {
      var front, last := steps[..|steps| - 1], steps[|steps| - 1];
      assert front[..from] == steps[..from];
      assert forall i :: 0 <= i < |front| ==> front[..i] == steps[..i];
      LeaseProtects(front, from, key, holder);
      SystemSoundAlways(front);
      HolderChanges(SystemRun(front), last, key, holder);
    } else {
      assert steps[..from] == steps;
    }
  }

  /** The holder stores what it completes with, and returns it. */
  lemma CompletionStored(s: System, key: Key, holder: Id)
    requires SystemSound(s) && HeldBy(s.records, key, holder)
    requires holder in s.calls && s.calls[holder].phase.Completing?
    ensures var outcome := s.calls[holder].phase.outcome;
      CompleteStep(s, holder)
      == Advance(s.(records := s.records[key := s.records[key].(outcome := Some(outcome), leaseOwner := None)]),
                 holder, Returned(outcome))
  {
    assert OwnerSound(s, key, s.records[key]);
  }

  /** What the holder then completes with is the outcome on record, and what it returns. */
  lemma HolderCompletes(steps: seq<Step>, from: nat, key: Key, holder: Id)
    requires from <= |steps| && HeldBy(SystemRun(steps[..from]).records, key, holder)
    requires LeaseLasts(steps, from, key, holder, SystemRun(steps[..from]).records[key].leaseExpiresAt)
    requires holder in SystemRun(steps).calls && SystemRun(steps).calls[holder].phase.Completing?
    ensures var (s, s') := (SystemRun(steps), CompleteStep(SystemRun(steps), holder));
      && holder in s'.calls && s'.calls[holder].phase == Returned(s.calls[holder].phase.outcome)
      && key in s'.records && s'.records[key].outcome == Some(s.calls[holder].phase.outcome)
      && s'.records[key].stableTaskId == SystemRun(steps[..from]).records[key].stableTaskId
  {
    LeaseProtects(steps, from, key, holder);
    SystemSoundAlways(steps);
    CompletionStored(SystemRun(steps), key, holder);
  }

  /** A call with other arguments than the key was first called with fails, and nothing else changes. */
  lemma OtherArgumentsRefused(s: System, caller: Id, fresh': Id, now: Readings, leaseMs: int)
    requires caller in s.calls && s.calls[caller].phase.Claiming? && s.calls[caller].key.Some? && fresh' !in s.issued
    requires s.calls[caller].key.value in s.records
    requires s.records[s.calls[caller].key.value].argumentHash != s.calls[caller].hash
    ensures ClaimStep(s, caller, fresh', now, leaseMs) == Advance(s, caller, Threw)
  {
  }
}
