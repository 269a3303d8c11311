/**
 How a call gets where it is: every phase of every call goes back to a step of the run
 with what entitles the call to it. So a recovered invocation starts nothing before the
 adapter was asked, and a task is published only once the adapter has accepted it.
 */
module InvocationCauses {
  import opened Basics
  import opened Idempotency
  import opened ReferenceAdapter
  import opened Invocation

  /* ---------- what entitles a call to a phase ---------- */

  /** The step begins an invocation of the task id. */
  ghost predicate BeginsInvocation(s: System, step: Step, o: Id, taskId: Id, recovering: bool) {
    match step
    case DoBeginPlain(caller, _, _, freshId) => caller == o && freshId == taskId && !recovering && freshId !in s.issued
    case DoRecover(caller, id) => caller == o && id == taskId && recovering && id in s.intents
    case DoClaim(caller, _, _, _) => caller == o && o in s.calls && s.calls[o].phase.Claiming?
    case _ => false
  }

  /** The adapter told the call that it knows the task, by its arguments, operation and context, and who it is. */
  ghost predicate FoundAtAdapter(s: System, c: Call, taskId: Id) {
    && taskId in s.adapter.executions
    && var e := s.adapter.executions[taskId];
    && e.argumentHash == c.hash && e.operationName == c.plan.operationName && e.context == c.plan.context
    && e.scenario != "reconcile_identity_mismatch" && e.scenario != "get_transient_failure"
  }

  /** The adapter accepted the start of this very task. */
  ghost predicate AcceptedBy(step: Step, o: Id, taskId: Id) {
    step.DoReceive? && step.caller == o && step.reply.StartAccepted? && step.reply.taskId == taskId
  }

  ghost predicate StageEntered(s: System, step: Step, o: Id, c: Call, taskId: Id, recovering: bool, stage: Stage) {
    match stage
    case Admit => BeginsInvocation(s, step, o, taskId, recovering) && !c.plan.synchronous
    case LookUp => step == DoAdmit(o) && (taskId in s.intents || recovering)
    case Reconciling => step == DoLookUp(o) && taskId !in s.tasks
    case Dispatch =>
      || (BeginsInvocation(s, step, o, taskId, recovering) && c.plan.synchronous)
      || (step == DoAdmit(o) && taskId !in s.intents && !recovering)
      || (step.DoReconcile? && step.caller == o && taskId !in s.adapter.executions)
    case AwaitStart => step == DoDispatch(o) && (c.plan.synchronous || !c.plan.scheduled)
    case Publish =>
      || (step.DoReconcile? && step.caller == o && FoundAtAdapter(s, c, taskId))
      || (AcceptedBy(step, o, taskId) && !c.plan.synchronous)
  }

  /** Why a call completes with this outcome. */
  ghost predicate CompletionEntered(s: System, step: Step, o: Id, c: Call, taskId: Id, outcome: Outcome) {
    match outcome
    case TaskOutcome(id) =>
      id == taskId
      && (|| (step == DoLookUp(o) && taskId in s.tasks)
          || (step == DoDispatch(o) && c.plan.scheduled && !c.plan.synchronous)
          || (step == DoPublish(o)))
    case ResultOutcome(result) =>
      || (step.DoReconcile? && step.caller == o && FoundAtAdapter(s, c, taskId) && step.inline == Some(result))
      || (AcceptedBy(step, o, taskId) && step.inline == Some(result))
      || (step.DoReceive? && step.caller == o && step.reply.StartRejected? && step.reply.reasonCode == result)
  }

  /** Why a call gives its lease back, or fails. */
  ghost predicate FailureEntered(s: System, step: Step, o: Id, c: Call) {
    || ((step.DoFail? || step.DoCrash? || step.DoAbandon?) && step.caller == o)
    || (step.DoReconcile? && step.caller == o && c.phase.Invoking? && c.phase.taskId in s.adapter.executions
        && !FoundAtAdapter(s, c, c.phase.taskId))
    || (step.DoReceive? && step.caller == o && c.phase.Invoking?
        && (|| step.reply.StartError?
            || (step.reply.StartAccepted? && step.reply.taskId != c.phase.taskId)
            || (step.reply.StartAccepted? && c.plan.synchronous && step.inline.None?)))
    || (step == DoComplete(o) && c.key.Some? && !HeldBy(s.records, c.key.value, o)
        && (c.key.value in s.records ==> s.records[c.key.value].outcome.None?))
    || (step.DoClaim? && step.caller == o && c.key.Some? && c.key.value in s.records
        && s.records[c.key.value].argumentHash != c.hash)
  }

  ghost predicate ReturnEntered(s: System, step: Step, o: Id, c: Call, outcome: Outcome) {
    || (step.DoClaim? && step.caller == o && c.key.Some? && c.key.value in s.records
        && s.records[c.key.value].outcome == Some(outcome) && s.records[c.key.value].argumentHash == c.hash)
    || (step == DoComplete(o) && c.phase.Completing?
        && (|| (c.key.None? && outcome == c.phase.outcome)
            || (c.key.Some? && HeldBy(s.records, c.key.value, o) && outcome == c.phase.outcome)
            || (c.key.Some? && c.key.value in s.records && s.records[c.key.value].outcome == Some(outcome))))
  }

  /** The step entitles call `o`, which was `c` before it or has just begun, to its phase. */
  ghost predicate Entered(s: System, step: Step, o: Id, c: Call, phase: Phase) {
    match phase
    case Claiming => step.DoBeginKeyed? && step.caller == o && o !in s.calls
    case Invoking(taskId, recovering, stage) => StageEntered(s, step, o, c, taskId, recovering, stage)
    case Completing(taskId, outcome) => CompletionEntered(s, step, o, c, taskId, outcome)
    case Returned(outcome) => ReturnEntered(s, step, o, c, outcome)
    case Abandoning => FailureEntered(s, step, o, c)
    case Threw => FailureEntered(s, step, o, c)
  }

  /** A call that is new or has moved was entitled to. */
  ghost predicate Explained(s: System, step: Step, s': System, o: Id) {
    o in s'.calls && (o !in s.calls || s.calls[o] != s'.calls[o]) ==>
      Entered(s, step, o, if o in s.calls then s.calls[o] else s'.calls[o], s'.calls[o].phase)
  }

  /* ---------- every step ---------- */

  lemma BeginExplained(s: System, step: Step, o: Id)
    requires step.DoBeginKeyed? || step.DoBeginPlain? || step.DoRecover?
    ensures Explained(s, step, SystemStep(s, step), o)
  {
  }

  lemma FailExplained(s: System, step: Step, o: Id)
    requires step.DoFail? || step.DoCrash? || step.DoAbandon?
    ensures Explained(s, step, SystemStep(s, step), o)
  {
  }

  lemma ClaimExplained(s: System, step: Step, o: Id)
    requires step.DoClaim?
    ensures Explained(s, step, SystemStep(s, step), o)
  {
  }

  lemma CompleteExplained(s: System, step: Step, o: Id)
    requires step.DoComplete?
    ensures Explained(s, step, SystemStep(s, step), o)
  {
  }

  lemma AdmissionExplained(s: System, step: Step, o: Id)
    requires step.DoAdmit? || step.DoLookUp?
    ensures Explained(s, step, SystemStep(s, step), o)
  {
  }

  /** What reconciling tells the call. */
  function Answer(s: System, c: Call): ReconcileReply
    requires c.phase.Invoking?
  {
    Reconcile(s.adapter, c.phase.taskId, c.plan.operationName, c.hash, c.plan.context, None)
  }

  lemma FoundExplained(s: System, step: Step)
    requires step.DoReconcile? && At(s, step.caller, Reconciling) && Answer(s, s.calls[step.caller]).Found?
    ensures Explained(s, step, SystemStep(s, step), step.caller)
  {
    var c := s.calls[step.caller];
    assert Answer(s, c).genuine <==> FoundAtAdapter(s, c, c.phase.taskId);
  }

  lemma NotFoundExplained(s: System, step: Step)
    requires step.DoReconcile? && At(s, step.caller, Reconciling) && !Answer(s, s.calls[step.caller]).Found?
    ensures Explained(s, step, SystemStep(s, step), step.caller)
  {
  }

  lemma ReconcileExplained(s: System, step: Step, o: Id)
    requires step.DoReconcile?
    ensures Explained(s, step, SystemStep(s, step), o)
  {
    if At(s, step.caller, Reconciling) && o == step.caller {
      if Answer(s, s.calls[o]).Found? {
        FoundExplained(s, step);
      } else {
        NotFoundExplained(s, step);
      }
    }
  }

  lemma StartExplained(s: System, step: Step, o: Id)
    requires step.DoDispatch? || step.DoPublish?
    ensures Explained(s, step, SystemStep(s, step), o)
  {
  }

  lemma AcceptanceExplained(s: System, step: Step)
    requires step.DoReceive? && At(s, step.caller, AwaitStart) && step.reply.StartAccepted?
    ensures Explained(s, step, SystemStep(s, step), step.caller)
  {
  }

  lemma RefusalExplained(s: System, step: Step)
    requires step.DoReceive? && At(s, step.caller, AwaitStart) && !step.reply.StartAccepted?
    ensures Explained(s, step, SystemStep(s, step), step.caller)
  {
  }

  lemma ReceiveExplained(s: System, step: Step, o: Id)
    requires step.DoReceive?
    ensures Explained(s, step, SystemStep(s, step), o)
  {
    if At(s, step.caller, AwaitStart) && o == step.caller {
      if step.reply.StartAccepted? {
        AcceptanceExplained(s, step);
      } else {
        RefusalExplained(s, step);
      }
    }
  }

  lemma AdapterExplained(s: System, step: Step, o: Id)
    requires step.DoSchedule? || step.DoDeliver? || step.DoControl?
    ensures Explained(s, step, SystemStep(s, step), o)
  {
  }

  lemma StepExplained(s: System, step: Step, o: Id)
    ensures Explained(s, step, SystemStep(s, step), o)
  {
    if step.DoBeginKeyed? || step.DoBeginPlain? || step.DoRecover? {
      BeginExplained(s, step, o);
    } else if step.DoFail? || step.DoCrash? || step.DoAbandon? {
      FailExplained(s, step, o);
    } else if step.DoClaim? {
      ClaimExplained(s, step, o);
    } else if step.DoComplete? {
      CompleteExplained(s, step, o);
    } else if step.DoAdmit? || step.DoLookUp? {
      AdmissionExplained(s, step, o);
    } else if step.DoReconcile? {
      ReconcileExplained(s, step, o);
    } else if step.DoDispatch? || step.DoPublish? {
      StartExplained(s, step, o);
    } else if step.DoReceive? {
      ReceiveExplained(s, step, o);
    } else {
      AdapterExplained(s, step, o);
    }
  }

  /* ---------- over runs ---------- */

  /** What a call is besides its phase never changes. */
  predicate SameCall(c: Call, c': Call) {
    c'.key == c.key && c'.hash == c.hash && c'.plan == c.plan
  }

  ghost predicate CallKept(s: System, s': System, o: Id) {
    o in s.calls ==> o in s'.calls && SameCall(s.calls[o], s'.calls[o])
  }

  lemma RecordStepsStay(s: System, step: Step, o: Id)
    requires step.DoClaim? || step.DoComplete? || step.DoAbandon?
    ensures CallKept(s, SystemStep(s, step), o)
  {
  }

  lemma EdgesStay(s: System, step: Step, o: Id)
    requires IsEdge(step)
    ensures CallKept(s, SystemStep(s, step), o)
  {
  }

  lemma AdmissionsStay(s: System, step: Step, o: Id)
    requires IsAdmission(step)
    ensures CallKept(s, SystemStep(s, step), o)
  {
  }

  lemma StartsStay(s: System, step: Step, o: Id)
    requires IsStart(step)
    ensures CallKept(s, SystemStep(s, step), o)
  {
  }

  lemma AdapterStepsStay(s: System, step: Step, o: Id)
    requires step.DoSchedule? || step.DoDeliver? || step.DoControl?
    ensures CallKept(s, SystemStep(s, step), o)
  {
  }

  lemma CallStays(s: System, step: Step, o: Id)
    ensures CallKept(s, SystemStep(s, step), o)
  {
    if IsEdge(step) {
      EdgesStay(s, step, o);
    } else if IsAdmission(step) {
      AdmissionsStay(s, step, o);
    } else if IsStart(step) {
      StartsStay(s, step, o);
    } else if IsRecordStep(step) {
      RecordStepsStay(s, step, o);
    } else {
      AdapterStepsStay(s, step, o);
    }
  }

  /** Step `k` of the run brought the call into the phase it is in. */
  ghost predicate EnteredAt(steps: seq<Step>, k: nat, o: Id, call: Call) {
    && k < |steps|
    && var s := SystemRun(steps[..k]);
    && (o in s.calls ==> SameCall(s.calls[o], call))
    && Entered(s, steps[k], o, if o in s.calls then s.calls[o] else call, call.phase)
  }

  /** Every phase of every call goes back to a step that entitled the call to it. */
  lemma {:induction false} PhaseHasACause(steps: seq<Step>, o: Id)
    requires o in SystemRun(steps).calls
    ensures exists k: nat :: EnteredAt(steps, k, o, SystemRun(steps).calls[o])
  {
    var n := |steps| - 1;
    var front := steps[..n];
    var s, call := SystemRun(front), SystemRun(steps).calls[o];
    if o in s.calls && s.calls[o] == call {
      PhaseHasACause(front, o);
      var k: nat :| EnteredAt(front, k, o, call);
      assert front[..k] == steps[..k] && front[k] == steps[k];
      assert EnteredAt(steps, k, o, call);
    } else {
      StepExplained(s, steps[n], o);
      if o in s.calls {
        CallStays(s, steps[n], o);
      }
      assert EnteredAt(steps, n, o, call);
    }
  }

  /** Step `k` of the run asked the adapter, which did not know the task. */
  ghost predicate UnknownAt(steps: seq<Step>, k: nat, o: Id, taskId: Id) {
    && k < |steps| && steps[k].DoReconcile? && steps[k].caller == o
    && taskId !in SystemRun(steps[..k]).adapter.executions
  }

  /** Step `k` of the run admitted the task for the first time. */
  ghost predicate FirstAdmittedAt(steps: seq<Step>, k: nat, o: Id, taskId: Id) {
    k < |steps| && steps[k] == DoAdmit(o) && taskId !in SystemRun(steps[..k]).intents
  }

  lemma DispatchHasACause(steps: seq<Step>, k: nat, o: Id, call: Call)
    requires EnteredAt(steps, k, o, call) && !call.plan.synchronous
    requires call.phase.Invoking? && call.phase.stage.Dispatch?
    ensures UnknownAt(steps, k, o, call.phase.taskId)
         || (FirstAdmittedAt(steps, k, o, call.phase.taskId) && !call.phase.recovering)
  {
  }

  /**
   A recovered invocation of an asynchronous call that is about to send a start was
   told before, by the adapter, that it does not know the task.
   */
  lemma RecoveryAsksFirst(steps: seq<Step>, o: Id)
    requires At(SystemRun(steps), o, Dispatch)
    requires SystemRun(steps).calls[o].phase.recovering && !SystemRun(steps).calls[o].plan.synchronous
    ensures exists k: nat :: UnknownAt(steps, k, o, SystemRun(steps).calls[o].phase.taskId)
  {
    PhaseHasACause(steps, o);
    var k: nat :| EnteredAt(steps, k, o, SystemRun(steps).calls[o]);
    DispatchHasACause(steps, k, o, SystemRun(steps).calls[o]);
  }

  /** Any asynchronous call sends one only if it was the first to admit the task, or was told so. */
  lemma StartsOnceAdmitted(steps: seq<Step>, o: Id)
    requires At(SystemRun(steps), o, Dispatch) && !SystemRun(steps).calls[o].plan.synchronous
    ensures var taskId := SystemRun(steps).calls[o].phase.taskId;
      exists k: nat :: FirstAdmittedAt(steps, k, o, taskId) || UnknownAt(steps, k, o, taskId)
  {
    PhaseHasACause(steps, o);
    var k: nat :| EnteredAt(steps, k, o, SystemRun(steps).calls[o]);
    DispatchHasACause(steps, k, o, SystemRun(steps).calls[o]);
  }

  /** A task is published by a call that scheduled it, or that learnt from the adapter that it is under way. */
  ghost predicate PublishedBy(steps: seq<Step>, k: nat, taskId: Id) {
    && k < |steps| && (steps[k].DoDispatch? || steps[k].DoPublish?)
    && var (s, o) := (SystemRun(steps[..k]), steps[k].caller);
    && o in s.calls && s.calls[o].phase.Invoking? && s.calls[o].phase.taskId == taskId
    && (steps[k].DoDispatch? ==> s.calls[o].plan.scheduled && s.calls[o].phase.stage.Dispatch?)
    && (steps[k].DoPublish? ==>
          s.calls[o].phase.stage.Publish? && Learnt(steps, k, o, s.calls[o], taskId))
  }

  ghost predicate LearntAt(steps: seq<Step>, j: nat, o: Id, c: Call, taskId: Id) {
    && j < |steps|
    && (|| AcceptedBy(steps[j], o, taskId)
        || (steps[j].DoReconcile? && steps[j].caller == o && FoundAtAdapter(SystemRun(steps[..j]), c, taskId)))
  }

  ghost predicate Learnt(steps: seq<Step>, n: nat, o: Id, c: Call, taskId: Id) {
    exists j: nat :: j < n && LearntAt(steps, j, o, c, taskId)
  }

  lemma TasksGrow(s: System, step: Step, taskId: Id)
    requires taskId in SystemStep(s, step).tasks && taskId !in s.tasks
    ensures (step.DoDispatch? && At(s, step.caller, Dispatch) && s.calls[step.caller].plan.scheduled
             && s.calls[step.caller].phase.taskId == taskId)
         || (step.DoPublish? && At(s, step.caller, Publish) && s.calls[step.caller].phase.taskId == taskId)
  {
  }

  lemma PublicationLearnt(steps: seq<Step>, o: Id)
    requires At(SystemRun(steps), o, Publish)
    ensures Learnt(steps, |steps|, o, SystemRun(steps).calls[o], SystemRun(steps).calls[o].phase.taskId)
  {
    var call := SystemRun(steps).calls[o];
    PhaseHasACause(steps, o);
    var j: nat :| EnteredAt(steps, j, o, call);
    PublishingHasACause(steps, j, o, call);
  }

  lemma PublishingHasACause(steps: seq<Step>, j: nat, o: Id, call: Call)
    requires EnteredAt(steps, j, o, call) && call.phase.Invoking? && call.phase.stage.Publish?
    ensures LearntAt(steps, j, o, call, call.phase.taskId)
  {
  }

  lemma {:induction false} PublicationHasACause(steps: seq<Step>, taskId: Id)
    requires taskId in SystemRun(steps).tasks
    ensures exists k: nat :: PublishedBy(steps, k, taskId)
  {
    var n := |steps| - 1;
    var front := steps[..n];
    if taskId in SystemRun(front).tasks {
      PublicationHasACause(front, taskId);
      var k: nat :| PublishedBy(front, k, taskId);
      PublishedStays(steps, k, taskId);
    } else {
      TasksGrow(SystemRun(front), steps[n], taskId);
      if steps[n].DoPublish? {
        PublicationLearnt(front, steps[n].caller);
        LearntStays(steps, n, steps[n].caller, SystemRun(front).calls[steps[n].caller], taskId);
      }
      assert PublishedBy(steps, n, taskId);
    }
  }

  lemma LearntStays(steps: seq<Step>, n: nat, o: Id, c: Call, taskId: Id)
    requires steps != [] && n < |steps| && Learnt(steps[..|steps| - 1], n, o, c, taskId)
    ensures Learnt(steps, n, o, c, taskId)
  {
    var front := steps[..|steps| - 1];
    var j: nat :| j < n && LearntAt(front, j, o, c, taskId);
    assert front[..j] == steps[..j];
    assert LearntAt(steps, j, o, c, taskId);
  }

  lemma PublishedStays(steps: seq<Step>, k: nat, taskId: Id)
    requires steps != [] && PublishedBy(steps[..|steps| - 1], k, taskId)
    ensures PublishedBy(steps, k, taskId)
  {
    var front := steps[..|steps| - 1];
    assert front[..k] == steps[..k];
    if steps[k].DoPublish? {
      LearntStays(steps, k, steps[k].caller, SystemRun(front[..k]).calls[steps[k].caller], taskId);
    }
  }

  /* ---------- intents and requests ---------- */

  /** Step `k` of the run, an admission, recorded the arguments and the plan of its call. */
  ghost predicate AdmittedBy(steps: seq<Step>, k: nat, taskId: Id, intent: Intent) {
    && k < |steps| && steps[k].DoAdmit?
    && var s := SystemRun(steps[..k]);
    && At(s, steps[k].caller, Admit) && taskId !in s.intents
    && s.calls[steps[k].caller].phase.taskId == taskId
    && s.calls[steps[k].caller].hash == intent.hash && s.calls[steps[k].caller].plan == intent.plan
  }

  lemma IntentsGrow(s: System, step: Step, taskId: Id)
    requires taskId in SystemStep(s, step).intents
    ensures taskId in s.intents ==> SystemStep(s, step).intents[taskId] == s.intents[taskId]
    ensures taskId !in s.intents ==>
      && step.DoAdmit? && At(s, step.caller, Admit) && s.calls[step.caller].phase.taskId == taskId
      && SystemStep(s, step).intents[taskId] == Intent(s.calls[step.caller].hash, s.calls[step.caller].plan)
  {
    if !step.DoAdmit? {
      IntentsStay(s, step);
    }
  }

  lemma IntentsStay(s: System, step: Step)
    requires !step.DoAdmit?
    ensures SystemStep(s, step).intents == s.intents
  {
  }

  /** Every admission intent is that of the call that first admitted the task. */
  lemma {:induction false} IntentHasACause(steps: seq<Step>, taskId: Id)
    requires taskId in SystemRun(steps).intents
    ensures exists k: nat :: AdmittedBy(steps, k, taskId, SystemRun(steps).intents[taskId])
  {
    var n := |steps| - 1;
    var front, intent := steps[..n], SystemRun(steps).intents[taskId];
    IntentsGrow(SystemRun(front), steps[n], taskId);
    if taskId in SystemRun(front).intents {
      IntentHasACause(front, taskId);
      var k: nat :| AdmittedBy(front, k, taskId, intent);
      assert front[..k] == steps[..k];
      assert AdmittedBy(steps, k, taskId, intent);
    } else {
      assert AdmittedBy(steps, n, taskId, intent);
    }
  }

  /** The request asks for the task with these arguments, as planned. */
  predicate AsksFor(req: StartRequest, taskId: Id, hash: Id, plan: Plan, attempt: nat) {
    && req.taskId == taskId && req.argumentHash == hash && req.invocationAttempt == attempt
    && req.operationName == plan.operationName && req.reservationRef == plan.reservationRef
    && req.context == plan.context && req.scenario == plan.scenario && req.message == plan.message
  }

  /** The step sends what its call, or the scheduler for an admitted task, has to ask for. */
  ghost predicate Sends(s: System, step: Step, m: Sent) {
    || (step.DoDispatch? && At(s, step.caller, Dispatch) && m.key == s.calls[step.caller].key
        && AsksFor(m.req, s.calls[step.caller].phase.taskId, s.calls[step.caller].hash, s.calls[step.caller].plan, 1))
    || (step.DoSchedule? && step.taskId in s.tasks && step.taskId in s.intents && m.key.None?
        && AsksFor(m.req, step.taskId, s.intents[step.taskId].hash, s.intents[step.taskId].plan, step.attempt))
  }

  ghost predicate SentAt(steps: seq<Step>, k: nat, m: Sent) {
    k < |steps| && Sends(SystemRun(steps[..k]), steps[k], m)
  }

  lemma SentGrows(s: System, step: Step)
    ensures var sent := SystemStep(s, step).sent;
      sent == s.sent || (|sent| == |s.sent| + 1 && sent[..|s.sent|] == s.sent && Sends(s, step, sent[|s.sent|]))
  {
    if !step.DoDispatch? && !step.DoSchedule? {
      SentStays(s, step);
    }
  }

  lemma SentStays(s: System, step: Step)
    requires !step.DoDispatch? && !step.DoSchedule?
    ensures SystemStep(s, step).sent == s.sent
  {
  }

  /** Every start request ever sent asks for what its call, or the intent of its task, says. */
  lemma {:induction false} RequestHasACause(steps: seq<Step>, i: nat)
    requires i < |SystemRun(steps).sent|
    ensures exists k: nat :: SentAt(steps, k, SystemRun(steps).sent[i])
  {
    var n := |steps| - 1;
    var front := steps[..n];
    SentGrows(SystemRun(front), steps[n]);
    if i < |SystemRun(front).sent| {
      RequestHasACause(front, i);
      var k: nat :| SentAt(front, k, SystemRun(front).sent[i]);
      assert front[..k] == steps[..k] && front[k] == steps[k];
      assert SentAt(steps, k, SystemRun(steps).sent[i]);
    } else {
      assert SentAt(steps, n, SystemRun(steps).sent[i]);
    }
  }
}
