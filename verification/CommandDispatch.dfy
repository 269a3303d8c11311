/** Commands of a task, retried against the adapter. */
module CommandDispatch {
  import opened Basics
  import opened TaskTables
  import opened TaskInput
  import opened ReferenceAdapter

  function ControlFor(kind: CommandType): ControlKind {
    match kind
    case CancelCommand => CancelControl
    case UpdateCommand => UpdateControl
    case PauseCommand => PauseControl
    case ResumeCommand => ResumeControl
  }

  /** A command asks the adapter for what it is. */
  lemma ControlsExactly(kind: CommandType)
    ensures ControlFor(kind).CancelControl? <==> kind.CancelCommand?
    ensures ControlFor(kind).UpdateControl? <==> kind.UpdateCommand?
    ensures ControlFor(kind).PauseControl? <==> kind.PauseCommand?
    ensures ControlFor(kind).ResumeControl? <==> kind.ResumeCommand?
  {
  }

  /** After the first `n` transactions on the task its command `sequence` is claimed, and is of that kind. */
  predicate ClaimedAt(history: seq<TaskOp>, n: nat, key: AckKey) {
    && n <= |history|
    && 1 <= key.sequence <= |TaskRun(history[..n]).commands|
    && TaskRun(history[..n]).commands[key.sequence - 1].state.Claimed?
    && ControlFor(TaskRun(history[..n]).commands[key.sequence - 1].kind) == key.kind
  }

  /** The dispatcher sends a request only for a command it has claimed, at whatever time and however often. */
  ghost predicate Dispatched(history: seq<TaskOp>, taskId: Id, requests: seq<AdapterOp>) {
    forall i :: 0 <= i < |requests| && ControlOf(requests[i]).Some? && ControlOf(requests[i]).value.taskId == taskId ==>
      exists n :: ClaimedAt(history, n, ControlOf(requests[i]).value.key)
  }

  lemma CommandStays(before: seq<TaskOp>, after: seq<TaskOp>, i: nat)
    requires i < |TaskRun(before).commands|
    ensures i < |TaskRun(before + after).commands|
    ensures TaskRun(before + after).commands[i].kind == TaskRun(before).commands[i].kind
  {
    InputKeptOver(before, after);
    KeptKind(TaskRun(before), TaskRun(before + after), i);
  }

  lemma KeptKind(d: TaskTable, d': TaskTable, i: nat)
    requires InputKept(d, d') && i < |d.commands|
    ensures i < |d'.commands| && d'.commands[i].kind == d.commands[i].kind
  {
  }

  lemma KindStays(history: seq<TaskOp>, n: nat, key: AckKey)
    requires ClaimedAt(history, n, key)
    ensures KindIn(history, key.sequence) == key.kind
  {
    var before, after := history[..n], history[n..];
    assert before + after == history;
    CommandStays(before, after, key.sequence - 1);
  }

  function KindIn(history: seq<TaskOp>, sequence: nat): ControlKind {
    if 1 <= sequence <= |TaskRun(history).commands| then ControlFor(TaskRun(history).commands[sequence - 1].kind)
    else CancelControl
  }

  lemma DispatchedKinds(history: seq<TaskOp>, taskId: Id, requests: seq<AdapterOp>, kinds: nat -> ControlKind)
    requires Dispatched(history, taskId, requests)
    requires forall s: nat :: kinds(s) == KindIn(history, s)
    ensures KindsFixed(requests, taskId, kinds)
  {
    forall r | 0 <= r < |requests| && ControlOf(requests[r]).Some? && ControlOf(requests[r]).value.taskId == taskId
      ensures ControlOf(requests[r]).value.key.kind == kinds(ControlOf(requests[r]).value.key.sequence)
    {
      var key := ControlOf(requests[r]).value.key;
      var n :| ClaimedAt(history, n, key);
      KindStays(history, n, key);
    }
  }

  /**
   Over every run of a task and every delivery, loss and repetition of the requests
   sent for its claimed commands, each command takes effect at the adapter at most once.
   */
  lemma OneEffectPerCommand(history: seq<TaskOp>, taskId: Id, requests: seq<AdapterOp>, i: nat, j: nat)
    requires Dispatched(history, taskId, requests)
    requires i < |AdapterRun(requests).controls| && j < |AdapterRun(requests).controls|
    requires AdapterRun(requests).controls[i].taskId == taskId == AdapterRun(requests).controls[j].taskId
    requires AdapterRun(requests).controls[i].key.sequence == AdapterRun(requests).controls[j].key.sequence
    ensures i == j
  {
    var kinds := (s: nat) => KindIn(history, s);
    DispatchedKinds(history, taskId, requests, kinds);
    AtMostOneControl(requests, taskId, kinds, i, j);
  }
}
