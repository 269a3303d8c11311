/**
 What an adapter snapshot means: which state leads where, what of the reported
 result is kept, and what the task row shows once the snapshot is applied.
 */
module TaskResults {
  import opened Basics
  import opened TaskTables
  import opened TaskLifecycle

  /* ---------- the result payload ---------- */

  /** `sanitizeResultPayload` on an object: field by field. */
  method SanitizeFields(fields: map<string, Json>) returns (filtered: map<string, Json>)
    ensures filtered == Sanitized(Some(Fields(fields)))
  {
    filtered := map[];
    var remaining := fields.Keys;
    while remaining != {}
      invariant remaining <= fields.Keys
      invariant filtered == map key | key in fields.Keys - remaining && key in Sanitized(Some(Fields(fields))) ::
        fields[key]
      decreases remaining
    {
      var key :| key in remaining;
      remaining := remaining - {key};
      if key !in RESERVED_FIELDS + INHERITED_FIELDS {
        filtered := filtered[key := fields[key]];
      }
    }
  }

  /** The fields of a completed task's structured content. */
  ghost function Content(tr: Transition): map<string, Json> {
    if tr.result.Some? && tr.result.value.BusinessResult? then tr.result.value.content else map[]
  }

  /** What the adapter reported under a name, if anything. */
  ghost function Reported(snapshot: Snapshot, key: string): Option<Json> {
    match snapshot.result
    case None => None
    case Some(OtherValue(value)) => if key == "value" then Some(value) else None
    case Some(Fields(fields)) => if key in fields then Some(fields[key]) else None
  }

  /** Exactly the reported fields that are neither reserved nor inherited are kept, as reported. */
  lemma SanitizedKeeps(snapshot: Snapshot, key: string)
    ensures var kept := Sanitized(snapshot.result);
      && (key in kept <==> key !in RESERVED_FIELDS && key !in INHERITED_FIELDS && Reported(snapshot, key).Some?)
      && (key in kept ==> Reported(snapshot, key) == Some(kept[key]))
  {
  }

  /** The structured content of a business failure: the runtime's four fields, and what is kept of the adapter's. */
  ghost predicate FailureFits(content: map<string, Json>, snapshot: Snapshot, outcome: string, completedAt: string) {
    && RESERVED_FIELDS <= content.Keys
    && content["outcome"] == outcome && content["completedAt"] == completedAt
    && (snapshot.reasonCode != "" ==> content["reasonCode"] == snapshot.reasonCode)
    && (content["retryable"] == "true" <==> snapshot.retryable)
  }

  lemma FailureContent(snapshot: Snapshot, outcome: string, defaultReason: string, completedAt: string, key: string)
    ensures var content := FailureOf(snapshot, outcome, defaultReason, completedAt).content;
      && FailureFits(content, snapshot, outcome, completedAt)
      && (key !in RESERVED_FIELDS ==> (key in content <==> key in Sanitized(snapshot.result)))
      && (key !in RESERVED_FIELDS && key in content ==> content[key] == Sanitized(snapshot.result)[key])
  {
    SanitizedKeeps(snapshot, "outcome");
    SanitizedKeeps(snapshot, "reasonCode");
    SanitizedKeeps(snapshot, "retryable");
    SanitizedKeeps(snapshot, "completedAt");
  }

  /** The document of each business ending. */
  lemma EndingDocuments(snapshot: Snapshot, completedAt: string)
    requires snapshot.state in BUSINESS_ENDINGS
    ensures MapAdapterSnapshot(snapshot, completedAt).Some?
    ensures MapAdapterSnapshot(snapshot, completedAt).value.result
         == Some(if snapshot.state == "SUCCEEDED" then SuccessOf(snapshot)
                 else if snapshot.state == "BUSINESS_FAILED" then
                   FailureOf(snapshot, "business_failure", "BUSINESS_FAILURE", completedAt)
                 else FailureOf(snapshot, "partial_completion", "PARTIAL_COMPLETION", completedAt))
  {
  }

  /**
   An adapter cannot set a reserved field: in a success there is none, in a failure
   it is the runtime's. Every other field is exactly what the adapter reported,
   except that names every object inherits are dropped.
   */
  lemma ReservedFieldsAreTheRuntimes(snapshot: Snapshot, completedAt: string, key: string)
    requires snapshot.state in BUSINESS_ENDINGS
    ensures MapAdapterSnapshot(snapshot, completedAt).Some?
    ensures var content := Content(MapAdapterSnapshot(snapshot, completedAt).value);
      && (snapshot.state == "SUCCEEDED" && key in RESERVED_FIELDS ==> key !in content)
      && (snapshot.state == "BUSINESS_FAILED" ==> FailureFits(content, snapshot, "business_failure", completedAt))
      && (snapshot.state == "PARTIALLY_COMPLETED" ==>
            FailureFits(content, snapshot, "partial_completion", completedAt))
      && (key !in RESERVED_FIELDS ==>
            && (key in content <==> key !in INHERITED_FIELDS && Reported(snapshot, key).Some?)
            && (key in content ==> Reported(snapshot, key) == Some(content[key])))
  {
    EndingDocuments(snapshot, completedAt);
    SanitizedKeeps(snapshot, key);
    FailureContent(snapshot, "business_failure", "BUSINESS_FAILURE", completedAt, key);
    FailureContent(snapshot, "partial_completion", "PARTIAL_COMPLETION", completedAt, key);
  }

  /** So a reported field is lost exactly if its name is reserved or inherited, as `constructor` is. */
  lemma FieldsLostExactly(fields: map<string, Json>, key: string)
    requires key in fields
    ensures key !in Sanitized(Some(Fields(fields))) <==> key in RESERVED_FIELDS || key in INHERITED_FIELDS
    ensures key in Sanitized(Some(Fields(fields))) ==> Sanitized(Some(Fields(fields)))[key] == fields[key]
    ensures "constructor" !in Sanitized(Some(Fields(map["constructor" := "x"])))
  {
  }

  /* ---------- states ---------- */

  const WORKING_STATES := {"ACCEPTED", "SCHEDULED", "QUEUED", "RUNNING", "PAUSED", "RESUMING", "STOPPING"}

  const BUSINESS_ENDINGS := {"SUCCEEDED", "BUSINESS_FAILED", "PARTIALLY_COMPLETED"}

  const KNOWN_STATES := WORKING_STATES + BUSINESS_ENDINGS + {"WAITING_INPUT", "CANCELLED", "TECHNICAL_FAILED"}

  lemma WorkingAdmissible(snapshot: Snapshot, completedAt: string)
    requires snapshot.state in WORKING_STATES
    ensures MapAdapterSnapshot(snapshot, completedAt).Some?
    ensures Admissible(MapAdapterSnapshot(snapshot, completedAt).value)
  {
  }

  lemma SnapshotsAdmissible(snapshot: Snapshot, completedAt: string)
    requires MapAdapterSnapshot(snapshot, completedAt).Some?
    ensures Admissible(MapAdapterSnapshot(snapshot, completedAt).value)
  {
    if snapshot.state in WORKING_STATES {
      WorkingAdmissible(snapshot, completedAt);
    }
  }

  /** Unknown states are refused, and each kind of status has exactly its states. */
  lemma StatusExactly(snapshot: Snapshot, completedAt: string)
    ensures MapAdapterSnapshot(snapshot, completedAt).None? <==> snapshot.state !in KNOWN_STATES
    ensures MapAdapterSnapshot(snapshot, completedAt).Some? ==>
      var tr := MapAdapterSnapshot(snapshot, completedAt).value;
      && (tr.mcpStatus.Working? <==> snapshot.state in WORKING_STATES)
      && (tr.mcpStatus.NeedsInput? <==> snapshot.state == "WAITING_INPUT")
      && (tr.mcpStatus.Completed? <==> snapshot.state in BUSINESS_ENDINGS)
      && (tr.mcpStatus.Cancelled? <==> snapshot.state == "CANCELLED")
      && (tr.mcpStatus.Failed? <==> snapshot.state == "TECHNICAL_FAILED")
      && tr.statusMessage == snapshot.message
  {
  }

  /** A working task is shown in the state the adapter reports. */
  lemma WorkingExactly(snapshot: Snapshot, completedAt: string)
    requires MapAdapterSnapshot(snapshot, completedAt).Some?
    ensures var tr := MapAdapterSnapshot(snapshot, completedAt).value;
      && (tr.internalState.Queued? <==> snapshot.state in {"ACCEPTED", "SCHEDULED", "QUEUED"})
      && (tr.internalState.Running? <==> snapshot.state == "RUNNING")
      && (tr.internalState.Paused? <==> snapshot.state == "PAUSED")
      && (tr.internalState.Resuming? <==> snapshot.state == "RESUMING")
      && (tr.internalState.Stopping? <==> snapshot.state == "STOPPING")
      && (tr.substate.Some? <==> snapshot.state in WORKING_STATES)
  {
  }

  /** A failed execution carries the adapter's reason, a business ending the marks of its outcome. */
  lemma EndingExactly(snapshot: Snapshot, completedAt: string)
    requires MapAdapterSnapshot(snapshot, completedAt).Some?
    ensures var tr := MapAdapterSnapshot(snapshot, completedAt).value;
      && (snapshot.state == "TECHNICAL_FAILED" <==> tr.error.Some?)
      && (tr.error.Some? ==>
            && tr.error.value.ExecutionError? && tr.error.value.retryable == snapshot.retryable
            && (snapshot.reasonCode != "" ==> tr.error.value.reasonCode == snapshot.reasonCode)
            && tr.error.value.reasonCode != "")
      && (snapshot.state in BUSINESS_ENDINGS <==> tr.result.Some?)
      && (tr.result.Some? ==>
            && tr.result.value.BusinessResult?
            && (tr.result.value.isError <==> snapshot.state != "SUCCEEDED")
            && (snapshot.message != "" ==> tr.result.value.text == snapshot.message)
            && tr.result.value.text != "")
      && (tr.terminal <==> snapshot.state in BUSINESS_ENDINGS + {"CANCELLED", "TECHNICAL_FAILED"})
  {
  }

  /** Nothing of the adapter's state is lost: equal transitions come from equal states. */
  lemma StateRecoverable(a: Snapshot, b: Snapshot, completedAt: string, completedAt': string)
    requires MapAdapterSnapshot(a, completedAt).Some?
    requires MapAdapterSnapshot(a, completedAt) == MapAdapterSnapshot(b, completedAt')
    ensures a.state == b.state
  {
    var tr := MapAdapterSnapshot(a, completedAt).value;
    StatusExactly(a, completedAt);
    StatusExactly(b, completedAt');
    if tr.mcpStatus.Working? {
      WorkingExactly(a, completedAt);
      WorkingExactly(b, completedAt');
    } else if tr.mcpStatus.Completed? {
      EndingExactly(a, completedAt);
      EndingExactly(b, completedAt');
      ReservedFieldsAreTheRuntimes(a, completedAt, "outcome");
      ReservedFieldsAreTheRuntimes(b, completedAt', "outcome");
    }
  }

  /* ---------- once applied ---------- */

  /**
   In every reachable state, a newer snapshot of a live task with no stop requested,
   whose requests can be stored, is what the task shows afterwards: failed exactly
   for a technical failure and with its reason, cancelled exactly for a cancellation,
   completed exactly for a business ending and with its result, and so on.
   */
  lemma SnapshotIsShown(ops: seq<TaskOp>, revision: nat, snapshot: Snapshot, completedAt: string, news: seq<(Id, Json)>)
    requires AllAdmissible(ops) && TaskRun(ops).task.Some? && snapshot.state in KNOWN_STATES
    requires var t := TaskRun(ops).task.value;
      !IsTerminal(t.internalState) && !t.cancelRequested && t.stopReason.None? && revision > t.adapterRevision
    requires PutRequests(TaskRun(ops).requests, news).Some?
    ensures MapAdapterSnapshot(snapshot, completedAt).Some?
    ensures var tr := MapAdapterSnapshot(snapshot, completedAt).value;
      var d' := ApplySnapshot(TaskRun(ops), revision, tr, news);
      && d'.task.Some?
      && var t := d'.task.value;
      && (t.mcpStatus.Failed? <==> snapshot.state == "TECHNICAL_FAILED")
      && (t.mcpStatus.Cancelled? <==> snapshot.state == "CANCELLED")
      && (t.mcpStatus.Completed? <==> snapshot.state in BUSINESS_ENDINGS)
      && (t.mcpStatus.NeedsInput? <==> snapshot.state == "WAITING_INPUT")
      && (t.mcpStatus.Working? <==> snapshot.state in WORKING_STATES)
      && t.internalState == tr.internalState && t.substate == tr.substate
      && t.result == tr.result && t.error == tr.error && t.statusMessage == Some(snapshot.message)
      && t.adapterRevision == revision && d'.requests == PutRequests(TaskRun(ops).requests, news).value
  {
    CoherentAlways(ops);
    NewerIsNew(TaskRun(ops), revision);
    StatusExactly(snapshot, completedAt);
  }
}
