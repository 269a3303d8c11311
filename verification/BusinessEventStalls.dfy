/** Publication that stalls on the counters: where it comes from, what ends it and what does not. */
module BusinessEventStalls {
  import opened Basics
  import opened BusinessEventTables
  import opened BusinessEventOrdering
  import opened BusinessEventContiguity
  import G = BusinessEventGenerations

  /** No rotation moves the source to a stream it has rows from. */
  ghost predicate NeverReturns(ops: seq<Op>, id: Id) {
    ops != [] ==>
      && NeverReturns(ops[..|ops| - 1], id)
      && var (t, op) := (Run(EMPTY_TABLES, ops[..|ops| - 1]), ops[|ops| - 1]);
      (op.OpRotate? && Rotate(t, op.request).tables != t ==> KeepsStream(t, Installed(t, op.request), id))
  }

  /** An intake for the source under a lease that is valid at the check and not at the update. */
  ghost predicate IsLate(t: Tables, op: Op, id: Id) {
    && op.OpIntake? && op.lease.sourceId == id
    && LeaseValid(t, op.lease, op.checked) && !LeaseValid(t, op.lease, op.updated)
  }

  /** Step `n` of the run is a late intake, and row `i` is what it stored. */
  ghost predicate StoredLate(ops: seq<Op>, n: nat, i: nat, id: Id) {
    && n < |ops| && IsLate(Run(EMPTY_TABLES, ops[..n]), ops[n], id)
    && |Run(EMPTY_TABLES, ops[..n]).inbox| == i
  }

  /** The row is on the source's stream and above its counter. */
  ghost predicate AboveCounter(t: Tables, row: InboxRow, id: Id) {
    OnStream(t, row, id) && row.decoded.Some? && Seq(row) > t.sources[id].lastPersisted
  }

  /** The counter of a source that stays on its stream never goes back, and rows are only added. */
  ghost predicate CounterGrows(t: Tables, t': Tables, id: Id) {
    && |t.inbox| <= |t'.inbox|
    && (forall i :: 0 <= i < |t.inbox| ==>
          SameStream(t'.inbox[i], t.inbox[i]) && t'.inbox[i].decoded == t.inbox[i].decoded)
    && (id in t.sources && id in t'.sources && t'.sources[id].streamId == t.sources[id].streamId ==>
          t.sources[id].lastPersisted <= t'.sources[id].lastPersisted)
  }

  /** Only a rotation moves a source to another stream, and rows are added by intake and poison only. */
  ghost predicate StaysPut(t: Tables, t': Tables, id: Id) {
    && (id in t.sources ==> id in t'.sources && t'.sources[id].streamId == t.sources[id].streamId)
    && |t'.inbox| == |t.inbox|
  }

  lemma RotateGrows(t: Tables, q: RotationRequest, id: Id)
    ensures CounterGrows(t, Rotate(t, q).tables, id) && |Rotate(t, q).tables.inbox| == |t.inbox|
  {
    RotateRowFootprint(t, q);
  }

  lemma IntakeGrows(t: Tables, lease: Lease, fact: Fact, deadline: Instant, checked: Instant, updated: Instant, id: Id)
    ensures var t' := Intake(t, lease, fact, deadline, checked, updated).tables;
      && CounterGrows(t, t', id)
      && (id in t.sources ==> id in t'.sources && t'.sources[id].streamId == t.sources[id].streamId)
      && (|t'.inbox| == |t.inbox| || (t'.inbox == t.inbox + [IntakeRow(lease, fact, deadline)]
          && (LeaseValid(t, lease, updated) ==> t'.sources[lease.sourceId].lastPersisted == fact.sequence)
          && LeaseValid(t, lease, checked)))
  {
    IntakeFootprint(t, lease, fact, deadline, checked, updated);
  }

  lemma OthersGrow(t: Tables, op: Op, id: Id)
    requires !op.OpIntake? && !op.OpRotate? && !op.OpPoison? && (t.runtime.None? ==> t == EMPTY_TABLES)
    ensures CounterGrows(t, Step(t, op), id) && StaysPut(t, Step(t, op), id)
  {
    match op {
      case OpInitialize(sources, newStream) =>
      case OpPrepare(sourceId, mapped, related, now) => PrepareFootprint(t, sourceId, mapped, related, now);
      case OpFinalize(sourceId) => FinalizeRowFootprint(t, sourceId);
      case _ => QuietFootprint(t, op);
    }
  }

  /** A row above the counter was above it before, or was stored late just now. */
  lemma StepAboveCounter(t: Tables, op: Op, id: Id, i: nat)
    requires TablesSound(t) && (t.runtime.None? ==> t == EMPTY_TABLES)
    requires op.OpRotate? && Rotate(t, op.request).tables != t ==> KeepsStream(t, Installed(t, op.request), id)
    requires i < |Step(t, op).inbox| && AboveCounter(Step(t, op), Step(t, op).inbox[i], id)
    ensures if i < |t.inbox| then AboveCounter(t, t.inbox[i], id) else i == |t.inbox| && IsLate(t, op, id)
  {
    var t' := Step(t, op);
    if op.OpIntake? {
      IntakeGrows(t, op.lease, op.fact, op.deadline, op.checked, op.updated, id);
    } else if op.OpRotate? {
      RotateGrows(t, op.request, id);
      RotateRowFootprint(t, op.request);
      assert RowSound(t, t.inbox[i]);
    } else if op.OpPoison? {
      PoisonFootprint(t, op.lease, op.now);
    } else {
      OthersGrow(t, op, id);
      assert RowSound(t, t.inbox[i]);
    }
  }

  /**
   Over every run that never brings the source back to a stream, a row of it that
   is above its counter was stored by an intake whose lease expired between its
   two checks. With `StallsExactly` this is where every stall comes from.
   */
  lemma {:induction false} UncountedWasLate(ops: seq<Op>, id: Id, i: nat) returns (n: nat)
    requires NeverReturns(ops, id) && i < |Run(EMPTY_TABLES, ops).inbox|
    requires AboveCounter(Run(EMPTY_TABLES, ops), Run(EMPTY_TABLES, ops).inbox[i], id)
    ensures StoredLate(ops, n, i, id)
  {
    var front, op := ops[..|ops| - 1], ops[|ops| - 1];
    var t := Run(EMPTY_TABLES, front);
    TablesSoundAlways(front);
    G.GenerationsSoundAlways(front);
    StepAboveCounter(t, op, id, i);
    if i < |t.inbox| {
      n := UncountedWasLate(front, id, i);
      assert front[..n] == ops[..n];
    } else {
      n := |front|;
    }
  }

  /* ---------- what ends a stall ---------- */

  /** The head depends on the rows of the source stream only. */
  lemma {:induction false} HeadSame(inbox: seq<InboxRow>, inbox': seq<InboxRow>, n: nat, sourceId: Id, streamId: Id)
    requires n <= |inbox| <= |inbox'|
    requires forall i :: 0 <= i < n ==>
      inbox'[i] == inbox[i] || (!OfStream(inbox[i], sourceId, streamId) && !OfStream(inbox'[i], sourceId, streamId))
    ensures HeadAmong(inbox', n, sourceId, streamId) == HeadAmong(inbox, n, sourceId, streamId)
  {
    if n > 0 {
      HeadSame(inbox, inbox', n - 1, sourceId, streamId);
    }
  }

  /** The next event of the source, taken under a lease valid at both checks, ends the stall: the head is published. */
  lemma NextEventEndsStall(
      t: Tables, lease: Lease, fact: Fact, deadline: Instant, checked: Instant, updated: Instant, id: Id)
    requires G.GenerationsSound(t) && TablesSound(t) && Uncounted(t, id)
    requires lease.sourceId == id && LeaseValid(t, lease, checked) && LeaseValid(t, lease, updated)
    requires fact.streamId == lease.streamId && Seq(t.inbox[Head(t, id).value]) < fact.sequence <= MAX_SEQUENCE
    requires !AnyClash(t, lease, fact)
    ensures var t' := Intake(t, lease, fact, deadline, checked, updated).tables;
      && Head(t', id) == Head(t, id)
      && Finalize(t', id).outcome.Done? && Finalize(t', id).outcome.value.Some?
      && Finalize(t', id).outcome.value.value.sourceSequence == Seq(t.inbox[Head(t, id).value])
  {
    var h := Head(t, id).value;
    assert RowSound(t, t.inbox[h]);
    var t' := Intake(t, lease, fact, deadline, checked, updated).tables;
    assert t'.inbox == t.inbox + [IntakeRow(lease, fact, deadline)];
    HeadSame(t.inbox, t'.inbox, |t.inbox|, id, t.sources[id].streamId);
  }

  /** Everything but an intake or a poison row of the source, or a rotation, leaves it stalled. */
  lemma StallStays(t: Tables, op: Op, id: Id)
    requires Uncounted(t, id) && (t.runtime.None? ==> t == EMPTY_TABLES)
    requires !op.OpRotate? && ((op.OpIntake? || op.OpPoison?) ==> op.lease.sourceId != id)
    ensures Uncounted(Step(t, op), id)
  {
    var (t', h) := (Step(t, op), Head(t, id).value);
    var stream := t.sources[id].streamId;
    StallFrame(t, op, id);
    HeadSame(t.inbox, t'.inbox, |t.inbox|, id, stream);
    HeadBeyond(t'.inbox, |t.inbox|, |t'.inbox|, id, stream);
  }

  /** Rows of other sources do not change the head. */
  lemma {:induction false} HeadBeyond(inbox: seq<InboxRow>, m: nat, n: nat, sourceId: Id, streamId: Id)
    requires m <= n <= |inbox| && forall i :: m <= i < n ==> !OfStream(inbox[i], sourceId, streamId)
    ensures HeadAmong(inbox, n, sourceId, streamId) == HeadAmong(inbox, m, sourceId, streamId)
  {
    if m < n {
      HeadBeyond(inbox, m, n - 1, sourceId, streamId);
    }
  }

  /** Rows and counter of a stalled source stay as they are. */
  lemma StallFrame(t: Tables, op: Op, id: Id)
    requires Uncounted(t, id) && (t.runtime.None? ==> t == EMPTY_TABLES)
    requires !op.OpRotate? && ((op.OpIntake? || op.OpPoison?) ==> op.lease.sourceId != id)
    ensures var t' := Step(t, op);
      && |t.inbox| <= |t'.inbox| && id in t'.sources
      && t'.sources[id].streamId == t.sources[id].streamId
      && t'.sources[id].lastPersisted == t.sources[id].lastPersisted
      && (forall i :: 0 <= i < |t.inbox| ==>
            t'.inbox[i] == t.inbox[i] || (t.inbox[i].sourceId != id && t'.inbox[i].sourceId != id))
      && forall i :: |t.inbox| <= i < |t'.inbox| ==> t'.inbox[i].sourceId != id
  {
    match op {
      case OpIntake(lease, fact, deadline, checked, updated) =>
        IntakeFootprint(t, lease, fact, deadline, checked, updated);
      case OpPoison(lease, now) => PoisonFootprint(t, lease, now);
      case OpPrepare(sourceId, mapped, related, now) => PrepareFootprint(t, sourceId, mapped, related, now);
      case OpFinalize(sourceId) => FinalizeRowFootprint(t, sourceId);
      case OpInitialize(sources, newStream) =>
      case _ => QuietFootprint(t, op);
    }
  }
}
