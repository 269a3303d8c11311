/**
 Fencing over every run and every clock: tokens only grow, and a lease that has
 been superseded can never write again.
 */
module BusinessEventLeases {
  import opened Basics
  import opened BusinessEventTables

  /** No acquisition can have given out a token above the recorded one. */
  ghost predicate TokensGrow(t: Tables, t': Tables) {
    forall id :: id in t.sources ==> id in t'.sources && t.sources[id].fencingToken <= t'.sources[id].fencingToken
  }

  /** The lease was given out and is no longer the recorded one. */
  ghost predicate Superseded(t: Tables, lease: Lease) {
    && lease.sourceId in t.sources
    && lease.token <= t.sources[lease.sourceId].fencingToken
    && !Matches(t, lease)
  }

  /** Whoever holds a source keeps it, unless the token grows or the source is re-enrolled without holder. */
  ghost predicate HoldersFenced(t: Tables, t': Tables) {
    forall id :: id in t.sources && id in t'.sources && t'.sources[id].fencingToken == t.sources[id].fencingToken ==>
      || t'.sources[id].holder.None?
      || (t'.sources[id].streamId == t.sources[id].streamId && t.sources[id].holder.Some?
          && t'.sources[id].holder.value.owner == t.sources[id].holder.value.owner)
  }

  lemma RotateFences(t: Tables, q: RotationRequest)
    ensures TokensGrow(t, Rotate(t, q).tables) && HoldersFenced(t, Rotate(t, q).tables)
  {
    var t' := Rotate(t, q).tables;
    if t' != t {
      var roster := TargetRoster(t, t.runtime.value.currentStream, q);
      assert t'.sources == RotatedSources(t.sources, roster);
    }
  }

  lemma IntakeFences(t: Tables, lease: Lease, fact: Fact, deadline: Instant, checked: Instant, updated: Instant)
    ensures var t' := Intake(t, lease, fact, deadline, checked, updated).tables;
      TokensGrow(t, t') && HoldersFenced(t, t')
  {
  }

  lemma SourcesFence(t: Tables, op: Op)
    requires t.runtime.None? ==> t == EMPTY_TABLES
    requires op.OpInitialize? || op.OpAcquire? || op.OpRenew? || op.OpMarkUnavailable?
    ensures TokensGrow(t, Step(t, op)) && HoldersFenced(t, Step(t, op))
  {
  }

  lemma RowsFence(t: Tables, op: Op)
    requires op.OpPrepare? || op.OpFinalize? || op.OpPoison?
    ensures TokensGrow(t, Step(t, op)) && HoldersFenced(t, Step(t, op))
  {
  }

  lemma StepFences(t: Tables, op: Op)
    requires t.runtime.None? ==> t == EMPTY_TABLES
    ensures TokensGrow(t, Step(t, op)) && HoldersFenced(t, Step(t, op))
  {
    match op {
      case OpRotate(q) => RotateFences(t, q);
      case OpIntake(lease, fact, deadline, checked, updated) =>
        IntakeFences(t, lease, fact, deadline, checked, updated);
      case OpPrepare(_, _, _, _) => RowsFence(t, op);
      case OpFinalize(_) => RowsFence(t, op);
      case OpPoison(_, _) => RowsFence(t, op);
      case _ => SourcesFence(t, op);
    }
  }

  lemma StepKeepsSuperseded(t: Tables, op: Op, lease: Lease)
    requires t.runtime.None? ==> t == EMPTY_TABLES
    requires Superseded(t, lease)
    ensures Superseded(Step(t, op), lease)
  {
    StepFences(t, op);
  }

  /** The transactions a worker runs under a lease. */
  predicate Under(op: Op, lease: Lease) {
    match op
    case OpRenew(l, _, _) => l == lease
    case OpIntake(l, _, _, _, _) => l == lease
    case OpPoison(l, _) => l == lease
    case OpMarkUnavailable(l) => l == lease
    case _ => false
  }

  lemma SupersededCannotWrite(t: Tables, op: Op, lease: Lease)
    requires Superseded(t, lease) && Under(op, lease)
    ensures Step(t, op) == t
  {
  }

  lemma AcquireIssues(t: Tables, sourceId: Id, streamId: Id, owner: Id, appNow: Instant, until: Instant)
    ensures var tx := Acquire(t, sourceId, streamId, owner, appNow, until);
      tx.outcome.Done? && (tx.outcome.value.Some? ==>
        var lease := tx.outcome.value.value;
        && lease.sourceId == sourceId && sourceId in t.sources
        && lease.token == t.sources[sourceId].fencingToken + 1 == tx.tables.sources[sourceId].fencingToken
        && Matches(tx.tables, lease))
  {
  }

  /** The source can be held by nobody: it is blocked, or waits for a rotation. */
  predicate Blocked(s: SourceState) {
    s.status in {BlockedContractViolation, BlockedIdentityConflict, LossPending}
  }

  /** Another owner's lease has not run out. */
  predicate HeldByOther(s: SourceState, owner: Id, now: Instant) {
    s.holder.Some? && s.holder.value.owner != owner && now < s.holder.value.until
  }

  /**
   A source is refused if and only if it is missing, on another stream, blocked, or
   another owner's lease has not run out. Otherwise the owner holds it until the
   given time, under the next token and with the counters as they are; nothing else
   changes.
   */
  lemma AcquireExactly(t: Tables, id: Id, streamId: Id, owner: Id, appNow: Instant, until: Instant)
    ensures var tx := Acquire(t, id, streamId, owner, appNow, until);
      && tx.outcome.Done?
      && (tx.outcome.value.None? <==>
            id !in t.sources || t.sources[id].streamId != streamId || Blocked(t.sources[id])
            || HeldByOther(t.sources[id], owner, appNow))
      && (tx.outcome.value.None? ==> tx.tables == t)
      && (tx.outcome.value.Some? ==>
            var (lease, s) := (tx.outcome.value.value, t.sources[id]);
            && lease == Lease(id, streamId, owner, s.fencingToken + 1, s.lastPersisted, s.lastFinalized)
            && tx.tables == t.(sources := t.sources[id :=
                 s.(holder := Some(Holder(owner, until)), fencingToken := lease.token)]))
  {
  }

  /** A held source passes to another owner only when the lease has run out, and is freed only by a rotation. */
  lemma HolderChanges(t: Tables, op: Op, id: Id)
    requires (t.runtime.None? ==> t == EMPTY_TABLES) && id in t.sources && t.sources[id].holder.Some?
    ensures var t' := Step(t, op);
      && id in t'.sources
      && (t'.sources[id].holder.None? ==> op.OpRotate?)
      && (t'.sources[id].holder.Some? && t'.sources[id].holder.value.owner != t.sources[id].holder.value.owner ==>
            && op.OpAcquire? && op.sourceId == id && op.owner == t'.sources[id].holder.value.owner
            && t.sources[id].holder.value.until <= op.appNow && !Blocked(t.sources[id]))
  {
    StepFences(t, op);
    if op.OpAcquire? {
      AcquireExactly(t, op.sourceId, op.streamId, op.owner, op.appNow, op.until);
    } else {
      TokensStay(t, op);
    }
  }

  /** Every source keeps its token. */
  ghost predicate SameTokens(t: Tables, t': Tables) {
    forall id :: id in t.sources ==> id in t'.sources && t'.sources[id].fencingToken == t.sources[id].fencingToken
  }

  /** Every source is held as it was, or not. */
  ghost predicate SameHeld(t: Tables, t': Tables) {
    forall id :: id in t.sources && id in t'.sources ==>
      (t'.sources[id].holder.None? <==> t.sources[id].holder.None?)
  }

  lemma RotateTokens(t: Tables, q: RotationRequest)
    ensures SameTokens(t, Rotate(t, q).tables)
  {
    var t' := Rotate(t, q).tables;
    if t' != t {
      assert t'.sources == RotatedSources(t.sources, TargetRoster(t, t.runtime.value.currentStream, q));
    }
  }

  lemma IntakeTokens(t: Tables, op: Op)
    requires op.OpIntake?
    ensures SameTokens(t, Step(t, op)) && SameHeld(t, Step(t, op))
  {
  }

  lemma RowTokens(t: Tables, op: Op)
    requires op.OpPrepare? || op.OpFinalize? || op.OpPoison?
    ensures SameTokens(t, Step(t, op)) && SameHeld(t, Step(t, op))
  {
  }

  lemma SourceTokens(t: Tables, op: Op)
    requires op.OpInitialize? || op.OpRenew? || op.OpMarkUnavailable?
    requires t.runtime.None? ==> t == EMPTY_TABLES
    ensures SameTokens(t, Step(t, op)) && SameHeld(t, Step(t, op))
  {
  }

  lemma TokensStay(t: Tables, op: Op)
    requires !op.OpAcquire? && (t.runtime.None? ==> t == EMPTY_TABLES)
    ensures SameTokens(t, Step(t, op)) && (!op.OpRotate? ==> SameHeld(t, Step(t, op)))
  {
    if op.OpRotate? {
      RotateTokens(t, op.request);
    } else if op.OpIntake? {
      IntakeTokens(t, op);
    } else if op.OpPrepare? || op.OpFinalize? || op.OpPoison? {
      RowTokens(t, op);
    } else {
      SourceTokens(t, op);
    }
  }
}

module BusinessEventLeaseRuns {
  import opened Basics
  import opened BusinessEventTables
  import opened BusinessEventLeases
  import G = BusinessEventGenerations

  lemma {:induction false} TokensGrowOver(before: seq<Op>, after: seq<Op>)
    ensures TokensGrow(Run(EMPTY_TABLES, before), Run(EMPTY_TABLES, before + after))
  {
    if after == [] {
      assert before + after == before;
    } else {
      var front := after[..|after| - 1];
      TokensGrowOver(before, front);
      RunSplit(EMPTY_TABLES, before, after);
      G.GenerationsSoundAlways(before + front);
      StepFences(Run(EMPTY_TABLES, before + front), after[|after| - 1]);
    }
  }

  /**
   A superseded lease stays superseded over any continuation, and no
   transaction run under it, at any clock reading, changes anything.
   */
  lemma {:induction false} SupersededForever(before: seq<Op>, after: seq<Op>, lease: Lease, op: Op)
    requires Superseded(Run(EMPTY_TABLES, before), lease)
    ensures Superseded(Run(EMPTY_TABLES, before + after), lease)
    ensures Under(op, lease) ==> Step(Run(EMPTY_TABLES, before + after), op) == Run(EMPTY_TABLES, before + after)
  {
    if after == [] {
      assert before + after == before;
    } else {
      var front := after[..|after| - 1];
      SupersededForever(before, front, lease, op);
      RunSplit(EMPTY_TABLES, before, after);
      G.GenerationsSoundAlways(before + front);
      StepKeepsSuperseded(Run(EMPTY_TABLES, before + front), after[|after| - 1], lease);
    }
    if Under(op, lease) {
      SupersededCannotWrite(Run(EMPTY_TABLES, before + after), op, lease);
    }
  }

  /** After `from`, nobody else acquires the source once its lease has run out, and nothing rotates. */
  ghost predicate LeaseLasts(ops: seq<Op>, from: nat, id: Id, owner: Id) {
    forall k :: from <= k < |ops| ==>
      && !ops[k].OpRotate?
      && (ops[k].OpAcquire? && ops[k].sourceId == id && ops[k].owner != owner
          && id in Run(EMPTY_TABLES, ops[..k]).sources && Run(EMPTY_TABLES, ops[..k]).sources[id].holder.Some? ==>
            ops[k].appNow < Run(EMPTY_TABLES, ops[..k]).sources[id].holder.value.until)
  }

  /** As long as its lease lasts, renewed or not, an owner keeps its source, whatever the other workers do. */
  lemma {:induction false} LeaseProtects(ops: seq<Op>, from: nat, id: Id, owner: Id)
    requires from <= |ops| && LeaseLasts(ops, from, id, owner)
    requires var t := Run(EMPTY_TABLES, ops[..from]);
      id in t.sources && t.sources[id].holder.Some? && t.sources[id].holder.value.owner == owner
    ensures var t := Run(EMPTY_TABLES, ops);
      id in t.sources && t.sources[id].holder.Some? && t.sources[id].holder.value.owner == owner
    decreases |ops|
  {
    if from < |ops| {
      var front := ops[..|ops| - 1];
      assert front[..from] == ops[..from];
      assert forall k :: 0 <= k < |front| ==> front[..k] == ops[..k];
      LeaseProtects(front, from, id, owner);
      G.GenerationsSoundAlways(front);
      HolderChanges(Run(EMPTY_TABLES, front), ops[|ops| - 1], id);
    } else {
      assert ops[..from] == ops;
    }
  }

  /** The lease that acquisition `op` gives out after `before`. */
  ghost predicate Issues(before: seq<Op>, op: Op, lease: Lease) {
    && op.OpAcquire?
    && Acquire(Run(EMPTY_TABLES, before), op.sourceId, op.streamId, op.owner, op.appNow, op.until).outcome
       == Done(Some(lease))
  }

  /**
   Of two acquisitions of a source in one run the later has the greater token,
   whatever the clocks read, and from then on the earlier lease is superseded:
   at most one issued lease can ever be valid at a time.
   */
  lemma LaterAcquisitionFencesEarlier(
      before: seq<Op>, first: Op, between: seq<Op>, second: Op, after: seq<Op>, older: Lease, newer: Lease)
    requires Issues(before, first, older)
    requires Issues(before + [first] + between, second, newer)
    requires older.sourceId == newer.sourceId
    ensures older.token < newer.token
    ensures Superseded(Run(EMPTY_TABLES, before + [first] + between + [second] + after), older)
    ensures forall now :: !LeaseValid(Run(EMPTY_TABLES, before + [first] + between + [second] + after), older, now)
  {
    var held := before + [first];
    assert held[..|held| - 1] == before;
    AcquireIssues(Run(EMPTY_TABLES, before), first.sourceId, first.streamId, first.owner, first.appNow, first.until);
    TokensGrowOver(held, between);
    var reached := held + between;
    AcquireIssues(Run(EMPTY_TABLES, reached),
                  second.sourceId, second.streamId, second.owner, second.appNow, second.until);
    var fenced := reached + [second];
    assert fenced[..|fenced| - 1] == reached;
    SupersededForever(fenced, after, older, second);
  }
}
