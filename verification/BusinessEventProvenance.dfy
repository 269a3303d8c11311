/**
 Where rows and events come from: every event of a run tells the fact an intake
 stored, related as the transaction that prepared its row was told, and every
 continuity record the request that made it.
 */
module BusinessEventProvenance {
  import opened Basics
  import opened BusinessEventTables
  import opened BusinessEventOrdering
  import G = BusinessEventGenerations

  /* ---------- one transaction, one row ---------- */

  /** The row is the fact as intake was given it. */
  ghost predicate Tells(row: InboxRow, op: Op) {
    && op.OpIntake? && op.fact.streamId == op.lease.streamId
    && OfStream(row, op.lease.sourceId, op.lease.streamId)
    && row.decoded == Some(Decoded(op.fact.eventId, op.fact.sequence, op.fact.body, op.deadline))
  }

  /** A task subject relates to the task mapped for it, a resource to the tasks bound to it, in order. */
  ghost predicate RelatesAsTold(relation: Relation, subject: Subject, op: Op) {
    && op.OpPrepare?
    && (subject.TaskSubject? ==> op.mapped.Some? && relation == TaskRelation(op.mapped.value))
    && (subject.ResourceSubject? ==> relation == ResourceRelation(op.related))
  }

  /** A row is new: a fact not prepared yet, or poison. */
  ghost predicate Arrives(row: InboxRow, op: Op) {
    && row.relation.None?
    && (row.decoded.Some? ==> Tells(row, op))
    && (row.decoded.Some? && op.fact.valid ==> row.status.Received?)
    && (row.decoded.None? || !op.fact.valid ==> row.status.Rejected?)
  }

  /** The row is made ready, related as told. */
  ghost predicate MadeReady(row: InboxRow, row': InboxRow, op: Op) {
    && (row.status.Received? || row.status.PendingMapping?) && row'.status.Ready?
    && row'.decoded.Some? && row'.relation.Some? && op.OpPrepare? && op.sourceId == row.sourceId
    && RelatesAsTold(row'.relation.value, row'.decoded.value.body.subject, op)
  }

  /** No task is mapped yet: the row waits, or its deadline has passed and it is lost. */
  ghost predicate Unmapped(row: InboxRow, row': InboxRow, op: Op, semantics: Semantics) {
    && (row.status.Received? || row.status.PendingMapping?) && row'.relation == row.relation
    && op.OpPrepare? && op.sourceId == row.sourceId && op.mapped.None?
    && row.decoded.Some? && row.decoded.value.body.subject.TaskSubject?
    && (row'.status.PendingMapping? <==> row.decoded.value.mappingDeadline > op.now)
    && (row'.status.ContinuityLossPending? <==>
          row.decoded.value.mappingDeadline <= op.now && semantics.DurableAtLeastOnce?)
    && (row'.status.TerminalSkipped? <==>
          row.decoded.value.mappingDeadline <= op.now && semantics.BestEffortLive?)
  }

  ghost predicate Released(row: InboxRow, row': InboxRow, op: Op) {
    op.OpFinalize? && op.sourceId == row.sourceId && row.status.Ready? && row'.status.Published?
    && row'.relation == row.relation
  }

  ghost predicate GivenUp(t: Tables, row: InboxRow, row': InboxRow, op: Op) {
    && op.OpRotate? && row.sourceId in Named(t, op.request) && row'.relation == row.relation
    && (row.status.Rejected? || row.status.MappingFailed? || row.status.ContinuityLossPending?)
    && row'.status.TerminalSkipped?
  }

  /** Everything that can happen to a stored row; what it says never changes. */
  ghost predicate GoesOn(t: Tables, row: InboxRow, row': InboxRow, op: Op) {
    && SameStream(row', row) && row'.decoded == row.decoded
    && (|| row' == row
        || MadeReady(row, row', op)
        || (row.sourceId in t.sources && Unmapped(row, row', op, t.sources[row.sourceId].semantics))
        || Released(row, row', op)
        || GivenUp(t, row, row', op))
  }

  lemma IntakeRows(t: Tables, op: Op, i: nat)
    requires op.OpIntake? && i < |Step(t, op).inbox|
    ensures i < |t.inbox| ==> Step(t, op).inbox[i] == t.inbox[i]
    ensures i >= |t.inbox| ==> i == |t.inbox| && Arrives(Step(t, op).inbox[i], op)
  {
  }

  lemma PoisonRows(t: Tables, op: Op, i: nat)
    requires op.OpPoison? && i < |Step(t, op).inbox|
    ensures i < |t.inbox| ==> Step(t, op).inbox[i] == t.inbox[i]
    ensures i >= |t.inbox| ==> i == |t.inbox| && Arrives(Step(t, op).inbox[i], op)
  {
  }

  lemma PrepareRows(t: Tables, op: Op, i: nat)
    requires op.OpPrepare? && i < |t.inbox|
    ensures |Step(t, op).inbox| == |t.inbox| && GoesOn(t, t.inbox[i], Step(t, op).inbox[i], op)
  {
    PrepareFootprint(t, op.sourceId, op.mapped, op.related, op.now);
  }

  lemma FinalizeRows(t: Tables, op: Op, i: nat)
    requires op.OpFinalize? && i < |t.inbox|
    ensures |Step(t, op).inbox| == |t.inbox| && GoesOn(t, t.inbox[i], Step(t, op).inbox[i], op)
  {
    FinalizeRowFootprint(t, op.sourceId);
  }

  lemma RotateRows(t: Tables, op: Op, i: nat)
    requires op.OpRotate? && i < |t.inbox|
    ensures |Step(t, op).inbox| == |t.inbox| && GoesOn(t, t.inbox[i], Step(t, op).inbox[i], op)
  {
    RotateRowFootprint(t, op.request);
  }

  lemma OtherRows(t: Tables, op: Op)
    requires op.OpInitialize? || op.OpAcquire? || op.OpRenew? || op.OpMarkUnavailable?
    ensures Step(t, op).inbox == t.inbox
  {
  }

  /** What a transaction does to any row of the inbox, and what it adds. */
  lemma RowsGoOn(t: Tables, op: Op, i: nat)
    requires i < |Step(t, op).inbox|
    ensures |t.inbox| <= |Step(t, op).inbox| <= |t.inbox| + 1
    ensures i < |t.inbox| ==> GoesOn(t, t.inbox[i], Step(t, op).inbox[i], op)
    ensures i >= |t.inbox| ==> Arrives(Step(t, op).inbox[i], op)
  {
    InboxGrows(t, op);
    if op.OpIntake? {
      IntakeRows(t, op, i);
    } else if op.OpPoison? {
      PoisonRows(t, op, i);
    } else if op.OpPrepare? {
      PrepareRows(t, op, i);
    } else if op.OpFinalize? {
      FinalizeRows(t, op, i);
    } else if op.OpRotate? {
      RotateRows(t, op, i);
    } else {
      OtherRows(t, op);
    }
  }

  lemma InboxGrows(t: Tables, op: Op)
    ensures |t.inbox| <= |Step(t, op).inbox| <= |t.inbox| + 1
    ensures !op.OpIntake? && !op.OpPoison? ==> |Step(t, op).inbox| == |t.inbox|
  {
  }

  /* ---------- over runs ---------- */

  function At(ops: seq<Op>, k: nat): Tables
    requires k <= |ops|
  {
    Run(EMPTY_TABLES, ops[..k])
  }

  lemma AtEarlier(ops: seq<Op>, k: nat)
    requires ops != [] && k < |ops|
    ensures At(ops[..|ops| - 1], k) == At(ops, k)
  {
    assert ops[..|ops| - 1][..k] == ops[..k];
  }

  lemma AtEnd(ops: seq<Op>)
    ensures At(ops, |ops|) == Run(EMPTY_TABLES, ops)
    ensures ops != [] ==> At(ops, |ops|) == Step(At(ops, |ops| - 1), ops[|ops| - 1])
  {
    assert ops[..|ops|] == ops;
  }

  /** Transaction `a` of the run, an intake, stored row `i`. */
  ghost predicate Takes(ops: seq<Op>, a: nat, i: nat) {
    && a < |ops| && ops[a].OpIntake? && ops[a].fact.valid
    && |At(ops, a).inbox| == i && |At(ops, a + 1).inbox| == i + 1
  }

  /** Transaction `b` of the run made row `i` ready. */
  ghost predicate Prepares(ops: seq<Op>, b: nat, i: nat) {
    && b < |ops| && ops[b].OpPrepare?
    && i < |At(ops, b).inbox| && !At(ops, b).inbox[i].status.Ready?
    && i < |At(ops, b + 1).inbox| && At(ops, b + 1).inbox[i].status.Ready?
  }

  /** Transaction `c` of the run published row `i` as event `p`. */
  ghost predicate Finalizes(ops: seq<Op>, c: nat, i: nat, p: nat) {
    && c < |ops| && ops[c].OpFinalize?
    && |At(ops, c).events| == p && |At(ops, c + 1).events| == p + 1
    && i < |At(ops, c).inbox| && At(ops, c).inbox[i].status.Ready?
    && i < |At(ops, c + 1).inbox| && At(ops, c + 1).inbox[i].status.Published?
  }

  /** The row was stored by an intake that accepted its fact. */
  ghost predicate HasIntake(ops: seq<Op>, i: nat, row: InboxRow) {
    exists a: nat :: Takes(ops, a, i) && Tells(row, ops[a])
  }

  /** And made ready by a later transaction, related as that was told. */
  ghost predicate HasPreparation(ops: seq<Op>, i: nat, row: InboxRow) {
    exists a: nat, b: nat :: a < b && Takes(ops, a, i) && Tells(row, ops[a]) && RelatedBy(ops, b, i, row)
  }

  ghost predicate RelatedBy(ops: seq<Op>, b: nat, i: nat, row: InboxRow) {
    && Prepares(ops, b, i) && ops[b].sourceId == row.sourceId
    && row.decoded.Some? && row.relation.Some?
    && RelatesAsTold(row.relation.value, row.decoded.value.body.subject, ops[b])
  }

  ghost predicate RowTraced(ops: seq<Op>, i: nat, row: InboxRow) {
    && (IsLive(row.status) || row.status.Published? || row.relation.Some? ==> HasIntake(ops, i, row))
    && (row.status.Ready? || row.status.Published? || row.relation.Some? ==> HasPreparation(ops, i, row))
  }

  ghost predicate EventTells(e: Event, intake: Op, preparation: Op) {
    && intake.OpIntake? && preparation.OpPrepare?
    && e.sourceId == intake.lease.sourceId == preparation.sourceId
    && e.sourceStreamId == intake.lease.streamId == intake.fact.streamId
    && e.sourceEventId == intake.fact.eventId && e.sourceSequence == intake.fact.sequence
    && e.body == intake.fact.body
    && RelatesAsTold(e.relation, intake.fact.body.subject, preparation)
  }

  ghost predicate EventTraced(ops: seq<Op>, p: nat, e: Event) {
    exists a: nat, b: nat, c: nat, i: nat ::
      a < b < c && Takes(ops, a, i) && Prepares(ops, b, i) && Finalizes(ops, c, i, p)
      && ops[c].sourceId == e.sourceId && EventTells(e, ops[a], ops[b])
  }

  /* ---------- a longer run ---------- */

  lemma TakesStays(ops: seq<Op>, a: nat, i: nat)
    requires ops != [] && Takes(ops[..|ops| - 1], a, i)
    ensures Takes(ops, a, i)
  {
    AtEarlier(ops, a);
    AtEarlier(ops, a + 1);
  }

  lemma PreparesStays(ops: seq<Op>, b: nat, i: nat)
    requires ops != [] && Prepares(ops[..|ops| - 1], b, i)
    ensures Prepares(ops, b, i)
  {
    AtEarlier(ops, b);
    AtEarlier(ops, b + 1);
  }

  lemma FinalizesStays(ops: seq<Op>, c: nat, i: nat, p: nat)
    requires ops != [] && Finalizes(ops[..|ops| - 1], c, i, p)
    ensures Finalizes(ops, c, i, p)
  {
    AtEarlier(ops, c);
    AtEarlier(ops, c + 1);
  }

  lemma IntakeStays(ops: seq<Op>, i: nat, row: InboxRow)
    requires ops != [] && HasIntake(ops[..|ops| - 1], i, row)
    ensures HasIntake(ops, i, row)
  {
    var a: nat :| Takes(ops[..|ops| - 1], a, i) && Tells(row, ops[..|ops| - 1][a]);
    TakesStays(ops, a, i);
  }

  lemma PreparationStays(ops: seq<Op>, i: nat, row: InboxRow)
    requires ops != [] && HasPreparation(ops[..|ops| - 1], i, row)
    ensures HasPreparation(ops, i, row)
  {
    var front := ops[..|ops| - 1];
    var a: nat, b: nat :| a < b && Takes(front, a, i) && Tells(row, front[a]) && RelatedBy(front, b, i, row);
    TakesStays(ops, a, i);
    PreparesStays(ops, b, i);
    assert RelatedBy(ops, b, i, row);
  }

  /** A row that keeps what it says and its relation keeps its trace. */
  lemma TraceKept(ops: seq<Op>, i: nat, row: InboxRow, row': InboxRow)
    requires ops != [] && RowTraced(ops[..|ops| - 1], i, row)
    requires SameStream(row', row) && row'.decoded == row.decoded && row'.relation == row.relation
    requires IsLive(row'.status) || row'.status.Published? ==> IsLive(row.status) || row.status.Published?
    requires row'.status.Ready? || row'.status.Published? ==> row.status.Ready? || row.status.Published?
    ensures RowTraced(ops, i, row')
  {
    if HasIntake(ops[..|ops| - 1], i, row) {
      IntakeStays(ops, i, row);
      IntakeSame(ops, i, row, row');
    }
    if HasPreparation(ops[..|ops| - 1], i, row) {
      PreparationStays(ops, i, row);
      PreparationSame(ops, i, row, row');
    }
  }

  /** A row just made ready. */
  lemma TraceReady(ops: seq<Op>, i: nat, row: InboxRow, row': InboxRow)
    requires ops != [] && HasIntake(ops[..|ops| - 1], i, row)
    requires SameStream(row', row) && row'.decoded == row.decoded && MadeReady(row, row', ops[|ops| - 1])
    requires Prepares(ops, |ops| - 1, i)
    ensures RowTraced(ops, i, row')
  {
    var n := |ops| - 1;
    var a: nat :| Takes(ops[..n], a, i) && Tells(row, ops[..n][a]);
    TakesStays(ops, a, i);
    assert Tells(row', ops[a]) && RelatedBy(ops, n, i, row');
  }

  /** The row of the last state came from that before it. */
  lemma TraceRow(ops: seq<Op>, i: nat)
    requires ops != [] && i < |At(ops, |ops| - 1).inbox| && i < |At(ops, |ops|).inbox|
    requires RowTraced(ops[..|ops| - 1], i, At(ops, |ops| - 1).inbox[i])
    requires GoesOn(At(ops, |ops| - 1), At(ops, |ops| - 1).inbox[i], At(ops, |ops|).inbox[i], ops[|ops| - 1])
    ensures RowTraced(ops, i, At(ops, |ops|).inbox[i])
  {
    var n := |ops| - 1;
    var row, row' := At(ops, n).inbox[i], At(ops, |ops|).inbox[i];
    if MadeReady(row, row', ops[n]) {
      TraceReady(ops, i, row, row');
    } else {
      TraceKept(ops, i, row, row');
    }
  }

  lemma IntakeSame(ops: seq<Op>, i: nat, row: InboxRow, row': InboxRow)
    requires HasIntake(ops, i, row) && SameStream(row', row) && row'.decoded == row.decoded
    ensures HasIntake(ops, i, row')
  {
    var a: nat :| Takes(ops, a, i) && Tells(row, ops[a]);
    assert Tells(row', ops[a]);
  }

  lemma PreparationSame(ops: seq<Op>, i: nat, row: InboxRow, row': InboxRow)
    requires HasPreparation(ops, i, row) && SameStream(row', row)
    requires row'.decoded == row.decoded && row'.relation == row.relation
    ensures HasPreparation(ops, i, row')
  {
    var a: nat, b: nat :| a < b && Takes(ops, a, i) && Tells(row, ops[a]) && RelatedBy(ops, b, i, row);
    assert Tells(row', ops[a]) && RelatedBy(ops, b, i, row');
  }

  lemma {:induction false} RowsTraced(ops: seq<Op>, i: nat)
    requires i < |Run(EMPTY_TABLES, ops).inbox|
    ensures RowTraced(ops, i, Run(EMPTY_TABLES, ops).inbox[i])
    decreases |ops|
  {
    AtEnd(ops);
    if ops != [] {
      var n := |ops| - 1;
      RowsGoOn(At(ops, n), ops[n], i);
      if i < |At(ops, n).inbox| {
        RowsTraced(ops[..n], i);
        TraceRow(ops, i);
      } else if Run(EMPTY_TABLES, ops).inbox[i].status.Received? {
        assert Takes(ops, n, i);
      }
    }
  }

  /* ---------- events ---------- */

  /** Finalizing publishes the ready head of its source as the newest event. */
  ghost predicate PublishesHead(t: Tables, t': Tables, sourceId: Id, h: nat, e: Event) {
    && h < |t.inbox| && t.inbox[h].status.Ready? && t.inbox[h].decoded.Some? && t.inbox[h].relation.Some?
    && t.inbox[h].sourceId == sourceId
    && t'.inbox == t.inbox[h := t.inbox[h].(status := Published)]
    && t'.events == t.events + [e]
    && e == EventOf(e.streamId, e.sequence, t.inbox[h])
  }

  lemma FinalizePublishes(t: Tables, sourceId: Id)
    requires Finalize(t, sourceId).tables.events != t.events
    ensures exists h: nat, e :: PublishesHead(t, Finalize(t, sourceId).tables, sourceId, h, e)
  {
    var tx := Finalize(t, sourceId);
    FinalizeRowFootprint(t, sourceId);
    assert PublishesHead(t, tx.tables, sourceId, Head(t, sourceId).value, tx.outcome.value.value);
  }

  /** An event is added by finalizing only. */
  lemma EventsGoOn(t: Tables, op: Op)
    requires !op.OpFinalize?
    ensures Step(t, op).events == t.events
  {
    if op.OpRotate? {
      RotateRowFootprint(t, op.request);
    } else if op.OpInitialize? {
      G.InitializeFootprint(t, op.sources, op.newStream);
    } else {
      G.OtherFootprint(t, op);
    }
  }

  lemma EventStays(ops: seq<Op>, p: nat, e: Event)
    requires ops != [] && EventTraced(ops[..|ops| - 1], p, e)
    ensures EventTraced(ops, p, e)
  {
    var front := ops[..|ops| - 1];
    var a: nat, b: nat, c: nat, i: nat :|
      a < b < c && Takes(front, a, i) && Prepares(front, b, i) && Finalizes(front, c, i, p)
      && front[c].sourceId == e.sourceId && EventTells(e, front[a], front[b]);
    TakesStays(ops, a, i);
    PreparesStays(ops, b, i);
    FinalizesStays(ops, c, i, p);
  }

  /** The newest event tells what its row was given. */
  lemma NewestTraced(ops: seq<Op>, h: nat, e: Event)
    requires ops != [] && ops[|ops| - 1].OpFinalize?
    requires PublishesHead(At(ops, |ops| - 1), At(ops, |ops|), ops[|ops| - 1].sourceId, h, e)
    ensures EventTraced(ops, |At(ops, |ops| - 1).events|, e)
  {
    RowsTraced(ops[..|ops| - 1], h);
    PublicationTraced(ops, h, At(ops, |ops| - 1).inbox[h], e);
  }

  lemma PublicationTraced(ops: seq<Op>, h: nat, row: InboxRow, e: Event)
    requires ops != [] && row.decoded.Some? && row.relation.Some? && HasPreparation(ops[..|ops| - 1], h, row)
    requires e == EventOf(e.streamId, e.sequence, row)
    requires Finalizes(ops, |ops| - 1, h, |At(ops, |ops| - 1).events|) && ops[|ops| - 1].sourceId == row.sourceId
    ensures EventTraced(ops, |At(ops, |ops| - 1).events|, e)
  {
    var front := ops[..|ops| - 1];
    var a: nat, b: nat :| a < b && Takes(front, a, h) && Tells(row, front[a]) && RelatedBy(front, b, h, row);
    TakesStays(ops, a, h);
    PreparesStays(ops, b, h);
    assert EventTells(e, ops[a], ops[b]);
  }

  /**
   Every event of every run was taken in, prepared and published by three
   transactions of the run, in this order. It says what the intake was given, and
   relates to the task the preparing transaction found mapped, or to the tasks it
   found bound to the resource, in their order.
   */
  lemma {:induction false} EventsTellFacts(ops: seq<Op>, p: nat)
    requires p < |Run(EMPTY_TABLES, ops).events|
    ensures EventTraced(ops, p, Run(EMPTY_TABLES, ops).events[p])
    decreases |ops|
  {
    AtEnd(ops);
    var n := |ops| - 1;
    if At(ops, |ops|).events == At(ops, n).events {
      EventsTellFacts(ops[..n], p);
      EventStays(ops, p, At(ops, n).events[p]);
    } else {
      var h, e := LastPublishes(ops);
      if p < |At(ops, n).events| {
        EventsTellFacts(ops[..n], p);
        EventStays(ops, p, At(ops, n).events[p]);
      } else {
        NewestTraced(ops, h, e);
      }
    }
  }

  /** The head and the event of the last transaction, if it published one. */
  lemma LastPublishes(ops: seq<Op>) returns (h: nat, e: Event)
    requires ops != [] && At(ops, |ops|).events != At(ops, |ops| - 1).events
    ensures ops[|ops| - 1].OpFinalize?
    ensures PublishesHead(At(ops, |ops| - 1), At(ops, |ops|), ops[|ops| - 1].sourceId, h, e)
  {
    var n := |ops| - 1;
    AtEnd(ops);
    if !ops[n].OpFinalize? {
      EventsGoOn(At(ops, n), ops[n]);
    }
    FinalizePublishes(At(ops, n), ops[n].sourceId);
    h, e :| PublishesHead(At(ops, n), At(ops, |ops|), ops[n].sourceId, h, e);
  }

  /* ---------- continuity records ---------- */

  /** The record says what the rotation was asked for and found. */
  ghost predicate RecordTells(t: Tables, r: ContinuityRecord, op: Op) {
    && op.OpRotate? && t.runtime.Some? && t.runtime.value.currentStream in t.rosters
    && r.previousStream == t.runtime.value.currentStream && r.newStream == op.request.newStream
    && r.reasonCode == op.request.reasonCode && r.reasonIdentity == op.request.reasonIdentity
    && (op.request.affected != {} ==> r.affected == op.request.affected)
    && (op.request.affected == {} ==> r.affected == t.rosters[r.previousStream].Keys)
    && r.lastReplayable == |G.StreamEvents(t.events, r.previousStream)|
  }

  ghost predicate RecordTraced(ops: seq<Op>, i: nat, r: ContinuityRecord) {
    exists k :: 0 <= k < |ops| && |At(ops, k).continuity| == i && RecordTells(At(ops, k), r, ops[k])
  }

  lemma RecordsGoOn(t: Tables, op: Op)
    requires G.GenerationsSound(t)
    ensures Step(t, op).continuity == t.continuity
         || (|Step(t, op).continuity| == |t.continuity| + 1
             && Step(t, op).continuity[..|t.continuity|] == t.continuity
             && RecordTells(t, Step(t, op).continuity[|t.continuity|], op))
  {
    match op {
      case OpInitialize(sources, newStream) => G.InitializeFootprint(t, sources, newStream);
      case OpFinalize(sourceId) => G.FinalizeFootprint(t, sourceId);
      case OpRotate(q) => RotationTells(t, q);
      case _ => G.OtherFootprint(t, op);
    }
  }

  lemma RotationTells(t: Tables, q: RotationRequest)
    requires G.GenerationsSound(t)
    ensures var t' := Rotate(t, q).tables;
      t'.continuity == t.continuity
      || (|t'.continuity| == |t.continuity| + 1 && t'.continuity[..|t.continuity|] == t.continuity
          && RecordTells(t, t'.continuity[|t.continuity|], OpRotate(q)))
  {
  }

  /** Every record was made by a rotation of the run, and says what that was asked for. */
  lemma {:induction false} RecordsTellRequests(ops: seq<Op>, i: nat)
    requires i < |Run(EMPTY_TABLES, ops).continuity|
    ensures RecordTraced(ops, i, Run(EMPTY_TABLES, ops).continuity[i])
    decreases |ops|
  {
    AtEnd(ops);
    var n := |ops| - 1;
    G.GenerationsSoundAlways(ops[..n]);
    RecordsGoOn(At(ops, n), ops[n]);
    if i < |At(ops, n).continuity| {
      RecordsTellRequests(ops[..n], i);
      var k :| 0 <= k < n && |At(ops[..n], k).continuity| == i
               && RecordTells(At(ops[..n], k), At(ops, n).continuity[i], ops[..n][k]);
      AtEarlier(ops, k);
    }
  }
}
