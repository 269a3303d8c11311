/**
 Sources whose adapter replays a fixed log of every stream: what intake stores
 is always the newest, so order needs no condition at all, and contiguity none
 on intakes.
 */
module BusinessEventReplay {
  import opened Basics
  import opened BusinessEventTables
  import opened BusinessEventOrdering
  import opened BusinessEventContiguity
  import I = BusinessEventIntake
  import R = BusinessEventIntakeRuns
  import G = BusinessEventGenerations

  /** Every stream of the source has a log, and the run replays it. */
  ghost predicate ReplaysLogs(ops: seq<Op>, id: Id, logs: Id -> seq<Fact>) {
    forall stream :: I.IsLog(logs(stream), I.Key(id, stream)) && I.ReplaysIn(ops, I.Key(id, stream), logs(stream))
  }

  /** What a replaying adapter adds is above every row of its stream. */
  lemma StoredIsNewest(t: Tables, op: Op, id: Id, log: seq<Fact>, j: nat)
    requires Stores(t, op, id) && j < |t.inbox|
    requires var k := I.Key(id, op.lease.streamId);
      I.IsLog(log, k) && I.PrefixSound(t, k, log) && I.Replays(t, op, k, log)
    ensures !Below(Stored(op), t.inbox[j])
  {
    var k := I.Key(id, op.lease.streamId);
    var n :| 0 <= n < |log| && n <= |I.Persisted(t.inbox, k)| && op.fact == log[n];
    if n < |I.Persisted(t.inbox, k)| {
      I.RedeliveryChangesNothing(t, k, log, op.lease, n, op.deadline, op.checked, op.updated);
      assert false;
    } else if I.InStream(t.inbox[j], k) {
      I.PositionOf(t.inbox, k, j);
      var pos := |I.Persisted(t.inbox[..j], k)|;
      assert SameFact(I.Persisted(t.inbox, k)[pos], log[pos]);
    }
  }

  lemma ReplayedStoresNothingLow(t: Tables, op: Op, id: Id, log: seq<Fact>)
    requires EventsMatchRows(t) && Stores(t, op, id)
    requires var k := I.Key(id, op.lease.streamId);
      I.IsLog(log, k) && I.PrefixSound(t, k, log) && I.Replays(t, op, k, log)
    ensures !StoresBehind(t, op, id) && !StoresLow(t, op, id)
  {
    forall j | 0 <= j < |t.inbox| ensures !Below(Stored(op), t.inbox[j]) {
      StoredIsNewest(t, op, id, log, j);
    }
    forall p, r | 0 <= p < r < |t.events| && Pair(t, p, r)
      ensures !Encloses(t.events[p], Stored(op), t.events[r])
    {
      var k := RowOfEvent(t, r);
      assert !Below(Stored(op), t.inbox[k]);
    }
  }

  lemma ReplaySplits(ops: seq<Op>, id: Id, logs: Id -> seq<Fact>)
    requires ops != [] && ReplaysLogs(ops, id, logs)
    ensures ReplaysLogs(ops[..|ops| - 1], id, logs)
    ensures forall stream ::
      I.Replays(Run(EMPTY_TABLES, ops[..|ops| - 1]), ops[|ops| - 1], I.Key(id, stream), logs(stream))
  {
    forall stream
      ensures I.IsLog(logs(stream), I.Key(id, stream))
      ensures I.ReplaysIn(ops[..|ops| - 1], I.Key(id, stream), logs(stream))
      ensures I.Replays(Run(EMPTY_TABLES, ops[..|ops| - 1]), ops[|ops| - 1], I.Key(id, stream), logs(stream))
    {
      assert I.ReplaysIn(ops, I.Key(id, stream), logs(stream));
    }
  }

  /** The last step of a replaying run stores nothing below anything. */
  lemma ReplayedLast(ops: seq<Op>, id: Id, logs: Id -> seq<Fact>)
    requires ops != [] && ReplaysLogs(ops, id, logs)
    ensures var t := Run(EMPTY_TABLES, ops[..|ops| - 1]);
      !StoresBehind(t, ops[|ops| - 1], id) && !StoresLow(t, ops[|ops| - 1], id)
  {
    var front, op := ops[..|ops| - 1], ops[|ops| - 1];
    var t := Run(EMPTY_TABLES, front);
    ReplaySplits(ops, id, logs);
    if Stores(t, op, id) {
      var stream := op.lease.streamId;
      R.InboxIsPrefixOfLog(front, I.Key(id, stream), logs(stream));
      TablesSoundAlways(front);
      ReplayedStoresNothingLow(t, op, id, logs(stream));
    }
  }

  /** If the adapter replays a log of every stream, the source's events are in order, whatever the rotations. */
  lemma {:induction false} ReplayedIsOrdered(ops: seq<Op>, id: Id, logs: Id -> seq<Fact>)
    requires ReplaysLogs(ops, id, logs)
    ensures Orderly(Run(EMPTY_TABLES, ops), id) && EventsOrdered(Run(EMPTY_TABLES, ops).events, id)
  {
    if ops != [] {
      var front := ops[..|ops| - 1];
      ReplaySplits(ops, id, logs);
      ReplayedIsOrdered(front, id, logs);
      ReplayedLast(ops, id, logs);
      TablesSoundAlways(front);
      G.GenerationsSoundAlways(front);
      StepOrderly(Run(EMPTY_TABLES, front), ops[|ops| - 1], id);
    }
  }

  /** No head of the source is given up after an event of its generation, and rotations skip leading losses of it. */
  ghost predicate Spares(t: Tables, op: Op, id: Id) {
    && !(Drops(t, op, id) && HasBegun(t, id))
    && (op.OpRotate? && Rotate(t, op.request).tables != t ==> LossesLead(t, op.request, id))
  }

  ghost predicate SparesIn(ops: seq<Op>, id: Id) {
    ops != [] ==>
      SparesIn(ops[..|ops| - 1], id) && Spares(Run(EMPTY_TABLES, ops[..|ops| - 1]), ops[|ops| - 1], id)
  }

  /** If the adapter replays a log of every stream, a run is careful without any condition on intakes. */
  lemma {:induction false} ReplayedIsCareful(ops: seq<Op>, id: Id, logs: Id -> seq<Fact>)
    requires ReplaysLogs(ops, id, logs) && SparesIn(ops, id)
    ensures CarefulFrom(EMPTY_TABLES, ops, id)
  {
    if ops != [] {
      ReplaySplits(ops, id, logs);
      ReplayedIsCareful(ops[..|ops| - 1], id, logs);
      ReplayedLast(ops, id, logs);
    }
  }

  /**
   Over every run in which the adapter replays a log of every stream of a source,
   through any leases, expiries, stale workers and returns to old streams, if
   rotations skip leading losses of it only and no head of it is given up, its
   events in one generation are a contiguous run of its inbox.
   */
  lemma ReplayedIsContiguous(ops: seq<Op>, logs: Id -> seq<Fact>, p: nat, j: nat, r: nat)
    requires p < r < |Run(EMPTY_TABLES, ops).events| && j < |Run(EMPTY_TABLES, ops).inbox|
    requires var id := Run(EMPTY_TABLES, ops).events[p].sourceId; ReplaysLogs(ops, id, logs) && SparesIn(ops, id)
    requires Pair(Run(EMPTY_TABLES, ops), p, r) && Between(Run(EMPTY_TABLES, ops), p, j, r)
    ensures PublishedBetween(Run(EMPTY_TABLES, ops), p, j, r)
  {
    ReplayedIsCareful(ops, Run(EMPTY_TABLES, ops).events[p].sourceId, logs);
    GenerationsContiguous(ops, p, j, r);
  }
}
