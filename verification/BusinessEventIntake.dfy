/**
 At-least-once intake over every run: if the adapter replays a fixed log, the
 inbox of the source stream is always an exact prefix of that log.
 */
module BusinessEventIntake {
  import opened Basics
  import opened BusinessEventTables
  import O = BusinessEventOrdering

  /** A source stream. */
  datatype Key = Key(sourceId: Id, streamId: Id)

  predicate InStream(row: InboxRow, k: Key) {
    OfStream(row, k.sourceId, k.streamId) && row.decoded.Some?
  }

  /** The decoded rows of a source stream, in order of persistence. */
  function Persisted(inbox: seq<InboxRow>, k: Key): (rows: seq<InboxRow>)
    ensures forall i :: 0 <= i < |rows| ==> InStream(rows[i], k)
  {
    if inbox == [] then []
    else
      var front, last := Persisted(inbox[..|inbox| - 1], k), inbox[|inbox| - 1];
      if InStream(last, k) then front + [last] else front
  }

  /** What the adapter's log promises: increasing sequences in range and distinct event ids. */
  ghost predicate IsLog(log: seq<Fact>, k: Key) {
    && (forall i :: 0 <= i < |log| ==> log[i].streamId == k.streamId && 1 <= log[i].sequence <= MAX_SEQUENCE)
    && (forall i, j :: 0 <= i < j < |log| ==>
          log[i].sequence < log[j].sequence && log[i].eventId != log[j].eventId)
  }

  /** The stored rows are the first events of the log, in order, each once. */
  ghost predicate IsPrefix(inbox: seq<InboxRow>, k: Key, log: seq<Fact>) {
    var rows := Persisted(inbox, k);
    |rows| <= |log| && forall i :: 0 <= i < |rows| ==> SameFact(rows[i], log[i])
  }

  /** The persisted counter never runs ahead of the inbox. */
  ghost predicate CounterBehind(t: Tables, k: Key) {
    k.sourceId in t.sources && t.sources[k.sourceId].streamId == k.streamId ==>
      t.sources[k.sourceId].lastPersisted == 0
      || (Persisted(t.inbox, k) != []
          && t.sources[k.sourceId].lastPersisted
             <= Persisted(t.inbox, k)[|Persisted(t.inbox, k)| - 1].decoded.value.sequence)
  }

  /** Whatever worker and lease it comes through, a fact of the stream is a log event not beyond the next one. */
  ghost predicate Replays(t: Tables, op: Op, k: Key, log: seq<Fact>) {
    op.OpIntake? && op.lease.sourceId == k.sourceId && op.lease.streamId == k.streamId ==>
      exists n :: 0 <= n < |log| && n <= |Persisted(t.inbox, k)| && op.fact == log[n]
  }

  ghost predicate ReplaysIn(ops: seq<Op>, k: Key, log: seq<Fact>) {
    ops != [] ==>
      && ReplaysIn(ops[..|ops| - 1], k, log)
      && Replays(Run(EMPTY_TABLES, ops[..|ops| - 1]), ops[|ops| - 1], k, log)
  }

  /* ---------- positions in the inbox ---------- */

  lemma PersistedAppend(inbox: seq<InboxRow>, row: InboxRow, k: Key)
    ensures Persisted(inbox + [row], k) == Persisted(inbox, k) + if InStream(row, k) then [row] else []
  {
    assert (inbox + [row])[..|inbox|] == inbox;
  }

  /** Inbox row `i` of the stream is the row at its own position among the persisted ones. */
  lemma {:induction false} PositionOf(inbox: seq<InboxRow>, k: Key, i: nat)
    requires i < |inbox| && InStream(inbox[i], k)
    ensures |Persisted(inbox[..i], k)| < |Persisted(inbox, k)|
    ensures Persisted(inbox, k)[|Persisted(inbox[..i], k)|] == inbox[i]
  {
    var front := inbox[..|inbox| - 1];
    if i < |front| {
      assert front[..i] == inbox[..i];
      PositionOf(front, k, i);
    }
  }

  /** Different rows of the stream have different positions. */
  lemma {:induction false} PositionsDiffer(inbox: seq<InboxRow>, k: Key, i: nat, j: nat)
    requires i < j < |inbox| && InStream(inbox[i], k)
    ensures |Persisted(inbox[..i], k)| < |Persisted(inbox[..j], k)|
  {
    var upTo := inbox[..j];
    assert upTo[..i] == inbox[..i];
    PositionOf(upTo, k, i);
  }

  lemma {:induction false} RowAtPosition(inbox: seq<InboxRow>, k: Key, n: nat) returns (i: nat)
    requires n < |Persisted(inbox, k)|
    ensures i < |inbox| && InStream(inbox[i], k) && |Persisted(inbox[..i], k)| == n
    ensures Persisted(inbox, k)[n] == inbox[i]
  {
    var front := inbox[..|inbox| - 1];
    if n < |Persisted(front, k)| {
      i := RowAtPosition(front, k, n);
      assert front[..i] == inbox[..i];
    } else {
      i := |inbox| - 1;
    }
  }

  /** A row clashes with log event `n` exactly if it is that event. */
  lemma ClashIsSame(t: Tables, k: Key, log: seq<Fact>, lease: Lease, n: nat, i: nat)
    requires IsLog(log, k) && IsPrefix(t.inbox, k, log) && n < |log| && i < |t.inbox|
    requires lease.sourceId == k.sourceId && lease.streamId == k.streamId
    requires InStream(t.inbox[i], k)
    ensures Clashes(t, i, lease, log[n]) <==> |Persisted(t.inbox[..i], k)| == n
    ensures Clashes(t, i, lease, log[n]) ==> SameFact(t.inbox[i], log[n])
  {
    PositionOf(t.inbox, k, i);
    var m := |Persisted(t.inbox[..i], k)|;
    assert SameFact(t.inbox[i], log[m]);
    assert m < n ==> log[m].sequence < log[n].sequence && log[m].eventId != log[n].eventId;
    assert n < m ==> log[n].sequence < log[m].sequence && log[n].eventId != log[m].eventId;
  }

  /* ---------- what intake does with a log event ---------- */

  /** Redelivering a persisted event is a duplicate. */
  lemma StoredIsDuplicate(t: Tables, k: Key, log: seq<Fact>, lease: Lease, n: nat)
    requires IsLog(log, k) && IsPrefix(t.inbox, k, log) && n < |Persisted(t.inbox, k)|
    requires lease.sourceId == k.sourceId && lease.streamId == k.streamId
    ensures AnyClash(t, lease, log[n]) && ExactDuplicate(t, lease, log[n])
  {
    var i := RowAtPosition(t.inbox, k, n);
    ClashIsSame(t, k, log, lease, n, i);
    forall j | 0 <= j < |t.inbox| && Clashes(t, j, lease, log[n]) ensures j == i {
      ClashIsSame(t, k, log, lease, n, j);
      if i < j {
        PositionsDiffer(t.inbox, k, i, j);
      } else if j < i {
        PositionsDiffer(t.inbox, k, j, i);
      }
    }
  }

  lemma NextDoesNotClash(t: Tables, k: Key, log: seq<Fact>, lease: Lease)
    requires IsLog(log, k) && IsPrefix(t.inbox, k, log) && |Persisted(t.inbox, k)| < |log|
    requires lease.sourceId == k.sourceId && lease.streamId == k.streamId
    ensures !AnyClash(t, lease, log[|Persisted(t.inbox, k)|])
  {
    var n := |Persisted(t.inbox, k)|;
    forall i | 0 <= i < |t.inbox| ensures !Clashes(t, i, lease, log[n]) {
      if InStream(t.inbox[i], k) {
        ClashIsSame(t, k, log, lease, n, i);
        PositionOf(t.inbox, k, i);
      }
    }
  }

  /** A redelivered event, under any lease and clock, changes no table. */
  lemma RedeliveryChangesNothing(
      t: Tables, k: Key, log: seq<Fact>, lease: Lease, n: nat, deadline: Instant, checked: Instant, updated: Instant)
    requires IsLog(log, k) && IsPrefix(t.inbox, k, log) && n < |Persisted(t.inbox, k)|
    requires lease.sourceId == k.sourceId && lease.streamId == k.streamId
    ensures Intake(t, lease, log[n], deadline, checked, updated).tables == t
    ensures LeaseValid(t, lease, checked) ==>
      Intake(t, lease, log[n], deadline, checked, updated).outcome == Done(DuplicateFact)
  {
    StoredIsDuplicate(t, k, log, lease, n);
  }

  /** The next event of the log, under a valid lease, is always taken, valid or not. */
  lemma NextIsTaken(
      t: Tables, k: Key, log: seq<Fact>, lease: Lease, deadline: Instant, checked: Instant, updated: Instant)
    requires IsLog(log, k) && IsPrefix(t.inbox, k, log) && CounterBehind(t, k)
    requires |Persisted(t.inbox, k)| < |log|
    requires lease.sourceId == k.sourceId && lease.streamId == k.streamId && LeaseValid(t, lease, checked)
    ensures var n := |Persisted(t.inbox, k)|;
      var tx := Intake(t, lease, log[n], deadline, checked, updated);
      && tx.outcome == Done(if log[n].valid then ReceivedFact else RejectedFact)
      && tx.tables.inbox == t.inbox + [IntakeRow(lease, log[n], deadline)]
  {
    NextDoesNotClash(t, k, log, lease);
    var rows := Persisted(t.inbox, k);
    if rows != [] {
      assert SameFact(rows[|rows| - 1], log[|rows| - 1]);
    }
  }

  /* ---------- every step keeps the prefix ---------- */

  /** Rows are only ever appended or given a new status; no decoded content changes. */
  ghost predicate SameIdentities(inbox: seq<InboxRow>, inbox': seq<InboxRow>) {
    && |inbox'| == |inbox|
    && forall i :: 0 <= i < |inbox| ==>
         inbox'[i].sourceId == inbox[i].sourceId && inbox'[i].streamId == inbox[i].streamId
         && inbox'[i].decoded == inbox[i].decoded
  }

  lemma {:induction false} SameIdentitiesPersist(inbox: seq<InboxRow>, inbox': seq<InboxRow>, k: Key)
    requires SameIdentities(inbox, inbox')
    ensures |Persisted(inbox', k)| == |Persisted(inbox, k)|
    ensures forall i :: 0 <= i < |Persisted(inbox, k)| ==>
      Persisted(inbox', k)[i].decoded == Persisted(inbox, k)[i].decoded
  {
    if inbox != [] {
      SameIdentitiesPersist(inbox[..|inbox| - 1], inbox'[..|inbox'| - 1], k);
    }
  }

  ghost predicate PrefixSound(t: Tables, k: Key, log: seq<Fact>) {
    IsPrefix(t.inbox, k, log) && CounterBehind(t, k)
  }

  lemma SameRowsKeepPrefix(t: Tables, t': Tables, k: Key, log: seq<Fact>)
    requires PrefixSound(t, k, log) && SameIdentities(t.inbox, t'.inbox)
    requires k.sourceId in t'.sources && t'.sources[k.sourceId].streamId == k.streamId ==>
      || t'.sources[k.sourceId].lastPersisted == 0
      || (k.sourceId in t.sources && t.sources[k.sourceId].streamId == k.streamId
          && t'.sources[k.sourceId].lastPersisted == t.sources[k.sourceId].lastPersisted)
    ensures PrefixSound(t', k, log)
  {
    SameIdentitiesPersist(t.inbox, t'.inbox, k);
    forall i | 0 <= i < |Persisted(t'.inbox, k)| ensures SameFact(Persisted(t'.inbox, k)[i], log[i]) {
      assert SameFact(Persisted(t.inbox, k)[i], log[i]);
    }
  }

  /** Appending a row of another stream, or the next log event of this one, keeps the prefix. */
  lemma AppendKeepsPrefix(t: Tables, t': Tables, k: Key, log: seq<Fact>, row: InboxRow)
    requires PrefixSound(t, k, log) && O.Appends(t, t', row)
    requires InStream(row, k) ==> |Persisted(t.inbox, k)| < |log| && SameFact(row, log[|Persisted(t.inbox, k)|])
    requires row.decoded.Some? ==>
      t'.sources[row.sourceId].lastPersisted in {t.sources[row.sourceId].lastPersisted, row.decoded.value.sequence}
    requires forall id :: id in t.sources && (id != row.sourceId || row.decoded.None?) ==>
      t'.sources[id].lastPersisted == t.sources[id].lastPersisted
    ensures PrefixSound(t', k, log)
  {
    AppendKeepsRows(t.inbox, k, log, row);
    AppendKeepsCounter(t, t', k, row);
  }

  lemma AppendKeepsRows(inbox: seq<InboxRow>, k: Key, log: seq<Fact>, row: InboxRow)
    requires IsPrefix(inbox, k, log)
    requires InStream(row, k) ==> |Persisted(inbox, k)| < |log| && SameFact(row, log[|Persisted(inbox, k)|])
    ensures IsPrefix(inbox + [row], k, log)
  {
    PersistedAppend(inbox, row, k);
    var (rows, rows') := (Persisted(inbox, k), Persisted(inbox + [row], k));
    forall i | 0 <= i < |rows'| ensures SameFact(rows'[i], log[i]) {
      assert i < |rows| ==> rows'[i] == rows[i] && SameFact(rows[i], log[i]);
    }
  }

  lemma AppendKeepsCounter(t: Tables, t': Tables, k: Key, row: InboxRow)
    requires CounterBehind(t, k) && O.Appends(t, t', row)
    requires row.decoded.Some? ==>
      t'.sources[row.sourceId].lastPersisted in {t.sources[row.sourceId].lastPersisted, row.decoded.value.sequence}
    requires forall id :: id in t.sources && (id != row.sourceId || row.decoded.None?) ==>
      t'.sources[id].lastPersisted == t.sources[id].lastPersisted
    ensures CounterBehind(t', k)
  {
    PersistedAppend(t.inbox, row, k);
    if k.sourceId in t'.sources && t'.sources[k.sourceId].streamId == k.streamId && InStream(row, k) {
      var rows := Persisted(t'.inbox, k);
      assert rows[|rows| - 1] == row;
      assert t.sources[k.sourceId].lastPersisted < row.decoded.value.sequence;
    }
  }

  lemma IntakeCounters(t: Tables, lease: Lease, fact: Fact, deadline: Instant, checked: Instant, updated: Instant)
    ensures var t' := Intake(t, lease, fact, deadline, checked, updated).tables;
      && t'.sources.Keys == t.sources.Keys
      && forall id :: id in t.sources ==>
           t'.sources[id].lastPersisted == t.sources[id].lastPersisted
           || (id == lease.sourceId && t'.sources[id].lastPersisted == fact.sequence)
  {
  }

  lemma IntakeKeepsPrefix(
      t: Tables, k: Key, log: seq<Fact>,
      lease: Lease, fact: Fact, deadline: Instant, checked: Instant, updated: Instant)
    requires IsLog(log, k) && PrefixSound(t, k, log)
    requires Replays(t, OpIntake(lease, fact, deadline, checked, updated), k, log)
    ensures PrefixSound(Intake(t, lease, fact, deadline, checked, updated).tables, k, log)
  {
    var tx := Intake(t, lease, fact, deadline, checked, updated);
    O.IntakeFootprint(t, lease, fact, deadline, checked, updated);
    IntakeCounters(t, lease, fact, deadline, checked, updated);
    if tx.outcome.Done? && !tx.outcome.value.DuplicateFact? {
      if lease.sourceId == k.sourceId && lease.streamId == k.streamId {
        var n :| 0 <= n < |log| && n <= |Persisted(t.inbox, k)| && fact == log[n];
        if n < |Persisted(t.inbox, k)| {
          RedeliveryChangesNothing(t, k, log, lease, n, deadline, checked, updated);
        }
      }
      AppendKeepsPrefix(t, tx.tables, k, log, IntakeRow(lease, fact, deadline));
    } else {
      SameRowsKeepPrefix(t, tx.tables, k, log);
    }
  }

  lemma PoisonKeepsPrefix(t: Tables, k: Key, log: seq<Fact>, lease: Lease, now: Instant)
    requires PrefixSound(t, k, log)
    ensures PrefixSound(Poison(t, lease, now).tables, k, log)
  {
    var t' := Poison(t, lease, now).tables;
    if t' != t {
      PersistedAppend(t.inbox, InboxRow(lease.sourceId, lease.streamId, Rejected, None, None), k);
    }
  }

  lemma StepKeepsPrefix(t: Tables, op: Op, k: Key, log: seq<Fact>)
    requires IsLog(log, k) && PrefixSound(t, k, log) && Replays(t, op, k, log)
    requires t.runtime.None? ==> t == EMPTY_TABLES
    ensures PrefixSound(Step(t, op), k, log)
  {
    match op {
      case OpIntake(lease, fact, deadline, checked, updated) =>
        IntakeKeepsPrefix(t, k, log, lease, fact, deadline, checked, updated);
      case OpPoison(lease, now) => PoisonKeepsPrefix(t, k, log, lease, now);
      case _ =>
        OtherStep(t, op, k);
        SameRowsKeepPrefix(t, Step(t, op), k, log);
    }
  }

  /** Rows keep their identities, and the counter of a stream stays or starts anew. */
  ghost predicate LeavesIntake(t: Tables, t': Tables, k: Key) {
    && SameIdentities(t.inbox, t'.inbox)
    && (k.sourceId in t'.sources && t'.sources[k.sourceId].streamId == k.streamId ==>
          || t'.sources[k.sourceId].lastPersisted == 0
          || (k.sourceId in t.sources && t.sources[k.sourceId].streamId == k.streamId
              && t'.sources[k.sourceId].lastPersisted == t.sources[k.sourceId].lastPersisted))
  }

  lemma InitializeLeavesIntake(t: Tables, sources: seq<SourceDefinition>, stream: Id, k: Key)
    requires t.runtime.None? ==> t == EMPTY_TABLES
    ensures LeavesIntake(t, Initialize(t, sources, stream).tables, k)
  {
  }

  lemma PrepareLeavesIntake(t: Tables, op: Op, k: Key)
    requires op.OpPrepare? || op.OpFinalize?
    ensures LeavesIntake(t, Step(t, op), k)
  {
    if op.OpPrepare? {
      O.PrepareFootprint(t, op.sourceId, op.mapped, op.related, op.now);
    } else {
      O.FinalizeRowFootprint(t, op.sourceId);
    }
  }

  lemma RotateLeavesIntake(t: Tables, q: RotationRequest, k: Key)
    ensures LeavesIntake(t, Rotate(t, q).tables, k)
  {
    O.RotateRowFootprint(t, q);
  }

  lemma OtherStep(t: Tables, op: Op, k: Key)
    requires !op.OpIntake? && !op.OpPoison? && (t.runtime.None? ==> t == EMPTY_TABLES)
    ensures LeavesIntake(t, Step(t, op), k)
  {
    if op.OpInitialize? {
      InitializeLeavesIntake(t, op.sources, op.newStream, k);
    } else if op.OpPrepare? || op.OpFinalize? {
      PrepareLeavesIntake(t, op, k);
    } else if op.OpRotate? {
      RotateLeavesIntake(t, op.request, k);
    } else {
      O.QuietFootprint(t, op);
    }
  }
}

/** The intake theorem needs the tables to start empty, which the generations module proves. */
module BusinessEventIntakeRuns {
  import opened BusinessEventTables
  import opened BusinessEventIntake
  import G = BusinessEventGenerations

  /**
   Over every run in which the adapter replays a fixed log of a source stream
   from any point at or before the next unpersisted event, through any leases,
   stale workers, rotations and clock readings, what is persisted is a prefix
   of the log.
   */
  lemma {:induction false} InboxIsPrefixOfLog(ops: seq<Op>, k: Key, log: seq<Fact>)
    requires IsLog(log, k) && ReplaysIn(ops, k, log)
    ensures PrefixSound(Run(EMPTY_TABLES, ops), k, log)
  {
    if ops != [] {
      var front := ops[..|ops| - 1];
      InboxIsPrefixOfLog(front, k, log);
      G.GenerationsSoundAlways(front);
      StepKeepsPrefix(Run(EMPTY_TABLES, front), ops[|ops| - 1], k, log);
    }
  }
}
