/**
 What each transaction answers, and what the answer says about the tables after it:
 why a fact was refused and what became of its source, what preparing found, when
 initializing, renewing and rotating are refused.
 */
module BusinessEventReplies {
  import opened Basics
  import opened BusinessEventTables
  import opened BusinessEventOrdering
  import G = BusinessEventGenerations

  /* ---------- facts ---------- */

  /** The fact is stored: some row of the stream has its id, its sequence and its contents. */
  ghost predicate IsStored(t: Tables, lease: Lease, fact: Fact) {
    exists i :: 0 <= i < |t.inbox| && OfStream(t.inbox[i], lease.sourceId, lease.streamId) && SameFact(t.inbox[i], fact)
  }

  /** Some row of the stream has its id or its sequence. */
  ghost predicate SharesIdentity(t: Tables, lease: Lease, fact: Fact) {
    exists i :: 0 <= i < |t.inbox| && OfStream(t.inbox[i], lease.sourceId, lease.streamId)
                && t.inbox[i].decoded.Some?
                && (t.inbox[i].decoded.value.eventId == fact.eventId || Seq(t.inbox[i]) == fact.sequence)
  }

  lemma ClashesShare(t: Tables, lease: Lease, fact: Fact)
    ensures AnyClash(t, lease, fact) <==> SharesIdentity(t, lease, fact)
    ensures IsStored(t, lease, fact) ==> AnyClash(t, lease, fact)
  {
    if SharesIdentity(t, lease, fact) {
      var i :| 0 <= i < |t.inbox| && OfStream(t.inbox[i], lease.sourceId, lease.streamId)
               && t.inbox[i].decoded.Some?
               && (t.inbox[i].decoded.value.eventId == fact.eventId || Seq(t.inbox[i]) == fact.sequence);
      assert Clashes(t, i, lease, fact);
    }
    if IsStored(t, lease, fact) {
      var i :| 0 <= i < |t.inbox| && OfStream(t.inbox[i], lease.sourceId, lease.streamId)
               && SameFact(t.inbox[i], fact);
      assert Clashes(t, i, lease, fact);
    }
  }

  /** Since identities are unique, a stored fact clashes with itself only. */
  lemma StoredIsDuplicate(t: Tables, lease: Lease, fact: Fact)
    requires IdentitiesUnique(t.inbox)
    ensures ExactDuplicate(t, lease, fact) <==> IsStored(t, lease, fact)
  {
    if IsStored(t, lease, fact) {
      var i :| 0 <= i < |t.inbox| && OfStream(t.inbox[i], lease.sourceId, lease.streamId)
               && SameFact(t.inbox[i], fact);
      assert Clashes(t, i, lease, fact);
      forall j | 0 <= j < |t.inbox| && Clashes(t, j, lease, fact) ensures j == i {
        assert j < i ==> Distinguished(t.inbox[j], t.inbox[i]);
        assert i < j ==> Distinguished(t.inbox[i], t.inbox[j]);
      }
    }
  }

  /** Only the status of the source changes, to this one. */
  ghost predicate Sets(t: Tables, t': Tables, id: Id, status: SourceStatus) {
    id in t.sources && t' == t.(sources := t.sources[id := t.sources[id].(status := status)])
  }

  /** The row is the source's newest, and the counter follows it only if the lease was still valid. */
  ghost predicate StoresFact(
      t: Tables, t': Tables, lease: Lease, fact: Fact, deadline: Instant, status: RowStatus, counted: bool)
  {
    && lease.sourceId in t.sources
    && t'.inbox == t.inbox + [InboxRow(lease.sourceId, lease.streamId, status,
                                       Some(Decoded(fact.eventId, fact.sequence, fact.body, deadline)), None)]
    && (!counted ==> t'.sources == t.sources)
    && (counted ==> lease.sourceId in t'.sources && t'.sources == t.sources[lease.sourceId :=
          t.sources[lease.sourceId].(lastPersisted := fact.sequence, status := t'.sources[lease.sourceId].status)])
    && t' == t.(inbox := t'.inbox, sources := t'.sources)
  }

  /**
   In a sound state a fact is answered by the first of these that applies: its
   sequence is out of range; the lease is not valid; it is of another stream, which
   blocks the source; it is stored already, and nothing changes; it shares an
   identity with another fact, or its sequence was passed, which blocks the source.
   */
  lemma RefusedFacts(t: Tables, lease: Lease, fact: Fact, deadline: Instant, checked: Instant, updated: Instant)
    requires IdentitiesUnique(t.inbox)
    ensures var tx := Intake(t, lease, fact, deadline, checked, updated);
      if fact.sequence < 1 || fact.sequence > MAX_SEQUENCE then tx == Tx(t, Failed(SequenceInvalid))
      else if !LeaseValid(t, lease, checked) then tx == Tx(t, Failed(StaleFence))
      else if fact.streamId != lease.streamId then
        tx.outcome == Failed(SourceStreamReset) && Sets(t, tx.tables, lease.sourceId, BlockedIdentityConflict)
      else if IsStored(t, lease, fact) then tx == Tx(t, Done(DuplicateFact))
      else if SharesIdentity(t, lease, fact) then
        tx.outcome == Failed(IdempotencyConflict) && Sets(t, tx.tables, lease.sourceId, BlockedIdentityConflict)
      else if fact.sequence <= t.sources[lease.sourceId].lastPersisted then
        tx.outcome == Failed(SequenceRegression) && Sets(t, tx.tables, lease.sourceId, BlockedIdentityConflict)
      else tx.outcome.Done? && !tx.outcome.value.DuplicateFact?
  {
    ClashesShare(t, lease, fact);
    StoredIsDuplicate(t, lease, fact);
  }

  /**
   Any other fact is stored. If the lease is still valid afterwards it is counted,
   and the source is active; or, if the fact is invalid, waits for a rotation if it
   is durable and is degraded if not.
   */
  lemma TakenFacts(t: Tables, lease: Lease, fact: Fact, deadline: Instant, checked: Instant, updated: Instant)
    requires var tx := Intake(t, lease, fact, deadline, checked, updated);
      tx.outcome.Done? && !tx.outcome.value.DuplicateFact?
    ensures var tx := Intake(t, lease, fact, deadline, checked, updated);
      var counted := LeaseValid(t, lease, updated);
      && tx.outcome == Done(if fact.valid then ReceivedFact else RejectedFact)
      && StoresFact(t, tx.tables, lease, fact, deadline, if fact.valid then Received else Rejected, counted)
      && (counted && fact.valid ==> tx.tables.sources[lease.sourceId].status.Active?)
      && (counted && !fact.valid ==>
            && (t.sources[lease.sourceId].semantics.DurableAtLeastOnce? <==>
                  tx.tables.sources[lease.sourceId].status.LossPending?)
            && (t.sources[lease.sourceId].semantics.BestEffortLive? <==>
                  tx.tables.sources[lease.sourceId].status.Degraded?))
  {
  }

  /** What cannot be decoded is refused without a valid lease, and otherwise stored, and blocks the source. */
  lemma PoisonExactly(t: Tables, lease: Lease, now: Instant)
    ensures var tx := Poison(t, lease, now);
      && (tx.outcome == Failed(StaleFence) <==> !LeaseValid(t, lease, now))
      && (tx.outcome.Failed? ==> tx.tables == t)
      && (tx.outcome.Done? ==>
            && |tx.tables.inbox| == |t.inbox| + 1 && tx.tables.inbox[|t.inbox|].decoded.None?
            && Sets(t.(inbox := tx.tables.inbox), tx.tables, lease.sourceId, BlockedContractViolation))
  {
  }

  /** A source is marked by the worker that holds it, at any time, and by nobody else. */
  lemma MarkExactly(t: Tables, lease: Lease)
    ensures var t' := MarkUnavailable(t, lease).tables;
      && (Matches(t, lease) ==> Sets(t, t', lease.sourceId, Unavailable))
      && (!Matches(t, lease) ==> t' == t)
  {
  }

  /** A valid lease, and no other, is extended to the given time and given out again with the counters as they are. */
  lemma RenewExactly(t: Tables, lease: Lease, now: Instant, until: Instant)
    ensures var tx := Renew(t, lease, now, until);
      && (tx.outcome.Done? <==> LeaseValid(t, lease, now))
      && (tx.outcome.Failed? ==> tx == Tx(t, Failed(StaleFence)))
      && (tx.outcome.Done? ==>
            var s := t.sources[lease.sourceId];
            && tx.outcome.value == lease.(lastPersisted := s.lastPersisted, lastFinalized := s.lastFinalized)
            && tx.tables == t.(sources := t.sources[lease.sourceId := s.(holder := Some(Holder(lease.owner, until)))])
            && forall at :: LeaseValid(tx.tables, lease, at) <==> at < until)
  {
  }

  /* ---------- preparing ---------- */

  /** Nothing of the source's current stream is open. */
  ghost predicate NothingOpen(t: Tables, id: Id)
    requires id in t.sources
  {
    forall i :: 0 <= i < |t.inbox| && OfStream(t.inbox[i], id, t.sources[id].streamId) ==> !IsOpen(t.inbox[i].status)
  }

  lemma HeadExists(t: Tables, id: Id)
    requires id in t.sources
    ensures Head(t, id).None? <==> NothingOpen(t, id)
  {
    HeadIsFirst(t.inbox, |t.inbox|, id, t.sources[id].streamId);
    forall i | Head(t, id).None? && 0 <= i < |t.inbox| && OfStream(t.inbox[i], id, t.sources[id].streamId)
      ensures !IsOpen(t.inbox[i].status)
    {
      assert !OpenAt(t.inbox, i, id, t.sources[id].streamId);
    }
  }

  /**
   In a sound state the answer tells what the head has become: ready, waiting for its
   task, lost; or that nothing of the source's stream is open. A source that lost a
   row by this waits for a rotation if it is durable and is degraded if not.
   */
  lemma PrepareExactly(t: Tables, id: Id, mapped: Option<Id>, related: seq<Id>, now: Instant)
    requires RowsSound(t)
    ensures var tx := Prepare(t, id, mapped, related, now);
      && (tx.outcome.Failed? <==> id !in t.sources)
      && (tx.outcome.Failed? ==> tx == Tx(t, Failed(SourceNotFound)))
      && (tx.outcome.Done? ==>
            && (tx.outcome.value.NothingToPrepare? <==> NothingOpen(t, id))
            && (tx.outcome.value.NothingToPrepare? <==> Head(t, id).None?)
            && (Head(t, id).Some? ==>
                  && |tx.tables.inbox| == |t.inbox|
                  && var (row, row') := (t.inbox[Head(t, id).value], tx.tables.inbox[Head(t, id).value]);
                  && (tx.outcome.value.PreparedReady? <==> row'.status.Ready?)
                  && (tx.outcome.value.PreparedPending? <==> row'.status.PendingMapping?)
                  && (tx.outcome.value.PreparedTerminal? <==> IsLoss(row'.status) || row'.status.TerminalSkipped?)
                  && (row.status.Ready? || IsLoss(row.status) ==> tx.tables == t)
                  && (IsLive(row.status) && IsLoss(row'.status) ==> tx.tables.sources[id].status.LossPending?)
                  && (row'.status.TerminalSkipped? ==> tx.tables.sources[id].status.Degraded?)
                  && (IsLive(row'.status) ==> tx.tables.sources == t.sources)))
  {
    if id in t.sources {
      HeadExists(t, id);
      if Head(t, id).Some? {
        assert RowSound(t, t.inbox[Head(t, id).value]);
      }
    }
  }

  /** Preparing goes on: a row whose task is mapped, or whose subject is a resource, becomes ready. */
  lemma PrepareProceeds(t: Tables, id: Id, mapped: Option<Id>, related: seq<Id>, now: Instant)
    requires RowsSound(t) && id in t.sources && Head(t, id).Some?
    requires IsLive(t.inbox[Head(t, id).value].status)
    ensures var h := Head(t, id).value;
      var d := t.inbox[h].decoded;
      && d.Some?
      && (Prepare(t, id, mapped, related, now).outcome == Done(PreparedReady) <==>
            t.inbox[h].status.Ready? || d.value.body.subject.ResourceSubject? || mapped.Some?)
  {
    assert RowSound(t, t.inbox[Head(t, id).value]);
  }

  /* ---------- generations ---------- */

  /**
   Initializing answers with the current stream, after it as before it: the one it
   opens for a provider that has none, and the one there is otherwise. It refuses
   wrong numbers of sources always, and repeated sources the first time.
   */
  lemma InitializeExactly(t: Tables, sources: seq<SourceDefinition>, newStream: Id)
    requires G.GenerationsSound(t)
    ensures var tx := Initialize(t, sources, newStream);
      && (tx.outcome.Done? <==>
            1 <= |sources| <= MAX_SOURCES && (t.runtime.Some? || DistinctSources(sources)))
      && (tx.outcome.Failed? || t.runtime.Some? ==> tx.tables == t)
      && (tx.outcome.Done? ==>
            tx.tables.runtime.Some? && tx.tables.runtime.value.currentStream == tx.outcome.value)
      && (tx.outcome.Done? && t.runtime.None? ==> tx.outcome.value == newStream)
  {
  }

  /** The number of configured sources, or of the current roster, is from 1 to 16, and none is configured twice. */
  ghost predicate RosterRequested(t: Tables, q: RotationRequest)
    requires t.runtime.Some? && t.runtime.value.currentStream in t.rosters
  {
    if q.replacement.Some? then
      && |q.replacement.value| <= MAX_SOURCES && DistinctSources(q.replacement.value)
      && 1 <= |RosterOf(q.replacement.value)| <= MAX_SOURCES
    else 1 <= |t.rosters[t.runtime.value.currentStream]| <= MAX_SOURCES
  }

  /**
   A new reason rotates the stream if and only if there is one, the sources requested
   are admissible and the new stream id was never used; a reason given before changes
   nothing. Every refusal leaves the tables as they were.
   */
  lemma RotateExactly(t: Tables, q: RotationRequest)
    requires G.GenerationsSound(t)
    ensures var tx := Rotate(t, q);
      var repeated := exists i :: 0 <= i < |t.continuity| && t.continuity[i].reasonIdentity == q.reasonIdentity;
      && (tx.tables != t <==>
            && !repeated && t.runtime.Some? && RosterRequested(t, q)
            && (q.affected != {} || t.rosters[t.runtime.value.currentStream] != map[])
            && q.newStream !in t.generations)
      && (tx.outcome.Done? <==> tx.tables != t || repeated)
      && (!repeated && t.runtime.None? ==> tx.outcome == Failed(NotFound))
      && (!repeated && t.runtime.Some? && !RosterRequested(t, q) ==> tx.outcome == Failed(SourceCountInvalid))
  {
    var tx := Rotate(t, q);
    assert tx.tables.continuity == t.continuity || |tx.tables.continuity| == |t.continuity| + 1;
  }

  /**
   After a rotation every source of the new roster is active, free, and enrolled as it
   says; it keeps its token, and its counters exactly if it stays on its stream. Every
   other source is disabled and free, and otherwise as it was.
   */
  lemma EnrolledExactly(t: Tables, q: RotationRequest, id: Id)
    requires Rotate(t, q).tables != t && id in Rotate(t, q).tables.sources
    ensures t.runtime.Some? && q.newStream in Rotate(t, q).tables.rosters
    ensures var t' := Rotate(t, q).tables;
      var (roster, s') := (t'.rosters[q.newStream], t'.sources[id]);
      && s'.holder.None? && (id in t.sources || id in roster)
      && (id in t.sources ==> s'.fencingToken == t.sources[id].fencingToken)
      && (id in roster ==>
            s'.status.Active? && s'.streamId == roster[id].streamId && s'.semantics == roster[id].semantics)
      && (id in roster && id in t.sources && t.sources[id].streamId == roster[id].streamId ==>
            s'.lastPersisted == t.sources[id].lastPersisted && s'.lastFinalized == t.sources[id].lastFinalized)
      && (id in roster && (id in t.sources ==> t.sources[id].streamId != roster[id].streamId) ==>
            s'.lastPersisted == 0 && s'.lastFinalized == 0)
      && (id !in roster ==> s' == t.sources[id].(status := Disabled, holder := None))
  {
    var t' := Rotate(t, q).tables;
    assert t'.sources == RotatedSources(t.sources, t'.rosters[q.newStream]);
  }
}
