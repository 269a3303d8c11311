/**
 The repository: each transaction updates the tables statement by statement, as
 one atomic method, and is proved equal to its specification function. A
 transaction that fails checks everything it can fail on before it writes.
 */
module BusinessEventRepository {
  import opened Basics
  import opened BusinessEventTables

  class Repository {
    var runtime: Option<Runtime>
    var generations: map<Id, Generation>
    var rosters: map<Id, Roster>
    var sources: map<Id, SourceState>
    var inbox: seq<InboxRow>
    var events: seq<Event>
    var continuity: seq<ContinuityRecord>

    ghost function Contents(): Tables
      reads this
    {
      Tables(runtime, generations, rosters, sources, inbox, events, continuity)
    }

    constructor ()
      ensures Contents() == EMPTY_TABLES
    {
      runtime := None;
      generations, rosters, sources := map[], map[], map[];
      inbox, events, continuity := [], [], [];
    }

    method InitializeProvider(definitions: seq<SourceDefinition>, newStream: Id) returns (r: Outcome<Id>)
      modifies this
      ensures Tx(Contents(), r) == Initialize(old(Contents()), definitions, newStream)
    {
      if |definitions| < 1 || |definitions| > MAX_SOURCES {
        return Failed(SourceCountInvalid);
      }
      if runtime.Some? && runtime.value.currentStream in generations {
        return Done(runtime.value.currentStream);
      }
      var conflict := runtime.Some? || newStream in generations || newStream in rosters
                      || !DistinctSources(definitions)
                      || exists i :: 0 <= i < |definitions| && definitions[i].sourceId in sources;
      if conflict {
        return Failed(ConstraintViolation);
      }
      generations := generations[newStream := FreshGeneration(Current, RosterOf(definitions))];
      runtime := Some(Runtime(newStream, 1));
      var roster := InsertSources(definitions);
      rosters := rosters[newStream := roster];
      return Done(newStream);
    }

    /** One roster row and one source row for each definition. */
    method InsertSources(definitions: seq<SourceDefinition>) returns (roster: Roster)
      modifies this`sources
      ensures roster == RosterOf(definitions)
      ensures sources == old(sources) + map id | id in roster :: FreshSource(roster[id])
    {
      roster := map[];
      for i := 0 to |definitions|
        invariant roster == RosterOf(definitions[..i])
        invariant sources == old(sources) + FreshSources(roster)
      {
        var source := definitions[i];
        assert definitions[..i + 1][..i] == definitions[..i];
        InsertOne(old(sources), roster, source.sourceId, source.enrolment);
        roster := roster[source.sourceId := source.enrolment];
        sources := sources[source.sourceId := FreshSource(source.enrolment)];
      }
      assert definitions[..|definitions|] == definitions;
    }

    method AcquireSourceLease(sourceId: Id, streamId: Id, owner: Id, appNow: Instant, until: Instant)
      returns (r: Outcome<Option<Lease>>)
      modifies this`sources
      ensures Tx(Contents(), r) == Acquire(old(Contents()), sourceId, streamId, owner, appNow, until)
    {
      if sourceId !in sources || sources[sourceId].streamId != streamId {
        return Done(None);
      }
      var previous := sources[sourceId];
      if Unavailing(previous.status) {
        return Done(None);
      }
      if previous.holder.Some? && previous.holder.value.until > appNow && previous.holder.value.owner != owner {
        return Done(None);
      }
      var row := previous.(holder := Some(Holder(owner, until)), fencingToken := previous.fencingToken + 1);
      sources := sources[sourceId := row];
      return Done(Some(LeaseOn(sourceId, row)));
    }

    method RenewSourceLease(lease: Lease, now: Instant, until: Instant) returns (r: Outcome<Lease>)
      modifies this`sources
      ensures Tx(Contents(), r) == Renew(old(Contents()), lease, now, until)
    {
      var row := LockAndValidateLease(lease, now);
      if row.None? {
        return Failed(StaleFence);
      }
      var renewed := row.value.(holder := Some(Holder(lease.owner, until)));
      sources := sources[lease.sourceId := renewed];
      return Done(LeaseOn(lease.sourceId, renewed));
    }

    /** The row the lease is for, if the lease is the recorded one and has not expired. */
    method LockAndValidateLease(lease: Lease, now: Instant) returns (row: Option<SourceState>)
      ensures row.Some? <==> LeaseValid(Contents(), lease, now)
      ensures row.Some? ==> row.value == sources[lease.sourceId]
    {
      if lease.sourceId !in sources {
        return None;
      }
      var s := sources[lease.sourceId];
      if s.streamId != lease.streamId || s.holder.None? || s.holder.value.owner != lease.owner
         || s.fencingToken != lease.token || s.holder.value.until <= now {
        return None;
      }
      return Some(s);
    }

    method BlockSource(lease: Lease, status: SourceStatus)
      modifies this`sources
      ensures Contents() == Block(old(Contents()), lease, status)
    {
      if lease.sourceId in sources {
        var s := sources[lease.sourceId];
        if s.streamId == lease.streamId && s.holder.Some? && s.holder.value.owner == lease.owner
           && s.fencingToken == lease.token {
          sources := sources[lease.sourceId := s.(status := status)];
        }
      }
    }

    method MarkSourceUnavailable(lease: Lease) returns (r: Outcome<()>)
      modifies this`sources
      ensures Tx(Contents(), r) == MarkUnavailable(old(Contents()), lease)
    {
      BlockSource(lease, Unavailable);
      return Done(());
    }

    /** Counts the rows that clash with the fact, and the first of them. */
    method FindClashes(lease: Lease, fact: Fact) returns (count: nat, first: nat)
      ensures count == 0 <==> !AnyClash(Contents(), lease, fact)
      ensures count > 0 ==> first < |inbox| && Clashes(Contents(), first, lease, fact)
      ensures count == 1 ==>
        forall j :: 0 <= j < |inbox| && Clashes(Contents(), j, lease, fact) ==> j == first
      ensures count > 1 ==>
        exists j :: 0 <= j < |inbox| && Clashes(Contents(), j, lease, fact) && j != first
    {
      count, first := 0, 0;
      ghost var other := 0;
      for i := 0 to |inbox|
        invariant count == 0 ==> forall j :: 0 <= j < i ==> !Clashes(Contents(), j, lease, fact)
        invariant count > 0 ==> first < i && Clashes(Contents(), first, lease, fact)
        invariant count == 1 ==> forall j :: 0 <= j < i && Clashes(Contents(), j, lease, fact) ==> j == first
        invariant count > 1 ==> 0 <= other < i && Clashes(Contents(), other, lease, fact) && other != first
      {
        var row := inbox[i];
        if row.sourceId == lease.sourceId && row.streamId == lease.streamId && row.decoded.Some?
           && (row.decoded.value.eventId == fact.eventId || row.decoded.value.sequence == fact.sequence) {
          if count == 0 {
            first := i;
          } else {
            other := i;
          }
          count := count + 1;
        }
      }
    }

    method IntakeSourceFact(lease: Lease, fact: Fact, deadline: Instant, checked: Instant, updated: Instant)
      returns (r: Outcome<Disposition>)
      modifies this`sources, this`inbox
      ensures Tx(Contents(), r) == Intake(old(Contents()), lease, fact, deadline, checked, updated)
    {
      if !(1 <= fact.sequence <= MAX_SEQUENCE) {
        return Failed(SequenceInvalid);
      }
      var state := LockAndValidateLease(lease, checked);
      if state.None? {
        return Failed(StaleFence);
      }
      if fact.streamId != lease.streamId {
        BlockSource(lease, BlockedIdentityConflict);
        return Failed(SourceStreamReset);
      }
      var count, first := FindClashes(lease, fact);
      if count > 0 {
        if count == 1 && SameFact(inbox[first], fact) {
          return Done(DuplicateFact);
        }
        BlockSource(lease, BlockedIdentityConflict);
        return Failed(IdempotencyConflict);
      }
      if fact.sequence <= state.value.lastPersisted {
        BlockSource(lease, BlockedIdentityConflict);
        return Failed(SequenceRegression);
      }
      inbox := inbox + [IntakeRow(lease, fact, deadline)];
      if state.value.holder.value.until > updated {
        sources := sources[lease.sourceId :=
          state.value.(lastPersisted := fact.sequence, status := StatusAfterIntake(state.value, fact.valid))];
      }
      return Done(if fact.valid then ReceivedFact else RejectedFact);
    }

    method PersistUndecodablePoison(lease: Lease, now: Instant) returns (r: Outcome<()>)
      modifies this`sources, this`inbox
      ensures Tx(Contents(), r) == Poison(old(Contents()), lease, now)
    {
      var state := LockAndValidateLease(lease, now);
      if state.None? {
        return Failed(StaleFence);
      }
      inbox := inbox + [InboxRow(lease.sourceId, lease.streamId, Rejected, None, None)];
      BlockSource(lease, BlockedContractViolation);
      return Done(());
    }

    /** The head-of-line query of prepare and finalize. */
    method SelectHead(sourceId: Id) returns (h: Option<nat>)
      requires sourceId in sources
      ensures h == Head(Contents(), sourceId)
    {
      var streamId := sources[sourceId].streamId;
      h := None;
      for i := 0 to |inbox|
        invariant h == HeadAmong(inbox, i, sourceId, streamId)
      {
        if OpenAt(inbox, i, sourceId, streamId) && (h.None? || !Before(inbox, h.value, i)) {
          h := Some(i);
        }
      }
    }

    method PrepareNextSourceEvent(sourceId: Id, mapped: Option<Id>, related: seq<Id>, now: Instant)
      returns (r: Outcome<Preparation>)
      modifies this`sources, this`inbox
      ensures Tx(Contents(), r) == Prepare(old(Contents()), sourceId, mapped, related, now)
    {
      if sourceId !in sources {
        return Failed(SourceNotFound);
      }
      var h := SelectHead(sourceId);
      if h.None? {
        return Done(NothingToPrepare);
      }
      var row := inbox[h.value];
      if row.status.Ready? {
        return Done(PreparedReady);
      }
      if IsLoss(row.status) {
        return Done(PreparedTerminal);
      }
      if row.decoded.None? {
        return Failed(PayloadInvalid);
      }
      if row.decoded.value.body.subject.TaskSubject? {
        if mapped.None? {
          if row.decoded.value.mappingDeadline > now {
            inbox := inbox[h.value := row.(status := PendingMapping)];
            return Done(PreparedPending);
          }
          var state := sources[sourceId];
          var durable := state.semantics.DurableAtLeastOnce?;
          inbox := inbox[h.value := row.(status := if durable then ContinuityLossPending else TerminalSkipped)];
          sources := sources[sourceId := state.(status := if durable then LossPending else Degraded)];
          return Done(PreparedTerminal);
        }
        inbox := inbox[h.value := row.(status := Ready, relation := Some(TaskRelation(mapped.value)))];
      } else {
        inbox := inbox[h.value := row.(status := Ready, relation := Some(ResourceRelation(related)))];
      }
      return Done(PreparedReady);
    }

    method FinalizeNextSourceEvent(sourceId: Id) returns (r: Outcome<Option<Event>>)
      modifies this`generations, this`sources, this`inbox, this`events
      ensures Tx(Contents(), r) == Finalize(old(Contents()), sourceId)
    {
      if runtime.None? {
        return Failed(NotFound);
      }
      var streamId := runtime.value.currentStream;
      if streamId !in generations || !generations[streamId].status.Current? {
        return Failed(StreamReset);
      }
      if sourceId !in sources {
        return Failed(SourceNotFound);
      }
      var h := SelectHead(sourceId);
      if h.None? || !inbox[h.value].status.Ready? || inbox[h.value].decoded.None? {
        return Done(None);
      }
      var row := inbox[h.value];
      if row.relation.None? {
        return Failed(PayloadInvalid);
      }
      if row.decoded.value.sequence > sources[sourceId].lastPersisted {
        return Failed(ConstraintViolation);
      }
      var runtimeSequence := generations[streamId].currentSequence + 1;
      var event := EventOf(streamId, runtimeSequence, row);
      events := events + [event];
      generations := generations[streamId := generations[streamId].(currentSequence := runtimeSequence)];
      inbox := inbox[h.value := row.(status := Published)];
      sources := sources[sourceId := sources[sourceId].(lastFinalized := row.decoded.value.sequence)];
      return Done(Some(event));
    }

    /** The first record with a reason identity. */
    method FindContinuity(reasonIdentity: Id) returns (r: Option<nat>)
      ensures r == FindRecord(continuity, |continuity|, reasonIdentity)
    {
      r := None;
      for i := 0 to |continuity|
        invariant r == FindRecord(continuity, i, reasonIdentity)
      {
        if r.None? && continuity[i].reasonIdentity == reasonIdentity {
          r := Some(i);
        }
      }
    }

    /** A source that changes its stream starts counting anew. */
    method EnrolSource(id: Id, e: Enrolment)
      modifies this`sources
      ensures sources == old(sources)[id := Reenrolled(old(sources), id, e)]
    {
      if id !in sources {
        sources := sources[id := FreshSource(e)];
      } else if sources[id].streamId == e.streamId {
        sources := sources[id := sources[id].(semantics := e.semantics, status := Active, holder := None)];
      } else {
        sources := sources[id := sources[id].(streamId := e.streamId, semantics := e.semantics, status := Active,
                                               holder := None, lastPersisted := 0, lastFinalized := 0)];
      }
    }

    /** Disable the sources outside the roster, then upsert those in it one by one. */
    method EnrolRoster(roster: Roster)
      modifies this`sources
      ensures sources == RotatedSources(old(sources), roster)
    {
      sources := map id | id in sources ::
        if id in roster then sources[id] else sources[id].(status := Disabled, holder := None);
      ghost var disabled := sources;
      var remaining := roster.Keys;
      while remaining != {}
        invariant remaining <= roster.Keys
        invariant sources.Keys == disabled.Keys + (roster.Keys - remaining)
        invariant forall id :: id in disabled && (id !in roster || id in remaining) ==> sources[id] == disabled[id]
        invariant forall id :: id in roster && id !in remaining ==>
          sources[id] == Reenrolled(old(sources), id, roster[id])
        decreases remaining
      {
        var id :| id in remaining;
        EnrolSource(id, roster[id]);
        remaining := remaining - {id};
      }
      EnrolledAll(old(sources), sources, roster);
    }

    method SkipAffectedLosses(affected: set<Id>)
      modifies this`inbox
      ensures inbox == SkipLosses(old(inbox), affected)
    {
      for i := 0 to |inbox|
        invariant |inbox| == |old(inbox)|
        invariant forall j :: 0 <= j < i ==> inbox[j] == SkipLoss(old(inbox)[j], affected)
        invariant forall j :: i <= j < |inbox| ==> inbox[j] == old(inbox)[j]
      {
        if inbox[i].sourceId in affected && IsLoss(inbox[i].status) {
          inbox := inbox[i := inbox[i].(status := TerminalSkipped)];
        }
      }
    }

    /** Insert the new generation as rotating, close the previous one, then make the new one current. */
    method SwitchGeneration(streamId: Id, newStream: Id, roster: Roster) returns (lastContinuous: Option<nat>)
      requires streamId in generations && newStream !in generations
      modifies this`generations
      ensures generations == old(generations)[streamId := ClosedGeneration(old(generations)[streamId], newStream)]
                                             [newStream := FreshGeneration(Current, roster)]
      ensures lastContinuous == generations[streamId].lastContinuous
    {
      generations := generations[newStream := FreshGeneration(Rotating, roster)];
      var previous := generations[streamId];
      lastContinuous := if previous.continuityClass.AllDurable? then Some(previous.currentSequence) else None;
      generations := generations[streamId := previous.(
        status := ReplayableClosed, rotatedTo := Some(newStream),
        lastReplayable := previous.currentSequence, lastContinuous := lastContinuous)];
      generations := generations[newStream := generations[newStream].(status := Current)];
    }

    /** The writes of a rotation, once every check has passed. */
    method ApplyRotation(q: RotationRequest, roster: Roster, affected: set<Id>) returns (record: ContinuityRecord)
      requires runtime.Some? && runtime.value.currentStream in generations && q.newStream !in generations
      modifies this
      ensures record == RecordOf(old(runtime.value.currentStream), old(generations)[old(runtime.value.currentStream)],
                                 affected, q)
      ensures Contents() == Rotated(old(Contents()), record, roster)
    {
      var current := runtime.value;
      var lastReplayable := generations[current.currentStream].currentSequence;
      var lastContinuous := SwitchGeneration(current.currentStream, q.newStream, roster);
      EnrolRoster(roster);
      rosters := rosters[q.newStream := roster];
      runtime := Some(Runtime(q.newStream, current.generationVersion + 1));
      record := ContinuityRecord(current.currentStream, q.newStream, q.reasonCode, affected,
                                 lastReplayable, lastContinuous, q.reasonIdentity);
      continuity := continuity + [record];
      SkipAffectedLosses(affected);
    }

    method RotateStream(q: RotationRequest) returns (r: Outcome<ContinuityRecord>)
      modifies this
      ensures Tx(Contents(), r) == Rotate(old(Contents()), q)
    {
      var retry := FindContinuity(q.reasonIdentity);
      if retry.Some? {
        return Done(continuity[retry.value]);
      }
      if runtime.None? {
        return Failed(NotFound);
      }
      var streamId := runtime.value.currentStream;
      if streamId !in generations || !generations[streamId].status.Current? {
        return Failed(StreamReset);
      }
      var currentRoster: Roster := if streamId in rosters then rosters[streamId] else map[];
      var roster := if q.replacement.Some? then RosterOf(q.replacement.value) else currentRoster;
      if !RosterAdmissible(q, roster) {
        return Failed(SourceCountInvalid);
      }
      var affected := if q.affected == {} && streamId in rosters then currentRoster.Keys else q.affected;
      if affected == {} {
        return Failed(RotationSourceRequired);
      }
      if q.newStream in generations || q.newStream in rosters {
        return Failed(ConstraintViolation);
      }
      var record := ApplyRotation(q, roster, affected);
      return Done(record);
    }

    /** The newest record that closes a stream. */
    method ContinuityForPreviousStream(streamId: Id) returns (r: Option<ContinuityRecord>)
      ensures r == RecordClosing(continuity, |continuity|, streamId)
    {
      r := None;
      for i := 0 to |continuity|
        invariant r == RecordClosing(continuity, i, streamId)
      {
        if continuity[i].previousStream == streamId {
          r := Some(continuity[i]);
        }
      }
    }
  }

  /** The state of a roster's sources before anything has happened. */
  ghost function FreshSources(roster: Roster): map<Id, SourceState> {
    map id | id in roster :: FreshSource(roster[id])
  }

  lemma InsertOne(sources: map<Id, SourceState>, roster: Roster, id: Id, e: Enrolment)
    ensures sources + FreshSources(roster[id := e]) == (sources + FreshSources(roster))[id := FreshSource(e)]
  {
  }

  lemma EnrolledAll(before: map<Id, SourceState>, after: map<Id, SourceState>, roster: Roster)
    requires after.Keys == before.Keys + roster.Keys
    requires forall id :: id in roster ==> after[id] == Reenrolled(before, id, roster[id])
    requires forall id :: id in before && id !in roster ==>
      after[id] == before[id].(status := Disabled, holder := None)
    ensures after == RotatedSources(before, roster)
  {
  }
}
