/**
 Stream generations over every run: one current generation, gap-free event
 sequences, frozen closed generations, and one acyclic continuity chain.
 */
module BusinessEventGenerations {
  import opened Basics
  import opened BusinessEventTables

  /** The events of one stream, in insertion order. */
  function StreamEvents(events: seq<Event>, stream: Id): seq<Event> {
    if events == [] then []
    else
      var front := StreamEvents(events[..|events| - 1], stream);
      if events[|events| - 1].streamId == stream then front + [events[|events| - 1]] else front
  }

  lemma StreamEventsAppend(events: seq<Event>, e: Event, stream: Id)
    ensures StreamEvents(events + [e], stream)
         == StreamEvents(events, stream) + if e.streamId == stream then [e] else []
  {
    assert (events + [e])[..|events|] == events;
  }

  /** Sequences are exactly 1, 2, .., n. */
  ghost predicate GapFree(events: seq<Event>) {
    forall i :: 0 <= i < |events| ==> events[i].sequence == i + 1
  }

  /** The `i`-th stream of the provider: closed ones in order, then the current one. */
  function ChainAt(t: Tables, i: nat): Id
    requires t.runtime.Some? && i <= |t.continuity|
  {
    if i < |t.continuity| then t.continuity[i].previousStream else t.runtime.value.currentStream
  }

  ghost predicate OneCurrent(t: Tables) {
    && t.runtime.Some?
    && t.runtime.value.currentStream in t.generations
    && forall id :: id in t.generations ==>
         t.generations[id].status == if id == t.runtime.value.currentStream then Current else ReplayableClosed
  }

  ghost predicate SequencesDense(t: Tables) {
    && (forall i :: 0 <= i < |t.events| ==> t.events[i].streamId in t.generations)
    && forall id :: id in t.generations ==>
         && GapFree(StreamEvents(t.events, id))
         && |StreamEvents(t.events, id)| == t.generations[id].currentSequence
         && t.generations[id].earliestAvailable == 1
         && (t.generations[id].status.ReplayableClosed? ==>
               t.generations[id].lastReplayable == t.generations[id].currentSequence)
  }

  ghost predicate OnChain(t: Tables, id: Id)
    requires t.runtime.Some?
  {
    exists i :: 0 <= i <= |t.continuity| && ChainAt(t, i) == id
  }

  /** Record `i` closes stream `i` and opens stream `i + 1`. */
  ghost predicate RecordLinks(t: Tables, i: nat, j: nat)
    requires t.runtime.Some? && i < j <= |t.continuity|
  {
    var r := t.continuity[i];
    && r.newStream == ChainAt(t, j)
    && r.previousStream in t.generations
    && t.generations[r.previousStream].rotatedTo == Some(r.newStream)
    && r.lastReplayable == t.generations[r.previousStream].currentSequence
  }

  ghost predicate ChainLinked(t: Tables)
    requires t.runtime.Some?
  {
    && t.runtime.value.generationVersion == 1 + |t.continuity|
    && (forall i, j :: 0 <= i < j <= |t.continuity| ==> ChainAt(t, i) != ChainAt(t, j))
    && (forall i :: 0 <= i <= |t.continuity| ==> ChainAt(t, i) in t.generations)
    && (forall id :: id in t.generations ==> OnChain(t, id))
    && (forall i, j :: 0 <= i < j <= |t.continuity| && j == i + 1 ==> RecordLinks(t, i, j))
    && (forall i, j :: 0 <= i < j < |t.continuity| ==>
          t.continuity[i].reasonIdentity != t.continuity[j].reasonIdentity)
  }

  ghost predicate GenerationsSound(t: Tables) {
    && t.rosters.Keys == t.generations.Keys
    && (t.runtime.None? ==> t == EMPTY_TABLES)
    && (t.runtime.Some? ==> OneCurrent(t) && SequencesDense(t) && ChainLinked(t))
  }

  /* ---------- what a transaction does to the generations ---------- */

  ghost predicate SameGenerations(t: Tables, t': Tables) {
    && t'.runtime == t.runtime && t'.generations == t.generations && t'.rosters == t.rosters
    && t'.events == t.events && t'.continuity == t.continuity
  }

  /** Event `e` is appended to the current generation. */
  ghost predicate Publishes(t: Tables, t': Tables, e: Event) {
    && t.runtime.Some? && e.streamId == t.runtime.value.currentStream && e.streamId in t.generations
    && var g := t.generations[e.streamId];
    && e.sequence == g.currentSequence + 1
    && t'.generations == t.generations[e.streamId := g.(currentSequence := g.currentSequence + 1)]
    && t'.events == t.events + [e]
    && t'.runtime == t.runtime && t'.rosters == t.rosters && t'.continuity == t.continuity
  }

  /** Record `r` closes the current generation and opens an empty one. */
  ghost predicate Rotates(t: Tables, t': Tables, r: ContinuityRecord, roster: Roster) {
    && t.runtime.Some? && r.previousStream == t.runtime.value.currentStream
    && r.previousStream in t.generations && r.newStream !in t.generations && r.newStream !in t.rosters
    && var g := t.generations[r.previousStream];
    && r.lastReplayable == g.currentSequence
    && t'.generations == t.generations[r.previousStream := ClosedGeneration(g, r.newStream)]
                                      [r.newStream := FreshGeneration(Current, roster)]
    && t'.runtime == Some(Runtime(r.newStream, t.runtime.value.generationVersion + 1))
    && t'.rosters == t.rosters[r.newStream := roster]
    && t'.events == t.events
    && t'.continuity == t.continuity + [r]
    && forall j :: 0 <= j < |t.continuity| ==> t.continuity[j].reasonIdentity != r.reasonIdentity
  }

  ghost predicate Begins(t: Tables, t': Tables, stream: Id, roster: Roster) {
    && t.runtime.None?
    && t'.runtime == Some(Runtime(stream, 1))
    && t'.generations == t.generations[stream := FreshGeneration(Current, roster)]
    && t'.rosters == t.rosters[stream := roster]
    && t'.events == t.events && t'.continuity == t.continuity
  }

  lemma FinalizeFootprint(t: Tables, sourceId: Id)
    ensures var tx := Finalize(t, sourceId);
      if tx.outcome.Done? && tx.outcome.value.Some? then Publishes(t, tx.tables, tx.outcome.value.value)
      else tx.tables == t
  {
  }

  lemma RotateFootprint(t: Tables, q: RotationRequest)
    ensures var tx := Rotate(t, q);
      || tx.tables == t
      || (tx.outcome.Done? && tx.outcome.value.reasonIdentity == q.reasonIdentity
          && exists roster :: Rotates(t, tx.tables, tx.outcome.value, roster))
  {
    var tx := Rotate(t, q);
    if tx.tables != t {
      assert Rotates(t, tx.tables, tx.outcome.value, TargetRoster(t, t.runtime.value.currentStream, q));
    }
  }

  lemma InitializeFootprint(t: Tables, sources: seq<SourceDefinition>, stream: Id)
    ensures var t' := Initialize(t, sources, stream).tables;
      t' == t || Begins(t, t', stream, RosterOf(sources))
  {
  }

  lemma IntakeLeavesGenerations(
      t: Tables, lease: Lease, fact: Fact, deadline: Instant, checked: Instant, updated: Instant)
    ensures var t' := Intake(t, lease, fact, deadline, checked, updated).tables;
      SameGenerations(t, t') && (t == EMPTY_TABLES ==> t' == t)
  {
  }

  lemma PrepareLeavesGenerations(t: Tables, sourceId: Id, mapped: Option<Id>, related: seq<Id>, now: Instant)
    ensures var t' := Prepare(t, sourceId, mapped, related, now).tables;
      SameGenerations(t, t') && (t == EMPTY_TABLES ==> t' == t)
  {
  }

  lemma LeasesLeaveGenerations(t: Tables, op: Op)
    requires op.OpAcquire? || op.OpRenew? || op.OpPoison? || op.OpMarkUnavailable?
    ensures SameGenerations(t, Step(t, op)) && (t == EMPTY_TABLES ==> Step(t, op) == t)
  {
  }

  lemma OtherFootprint(t: Tables, op: Op)
    requires !op.OpFinalize? && !op.OpRotate? && !op.OpInitialize?
    ensures SameGenerations(t, Step(t, op))
    ensures t == EMPTY_TABLES ==> Step(t, op) == t
  {
    if op.OpIntake? {
      IntakeLeavesGenerations(t, op.lease, op.fact, op.deadline, op.checked, op.updated);
    } else if op.OpPrepare? {
      PrepareLeavesGenerations(t, op.sourceId, op.mapped, op.related, op.now);
    } else {
      LeasesLeaveGenerations(t, op);
    }
  }

  /* ---------- each kind of change keeps the invariant ---------- */

  /** The chain depends on the pointer, the records and the closed generations only. */
  lemma ChainKeeps(t: Tables, t': Tables)
    requires t.runtime.Some? && ChainLinked(t)
    requires t'.runtime == t.runtime && t'.continuity == t.continuity
    requires t'.generations.Keys == t.generations.Keys
    requires forall id :: id in t.generations && id != t.runtime.value.currentStream ==>
      t'.generations[id] == t.generations[id]
    ensures ChainLinked(t')
  {
    assert forall i :: 0 <= i <= |t.continuity| ==> ChainAt(t', i) == ChainAt(t, i);
    forall id | id in t'.generations ensures OnChain(t', id) {
      assert OnChain(t, id);
    }
    forall i, j | 0 <= i < j <= |t.continuity| && j == i + 1 ensures RecordLinks(t', i, j) {
      assert RecordLinks(t, i, j);
      assert ChainAt(t, i) != ChainAt(t, |t.continuity|);
    }
  }

  lemma SequencesPublish(t: Tables, t': Tables, e: Event)
    requires SequencesDense(t) && Publishes(t, t', e)
    requires !t.generations[e.streamId].status.ReplayableClosed?
    ensures SequencesDense(t')
  {
    forall id | id in t'.generations
      ensures StreamEvents(t'.events, id)
           == StreamEvents(t.events, id) + if e.streamId == id then [e] else []
    {
      StreamEventsAppend(t.events, e, id);
    }
  }

  lemma {:induction false} NoEventsYet(events: seq<Event>, stream: Id)
    requires forall i :: 0 <= i < |events| ==> events[i].streamId != stream
    ensures StreamEvents(events, stream) == []
  {
    if events != [] {
      NoEventsYet(events[..|events| - 1], stream);
    }
  }

  lemma SequencesRotate(t: Tables, t': Tables, r: ContinuityRecord, roster: Roster)
    requires SequencesDense(t) && Rotates(t, t', r, roster)
    ensures SequencesDense(t')
  {
    NoEventsYet(t.events, r.newStream);
  }

  lemma ChainRotates(t: Tables, t': Tables, r: ContinuityRecord, roster: Roster)
    requires t.runtime.Some? && ChainLinked(t) && Rotates(t, t', r, roster)
    ensures ChainLinked(t')
  {
    var n := |t.continuity|;
    assert forall i :: 0 <= i <= n ==> ChainAt(t', i) == ChainAt(t, i);
    assert ChainAt(t', n + 1) == r.newStream;
    forall id | id in t'.generations ensures OnChain(t', id) {
      if id in t.generations {
        assert OnChain(t, id);
      }
    }
    forall i, j | 0 <= i < j <= n + 1 && j == i + 1 ensures RecordLinks(t', i, j) {
      if i < n {
        assert RecordLinks(t, i, j);
        assert ChainAt(t, i) != ChainAt(t, n);
      }
    }
  }

  lemma ChainBegins(t: Tables, t': Tables, stream: Id, roster: Roster)
    requires t == EMPTY_TABLES && Begins(t, t', stream, roster)
    ensures ChainLinked(t')
  {
    assert ChainAt(t', 0) == stream;
  }

  lemma PublishKeeps(t: Tables, t': Tables, e: Event)
    requires GenerationsSound(t) && Publishes(t, t', e)
    ensures GenerationsSound(t')
  {
    SequencesPublish(t, t', e);
    ChainKeeps(t, t');
  }

  lemma CurrentRotates(t: Tables, t': Tables, r: ContinuityRecord, roster: Roster)
    requires t.runtime.Some? && OneCurrent(t) && Rotates(t, t', r, roster)
    ensures OneCurrent(t')
  {
  }

  lemma RotateKeeps(t: Tables, t': Tables, r: ContinuityRecord, roster: Roster)
    requires GenerationsSound(t) && Rotates(t, t', r, roster)
    ensures GenerationsSound(t')
  {
    CurrentRotates(t, t', r, roster);
    SequencesRotate(t, t', r, roster);
    ChainRotates(t, t', r, roster);
  }

  lemma BeginKeeps(t: Tables, t': Tables, stream: Id, roster: Roster)
    requires GenerationsSound(t) && Begins(t, t', stream, roster)
    ensures GenerationsSound(t')
  {
    ChainBegins(t, t', stream, roster);
  }

  lemma SameKeeps(t: Tables, t': Tables)
    requires GenerationsSound(t) && SameGenerations(t, t') && (t == EMPTY_TABLES ==> t' == t)
    ensures GenerationsSound(t')
  {
    if t.runtime.Some? {
      ChainKeeps(t, t');
    }
  }

  lemma RotationKeepsGenerations(t: Tables, q: RotationRequest)
    requires GenerationsSound(t)
    ensures GenerationsSound(Rotate(t, q).tables)
  {
    RotateFootprint(t, q);
    var tx := Rotate(t, q);
    if tx.tables != t {
      var roster :| Rotates(t, tx.tables, tx.outcome.value, roster);
      RotateKeeps(t, tx.tables, tx.outcome.value, roster);
    }
  }

  lemma InitializationKeepsGenerations(t: Tables, sources: seq<SourceDefinition>, newStream: Id)
    requires GenerationsSound(t)
    ensures GenerationsSound(Initialize(t, sources, newStream).tables)
  {
    var t' := Initialize(t, sources, newStream).tables;
    InitializeFootprint(t, sources, newStream);
    if t' != t {
      BeginKeeps(t, t', newStream, RosterOf(sources));
    }
  }

  lemma PublicationKeepsGenerations(t: Tables, sourceId: Id)
    requires GenerationsSound(t)
    ensures GenerationsSound(Finalize(t, sourceId).tables)
  {
    var tx := Finalize(t, sourceId);
    FinalizeFootprint(t, sourceId);
    if tx.tables != t {
      PublishKeeps(t, tx.tables, tx.outcome.value.value);
    }
  }

  lemma OthersKeepGenerations(t: Tables, op: Op)
    requires GenerationsSound(t) && !op.OpFinalize? && !op.OpRotate? && !op.OpInitialize?
    ensures GenerationsSound(Step(t, op))
  {
    OtherFootprint(t, op);
    SameKeeps(t, Step(t, op));
  }

  lemma StepKeepsGenerations(t: Tables, op: Op)
    requires GenerationsSound(t)
    ensures GenerationsSound(Step(t, op))
  {
    if op.OpInitialize? {
      InitializationKeepsGenerations(t, op.sources, op.newStream);
    } else if op.OpFinalize? {
      PublicationKeepsGenerations(t, op.sourceId);
    } else if op.OpRotate? {
      RotationKeepsGenerations(t, op.request);
    } else {
      OthersKeepGenerations(t, op);
    }
  }

  /** Every reachable state has one current generation, dense sequences and a linked chain. */
  lemma {:induction false} GenerationsSoundAlways(ops: seq<Op>)
    ensures GenerationsSound(Run(EMPTY_TABLES, ops))
  {
    if ops != [] {
      GenerationsSoundAlways(ops[..|ops| - 1]);
      StepKeepsGenerations(Run(EMPTY_TABLES, ops[..|ops| - 1]), ops[|ops| - 1]);
    }
  }

  /* ---------- frozen generations ---------- */

  /** What a subscriber may rely on about a stream between two moments of a run. */
  ghost predicate StreamGrows(t: Tables, t': Tables, stream: Id) {
    && (stream in t.generations ==> stream in t'.generations)
    && StreamEvents(t.events, stream) <= StreamEvents(t'.events, stream)
    && (stream in t.generations && t.generations[stream].status.ReplayableClosed? ==>
          && t'.generations[stream] == t.generations[stream]
          && StreamEvents(t'.events, stream) == StreamEvents(t.events, stream))
  }

  lemma StepGrowsStream(t: Tables, op: Op, stream: Id)
    requires t.runtime.Some? ==> OneCurrent(t)
    ensures StreamGrows(t, Step(t, op), stream)
  {
    match op {
      case OpInitialize(sources, newStream) => InitializeFootprint(t, sources, newStream);
      case OpFinalize(sourceId) =>
        FinalizeFootprint(t, sourceId);
        if Step(t, op) != t {
          StreamEventsAppend(t.events, Finalize(t, sourceId).outcome.value.value, stream);
        }
      case OpRotate(q) => RotateFootprint(t, q);
      case _ => OtherFootprint(t, op);
    }
  }

  lemma GrowsTransitive(a: Tables, b: Tables, c: Tables, stream: Id)
    requires StreamGrows(a, b, stream) && StreamGrows(b, c, stream)
    ensures StreamGrows(a, c, stream)
  {
  }

  /**
   Over any continuation of any run a stream's published events are only ever
   extended, and a closed generation never changes again.
   */
  lemma {:induction false} ClosedGenerationsFrozen(before: seq<Op>, after: seq<Op>, stream: Id)
    ensures StreamGrows(Run(EMPTY_TABLES, before), Run(EMPTY_TABLES, before + after), stream)
  {
    if after == [] {
      assert before + after == before;
    } else {
      var front, op := after[..|after| - 1], after[|after| - 1];
      ClosedGenerationsFrozen(before, front, stream);
      RunSplit(EMPTY_TABLES, before, after);
      GenerationsSoundAlways(before + front);
      var t := Run(EMPTY_TABLES, before + front);
      StepGrowsStream(t, op, stream);
      GrowsTransitive(Run(EMPTY_TABLES, before), t, Step(t, op), stream);
    }
  }

  /* ---------- the continuity chain ---------- */

  /** Follow `n` continuity notifications from a stream, staying put when there is none. */
  function Follow(t: Tables, stream: Id, n: nat): Id
    decreases n
  {
    if n == 0 then stream
    else
      match RecordClosing(t.continuity, |t.continuity|, stream)
      case None => stream
      case Some(record) => Follow(t, record.newStream, n - 1)
  }

  /** The record that closes stream `i` leads to stream `i + 1`. */
  lemma RecordOnChain(t: Tables, i: nat)
    requires t.runtime.Some? && ChainLinked(t) && i < |t.continuity|
    ensures RecordClosing(t.continuity, |t.continuity|, ChainAt(t, i)).Some?
    ensures RecordClosing(t.continuity, |t.continuity|, ChainAt(t, i)).value.newStream == ChainAt(t, i + 1)
  {
    assert t.continuity[i].previousStream == ChainAt(t, i);
    var r := RecordClosing(t.continuity, |t.continuity|, ChainAt(t, i));
    var k :| 0 <= k < |t.continuity| && t.continuity[k] == r.value;
    assert ChainAt(t, k) == ChainAt(t, i);
    assert k == i;
    assert RecordLinks(t, i, i + 1);
  }

  /** From stream `i` of the chain a subscriber is sent on to the next. */
  ghost predicate HopsAt(t: Tables, i: nat)
    requires t.runtime.Some? && i < |t.continuity|
  {
    var r := RecordClosing(t.continuity, |t.continuity|, ChainAt(t, i));
    r.Some? && r.value.newStream == ChainAt(t, i + 1)
  }

  ghost predicate Hops(t: Tables)
    requires t.runtime.Some?
  {
    forall i: nat :: i < |t.continuity| ==> HopsAt(t, i)
  }

  lemma ChainHops(t: Tables)
    requires t.runtime.Some? && ChainLinked(t)
    ensures Hops(t)
  {
    forall i: nat | i < |t.continuity| ensures HopsAt(t, i) {
      RecordOnChain(t, i);
    }
  }

  lemma {:induction false} FollowAdvances(t: Tables, i: nat, n: nat)
    requires t.runtime.Some? && Hops(t) && i + n <= |t.continuity|
    ensures Follow(t, ChainAt(t, i), n) == ChainAt(t, i + n)
    decreases n
  {
    if n > 0 {
      assert HopsAt(t, i);
      FollowAdvances(t, i + 1, n - 1);
    }
  }

  /**
   In every reachable state a subscriber that follows continuity records from
   any stream meets only distinct streams and arrives at the current one after
   as many hops as there are later records; the version counts the records.
   */
  lemma FollowReachesCurrent(ops: seq<Op>, stream: Id) returns (hops: nat)
    requires stream in Run(EMPTY_TABLES, ops).generations
    ensures var t := Run(EMPTY_TABLES, ops);
      && t.runtime.Some?
      && hops <= |t.continuity| == t.runtime.value.generationVersion - 1
      && Follow(t, stream, hops) == t.runtime.value.currentStream
      && forall a, b :: 0 <= a < b <= hops ==> Follow(t, stream, a) != Follow(t, stream, b)
  {
    var t := Run(EMPTY_TABLES, ops);
    GenerationsSoundAlways(ops);
    var i :| 0 <= i <= |t.continuity| && ChainAt(t, i) == stream;
    hops := |t.continuity| - i;
    ChainHops(t);
    FollowAdvances(t, i, hops);
    forall n: nat | n <= hops ensures Follow(t, stream, n) == ChainAt(t, i + n) {
      FollowAdvances(t, i, n);
    }
  }

  /* ---------- repeated rotations ---------- */

  lemma StepExtendsContinuity(t: Tables, op: Op)
    ensures t.continuity <= Step(t, op).continuity
  {
    match op {
      case OpInitialize(sources, newStream) => InitializeFootprint(t, sources, newStream);
      case OpFinalize(sourceId) => FinalizeFootprint(t, sourceId);
      case OpRotate(q) => RotateFootprint(t, q);
      case _ => OtherFootprint(t, op);
    }
  }

  lemma {:induction false} RecordsStay(before: seq<Op>, after: seq<Op>)
    ensures Run(EMPTY_TABLES, before).continuity <= Run(EMPTY_TABLES, before + after).continuity
  {
    if after == [] {
      assert before + after == before;
    } else {
      var front, op := after[..|after| - 1], after[|after| - 1];
      RecordsStay(before, front);
      RunSplit(EMPTY_TABLES, before, after);
      StepExtendsContinuity(Run(EMPTY_TABLES, before + front), op);
    }
  }

  /**
   A rotation that succeeded once answers every later request with the same
   reason identity, whatever else it asks for and whatever happened since, with
   its first record, and changes nothing.
   */
  lemma RotationIdempotent(before: seq<Op>, first: RotationRequest, after: seq<Op>, again: RotationRequest)
    requires Rotate(Run(EMPTY_TABLES, before), first).outcome.Done?
    requires again.reasonIdentity == first.reasonIdentity
    ensures var t := Run(EMPTY_TABLES, before + [OpRotate(first)] + after);
      Rotate(t, again) == Tx(t, Rotate(Run(EMPTY_TABLES, before), first).outcome)
  {
    var t0 := Run(EMPTY_TABLES, before);
    var record := Rotate(t0, first).outcome.value;
    var rotated := before + [OpRotate(first)];
    assert rotated[..|rotated| - 1] == before;
    var t1 := Run(EMPTY_TABLES, rotated);
    assert t1 == Rotate(t0, first).tables;
    var retry := FindRecord(t0.continuity, |t0.continuity|, first.reasonIdentity);
    var k := if retry.Some? then retry.value else |t0.continuity|;
    assert k < |t1.continuity| && t1.continuity[k] == record;
    RecordsStay(rotated, after);
    GenerationsSoundAlways(rotated + after);
    var t := Run(EMPTY_TABLES, rotated + after);
    assert t.continuity[k] == record;
    var found := FindRecord(t.continuity, |t.continuity|, again.reasonIdentity);
    assert record.reasonIdentity == again.reasonIdentity;
    assert found.Some? && found.value == k;
  }
}
