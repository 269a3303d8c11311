/**
 What a closed generation promises: its events are continuous up to its last one
 if and only if every source of its roster was durable. Rosters are as configured,
 stay as they were, and the sources follow the current one.
 */
module BusinessEventContinuity {
  import opened Basics
  import opened BusinessEventTables
  import G = BusinessEventGenerations

  /* ---------- rosters ---------- */

  /** A roster holds exactly the configured sources, each as configured. */
  lemma {:induction false} RosterHolds(sources: seq<SourceDefinition>, id: Id)
    requires DistinctSources(sources)
    ensures id in RosterOf(sources) <==> exists i :: 0 <= i < |sources| && sources[i].sourceId == id
    ensures forall i :: 0 <= i < |sources| && sources[i].sourceId == id ==>
      id in RosterOf(sources) && RosterOf(sources)[id] == sources[i].enrolment
  {
    if sources != [] {
      var front := sources[..|sources| - 1];
      RosterHolds(front, id);
      assert forall i :: 0 <= i < |front| ==> front[i] == sources[i];
      if id in RosterOf(sources) && id != sources[|sources| - 1].sourceId {
        var i :| 0 <= i < |front| && front[i].sourceId == id;
        assert sources[i].sourceId == id;
      }
    }
  }

  lemma {:induction false} RosterSize(sources: seq<SourceDefinition>)
    ensures |RosterOf(sources)| <= |sources|
    ensures sources != [] ==> RosterOf(sources) != map[]
  {
    if sources != [] {
      RosterSize(sources[..|sources| - 1]);
      var front, last := RosterOf(sources[..|sources| - 1]), sources[|sources| - 1];
      assert front[last.sourceId := last.enrolment].Keys == front.Keys + {last.sourceId};
      assert last.sourceId in RosterOf(sources);
    }
  }

  ghost predicate EverySourceDurable(roster: Roster) {
    forall id :: id in roster ==> roster[id].semantics.DurableAtLeastOnce?
  }

  ghost predicate SomeSourceDurable(roster: Roster) {
    exists id :: id in roster && roster[id].semantics.DurableAtLeastOnce?
  }

  /* ---------- the invariant ---------- */

  /** The class says which sources are durable: all, none, or some. */
  ghost predicate ClassFits(class': ContinuityClass, roster: Roster) {
    && (class'.AllDurable? <==> EverySourceDurable(roster))
    && (class'.BestEffortOnly? <==> !SomeSourceDurable(roster))
    && (class'.Mixed? <==> SomeSourceDurable(roster) && !EverySourceDurable(roster))
  }

  /** Continuous up to the last event if closed with durable sources only, and otherwise not at all. */
  ghost predicate PromiseFits(g: Generation, roster: Roster, events: nat) {
    && (g.lastContinuous.Some? <==> g.status.ReplayableClosed? && EverySourceDurable(roster))
    && (g.lastContinuous.Some? ==> g.lastContinuous.value == events)
  }

  ghost predicate GenerationFits(t: Tables, id: Id)
    requires id in t.generations
  {
    && id in t.rosters && 1 <= |t.rosters[id]| <= MAX_SOURCES
    && ClassFits(t.generations[id].continuityClass, t.rosters[id])
    && PromiseFits(t.generations[id], t.rosters[id], t.generations[id].currentSequence)
  }

  ghost predicate SourceFollows(t: Tables, roster: Roster, id: Id)
    requires id in roster
  {
    id in t.sources && t.sources[id].streamId == roster[id].streamId && t.sources[id].semantics == roster[id].semantics
  }

  /** The sources of the current roster are on the stream and have the semantics it gives them. */
  ghost predicate SourcesFollow(t: Tables) {
    t.runtime.Some? && t.runtime.value.currentStream in t.rosters ==>
      var roster := t.rosters[t.runtime.value.currentStream];
      forall id :: id in roster ==> SourceFollows(t, roster, id)
  }

  ghost predicate RecordFits(t: Tables, r: ContinuityRecord) {
    && r.previousStream in t.generations && t.generations[r.previousStream].status.ReplayableClosed?
    && r.lastContinuous == t.generations[r.previousStream].lastContinuous
  }

  ghost predicate ContinuityFits(t: Tables) {
    && (forall id :: id in t.generations ==> GenerationFits(t, id))
    && (forall i :: 0 <= i < |t.continuity| ==> RecordFits(t, t.continuity[i]))
    && SourcesFollow(t)
  }

  lemma FreshFits(roster: Roster)
    requires roster != map[]
    ensures ClassFits(FreshGeneration(Current, roster).continuityClass, roster)
    ensures PromiseFits(FreshGeneration(Current, roster), roster, 0)
  {
    var id :| id in roster;
  }

  /* ---------- every transaction ---------- */

  lemma InitializeFits(t: Tables, sources: seq<SourceDefinition>, newStream: Id)
    requires G.GenerationsSound(t) && ContinuityFits(t)
    ensures ContinuityFits(Initialize(t, sources, newStream).tables)
  {
    var t' := Initialize(t, sources, newStream).tables;
    if t' != t {
      RosterSize(sources);
      FreshFits(RosterOf(sources));
      assert t == EMPTY_TABLES;
    }
  }

  lemma FinalizeFits(t: Tables, sourceId: Id)
    requires G.GenerationsSound(t) && ContinuityFits(t)
    ensures ContinuityFits(Finalize(t, sourceId).tables)
  {
    var t' := Finalize(t, sourceId).tables;
    if t' != t {
      var stream := t.runtime.value.currentStream;
      forall id | id in t'.generations ensures GenerationFits(t', id) {
        assert GenerationFits(t, id);
      }
      forall i | 0 <= i < |t'.continuity| ensures RecordFits(t', t'.continuity[i]) {
        assert RecordFits(t, t.continuity[i]);
      }
      forall id | id in t'.rosters[stream] ensures SourceFollows(t', t'.rosters[stream], id) {
        assert SourceFollows(t, t.rosters[stream], id);
      }
    }
  }

  lemma ClosingFits(t: Tables, t': Tables, r: ContinuityRecord, roster: Roster)
    requires G.GenerationsSound(t) && ContinuityFits(t) && G.Rotates(t, t', r, roster)
    requires 1 <= |roster| <= MAX_SOURCES
    requires r.lastContinuous == ClosedGeneration(t.generations[r.previousStream], r.newStream).lastContinuous
    ensures forall id :: id in t'.generations ==> GenerationFits(t', id)
    ensures forall i :: 0 <= i < |t'.continuity| ==> RecordFits(t', t'.continuity[i])
  {
    FreshFits(roster);
    forall id | id in t'.generations ensures GenerationFits(t', id) {
      assert id != r.newStream ==> GenerationFits(t, id);
    }
    forall i | 0 <= i < |t'.continuity| ensures RecordFits(t', t'.continuity[i]) {
      if i < |t.continuity| {
        RecordStays(t, t', r, roster, i);
      }
    }
  }

  lemma RecordStays(t: Tables, t': Tables, r: ContinuityRecord, roster: Roster, i: nat)
    requires G.GenerationsSound(t) && G.Rotates(t, t', r, roster)
    requires i < |t.continuity| && RecordFits(t, t.continuity[i])
    ensures RecordFits(t', t.continuity[i])
  {
    assert G.ChainAt(t, i) != G.ChainAt(t, |t.continuity|);
  }

  lemma RotateFits(t: Tables, q: RotationRequest)
    requires G.GenerationsSound(t) && ContinuityFits(t)
    ensures ContinuityFits(Rotate(t, q).tables)
  {
    var tx := Rotate(t, q);
    if tx.tables != t {
      var roster := TargetRoster(t, t.runtime.value.currentStream, q);
      assert G.Rotates(t, tx.tables, tx.outcome.value, roster);
      ClosingFits(t, tx.tables, tx.outcome.value, roster);
    }
  }

  lemma OthersFit(t: Tables, op: Op)
    requires ContinuityFits(t) && !op.OpFinalize? && !op.OpRotate? && !op.OpInitialize?
    ensures ContinuityFits(Step(t, op))
  {
    var t' := Step(t, op);
    G.OtherFootprint(t, op);
    EnrolmentsStay(t, op);
    forall id | id in t'.generations ensures GenerationFits(t', id) {
      assert GenerationFits(t, id);
    }
    forall i | 0 <= i < |t'.continuity| ensures RecordFits(t', t'.continuity[i]) {
      assert RecordFits(t, t.continuity[i]);
    }
    if t'.runtime.Some? && t'.runtime.value.currentStream in t'.rosters {
      var roster := t.rosters[t.runtime.value.currentStream];
      forall id | id in roster ensures SourceFollows(t', roster, id) {
        assert SourceFollows(t, roster, id);
      }
    }
  }

  /** No source changes its stream or its semantics. */
  ghost predicate SameEnrolments(t: Tables, t': Tables) {
    forall id :: id in t.sources ==>
      id in t'.sources && t'.sources[id].streamId == t.sources[id].streamId
      && t'.sources[id].semantics == t.sources[id].semantics
  }

  lemma IntakeKeepsEnrolments(t: Tables, op: Op)
    requires op.OpIntake?
    ensures SameEnrolments(t, Step(t, op))
  {
  }

  lemma PrepareKeepsEnrolments(t: Tables, op: Op)
    requires op.OpPrepare?
    ensures SameEnrolments(t, Step(t, op))
  {
  }

  lemma LeasesKeepEnrolments(t: Tables, op: Op)
    requires op.OpAcquire? || op.OpRenew? || op.OpPoison? || op.OpMarkUnavailable?
    ensures SameEnrolments(t, Step(t, op))
  {
  }

  lemma EnrolmentsStay(t: Tables, op: Op)
    requires !op.OpFinalize? && !op.OpRotate? && !op.OpInitialize?
    ensures SameEnrolments(t, Step(t, op))
  {
    if op.OpIntake? {
      IntakeKeepsEnrolments(t, op);
    } else if op.OpPrepare? {
      PrepareKeepsEnrolments(t, op);
    } else {
      LeasesKeepEnrolments(t, op);
    }
  }

  lemma StepFits(t: Tables, op: Op)
    requires G.GenerationsSound(t) && ContinuityFits(t)
    ensures ContinuityFits(Step(t, op))
  {
    if op.OpInitialize? {
      InitializeFits(t, op.sources, op.newStream);
    } else if op.OpFinalize? {
      FinalizeFits(t, op.sourceId);
    } else if op.OpRotate? {
      RotateFits(t, op.request);
    } else {
      OthersFit(t, op);
    }
  }

  lemma {:induction false} ContinuityFitsAlways(ops: seq<Op>)
    ensures ContinuityFits(Run(EMPTY_TABLES, ops))
  {
    if ops != [] {
      ContinuityFitsAlways(ops[..|ops| - 1]);
      G.GenerationsSoundAlways(ops[..|ops| - 1]);
      StepFits(Run(EMPTY_TABLES, ops[..|ops| - 1]), ops[|ops| - 1]);
    }
  }

  /* ---------- the promise ---------- */

  /**
   In every reachable state a generation is promised continuous if and only if it
   is closed and every source of its roster is durable, and then up to the number
   of its events, which is its last event sequence.
   */
  lemma ContinuousExactly(ops: seq<Op>, stream: Id)
    requires stream in Run(EMPTY_TABLES, ops).generations
    ensures var t := Run(EMPTY_TABLES, ops);
      var (g, events) := (t.generations[stream], G.StreamEvents(t.events, stream));
      && stream in t.rosters && 1 <= |t.rosters[stream]| <= MAX_SOURCES
      && (g.lastContinuous.Some? <==> g.status.ReplayableClosed? && EverySourceDurable(t.rosters[stream]))
      && (g.lastContinuous.Some? ==> g.lastContinuous.value == |events|)
      && (g.lastContinuous.Some? && events != [] ==> g.lastContinuous.value == events[|events| - 1].sequence)
      && ClassFits(g.continuityClass, t.rosters[stream])
  {
    ContinuityFitsAlways(ops);
    G.GenerationsSoundAlways(ops);
    assert GenerationFits(Run(EMPTY_TABLES, ops), stream);
  }

  /** So is every continuity record, about the generation it closed. */
  lemma RecordsPromiseExactly(ops: seq<Op>, i: nat)
    requires i < |Run(EMPTY_TABLES, ops).continuity|
    ensures var t := Run(EMPTY_TABLES, ops);
      var r := t.continuity[i];
      && r.previousStream in t.rosters
      && (r.lastContinuous.Some? <==> EverySourceDurable(t.rosters[r.previousStream]))
      && (r.lastContinuous.Some? ==> r.lastContinuous.value == |G.StreamEvents(t.events, r.previousStream)|)
      && r.lastReplayable == |G.StreamEvents(t.events, r.previousStream)|
  {
    var t := Run(EMPTY_TABLES, ops);
    ContinuityFitsAlways(ops);
    G.GenerationsSoundAlways(ops);
    assert RecordFits(t, t.continuity[i]);
    assert GenerationFits(t, t.continuity[i].previousStream);
    assert G.RecordLinks(t, i, i + 1);
  }

  /** The sources of the current roster are on its streams, with its semantics. */
  lemma SourcesFollowRoster(ops: seq<Op>, id: Id)
    requires var t := Run(EMPTY_TABLES, ops);
      t.runtime.Some? && t.runtime.value.currentStream in t.rosters && id in t.rosters[t.runtime.value.currentStream]
    ensures var t := Run(EMPTY_TABLES, ops);
      SourceFollows(t, t.rosters[t.runtime.value.currentStream], id)
  {
    ContinuityFitsAlways(ops);
  }

  lemma RotateRosters(t: Tables, q: RotationRequest)
    requires Rotate(t, q).tables != t
    ensures t.runtime.Some? && q.newStream !in t.rosters
    ensures Rotate(t, q).tables.rosters == t.rosters[q.newStream := TargetRoster(t, t.runtime.value.currentStream, q)]
    ensures q.replacement.Some? ==> DistinctSources(q.replacement.value)
  {
  }

  /** A rotation installs the configured roster, or that of the generation it closes; other rosters stay. */
  lemma RosterInstalled(t: Tables, q: RotationRequest, id: Id)
    requires G.GenerationsSound(t) && Rotate(t, q).tables != t
    ensures var t' := Rotate(t, q).tables;
      && q.newStream in t'.rosters && t.runtime.Some? && t.runtime.value.currentStream in t.rosters
      && (q.replacement.None? ==> t'.rosters[q.newStream] == t.rosters[t.runtime.value.currentStream])
      && (q.replacement.Some? ==>
            (id in t'.rosters[q.newStream] <==>
               exists i :: 0 <= i < |q.replacement.value| && q.replacement.value[i].sourceId == id))
      && (q.replacement.Some? ==>
            forall i :: 0 <= i < |q.replacement.value| && q.replacement.value[i].sourceId == id ==>
              t'.rosters[q.newStream][id] == q.replacement.value[i].enrolment)
      && forall stream :: stream in t.rosters ==> stream in t'.rosters && t'.rosters[stream] == t.rosters[stream]
  {
    RotateRosters(t, q);
    if q.replacement.Some? {
      RosterHolds(q.replacement.value, id);
    }
  }
}
