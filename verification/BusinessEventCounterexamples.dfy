/**
 Concrete runs that reach the states from which the stronger claims fail. In each
 of them one condition is violated, once, and the others hold throughout.
 */
module BusinessEventCounterexamples {
  import opened Basics
  import opened BusinessEventTables
  import opened BusinessEventOrdering
  import opened BusinessEventContiguity
  import opened BusinessEventStalls
  import E = BusinessEventExactness
  import G = BusinessEventGenerations

  /** Nothing went wrong so far. */
  ghost predicate Fine(ops: seq<Op>) {
    && CarefulFrom(EMPTY_TABLES, ops, "s") && SafeFrom(EMPTY_TABLES, ops, "s")
    && AttentiveFrom(EMPTY_TABLES, ops, "s")
  }

  lemma RunTo(ops: seq<Op>, t: Tables, op: Op, t': Tables)
    requires Run(EMPTY_TABLES, ops) == t && Step(t, op) == t'
    requires Fine(ops) && Careful(t, op, "s") && Safe(t, op, "s") && Attentive(t, op, "s")
    ensures Run(EMPTY_TABLES, ops + [op]) == t' && Fine(ops + [op])
  {
    assert (ops + [op])[..|ops|] == ops;
  }

  /* ---------- one durable source, "s" ---------- */

  const SOURCES := [SourceDefinition("s", Enrolment("a", DurableAtLeastOnce))]

  const ROSTER: Roster := map["s" := Enrolment("a", DurableAtLeastOnce)]

  const BODY := Body(TaskSubject("execution"), "type", 0, "description")

  const LINKED := Some(TaskRelation("task"))

  function SourceAt(
      stream: Id, status: SourceStatus, persisted: nat, finalized: nat, holder: Option<Holder>, token: nat): SourceState
  {
    SourceState(stream, DurableAtLeastOnce, status, persisted, finalized, holder, token)
  }

  function LeaseAt(stream: Id, token: nat): Lease {
    Lease("s", stream, "w", token, 0, 0)
  }

  const HELD := Some(Holder("w", 10))

  function FactAt(stream: Id, sequence: nat, eventId: Id, valid: bool): Fact {
    Fact(stream, eventId, sequence, BODY, valid)
  }

  function RowAt(stream: Id, sequence: nat, eventId: Id, status: RowStatus, relation: Option<Relation>): InboxRow {
    InboxRow("s", stream, status, Some(Decoded(eventId, sequence, BODY, 100)), relation)
  }

  function EventAt(generation: Id, sequence: nat, stream: Id, eventId: Id, sourceSequence: nat): Event {
    Event(generation, sequence, "s", stream, eventId, sourceSequence, BODY, TaskRelation("task"))
  }

  function OpenGeneration(sequence: nat): Generation {
    Generation(Current, sequence, 1, 0, None, AllDurable, None)
  }

  const G1 := OpenGeneration(0)

  const BEGUN := Tables(Some(Runtime("g1", 1)), map["g1" := G1], map["g1" := ROSTER],
                        map["s" := SourceAt("a", Active, 0, 0, None, 0)], [], [], [])

  lemma BeginRun()
    ensures Run(EMPTY_TABLES, [OpInitialize(SOURCES, "g1")]) == BEGUN
    ensures Fine([OpInitialize(SOURCES, "g1")])
  {
    assert RosterOf(SOURCES[..0]) == map[];
    assert RosterOf(SOURCES) == ROSTER;
    assert DistinctSources(SOURCES);
    RunTo([], EMPTY_TABLES, OpInitialize(SOURCES, "g1"), BEGUN);
    assert [] + [OpInitialize(SOURCES, "g1")] == [OpInitialize(SOURCES, "g1")];
  }

  /* ---------- the steps of a run of "s" ---------- */

  function With(t: Tables, source: SourceState, inbox: seq<InboxRow>): Tables {
    t.(sources := map["s" := source], inbox := inbox)
  }

  lemma AcquireStep(t: Tables, s: SourceState)
    requires t.sources == map["s" := s] && s.holder.None? && s.status.Active?
    ensures Step(t, OpAcquire("s", s.streamId, "w", 0, 10))
         == With(t, s.(holder := HELD, fencingToken := s.fencingToken + 1), t.inbox)
  {
  }

  lemma IntakeStep(t: Tables, s: SourceState, fact: Fact)
    requires t.sources == map["s" := s] && s.holder == HELD && fact.streamId == s.streamId
    requires s.lastPersisted < fact.sequence <= MAX_SEQUENCE
    requires forall i :: 0 <= i < |t.inbox| ==> !Clashes(t, i, LeaseAt(s.streamId, s.fencingToken), fact)
    ensures Step(t, OpIntake(LeaseAt(s.streamId, s.fencingToken), fact, 100, 1, 1))
         == With(t, s.(lastPersisted := fact.sequence, status := StatusAfterIntake(s, fact.valid)),
                 t.inbox + [IntakeRow(LeaseAt(s.streamId, s.fencingToken), fact, 100)])
  {
  }

  lemma PrepareStep(t: Tables, s: SourceState, h: nat, mapped: bool)
    requires t.sources == map["s" := s] && Head(t, "s") == Some(h)
    requires IsLive(t.inbox[h].status) && !t.inbox[h].status.Ready?
    requires t.inbox[h].decoded.Some? && t.inbox[h].decoded.value.body == BODY
    requires t.inbox[h].decoded.value.mappingDeadline == 100
    ensures Step(t, OpPrepare("s", if mapped then Some("task") else None, [], 0))
         == t.(inbox := t.inbox[h := if mapped then t.inbox[h].(status := Ready, relation := LINKED)
                                     else t.inbox[h].(status := PendingMapping)])
  {
  }

  lemma FinalizeStep(t: Tables, s: SourceState, g: Id, h: nat)
    requires t.runtime.Some? && t.runtime.value.currentStream == g
    requires g in t.generations && t.generations[g].status.Current?
    requires t.sources == map["s" := s] && Head(t, "s") == Some(h)
    requires t.inbox[h].status.Ready? && t.inbox[h].decoded.Some? && t.inbox[h].relation == LINKED
    requires Seq(t.inbox[h]) <= s.lastPersisted
    ensures Step(t, OpFinalize("s"))
         == With(t, s.(lastFinalized := Seq(t.inbox[h])), t.inbox[h := t.inbox[h].(status := Published)])
            .(events := t.events + [EventOf(g, t.generations[g].currentSequence + 1, t.inbox[h])],
              generations := t.generations[g :=
                t.generations[g].(currentSequence := t.generations[g].currentSequence + 1)])
  {
  }

  /* ---------- a poison event behind an unmapped one ---------- */

  const LOSS := RotationRequest("SOURCE_POISON_EVENT", {"s"}, "a:poison:2", None, "g2")

  const E1 := RowAt("a", 1, "e1", PendingMapping, None)

  const E2 := RowAt("a", 2, "e2", Rejected, None)

  const BEFORE_LOSS := With(BEGUN, SourceAt("a", LossPending, 2, 0, HELD, 1), [E1, E2])

  const WAITING := With(BEGUN, SourceAt("a", Active, 1, 0, HELD, 1), [E1])

  lemma ReachWaiting() returns (ops: seq<Op>)
    ensures Run(EMPTY_TABLES, ops) == WAITING && Fine(ops)
  {
    BeginRun();
    ops := [OpInitialize(SOURCES, "g1")];

    var s1 := SourceAt("a", Active, 0, 0, HELD, 1);
    AcquireStep(BEGUN, SourceAt("a", Active, 0, 0, None, 0));
    var t1 := With(BEGUN, s1, []);
    RunTo(ops, BEGUN, OpAcquire("s", "a", "w", 0, 10), t1);
    ops := ops + [OpAcquire("s", "a", "w", 0, 10)];

    IntakeStep(t1, s1, FactAt("a", 1, "e1", true));
    var intake1 := OpIntake(LeaseAt("a", 1), FactAt("a", 1, "e1", true), 100, 1, 1);
    var s2 := SourceAt("a", Active, 1, 0, HELD, 1);
    var t2 := With(BEGUN, s2, [RowAt("a", 1, "e1", Received, None)]);
    RunTo(ops, t1, intake1, t2);
    ops := ops + [intake1];

    assert Head(t2, "s") == Some(0);
    PrepareStep(t2, s2, 0, false);
    RunTo(ops, t2, OpPrepare("s", None, [], 0), WAITING);
    ops := ops + [OpPrepare("s", None, [], 0)];
  }

  lemma ReachLoss() returns (ops: seq<Op>)
    ensures Run(EMPTY_TABLES, ops) == BEFORE_LOSS && Fine(ops)
  {
    ops := ReachWaiting();
    IntakeStep(WAITING, SourceAt("a", Active, 1, 0, HELD, 1), FactAt("a", 2, "e2", false));
    var intake := OpIntake(LeaseAt("a", 1), FactAt("a", 2, "e2", false), 100, 1, 1);
    RunTo(ops, WAITING, intake, BEFORE_LOSS);
    ops := ops + [intake];
  }

  /** The rotation takes place, and strands the row that waits for its task. */
  lemma LossStrands()
    ensures Rotate(BEFORE_LOSS, LOSS).tables != BEFORE_LOSS && !LossesLead(BEFORE_LOSS, LOSS, "s")
    ensures E.Unblocked(Rotate(BEFORE_LOSS, LOSS).tables, "s") && E.HasRoom(Rotate(BEFORE_LOSS, LOSS).tables, "s")
  {
    assert |ROSTER| == 1;
    assert Hole(BEFORE_LOSS.inbox[0], SkipLoss(BEFORE_LOSS.inbox[1], Named(BEFORE_LOSS, LOSS)));
    assert SkipLosses(BEFORE_LOSS.inbox, {"s"}) == [E1, E2.(status := TerminalSkipped)];
    assert RotatedSources(BEFORE_LOSS.sources, ROSTER) == map["s" := SourceAt("a", Active, 2, 0, None, 1)];
  }

  /**
   A generation need not be a contiguous run of a durable source's inbox. Careful
   steps reach a state in which a poison event has arrived while an earlier one
   waits for its task; the rotation that skips it is followed by careful steps
   only, and a generation lacks the skipped row between two of its events.
   */
  lemma GenerationCanSkipARow() returns (before: seq<Op>, q: RotationRequest, after: seq<Op>)
    ensures Fine(before) && !LossesLead(Run(EMPTY_TABLES, before), q, "s")
    ensures var t := Run(EMPTY_TABLES, before); "s" in t.sources && t.sources["s"].semantics.DurableAtLeastOnce?
    ensures CarefulFrom(Step(Run(EMPTY_TABLES, before), OpRotate(q)), after, "s")
    ensures !NothingMissing(Run(EMPTY_TABLES, before + [OpRotate(q)] + after), "s")
  {
    q := LOSS;
    before := ReachLoss();
    LossStrands();
    after := E.GapFollows(before, OpRotate(q), "s");
  }

  /* ---------- an event behind a skipped one ---------- */

  const E5 := RowAt("a", 5, "e5", Rejected, None)

  const UNCOUNTED := With(BEGUN, SourceAt("a", Active, 0, 0, HELD, 1), [E5])

  const LOSS_5 := RotationRequest("SOURCE_POISON_EVENT", {"s"}, "a:poison:5", None, "g2")

  /** An invalid event is stored by an intake inside which the lease expires: it is not counted. */
  lemma ReachUncounted() returns (ops: seq<Op>)
    ensures Run(EMPTY_TABLES, ops) == UNCOUNTED
    ensures CarefulFrom(EMPTY_TABLES, ops, "s") && SafeFrom(EMPTY_TABLES, ops, "s")
  {
    BeginRun();
    ops := [OpInitialize(SOURCES, "g1")];
    AcquireStep(BEGUN, SourceAt("a", Active, 0, 0, None, 0));
    var t1 := With(BEGUN, SourceAt("a", Active, 0, 0, HELD, 1), []);
    RunTo(ops, BEGUN, OpAcquire("s", "a", "w", 0, 10), t1);
    ops := ops + [OpAcquire("s", "a", "w", 0, 10)];
    var late := OpIntake(LeaseAt("a", 1), FactAt("a", 5, "e5", false), 100, 9, 10);
    assert Step(t1, late) == UNCOUNTED;
    assert !Inside(t1, Stored(late));
    CarefulTo(ops, t1, late, UNCOUNTED);
    ops := ops + [late];
  }

  lemma CarefulTo(ops: seq<Op>, t: Tables, op: Op, t': Tables)
    requires Run(EMPTY_TABLES, ops) == t && Step(t, op) == t'
    requires CarefulFrom(EMPTY_TABLES, ops, "s") && Careful(t, op, "s")
    requires SafeFrom(EMPTY_TABLES, ops, "s") && Safe(t, op, "s")
    ensures Run(EMPTY_TABLES, ops + [op]) == t'
    ensures CarefulFrom(EMPTY_TABLES, ops + [op], "s") && SafeFrom(EMPTY_TABLES, ops + [op], "s")
  {
    assert (ops + [op])[..|ops|] == ops;
  }

  /** The event has been skipped, by a rotation with nothing below it, and the lease taken again. */
  ghost predicate Skipped5(t: Tables) {
    && t.inbox == [E5.(status := TerminalSkipped)] && t.events == []
    && t.sources == map["s" := SourceAt("a", Active, 0, 0, HELD, 2)]
  }

  lemma SkipFive()
    ensures var t := Step(UNCOUNTED, OpRotate(LOSS_5));
      && t.inbox == [E5.(status := TerminalSkipped)] && t.events == []
      && t.sources == map["s" := SourceAt("a", Active, 0, 0, None, 1)]
    ensures Careful(UNCOUNTED, OpRotate(LOSS_5), "s") && Safe(UNCOUNTED, OpRotate(LOSS_5), "s")
  {
    assert |ROSTER| == 1;
    assert SkipLosses(UNCOUNTED.inbox, {"s"}) == [E5.(status := TerminalSkipped)];
    assert RotatedSources(UNCOUNTED.sources, ROSTER) == map["s" := SourceAt("a", Active, 0, 0, None, 1)];
  }

  lemma ReachSkipped5() returns (ops: seq<Op>)
    ensures CarefulFrom(EMPTY_TABLES, ops, "s") && SafeFrom(EMPTY_TABLES, ops, "s")
    ensures Skipped5(Run(EMPTY_TABLES, ops))
  {
    ops := ReachUncounted();
    var t := Step(UNCOUNTED, OpRotate(LOSS_5));
    SkipFive();
    CarefulTo(ops, UNCOUNTED, OpRotate(LOSS_5), t);
    ops := ops + [OpRotate(LOSS_5)];
    AcquireStep(t, SourceAt("a", Active, 0, 0, None, 1));
    var t1 := Step(t, OpAcquire("s", "a", "w", 0, 10));
    CarefulTo(ops, t, OpAcquire("s", "a", "w", 0, 10), t1);
    ops := ops + [OpAcquire("s", "a", "w", 0, 10)];
  }

  /**
   Contiguity can be lost to an intake, too: it stores 3 after 5 was skipped.
   Every other step is careful.
   */
  lemma IntakeCanLeaveAGap() returns (before: seq<Op>, op: Op, after: seq<Op>)
    ensures CarefulFrom(EMPTY_TABLES, before, "s") && StoresLow(Run(EMPTY_TABLES, before), op, "s")
    ensures CarefulFrom(Step(Run(EMPTY_TABLES, before), op), after, "s")
    ensures !NothingMissing(Run(EMPTY_TABLES, before + [op] + after), "s")
  {
    before := ReachSkipped5();
    op := OpIntake(LeaseAt("a", 2), FactAt("a", 3, "e3", true), 100, 1, 1);
    StoresThree(Run(EMPTY_TABLES, before), op);
    after := E.GapFollows(before, op, "s");
  }

  lemma StoresThree(t: Tables, op: Op)
    requires Skipped5(t) && op == OpIntake(LeaseAt("a", 2), FactAt("a", 3, "e3", true), 100, 1, 1)
    ensures StoresLow(t, op, "s") && !StoresBehind(t, op, "s")
    ensures E.Unblocked(t, "s") && E.HasRoom(Step(t, op), "s")
  {
    var s := SourceAt("a", Active, 0, 0, HELD, 2);
    IntakeStep(t, s, FactAt("a", 3, "e3", true));
    assert Hole(Stored(op), t.inbox[0]);
  }

  /* ---------- a source put back on a stream it had left ---------- */

  const D2 := RowAt("a", 2, "e2", Published, LINKED)

  const D2_EVENT := EventAt("g1", 1, "a", "e2", 2)

  /** One event published from stream "a". */
  const ONE_EVENT := With(BEGUN, SourceAt("a", Active, 2, 2, HELD, 1), [D2])
    .(events := [D2_EVENT], generations := map["g1" := OpenGeneration(1)])

  const S2 := SourceAt("a", Active, 2, 0, HELD, 1)

  const TAKEN := With(BEGUN, S2, [RowAt("a", 2, "e2", Received, None)])

  lemma ReachTaken() returns (ops: seq<Op>)
    ensures Run(EMPTY_TABLES, ops) == TAKEN && Fine(ops)
  {
    BeginRun();
    ops := [OpInitialize(SOURCES, "g1")];
    AcquireStep(BEGUN, SourceAt("a", Active, 0, 0, None, 0));
    var s1 := SourceAt("a", Active, 0, 0, HELD, 1);
    var t1 := With(BEGUN, s1, []);
    RunTo(ops, BEGUN, OpAcquire("s", "a", "w", 0, 10), t1);
    ops := ops + [OpAcquire("s", "a", "w", 0, 10)];

    IntakeStep(t1, s1, FactAt("a", 2, "e2", true));
    var intake := OpIntake(LeaseAt("a", 1), FactAt("a", 2, "e2", true), 100, 1, 1);
    RunTo(ops, t1, intake, TAKEN);
    ops := ops + [intake];
  }

  lemma ReachOneEvent() returns (ops: seq<Op>)
    ensures Run(EMPTY_TABLES, ops) == ONE_EVENT && Fine(ops)
  {
    ops := ReachTaken();
    PrepareStep(TAKEN, S2, 0, true);
    var t3 := With(BEGUN, S2, [RowAt("a", 2, "e2", Ready, LINKED)]);
    RunTo(ops, TAKEN, OpPrepare("s", Some("task"), [], 0), t3);
    ops := ops + [OpPrepare("s", Some("task"), [], 0)];

    FinalizeStep(t3, S2, "g1", 0);
    RunTo(ops, t3, OpFinalize("s"), ONE_EVENT);
    ops := ops + [OpFinalize("s")];
  }

  function Move(stream: Id, generation: Id): RotationRequest {
    var sources := [SourceDefinition("s", Enrolment(stream, DurableAtLeastOnce))];
    RotationRequest("MOVE", {"s"}, generation, Some(sources), generation)
  }

  function RosterOn(stream: Id): Roster {
    map["s" := Enrolment(stream, DurableAtLeastOnce)]
  }

  lemma MoveStep(t: Tables, s: SourceState, g: Id, stream: Id, generation: Id)
    requires t.runtime.Some? && t.runtime.value.currentStream == g
    requires g in t.generations && t.generations[g].status.Current?
    requires t.sources == map["s" := s] && s.streamId != stream && s.semantics.DurableAtLeastOnce?
    requires generation !in t.generations && generation !in t.rosters
    requires forall i :: 0 <= i < |t.inbox| ==> !IsLoss(t.inbox[i].status)
    requires forall i :: 0 <= i < |t.continuity| ==> t.continuity[i].reasonIdentity != generation
    ensures var t' := Step(t, OpRotate(Move(stream, generation)));
      && t'.runtime == Some(Runtime(generation, t.runtime.value.generationVersion + 1))
      && t'.sources == map["s" := SourceAt(stream, Active, 0, 0, None, s.fencingToken)]
      && t'.inbox == t.inbox && t'.events == t.events
      && generation in t'.generations && t'.generations[generation] == OpenGeneration(0)
      && t'.generations.Keys == t.generations.Keys + {generation}
      && t'.rosters == t.rosters[generation := RosterOn(stream)]
      && |t'.continuity| == |t.continuity| + 1 && t'.continuity[..|t.continuity|] == t.continuity
      && t'.continuity[|t.continuity|].reasonIdentity == generation
  {
    var defs := Move(stream, generation).replacement.value;
    assert RosterOf(defs[..0]) == map[];
    assert RosterOf(defs) == RosterOn(stream);
    assert |RosterOn(stream)| == 1 && DistinctSources(defs);
    assert SkipLosses(t.inbox, {"s"}) == t.inbox;
    assert RotatedSources(t.sources, RosterOn(stream))
        == map["s" := SourceAt(stream, Active, 0, 0, None, s.fencingToken)];
  }

  /** The source has published 2 from "a", and left for "b". */
  lemma ReachMove() returns (ops: seq<Op>)
    ensures Fine(ops) && Moved(Run(EMPTY_TABLES, ops))
  {
    ops := ReachOneEvent();
    MoveStep(ONE_EVENT, SourceAt("a", Active, 2, 2, HELD, 1), "g1", "b", "g2");
    var t := Step(ONE_EVENT, OpRotate(Move("b", "g2")));
    MoveInstalls(ONE_EVENT, "b", "g2");
    RunTo(ops, ONE_EVENT, OpRotate(Move("b", "g2")), t);
    ops := ops + [OpRotate(Move("b", "g2"))];
  }

  lemma MoveInstalls(t: Tables, stream: Id, generation: Id)
    requires t.runtime.Some?
    ensures Installed(t, Move(stream, generation)) == RosterOn(stream)
  {
    var defs := Move(stream, generation).replacement.value;
    assert RosterOf(defs[..0]) == map[];
    assert RosterOf(defs) == RosterOn(stream);
  }

  ghost predicate Moved(t: Tables) {
    && t.runtime == Some(Runtime("g2", 2))
    && "g2" in t.generations && t.generations["g2"] == OpenGeneration(0)
    && t.generations.Keys == {"g1", "g2"} && t.rosters.Keys == {"g1", "g2"}
    && t.sources == map["s" := SourceAt("b", Active, 0, 0, None, 1)]
    && t.inbox == [D2] && t.events == [D2_EVENT]
    && |t.continuity| == 1 && t.continuity[0].reasonIdentity == "g2"
  }

  lemma ReturnExposes(t: Tables)
    requires Moved(t)
    ensures Rotate(t, Move("a", "g3")).tables != t && Exposes(t, Installed(t, Move("a", "g3")), "s")
  {
    MoveStep(t, SourceAt("b", Active, 0, 0, None, 1), "g2", "a", "g3");
    MoveInstalls(t, "a", "g3");
    assert FreeBelow(t.inbox, t.inbox[0], 1);
  }

  /**
   A source put back on a stream it had left can publish out of source order:
   every other rotation of the run is safe, and up to the return nothing went wrong.
   */
  lemma StreamReuseBreaksOrder() returns (before: seq<Op>, q: RotationRequest, after: seq<Op>)
    ensures Fine(before)
    ensures var t := Run(EMPTY_TABLES, before);
      Exposes(t, Installed(t, q), "s") && SafeFrom(Rotate(t, q).tables, after, "s")
    ensures !EventsOrdered(Run(EMPTY_TABLES, before + [OpRotate(q)] + after).events, "s")
  {
    q := Move("a", "g3");
    before := ReachMove();
    ReturnExposes(Run(EMPTY_TABLES, before));
    after := E.DisorderFollows(before, q, "s");
  }

  /* ---------- a lease that expires inside intake ---------- */

  /**
   If the lease expires between intake's two checks the row is kept but not
   counted, and publication of the source then fails on the counter constraint.
   Nothing else goes wrong.
   */
  lemma ExpiryInsideIntakeStalls() returns (before: seq<Op>, late: Op, after: seq<Op>)
    ensures Fine(before) && IsLate(Run(EMPTY_TABLES, before), late, "s")
    ensures AttentiveFrom(Step(Run(EMPTY_TABLES, before), late), after, "s")
    ensures Finalize(Run(EMPTY_TABLES, before + [late] + after), "s").outcome == Failed(ConstraintViolation)
  {
    BeginRun();
    before := [OpInitialize(SOURCES, "g1")];
    AcquireStep(BEGUN, SourceAt("a", Active, 0, 0, None, 0));
    var s1 := SourceAt("a", Active, 0, 0, HELD, 1);
    var t1 := With(BEGUN, s1, []);
    RunTo(before, BEGUN, OpAcquire("s", "a", "w", 0, 10), t1);
    before := before + [OpAcquire("s", "a", "w", 0, 10)];

    late := OpIntake(LeaseAt("a", 1), FactAt("a", 1, "e1", true), 100, 9, 10);
    var t2 := With(BEGUN, s1, [RowAt("a", 1, "e1", Received, None)]);
    assert Step(t1, late) == t2;

    PrepareStep(t2, s1, 0, true);
    after := [OpPrepare("s", Some("task"), [], 0)];
    assert after[..0] == [];
    E.RunOne(t2, after[0]);
    E.RunVia(before, late, after);
  }
}
