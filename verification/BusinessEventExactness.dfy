/**
 The conditions on steps are exact: from any sound state, a step that violates
 one has a continuation, harmless in itself, in which the source's events are
 out of order or a generation of it has a gap.
 */
module BusinessEventExactness {
  import opened Basics
  import opened BusinessEventTables
  import opened BusinessEventOrdering
  import opened BusinessEventContiguity
  import G = BusinessEventGenerations

  /* ---------- fresh identifiers ---------- */

  lemma {:induction false} LongerThanAll(used: set<Id>) returns (n: nat)
    ensures forall x :: x in used ==> |x| < n
  {
    if used == {} {
      n := 0;
    } else {
      var x :| x in used;
      var m := LongerThanAll(used - {x});
      n := if m > |x| then m else |x| + 1;
    }
  }

  lemma FreshId(used: set<Id>) returns (id: Id)
    ensures id !in used
  {
    var n := LongerThanAll(used);
    id := seq(n, _ => 'x');
  }

  /* ---------- continuations ---------- */

  lemma {:induction false} RunConcat(t: Tables, a: seq<Op>, b: seq<Op>)
    ensures Run(t, a + b) == Run(Run(t, a), b)
  {
    if b == [] {
      assert a + b == a;
    } else {
      RunSplit(t, a, b);
      RunConcat(t, a, b[..|b| - 1]);
    }
  }

  lemma RunOne(t: Tables, op: Op)
    ensures Run(t, [op]) == Step(t, op)
  {
    assert [op][..0] == [];
  }

  lemma {:induction false} CarefulConcat(t: Tables, a: seq<Op>, b: seq<Op>, id: Id)
    requires CarefulFrom(t, a, id) && CarefulFrom(Run(t, a), b, id)
    ensures CarefulFrom(t, a + b, id)
  {
    if b == [] {
      assert a + b == a;
    } else {
      LastOf(a, b);
      RunConcat(t, a, b[..|b| - 1]);
      CarefulConcat(t, a, b[..|b| - 1], id);
    }
  }

  lemma {:induction false} SafeConcat(t: Tables, a: seq<Op>, b: seq<Op>, id: Id)
    requires SafeFrom(t, a, id) && SafeFrom(Run(t, a), b, id)
    ensures SafeFrom(t, a + b, id)
  {
    if b == [] {
      assert a + b == a;
    } else {
      LastOf(a, b);
      RunConcat(t, a, b[..|b| - 1]);
      SafeConcat(t, a, b[..|b| - 1], id);
    }
  }

  /** Without rotations nothing is unsafe. */
  ghost predicate NoRotation(ops: seq<Op>) {
    forall i :: 0 <= i < |ops| ==> !ops[i].OpRotate?
  }

  lemma {:induction false} NoRotationIsSafe(t: Tables, ops: seq<Op>, id: Id)
    requires NoRotation(ops)
    ensures SafeFrom(t, ops, id)
  {
    if ops != [] {
      NoRotationIsSafe(t, ops[..|ops| - 1], id);
    }
  }

  lemma CarefulStep(t: Tables, op: Op, id: Id)
    requires Careful(t, op, id)
    ensures CarefulFrom(t, [op], id) && Run(t, [op]) == Step(t, op)
  {
    assert [op][..0] == [];
  }

  lemma CarefulThen(t: Tables, ops: seq<Op>, op: Op, id: Id)
    requires CarefulFrom(t, ops, id) && Careful(Run(t, ops), op, id)
    ensures CarefulFrom(t, ops + [op], id) && Run(t, ops + [op]) == Step(Run(t, ops), op)
  {
    assert (ops + [op])[..|ops|] == ops;
  }

  /** A run through one more step. */
  lemma RunVia(before: seq<Op>, op: Op, after: seq<Op>)
    ensures Run(EMPTY_TABLES, before + [op] + after) == Run(Step(Run(EMPTY_TABLES, before), op), after)
  {
    RunConcat(EMPTY_TABLES, before, [op]);
    RunOne(Run(EMPTY_TABLES, before), op);
    RunConcat(EMPTY_TABLES, before + [op], after);
  }

  lemma CarefulKeepsAll(ops: seq<Op>, id: Id)
    requires CarefulFrom(EMPTY_TABLES, ops, id)
    ensures SourceSound(Run(EMPTY_TABLES, ops), id)
  {
    EmptySound(id);
    CarefulKeepsSource(EMPTY_TABLES, ops, id);
  }

  /* ---------- the head of line ---------- */

  /** The head depends on identities and on which rows are open. */
  lemma {:induction false} HeadAlike(inbox: seq<InboxRow>, inbox': seq<InboxRow>, n: nat, sourceId: Id, streamId: Id)
    requires n <= |inbox| == |inbox'|
    requires forall i :: 0 <= i < n ==>
      && SameStream(inbox'[i], inbox[i]) && inbox'[i].decoded == inbox[i].decoded
      && (IsOpen(inbox'[i].status) <==> IsOpen(inbox[i].status))
    ensures HeadAmong(inbox', n, sourceId, streamId) == HeadAmong(inbox, n, sourceId, streamId)
  {
    if n > 0 {
      HeadAlike(inbox, inbox', n - 1, sourceId, streamId);
    }
  }

  /** The source can publish its head: it is live, and counted. */
  ghost predicate HeadCounts(t: Tables, id: Id) {
    && id in t.sources && Head(t, id).Some?
    && IsLive(t.inbox[Head(t, id).value].status)
    && t.inbox[Head(t, id).value].decoded.Some?
    && Seq(t.inbox[Head(t, id).value]) <= t.sources[id].lastPersisted
  }

  /** What is published by the continuation: the row, in the current generation. */
  ghost predicate NewEvent(t: Tables, e: Event, id: Id, s: nat) {
    && t.runtime.Some? && e.streamId == t.runtime.value.currentStream
    && id in t.sources && e.sourceId == id && e.sourceStreamId == t.sources[id].streamId && e.sourceSequence == s
  }

  /** The rest of the source is as it was. */
  ghost predicate SourceKept(t: Tables, t': Tables, id: Id) {
    && t'.runtime == t.runtime
    && id in t.sources && id in t'.sources
    && t'.sources[id].streamId == t.sources[id].streamId
    && t'.sources[id].lastPersisted == t.sources[id].lastPersisted
    && t'.sources[id].status == t.sources[id].status
  }

  function Linked(row: InboxRow): InboxRow
    requires row.decoded.Some?
  {
    row.(status := Ready, relation := Some(
      if row.decoded.value.body.subject.ResourceSubject? then ResourceRelation([]) else TaskRelation("task")))
  }

  /** Prepare the head, if it is not ready yet. */
  lemma PrepareHead(t: Tables, id: Id) returns (ops: seq<Op>)
    requires TablesSound(t) && HeadCounts(t, id)
    ensures var (t', h) := (Run(t, ops), Head(t, id).value);
      && CarefulFrom(t, ops, id) && NoRotation(ops)
      && SourceKept(t, t', id) && t'.events == t.events && t'.generations == t.generations
      && Head(t', id) == Some(h) && HeadCounts(t', id)
      && t'.inbox[h].status.Ready? && t'.inbox[h].relation.Some?
      && t'.inbox == t.inbox[h := t'.inbox[h]]
      && SameStream(t'.inbox[h], t.inbox[h]) && t'.inbox[h].decoded == t.inbox[h].decoded
  {
    var h := Head(t, id).value;
    assert RowSound(t, t.inbox[h]);
    if t.inbox[h].status.Ready? {
      ops := [];
    } else {
      var op := OpPrepare(id, Some("task"), [], 0);
      ops := [op];
      CarefulStep(t, op, id);
      HeadAlike(t.inbox, t.inbox[h := Linked(t.inbox[h])], |t.inbox|, id, t.sources[id].streamId);
      assert Step(t, op) == WithRow(t, h, Linked(t.inbox[h]));
    }
  }

  lemma FinalizeHead(t: Tables, id: Id) returns (e: Event)
    requires G.GenerationsSound(t) && t.runtime.Some? && HeadCounts(t, id)
    requires t.inbox[Head(t, id).value].status.Ready? && t.inbox[Head(t, id).value].relation.Some?
    ensures var (t', h) := (Step(t, OpFinalize(id)), Head(t, id).value);
      && SourceKept(t, t', id) && t'.events == t.events + [e]
      && NewEvent(t, e, id, Seq(t.inbox[h]))
      && t'.inbox == t.inbox[h := t.inbox[h].(status := Published)]
  {
    e := Finalize(t, id).outcome.value.value;
  }

  lemma PrepareAndFinalize(t: Tables, id: Id) returns (ops: seq<Op>, e: Event)
    requires G.GenerationsSound(t) && TablesSound(t) && t.runtime.Some? && HeadCounts(t, id)
    ensures var (t', h) := (Run(t, ops), Head(t, id).value);
      && CarefulFrom(t, ops, id) && NoRotation(ops) && SourceKept(t, t', id)
      && t'.events == t.events + [e] && NewEvent(t, e, id, Seq(t.inbox[h]))
      && |t'.inbox| == |t.inbox| && t'.inbox[h].status.Published?
      && SameStream(t'.inbox[h], t.inbox[h]) && t'.inbox[h].decoded == t.inbox[h].decoded
      && forall i :: 0 <= i < |t.inbox| && i != h ==> t'.inbox[i] == t.inbox[i]
  {
    var first := PrepareHead(t, id);
    var t1 := Run(t, first);
    SoundRun(t, first);
    e := FinalizeHead(t1, id);
    CarefulThen(t, first, OpFinalize(id), id);
    ops := first + [OpFinalize(id)];
  }

  /** A continuation that publishes the head of a source. */
  lemma PublishHead(t: Tables, id: Id) returns (ops: seq<Op>, e: Event)
    requires G.GenerationsSound(t) && TablesSound(t) && t.runtime.Some? && HeadCounts(t, id)
    ensures var (t', h) := (Run(t, ops), Head(t, id).value);
      && CarefulFrom(t, ops, id) && NoRotation(ops)
      && G.GenerationsSound(t') && TablesSound(t') && SourceKept(t, t', id)
      && t'.events == t.events + [e] && NewEvent(t, e, id, Seq(t.inbox[h]))
      && |t'.inbox| == |t.inbox| && t'.inbox[h].status.Published?
      && SameStream(t'.inbox[h], t.inbox[h]) && t'.inbox[h].decoded == t.inbox[h].decoded
      && forall i :: 0 <= i < |t.inbox| && i != h ==> t'.inbox[i] == t.inbox[i]
  {
    ops, e := PrepareAndFinalize(t, id);
    SoundRun(t, ops);
  }

  lemma {:induction false} SoundRun(t: Tables, ops: seq<Op>)
    requires G.GenerationsSound(t) && TablesSound(t)
    ensures G.GenerationsSound(Run(t, ops)) && TablesSound(Run(t, ops))
  {
    if ops != [] {
      var front, op := ops[..|ops| - 1], ops[|ops| - 1];
      SoundRun(t, front);
      G.StepKeepsGenerations(Run(t, front), op);
      StepTables(Run(t, front), op);
    }
  }

  /* ---------- taking one more event ---------- */

  const BODY := Body(ResourceSubject("resource"), "type", 0, "description")

  /** Sequence `s` of the source's stream can be taken next. */
  ghost predicate CanTake(t: Tables, id: Id, s: nat) {
    && id in t.sources && t.sources[id].lastPersisted < s <= MAX_SEQUENCE
    && !Used(t.inbox, id, t.sources[id].streamId, s)
  }

  ghost predicate LeaseFits(t: Tables, lease: Lease, now: Instant, id: Id) {
    lease.sourceId == id && LeaseValid(t, lease, now)
  }

  lemma FreshEvent(inbox: seq<InboxRow>) returns (eventId: Id)
    ensures forall i :: 0 <= i < |inbox| && inbox[i].decoded.Some? ==> inbox[i].decoded.value.eventId != eventId
  {
    var used := set i | 0 <= i < |inbox| && inbox[i].decoded.Some? :: inbox[i].decoded.value.eventId;
    eventId := FreshId(used);
    forall i | 0 <= i < |inbox| && inbox[i].decoded.Some?
      ensures inbox[i].decoded.value.eventId != eventId
    {
      assert inbox[i].decoded.value.eventId in used;
    }
  }

  /** The state with the new row stored and counted. */
  ghost predicate Took(t: Tables, t': Tables, id: Id, s: nat) {
    && id in t.sources && |t'.inbox| == |t.inbox| + 1 && t'.inbox[..|t.inbox|] == t.inbox
    && t'.inbox[|t.inbox|].status.Received? && HasSequence(t'.inbox[|t.inbox|], id, t.sources[id].streamId, s)
    && t'.events == t.events && t'.runtime == t.runtime
    && id in t'.sources && t'.sources[id].streamId == t.sources[id].streamId && t'.sources[id].lastPersisted == s
  }

  /** An intake that stores sequence `s` under the lease, and counts it. */
  lemma Take(t: Tables, id: Id, s: nat, lease: Lease, now: Instant) returns (op: Op)
    requires CanTake(t, id, s) && LeaseFits(t, lease, now, id)
    ensures op.OpIntake? && Took(t, Step(t, op), id, s)
    ensures Stored(op).status.Received? && HasSequence(Stored(op), id, t.sources[id].streamId, s)
  {
    var eventId := FreshEvent(t.inbox);
    var fact := Fact(t.sources[id].streamId, eventId, s, BODY, true);
    op := OpIntake(lease, fact, 0, now, now);
    forall i | 0 <= i < |t.inbox|
      ensures !Clashes(t, i, lease, fact)
    {
      assert !HasSequence(t.inbox[i], id, t.sources[id].streamId, s);
    }
  }

  /** An instant at which the lease of the source is free. */
  function FreeAt(s: SourceState): Instant {
    if s.holder.Some? then s.holder.value.until else 0
  }

  function Acquired(s: SourceState): SourceState {
    s.(holder := Some(Holder("w", FreeAt(s) + 2)), fencingToken := s.fencingToken + 1)
  }

  /** An acquisition of the source's lease. */
  lemma Acquisition(t: Tables, id: Id) returns (op: Op, lease: Lease, now: Instant)
    requires id in t.sources && !Unavailing(t.sources[id].status)
    ensures op.OpAcquire? && Step(t, op) == t.(sources := t.sources[id := Acquired(t.sources[id])])
    ensures LeaseFits(Step(t, op), lease, now, id)
  {
    var s := t.sources[id];
    op := OpAcquire(id, s.streamId, "w", FreeAt(s), FreeAt(s) + 2);
    lease := Lease(id, s.streamId, "w", s.fencingToken + 1, 0, 0);
    now := FreeAt(s) + 1;
  }

  /** The new row is the head if every open row of the stream is above it. */
  lemma TookIsHead(t: Tables, t': Tables, id: Id, s: nat)
    requires Took(t, t', id, s)
    requires forall i :: 0 <= i < |t.inbox| && OpenAt(t.inbox, i, id, t.sources[id].streamId) ==>
      t.inbox[i].decoded.Some? && s < Seq(t.inbox[i])
    ensures HeadCounts(t', id) && Head(t', id) == Some(|t.inbox|)
  {
    var n, stream := |t.inbox|, t.sources[id].streamId;
    assert OpenAt(t'.inbox, n, id, stream);
    var h := HeadAmong(t'.inbox, n, id, stream);
    if h.Some? {
      assert t'.inbox[h.value] == t.inbox[h.value] && OpenAt(t.inbox, h.value, id, stream);
    }
  }

  /* ---------- publishing everything that is open ---------- */

  ghost function OpenRows(t: Tables, id: Id): set<nat>
    requires id in t.sources
  {
    set i | 0 <= i < |t.inbox| && OpenAt(t.inbox, i, id, t.sources[id].streamId)
  }

  /** Every open row of the source's stream can be published. */
  ghost predicate Drainable(t: Tables, id: Id) {
    && id in t.sources
    && forall i :: 0 <= i < |t.inbox| && OpenAt(t.inbox, i, id, t.sources[id].streamId) ==>
        IsLive(t.inbox[i].status) && t.inbox[i].decoded.Some? && Seq(t.inbox[i]) <= t.sources[id].lastPersisted
  }

  /** Sequence `s` of the source was published by the continuation, in the current generation. */
  ghost predicate PublishedSince(t: Tables, t': Tables, id: Id, s: nat) {
    exists p :: |t.events| <= p < |t'.events| && NewEvent(t, t'.events[p], id, s)
  }

  /** Rows keep their identities, and finished rows stay as they are. */
  ghost predicate RowsKept(t: Tables, t': Tables) {
    && |t'.inbox| == |t.inbox|
    && forall i :: 0 <= i < |t.inbox| ==>
        && SameStream(t'.inbox[i], t.inbox[i]) && t'.inbox[i].decoded == t.inbox[i].decoded
        && (!IsOpen(t.inbox[i].status) ==> t'.inbox[i] == t.inbox[i])
  }

  ghost predicate Drained(t: Tables, t': Tables, id: Id) {
    && G.GenerationsSound(t') && TablesSound(t') && SourceKept(t, t', id) && RowsKept(t, t')
    && t.events <= t'.events
    && OpenRows(t', id) == {}
    && forall i :: 0 <= i < |t.inbox| && OpenAt(t.inbox, i, id, t.sources[id].streamId) ==>
        t.inbox[i].decoded.Some? && PublishedSince(t, t', id, Seq(t.inbox[i]))
  }

  lemma NothingOpen(t: Tables, id: Id)
    requires id in t.sources && Head(t, id).None?
    ensures OpenRows(t, id) == {}
  {
    HeadIsFirst(t.inbox, |t.inbox|, id, t.sources[id].streamId);
  }

  /** Row `h` is published and nothing else changes for the source. */
  ghost predicate HeadGone(t: Tables, t': Tables, id: Id, h: nat) {
    && SourceKept(t, t', id) && h < |t.inbox| == |t'.inbox| && t'.inbox[h].status.Published?
    && SameStream(t'.inbox[h], t.inbox[h]) && t'.inbox[h].decoded == t.inbox[h].decoded
    && forall i :: 0 <= i < |t.inbox| && i != h ==> t'.inbox[i] == t.inbox[i]
  }

  lemma OneLess(t: Tables, t': Tables, id: Id, h: nat)
    requires Drainable(t, id) && HeadGone(t, t', id, h) && h in OpenRows(t, id)
    ensures Drainable(t', id) && OpenRows(t', id) == OpenRows(t, id) - {h} && |OpenRows(t', id)| < |OpenRows(t, id)|
  {
    forall i | 0 <= i < |t'.inbox| && OpenAt(t'.inbox, i, id, t'.sources[id].streamId)
      ensures IsLive(t'.inbox[i].status) && t'.inbox[i].decoded.Some?
      ensures Seq(t'.inbox[i]) <= t'.sources[id].lastPersisted
    {
      assert OpenAt(t.inbox, i, id, t.sources[id].streamId);
    }
    assert OpenRows(t', id) == OpenRows(t, id) - {h};
  }

  /** A continuation that publishes every open row of the source's stream. */
  lemma {:induction false} Drain(t: Tables, id: Id) returns (ops: seq<Op>)
    requires G.GenerationsSound(t) && TablesSound(t) && t.runtime.Some? && Drainable(t, id)
    ensures CarefulFrom(t, ops, id) && Drained(t, Run(t, ops), id)
    decreases |OpenRows(t, id)|
  {
    if Head(t, id).None? {
      ops := [];
      NothingOpen(t, id);
      forall i | 0 <= i < |t.inbox| ensures !OpenAt(t.inbox, i, id, t.sources[id].streamId) {
        assert i !in OpenRows(t, id);
      }
    } else {
      var h := Head(t, id).value;
      assert OpenAt(t.inbox, h, id, t.sources[id].streamId);
      var first, e := PublishHead(t, id);
      var t1 := Run(t, first);
      OneLess(t, t1, id, h);
      var rest := Drain(t1, id);
      RunConcat(t, first, rest);
      CarefulConcat(t, first, rest, id);
      ops := first + rest;
      DrainedThen(t, t1, Run(t, ops), id, h, e);
    }
  }

  lemma DrainedThen(t: Tables, t1: Tables, t': Tables, id: Id, h: nat, e: Event)
    requires HeadGone(t, t1, id, h) && OpenAt(t.inbox, h, id, t.sources[id].streamId) && t.inbox[h].decoded.Some?
    requires t1.events == t.events + [e] && NewEvent(t, e, id, Seq(t.inbox[h]))
    requires Drained(t1, t', id)
    ensures Drained(t, t', id)
  {
    forall i | 0 <= i < |t.inbox| && OpenAt(t.inbox, i, id, t.sources[id].streamId)
      ensures t.inbox[i].decoded.Some? && PublishedSince(t, t', id, Seq(t.inbox[i]))
    {
      if i == h {
        assert t'.events[|t.events|] == t1.events[|t.events|] == e;
      } else {
        assert OpenAt(t1.inbox, i, id, t1.sources[id].streamId);
        var p :| |t1.events| <= p < |t'.events| && NewEvent(t1, t'.events[p], id, Seq(t1.inbox[i]));
        assert NewEvent(t, t'.events[p], id, Seq(t.inbox[i]));
      }
    }
  }

  /* ---------- a rotation that skips the losses of one source ---------- */

  function OwnRoster(t: Tables, id: Id): Roster
    requires id in t.sources
  {
    map[id := Enrolment(t.sources[id].streamId, t.sources[id].semantics)]
  }

  /** The source stays on its stream, alone; its losses are skipped. */
  lemma CleanRotation(t: Tables, id: Id) returns (q: RotationRequest)
    requires G.GenerationsSound(t) && t.runtime.Some? && id in t.sources
    ensures Rotate(t, q).tables != t && Named(t, q) == {id} && Installed(t, q) == OwnRoster(t, id)
  {
    var reasons := set i | 0 <= i < |t.continuity| :: t.continuity[i].reasonIdentity;
    var reason := FreshId(reasons);
    var stream := FreshId(t.generations.Keys + t.rosters.Keys);
    var own := [SourceDefinition(id, Enrolment(t.sources[id].streamId, t.sources[id].semantics))];
    q := RotationRequest("SOURCE_LOSS", {id}, reason, Some(own), stream);
    forall i | 0 <= i < |t.continuity| ensures t.continuity[i].reasonIdentity != reason {
      assert t.continuity[i].reasonIdentity in reasons;
    }
    assert FindRecord(t.continuity, |t.continuity|, reason).None?;
    assert RosterOf(own[..0]) == map[];
    assert RosterOf(own) == OwnRoster(t, id);
    assert |OwnRoster(t, id)| == 1;
  }

  lemma RunRotation(t: Tables, q: RotationRequest)
    ensures Run(t, [OpRotate(q)]) == Rotate(t, q).tables
  {
    RunOne(t, OpRotate(q));
  }

  lemma RotatedSound(t: Tables, q: RotationRequest)
    requires G.GenerationsSound(t) && TablesSound(t) && Rotate(t, q).tables != t
    ensures var t' := Rotate(t, q).tables;
      && Run(t, [OpRotate(q)]) == t' && G.GenerationsSound(t') && TablesSound(t') && t'.runtime.Some?
      && Skips(t, t', Named(t, q), Installed(t, q))
  {
    RotateRowFootprint(t, q);
    NewGenerationEmpty(t, q);
    RunRotation(t, q);
    RotateTables(t, q);
    G.RotationKeepsGenerations(t, q);
  }

  /* ---------- order ---------- */

  /** Some continuation, safe itself, publishes the source out of order. */
  ghost predicate CanDisorder(t: Tables, id: Id) {
    exists ops :: SafeFrom(t, ops, id) && !EventsOrdered(Run(t, ops).events, id)
  }

  lemma Disorders(t: Tables, ops: seq<Op>, id: Id)
    requires SafeFrom(t, ops, id) && !EventsOrdered(Run(t, ops).events, id)
    ensures CanDisorder(t, id)
  {
  }

  /** A sequence that is free below a published row can be taken once the losses are skipped, and is then the head. */
  lemma FreeCanBeTaken(t: Tables, t': Tables, id: Id, roster: Roster, i: nat, s: nat)
    requires TablesSound(t) && TablesSound(t') && HeadOfLine(t.inbox, id) && Skips(t, t', {id}, roster)
    requires id in t.sources && t.sources[id].lastPersisted == 0
    requires id in roster && roster[id].streamId == t.sources[id].streamId
    requires i < |t.inbox| && OfStream(t.inbox[i], id, t.sources[id].streamId) && FreeBelow(t.inbox, t.inbox[i], s)
    ensures CanTake(t', id, s) && t'.inbox[i] == t.inbox[i] && t'.sources[id].status.Active?
    ensures forall k :: 0 <= k < |t'.inbox| && OpenAt(t'.inbox, k, id, t'.sources[id].streamId) ==>
      t'.inbox[k].decoded.Some? && s < Seq(t'.inbox[k])
  {
    var stream := t.sources[id].streamId;
    assert forall k :: 0 <= k < |t.inbox| ==> t'.inbox[k] == SkipLoss(t.inbox[k], {id});
    assert RowSound(t, t.inbox[i]);
    forall k | 0 <= k < |t'.inbox| ensures !HasSequence(t'.inbox[k], id, stream, s) {
      assert !HasSequence(t.inbox[k], id, stream, s);
    }
    forall k | 0 <= k < |t'.inbox| && OpenAt(t'.inbox, k, id, stream)
      ensures t'.inbox[k].decoded.Some? && s < Seq(t'.inbox[k])
    {
      assert RowSound(t, t.inbox[k]) && !Overtakes(t.inbox[i], t.inbox[k]);
    }
  }

  /** Keeping the stream exposes nothing. */
  lemma CleanIsSafe(t: Tables, q: RotationRequest, id: Id)
    requires id in t.sources && Installed(t, q) == OwnRoster(t, id)
    ensures SafeFrom(t, [OpRotate(q)], id)
  {
    assert [OpRotate(q)][..0] == [];
  }

  /** An event below one that is there already is out of order. */
  lemma OutOfOrder(t: Tables, i: nat, e: Event, id: Id, s: nat)
    requires EventsMatchRows(t) && NewEvent(t, e, id, s)
    requires i < |t.inbox| && PublishedAbove(t.inbox[i], id, t.sources[id].streamId, s)
    ensures !EventsOrdered(t.events + [e], id)
  {
    var p := EventOfRow(t, i);
    var events := t.events + [e];
    assert events[p] == t.events[p] && events[|t.events|] == e;
    assert SameSource(events[p], events[|t.events|]) && events[p].sourceSequence >= e.sourceSequence;
  }

  /** A continuation that takes a sequence in as the head and publishes it. */
  lemma TakeAndPublish(t: Tables, id: Id, s: nat) returns (ops: seq<Op>, e: Event)
    requires G.GenerationsSound(t) && TablesSound(t) && t.runtime.Some? && CanTake(t, id, s)
    requires !Unavailing(t.sources[id].status)
    requires forall k :: 0 <= k < |t.inbox| && OpenAt(t.inbox, k, id, t.sources[id].streamId) ==>
      t.inbox[k].decoded.Some? && s < Seq(t.inbox[k])
    ensures NoRotation(ops) && Run(t, ops).events == t.events + [e] && NewEvent(t, e, id, s)
  {
    var first := AcquireAndTake(t, id, s);
    var t1 := Run(t, first);
    SoundRun(t, first);
    TookIsHead(t, t1, id, s);
    var more;
    more, e := PublishHead(t1, id);
    RunConcat(t, first, more);
    ops := first + more;
  }

  lemma AcquireAndTake(t: Tables, id: Id, s: nat) returns (ops: seq<Op>)
    requires CanTake(t, id, s) && !Unavailing(t.sources[id].status)
    ensures NoRotation(ops) && Took(t, Run(t, ops), id, s)
  {
    var acquire, lease, now := Acquisition(t, id);
    var intake := Take(Step(t, acquire), id, s, lease, now);
    RunTwo(t, acquire, intake);
    ops := [acquire, intake];
  }

  lemma RunTwo(t: Tables, first: Op, second: Op)
    ensures Run(t, [first, second]) == Step(Step(t, first), second)
  {
    RunOne(t, first);
    assert [first, second][..1] == [first];
  }

  /** From a state in which the source is exposed, order can be broken. */
  lemma ExposedBreaks(t: Tables, id: Id, i: nat, s: nat)
    requires G.GenerationsSound(t) && TablesSound(t) && HeadOfLine(t.inbox, id) && t.runtime.Some?
    requires id in t.sources && t.sources[id].lastPersisted == 0
    requires i < |t.inbox| && OfStream(t.inbox[i], id, t.sources[id].streamId) && FreeBelow(t.inbox, t.inbox[i], s)
    ensures CanDisorder(t, id)
  {
    var q := CleanRotation(t, id);
    var t1 := Rotate(t, q).tables;
    RotatedSound(t, q);
    CleanIsSafe(t, q, id);
    FreeCanBeTaken(t, t1, id, Installed(t, q), i, s);
    var more, e := TakeAndPublish(t1, id, s);
    NoRotationIsSafe(t1, more, id);
    SafeConcat(t, [OpRotate(q)], more, id);
    RunConcat(t, [OpRotate(q)], more);
    OutOfOrder(t1, i, e, id, s);
    Disorders(t, [OpRotate(q)] + more, id);
  }

  lemma FreeStays(t: Tables, t': Tables, affected: set<Id>, i: nat, s: nat)
    requires t'.inbox == SkipLosses(t.inbox, affected) && i < |t.inbox| && FreeBelow(t.inbox, t.inbox[i], s)
    ensures t'.inbox[i] == t.inbox[i] && FreeBelow(t'.inbox, t'.inbox[i], s)
  {
    var row := t.inbox[i];
    forall k | 0 <= k < |t'.inbox| ensures !HasSequence(t'.inbox[k], row.sourceId, row.streamId, s) {
      assert t'.inbox[k] == SkipLoss(t.inbox[k], affected);
      assert !HasSequence(t.inbox[k], row.sourceId, row.streamId, s);
    }
  }

  /** The roster brings the source back, its counters reset, onto the exposed stream. */
  lemma ExposureBreaks(t: Tables, q: RotationRequest, id: Id)
    requires G.GenerationsSound(t) && TablesSound(t) && HeadOfLine(t.inbox, id) && EventsOrdered(t.events, id)
    requires Rotate(t, q).tables != t && Exposes(t, Installed(t, q), id)
    ensures CanDisorder(Rotate(t, q).tables, id)
  {
    var t', roster := Rotate(t, q).tables, Installed(t, q);
    var i, s: nat :| 0 <= i < |t.inbox| && OfStream(t.inbox[i], id, roster[id].streamId)
                     && FreeBelow(t.inbox, t.inbox[i], s);
    RotatedSound(t, q);
    SkipKeepsEvents(t, t', Named(t, q), roster, id);
    FreeStays(t, t', Named(t, q), i, s);
    ExposedBreaks(t', id, i, s);
  }

  lemma SafeNeverDisorders(t: Tables, id: Id)
    requires G.GenerationsSound(t) && TablesSound(t) && LineSound(t, id)
    ensures !CanDisorder(t, id)
  {
    forall ops | SafeFrom(t, ops, id) ensures EventsOrdered(Run(t, ops).events, id) {
      SafeKeepsLine(t, ops, id);
    }
  }

  /**
   The condition on rotations is exact for order. After a rotation from any sound
   state, some continuation with safe rotations publishes the source out of order
   if and only if the rotation puts the source back on a stream with a free
   sequence below a published row.
   */
  lemma RotationKeepsOrderExactly(t: Tables, q: RotationRequest, id: Id)
    requires G.GenerationsSound(t) && TablesSound(t) && LineSound(t, id) && Rotate(t, q).tables != t
    ensures CanDisorder(Rotate(t, q).tables, id) <==> Exposes(t, Installed(t, q), id)
  {
    if Exposes(t, Installed(t, q), id) {
      ExposureBreaks(t, q, id);
    } else {
      RotatedSound(t, q);
      SkipLine(t, Rotate(t, q).tables, Named(t, q), Installed(t, q), id);
      SafeNeverDisorders(Rotate(t, q).tables, id);
    }
  }

  /* ---------- order and contiguity ---------- */

  /** The events of the source are out of order, or a generation of it has a gap. */
  ghost predicate Broken(t: Tables, id: Id) {
    !EventsOrdered(t.events, id) || !NothingMissing(t, id)
  }

  /** Some continuation, careful itself, breaks the source. */
  ghost predicate CanBreak(t: Tables, id: Id) {
    exists ops :: CarefulFrom(t, ops, id) && Broken(Run(t, ops), id)
  }

  lemma Breaks(t: Tables, ops: seq<Op>, id: Id)
    requires CarefulFrom(t, ops, id) && Broken(Run(t, ops), id)
    ensures CanBreak(t, id)
  {
  }

  lemma BreaksLater(t: Tables, ops: seq<Op>, id: Id)
    requires CarefulFrom(t, ops, id) && CanBreak(Run(t, ops), id)
    ensures CanBreak(t, id)
  {
    var more :| CarefulFrom(Run(t, ops), more, id) && Broken(Run(Run(t, ops), more), id);
    CarefulConcat(t, ops, more, id);
    RunConcat(t, ops, more);
    Breaks(t, ops + more, id);
  }

  lemma CarefulNeverBreaks(t: Tables, id: Id)
    requires SourceSound(t, id)
    ensures !CanBreak(t, id)
  {
    forall ops | CarefulFrom(t, ops, id) ensures !Broken(Run(t, ops), id) {
      CarefulKeepsSource(t, ops, id);
    }
  }

  /** No loss row of the source's stream is open. */
  ghost predicate Unblocked(t: Tables, id: Id) {
    forall i :: 0 <= i < |t.inbox| && OnStream(t, t.inbox[i], id) ==> !IsLoss(t.inbox[i].status)
  }

  /** The greatest sequence is still to be taken. */
  ghost predicate HasRoom(t: Tables, id: Id) {
    && id in t.sources && t.sources[id].lastPersisted < MAX_SEQUENCE
    && !Used(t.inbox, id, t.sources[id].streamId, MAX_SEQUENCE)
  }

  /** Everything publishable was published, in the current generation, and the greatest sequence after it. */
  ghost predicate Flushed(t: Tables, t': Tables, id: Id) {
    && id in t.sources && |t.inbox| <= |t'.inbox| && t.events <= t'.events
    && (forall i :: 0 <= i < |t.inbox| && !IsOpen(t.inbox[i].status) ==> t'.inbox[i] == t.inbox[i])
    && PublishedSince(t, t', id, MAX_SEQUENCE)
    && forall i :: 0 <= i < |t.inbox| && OnStream(t, t.inbox[i], id) && IsLive(t.inbox[i].status) ==>
        t.inbox[i].decoded.Some? && PublishedSince(t, t', id, Seq(t.inbox[i]))
  }

  /** The greatest sequence is below nothing. */
  lemma TopIsCareful(t: Tables, op: Op, id: Id)
    requires TablesSound(t) && op.OpIntake? && id in t.sources && Stored(op).status.Received?
    requires HasSequence(Stored(op), id, t.sources[id].streamId, MAX_SEQUENCE)
    ensures Careful(t, op, id)
  {
    forall j | 0 <= j < |t.inbox| ensures !Below(Stored(op), t.inbox[j]) {
      assert RowSound(t, t.inbox[j]);
    }
  }

  /** Once the greatest sequence is counted, everything open is publishable. */
  lemma TookDrainable(t: Tables, t': Tables, id: Id)
    requires TablesSound(t) && Unblocked(t, id) && Took(t, t', id, MAX_SEQUENCE)
    ensures Drainable(t', id)
  {
    forall i | 0 <= i < |t'.inbox| && OpenAt(t'.inbox, i, id, t'.sources[id].streamId)
      ensures IsLive(t'.inbox[i].status) && t'.inbox[i].decoded.Some?
      ensures Seq(t'.inbox[i]) <= t'.sources[id].lastPersisted
    {
      if i < |t.inbox| {
        assert t'.inbox[i] == t.inbox[i] && OnStream(t, t.inbox[i], id) && RowSound(t, t.inbox[i]);
      }
    }
  }

  lemma FlushedBy(t: Tables, t1: Tables, t2: Tables, id: Id)
    requires Took(t, t1, id, MAX_SEQUENCE) && Drained(t1, t2, id)
    ensures Flushed(t, t2, id)
  {
    var stream := t.sources[id].streamId;
    assert OpenAt(t1.inbox, |t.inbox|, id, stream);
    SinceBefore(t, t1, t2, id, MAX_SEQUENCE);
    forall i | 0 <= i < |t.inbox|
      ensures !IsOpen(t.inbox[i].status) ==> t2.inbox[i] == t.inbox[i]
      ensures OnStream(t, t.inbox[i], id) && IsLive(t.inbox[i].status) ==>
        t.inbox[i].decoded.Some? && PublishedSince(t, t2, id, Seq(t.inbox[i]))
    {
      assert t1.inbox[i] == t.inbox[i];
      if OnStream(t, t.inbox[i], id) && IsLive(t.inbox[i].status) {
        assert OpenAt(t1.inbox, i, id, stream);
        SinceBefore(t, t1, t2, id, Seq(t.inbox[i]));
      }
    }
  }

  lemma SinceBefore(t: Tables, t1: Tables, t2: Tables, id: Id, s: nat)
    requires Took(t, t1, id, MAX_SEQUENCE) && PublishedSince(t1, t2, id, s)
    ensures PublishedSince(t, t2, id, s)
  {
    var p :| |t1.events| <= p < |t2.events| && NewEvent(t1, t2.events[p], id, s);
    assert NewEvent(t, t2.events[p], id, s);
  }

  /** A careful continuation that publishes everything publishable, and the greatest sequence. */
  lemma Flush(t: Tables, id: Id, lease: Lease, now: Instant) returns (ops: seq<Op>)
    requires G.GenerationsSound(t) && TablesSound(t) && t.runtime.Some? && LeaseFits(t, lease, now, id)
    requires Unblocked(t, id) && HasRoom(t, id)
    ensures CarefulFrom(t, ops, id) && Flushed(t, Run(t, ops), id)
  {
    var op := Take(t, id, MAX_SEQUENCE, lease, now);
    var t1 := Step(t, op);
    TopIsCareful(t, op, id);
    CarefulStep(t, op, id);
    SoundRun(t, [op]);
    TookDrainable(t, t1, id);
    var more := Drain(t1, id);
    CarefulConcat(t, [op], more, id);
    RunConcat(t, [op], more);
    FlushedBy(t, t1, Run(t1, more), id);
    ops := [op] + more;
  }

  /* ---------- what flushing brings to light ---------- */

  /** An event on each side of a skipped row, in one generation. */
  lemma GapShown(t: Tables, id: Id, p: nat, j: nat, r: nat)
    requires p < r < |t.events| && j < |t.inbox| && t.events[p].sourceId == id
    requires SameSource(t.events[p], t.events[r]) && t.events[p].streamId == t.events[r].streamId
    requires t.inbox[j].decoded.Some? && OfStream(t.inbox[j], id, t.events[p].sourceStreamId)
    requires t.inbox[j].status.TerminalSkipped?
    requires t.events[p].sourceSequence < Seq(t.inbox[j]) < t.events[r].sourceSequence
    ensures !NothingMissing(t, id)
  {
    assert Pair(t, p, r) && Between(t, p, j, r);
  }

  lemma DisorderShown(t: Tables, id: Id, p: nat, r: nat)
    requires p < r < |t.events| && t.events[p].sourceId == id && SameSource(t.events[p], t.events[r])
    requires t.events[p].sourceSequence >= t.events[r].sourceSequence
    ensures !EventsOrdered(t.events, id)
  {
  }

  /** A publishable row below a published one is published after it. */
  lemma BehindShown(t: Tables, t': Tables, id: Id, i: nat, j: nat)
    requires EventsMatchRows(t) && Flushed(t, t', id) && i < |t.inbox| && j < |t.inbox|
    requires OnStream(t, t.inbox[i], id) && Behind(t.inbox[i], t.inbox[j])
    ensures Broken(t', id)
  {
    var p := EventOfRow(t, j);
    var r :| |t.events| <= r < |t'.events| && NewEvent(t, t'.events[r], id, Seq(t.inbox[i]));
    assert t'.events[p] == t.events[p];
    DisorderShown(t', id, p, r);
  }

  /** A publishable row below a skipped one is published, and so is what follows the skipped one. */
  lemma HoleShown(t: Tables, t': Tables, id: Id, i: nat, j: nat)
    requires TablesSound(t) && HasRoom(t, id) && Flushed(t, t', id) && i < |t.inbox| && j < |t.inbox|
    requires OnStream(t, t.inbox[i], id) && Hole(t.inbox[i], t.inbox[j])
    ensures Broken(t', id)
  {
    var p :| |t.events| <= p < |t'.events| && NewEvent(t, t'.events[p], id, Seq(t.inbox[i]));
    var r :| |t.events| <= r < |t'.events| && NewEvent(t, t'.events[r], id, MAX_SEQUENCE);
    assert RowSound(t, t.inbox[j]) && !HasSequence(t.inbox[j], id, t.sources[id].streamId, MAX_SEQUENCE);
    assert t'.inbox[j] == t.inbox[j];
    if p < r {
      GapShown(t', id, p, j, r);
    } else {
      DisorderShown(t', id, r, p);
    }
  }

  /** A skipped row above an event of the current generation is followed by another. */
  lemma SkipShown(t: Tables, t': Tables, id: Id, p: nat, j: nat)
    requires TablesSound(t) && HasRoom(t, id) && Flushed(t, t', id) && p < |t.events| && j < |t.inbox|
    requires InCurrent(t, t.events[p], id) && t.events[p].sourceStreamId == t.sources[id].streamId
    requires t.inbox[j].decoded.Some? && OnStream(t, t.inbox[j], id) && t.inbox[j].status.TerminalSkipped?
    requires t.events[p].sourceSequence < Seq(t.inbox[j])
    ensures Broken(t', id)
  {
    var r :| |t.events| <= r < |t'.events| && NewEvent(t, t'.events[r], id, MAX_SEQUENCE);
    assert RowSound(t, t.inbox[j]) && !HasSequence(t.inbox[j], id, t.sources[id].streamId, MAX_SEQUENCE);
    assert t'.inbox[j] == t.inbox[j] && t'.events[p] == t.events[p];
    GapShown(t', id, p, j, r);
  }

  /** The lease of the source is acquired, and everything flushed. */
  lemma AcquireAndFlush(t: Tables, id: Id) returns (ops: seq<Op>, t1: Tables)
    requires G.GenerationsSound(t) && TablesSound(t) && t.runtime.Some? && id in t.sources
    requires !Unavailing(t.sources[id].status) && Unblocked(t, id) && HasRoom(t, id)
    ensures CarefulFrom(t, ops, id) && Flushed(t1, Run(t, ops), id)
    ensures TablesSound(t1) && HasRoom(t1, id)
    ensures t1.inbox == t.inbox && t1.events == t.events && t1.runtime == t.runtime
    ensures id in t1.sources && t1.sources[id].streamId == t.sources[id].streamId
  {
    var acquire, lease, now := Acquisition(t, id);
    t1 := Step(t, acquire);
    CarefulStep(t, acquire, id);
    SoundRun(t, [acquire]);
    var more := Flush(t1, id, lease, now);
    CarefulConcat(t, [acquire], more, id);
    RunConcat(t, [acquire], more);
    ops := [acquire] + more;
  }

  /* ---------- an intake that stores too low ---------- */

  lemma StoredFacts(t: Tables, op: Op, id: Id)
    requires Stores(t, op, id)
    ensures var t' := Step(t, op);
      && t'.inbox == t.inbox + [Stored(op)] && t'.events == t.events && t'.runtime == t.runtime
      && id in t.sources && id in t'.sources && t'.sources[id].streamId == t.sources[id].streamId
      && OnStream(t', Stored(op), id) && LeaseFits(t', op.lease, op.checked, id)
  {
  }

  lemma StoresLiveBreaks(t: Tables, op: Op, id: Id, j: nat)
    requires SourceSound(t, id) && t.runtime.Some? && Stores(t, op, id) && IsLive(Stored(op).status)
    requires Unblocked(t, id) && HasRoom(Step(t, op), id) && j < |t.inbox|
    requires Behind(Stored(op), t.inbox[j]) || Hole(Stored(op), t.inbox[j])
    ensures CanBreak(Step(t, op), id)
  {
    var t', n := Step(t, op), |t.inbox|;
    StoredFacts(t, op, id);
    G.StepKeepsGenerations(t, op);
    StepTables(t, op);
    assert t'.inbox[n] == Stored(op) && t'.inbox[j] == t.inbox[j];
    assert Unblocked(t', id) by {
      forall i | 0 <= i < |t'.inbox| && OnStream(t', t'.inbox[i], id) ensures !IsLoss(t'.inbox[i].status) {
        assert i < n ==> OnStream(t, t.inbox[i], id);
      }
    }
    var ops := Flush(t', id, op.lease, op.checked);
    if Behind(Stored(op), t.inbox[j]) {
      BehindShown(t', Run(t', ops), id, n, j);
    } else {
      HoleShown(t', Run(t', ops), id, n, j);
    }
    Breaks(t', ops, id);
  }

  /** Nothing publishable is below a row that lies below a published one. */
  lemma NothingBelowLoss(t: Tables, row: InboxRow, k: nat, i: nat, j: nat, id: Id)
    requires NoneBehind(t.inbox, id) && NoHoles(t, id) && Unblocked(t, id)
    requires k < |t.inbox| && t.inbox[k].status.Published? && Below(row, t.inbox[k]) && OnStream(t, row, id)
    requires IsLoss(row.status) && i < |t.inbox| && j <= |t.inbox| && OnStream(t, t.inbox[i], id)
    ensures !Hole(t.inbox[i], SkipLoss(if j < |t.inbox| then t.inbox[j] else row, {id}))
  {
    assert !Behind(t.inbox[i], t.inbox[k]);
    if j < |t.inbox| {
      assert !Hole(t.inbox[i], t.inbox[j]);
      assert OnStream(t, t.inbox[j], id) ==> !IsLoss(t.inbox[j].status);
    }
  }

  /** Skipping the losses is careful: nothing publishable is below the new one. */
  lemma CleanIsCareful(t: Tables, op: Op, q: RotationRequest, id: Id)
    requires SourceSound(t, id) && Stores(t, op, id) && IsLoss(Stored(op).status) && Inside(t, Stored(op))
    requires Unblocked(t, id)
    requires Named(Step(t, op), q) == {id} && id in Step(t, op).sources
    requires Installed(Step(t, op), q) == OwnRoster(Step(t, op), id)
    ensures LossesLead(Step(t, op), q, id)
  {
    var t', row := Step(t, op), Stored(op);
    StoredFacts(t, op, id);
    var k := PublishedOver(t, row);
    forall i, j | 0 <= i < |t'.inbox| && 0 <= j < |t'.inbox| && OfStream(t'.inbox[i], id, t.sources[id].streamId)
      ensures !Hole(t'.inbox[i], SkipLoss(t'.inbox[j], {id}))
    {
      if i < |t.inbox| {
        NothingBelowLoss(t, row, k, i, j, id);
      }
    }
  }

  /** A row between two events has a published one above it. */
  lemma PublishedOver(t: Tables, row: InboxRow) returns (k: nat)
    requires EventsMatchRows(t) && Inside(t, row)
    ensures k < |t.inbox| && t.inbox[k].status.Published? && Below(row, t.inbox[k])
  {
    var p, r :| 0 <= p < r < |t.events| && Pair(t, p, r) && Encloses(t.events[p], row, t.events[r]);
    k := RowOfEvent(t, r);
  }

  /** Once it is skipped, a row between two events is missing. */
  lemma LossShown(t: Tables, op: Op, t1: Tables, roster: Roster, id: Id)
    requires Stores(t, op, id) && IsLoss(Stored(op).status) && Inside(t, Stored(op))
    requires Skips(Step(t, op), t1, {id}, roster)
    ensures !NothingMissing(t1, id)
  {
    StoredFacts(t, op, id);
    var p, r :| 0 <= p < r < |t.events| && Pair(t, p, r) && Encloses(t.events[p], Stored(op), t.events[r]);
    assert t1.inbox[|t.inbox|] == SkipLoss(Stored(op), {id});
    GapShown(t1, id, p, |t.inbox|, r);
  }

  lemma StoresLossBreaks(t: Tables, op: Op, id: Id)
    requires SourceSound(t, id) && t.runtime.Some? && Stores(t, op, id)
    requires IsLoss(Stored(op).status) && Inside(t, Stored(op)) && Unblocked(t, id)
    ensures CanBreak(Step(t, op), id)
  {
    var t' := Step(t, op);
    StoredFacts(t, op, id);
    G.StepKeepsGenerations(t, op);
    StepTables(t, op);
    var q := CleanRotation(t', id);
    CleanIsCareful(t, op, q, id);
    RotatedSound(t', q);
    LossShown(t, op, Rotate(t', q).tables, Installed(t', q), id);
    BreaksByRotation(t', q, id);
  }

  lemma BreaksByRotation(t: Tables, q: RotationRequest, id: Id)
    requires LossesLead(t, q, id) && !NothingMissing(Rotate(t, q).tables, id)
    ensures CanBreak(t, id)
  {
    CarefulStep(t, OpRotate(q), id);
    Breaks(t, [OpRotate(q)], id);
  }

  lemma StoresLowBreaks(t: Tables, op: Op, id: Id)
    requires SourceSound(t, id) && t.runtime.Some? && StoresLow(t, op, id)
    requires Unblocked(t, id) && HasRoom(Step(t, op), id)
    ensures CanBreak(Step(t, op), id)
  {
    if StoresBehind(t, op, id) {
      var j :| 0 <= j < |t.inbox| && Behind(Stored(op), t.inbox[j]);
      StoresLiveBreaks(t, op, id, j);
    } else if exists j :: 0 <= j < |t.inbox| && Hole(Stored(op), t.inbox[j]) {
      var j :| 0 <= j < |t.inbox| && Hole(Stored(op), t.inbox[j]);
      StoresLiveBreaks(t, op, id, j);
    } else {
      StoresLossBreaks(t, op, id);
    }
  }

  /* ---------- a head given up ---------- */

  lemma DropFacts(t: Tables, op: Op, id: Id)
    requires Drops(t, op, id)
    ensures var (t', h) := (Step(t, op), Head(t, id).value);
      && t'.inbox == t.inbox[h := t.inbox[h].(status := TerminalSkipped)]
      && t'.events == t.events && t'.runtime == t.runtime
      && id in t'.sources && t'.sources[id].streamId == t.sources[id].streamId && t'.sources[id].status.Degraded?
  {
  }

  lemma DropBreaks(t: Tables, op: Op, id: Id)
    requires SourceSound(t, id) && Drops(t, op, id) && HasBegun(t, id)
    requires Unblocked(Step(t, op), id) && HasRoom(Step(t, op), id)
    ensures CanBreak(Step(t, op), id)
  {
    var t', h := Step(t, op), Head(t, id).value;
    DropFacts(t, op, id);
    G.StepKeepsGenerations(t, op);
    StepTables(t, op);
    var p :| 0 <= p < |t.events| && InCurrent(t, t.events[p], id)
             && t.events[p].sourceStreamId == t.sources[id].streamId;
    EventBelowLive(t, p, h, id);
    var ops, t1 := AcquireAndFlush(t', id);
    assert t1.inbox[h].status.TerminalSkipped?;
    SkipShown(t1, Run(t', ops), id, p, h);
    Breaks(t', ops, id);
  }

  /** The events of the stream are below what is still publishable. */
  lemma EventBelowLive(t: Tables, p: nat, h: nat, id: Id)
    requires TablesSound(t) && Orderly(t, id) && p < |t.events| && h < |t.inbox|
    requires t.inbox[h].sourceId == id && IsLive(t.inbox[h].status)
    requires OfStream(t.inbox[h], t.events[p].sourceId, t.events[p].sourceStreamId)
    ensures t.inbox[h].decoded.Some? && t.events[p].sourceSequence < Seq(t.inbox[h])
  {
    var k := RowOfEvent(t, p);
    assert RowSound(t, t.inbox[h]) && !Behind(t.inbox[h], t.inbox[k]);
    assert if k < h then Distinguished(t.inbox[k], t.inbox[h]) else Distinguished(t.inbox[h], t.inbox[k]);
  }

  /* ---------- a rotation that strands a row ---------- */

  /** A stranded row is left below a skipped one. */
  lemma StrandingLeavesHole(t: Tables, t': Tables, q: RotationRequest, id: Id) returns (i: nat, j: nat)
    requires !LossesLead(t, q, id) && Skips(t, t', Named(t, q), Installed(t, q))
    ensures id in t'.sources && !Unavailing(t'.sources[id].status)
    ensures i < |t'.inbox| && j < |t'.inbox| && OnStream(t', t'.inbox[i], id) && Hole(t'.inbox[i], t'.inbox[j])
  {
    i, j :| 0 <= i < |t.inbox| && 0 <= j < |t.inbox|
            && OfStream(t.inbox[i], id, StreamAfter(t, Installed(t, q), id))
            && Hole(t.inbox[i], SkipLoss(t.inbox[j], Named(t, q)));
    assert t'.inbox[i] == SkipLoss(t.inbox[i], Named(t, q)) && t'.inbox[j] == SkipLoss(t.inbox[j], Named(t, q));
  }

  lemma StrandingBreaks(t: Tables, q: RotationRequest, id: Id)
    requires SourceSound(t, id) && Rotate(t, q).tables != t && !LossesLead(t, q, id)
    requires Unblocked(Rotate(t, q).tables, id) && HasRoom(Rotate(t, q).tables, id)
    ensures CanBreak(Rotate(t, q).tables, id)
  {
    var t' := Rotate(t, q).tables;
    RotatedSound(t, q);
    var i, j := StrandingLeavesHole(t, t', q, id);
    var ops, t1 := AcquireAndFlush(t', id);
    HoleShown(t1, Run(t', ops), id, i, j);
    Breaks(t', ops, id);
  }

  /* ---------- exactness ---------- */

  /** The source's stream is free of losses: before an intake, after any other step. */
  ghost predicate Clear(t: Tables, op: Op, id: Id) {
    if op.OpIntake? then Unblocked(t, id) else Unblocked(Step(t, op), id)
  }

  lemma RotationStrands(t: Tables, op: Op, id: Id)
    requires SourceSound(t, id) && op.OpRotate? && !Careful(t, op, id) && Clear(t, op, id) && HasRoom(Step(t, op), id)
    ensures CanBreak(Step(t, op), id)
  {
    assert Step(t, op) == Rotate(t, op.request).tables;
    StrandingBreaks(t, op.request, id);
  }

  lemma CarelessBreaks(t: Tables, op: Op, id: Id)
    requires SourceSound(t, id) && !Careful(t, op, id) && Clear(t, op, id) && HasRoom(Step(t, op), id)
    ensures CanBreak(Step(t, op), id)
  {
    if StoresLow(t, op, id) {
      HasRuntime(t, op, id);
      StoresLowBreaks(t, op, id);
    } else if op.OpRotate? {
      RotationStrands(t, op, id);
    } else {
      DropBreaks(t, op, id);
    }
  }

  lemma HasRuntime(t: Tables, op: Op, id: Id)
    requires G.GenerationsSound(t) && Stores(t, op, id)
    ensures t.runtime.Some?
  {
    StoredFacts(t, op, id);
  }

  lemma StoringLowUnsound(t: Tables, op: Op, id: Id)
    requires SourceSound(t, id) && StoresLow(t, op, id)
    ensures !SourceSound(Step(t, op), id)
  {
    var t' := Step(t, op);
    StoredFacts(t, op, id);
    var i := |t.inbox|;
    if StoresBehind(t, op, id) {
      var j :| 0 <= j < |t.inbox| && Behind(Stored(op), t.inbox[j]);
      assert Behind(t'.inbox[i], t'.inbox[j]);
    } else if exists j :: 0 <= j < |t.inbox| && Hole(Stored(op), t.inbox[j]) {
      var j :| 0 <= j < |t.inbox| && Hole(Stored(op), t.inbox[j]);
      assert Hole(t'.inbox[i], t'.inbox[j]) && OnStream(t', t'.inbox[i], id);
    } else {
      var p, r :| 0 <= p < r < |t.events| && Pair(t, p, r) && Encloses(t.events[p], Stored(op), t.events[r]);
      assert Pair(t', p, r) && Between(t', p, i, r) && IsLost(t'.inbox[i].status);
    }
  }

  lemma DroppingUnsound(t: Tables, op: Op, id: Id)
    requires SourceSound(t, id) && Drops(t, op, id) && HasBegun(t, id)
    ensures !SourceSound(Step(t, op), id)
  {
    var t', h := Step(t, op), Head(t, id).value;
    DropFacts(t, op, id);
    var p :| 0 <= p < |t.events| && InCurrent(t, t.events[p], id)
             && t.events[p].sourceStreamId == t.sources[id].streamId;
    EventBelowLive(t, p, h, id);
    assert InCurrent(t', t'.events[p], id) && SkippedAbove(t'.inbox[h], t'.events[p]);
  }

  lemma StrandingUnsound(t: Tables, q: RotationRequest, id: Id)
    requires SourceSound(t, id) && Rotate(t, q).tables != t && !LossesLead(t, q, id)
    ensures !SourceSound(Rotate(t, q).tables, id)
  {
    RotatedSound(t, q);
    var i, j := StrandingLeavesHole(t, Rotate(t, q).tables, q, id);
  }

  /** A step keeps what order and contiguity of a source rest on if and only if it is careful. */
  lemma StepSoundExactly(t: Tables, op: Op, id: Id)
    requires SourceSound(t, id)
    ensures SourceSound(Step(t, op), id) <==> Careful(t, op, id)
  {
    if Careful(t, op, id) {
      CarefulStepSound(t, op, id);
    } else if StoresLow(t, op, id) {
      StoringLowUnsound(t, op, id);
    } else if op.OpRotate? {
      StrandingUnsound(t, op.request, id);
    } else {
      DroppingUnsound(t, op, id);
    }
  }

  /**
   The conditions are exact for order and contiguity. After any step from a state
   sound for a source, no careful continuation publishes it out of order or leaves
   a gap in a generation of it, unless the step is one of those that are not
   careful; and after one of those some careful continuation does, as long as no
   loss of the source's stream is open and it has a sequence left to take.
   */
  lemma StepKeepsSourceExactly(t: Tables, op: Op, id: Id)
    requires SourceSound(t, id)
    ensures CanBreak(Step(t, op), id) ==> !Careful(t, op, id)
    ensures Clear(t, op, id) && HasRoom(Step(t, op), id) ==> (CanBreak(Step(t, op), id) <==> !Careful(t, op, id))
  {
    if Careful(t, op, id) {
      CarefulStepSound(t, op, id);
      CarefulNeverBreaks(Step(t, op), id);
    } else if Clear(t, op, id) && HasRoom(Step(t, op), id) {
      CarelessBreaks(t, op, id);
    }
  }

  /* ---------- from the beginning ---------- */

  /** A careful run, then a step that is not: the run goes on carefully and breaks the source. */
  lemma BreakFollows(before: seq<Op>, op: Op, id: Id) returns (after: seq<Op>)
    requires CarefulFrom(EMPTY_TABLES, before, id) && !Careful(Run(EMPTY_TABLES, before), op, id)
    requires Clear(Run(EMPTY_TABLES, before), op, id) && HasRoom(Step(Run(EMPTY_TABLES, before), op), id)
    ensures CarefulFrom(Step(Run(EMPTY_TABLES, before), op), after, id)
    ensures Broken(Run(EMPTY_TABLES, before + [op] + after), id)
  {
    CarefulKeepsAll(before, id);
    after := BreakFrom(Run(EMPTY_TABLES, before), op, id);
    RunVia(before, op, after);
  }

  lemma BreakFrom(t: Tables, op: Op, id: Id) returns (ops: seq<Op>)
    requires SourceSound(t, id) && !Careful(t, op, id) && Clear(t, op, id) && HasRoom(Step(t, op), id)
    ensures CarefulFrom(Step(t, op), ops, id) && Broken(Run(Step(t, op), ops), id)
  {
    CarelessBreaks(t, op, id);
    var t' := Step(t, op);
    ops :| CarefulFrom(t', ops, id) && Broken(Run(t', ops), id);
  }

  /** Careful steps keep a source in order. */
  lemma {:induction false} CarefulStaysOrderly(t: Tables, ops: seq<Op>, id: Id)
    requires G.GenerationsSound(t) && TablesSound(t) && Orderly(t, id) && CarefulFrom(t, ops, id)
    ensures Orderly(Run(t, ops), id)
  {
    if ops != [] {
      var front, op := ops[..|ops| - 1], ops[|ops| - 1];
      CarefulStaysOrderly(t, front, id);
      SoundRun(t, front);
      StepOrderly(Run(t, front), op, id);
    }
  }

  /** If the step stores nothing below a published row, it is a gap that follows. */
  lemma GapFollows(before: seq<Op>, op: Op, id: Id) returns (after: seq<Op>)
    requires CarefulFrom(EMPTY_TABLES, before, id) && !Careful(Run(EMPTY_TABLES, before), op, id)
    requires !StoresBehind(Run(EMPTY_TABLES, before), op, id)
    requires Clear(Run(EMPTY_TABLES, before), op, id) && HasRoom(Step(Run(EMPTY_TABLES, before), op), id)
    ensures CarefulFrom(Step(Run(EMPTY_TABLES, before), op), after, id)
    ensures !NothingMissing(Run(EMPTY_TABLES, before + [op] + after), id)
  {
    var t := Run(EMPTY_TABLES, before);
    CarefulKeepsAll(before, id);
    after := BreakFrom(t, op, id);
    RunVia(before, op, after);
    OrderlyAfter(t, op, after, id);
  }

  lemma OrderlyAfter(t: Tables, op: Op, after: seq<Op>, id: Id)
    requires SourceSound(t, id) && !StoresBehind(t, op, id) && CarefulFrom(Step(t, op), after, id)
    ensures EventsOrdered(Run(Step(t, op), after).events, id)
  {
    StepOrderly(t, op, id);
    G.StepKeepsGenerations(t, op);
    StepTables(t, op);
    CarefulStaysOrderly(Step(t, op), after, id);
  }

  /** A safe run, then a rotation that exposes the source: the run goes on safely to events out of order. */
  lemma DisorderFollows(before: seq<Op>, q: RotationRequest, id: Id) returns (after: seq<Op>)
    requires SafeFrom(EMPTY_TABLES, before, id)
    requires var t := Run(EMPTY_TABLES, before); Rotate(t, q).tables != t && Exposes(t, Installed(t, q), id)
    ensures SafeFrom(Rotate(Run(EMPTY_TABLES, before), q).tables, after, id)
    ensures !EventsOrdered(Run(EMPTY_TABLES, before + [OpRotate(q)] + after).events, id)
  {
    SafeKeepsLine(EMPTY_TABLES, before, id);
    after := DisorderFrom(Run(EMPTY_TABLES, before), q, id);
    RunViaRotation(before, q, after);
  }

  lemma RunViaRotation(before: seq<Op>, q: RotationRequest, after: seq<Op>)
    ensures Run(EMPTY_TABLES, before + [OpRotate(q)] + after) == Run(Rotate(Run(EMPTY_TABLES, before), q).tables, after)
  {
    RunVia(before, OpRotate(q), after);
  }

  lemma DisorderFrom(t: Tables, q: RotationRequest, id: Id) returns (ops: seq<Op>)
    requires G.GenerationsSound(t) && TablesSound(t) && LineSound(t, id) && Rotate(t, q).tables != t
    requires Exposes(t, Installed(t, q), id)
    ensures SafeFrom(Rotate(t, q).tables, ops, id) && !EventsOrdered(Run(Rotate(t, q).tables, ops).events, id)
  {
    ExposureBreaks(t, q, id);
    var t' := Rotate(t, q).tables;
    ops :| SafeFrom(t', ops, id) && !EventsOrdered(Run(t', ops).events, id);
  }
}
