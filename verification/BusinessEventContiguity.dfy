/**
 What publication order means for the events of one generation: which inbox
 rows may be missing between two of them, and exactly when none is.
 */
module BusinessEventContiguity {
  import opened Basics
  import opened BusinessEventTables
  import opened BusinessEventOrdering
  import G = BusinessEventGenerations

  lemma {:induction false} TablesSoundAlways(ops: seq<Op>)
    ensures TablesSound(Run(EMPTY_TABLES, ops))
  {
    if ops != [] {
      var front := ops[..|ops| - 1];
      TablesSoundAlways(front);
      G.GenerationsSoundAlways(front);
      StepTables(Run(EMPTY_TABLES, front), ops[|ops| - 1]);
    }
  }

  /** From a sound state on, safe rotations keep the line of a source. */
  lemma {:induction false} SafeKeepsLine(t: Tables, ops: seq<Op>, id: Id)
    requires G.GenerationsSound(t) && TablesSound(t) && LineSound(t, id) && SafeFrom(t, ops, id)
    ensures var t' := Run(t, ops); G.GenerationsSound(t') && TablesSound(t') && LineSound(t', id)
  {
    if ops != [] {
      var front, op := ops[..|ops| - 1], ops[|ops| - 1];
      SafeKeepsLine(t, front, id);
      G.StepKeepsGenerations(Run(t, front), op);
      StepKeeps(Run(t, front), op, id);
    }
  }

  /**
   Over every run whose rotations do not put the source back on a stream with a
   free sequence below a published row: its rows are published in source order,
   each at most once, each event is its row's, and nothing below a published row
   is open.
   */
  lemma PublicationOrder(ops: seq<Op>, id: Id)
    requires SafeFrom(EMPTY_TABLES, ops, id)
    ensures TablesSound(Run(EMPTY_TABLES, ops)) && LineSound(Run(EMPTY_TABLES, ops), id)
  {
    SafeKeepsLine(EMPTY_TABLES, ops, id);
  }

  /* ---------- finished rows ---------- */

  /** Every inbox row keeps its identity, and a finished row never changes. */
  ghost predicate RowsFinal(inbox: seq<InboxRow>, inbox': seq<InboxRow>) {
    && |inbox| <= |inbox'|
    && forall i :: 0 <= i < |inbox| ==>
         && SameStream(inbox'[i], inbox[i]) && inbox'[i].decoded == inbox[i].decoded
         && (!IsOpen(inbox[i].status) ==> inbox'[i] == inbox[i])
  }

  /** Row `i` is skipped by this step, and the step is entitled to skip it. */
  ghost predicate SkipJustified(t: Tables, op: Op, i: nat)
    requires i < |t.inbox|
  {
    var id := t.inbox[i].sourceId;
    || (op.OpPrepare? && op.sourceId == id && id in t.sources && t.sources[id].semantics.BestEffortLive?)
    || (op.OpRotate? && IsLoss(t.inbox[i].status)
        && |Step(t, op).continuity| == |t.continuity| + 1
        && id in Step(t, op).continuity[|t.continuity|].affected)
  }

  /** Row `i` is newly skipped. */
  ghost predicate NewlySkipped(inbox: seq<InboxRow>, inbox': seq<InboxRow>, i: nat)
    requires i < |inbox| <= |inbox'|
  {
    !inbox[i].status.TerminalSkipped? && inbox'[i].status.TerminalSkipped?
  }

  lemma PrepareSkips(t: Tables, sourceId: Id, mapped: Option<Id>, related: seq<Id>, now: Instant, i: nat)
    requires i < |t.inbox|
    ensures var t' := Prepare(t, sourceId, mapped, related, now).tables;
      |t'.inbox| == |t.inbox|
      && (NewlySkipped(t.inbox, t'.inbox, i) ==> SkipJustified(t, OpPrepare(sourceId, mapped, related, now), i))
  {
  }

  lemma RotateSkips(t: Tables, q: RotationRequest, i: nat)
    requires i < |t.inbox|
    ensures var t' := Rotate(t, q).tables;
      |t'.inbox| == |t.inbox| && (NewlySkipped(t.inbox, t'.inbox, i) ==> SkipJustified(t, OpRotate(q), i))
  {
    RotateRowFootprint(t, q);
  }

  lemma IntakeKeepsFinished(
      t: Tables, lease: Lease, fact: Fact, deadline: Instant, checked: Instant, updated: Instant)
    ensures RowsFinal(t.inbox, Intake(t, lease, fact, deadline, checked, updated).tables.inbox)
  {
    IntakeFootprint(t, lease, fact, deadline, checked, updated);
  }

  lemma PrepareKeepsFinished(t: Tables, sourceId: Id, mapped: Option<Id>, related: seq<Id>, now: Instant)
    ensures RowsFinal(t.inbox, Prepare(t, sourceId, mapped, related, now).tables.inbox)
  {
    PrepareFootprint(t, sourceId, mapped, related, now);
  }

  lemma FinalizeKeepsFinished(t: Tables, sourceId: Id)
    ensures RowsFinal(t.inbox, Finalize(t, sourceId).tables.inbox)
  {
    FinalizeRowFootprint(t, sourceId);
  }

  lemma RotateKeepsFinished(t: Tables, q: RotationRequest)
    ensures RowsFinal(t.inbox, Rotate(t, q).tables.inbox)
  {
    RotateRowFootprint(t, q);
  }

  /** Operations that change no row, and the poison row that is added. */
  lemma OthersKeepFinished(t: Tables, op: Op)
    requires op.OpInitialize? || op.OpAcquire? || op.OpRenew? || op.OpPoison? || op.OpMarkUnavailable?
    ensures RowsFinal(t.inbox, Step(t, op).inbox)
  {
    if op.OpPoison? {
      PoisonFootprint(t, op.lease, op.now);
    } else if !op.OpInitialize? {
      QuietFootprint(t, op);
    }
  }

  /** In any step no row disappears or changes identity, and finished rows never change. */
  lemma StepKeepsFinished(t: Tables, op: Op)
    ensures RowsFinal(t.inbox, Step(t, op).inbox)
  {
    match op {
      case OpIntake(lease, fact, deadline, checked, updated) =>
        IntakeKeepsFinished(t, lease, fact, deadline, checked, updated);
      case OpPrepare(sourceId, mapped, related, now) => PrepareKeepsFinished(t, sourceId, mapped, related, now);
      case OpFinalize(sourceId) => FinalizeKeepsFinished(t, sourceId);
      case OpRotate(q) => RotateKeepsFinished(t, q);
      case _ => OthersKeepFinished(t, op);
    }
  }

  lemma OthersSkipNothing(t: Tables, op: Op, i: nat)
    requires i < |t.inbox| && !op.OpPrepare? && !op.OpRotate?
    ensures |t.inbox| <= |Step(t, op).inbox| && !NewlySkipped(t.inbox, Step(t, op).inbox, i)
  {
    match op {
      case OpIntake(lease, fact, deadline, checked, updated) =>
        IntakeFootprint(t, lease, fact, deadline, checked, updated);
      case OpPoison(lease, now) => PoisonFootprint(t, lease, now);
      case OpFinalize(sourceId) => FinalizeRowFootprint(t, sourceId);
      case OpInitialize(sources, newStream) =>
      case _ => QuietFootprint(t, op);
    }
  }

  /**
   In any step a row becomes skipped only by a rotation whose continuity record
   names its source, or, for a best-effort source, by a failed mapping.
   */
  lemma SkipsAreJustified(t: Tables, op: Op, i: nat)
    requires i < |t.inbox|
    ensures |t.inbox| <= |Step(t, op).inbox|
    ensures NewlySkipped(t.inbox, Step(t, op).inbox, i) ==> SkipJustified(t, op, i)
  {
    match op {
      case OpPrepare(sourceId, mapped, related, now) => PrepareSkips(t, sourceId, mapped, related, now, i);
      case OpRotate(q) => RotateSkips(t, q, i);
      case _ => OthersSkipNothing(t, op, i);
    }
  }

  /* ---------- events of one generation are consecutive ---------- */

  lemma GroupedFinalize(t: Tables, sourceId: Id)
    requires G.GenerationsSound(t) && EventsGrouped(t)
    ensures EventsGrouped(Finalize(t, sourceId).tables)
  {
    G.FinalizeFootprint(t, sourceId);
    var tx := Finalize(t, sourceId);
    if tx.outcome.Done? && tx.outcome.value.Some? {
      GroupedPublish(t, tx.tables, tx.outcome.value.value);
    }
  }

  lemma GroupedPublish(t: Tables, t': Tables, e: Event)
    requires G.GenerationsSound(t) && EventsGrouped(t) && G.Publishes(t, t', e)
    ensures EventsGrouped(t')
  {
  }

  lemma GroupedRotate(t: Tables, q: RotationRequest)
    requires G.GenerationsSound(t) && EventsGrouped(t)
    ensures EventsGrouped(Rotate(t, q).tables)
  {
    G.RotateFootprint(t, q);
  }

  lemma GroupedStep(t: Tables, op: Op)
    requires G.GenerationsSound(t) && EventsGrouped(t)
    ensures EventsGrouped(Step(t, op))
  {
    match op {
      case OpInitialize(sources, newStream) => G.InitializeFootprint(t, sources, newStream);
      case OpFinalize(sourceId) => GroupedFinalize(t, sourceId);
      case OpRotate(q) => GroupedRotate(t, q);
      case _ => G.OtherFootprint(t, op);
    }
  }

  lemma {:induction false} GroupedAlways(ops: seq<Op>)
    ensures EventsGrouped(Run(EMPTY_TABLES, ops))
  {
    if ops != [] {
      var front := ops[..|ops| - 1];
      GroupedAlways(front);
      G.GenerationsSoundAlways(front);
      GroupedStep(Run(EMPTY_TABLES, front), ops[|ops| - 1]);
    }
  }

  /** Events `p` and `r` are of one source stream and one generation. */
  ghost predicate Pair(t: Tables, p: nat, r: nat)
    requires p < r < |t.events|
  {
    SameSource(t.events[p], t.events[r]) && t.events[p].streamId == t.events[r].streamId
  }

  /** Row `j` lies strictly between the two events in source sequence. */
  ghost predicate Between(t: Tables, p: nat, j: nat, r: nat)
    requires p < r < |t.events| && j < |t.inbox|
  {
    && t.inbox[j].decoded.Some?
    && OfStream(t.inbox[j], t.events[p].sourceId, t.events[p].sourceStreamId)
    && t.events[p].sourceSequence < Seq(t.inbox[j]) < t.events[r].sourceSequence
  }

  /** Row `j` was published between the two events, in their generation. */
  ghost predicate PublishedBetween(t: Tables, p: nat, j: nat, r: nat)
    requires p < r < |t.events| && j < |t.inbox|
  {
    exists q :: p < q < r && PublishedAs(t.inbox[j], t.events[q]) && t.events[q].streamId == t.events[p].streamId
  }

  /**
   Over every run that is safe for the source: whatever lies between two of its
   events of one stream in one generation was published between them, in that
   generation, or was skipped.
   */
  lemma BetweenPublishedOrSkipped(ops: seq<Op>, p: nat, j: nat, r: nat)
    requires p < r < |Run(EMPTY_TABLES, ops).events| && j < |Run(EMPTY_TABLES, ops).inbox|
    requires SafeFrom(EMPTY_TABLES, ops, Run(EMPTY_TABLES, ops).events[p].sourceId)
    requires Pair(Run(EMPTY_TABLES, ops), p, r) && Between(Run(EMPTY_TABLES, ops), p, j, r)
    ensures var t := Run(EMPTY_TABLES, ops);
      t.inbox[j].status.TerminalSkipped? || PublishedBetween(t, p, j, r)
  {
    var t := Run(EMPTY_TABLES, ops);
    PublicationOrder(ops, t.events[p].sourceId);
    GroupedAlways(ops);
    BetweenIn(t, p, j, r);
  }

  lemma RowOfEvent(t: Tables, r: nat) returns (i: nat)
    requires EventsMatchRows(t) && r < |t.events|
    ensures i < |t.inbox| && PublishedAs(t.inbox[i], t.events[r])
  {
    assert Backed(t, r);
    i :| 0 <= i < |t.inbox| && PublishedAs(t.inbox[i], t.events[r]);
  }

  lemma EventOfRow(t: Tables, i: nat) returns (p: nat)
    requires EventsMatchRows(t) && i < |t.inbox| && t.inbox[i].status.Published?
    ensures p < |t.events| && PublishedAs(t.inbox[i], t.events[p])
  {
    assert Announced(t, i);
    p :| 0 <= p < |t.events| && PublishedAs(t.inbox[i], t.events[p]);
  }

  lemma BetweenIn(t: Tables, p: nat, j: nat, r: nat)
    requires p < r < |t.events| && EventsMatchRows(t) && EventsGrouped(t)
    requires HeadOfLine(t.inbox, t.events[p].sourceId) && EventsOrdered(t.events, t.events[p].sourceId)
    requires j < |t.inbox| && Pair(t, p, r) && Between(t, p, j, r)
    ensures t.inbox[j].status.TerminalSkipped? || PublishedBetween(t, p, j, r)
  {
    var i := RowOfEvent(t, r);
    assert !Overtakes(t.inbox[i], t.inbox[j]);
    if t.inbox[j].status.Published? {
      var q := EventOfRow(t, j);
      assert p < q < r;
    }
  }

  /* ---------- when nothing is missing ---------- */

  /** A row that may still be published lies below a skipped one. */
  ghost predicate Hole(live: InboxRow, skipped: InboxRow) {
    Below(live, skipped) && IsLive(live.status) && skipped.status.TerminalSkipped?
  }

  /** The row is of the source's current stream. */
  ghost predicate OnStream(t: Tables, row: InboxRow, id: Id) {
    id in t.sources && OfStream(row, id, t.sources[id].streamId)
  }

  ghost predicate NoHoles(t: Tables, id: Id) {
    forall i, j :: 0 <= i < |t.inbox| && 0 <= j < |t.inbox| && OnStream(t, t.inbox[i], id) ==>
      !Hole(t.inbox[i], t.inbox[j])
  }

  /** Event `e` and the skipped row are of one source stream, the row not below the event. */
  ghost predicate SkippedAbove(row: InboxRow, e: Event) {
    && row.decoded.Some? && row.status.TerminalSkipped? && OfStream(row, e.sourceId, e.sourceStreamId)
    && Seq(row) >= e.sourceSequence
  }

  ghost predicate InCurrent(t: Tables, e: Event, id: Id) {
    t.runtime.Some? && e.sourceId == id && e.streamId == t.runtime.value.currentStream
  }

  /** What the current generation has published from the source lies above everything skipped. */
  ghost predicate CurrentAboveSkips(t: Tables, id: Id) {
    forall p, j :: 0 <= p < |t.events| && 0 <= j < |t.inbox| && InCurrent(t, t.events[p], id) ==>
      !SkippedAbove(t.inbox[j], t.events[p])
  }

  /** No skipped row lies between two events of the source in one stream and one generation. */
  ghost predicate NothingMissing(t: Tables, id: Id) {
    forall p, j, r :: (0 <= p < r < |t.events| && 0 <= j < |t.inbox| && t.events[p].sourceId == id
                       && Pair(t, p, r) && Between(t, p, j, r)) ==>
      !t.inbox[j].status.TerminalSkipped?
  }

  ghost predicate IsLost(status: RowStatus) {
    status.TerminalSkipped? || IsLoss(status)
  }

  /** Not even a row that waits to be skipped does. */
  ghost predicate NothingLost(t: Tables, id: Id) {
    forall p, j, r :: (0 <= p < r < |t.events| && 0 <= j < |t.inbox| && t.events[p].sourceId == id
                       && Pair(t, p, r) && Between(t, p, j, r)) ==>
      !IsLost(t.inbox[j].status)
  }

  ghost predicate ContiguitySound(t: Tables, id: Id) {
    NoHoles(t, id) && CurrentAboveSkips(t, id) && NothingLost(t, id)
  }

  /** Everything promised about one source. */
  ghost predicate SourceSound(t: Tables, id: Id) {
    G.GenerationsSound(t) && TablesSound(t) && Orderly(t, id) && ContiguitySound(t, id)
  }

  /* ---------- what a step must not do ---------- */

  /** The row lies between two events of one generation. */
  ghost predicate Inside(t: Tables, row: InboxRow) {
    exists p, r :: 0 <= p < r < |t.events| && Pair(t, p, r) && Encloses(t.events[p], row, t.events[r])
  }

  ghost predicate Encloses(below: Event, row: InboxRow, above: Event) {
    && row.decoded.Some? && OfStream(row, below.sourceId, below.sourceStreamId)
    && below.sourceSequence < Seq(row) < above.sourceSequence
  }

  /**
   The step stores a publishable row below a published or a skipped one, or a
   row to be skipped between two events of one generation.
   */
  ghost predicate StoresLow(t: Tables, op: Op, id: Id) {
    Stores(t, op, id) &&
    (StoresBehind(t, op, id)
     || (exists j :: 0 <= j < |t.inbox| && Hole(Stored(op), t.inbox[j]))
     || (IsLoss(Stored(op).status) && Inside(t, Stored(op))))
  }

  /** A best-effort source gives its head up: no task by the deadline. */
  ghost predicate Drops(t: Tables, op: Op, id: Id) {
    && op.OpPrepare? && op.sourceId == id
    && id in t.sources && t.sources[id].semantics.BestEffortLive? && op.mapped.None?
    && Head(t, id).Some?
    && var row := t.inbox[Head(t, id).value];
    && IsLive(row.status) && !row.status.Ready? && row.decoded.Some?
    && row.decoded.value.body.subject.TaskSubject? && row.decoded.value.mappingDeadline <= op.now
  }

  /** The current generation has an event of the source's current stream. */
  ghost predicate HasBegun(t: Tables, id: Id) {
    id in t.sources
    && exists p :: 0 <= p < |t.events| && InCurrent(t, t.events[p], id)
                   && t.events[p].sourceStreamId == t.sources[id].streamId
  }

  /** The stream the source is on after a rotation. */
  function StreamAfter(t: Tables, roster: Roster, id: Id): Id
    requires id in t.sources
  {
    if id in roster then roster[id].streamId else t.sources[id].streamId
  }

  /**
   On the stream the source is on afterwards, the rotation leaves no publishable
   row below a skipped one.
   */
  ghost predicate LossesLead(t: Tables, q: RotationRequest, id: Id) {
    id in t.sources ==>
      forall i, j :: (0 <= i < |t.inbox| && 0 <= j < |t.inbox|
                      && OfStream(t.inbox[i], id, StreamAfter(t, Installed(t, q), id))) ==>
        !Hole(t.inbox[i], SkipLoss(t.inbox[j], Named(t, q)))
  }

  /**
   What no step of the source may do for its generations to have no gaps. Steps
   of other sources are not constrained, nor are leases, clocks or streams.
   */
  ghost predicate Careful(t: Tables, op: Op, id: Id) {
    && !StoresLow(t, op, id)
    && !(Drops(t, op, id) && HasBegun(t, id))
    && (op.OpRotate? && Rotate(t, op.request).tables != t ==> LossesLead(t, op.request, id))
  }

  ghost predicate CarefulFrom(t: Tables, ops: seq<Op>, id: Id) {
    ops != [] ==> CarefulFrom(t, ops[..|ops| - 1], id) && Careful(Run(t, ops[..|ops| - 1]), ops[|ops| - 1], id)
  }

  /* ---------- each kind of change keeps contiguity ---------- */

  /** Rows of the source are skipped or lost only if they were, and no new event of it appears. */
  lemma UnskippedKeeps(t: Tables, t': Tables, id: Id)
    requires CurrentAboveSkips(t, id) && NothingLost(t, id)
    requires t'.events == t.events && t'.runtime == t.runtime && |t.inbox| <= |t'.inbox|
    requires forall i :: 0 <= i < |t'.inbox| && t'.inbox[i].sourceId == id && t'.inbox[i].status.TerminalSkipped? ==>
      i < |t.inbox| && t'.inbox[i] == t.inbox[i]
    requires forall i :: 0 <= i < |t'.inbox| && t'.inbox[i].sourceId == id && IsLoss(t'.inbox[i].status) ==>
      (i < |t.inbox| && t'.inbox[i] == t.inbox[i]) || !Inside(t, t'.inbox[i])
    ensures CurrentAboveSkips(t', id) && NothingLost(t', id)
  {
    forall p, j, r | 0 <= p < r < |t'.events| && 0 <= j < |t'.inbox| && t'.events[p].sourceId == id
                     && Pair(t', p, r) && Between(t', p, j, r)
      ensures !IsLost(t'.inbox[j].status)
    {
      assert Pair(t, p, r) && Encloses(t.events[p], t'.inbox[j], t.events[r]);
      if j < |t.inbox| && t'.inbox[j] == t.inbox[j] {
        assert Between(t, p, j, r);
      }
    }
  }

  lemma AppendHoles(t: Tables, t': Tables, row: InboxRow, id: Id)
    requires NoHoles(t, id) && Appends(t, t', row)
    requires row.sourceId == id ==> forall j :: 0 <= j < |t.inbox| ==> !Hole(row, t.inbox[j])
    ensures NoHoles(t', id)
  {
    forall i, j | 0 <= i < |t'.inbox| && 0 <= j < |t'.inbox| && OnStream(t', t'.inbox[i], id)
      ensures !Hole(t'.inbox[i], t'.inbox[j])
    {
      if i < |t.inbox| && j < |t.inbox| {
        assert OnStream(t, t.inbox[i], id) && !Hole(t.inbox[i], t.inbox[j]);
      }
    }
  }

  lemma AppendContiguous(t: Tables, t': Tables, row: InboxRow, id: Id)
    requires ContiguitySound(t, id) && Appends(t, t', row) && t'.runtime == t.runtime
    requires row.sourceId == id ==> forall j :: 0 <= j < |t.inbox| ==> !Hole(row, t.inbox[j])
    requires row.sourceId == id && IsLoss(row.status) ==> !Inside(t, row)
    ensures ContiguitySound(t', id)
  {
    AppendHoles(t, t', row, id);
    UnskippedKeeps(t, t', id);
  }

  lemma QuietContiguous(t: Tables, t': Tables, id: Id)
    requires ContiguitySound(t, id) && Quiet(t, t') && t'.runtime == t.runtime
    ensures ContiguitySound(t', id)
  {
    UnskippedKeeps(t, t', id);
    forall i, j | 0 <= i < |t'.inbox| && 0 <= j < |t'.inbox| && OnStream(t', t'.inbox[i], id)
      ensures !Hole(t'.inbox[i], t'.inbox[j])
    {
      assert OnStream(t, t.inbox[i], id) && !Hole(t.inbox[i], t.inbox[j]);
    }
  }

  /** A publishable row is not between two events: that would put it below a published row. */
  lemma LiveNotInside(t: Tables, i: nat)
    requires TablesSound(t) && i < |t.inbox| && IsLive(t.inbox[i].status) && Orderly(t, t.inbox[i].sourceId)
    ensures !Inside(t, t.inbox[i])
  {
    forall p, r | 0 <= p < r < |t.events| && Pair(t, p, r)
      ensures !Encloses(t.events[p], t.inbox[i], t.events[r])
    {
      var k := RowOfEvent(t, r);
      assert !Behind(t.inbox[i], t.inbox[k]);
    }
  }

  /** The head of a source has no publishable row below it, and nothing below it stays open once it is skipped. */
  lemma HeadLowest(t: Tables, id: Id, i: nat)
    requires id in t.sources && Head(t, id).Some? && i < |t.inbox| && OnStream(t, t.inbox[i], id)
    ensures !(IsOpen(t.inbox[i].status) && Below(t.inbox[i], t.inbox[Head(t, id).value]))
  {
    HeadIsFirst(t.inbox, |t.inbox|, id, t.sources[id].streamId);
    if IsOpen(t.inbox[i].status) {
      assert OpenAt(t.inbox, i, id, t.sources[id].streamId);
      assert Before(t.inbox, Head(t, id).value, i);
    }
  }

  lemma MoveHoles(t: Tables, t': Tables, sourceId: Id, row: InboxRow, id: Id)
    requires NoHoles(t, id) && sourceId in t.sources && Head(t, sourceId).Some?
    requires Moves(t, t', Head(t, sourceId).value, row)
    ensures NoHoles(t', id)
  {
    var h := Head(t, sourceId).value;
    forall i, j | 0 <= i < |t'.inbox| && 0 <= j < |t'.inbox| && OnStream(t', t'.inbox[i], id)
      ensures !Hole(t'.inbox[i], t'.inbox[j])
    {
      assert OnStream(t, t.inbox[i], id) && !Hole(t.inbox[i], t.inbox[j]);
      if j == h && SameStream(t.inbox[i], t.inbox[h]) {
        HeadLowest(t, sourceId, i);
      }
    }
  }

  lemma MoveContiguous(t: Tables, t': Tables, sourceId: Id, row: InboxRow, id: Id)
    requires TablesSound(t) && Orderly(t, id) && ContiguitySound(t, id)
    requires sourceId in t.sources && Head(t, sourceId).Some?
    requires Moves(t, t', Head(t, sourceId).value, row) && t'.runtime == t.runtime
    requires row.sourceId == id && row.status.TerminalSkipped? ==> !HasBegun(t, id)
    ensures ContiguitySound(t', id)
  {
    var h := Head(t, sourceId).value;
    MoveHoles(t, t', sourceId, row, id);
    if t.inbox[h].sourceId == id {
      LiveNotInside(t, h);
    }
    MoveSkips(t, t', h, row, id);
    MoveLoses(t, t', h, row, id);
  }

  lemma MoveSkips(t: Tables, t': Tables, h: nat, row: InboxRow, id: Id)
    requires TablesSound(t) && CurrentAboveSkips(t, id) && Moves(t, t', h, row) && t'.runtime == t.runtime
    requires row.sourceId == id && row.status.TerminalSkipped? ==> OnStream(t, t.inbox[h], id) && !HasBegun(t, id)
    ensures CurrentAboveSkips(t', id)
  {
    forall p, j | 0 <= p < |t'.events| && 0 <= j < |t'.inbox| && InCurrent(t', t'.events[p], id)
      ensures !SkippedAbove(t'.inbox[j], t'.events[p])
    {
      assert InCurrent(t, t.events[p], id) && !SkippedAbove(t.inbox[j], t.events[p]);
    }
  }

  lemma MoveLoses(t: Tables, t': Tables, h: nat, row: InboxRow, id: Id)
    requires NothingLost(t, id) && Moves(t, t', h, row) && (t.inbox[h].sourceId == id ==> !Inside(t, t.inbox[h]))
    ensures NothingLost(t', id)
  {
    forall p, j, r | 0 <= p < r < |t'.events| && 0 <= j < |t'.inbox| && t'.events[p].sourceId == id
                     && Pair(t', p, r) && Between(t', p, j, r)
      ensures !IsLost(t'.inbox[j].status)
    {
      assert Pair(t, p, r) && Between(t, p, j, r) && Encloses(t.events[p], t.inbox[j], t.events[r]);
    }
  }

  lemma PublishHoles(t: Tables, t': Tables, h: nat, e: Event, id: Id)
    requires NoHoles(t, id) && PublishesRow(t, t', h, e)
    ensures NoHoles(t', id)
  {
    forall i, j | 0 <= i < |t'.inbox| && 0 <= j < |t'.inbox| && OnStream(t', t'.inbox[i], id)
      ensures !Hole(t'.inbox[i], t'.inbox[j])
    {
      assert OnStream(t, t.inbox[i], id) && !Hole(t.inbox[i], t.inbox[j]);
    }
  }

  /** What is published now lies above everything skipped. */
  lemma PublishAbove(t: Tables, t': Tables, h: nat, e: Event, id: Id)
    requires NoHoles(t, id) && IdentitiesUnique(t.inbox) && PublishesRow(t, t', h, e) && e.sourceId == id
    ensures forall j :: 0 <= j < |t'.inbox| ==> !SkippedAbove(t'.inbox[j], e)
  {
    forall j | 0 <= j < |t'.inbox| ensures !SkippedAbove(t'.inbox[j], e) {
      assert OnStream(t, t.inbox[h], id) && !Hole(t.inbox[h], t.inbox[j]);
      assert j < h ==> Distinguished(t.inbox[j], t.inbox[h]);
      assert h < j ==> Distinguished(t.inbox[h], t.inbox[j]);
    }
  }

  lemma PublishSkips(t: Tables, t': Tables, h: nat, e: Event, id: Id)
    requires NoHoles(t, id) && CurrentAboveSkips(t, id) && IdentitiesUnique(t.inbox) && PublishesRow(t, t', h, e)
    requires t'.runtime == t.runtime
    ensures CurrentAboveSkips(t', id)
  {
    forall p, j | 0 <= p < |t'.events| && 0 <= j < |t'.inbox| && InCurrent(t', t'.events[p], id)
      ensures !SkippedAbove(t'.inbox[j], t'.events[p])
    {
      if p < |t.events| {
        assert InCurrent(t, t.events[p], id) && !SkippedAbove(t.inbox[j], t.events[p]);
      } else {
        PublishAbove(t, t', h, e, id);
      }
    }
  }

  lemma PublishLoses(t: Tables, t': Tables, h: nat, e: Event, id: Id)
    requires CurrentAboveSkips(t, id) && NothingLost(t, id) && PublishesRow(t, t', h, e)
    requires t.runtime.Some? && e.streamId == t.runtime.value.currentStream
    ensures NothingLost(t', id)
  {
    forall p, j, r | 0 <= p < r < |t'.events| && 0 <= j < |t'.inbox| && t'.events[p].sourceId == id
                     && Pair(t', p, r) && Between(t', p, j, r)
      ensures !IsLost(t'.inbox[j].status)
    {
      if j != h {
        if r < |t.events| {
          assert Pair(t, p, r) && Between(t, p, j, r);
        } else {
          assert InCurrent(t, t.events[p], id) && !SkippedAbove(t.inbox[j], t.events[p]);
          assert Below(t.inbox[j], t.inbox[h]);
        }
      }
    }
  }

  lemma PublishContiguous(t: Tables, t': Tables, h: nat, e: Event, id: Id)
    requires ContiguitySound(t, id) && IdentitiesUnique(t.inbox) && PublishesRow(t, t', h, e)
    requires t.runtime.Some? && t'.runtime == t.runtime && e.streamId == t.runtime.value.currentStream
    ensures ContiguitySound(t', id)
  {
    PublishHoles(t, t', h, e, id);
    PublishSkips(t, t', h, e, id);
    PublishLoses(t, t', h, e, id);
  }

  /** Skipping losses puts no row between two events that was not there, lost. */
  lemma SkipLosesNothing(t: Tables, t': Tables, affected: set<Id>, roster: Roster, id: Id)
    requires NothingLost(t, id) && Skips(t, t', affected, roster)
    ensures NothingLost(t', id)
  {
    forall p, j, r | 0 <= p < r < |t'.events| && 0 <= j < |t'.inbox| && t'.events[p].sourceId == id
                     && Pair(t', p, r) && Between(t', p, j, r)
      ensures !IsLost(t'.inbox[j].status)
    {
      assert t'.inbox[j] == SkipLoss(t.inbox[j], affected);
      assert Pair(t, p, r) && Between(t, p, j, r);
    }
  }

  lemma SkipHoles(t: Tables, t': Tables, q: RotationRequest, id: Id)
    requires TablesSound(t) && Skips(t, t', Named(t, q), Installed(t, q)) && LossesLead(t, q, id)
    ensures NoHoles(t', id)
  {
    forall i, j | 0 <= i < |t'.inbox| && 0 <= j < |t'.inbox| && OnStream(t', t'.inbox[i], id)
      ensures !Hole(t'.inbox[i], t'.inbox[j])
    {
      assert t'.inbox[i] == SkipLoss(t.inbox[i], Named(t, q)) && t'.inbox[j] == SkipLoss(t.inbox[j], Named(t, q));
      assert RowSound(t, t.inbox[i]);
      assert !Hole(t.inbox[i], SkipLoss(t.inbox[j], Named(t, q)));
    }
  }

  /** No event is in the generation a rotation opens. */
  lemma NewGenerationEmpty(t: Tables, q: RotationRequest)
    requires G.GenerationsSound(t) && Rotate(t, q).tables != t
    ensures var t' := Rotate(t, q).tables;
      && t'.runtime.Some? && t'.events == t.events
      && forall p :: 0 <= p < |t.events| ==> t.events[p].streamId != t'.runtime.value.currentStream
  {
    G.RotateFootprint(t, q);
  }

  lemma RotateContiguous(t: Tables, q: RotationRequest, id: Id)
    requires G.GenerationsSound(t) && TablesSound(t) && ContiguitySound(t, id) && Careful(t, OpRotate(q), id)
    ensures ContiguitySound(Rotate(t, q).tables, id)
  {
    var t' := Rotate(t, q).tables;
    RotateRowFootprint(t, q);
    if t' != t {
      SkipHoles(t, t', q, id);
      SkipLosesNothing(t, t', Named(t, q), Installed(t, q), id);
      NewGenerationEmpty(t, q);
    }
  }

  lemma IntakeContiguous(t: Tables, op: Op, id: Id)
    requires op.OpIntake? && ContiguitySound(t, id) && !StoresLow(t, op, id)
    ensures ContiguitySound(Step(t, op), id)
  {
    IntakeFootprint(t, op.lease, op.fact, op.deadline, op.checked, op.updated);
    var tx := Intake(t, op.lease, op.fact, op.deadline, op.checked, op.updated);
    if tx.outcome.Done? && !tx.outcome.value.DuplicateFact? {
      AppendContiguous(t, tx.tables, Stored(op), id);
    } else {
      QuietContiguous(t, tx.tables, id);
    }
  }

  lemma PrepareContiguous(t: Tables, op: Op, id: Id)
    requires op.OpPrepare? && TablesSound(t) && Orderly(t, id) && ContiguitySound(t, id) && Careful(t, op, id)
    ensures ContiguitySound(Step(t, op), id)
  {
    var t' := Prepare(t, op.sourceId, op.mapped, op.related, op.now).tables;
    PrepareFootprint(t, op.sourceId, op.mapped, op.related, op.now);
    if t' != t {
      MoveContiguous(t, t', op.sourceId, t'.inbox[Head(t, op.sourceId).value], id);
    }
  }

  lemma FinalizeContiguous(t: Tables, sourceId: Id, id: Id)
    requires TablesSound(t) && ContiguitySound(t, id)
    ensures ContiguitySound(Finalize(t, sourceId).tables, id)
  {
    var tx := Finalize(t, sourceId);
    FinalizeRowFootprint(t, sourceId);
    G.FinalizeFootprint(t, sourceId);
    if tx.outcome.Done? && tx.outcome.value.Some? {
      PublishContiguous(t, tx.tables, Head(t, sourceId).value, tx.outcome.value.value, id);
    }
  }

  lemma PoisonContiguous(t: Tables, lease: Lease, now: Instant, id: Id)
    requires ContiguitySound(t, id)
    ensures ContiguitySound(Poison(t, lease, now).tables, id)
  {
    PoisonFootprint(t, lease, now);
    if Poison(t, lease, now).outcome.Done? {
      var row := InboxRow(lease.sourceId, lease.streamId, Rejected, None, None);
      AppendContiguous(t, Poison(t, lease, now).tables, row, id);
    }
  }

  lemma InitializeContiguous(t: Tables, sources: seq<SourceDefinition>, newStream: Id, id: Id)
    requires G.GenerationsSound(t) && ContiguitySound(t, id)
    ensures ContiguitySound(Initialize(t, sources, newStream).tables, id)
  {
  }

  lemma StepKeepsContiguity(t: Tables, op: Op, id: Id)
    requires SourceSound(t, id) && Careful(t, op, id)
    ensures ContiguitySound(Step(t, op), id)
  {
    match op {
      case OpInitialize(sources, newStream) => InitializeContiguous(t, sources, newStream, id);
      case OpIntake(_, _, _, _, _) => IntakeContiguous(t, op, id);
      case OpPoison(lease, now) => PoisonContiguous(t, lease, now, id);
      case OpPrepare(_, _, _, _) => PrepareContiguous(t, op, id);
      case OpFinalize(sourceId) => FinalizeContiguous(t, sourceId, id);
      case OpRotate(q) => RotateContiguous(t, q, id);
      case _ =>
        QuietFootprint(t, op);
        QuietContiguous(t, Step(t, op), id);
    }
  }

  lemma CarefulStepSound(t: Tables, op: Op, id: Id)
    requires SourceSound(t, id) && Careful(t, op, id)
    ensures SourceSound(Step(t, op), id)
  {
    G.StepKeepsGenerations(t, op);
    StepTables(t, op);
    StepOrderly(t, op, id);
    StepKeepsContiguity(t, op, id);
  }

  lemma {:induction false} CarefulKeepsSource(t: Tables, ops: seq<Op>, id: Id)
    requires SourceSound(t, id) && CarefulFrom(t, ops, id)
    ensures SourceSound(Run(t, ops), id)
  {
    if ops != [] {
      CarefulKeepsSource(t, ops[..|ops| - 1], id);
      CarefulStepSound(Run(t, ops[..|ops| - 1]), ops[|ops| - 1], id);
    }
  }

  lemma EmptySound(id: Id)
    ensures SourceSound(EMPTY_TABLES, id)
  {
  }

  /**
   Over every run that is careful with a source, whatever happens to the others
   and to its leases, the source's events in one generation are a contiguous run
   of its inbox: whatever lies between two of them was published between them, in
   that generation. They are in order, too.
   */
  lemma GenerationsContiguous(ops: seq<Op>, p: nat, j: nat, r: nat)
    requires p < r < |Run(EMPTY_TABLES, ops).events| && j < |Run(EMPTY_TABLES, ops).inbox|
    requires CarefulFrom(EMPTY_TABLES, ops, Run(EMPTY_TABLES, ops).events[p].sourceId)
    requires Pair(Run(EMPTY_TABLES, ops), p, r) && Between(Run(EMPTY_TABLES, ops), p, j, r)
    ensures PublishedBetween(Run(EMPTY_TABLES, ops), p, j, r)
    ensures EventsOrdered(Run(EMPTY_TABLES, ops).events, Run(EMPTY_TABLES, ops).events[p].sourceId)
  {
    var t := Run(EMPTY_TABLES, ops);
    EmptySound(t.events[p].sourceId);
    CarefulKeepsSource(EMPTY_TABLES, ops, t.events[p].sourceId);
    GroupedAlways(ops);
    BetweenSound(t, p, j, r);
  }

  lemma BetweenSound(t: Tables, p: nat, j: nat, r: nat)
    requires p < r < |t.events| && j < |t.inbox| && SourceSound(t, t.events[p].sourceId) && EventsGrouped(t)
    requires Pair(t, p, r) && Between(t, p, j, r)
    ensures PublishedBetween(t, p, j, r)
  {
    assert !IsLost(t.inbox[j].status);
    if IsLive(t.inbox[j].status) {
      LiveNotInside(t, j);
      assert Encloses(t.events[p], t.inbox[j], t.events[r]);
    } else {
      var q := EventOfRow(t, j);
      assert p < q < r;
    }
  }

  /* ---------- publication that stalls ---------- */

  /** The head of the source is ready, and above what the source has counted. */
  ghost predicate Uncounted(t: Tables, id: Id) {
    && id in t.sources && Head(t, id).Some?
    && var row := t.inbox[Head(t, id).value];
    && row.status.Ready? && row.decoded.Some? && Seq(row) > t.sources[id].lastPersisted
  }

  /** In every reachable state publishing from a source fails on the counters exactly if its ready head is uncounted. */
  lemma StallsExactly(ops: seq<Op>, id: Id)
    ensures var t := Run(EMPTY_TABLES, ops);
      Finalize(t, id).outcome == Failed(ConstraintViolation) <==> Uncounted(t, id)
  {
    var t := Run(EMPTY_TABLES, ops);
    TablesSoundAlways(ops);
    G.GenerationsSoundAlways(ops);
    if id in t.sources && Head(t, id).Some? {
      assert RowSound(t, t.inbox[Head(t, id).value]);
    }
  }

  /** Every sequence of the source's current stream is at or below its persisted counter. */
  ghost predicate CountersExact(t: Tables, id: Id) {
    forall i :: 0 <= i < |t.inbox| && OnStream(t, t.inbox[i], id) ==> Counted(t, t.inbox[i])
  }

  ghost predicate Counted(t: Tables, row: InboxRow) {
    row.decoded.Some? && row.sourceId in t.sources ==> Seq(row) <= t.sources[row.sourceId].lastPersisted
  }

  /** The source is moved only to a stream it has no rows from. */
  ghost predicate KeepsStream(t: Tables, roster: Roster, id: Id) {
    id in roster && id in t.sources && roster[id].streamId != t.sources[id].streamId ==>
      forall i :: 0 <= i < |t.inbox| ==> !OfStream(t.inbox[i], id, roster[id].streamId)
  }

  /** The lease of the source outlasts its intakes, and no rotation brings it back to a stream. */
  ghost predicate Attentive(t: Tables, op: Op, id: Id) {
    && (op.OpIntake? && op.lease.sourceId == id && LeaseValid(t, op.lease, op.checked) ==>
          LeaseValid(t, op.lease, op.updated))
    && (op.OpRotate? && Rotate(t, op.request).tables != t ==> KeepsStream(t, Installed(t, op.request), id))
  }

  ghost predicate AttentiveFrom(t: Tables, ops: seq<Op>, id: Id) {
    ops != [] ==> AttentiveFrom(t, ops[..|ops| - 1], id) && Attentive(Run(t, ops[..|ops| - 1]), ops[|ops| - 1], id)
  }

  /** Rows keep their identities and the counter of the source grows. */
  lemma CountersGrow(t: Tables, t': Tables, id: Id)
    requires CountersExact(t, id) && |t'.inbox| == |t.inbox|
    requires forall i :: 0 <= i < |t.inbox| ==>
      SameStream(t'.inbox[i], t.inbox[i]) && t'.inbox[i].decoded == t.inbox[i].decoded
    requires id in t'.sources ==> id in t.sources && t'.sources[id].streamId == t.sources[id].streamId
                                  && t'.sources[id].lastPersisted >= t.sources[id].lastPersisted
    ensures CountersExact(t', id)
  {
    forall i | 0 <= i < |t'.inbox| && OnStream(t', t'.inbox[i], id) ensures Counted(t', t'.inbox[i]) {
      assert OnStream(t, t.inbox[i], id) && Counted(t, t.inbox[i]);
    }
  }

  lemma IntakeCounts(t: Tables, op: Op, id: Id)
    requires op.OpIntake? && CountersExact(t, id) && Attentive(t, op, id)
    ensures CountersExact(Step(t, op), id)
  {
    IntakeFootprint(t, op.lease, op.fact, op.deadline, op.checked, op.updated);
    var t' := Step(t, op);
    forall i | 0 <= i < |t'.inbox| && OnStream(t', t'.inbox[i], id) ensures Counted(t', t'.inbox[i]) {
      assert i < |t.inbox| ==> OnStream(t, t.inbox[i], id) && Counted(t, t.inbox[i]);
    }
  }

  lemma PoisonCounts(t: Tables, lease: Lease, now: Instant, id: Id)
    requires CountersExact(t, id)
    ensures CountersExact(Poison(t, lease, now).tables, id)
  {
    var t' := Poison(t, lease, now).tables;
    PoisonFootprint(t, lease, now);
    forall i | 0 <= i < |t'.inbox| && OnStream(t', t'.inbox[i], id) ensures Counted(t', t'.inbox[i]) {
      assert i < |t.inbox| ==> OnStream(t, t.inbox[i], id) && Counted(t, t.inbox[i]);
    }
  }

  lemma RotateCounts(t: Tables, q: RotationRequest, id: Id)
    requires TablesSound(t) && CountersExact(t, id) && Attentive(t, OpRotate(q), id)
    ensures CountersExact(Rotate(t, q).tables, id)
  {
    RotateRowFootprint(t, q);
    if Rotate(t, q).tables != t {
      SkipCounts(t, Rotate(t, q).tables, Named(t, q), Installed(t, q), id);
    }
  }

  lemma SkipCounts(t: Tables, t': Tables, named: set<Id>, roster: Roster, id: Id)
    requires TablesSound(t) && CountersExact(t, id) && Skips(t, t', named, roster) && KeepsStream(t, roster, id)
    ensures CountersExact(t', id)
  {
    forall i | 0 <= i < |t'.inbox| && OnStream(t', t'.inbox[i], id) ensures Counted(t', t'.inbox[i]) {
      assert t'.inbox[i] == SkipLoss(t.inbox[i], named);
      assert RowSound(t, t.inbox[i]);
      assert OnStream(t, t.inbox[i], id) && Counted(t, t.inbox[i]);
    }
  }

  lemma StepCounts(t: Tables, op: Op, id: Id)
    requires TablesSound(t) && (t.runtime.None? ==> t == EMPTY_TABLES) && CountersExact(t, id) && Attentive(t, op, id)
    ensures CountersExact(Step(t, op), id)
  {
    match op {
      case OpInitialize(sources, newStream) => assert t.runtime.None? ==> |t.inbox| == 0;
      case OpIntake(_, _, _, _, _) => IntakeCounts(t, op, id);
      case OpPoison(lease, now) => PoisonCounts(t, lease, now, id);
      case OpPrepare(sourceId, mapped, related, now) =>
        PrepareFootprint(t, sourceId, mapped, related, now);
        CountersGrow(t, Step(t, op), id);
      case OpFinalize(sourceId) =>
        FinalizeRowFootprint(t, sourceId);
        CountersGrow(t, Step(t, op), id);
      case OpRotate(q) => RotateCounts(t, q, id);
      case _ =>
        QuietFootprint(t, op);
        CountersGrow(t, Step(t, op), id);
    }
  }

  lemma {:induction false} AttentiveCounts(ops: seq<Op>, id: Id)
    requires AttentiveFrom(EMPTY_TABLES, ops, id)
    ensures CountersExact(Run(EMPTY_TABLES, ops), id)
  {
    if ops != [] {
      var front := ops[..|ops| - 1];
      AttentiveCounts(front, id);
      TablesSoundAlways(front);
      G.GenerationsSoundAlways(front);
      StepCounts(Run(EMPTY_TABLES, front), ops[|ops| - 1], id);
    }
  }

  /**
   Over every run in which the source's leases outlast its intakes and no stream
   returns, publishing from it never fails.
   */
  lemma PublicationNeverFails(ops: seq<Op>, id: Id)
    requires AttentiveFrom(EMPTY_TABLES, ops, id) && id in Run(EMPTY_TABLES, ops).sources
    ensures Finalize(Run(EMPTY_TABLES, ops), id).outcome.Done?
  {
    var t := Run(EMPTY_TABLES, ops);
    AttentiveCounts(ops, id);
    TablesSoundAlways(ops);
    G.GenerationsSoundAlways(ops);
    var h := Head(t, id);
    if h.Some? {
      assert RowSound(t, t.inbox[h.value]);
      assert OnStream(t, t.inbox[h.value], id) && Counted(t, t.inbox[h.value]);
    }
  }
}
