/**
 Publication order, source by source: a source stream's rows are published in
 source-sequence order, each at most once, and nothing below a published row is
 still open. The order rests on row statuses, on identities and on the persisted
 counter, never on the status of the source.
 */
module BusinessEventOrdering {
  import opened Basics
  import opened BusinessEventTables

  ghost predicate SameStream(a: InboxRow, b: InboxRow) {
    a.sourceId == b.sourceId && a.streamId == b.streamId
  }

  function Seq(row: InboxRow): nat
    requires row.decoded.Some?
  {
    row.decoded.value.sequence
  }

  /** Both rows carry a sequence of the same source stream, `a` below `b`. */
  ghost predicate Below(a: InboxRow, b: InboxRow) {
    a.decoded.Some? && b.decoded.Some? && SameStream(a, b) && Seq(a) < Seq(b)
  }

  ghost predicate RowSound(t: Tables, row: InboxRow) {
    && row.sourceId in t.sources
    && (IsLive(row.status) || row.status.Published? ==> row.decoded.Some?)
    && (row.status.Ready? || row.status.Published? ==> row.relation.Some?)
    && (row.decoded.Some? ==> 1 <= Seq(row) <= MAX_SEQUENCE)
  }

  ghost predicate RowsSound(t: Tables) {
    forall i :: 0 <= i < |t.inbox| ==> RowSound(t, t.inbox[i])
  }

  ghost predicate CountersSound(t: Tables) {
    forall id :: id in t.sources ==> t.sources[id].lastFinalized <= t.sources[id].lastPersisted
  }

  ghost predicate Distinguished(a: InboxRow, b: InboxRow) {
    SameStream(a, b) && a.decoded.Some? && b.decoded.Some? ==>
      Seq(a) != Seq(b) && a.decoded.value.eventId != b.decoded.value.eventId
  }

  /** Sequences and event ids name at most one row of a source stream. */
  ghost predicate IdentitiesUnique(inbox: seq<InboxRow>) {
    forall i, j :: 0 <= i < j < |inbox| ==> Distinguished(inbox[i], inbox[j])
  }

  ghost predicate Overtakes(b: InboxRow, a: InboxRow) {
    Below(a, b) && b.status.Published? && IsOpen(a.status)
  }

  /** Nothing below a published row of the source is still open. */
  ghost predicate HeadOfLine(inbox: seq<InboxRow>, id: Id) {
    forall i, j :: 0 <= i < |inbox| && 0 <= j < |inbox| && inbox[j].sourceId == id ==> !Overtakes(inbox[j], inbox[i])
  }

  /** Event `e` is what publishing `row` produces. */
  ghost predicate PublishedAs(row: InboxRow, e: Event) {
    && row.status.Published? && row.decoded.Some? && row.relation.Some?
    && e == EventOf(e.streamId, e.sequence, row)
  }

  ghost predicate Backed(t: Tables, p: nat)
    requires p < |t.events|
  {
    exists i :: 0 <= i < |t.inbox| && PublishedAs(t.inbox[i], t.events[p])
  }

  ghost predicate Announced(t: Tables, i: nat)
    requires i < |t.inbox|
  {
    t.inbox[i].status.Published? ==> exists p :: 0 <= p < |t.events| && PublishedAs(t.inbox[i], t.events[p])
  }

  ghost predicate EventsMatchRows(t: Tables) {
    && (forall p :: 0 <= p < |t.events| ==> Backed(t, p))
    && (forall i :: 0 <= i < |t.inbox| ==> Announced(t, i))
  }

  ghost predicate SameSource(a: Event, b: Event) {
    a.sourceId == b.sourceId && a.sourceStreamId == b.sourceStreamId
  }

  /** The source's events appear, stream by stream, in strictly increasing source sequence. */
  ghost predicate EventsOrdered(events: seq<Event>, id: Id) {
    forall p, q :: (0 <= p < q < |events| && events[p].sourceId == id && SameSource(events[p], events[q])) ==>
      events[p].sourceSequence < events[q].sourceSequence
  }

  /** A stream's events are consecutive in the table, the current stream's last. */
  ghost predicate EventsGrouped(t: Tables) {
    && (t.runtime.Some? ==>
          forall p, q :: 0 <= p < q < |t.events| && t.events[p].streamId == t.runtime.value.currentStream ==>
            t.events[q].streamId == t.runtime.value.currentStream)
    && (forall p, q, r :: 0 <= p < q < r < |t.events| && t.events[p].streamId == t.events[r].streamId ==>
          t.events[q].streamId == t.events[p].streamId)
  }

  /** What holds of the tables in every run, whatever the rotations. */
  ghost predicate TablesSound(t: Tables) {
    RowsSound(t) && CountersSound(t) && IdentitiesUnique(t.inbox) && EventsMatchRows(t)
  }

  /** Some row of the source stream has the sequence. */
  ghost predicate Used(inbox: seq<InboxRow>, sourceId: Id, streamId: Id, s: nat) {
    exists i :: 0 <= i < |inbox| && HasSequence(inbox[i], sourceId, streamId, s)
  }

  ghost predicate HasSequence(row: InboxRow, sourceId: Id, streamId: Id, s: nat) {
    OfStream(row, sourceId, streamId) && row.decoded.Some? && Seq(row) == s
  }

  ghost predicate PublishedAbove(row: InboxRow, sourceId: Id, streamId: Id, s: nat) {
    row.status.Published? && OfStream(row, sourceId, streamId) && row.decoded.Some? && s < Seq(row)
  }

  /** A sequence that intake may still take is above every published row of the source's stream. */
  ghost predicate Shielded(t: Tables, id: Id) {
    id in t.sources ==>
      forall i, s: nat :: (0 <= i < |t.inbox| && t.sources[id].lastPersisted < s
                           && PublishedAbove(t.inbox[i], id, t.sources[id].streamId, s)) ==>
        Used(t.inbox, id, t.sources[id].streamId, s)
  }

  /** Publication order of one source, and what protects it. */
  ghost predicate LineSound(t: Tables, id: Id) {
    HeadOfLine(t.inbox, id) && EventsOrdered(t.events, id) && Shielded(t, id)
  }

  /* ---------- what a transaction does to rows, events and counters ---------- */

  ghost predicate SameCounters(t: Tables, t': Tables) {
    && t'.sources.Keys == t.sources.Keys
    && forall id :: id in t.sources ==>
         && t'.sources[id].streamId == t.sources[id].streamId
         && t'.sources[id].semantics == t.sources[id].semantics
         && t'.sources[id].lastPersisted == t.sources[id].lastPersisted
         && t'.sources[id].lastFinalized == t.sources[id].lastFinalized
  }

  ghost predicate Quiet(t: Tables, t': Tables) {
    t'.inbox == t.inbox && t'.events == t.events && SameCounters(t, t')
  }

  ghost predicate NoClash(inbox: seq<InboxRow>, row: InboxRow) {
    forall i :: 0 <= i < |inbox| ==> Distinguished(inbox[i], row)
  }

  /** A new row of the source's current stream, above everything persisted. */
  ghost predicate Appends(t: Tables, t': Tables, row: InboxRow) {
    && t'.inbox == t.inbox + [row] && t'.events == t.events
    && row.sourceId in t.sources && row.streamId == t.sources[row.sourceId].streamId
    && (row.status.Rejected? || (row.status.Received? && row.decoded.Some?))
    && NoClash(t.inbox, row) && (row.decoded.Some? ==> 1 <= Seq(row) <= MAX_SEQUENCE)
    && (row.decoded.Some? ==> Seq(row) > t.sources[row.sourceId].lastPersisted)
    && t'.sources.Keys == t.sources.Keys
    && forall id :: id in t.sources ==>
         && t'.sources[id].streamId == t.sources[id].streamId
         && t'.sources[id].semantics == t.sources[id].semantics
         && t'.sources[id].lastFinalized == t.sources[id].lastFinalized
         && t'.sources[id].lastPersisted >= t.sources[id].lastPersisted
  }

  /** Row `h` moves on without being published; its identity stays. */
  ghost predicate Moves(t: Tables, t': Tables, h: nat, row: InboxRow) {
    && h < |t.inbox| && t'.inbox == t.inbox[h := row] && t'.events == t.events && SameCounters(t, t')
    && IsLive(t.inbox[h].status) && t.inbox[h].decoded.Some?
    && SameStream(row, t.inbox[h]) && row.decoded == t.inbox[h].decoded
    && !row.status.Published? && (row.status.Ready? ==> row.relation.Some?)
  }

  /** The head row `h` of its source is published as the newest event. */
  ghost predicate PublishesRow(t: Tables, t': Tables, h: nat, e: Event) {
    && h < |t.inbox|
    && var row := t.inbox[h];
    && row.status.Ready? && row.decoded.Some? && row.relation.Some?
    && row.sourceId in t.sources && row.streamId == t.sources[row.sourceId].streamId
    && Seq(row) <= t.sources[row.sourceId].lastPersisted
    && (forall j :: 0 <= j < |t.inbox| && Below(t.inbox[j], row) ==> !IsOpen(t.inbox[j].status))
    && e == EventOf(e.streamId, e.sequence, row)
    && t'.inbox == t.inbox[h := row.(status := Published)]
    && t'.events == t.events + [e]
    && t'.sources == t.sources[row.sourceId := t.sources[row.sourceId].(lastFinalized := Seq(row))]
  }

  /** Loss rows of the affected sources are skipped; sources are re-enrolled. */
  ghost predicate Skips(t: Tables, t': Tables, affected: set<Id>, roster: Roster) {
    && t'.inbox == SkipLosses(t.inbox, affected) && t'.events == t.events
    && t'.sources == RotatedSources(t.sources, roster)
  }

  lemma IntakeFootprint(t: Tables, lease: Lease, fact: Fact, deadline: Instant, checked: Instant, updated: Instant)
    ensures var tx := Intake(t, lease, fact, deadline, checked, updated);
      if tx.outcome.Done? && !tx.outcome.value.DuplicateFact? then
        Appends(t, tx.tables, IntakeRow(lease, fact, deadline))
      else Quiet(t, tx.tables)
  {
    var tx := Intake(t, lease, fact, deadline, checked, updated);
    if tx.outcome.Done? && !tx.outcome.value.DuplicateFact? {
      var row := IntakeRow(lease, fact, deadline);
      forall i | 0 <= i < |t.inbox| ensures Distinguished(t.inbox[i], row) {
        assert !Clashes(t, i, lease, fact);
      }
    }
  }

  lemma PoisonFootprint(t: Tables, lease: Lease, now: Instant)
    ensures var tx := Poison(t, lease, now);
      if tx.outcome.Done? then
        Appends(t, tx.tables, InboxRow(lease.sourceId, lease.streamId, Rejected, None, None))
      else tx.tables == t
  {
  }

  lemma PrepareFootprint(t: Tables, sourceId: Id, mapped: Option<Id>, related: seq<Id>, now: Instant)
    ensures var t' := Prepare(t, sourceId, mapped, related, now).tables;
      t' == t || (sourceId in t.sources && Head(t, sourceId).Some?
        && Moves(t, t', Head(t, sourceId).value, t'.inbox[Head(t, sourceId).value]))
  {
  }

  lemma FinalizeRowFootprint(t: Tables, sourceId: Id)
    ensures var tx := Finalize(t, sourceId);
      if tx.outcome.Done? && tx.outcome.value.Some? then
        && sourceId in t.sources && Head(t, sourceId).Some?
        && PublishesRow(t, tx.tables, Head(t, sourceId).value, tx.outcome.value.value)
      else tx.tables == t
  {
    var tx := Finalize(t, sourceId);
    if tx.outcome.Done? && tx.outcome.value.Some? {
      var h := Head(t, sourceId).value;
      HeadIsFirst(t.inbox, |t.inbox|, sourceId, t.sources[sourceId].streamId);
      forall j | 0 <= j < |t.inbox| && Below(t.inbox[j], t.inbox[h]) ensures !IsOpen(t.inbox[j].status) {
        assert OpenAt(t.inbox, j, sourceId, t.sources[sourceId].streamId) ==> Before(t.inbox, h, j);
      }
    }
  }

  /* ---------- rotations ---------- */

  /** The sources a successful rotation names, and the roster it installs. */
  function Named(t: Tables, q: RotationRequest): set<Id> {
    if t.runtime.Some? then AffectedSources(t, t.runtime.value.currentStream, q) else {}
  }

  function Installed(t: Tables, q: RotationRequest): Roster {
    if t.runtime.Some? then TargetRoster(t, t.runtime.value.currentStream, q) else map[]
  }

  lemma RotateRowFootprint(t: Tables, q: RotationRequest)
    ensures var tx := Rotate(t, q);
      tx.tables == t || (Skips(t, tx.tables, Named(t, q), Installed(t, q))
        && t.runtime.Some? && tx.outcome.Done?
        && tx.tables.continuity == t.continuity + [tx.outcome.value]
        && tx.outcome.value.affected == Named(t, q))
  {
  }

  /** A sequence of the stream is free below the published row. */
  ghost predicate FreeBelow(inbox: seq<InboxRow>, row: InboxRow, s: nat) {
    1 <= s && PublishedAbove(row, row.sourceId, row.streamId, s) && !Used(inbox, row.sourceId, row.streamId, s)
  }

  /** The roster puts the source back on a stream with a free sequence below a published row. */
  ghost predicate Exposes(t: Tables, roster: Roster, id: Id) {
    && id in roster && id in t.sources && roster[id].streamId != t.sources[id].streamId
    && exists i, s: nat :: 0 <= i < |t.inbox| && OfStream(t.inbox[i], id, roster[id].streamId)
                           && FreeBelow(t.inbox, t.inbox[i], s)
  }

  /** The assumption on callers under which the order of a source is promised. */
  ghost predicate Safe(t: Tables, op: Op, id: Id) {
    op.OpRotate? && Rotate(t, op.request).tables != t ==> !Exposes(t, Installed(t, op.request), id)
  }

  ghost predicate SafeFrom(t: Tables, ops: seq<Op>, id: Id) {
    ops != [] ==> SafeFrom(t, ops[..|ops| - 1], id) && Safe(Run(t, ops[..|ops| - 1]), ops[|ops| - 1], id)
  }

  /* ---------- each kind of change keeps the tables sound ---------- */

  /** Events stay matched when published rows are neither made nor changed. */
  lemma MatchKept(t: Tables, t': Tables)
    requires EventsMatchRows(t) && t'.events == t.events && |t.inbox| <= |t'.inbox|
    requires forall i :: 0 <= i < |t.inbox| && t.inbox[i].status.Published? ==> t'.inbox[i] == t.inbox[i]
    requires forall i :: 0 <= i < |t'.inbox| && t'.inbox[i].status.Published? ==>
      i < |t.inbox| && t.inbox[i] == t'.inbox[i]
    ensures EventsMatchRows(t')
  {
    forall p | 0 <= p < |t'.events| ensures Backed(t', p) {
      assert Backed(t, p);
      var i :| 0 <= i < |t.inbox| && PublishedAs(t.inbox[i], t.events[p]);
      assert PublishedAs(t'.inbox[i], t'.events[p]);
    }
    forall i | 0 <= i < |t'.inbox| ensures Announced(t', i) {
      if t'.inbox[i].status.Published? {
        assert Announced(t, i);
        var p :| 0 <= p < |t.events| && PublishedAs(t.inbox[i], t.events[p]);
        assert PublishedAs(t'.inbox[i], t'.events[p]);
      }
    }
  }

  lemma QuietTables(t: Tables, t': Tables)
    requires TablesSound(t) && Quiet(t, t')
    ensures TablesSound(t')
  {
    forall i | 0 <= i < |t'.inbox| ensures RowSound(t', t'.inbox[i]) {
      assert RowSound(t, t.inbox[i]);
    }
    MatchKept(t, t');
  }

  lemma AppendTables(t: Tables, t': Tables, row: InboxRow)
    requires TablesSound(t) && Appends(t, t', row)
    ensures TablesSound(t')
  {
    forall i | 0 <= i < |t'.inbox| ensures RowSound(t', t'.inbox[i]) {
      assert i < |t.inbox| ==> RowSound(t, t.inbox[i]);
    }
    MatchKept(t, t');
  }

  /** Row by row, nothing is opened, published or renamed. */
  ghost predicate OnlyAdvances(inbox: seq<InboxRow>, inbox': seq<InboxRow>) {
    && |inbox'| == |inbox|
    && forall i :: 0 <= i < |inbox| ==>
         && SameStream(inbox'[i], inbox[i]) && inbox'[i].decoded == inbox[i].decoded
         && (IsOpen(inbox'[i].status) ==> IsOpen(inbox[i].status))
         && (inbox'[i].status.Published? ==> inbox[i].status.Published?)
  }

  lemma AdvancesUnique(inbox: seq<InboxRow>, inbox': seq<InboxRow>)
    requires IdentitiesUnique(inbox) && OnlyAdvances(inbox, inbox')
    ensures IdentitiesUnique(inbox')
  {
    forall i, j | 0 <= i < j < |inbox'| ensures Distinguished(inbox'[i], inbox'[j]) {
      assert Distinguished(inbox[i], inbox[j]);
    }
  }

  lemma MoveTables(t: Tables, t': Tables, h: nat, row: InboxRow)
    requires TablesSound(t) && Moves(t, t', h, row)
    ensures TablesSound(t')
  {
    forall i | 0 <= i < |t'.inbox| ensures RowSound(t', t'.inbox[i]) {
      assert RowSound(t, t.inbox[i]);
    }
    AdvancesUnique(t.inbox, t'.inbox);
    MatchKept(t, t');
  }

  lemma PublishKeepsMatch(t: Tables, t': Tables, h: nat, e: Event)
    requires EventsMatchRows(t) && PublishesRow(t, t', h, e)
    ensures EventsMatchRows(t')
  {
    var n := |t.events|;
    assert t'.events[n] == e && PublishedAs(t'.inbox[h], e);
    forall p | 0 <= p < |t'.events| ensures Backed(t', p) {
      if p < n {
        assert Backed(t, p);
        var i :| 0 <= i < |t.inbox| && PublishedAs(t.inbox[i], t.events[p]);
        assert PublishedAs(t'.inbox[i], t'.events[p]);
      }
    }
    forall i | 0 <= i < |t'.inbox| ensures Announced(t', i) {
      if t'.inbox[i].status.Published? && i != h {
        assert Announced(t, i);
        var p :| 0 <= p < n && PublishedAs(t.inbox[i], t.events[p]);
        assert PublishedAs(t'.inbox[i], t'.events[p]);
      }
    }
  }

  lemma PublishTables(t: Tables, t': Tables, h: nat, e: Event)
    requires TablesSound(t) && PublishesRow(t, t', h, e)
    ensures TablesSound(t')
  {
    PublishKeepsMatch(t, t', h, e);
    forall i | 0 <= i < |t'.inbox| ensures RowSound(t', t'.inbox[i]) {
      assert RowSound(t, t.inbox[i]);
    }
    forall i, j | 0 <= i < j < |t'.inbox| ensures Distinguished(t'.inbox[i], t'.inbox[j]) {
      assert Distinguished(t.inbox[i], t.inbox[j]);
    }
  }

  lemma SkipTables(t: Tables, t': Tables, affected: set<Id>, roster: Roster)
    requires TablesSound(t) && Skips(t, t', affected, roster)
    ensures TablesSound(t') && OnlyAdvances(t.inbox, t'.inbox)
  {
    assert forall i :: 0 <= i < |t.inbox| ==> t'.inbox[i] == SkipLoss(t.inbox[i], affected);
    forall i | 0 <= i < |t'.inbox| ensures RowSound(t', t'.inbox[i]) {
      assert RowSound(t, t.inbox[i]);
    }
    AdvancesUnique(t.inbox, t'.inbox);
    MatchKept(t, t');
  }

  /* ---------- each kind of change keeps the line of a source ---------- */

  /** Used sequences stay used. */
  lemma UsedStays(inbox: seq<InboxRow>, inbox': seq<InboxRow>, sourceId: Id, streamId: Id, s: nat)
    requires Used(inbox, sourceId, streamId, s) && |inbox| <= |inbox'|
    requires forall i :: 0 <= i < |inbox| ==> SameStream(inbox'[i], inbox[i]) && inbox'[i].decoded == inbox[i].decoded
    ensures Used(inbox', sourceId, streamId, s)
  {
    var i :| 0 <= i < |inbox| && HasSequence(inbox[i], sourceId, streamId, s);
    assert HasSequence(inbox'[i], sourceId, streamId, s);
  }

  /** Rows keep their identities, none is newly published, and the counter of the source only grows. */
  lemma ShieldStays(t: Tables, t': Tables, id: Id)
    requires Shielded(t, id) && |t.inbox| <= |t'.inbox|
    requires id in t'.sources ==> id in t.sources && t'.sources[id].streamId == t.sources[id].streamId
                                  && t'.sources[id].lastPersisted >= t.sources[id].lastPersisted
    requires forall i :: 0 <= i < |t.inbox| ==>
      SameStream(t'.inbox[i], t.inbox[i]) && t'.inbox[i].decoded == t.inbox[i].decoded
    requires forall i :: 0 <= i < |t'.inbox| && t'.inbox[i].status.Published? ==>
      i < |t.inbox| && t.inbox[i].status.Published?
    ensures Shielded(t', id)
  {
    if id in t'.sources {
      var stream := t.sources[id].streamId;
      forall i, s: nat | 0 <= i < |t'.inbox| && t'.sources[id].lastPersisted < s
                         && PublishedAbove(t'.inbox[i], id, stream, s)
        ensures Used(t'.inbox, id, stream, s)
      {
        assert PublishedAbove(t.inbox[i], id, stream, s);
        UsedStays(t.inbox, t'.inbox, id, stream, s);
      }
    }
  }

  lemma QuietLine(t: Tables, t': Tables, id: Id)
    requires LineSound(t, id) && Quiet(t, t')
    ensures LineSound(t', id)
  {
    ShieldStays(t, t', id);
  }

  lemma AppendLine(t: Tables, t': Tables, row: InboxRow, id: Id)
    requires RowsSound(t) && LineSound(t, id) && Appends(t, t', row)
    ensures LineSound(t', id)
  {
    var n := |t.inbox|;
    ShieldStays(t, t', id);
    forall i, j | 0 <= i < |t'.inbox| && 0 <= j < |t'.inbox| && t'.inbox[j].sourceId == id
      ensures !Overtakes(t'.inbox[j], t'.inbox[i])
    {
      if i < n && j < n {
        assert !Overtakes(t.inbox[j], t.inbox[i]);
      } else if j < n && Below(row, t.inbox[j]) && t.inbox[j].status.Published? {
        assert PublishedAbove(t.inbox[j], id, t.sources[id].streamId, Seq(row));
        TakenTwice(t, row, id);
      }
    }
  }

  /** A new row does not repeat a used sequence. */
  lemma TakenTwice(t: Tables, row: InboxRow, id: Id)
    requires NoClash(t.inbox, row) && row.decoded.Some? && row.sourceId == id
    ensures !Used(t.inbox, id, row.streamId, Seq(row))
  {
    forall i | 0 <= i < |t.inbox| ensures !HasSequence(t.inbox[i], id, row.streamId, Seq(row)) {
      assert Distinguished(t.inbox[i], row);
    }
  }

  lemma AdvancesLine(inbox: seq<InboxRow>, inbox': seq<InboxRow>, id: Id)
    requires HeadOfLine(inbox, id) && OnlyAdvances(inbox, inbox')
    ensures HeadOfLine(inbox', id)
  {
    forall i, j | 0 <= i < |inbox'| && 0 <= j < |inbox'| && inbox'[j].sourceId == id
      ensures !Overtakes(inbox'[j], inbox'[i])
    {
      assert !Overtakes(inbox[j], inbox[i]);
    }
  }

  lemma MoveLine(t: Tables, t': Tables, h: nat, row: InboxRow, id: Id)
    requires LineSound(t, id) && Moves(t, t', h, row)
    ensures LineSound(t', id)
  {
    AdvancesLine(t.inbox, t'.inbox, id);
    ShieldStays(t, t', id);
  }

  /** Every published row of the source stream is below the head. */
  lemma PublishedBelowHead(t: Tables, t': Tables, h: nat, e: Event, i: nat)
    requires RowsSound(t) && IdentitiesUnique(t.inbox) && PublishesRow(t, t', h, e) && i < |t.inbox|
    requires HeadOfLine(t.inbox, t.inbox[i].sourceId)
    requires t.inbox[i].status.Published? && SameStream(t.inbox[i], t.inbox[h])
    ensures t.inbox[i].decoded.Some? && Seq(t.inbox[i]) < Seq(t.inbox[h])
  {
    assert RowSound(t, t.inbox[i]);
    assert !Overtakes(t.inbox[i], t.inbox[h]);
    assert if i < h then Distinguished(t.inbox[i], t.inbox[h]) else Distinguished(t.inbox[h], t.inbox[i]);
  }

  lemma PublishEventOrder(t: Tables, t': Tables, h: nat, e: Event, id: Id)
    requires TablesSound(t) && LineSound(t, id) && PublishesRow(t, t', h, e)
    ensures EventsOrdered(t'.events, id)
  {
    forall p | 0 <= p < |t.events| && t.events[p].sourceId == id && SameSource(t.events[p], e)
      ensures t.events[p].sourceSequence < e.sourceSequence
    {
      assert Backed(t, p);
      var i :| 0 <= i < |t.inbox| && PublishedAs(t.inbox[i], t.events[p]);
      PublishedBelowHead(t, t', h, e, i);
    }
  }

  lemma PublishShield(t: Tables, t': Tables, h: nat, e: Event, id: Id)
    requires Shielded(t, id) && PublishesRow(t, t', h, e)
    ensures Shielded(t', id)
  {
    if id in t'.sources {
      var stream := t.sources[id].streamId;
      forall i, s: nat | 0 <= i < |t'.inbox| && t'.sources[id].lastPersisted < s
                         && PublishedAbove(t'.inbox[i], id, stream, s)
        ensures Used(t'.inbox, id, stream, s)
      {
        assert i != h && PublishedAbove(t.inbox[i], id, stream, s);
        UsedStays(t.inbox, t'.inbox, id, stream, s);
      }
    }
  }

  lemma PublishLine(t: Tables, t': Tables, h: nat, e: Event, id: Id)
    requires TablesSound(t) && LineSound(t, id) && PublishesRow(t, t', h, e)
    ensures LineSound(t', id)
  {
    PublishEventOrder(t, t', h, e, id);
    PublishShield(t, t', h, e, id);
    forall i, j | 0 <= i < |t'.inbox| && 0 <= j < |t'.inbox| && t'.inbox[j].sourceId == id
      ensures !Overtakes(t'.inbox[j], t'.inbox[i])
    {
      assert !Overtakes(t.inbox[j], t.inbox[i]);
      assert Below(t.inbox[i], t.inbox[h]) ==> !IsOpen(t.inbox[i].status);
    }
  }

  /** A rotation keeps head of line and the order of events whatever it installs. */
  lemma SkipKeepsEvents(t: Tables, t': Tables, affected: set<Id>, roster: Roster, id: Id)
    requires TablesSound(t) && HeadOfLine(t.inbox, id) && EventsOrdered(t.events, id) && Skips(t, t', affected, roster)
    ensures HeadOfLine(t'.inbox, id) && EventsOrdered(t'.events, id)
  {
    SkipTables(t, t', affected, roster);
    AdvancesLine(t.inbox, t'.inbox, id);
  }

  lemma SkipLine(t: Tables, t': Tables, affected: set<Id>, roster: Roster, id: Id)
    requires TablesSound(t) && LineSound(t, id) && Skips(t, t', affected, roster) && !Exposes(t, roster, id)
    ensures LineSound(t', id)
  {
    SkipKeepsEvents(t, t', affected, roster, id);
    assert forall i :: 0 <= i < |t.inbox| ==> t'.inbox[i] == SkipLoss(t.inbox[i], affected);
    if id in t.sources && (id !in roster || roster[id].streamId == t.sources[id].streamId) {
      ShieldStays(t, t', id);
    } else if id in t'.sources {
      var stream := roster[id].streamId;
      forall i, s: nat | 0 <= i < |t'.inbox| && 0 < s && PublishedAbove(t'.inbox[i], id, stream, s)
        ensures Used(t'.inbox, id, stream, s)
      {
        assert RowSound(t, t.inbox[i]);
        assert PublishedAbove(t.inbox[i], id, stream, s);
        assert !FreeBelow(t.inbox, t.inbox[i], s);
        UsedStays(t.inbox, t'.inbox, id, stream, s);
      }
    }
  }

  /* ---------- order, step by step ---------- */

  /** A publishable row lies below a published one. */
  ghost predicate Behind(live: InboxRow, published: InboxRow) {
    Below(live, published) && IsLive(live.status) && published.status.Published?
  }

  ghost predicate NoneBehind(inbox: seq<InboxRow>, id: Id) {
    forall i, j :: 0 <= i < |inbox| && 0 <= j < |inbox| && inbox[i].sourceId == id ==> !Behind(inbox[i], inbox[j])
  }

  /** The events of the source are in order, and what may still be published comes after them. */
  ghost predicate Orderly(t: Tables, id: Id) {
    NoneBehind(t.inbox, id) && EventsOrdered(t.events, id)
  }

  /** The step stores a fact of the source. */
  ghost predicate Stores(t: Tables, op: Op, id: Id) {
    op.OpIntake? && op.lease.sourceId == id && |Step(t, op).inbox| > |t.inbox|
  }

  function Stored(op: Op): InboxRow
    requires op.OpIntake?
  {
    IntakeRow(op.lease, op.fact, op.deadline)
  }

  /** The step stores a publishable row below a published one. */
  ghost predicate StoresBehind(t: Tables, op: Op, id: Id) {
    Stores(t, op, id) && exists j :: 0 <= j < |t.inbox| && Behind(Stored(op), t.inbox[j])
  }

  lemma LineIsOrderly(t: Tables, id: Id)
    requires LineSound(t, id)
    ensures Orderly(t, id)
  {
    forall i, j | 0 <= i < |t.inbox| && 0 <= j < |t.inbox| && t.inbox[i].sourceId == id
      ensures !Behind(t.inbox[i], t.inbox[j])
    {
      assert SameStream(t.inbox[i], t.inbox[j]) ==> !Overtakes(t.inbox[j], t.inbox[i]);
    }
  }

  lemma AppendOrderly(t: Tables, t': Tables, row: InboxRow, id: Id)
    requires Orderly(t, id) && Appends(t, t', row)
    requires row.sourceId == id ==> forall j :: 0 <= j < |t.inbox| ==> !Behind(row, t.inbox[j])
    ensures Orderly(t', id)
  {
    forall i, j | 0 <= i < |t'.inbox| && 0 <= j < |t'.inbox| && t'.inbox[i].sourceId == id
      ensures !Behind(t'.inbox[i], t'.inbox[j])
    {
      assert i < |t.inbox| && j < |t.inbox| ==> !Behind(t.inbox[i], t.inbox[j]);
    }
  }

  /** Row by row, nothing becomes publishable or published, or is renamed. */
  lemma AdvanceOrderly(inbox: seq<InboxRow>, inbox': seq<InboxRow>, id: Id)
    requires NoneBehind(inbox, id) && OnlyAdvances(inbox, inbox')
    requires forall i :: 0 <= i < |inbox| && IsLive(inbox'[i].status) ==> IsLive(inbox[i].status)
    ensures NoneBehind(inbox', id)
  {
    forall i, j | 0 <= i < |inbox'| && 0 <= j < |inbox'| && inbox'[i].sourceId == id
      ensures !Behind(inbox'[i], inbox'[j])
    {
      assert !Behind(inbox[i], inbox[j]);
    }
  }

  lemma PublishOrderly(t: Tables, t': Tables, h: nat, e: Event, id: Id)
    requires TablesSound(t) && Orderly(t, id) && PublishesRow(t, t', h, e)
    ensures Orderly(t', id)
  {
    forall p | 0 <= p < |t.events| && t.events[p].sourceId == id && SameSource(t.events[p], e)
      ensures t.events[p].sourceSequence < e.sourceSequence
    {
      assert Backed(t, p);
      var i :| 0 <= i < |t.inbox| && PublishedAs(t.inbox[i], t.events[p]);
      assert !Behind(t.inbox[h], t.inbox[i]);
      assert if i < h then Distinguished(t.inbox[i], t.inbox[h]) else Distinguished(t.inbox[h], t.inbox[i]);
    }
    forall i, j | 0 <= i < |t'.inbox| && 0 <= j < |t'.inbox| && t'.inbox[i].sourceId == id
      ensures !Behind(t'.inbox[i], t'.inbox[j])
    {
      assert !Behind(t.inbox[i], t.inbox[j]);
      assert Below(t.inbox[i], t.inbox[h]) ==> !IsOpen(t.inbox[i].status);
    }
  }

  lemma IntakeOrderly(t: Tables, op: Op, id: Id)
    requires op.OpIntake? && Orderly(t, id) && !StoresBehind(t, op, id)
    ensures Orderly(Step(t, op), id)
  {
    IntakeFootprint(t, op.lease, op.fact, op.deadline, op.checked, op.updated);
    var tx := Intake(t, op.lease, op.fact, op.deadline, op.checked, op.updated);
    if tx.outcome.Done? && !tx.outcome.value.DuplicateFact? {
      AppendOrderly(t, tx.tables, Stored(op), id);
    }
  }

  lemma PoisonOrderly(t: Tables, lease: Lease, now: Instant, id: Id)
    requires Orderly(t, id)
    ensures Orderly(Poison(t, lease, now).tables, id)
  {
    PoisonFootprint(t, lease, now);
    if Poison(t, lease, now).outcome.Done? {
      var row := InboxRow(lease.sourceId, lease.streamId, Rejected, None, None);
      AppendOrderly(t, Poison(t, lease, now).tables, row, id);
    }
  }

  lemma PrepareOrderly(t: Tables, sourceId: Id, mapped: Option<Id>, related: seq<Id>, now: Instant, id: Id)
    requires Orderly(t, id)
    ensures Orderly(Prepare(t, sourceId, mapped, related, now).tables, id)
  {
    var t' := Prepare(t, sourceId, mapped, related, now).tables;
    PrepareFootprint(t, sourceId, mapped, related, now);
    if t' != t {
      AdvanceOrderly(t.inbox, t'.inbox, id);
    }
  }

  lemma FinalizeOrderly(t: Tables, sourceId: Id, id: Id)
    requires TablesSound(t) && Orderly(t, id)
    ensures Orderly(Finalize(t, sourceId).tables, id)
  {
    var tx := Finalize(t, sourceId);
    FinalizeRowFootprint(t, sourceId);
    if tx.outcome.Done? && tx.outcome.value.Some? {
      PublishOrderly(t, tx.tables, Head(t, sourceId).value, tx.outcome.value.value, id);
    }
  }

  lemma RotateOrderly(t: Tables, q: RotationRequest, id: Id)
    requires TablesSound(t) && Orderly(t, id)
    ensures Orderly(Rotate(t, q).tables, id)
  {
    RotateRowFootprint(t, q);
    if Rotate(t, q).tables != t {
      SkipOrderly(t, Rotate(t, q).tables, Named(t, q), Installed(t, q), id);
    }
  }

  lemma SkipOrderly(t: Tables, t': Tables, affected: set<Id>, roster: Roster, id: Id)
    requires TablesSound(t) && Orderly(t, id) && Skips(t, t', affected, roster)
    ensures Orderly(t', id)
  {
    SkipTables(t, t', affected, roster);
    assert forall i :: 0 <= i < |t.inbox| ==> t'.inbox[i] == SkipLoss(t.inbox[i], affected);
    AdvanceOrderly(t.inbox, t'.inbox, id);
  }

  /** Whatever the step, order is lost only to an intake that stores a publishable row below a published one. */
  lemma StepOrderly(t: Tables, op: Op, id: Id)
    requires TablesSound(t) && (t.runtime.None? ==> t == EMPTY_TABLES) && Orderly(t, id) && !StoresBehind(t, op, id)
    ensures Orderly(Step(t, op), id)
  {
    match op {
      case OpInitialize(sources, newStream) => assert t.runtime.None? ==> |t.inbox| == 0;
      case OpIntake(_, _, _, _, _) => IntakeOrderly(t, op, id);
      case OpPoison(lease, now) => PoisonOrderly(t, lease, now, id);
      case OpPrepare(sourceId, mapped, related, now) => PrepareOrderly(t, sourceId, mapped, related, now, id);
      case OpFinalize(sourceId) => FinalizeOrderly(t, sourceId, id);
      case OpRotate(q) => RotateOrderly(t, q, id);
      case _ => QuietFootprint(t, op);
    }
  }

  /* ---------- every transaction ---------- */

  lemma QuietFootprint(t: Tables, op: Op)
    requires op.OpAcquire? || op.OpRenew? || op.OpMarkUnavailable?
    ensures Quiet(t, Step(t, op))
  {
  }

  /** The tables stay sound, and the line of the source does too. */
  ghost predicate Keeps(t: Tables, t': Tables, id: Id) {
    TablesSound(t') && (LineSound(t, id) ==> LineSound(t', id))
  }

  lemma BeginKeeps(t: Tables, sources: seq<SourceDefinition>, newStream: Id, id: Id)
    requires TablesSound(t) && (t.runtime.None? ==> t == EMPTY_TABLES)
    ensures Keeps(t, Initialize(t, sources, newStream).tables, id)
  {
  }

  lemma AppendKeeps(t: Tables, t': Tables, row: InboxRow, id: Id)
    requires TablesSound(t) && Appends(t, t', row)
    ensures Keeps(t, t', id)
  {
    AppendTables(t, t', row);
    if LineSound(t, id) {
      AppendLine(t, t', row, id);
    }
  }

  lemma QuietKeeps(t: Tables, t': Tables, id: Id)
    requires TablesSound(t) && Quiet(t, t')
    ensures Keeps(t, t', id)
  {
    QuietTables(t, t');
    if LineSound(t, id) {
      QuietLine(t, t', id);
    }
  }

  lemma IntakeKeeps(t: Tables, lease: Lease, fact: Fact, deadline: Instant, checked: Instant, updated: Instant, id: Id)
    requires TablesSound(t)
    ensures Keeps(t, Intake(t, lease, fact, deadline, checked, updated).tables, id)
  {
    var tx := Intake(t, lease, fact, deadline, checked, updated);
    IntakeFootprint(t, lease, fact, deadline, checked, updated);
    if tx.outcome.Done? && !tx.outcome.value.DuplicateFact? {
      AppendKeeps(t, tx.tables, IntakeRow(lease, fact, deadline), id);
    } else {
      QuietKeeps(t, tx.tables, id);
    }
  }

  lemma PoisonKeeps(t: Tables, lease: Lease, now: Instant, id: Id)
    requires TablesSound(t)
    ensures Keeps(t, Poison(t, lease, now).tables, id)
  {
    PoisonFootprint(t, lease, now);
    if Poison(t, lease, now).outcome.Done? {
      AppendKeeps(t, Poison(t, lease, now).tables, InboxRow(lease.sourceId, lease.streamId, Rejected, None, None), id);
    }
  }

  lemma PrepareKeeps(t: Tables, sourceId: Id, mapped: Option<Id>, related: seq<Id>, now: Instant, id: Id)
    requires TablesSound(t)
    ensures Keeps(t, Prepare(t, sourceId, mapped, related, now).tables, id)
  {
    var t' := Prepare(t, sourceId, mapped, related, now).tables;
    PrepareFootprint(t, sourceId, mapped, related, now);
    if t' != t {
      var h := Head(t, sourceId).value;
      MoveTables(t, t', h, t'.inbox[h]);
      if LineSound(t, id) {
        MoveLine(t, t', h, t'.inbox[h], id);
      }
    }
  }

  lemma FinalizeKeeps(t: Tables, sourceId: Id, id: Id)
    requires TablesSound(t)
    ensures Keeps(t, Finalize(t, sourceId).tables, id)
  {
    var tx := Finalize(t, sourceId);
    FinalizeRowFootprint(t, sourceId);
    if tx.outcome.Done? && tx.outcome.value.Some? {
      PublishTables(t, tx.tables, Head(t, sourceId).value, tx.outcome.value.value);
      if LineSound(t, id) {
        PublishLine(t, tx.tables, Head(t, sourceId).value, tx.outcome.value.value, id);
      }
    }
  }

  lemma RotateKeeps(t: Tables, q: RotationRequest, id: Id)
    requires TablesSound(t) && Safe(t, OpRotate(q), id)
    ensures Keeps(t, Rotate(t, q).tables, id)
  {
    var t' := Rotate(t, q).tables;
    RotateRowFootprint(t, q);
    if t' != t {
      SkipTables(t, t', Named(t, q), Installed(t, q));
      if LineSound(t, id) {
        SkipLine(t, t', Named(t, q), Installed(t, q), id);
      }
    }
  }

  lemma StepKeeps(t: Tables, op: Op, id: Id)
    requires TablesSound(t) && (t.runtime.None? ==> t == EMPTY_TABLES) && Safe(t, op, id)
    ensures Keeps(t, Step(t, op), id)
  {
    match op {
      case OpInitialize(sources, newStream) => BeginKeeps(t, sources, newStream, id);
      case OpIntake(lease, fact, deadline, checked, updated) =>
        IntakeKeeps(t, lease, fact, deadline, checked, updated, id);
      case OpPoison(lease, now) => PoisonKeeps(t, lease, now, id);
      case OpPrepare(sourceId, mapped, related, now) => PrepareKeeps(t, sourceId, mapped, related, now, id);
      case OpFinalize(sourceId) => FinalizeKeeps(t, sourceId, id);
      case OpRotate(q) => RotateKeeps(t, q, id);
      case _ =>
        QuietFootprint(t, op);
        QuietKeeps(t, Step(t, op), id);
    }
  }

  lemma RotateTables(t: Tables, q: RotationRequest)
    requires TablesSound(t)
    ensures TablesSound(Rotate(t, q).tables)
  {
    RotateRowFootprint(t, q);
    if Rotate(t, q).tables != t {
      SkipTables(t, Rotate(t, q).tables, Named(t, q), Installed(t, q));
    }
  }

  lemma StepTables(t: Tables, op: Op)
    requires TablesSound(t) && (t.runtime.None? ==> t == EMPTY_TABLES)
    ensures TablesSound(Step(t, op))
  {
    if op.OpRotate? {
      RotateTables(t, op.request);
    } else {
      StepKeeps(t, op, "");
    }
  }
}
