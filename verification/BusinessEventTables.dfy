/**
 The business event tables of one provider, and each repository transaction as
 a function from the tables before it to the tables after it and its outcome.
 A transaction that rolls back leaves the tables as they were.
 */
module BusinessEventTables {
  import opened Basics

  /* ---------- rows ---------- */

  datatype Semantics = DurableAtLeastOnce | BestEffortLive

  datatype ContinuityClass = AllDurable | Mixed | BestEffortOnly

  datatype SourceDefinition = SourceDefinition(sourceId: Id, enrolment: Enrolment)

  /** What a roster says about one source. */
  datatype Enrolment = Enrolment(streamId: Id, semantics: Semantics)

  type Roster = map<Id, Enrolment>

  datatype GenerationStatus = Current | Rotating | ReplayableClosed | Retired

  datatype Generation = Generation(
    status: GenerationStatus,
    currentSequence: nat,
    earliestAvailable: nat,
    lastReplayable: nat,
    lastContinuous: Option<nat>,
    continuityClass: ContinuityClass,
    rotatedTo: Option<Id>)

  datatype Runtime = Runtime(currentStream: Id, generationVersion: nat)

  datatype SourceStatus =
    | Active | Degraded | Unavailable
    | BlockedContractViolation | BlockedIdentityConflict
    | LossPending | Disabled

  /** Owner and expiry are both null or both set in the source-state table. */
  datatype Holder = Holder(owner: Id, until: Instant)

  datatype SourceState = SourceState(
    streamId: Id,
    semantics: Semantics,
    status: SourceStatus,
    lastPersisted: nat,
    lastFinalized: nat,
    holder: Option<Holder>,
    fencingToken: nat)

  datatype Subject = TaskSubject(externalExecutionId: Id) | ResourceSubject(resourceRef: Id)

  /** Everything the source canonical hash covers besides the identity columns. */
  datatype Body = Body(subject: Subject, eventType: string, occurredAt: Instant, description: string)

  datatype RowStatus =
    | Received | PendingMapping | Ready
    | ContinuityLossPending | Rejected | MappingFailed
    | Published | TerminalSkipped

  datatype Decoded = Decoded(eventId: Id, sequence: nat, body: Body, mappingDeadline: Instant)

  datatype Relation = TaskRelation(taskId: Id) | ResourceRelation(candidates: seq<Id>)

  /** An inbox row; its inbox id is its position in the table. Poison rows have nothing decoded. */
  datatype InboxRow = InboxRow(
    sourceId: Id,
    streamId: Id,
    status: RowStatus,
    decoded: Option<Decoded>,
    relation: Option<Relation>)

  datatype Event = Event(
    streamId: Id,
    sequence: nat,
    sourceId: Id,
    sourceStreamId: Id,
    sourceEventId: Id,
    sourceSequence: nat,
    body: Body,
    relation: Relation)

  datatype ContinuityRecord = ContinuityRecord(
    previousStream: Id,
    newStream: Id,
    reasonCode: string,
    affected: set<Id>,
    lastReplayable: nat,
    lastContinuous: Option<nat>,
    reasonIdentity: Id)

  datatype Tables = Tables(
    runtime: Option<Runtime>,
    generations: map<Id, Generation>,
    rosters: map<Id, Roster>,
    sources: map<Id, SourceState>,
    inbox: seq<InboxRow>,
    events: seq<Event>,
    continuity: seq<ContinuityRecord>)

  const EMPTY_TABLES := Tables(None, map[], map[], map[], [], [], [])

  /** What a worker holds after acquiring a source. */
  datatype Lease = Lease(
    sourceId: Id, streamId: Id, owner: Id, token: nat, lastPersisted: nat, lastFinalized: nat)

  /** A source fact; `valid` is the verdict of the field validation that precedes the transaction. */
  datatype Fact = Fact(streamId: Id, eventId: Id, sequence: nat, body: Body, valid: bool)

  const MAX_SEQUENCE: nat := 9_223_372_036_854_775_807

  const MAX_SOURCES: nat := 16

  datatype Failure =
    | SourceCountInvalid | ConstraintViolation | SourceNotFound | NotFound | StreamReset
    | StaleFence | SequenceInvalid | SourceStreamReset | IdempotencyConflict | SequenceRegression
    | RotationSourceRequired | PayloadInvalid

  datatype Outcome<+R> = Done(value: R) | Failed(failure: Failure)

  datatype Tx<+R> = Tx(tables: Tables, outcome: Outcome<R>)

  /* ---------- rosters and generations ---------- */

  function RosterOf(sources: seq<SourceDefinition>): Roster {
    if sources == [] then map[]
    else
      var last := sources[|sources| - 1];
      var front := RosterOf(sources[..|sources| - 1]);
      front[last.sourceId := last.enrolment]
  }

  predicate DistinctSources(sources: seq<SourceDefinition>) {
    forall i, j :: 0 <= i < j < |sources| ==> sources[i].sourceId != sources[j].sourceId
  }

  function Classify(roster: Roster): ContinuityClass {
    if forall id :: id in roster ==> roster[id].semantics.DurableAtLeastOnce? then AllDurable
    else if forall id :: id in roster ==> roster[id].semantics.BestEffortLive? then BestEffortOnly
    else Mixed
  }

  function FreshGeneration(status: GenerationStatus, roster: Roster): Generation {
    Generation(status, 0, 1, 0, None, Classify(roster), None)
  }

  function FreshSource(e: Enrolment): SourceState {
    SourceState(e.streamId, e.semantics, Active, 0, 0, None, 0)
  }

  function Initialize(t: Tables, sources: seq<SourceDefinition>, newStream: Id): Tx<Id> {
    if |sources| < 1 || |sources| > MAX_SOURCES then Tx(t, Failed(SourceCountInvalid))
    else if t.runtime.Some? && t.runtime.value.currentStream in t.generations then
      Tx(t, Done(t.runtime.value.currentStream))
    else if t.runtime.Some? || newStream in t.generations || newStream in t.rosters
            || !DistinctSources(sources)
            || exists i :: 0 <= i < |sources| && sources[i].sourceId in t.sources then
      Tx(t, Failed(ConstraintViolation))
    else
      var roster := RosterOf(sources);
      Tx(t.(runtime := Some(Runtime(newStream, 1)),
            generations := t.generations[newStream := FreshGeneration(Current, roster)],
            rosters := t.rosters[newStream := roster],
            sources := t.sources + map id | id in roster :: FreshSource(roster[id])),
         Done(newStream))
  }

  /* ---------- leases ---------- */

  predicate Unavailing(status: SourceStatus) {
    status.BlockedContractViolation? || status.BlockedIdentityConflict? || status.LossPending?
  }

  function Acquire(t: Tables, sourceId: Id, streamId: Id, owner: Id, appNow: Instant, until: Instant)
    : Tx<Option<Lease>>
  {
    if sourceId !in t.sources || t.sources[sourceId].streamId != streamId then Tx(t, Done(None))
    else
      var s := t.sources[sourceId];
      if Unavailing(s.status)
         || (s.holder.Some? && s.holder.value.until > appNow && s.holder.value.owner != owner) then
        Tx(t, Done(None))
      else
        var s' := s.(holder := Some(Holder(owner, until)), fencingToken := s.fencingToken + 1);
        Tx(t.(sources := t.sources[sourceId := s']), Done(Some(LeaseOn(sourceId, s'))))
  }

  function LeaseOn(sourceId: Id, s: SourceState): Lease
    requires s.holder.Some?
  {
    Lease(sourceId, s.streamId, s.holder.value.owner, s.fencingToken, s.lastPersisted, s.lastFinalized)
  }

  /** The lease is the one the source row records, whatever the time. */
  predicate Matches(t: Tables, lease: Lease) {
    && lease.sourceId in t.sources
    && var s := t.sources[lease.sourceId];
    && s.streamId == lease.streamId
    && s.holder.Some? && s.holder.value.owner == lease.owner
    && s.fencingToken == lease.token
  }

  /** The check made by every transaction that writes for a source. */
  predicate LeaseValid(t: Tables, lease: Lease, now: Instant) {
    Matches(t, lease) && t.sources[lease.sourceId].holder.value.until > now
  }

  function Renew(t: Tables, lease: Lease, now: Instant, until: Instant): Tx<Lease> {
    if !LeaseValid(t, lease, now) then Tx(t, Failed(StaleFence))
    else
      var s := t.sources[lease.sourceId];
      var s' := s.(holder := Some(Holder(lease.owner, until)));
      Tx(t.(sources := t.sources[lease.sourceId := s']), Done(LeaseOn(lease.sourceId, s')))
  }

  function Block(t: Tables, lease: Lease, status: SourceStatus): Tables {
    if Matches(t, lease) then
      t.(sources := t.sources[lease.sourceId := t.sources[lease.sourceId].(status := status)])
    else t
  }

  function MarkUnavailable(t: Tables, lease: Lease): Tx<()> {
    Tx(Block(t, lease, Unavailable), Done(()))
  }

  /* ---------- intake ---------- */

  datatype Disposition = ReceivedFact | DuplicateFact | RejectedFact

  predicate OfStream(row: InboxRow, sourceId: Id, streamId: Id) {
    row.sourceId == sourceId && row.streamId == streamId
  }

  /** Row `i` shares its event id or its sequence with the fact. */
  predicate Clashes(t: Tables, i: nat, lease: Lease, fact: Fact)
    requires i < |t.inbox|
  {
    && OfStream(t.inbox[i], lease.sourceId, lease.streamId)
    && t.inbox[i].decoded.Some?
    && (t.inbox[i].decoded.value.eventId == fact.eventId
        || t.inbox[i].decoded.value.sequence == fact.sequence)
  }

  predicate SameFact(row: InboxRow, fact: Fact) {
    && row.decoded.Some?
    && row.decoded.value.eventId == fact.eventId
    && row.decoded.value.sequence == fact.sequence
    && row.decoded.value.body == fact.body
  }

  /** Every clashing row is the fact itself, and there is only one. */
  predicate ExactDuplicate(t: Tables, lease: Lease, fact: Fact) {
    exists i :: 0 <= i < |t.inbox| && Clashes(t, i, lease, fact) && SameFact(t.inbox[i], fact)
             && forall j :: 0 <= j < |t.inbox| && Clashes(t, j, lease, fact) ==> j == i
  }

  predicate AnyClash(t: Tables, lease: Lease, fact: Fact) {
    exists i :: 0 <= i < |t.inbox| && Clashes(t, i, lease, fact)
  }

  function IntakeRow(lease: Lease, fact: Fact, deadline: Instant): InboxRow {
    InboxRow(lease.sourceId, lease.streamId, if fact.valid then Received else Rejected,
             Some(Decoded(fact.eventId, fact.sequence, fact.body, deadline)), None)
  }

  function StatusAfterIntake(s: SourceState, valid: bool): SourceStatus {
    if valid then Active else if s.semantics.DurableAtLeastOnce? then LossPending else Degraded
  }

  /**
   The lease is checked at `checked`; the counter update checks it again, at
   `updated`, and silently changes nothing if it has expired in between.
   */
  function Intake(t: Tables, lease: Lease, fact: Fact, deadline: Instant, checked: Instant, updated: Instant)
    : Tx<Disposition>
  {
    if !(1 <= fact.sequence <= MAX_SEQUENCE) then Tx(t, Failed(SequenceInvalid))
    else if !LeaseValid(t, lease, checked) then Tx(t, Failed(StaleFence))
    else if fact.streamId != lease.streamId then
      Tx(Block(t, lease, BlockedIdentityConflict), Failed(SourceStreamReset))
    else if AnyClash(t, lease, fact) then
      if ExactDuplicate(t, lease, fact) then Tx(t, Done(DuplicateFact))
      else Tx(Block(t, lease, BlockedIdentityConflict), Failed(IdempotencyConflict))
    else
      var s := t.sources[lease.sourceId];
      if fact.sequence <= s.lastPersisted then
        Tx(Block(t, lease, BlockedIdentityConflict), Failed(SequenceRegression))
      else
        var t' := t.(inbox := t.inbox + [IntakeRow(lease, fact, deadline)]);
        var t'' :=
          if s.holder.value.until > updated then
            t'.(sources := t.sources[lease.sourceId :=
                  s.(lastPersisted := fact.sequence, status := StatusAfterIntake(s, fact.valid))])
          else t';
        Tx(t'', Done(if fact.valid then ReceivedFact else RejectedFact))
  }

  function Poison(t: Tables, lease: Lease, now: Instant): Tx<()> {
    if !LeaseValid(t, lease, now) then Tx(t, Failed(StaleFence))
    else
      var t' := t.(inbox := t.inbox + [InboxRow(lease.sourceId, lease.streamId, Rejected, None, None)]);
      Tx(Block(t', lease, BlockedContractViolation), Done(()))
  }

  /* ---------- head of line ---------- */

  /** A loss row waits for a rotation. */
  predicate IsLoss(status: RowStatus) {
    status.ContinuityLossPending? || status.Rejected? || status.MappingFailed?
  }

  /** A live row may still be published. */
  predicate IsLive(status: RowStatus) {
    status.Received? || status.PendingMapping? || status.Ready?
  }

  predicate IsOpen(status: RowStatus) {
    IsLive(status) || IsLoss(status)
  }

  predicate OpenAt(inbox: seq<InboxRow>, i: nat, sourceId: Id, streamId: Id)
    requires i < |inbox|
  {
    OfStream(inbox[i], sourceId, streamId) && IsOpen(inbox[i].status)
  }

  /** `ORDER BY normalized_source_sequence NULLS FIRST, inbox_id`. */
  predicate Before(inbox: seq<InboxRow>, i: nat, j: nat)
    requires i < |inbox| && j < |inbox|
  {
    match (inbox[i].decoded, inbox[j].decoded)
    case (None, None) => i <= j
    case (None, Some(_)) => true
    case (Some(_), None) => false
    case (Some(a), Some(b)) => a.sequence < b.sequence || (a.sequence == b.sequence && i <= j)
  }

  /** The first open row of a source stream among the first `n` rows. */
  function HeadAmong(inbox: seq<InboxRow>, n: nat, sourceId: Id, streamId: Id): (h: Option<nat>)
    requires n <= |inbox|
    ensures h.Some? ==> h.value < n && OpenAt(inbox, h.value, sourceId, streamId)
  {
    if n == 0 then None
    else
      var h := HeadAmong(inbox, n - 1, sourceId, streamId);
      if !OpenAt(inbox, n - 1, sourceId, streamId) then h
      else if h.Some? && Before(inbox, h.value, n - 1) then h
      else Some(n - 1)
  }

  /** Nothing open precedes the head, and there is a head unless nothing is open. */
  lemma {:induction false} HeadIsFirst(inbox: seq<InboxRow>, n: nat, sourceId: Id, streamId: Id)
    requires n <= |inbox|
    ensures var h := HeadAmong(inbox, n, sourceId, streamId);
      forall j :: 0 <= j < n && OpenAt(inbox, j, sourceId, streamId) ==>
        h.Some? && Before(inbox, h.value, j)
  {
    if n > 0 {
      HeadIsFirst(inbox, n - 1, sourceId, streamId);
    }
  }

  function Head(t: Tables, sourceId: Id): Option<nat>
    requires sourceId in t.sources
  {
    HeadAmong(t.inbox, |t.inbox|, sourceId, t.sources[sourceId].streamId)
  }

  /* ---------- prepare and finalize ---------- */

  datatype Preparation = PreparedReady | PreparedPending | PreparedTerminal | NothingToPrepare

  function WithRow(t: Tables, i: nat, row: InboxRow): Tables
    requires i < |t.inbox|
  {
    t.(inbox := t.inbox[i := row])
  }

  /**
   `mapped` is the task bound to the row's external execution id, if any;
   `related` the tasks bound to its resource at the time of the event.
   */
  function Prepare(t: Tables, sourceId: Id, mapped: Option<Id>, related: seq<Id>, now: Instant)
    : Tx<Preparation>
  {
    if sourceId !in t.sources then Tx(t, Failed(SourceNotFound))
    else
      var h := Head(t, sourceId);
      if h.None? then Tx(t, Done(NothingToPrepare))
      else
        var row := t.inbox[h.value];
        if row.status.Ready? then Tx(t, Done(PreparedReady))
        else if IsLoss(row.status) then Tx(t, Done(PreparedTerminal))
        else if row.decoded.None? then Tx(t, Failed(PayloadInvalid))
        else if row.decoded.value.body.subject.ResourceSubject? then
          Tx(WithRow(t, h.value, row.(status := Ready, relation := Some(ResourceRelation(related)))),
             Done(PreparedReady))
        else if mapped.Some? then
          Tx(WithRow(t, h.value, row.(status := Ready, relation := Some(TaskRelation(mapped.value)))),
             Done(PreparedReady))
        else if row.decoded.value.mappingDeadline > now then
          Tx(WithRow(t, h.value, row.(status := PendingMapping)), Done(PreparedPending))
        else
          var s := t.sources[sourceId];
          var durable := s.semantics.DurableAtLeastOnce?;
          Tx(WithRow(t, h.value, row.(status := if durable then ContinuityLossPending else TerminalSkipped))
               .(sources := t.sources[sourceId := s.(status := if durable then LossPending else Degraded)]),
             Done(PreparedTerminal))
  }

  function EventOf(streamId: Id, sequence: nat, row: InboxRow): Event
    requires row.decoded.Some? && row.relation.Some?
  {
    Event(streamId, sequence, row.sourceId, row.streamId,
          row.decoded.value.eventId, row.decoded.value.sequence, row.decoded.value.body, row.relation.value)
  }

  /** The source-state table refuses a finalized counter above the persisted one. */
  function Finalize(t: Tables, sourceId: Id): Tx<Option<Event>> {
    if t.runtime.None? then Tx(t, Failed(NotFound))
    else
      var stream := t.runtime.value.currentStream;
      if stream !in t.generations || !t.generations[stream].status.Current? then Tx(t, Failed(StreamReset))
      else if sourceId !in t.sources then Tx(t, Failed(SourceNotFound))
      else
        var h := Head(t, sourceId);
        if h.None? || !t.inbox[h.value].status.Ready? || t.inbox[h.value].decoded.None? then Tx(t, Done(None))
        else
          var row := t.inbox[h.value];
          var g := t.generations[stream];
          var s := t.sources[sourceId];
          if row.relation.None? then Tx(t, Failed(PayloadInvalid))
          else if row.decoded.value.sequence > s.lastPersisted then Tx(t, Failed(ConstraintViolation))
          else
            var event := EventOf(stream, g.currentSequence + 1, row);
            Tx(WithRow(t, h.value, row.(status := Published)).(
                 events := t.events + [event],
                 generations := t.generations[stream := g.(currentSequence := g.currentSequence + 1)],
                 sources := t.sources[sourceId := s.(lastFinalized := row.decoded.value.sequence)]),
               Done(Some(event)))
  }

  /* ---------- rotation ---------- */

  /** The first record with this reason identity among the first `n`. */
  function FindRecord(records: seq<ContinuityRecord>, n: nat, reasonIdentity: Id): (r: Option<nat>)
    requires n <= |records|
    ensures r.Some? ==> r.value < n && records[r.value].reasonIdentity == reasonIdentity
    ensures r.Some? ==> forall j :: 0 <= j < r.value ==> records[j].reasonIdentity != reasonIdentity
    ensures r.None? ==> forall j :: 0 <= j < n ==> records[j].reasonIdentity != reasonIdentity
  {
    if n == 0 then None
    else
      var r := FindRecord(records, n - 1, reasonIdentity);
      if r.Some? then r
      else if records[n - 1].reasonIdentity == reasonIdentity then Some(n - 1)
      else None
  }

  /** A source upserted by a rotation: its counters survive only if its stream does. */
  function Reenrolled(sources: map<Id, SourceState>, id: Id, e: Enrolment): SourceState {
    if id !in sources then FreshSource(e)
    else
      var s := sources[id];
      var same := s.streamId == e.streamId;
      SourceState(e.streamId, e.semantics, Active,
                  if same then s.lastPersisted else 0, if same then s.lastFinalized else 0,
                  None, s.fencingToken)
  }

  function RotatedSources(sources: map<Id, SourceState>, roster: Roster): map<Id, SourceState> {
    map id | id in sources.Keys + roster.Keys ::
      if id in roster then Reenrolled(sources, id, roster[id])
      else sources[id].(status := Disabled, holder := None)
  }

  function SkipLoss(row: InboxRow, affected: set<Id>): InboxRow {
    if row.sourceId in affected && IsLoss(row.status) then row.(status := TerminalSkipped) else row
  }

  function SkipLosses(inbox: seq<InboxRow>, affected: set<Id>): seq<InboxRow> {
    seq(|inbox|, i requires 0 <= i < |inbox| => SkipLoss(inbox[i], affected))
  }

  function ClosedGeneration(g: Generation, newStream: Id): Generation {
    g.(status := ReplayableClosed, rotatedTo := Some(newStream), lastReplayable := g.currentSequence,
       lastContinuous := if g.continuityClass.AllDurable? then Some(g.currentSequence) else None)
  }

  datatype RotationRequest = RotationRequest(
    reasonCode: string,
    affected: set<Id>,
    reasonIdentity: Id,
    replacement: Option<seq<SourceDefinition>>,
    newStream: Id)

  /** The roster a rotation installs: the replacement, or the current generation's own. */
  function TargetRoster(t: Tables, stream: Id, q: RotationRequest): Roster {
    if q.replacement.Some? then RosterOf(q.replacement.value)
    else if stream in t.rosters then t.rosters[stream] else map[]
  }

  predicate RosterAdmissible(q: RotationRequest, roster: Roster) {
    && 1 <= |roster| <= MAX_SOURCES
    && (q.replacement.Some? ==> DistinctSources(q.replacement.value) && |q.replacement.value| <= MAX_SOURCES)
  }

  function AffectedSources(t: Tables, stream: Id, q: RotationRequest): set<Id> {
    if q.affected == {} && stream in t.rosters then t.rosters[stream].Keys else q.affected
  }

  function RecordOf(stream: Id, g: Generation, affected: set<Id>, q: RotationRequest): ContinuityRecord {
    ContinuityRecord(stream, q.newStream, q.reasonCode, affected, g.currentSequence,
                     ClosedGeneration(g, q.newStream).lastContinuous, q.reasonIdentity)
  }

  /** The tables once `record` has closed the current generation. */
  function Rotated(t: Tables, record: ContinuityRecord, roster: Roster): Tables
    requires t.runtime.Some? && record.previousStream in t.generations
  {
    var g := t.generations[record.previousStream];
    Tables(
      Some(Runtime(record.newStream, t.runtime.value.generationVersion + 1)),
      t.generations[record.previousStream := ClosedGeneration(g, record.newStream)]
                   [record.newStream := FreshGeneration(Current, roster)],
      t.rosters[record.newStream := roster],
      RotatedSources(t.sources, roster),
      SkipLosses(t.inbox, record.affected),
      t.events,
      t.continuity + [record])
  }

  function Rotate(t: Tables, q: RotationRequest): Tx<ContinuityRecord> {
    var retry := FindRecord(t.continuity, |t.continuity|, q.reasonIdentity);
    if retry.Some? then Tx(t, Done(t.continuity[retry.value]))
    else if t.runtime.None? then Tx(t, Failed(NotFound))
    else
      var stream := t.runtime.value.currentStream;
      if stream !in t.generations || !t.generations[stream].status.Current? then Tx(t, Failed(StreamReset))
      else
        var roster := TargetRoster(t, stream, q);
        var affected := AffectedSources(t, stream, q);
        if !RosterAdmissible(q, roster) then Tx(t, Failed(SourceCountInvalid))
        else if affected == {} then Tx(t, Failed(RotationSourceRequired))
        else if q.newStream in t.generations || q.newStream in t.rosters then Tx(t, Failed(ConstraintViolation))
        else
          var record := RecordOf(stream, t.generations[stream], affected, q);
          Tx(Rotated(t, record, roster), Done(record))
  }

  /* ---------- reads ---------- */

  /** The newest record that closes a stream, among the first `n`. */
  function RecordClosing(records: seq<ContinuityRecord>, n: nat, stream: Id): (r: Option<ContinuityRecord>)
    requires n <= |records|
    ensures r.Some? ==>
      exists j :: 0 <= j < n && records[j] == r.value && r.value.previousStream == stream
                  && forall k :: j < k < n ==> records[k].previousStream != stream
    ensures r.None? ==> forall j :: 0 <= j < n ==> records[j].previousStream != stream
  {
    if n == 0 then None
    else if records[n - 1].previousStream == stream then Some(records[n - 1])
    else RecordClosing(records, n - 1, stream)
  }

  /* ---------- runs ---------- */

  /** One committed or rolled-back transaction, with everything the environment chose. */
  datatype Op =
    | OpInitialize(sources: seq<SourceDefinition>, newStream: Id)
    | OpAcquire(sourceId: Id, streamId: Id, owner: Id, appNow: Instant, until: Instant)
    | OpRenew(lease: Lease, now: Instant, until: Instant)
    | OpIntake(lease: Lease, fact: Fact, deadline: Instant, checked: Instant, updated: Instant)
    | OpPoison(lease: Lease, now: Instant)
    | OpMarkUnavailable(lease: Lease)
    | OpPrepare(sourceId: Id, mapped: Option<Id>, related: seq<Id>, now: Instant)
    | OpFinalize(sourceId: Id)
    | OpRotate(request: RotationRequest)

  function Step(t: Tables, op: Op): Tables {
    match op
    case OpInitialize(sources, newStream) => Initialize(t, sources, newStream).tables
    case OpAcquire(sourceId, streamId, owner, appNow, until) =>
      Acquire(t, sourceId, streamId, owner, appNow, until).tables
    case OpRenew(lease, now, until) => Renew(t, lease, now, until).tables
    case OpIntake(lease, fact, deadline, checked, updated) =>
      Intake(t, lease, fact, deadline, checked, updated).tables
    case OpPoison(lease, now) => Poison(t, lease, now).tables
    case OpMarkUnavailable(lease) => MarkUnavailable(t, lease).tables
    case OpPrepare(sourceId, mapped, related, now) => Prepare(t, sourceId, mapped, related, now).tables
    case OpFinalize(sourceId) => Finalize(t, sourceId).tables
    case OpRotate(request) => Rotate(t, request).tables
  }

  /** The tables after any interleaving of transactions, from any workers. */
  function Run(t: Tables, ops: seq<Op>): Tables {
    if ops == [] then t else Step(Run(t, ops[..|ops| - 1]), ops[|ops| - 1])
  }

  lemma RunLast(t: Tables, ops: seq<Op>, front: seq<Op>, last: Op)
    requires ops != [] && ops[..|ops| - 1] == front && ops[|ops| - 1] == last
    ensures Run(t, ops) == Step(Run(t, front), last)
  {
  }

  /** The last step of a run that continues another. */
  lemma RunSplit(t: Tables, before: seq<Op>, after: seq<Op>)
    requires after != []
    ensures Run(t, before + after) == Step(Run(t, before + after[..|after| - 1]), after[|after| - 1])
  {
    LastOf(before, after);
    RunLast(t, before + after, before + after[..|after| - 1], after[|after| - 1]);
  }
}
