/**
 Subscribing to a stream: replay by cursor, then follow live. The reader, the
 writer's queue and the closing of the connection are the environment's and may
 answer differently at every call; the authorization of an event is fixed by its
 sequence.
 */
module BusinessEventSubscription {
  import opened Basics
  import opened BusinessEventTables
  import G = BusinessEventGenerations

  /* ---------- cursor selection ---------- */

  datatype Selection = Cursor(streamId: Id, after: nat) | Latest | EarliestAvailable

  datatype Refusal = StreamWasReset | CursorAhead | CursorExpired

  function LastSequence(g: Generation): nat {
    if g.status.ReplayableClosed? then g.lastReplayable else g.currentSequence
  }

  /** `earliestAvailable` is at least one in every row. */
  function AcceptedAfter(selection: Selection, g: Generation): int {
    match selection
    case Cursor(_, after) => after
    case Latest => LastSequence(g)
    case EarliestAvailable => g.earliestAvailable - 1
  }

  function ValidateCursor(after: int, g: Generation): Option<Refusal> {
    if after > LastSequence(g) then Some(CursorAhead)
    else if after + 1 < g.earliestAvailable then Some(CursorExpired)
    else None
  }

  /**
   What a subscriber asks for. The last sequence of a closed generation is the one
   it can be replayed to, of any other the current one. A cursor starts after its
   sequence, `latest` after the last one, `earliest_available` before the earliest.
   */
  ghost predicate Starts(selection: Selection, g: Generation, start: int, last: nat) {
    && (g.status.ReplayableClosed? ==> last == g.lastReplayable)
    && (!g.status.ReplayableClosed? ==> last == g.currentSequence)
    && (selection.Cursor? ==> start == selection.after)
    && (selection.Latest? ==> start == last)
    && (selection.EarliestAvailable? ==> start + 1 == g.earliestAvailable)
  }

  /* ---------- the event query ---------- */

  /** `WHERE stream_id = .. AND sequence > after AND sequence <= through ORDER BY sequence`. */
  function Window(events: seq<Event>, stream: Id, after: nat, through: nat): seq<Event> {
    if events == [] then []
    else
      var front, e := Window(events[..|events| - 1], stream, after, through), events[|events| - 1];
      if e.streamId == stream && after < e.sequence <= through then front + [e] else front
  }

  function Min(a: int, b: int): int {
    if a <= b then a else b
  }

  /** On a gap-free stream the query is a slice. */
  lemma {:induction false} WindowIsSlice(events: seq<Event>, stream: Id, after: nat, through: nat)
    requires G.GapFree(G.StreamEvents(events, stream))
    ensures var table := G.StreamEvents(events, stream);
      Window(events, stream, after, through)
      == if after <= Min(through, |table|) then table[after..Min(through, |table|)] else []
  {
    if events != [] {
      var front, e := events[..|events| - 1], events[|events| - 1];
      var rest := G.StreamEvents(front, stream);
      var table := G.StreamEvents(events, stream);
      assert G.GapFree(rest) by {
        assert forall i :: 0 <= i < |rest| ==> rest[i] == table[i];
      }
      WindowIsSlice(front, stream, after, through);
      if e.streamId == stream {
        assert table == rest + [e] && table[|rest|].sequence == |rest| + 1;
      }
    }
  }

  /** In every reachable state, the query of any existing stream is a slice of its dense events. */
  lemma ReplayQueryIsSlice(ops: seq<Op>, stream: Id, after: nat, through: nat)
    requires stream in Run(EMPTY_TABLES, ops).generations
    ensures var t := Run(EMPTY_TABLES, ops);
      var table := G.StreamEvents(t.events, stream);
      && G.GapFree(table) && |table| == t.generations[stream].currentSequence
      && Window(t.events, stream, after, through)
         == if after <= Min(through, |table|) then table[after..Min(through, |table|)] else []
  {
    G.GenerationsSoundAlways(ops);
    WindowIsSlice(Run(EMPTY_TABLES, ops).events, stream, after, through);
  }

  /* ---------- what a subscriber should receive ---------- */

  datatype Verdict = Deliver | Filter | Fault

  /** The deliverable events with sequences in `(after, through]`, in order. */
  ghost function Visible(log: seq<Event>, verdict: nat -> Verdict, after: nat, through: nat): seq<Event>
    requires through <= |log|
    decreases through
  {
    if through <= after then []
    else
      Visible(log, verdict, after, through - 1)
      + if verdict(through).Deliver? then [log[through - 1]] else []
  }

  /** Receiving up to any point and resuming there is receiving all at once. */
  lemma {:induction false} VisibleSplits(log: seq<Event>, verdict: nat -> Verdict, a: nat, b: nat, c: nat)
    requires a <= b <= c <= |log|
    ensures Visible(log, verdict, a, b) + Visible(log, verdict, b, c) == Visible(log, verdict, a, c)
    decreases c
  {
    if b < c {
      VisibleSplits(log, verdict, a, b, c - 1);
    }
  }

  /** What is received is exactly the deliverable events after the cursor, each once and in order. */
  lemma {:induction false} VisibleExact(log: seq<Event>, verdict: nat -> Verdict, after: nat, through: nat)
    requires after <= through <= |log| && G.GapFree(log)
    ensures var got := Visible(log, verdict, after, through);
      && (forall i, j :: 0 <= i < j < |got| ==> got[i].sequence < got[j].sequence)
      && (forall e :: e in got <==>
            e in log && after < e.sequence <= through && verdict(e.sequence).Deliver?)
    decreases through
  {
    if after < through {
      VisibleExact(log, verdict, after, through - 1);
      var got, last := Visible(log, verdict, after, through - 1), log[through - 1];
      assert last.sequence == through;
      forall e ensures e in Visible(log, verdict, after, through) <==>
                       e in log && after < e.sequence <= through && verdict(e.sequence).Deliver?
      {
        assert e in got <==> e in log && after < e.sequence <= through - 1 && verdict(e.sequence).Deliver?;
        if e in log && e.sequence == through {
          SequenceNames(log, e, through);
        }
      }
      assert forall i :: 0 <= i < |got| ==> got[i] in got;
    }
  }

  /** The first event received is the first deliverable one after the cursor. */
  lemma VisibleBegins(log: seq<Event>, verdict: nat -> Verdict, after: nat, through: nat)
    requires after <= through <= |log| && G.GapFree(log) && Visible(log, verdict, after, through) != []
    ensures NothingBefore(log, verdict, after, Visible(log, verdict, after, through)[0].sequence)
  {
    var got := Visible(log, verdict, after, through);
    VisibleExact(log, verdict, after, through);
    assert got[0] in got;
    forall s: nat | after < s < got[0].sequence && s <= |log| ensures !verdict(s).Deliver? {
      assert log[s - 1] in log && log[s - 1].sequence == s;
      assert log[s - 1] !in got;
    }
  }

  /** Nothing deliverable lies strictly between the two sequences. */
  ghost predicate NothingBefore(log: seq<Event>, verdict: nat -> Verdict, after: nat, s: nat) {
    forall k: nat :: after < k < s && k <= |log| ==> !verdict(k).Deliver?
  }

  /** In a gap-free log a sequence names one event. */
  lemma SequenceNames(log: seq<Event>, e: Event, s: nat)
    requires G.GapFree(log) && e in log && e.sequence == s
    ensures 1 <= s <= |log| && e == log[s - 1]
  {
    var i :| 0 <= i < |log| && log[i] == e;
  }

  /* ---------- the session ---------- */

  /** Everything a session does not control, by the number of calls made so far. */
  datatype World = World(
    table: nat -> seq<Event>,
    observed: nat -> Option<Generation>,
    retired: nat -> bool,
    closed: nat -> bool,
    accepts: nat -> bool,
    verdict: nat -> Verdict,
    batchSize: nat)

  predicate IsCurrent(observed: Option<Generation>) {
    observed.Some? && observed.value.status.Current?
  }

  datatype ReplayEnd = CaughtUp | Interrupted | Refused | Faulted

  datatype ListenEnd = Denied(refusal: Refusal) | Ended | Crashed

  datatype FirstRefusal = FirstRefusal(sequence: nat, sentBefore: nat)

  /** Every table the reader may show is some prefix of the stream's eventual events. */
  ghost predicate ShowsPrefixesOf(world: World, log: seq<Event>) {
    G.GapFree(log) && forall n :: world.table(n) <= log
  }

  /** Deliverable events of the interval, ascending. */
  ghost predicate Messages(log: seq<Event>, verdict: nat -> Verdict, sent: seq<Event>, after: nat, through: nat) {
    && (forall i :: 0 <= i < |sent| ==>
          && after < sent[i].sequence <= through && sent[i].sequence <= |log|
          && sent[i] == log[sent[i].sequence - 1] && verdict(sent[i].sequence).Deliver?)
    && forall i, j :: 0 <= i < j < |sent| ==> sent[i].sequence < sent[j].sequence
  }

  lemma OneMoreMessage(log: seq<Event>, verdict: nat -> Verdict, sent: seq<Event>, after: nat, from: nat)
    requires G.GapFree(log) && after <= from < |log| && Messages(log, verdict, sent, after, from)
    ensures Messages(log, verdict, sent, after, from + 1)
    ensures verdict(from + 1).Deliver? ==> Messages(log, verdict, sent + [log[from]], after, from + 1)
  {
  }

  lemma OneMoreVisible(log: seq<Event>, verdict: nat -> Verdict, after: nat, delivered: nat, from: nat)
    requires G.GapFree(log) && after <= delivered <= from < |log| && Visible(log, verdict, delivered, from) == []
    ensures Visible(log, verdict, after, from + 1)
         == Visible(log, verdict, after, from) + if verdict(from + 1).Deliver? then [log[from]] else []
    ensures !verdict(from + 1).Deliver? ==> Visible(log, verdict, delivered, from + 1) == []
    ensures Visible(log, verdict, from + 1, from + 1) == []
  {
  }

  /** The events of a generation are those of the log, and its earliest sequence is at least one. */
  ghost predicate Readable(log: seq<Event>, g: Option<Generation>) {
    g.Some? ==>
      && g.value.currentSequence <= |log| && g.value.earliestAvailable >= 1
      && (g.value.status.ReplayableClosed? ==> g.value.lastReplayable <= |log|)
  }

  class Session {
    const world: World
    var calls: nat
    var attempts: nat
    var acknowledged: bool
    var sent: seq<Event>
    var polled: seq<nat>
    var noticed: bool
    ghost var refusal: Option<FirstRefusal>

    constructor (world: World)
      ensures this.world == world && sent == [] && refusal == None
      ensures calls == 0 && attempts == 0 && polled == [] && !noticed && !acknowledged
    {
      this.world := world;
      calls, attempts := 0, 0;
      acknowledged, noticed := false, false;
      sent, polled := [], [];
      refusal := None;
    }

    /**
     Up to the first refused enqueue, the messages are exactly the deliverable
     events since `after`; nothing deliverable lies between the last delivered
     and the last scanned one.
     */
    ghost predicate InStep(log: seq<Event>, after: nat, scanned: nat, delivered: nat)
      reads this
      requires after <= scanned <= |log|
    {
      match refusal
      case None =>
        && sent == Visible(log, world.verdict, after, scanned)
        && after <= delivered <= scanned
        && Visible(log, world.verdict, delivered, scanned) == []
      case Some(r) => Prefixed(log, after, scanned, r)
    }

    ghost predicate Prefixed(log: seq<Event>, after: nat, scanned: nat, r: FirstRefusal)
      reads this
      requires after <= scanned <= |log|
    {
      && after < r.sequence <= scanned && world.verdict(r.sequence).Deliver?
      && r.sentBefore <= |sent|
      && sent[..r.sentBefore] == Visible(log, world.verdict, after, r.sequence - 1)
    }

    /** The scan has met an event that cannot be authorized; what came before it is in step. */
    ghost predicate Halted(log: seq<Event>, after: nat, scanned: nat)
      reads this
      requires after <= scanned <= |log|
    {
      && after < scanned && world.verdict(scanned).Fault?
      && match refusal
         case None => sent == Visible(log, world.verdict, after, scanned - 1)
         case Some(r) => Prefixed(log, after, scanned, r)
    }

    /** Refused or not, every message so far is a deliverable event of the interval, and they ascend. */
    ghost predicate Genuine(log: seq<Event>, after: nat, through: nat)
      reads this
    {
      Messages(log, world.verdict, sent, after, through)
    }

    /** Hand one event to the writer. */
    method Enqueue(e: Event) returns (accepted: bool)
      modifies this`attempts, this`sent, this`refusal
      ensures sent == if accepted then old(sent) + [e] else old(sent)
      ensures refusal == if accepted || old(refusal).Some? then old(refusal)
                         else Some(FirstRefusal(e.sequence, |old(sent)|))
    {
      accepted := world.accepts(attempts);
      attempts := attempts + 1;
      if accepted {
        sent := sent + [e];
      } else if refusal.None? {
        refusal := Some(FirstRefusal(e.sequence, |sent|));
      }
    }

    /** The batch after `scanned`, from whatever the reader shows now. */
    method ReplayEvents(ghost log: seq<Event>, scanned: nat, through: nat) returns (batch: seq<Event>)
      requires ShowsPrefixesOf(world, log) && scanned < through && scanned <= |log|
      modifies this`calls
      ensures scanned + |batch| <= Min(through, |log|)
      ensures |batch| > 0 ==> batch == log[scanned..scanned + |batch|]
      ensures batch == [] ==> world.batchSize == 0 || |world.table(old(calls))| <= scanned
      ensures calls == old(calls) + 1
    {
      var table := world.table(calls);
      calls := calls + 1;
      assert table <= log;
      var end := Min(through, |table|);
      if end <= scanned {
        batch := [];
      } else {
        batch := table[scanned..Min(end, scanned + world.batchSize)];
      }
    }

    /** Scan a batch; a refused or failing event stops the scan where it stands. */
    method Scan(ghost log: seq<Event>, ghost after: nat, batch: seq<Event>, from: nat, last: nat)
      returns (scanned: nat, delivered: nat, stop: Option<ReplayEnd>)
      requires G.GapFree(log) && after <= from && from + |batch| <= |log|
      requires |batch| > 0 && forall i :: 0 <= i < |batch| ==> batch[i] == log[from + i]
      requires InStep(log, after, from, last) && Genuine(log, after, from)
      modifies this`attempts, this`sent, this`refusal
      ensures from < scanned <= from + |batch| && Genuine(log, after, scanned)
      ensures stop.None? ==> scanned == from + |batch|
      ensures stop.Some? ==> stop.value.Refused? || stop.value.Faulted?
      ensures stop != Some(Faulted) ==> InStep(log, after, scanned, delivered)
      ensures stop == Some(Refused) ==> refusal.Some?
      ensures stop == Some(Faulted) ==> Halted(log, after, scanned)
      ensures old(refusal).Some? ==> refusal == old(refusal)
    {
      scanned, delivered := from, last;
      for i := 0 to |batch|
        invariant scanned == from + i && Genuine(log, after, scanned)
        invariant InStep(log, after, scanned, delivered)
        invariant old(refusal).Some? ==> refusal == old(refusal)
      {
        assert batch[i] == log[scanned] && batch[i].sequence == scanned + 1;
        delivered, stop := Offer(log, after, batch[i], scanned, delivered);
        scanned := batch[i].sequence;
        if stop.Some? {
          return;
        }
      }
      stop := None;
    }

    /** The next event: filtered, delivered, refused, or failing. */
    method Offer(ghost log: seq<Event>, ghost after: nat, event: Event, ghost from: nat, last: nat)
      returns (delivered: nat, stop: Option<ReplayEnd>)
      requires G.GapFree(log) && after <= from < |log| && event == log[from] && InStep(log, after, from, last)
      requires Genuine(log, after, from)
      modifies this`attempts, this`sent, this`refusal
      ensures stop.Some? ==> stop.value.Refused? || stop.value.Faulted?
      ensures Genuine(log, after, from + 1)
      ensures stop != Some(Faulted) ==> InStep(log, after, from + 1, delivered)
      ensures stop == Some(Refused) ==> refusal.Some?
      ensures stop == Some(Faulted) ==> Halted(log, after, from + 1)
      ensures old(refusal).Some? ==> refusal == old(refusal)
    {
      delivered := last;
      var verdict := world.verdict(event.sequence);
      OneMoreMessage(log, world.verdict, sent, after, from);
      if refusal.None? {
        OneMoreVisible(log, world.verdict, after, last, from);
      }
      if verdict.Fault? {
        return delivered, Some(Faulted);
      }
      if verdict.Deliver? {
        var accepted := Enqueue(event);
        if !accepted {
          return delivered, Some(Refused);
        }
        delivered := event.sequence;
      }
      return delivered, None;
    }

    /** From call `n` on the connection stays open and the reader shows the stream up to `through`. */
    ghost predicate Steady(n: nat, through: nat) {
      Open(n) && forall m :: m >= n ==> |world.table(m)| >= through
    }

    /** From call `n` on the connection stays open, the generation readable and batches not empty. */
    ghost predicate Open(n: nat) {
      world.batchSize > 0 && forall m :: m >= n ==> !world.closed(m) && !world.retired(m)
    }

    /** What the reader says is published it also shows, from then on. */
    ghost predicate Honest(n: nat) {
      forall k, m :: n <= k <= m && world.observed(k).Some? ==>
        world.observed(k).value.currentSequence <= |world.table(m)|
    }

    /** `#replay`: scan up to `through` in batches. */
    method Replay(ghost log: seq<Event>, ghost after: nat, from: nat, last: nat, through: nat)
      returns (scanned: nat, delivered: nat, end: ReplayEnd)
      requires ShowsPrefixesOf(world, log) && after <= from <= |log| && InStep(log, after, from, last)
      requires Genuine(log, after, from)
      modifies this`calls, this`attempts, this`sent, this`refusal
      ensures from <= scanned <= |log| && Genuine(log, after, scanned)
      ensures !end.Faulted? ==> InStep(log, after, scanned, delivered)
      ensures end.Refused? ==> refusal.Some?
      ensures end.CaughtUp? ==> scanned >= through
      ensures end.Faulted? ==> Halted(log, after, scanned)
      ensures Steady(old(calls), through) ==> !end.Interrupted?
      ensures calls >= old(calls)
      ensures old(refusal).Some? ==> refusal == old(refusal)
    {
      scanned, delivered := from, last;
      while scanned < through
        invariant from <= scanned <= |log| && calls >= old(calls) && Genuine(log, after, scanned)
        invariant InStep(log, after, scanned, delivered)
        invariant old(refusal).Some? ==> refusal == old(refusal)
        decreases through - scanned
      {
        if world.closed(calls) || world.retired(calls) {
          return scanned, delivered, Interrupted;
        }
        var batch := ReplayEvents(log, scanned, through);
        if |batch| == 0 {
          return scanned, delivered, Interrupted;
        }
        var stop: Option<ReplayEnd>;
        scanned, delivered, stop := Scan(log, after, batch, scanned, delivered);
        if stop.Some? {
          return scanned, delivered, stop.value;
        }
      }
      end := CaughtUp;
    }

    /** The notice that the generation is over; it may be refused like any message. */
    method SendContinuity()
      modifies this`noticed, this`attempts
      ensures noticed && attempts == old(attempts) + 1
    {
      attempts := attempts + 1;
      noticed := true;
    }

    /** Everything announced at the polls so far has been scanned. */
    ghost predicate Served(polls: seq<nat>, scanned: nat) {
      forall i :: 0 <= i < |polls| && IsCurrent(world.observed(polls[i])) ==>
        world.observed(polls[i]).value.currentSequence <= scanned
    }

    ghost predicate AllCurrent(polls: seq<nat>) {
      forall i :: 0 <= i < |polls| ==> IsCurrent(world.observed(polls[i]))
    }

    /** One poll: the generation is read again, and what it has published since is replayed. */
    method Poll(ghost log: seq<Event>, ghost after: nat, from: nat, last: nat)
      returns (scanned: nat, delivered: nat, over: bool, faulted: bool)
      requires ShowsPrefixesOf(world, log) && after <= from <= |log| && InStep(log, after, from, last)
      requires Genuine(log, after, from)
      modifies this`calls, this`attempts, this`sent, this`refusal, this`polled, this`noticed
      ensures from <= scanned <= |log| && calls > old(calls) && polled == old(polled) + [old(calls)]
      ensures Genuine(log, after, scanned)
      ensures over <==> !IsCurrent(world.observed(old(calls)))
      ensures noticed == (old(noticed) || over)
      ensures over ==> !faulted
      ensures !faulted ==> InStep(log, after, scanned, delivered)
      ensures faulted ==> Halted(log, after, scanned)
      ensures old(refusal).Some? ==> refusal == old(refusal)
      ensures !over && !faulted && refusal.None? && Open(old(calls)) && Honest(old(calls)) ==>
        world.observed(old(calls)).value.currentSequence <= scanned
    {
      scanned, delivered, over, faulted := from, last, false, false;
      var observed := world.observed(calls);
      polled := polled + [calls];
      calls := calls + 1;
      if !IsCurrent(observed) {
        SendContinuity();
        over := true;
        return;
      }
      var step: ReplayEnd;
      scanned, delivered, step := Replay(log, after, scanned, delivered, observed.value.currentSequence);
      faulted := step.Faulted?;
    }

    /** The live loop: as many polls as the connection lasts. */
    method Follow(ghost log: seq<Event>, ghost after: nat, from: nat, last: nat, rounds: nat)
      returns (end: ListenEnd, scanned: nat, delivered: nat)
      requires ShowsPrefixesOf(world, log) && after <= from <= |log| && InStep(log, after, from, last)
      requires polled == [] && !noticed && Genuine(log, after, from)
      modifies this`calls, this`attempts, this`sent, this`refusal, this`polled, this`noticed
      ensures !end.Denied? && from <= scanned <= |log| && Genuine(log, after, scanned)
      ensures end.Ended? ==> InStep(log, after, scanned, delivered)
      ensures end.Crashed? ==> Halted(log, after, scanned)
      ensures old(refusal).Some? ==> refusal == old(refusal)
      ensures end.Ended? && refusal.None? && Open(old(calls)) && Honest(old(calls)) ==>
        && Served(polled, scanned)
        && (noticed || |polled| == rounds)
        && (noticed <==> !AllCurrent(polled))
    {
      scanned, delivered := from, last;
      for i := 0 to rounds
        invariant from <= scanned <= |log| && InStep(log, after, scanned, delivered) && Genuine(log, after, scanned)
        invariant calls >= old(calls) && !noticed && |polled| == i && AllCurrent(polled)
        invariant old(refusal).Some? ==> refusal == old(refusal)
        invariant refusal.None? && Open(old(calls)) && Honest(old(calls)) ==> Served(polled, scanned)
      {
        if world.closed(calls) {
          return Ended, scanned, delivered;
        }
        var over, faulted;
        scanned, delivered, over, faulted := Poll(log, after, scanned, delivered);
        if over {
          assert !IsCurrent(world.observed(polled[i]));
          return Ended, scanned, delivered;
        }
        if faulted {
          return Crashed, scanned, delivered;
        }
      }
      end := Ended;
    }

    /**
     `listen`: acknowledge, replay up to the high watermark, then follow live
     until the connection closes or the generation stops being current. `current`
     is the current generation, `found` the one the reader has for the stream of a
     cursor; `start` and `last` are what the subscriber asked for, as `Starts` says.

     A subscription is refused exactly for a missing or retired generation, a cursor
     beyond the last sequence or before the earliest. Every message is a deliverable
     event after the start, in order; up to the first refused one none is left out.
     On a connection that stays open, with a reader that shows what it announces and
     a writer that refuses nothing, the subscriber is acknowledged, receives every
     deliverable event up to the watermark and up to every announcement, and is told
     when the generation is over.
     */
    method Listen(ghost log: seq<Event>, selection: Selection, current: Option<Generation>,
                  found: Option<Generation>, rounds: nat)
      returns (end: ListenEnd, scanned: nat, delivered: nat, ghost start: int, ghost last: nat)
      requires ShowsPrefixesOf(world, log) && sent == [] && refusal == None && polled == [] && !noticed && !acknowledged
      requires Readable(log, if selection.Cursor? then found else current)
      modifies this
      ensures var chosen := if selection.Cursor? then found else current;
        if current.None? || chosen.None? || chosen.value.status.Retired? then end == Denied(StreamWasReset)
        else
          && Starts(selection, chosen.value, start, last)
          && end != Denied(StreamWasReset)
          && (end == Denied(CursorAhead) <==> start > last)
          && (end == Denied(CursorExpired) <==> start <= last && start + 1 < chosen.value.earliestAvailable)
      ensures end.Denied? ==> sent == [] && !acknowledged
      ensures !end.Denied? ==> 0 <= start <= last && start <= scanned <= |log|
      ensures !end.Denied? ==> Genuine(log, start, scanned)
      ensures !end.Denied? && sent != [] && (refusal.None? || refusal.value.sentBefore > 0) ==>
        NothingBefore(log, world.verdict, start, sent[0].sequence)
      ensures end.Ended? ==> InStep(log, start, scanned, delivered)
      ensures end.Crashed? ==> Halted(log, start, scanned)
      ensures !end.Denied? ==> (acknowledged <==> world.accepts(old(attempts)))
      ensures end.Ended? && acknowledged && refusal.None? && Honest(old(calls)) && Steady(old(calls), last) ==>
        var closed := (if selection.Cursor? then found else current).value.status.ReplayableClosed?;
        && last <= scanned && Served(polled, scanned)
        && Complete(log, start, last)
        && (closed ==> noticed)
        && (!closed ==> (noticed || |polled| == rounds) && (noticed <==> !AllCurrent(polled)))
    {
      scanned, delivered, start, last := 0, 0, 0, 0;
      var chosen := if selection.Cursor? then found else current;
      if current.None? || chosen.None? || chosen.value.status.Retired? {
        return Denied(StreamWasReset), 0, 0, 0, 0;
      }
      var generation := chosen.value;
      var accepted := AcceptedAfter(selection, generation);
      start, last := accepted, LastSequence(generation);
      var problem := ValidateCursor(accepted, generation);
      if problem.Some? {
        return Denied(problem.value), 0, 0, start, last;
      }
      end, scanned, delivered := Stream(log, generation, accepted, rounds);
      Received(log, accepted, scanned, delivered, end, last);
    }

    /** Everything after the subscription was accepted. */
    method Stream(ghost log: seq<Event>, generation: Generation, after: nat, rounds: nat)
      returns (end: ListenEnd, scanned: nat, delivered: nat)
      requires ShowsPrefixesOf(world, log) && sent == [] && refusal == None && polled == [] && !noticed && !acknowledged
      requires after <= LastSequence(generation) <= |log|
      modifies this
      ensures !end.Denied? && after <= scanned <= |log| && Genuine(log, after, scanned)
      ensures end.Ended? ==> InStep(log, after, scanned, delivered)
      ensures end.Crashed? ==> Halted(log, after, scanned)
      ensures acknowledged <==> world.accepts(old(attempts))
      ensures end.Ended? && acknowledged && refusal.None? && Honest(old(calls))
              && Steady(old(calls), LastSequence(generation)) ==>
        && LastSequence(generation) <= scanned
        && Served(polled, scanned)
        && (generation.status.ReplayableClosed? ==> noticed)
        && (!generation.status.ReplayableClosed? ==>
              (noticed || |polled| == rounds) && (noticed <==> !AllCurrent(polled)))
    {
      scanned, delivered := after, after;
      var writable := world.accepts(attempts);
      attempts := attempts + 1;
      if !writable {
        return Ended, scanned, delivered;
      }
      acknowledged := true;
      var step: ReplayEnd;
      scanned, delivered, step := Replay(log, after, scanned, delivered, LastSequence(generation));
      if step.Faulted? {
        return Crashed, scanned, delivered;
      }
      end, scanned, delivered := Continue(log, generation, after, scanned, delivered, rounds);
    }

    /** After the replay: the notice of a closed generation, or the live loop. */
    method Continue(ghost log: seq<Event>, generation: Generation, ghost after: nat, from: nat, last: nat, rounds: nat)
      returns (end: ListenEnd, scanned: nat, delivered: nat)
      requires ShowsPrefixesOf(world, log) && after <= from <= |log| && InStep(log, after, from, last)
      requires polled == [] && !noticed && Genuine(log, after, from)
      modifies this`calls, this`attempts, this`sent, this`refusal, this`polled, this`noticed
      ensures !end.Denied? && from <= scanned <= |log| && Genuine(log, after, scanned)
      ensures end.Ended? ==> InStep(log, after, scanned, delivered)
      ensures end.Crashed? ==> Halted(log, after, scanned)
      ensures old(refusal).Some? ==> refusal == old(refusal)
      ensures end.Ended? && refusal.None? && Open(old(calls)) && Honest(old(calls)) ==>
        && Served(polled, scanned)
        && (generation.status.ReplayableClosed? ==> noticed)
        && (!generation.status.ReplayableClosed? ==>
              (noticed || |polled| == rounds) && (noticed <==> !AllCurrent(polled)))
    {
      if world.closed(calls) {
        return Ended, from, last;
      }
      if generation.status.ReplayableClosed? {
        SendContinuity();
        return Ended, from, last;
      }
      end, scanned, delivered := Follow(log, after, from, last, rounds);
    }

    /** Everything deliverable up to `last` arrived. */
    ghost predicate Complete(log: seq<Event>, after: int, last: nat)
      reads this
    {
      forall e :: e in log && after < e.sequence <= last && world.verdict(e.sequence).Deliver? ==> e in sent
    }

    /** What arrived begins with the first deliverable event, and nothing is left out. */
    lemma Received(log: seq<Event>, after: nat, scanned: nat, delivered: nat, end: ListenEnd, last: nat)
      requires G.GapFree(log) && after <= scanned <= |log|
      requires end.Ended? ==> InStep(log, after, scanned, delivered)
      requires end.Crashed? ==> Halted(log, after, scanned)
      requires !end.Denied?
      ensures sent != [] && (refusal.None? || refusal.value.sentBefore > 0) ==>
        NothingBefore(log, world.verdict, after, sent[0].sequence)
      ensures end.Ended? && refusal.None? && last <= scanned ==> Complete(log, after, last)
    {
      if sent != [] && (refusal.None? || refusal.value.sentBefore > 0) {
        if refusal.Some? {
          assert sent[0] == sent[..refusal.value.sentBefore][0];
          VisibleBegins(log, world.verdict, after, refusal.value.sequence - 1);
        } else if end.Ended? {
          VisibleBegins(log, world.verdict, after, scanned);
        } else {
          VisibleBegins(log, world.verdict, after, scanned - 1);
        }
      }
      if end.Ended? && refusal.None? {
        VisibleExact(log, world.verdict, after, scanned);
      }
    }
  }

  /* ---------- reconnecting ---------- */

  /**
   A session that ended without a refusal, followed by one that resumes at its
   last delivered sequence, has received exactly the deliverable events since
   the first cursor: none lost, none repeated.
   */
  lemma ReconnectConcatenates(
      log: seq<Event>, verdict: nat -> Verdict,
      after: nat, scanned: nat, delivered: nat, first: seq<Event>, later: nat, second: seq<Event>)
    requires after <= delivered <= scanned <= |log| && delivered <= later <= |log|
    requires first == Visible(log, verdict, after, scanned) && Visible(log, verdict, delivered, scanned) == []
    requires second == Visible(log, verdict, delivered, later)
    ensures first + second == Visible(log, verdict, after, later)
  {
    VisibleSplits(log, verdict, after, delivered, scanned);
    VisibleSplits(log, verdict, after, delivered, later);
  }

  /**
   Two sessions of one subscriber, whatever the readers, writers and connections
   of each: the second is asked for with the last sequence the first delivered.
   If neither is refused a message, what arrived is exactly the deliverable events
   from where the first started up to where the second has scanned.
   */
  method ListenTwice(
      first: Session, second: Session, ghost log: seq<Event>, selection: Selection, stream: Id,
      current: Option<Generation>, found: Option<Generation>, rounds: nat,
      current': Option<Generation>, found': Option<Generation>, rounds': nat)
      returns (end: ListenEnd, end': ListenEnd, scanned': nat, ghost start: int, ghost last: nat)
    requires first != second && first.world.verdict == second.world.verdict
    requires ShowsPrefixesOf(first.world, log) && ShowsPrefixesOf(second.world, log)
    requires first.sent == [] && first.refusal == None && first.polled == [] && !first.noticed && !first.acknowledged
    requires second.sent == [] && second.refusal == None && second.polled == []
    requires !second.noticed && !second.acknowledged
    requires Readable(log, if selection.Cursor? then found else current) && Readable(log, found')
    modifies first, second
    ensures end.Ended? && end'.Ended? && first.refusal.None? && second.refusal.None? ==>
      && (if selection.Cursor? then found else current).Some?
      && Starts(selection, (if selection.Cursor? then found else current).value, start, last)
      && 0 <= start <= scanned' <= |log|
      && first.sent + second.sent == Visible(log, first.world.verdict, start, scanned')
  {
    var scanned, delivered, delivered';
    ghost var again, last';
    end, scanned, delivered, start, last := first.Listen(log, selection, current, found, rounds);
    if !end.Ended? {
      return end, Denied(StreamWasReset), 0, start, last;
    }
    var cursor := Cursor(stream, delivered);
    end', scanned', delivered', again, last' := second.Listen(log, cursor, current', found', rounds');
    if end'.Ended? && first.refusal.None? && second.refusal.None? {
      ReconnectConcatenates(log, first.world.verdict, start, scanned, delivered, first.sent, scanned', second.sent);
    }
  }

  /* ---------- readers of a run ---------- */

  /** The reader's call `n` finds the tables as they are after the first `moments(n)` transactions of the run. */
  ghost predicate ReadsRun(world: World, ops: seq<Op>, moments: nat -> nat, stream: Id) {
    forall n: nat ::
      moments(n) <= |ops|
      && world.table(n) == G.StreamEvents(Run(EMPTY_TABLES, ops[..moments(n)]).events, stream)
  }

  /**
   Over every run, what a reader shows at any moment is a prefix of what the stream
   ends up with, and that has no gaps.
   */
  lemma RunsShowPrefixes(world: World, ops: seq<Op>, moments: nat -> nat, stream: Id)
    requires ReadsRun(world, ops, moments, stream) && stream in Run(EMPTY_TABLES, ops).generations
    ensures ShowsPrefixesOf(world, G.StreamEvents(Run(EMPTY_TABLES, ops).events, stream))
  {
    var log := G.StreamEvents(Run(EMPTY_TABLES, ops).events, stream);
    G.GenerationsSoundAlways(ops);
    forall n: nat ensures world.table(n) <= log {
      StreamOnlyGrows(ops, moments(n), stream);
    }
  }

  lemma StreamOnlyGrows(ops: seq<Op>, m: nat, stream: Id)
    requires m <= |ops|
    ensures G.StreamEvents(Run(EMPTY_TABLES, ops[..m]).events, stream)
         <= G.StreamEvents(Run(EMPTY_TABLES, ops).events, stream)
  {
    assert ops[..m] + ops[m..] == ops;
    G.ClosedGenerationsFrozen(ops[..m], ops[m..], stream);
  }

  /** A reader that reads later and later finds what it announced: its answers are those the live loop relies on. */
  lemma RunsAreHonest(world: World, ops: seq<Op>, moments: nat -> nat, stream: Id, k: nat, m: nat)
    requires ReadsRun(world, ops, moments, stream) && k <= m && moments(k) <= moments(m)
    requires stream in Run(EMPTY_TABLES, ops[..moments(k)]).generations
    requires world.observed(k) == Some(Run(EMPTY_TABLES, ops[..moments(k)]).generations[stream])
    ensures world.observed(k).value.currentSequence <= |world.table(m)|
  {
    G.GenerationsSoundAlways(ops[..moments(k)]);
    StreamOnlyGrows(ops[..moments(m)], moments(k), stream);
    assert ops[..moments(m)][..moments(k)] == ops[..moments(k)];
  }

  /** Every generation a subscriber finds in a run is readable against what the stream ends up with. */
  lemma RunsAreReadable(ops: seq<Op>, m: nat, stream: Id)
    requires m <= |ops| && stream in Run(EMPTY_TABLES, ops[..m]).generations
    ensures Readable(G.StreamEvents(Run(EMPTY_TABLES, ops).events, stream),
                     Some(Run(EMPTY_TABLES, ops[..m]).generations[stream]))
  {
    G.GenerationsSoundAlways(ops[..m]);
    StreamOnlyGrows(ops, m, stream);
  }

  function Take(events: seq<Event>, limit: nat): seq<Event> {
    if |events| > limit then events[..limit] else events
  }

  /** In every reachable state the limited query is the batch a session reads. */
  lemma ReplayBatchIsQuery(ops: seq<Op>, stream: Id, scanned: nat, through: nat, limit: nat)
    requires stream in Run(EMPTY_TABLES, ops).generations
    ensures var t := Run(EMPTY_TABLES, ops);
      var table := G.StreamEvents(t.events, stream);
      var end := Min(through, |table|);
      Take(Window(t.events, stream, scanned, through), limit)
      == if end <= scanned then [] else table[scanned..Min(end, scanned + limit)]
  {
    ReplayQueryIsSlice(ops, stream, scanned, through);
    var table := G.StreamEvents(Run(EMPTY_TABLES, ops).events, stream);
    if scanned <= Min(through, |table|) {
      TakeSlice(table, scanned, through, limit);
    }
  }

  lemma TakeSlice(table: seq<Event>, scanned: nat, through: nat, limit: nat)
    requires scanned <= Min(through, |table|)
    ensures Take(table[scanned..Min(through, |table|)], limit)
         == table[scanned..Min(Min(through, |table|), scanned + limit)]
  {
  }
}
