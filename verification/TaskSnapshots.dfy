/** Adapter snapshots may arrive in any order, and repeatedly: the newest decides. */
module TaskSnapshots {
  import opened Basics
  import opened TaskTables
  import opened TaskLifecycle

  /** The snapshots of one execution, by revision, and the input requests they carry. */
  datatype Feed = Feed(snapshots: nat -> Transition, requests: nat -> seq<(Id, Json)>)

  /** Revisions in the order of their delivery. */
  function Deliver(d: TaskTable, feed: Feed, order: seq<nat>): TaskTable {
    if order == [] then d
    else
      var r := order[|order| - 1];
      ApplySnapshot(Deliver(d, feed, order[..|order| - 1]), r, feed.snapshots(r), feed.requests(r))
  }

  /** What a caller sees of the task. */
  datatype Outcome = Outcome(
    internalState: InternalState,
    mcpStatus: McpStatus,
    substate: Option<string>,
    result: Option<Document>,
    error: Option<Document>,
    adapterRevision: nat)

  function OutcomeOf(t: Task): Outcome {
    Outcome(t.internalState, t.mcpStatus, t.substate, t.result, t.error, t.adapterRevision)
  }

  /** The outcome of delivering only the snapshot with revision `top`. */
  function Settled(t: Task, feed: Feed, top: nat): Outcome {
    if IsTerminal(t.internalState) || top <= t.adapterRevision then OutcomeOf(t)
    else
      var m := MergeStopState(t, feed.snapshots(top));
      Outcome(m.internalState, m.mcpStatus, m.substate, m.result, m.error, top)
  }

  /* ---------- input requests ---------- */

  /** A request key always stands for the same request. */
  ghost predicate NewsMatch(news: seq<(Id, Json)>, definitions: Id -> Json) {
    forall i :: 0 <= i < |news| ==> news[i].1 == definitions(news[i].0)
  }

  ghost predicate RequestsMatch(requests: map<Id, InputRequest>, definitions: Id -> Json) {
    forall key :: key in requests ==> requests[key].definition == definitions(key)
  }

  lemma {:induction false} MatchingRequestsStored(
      requests: map<Id, InputRequest>, news: seq<(Id, Json)>, definitions: Id -> Json)
    requires RequestsMatch(requests, definitions) && NewsMatch(news, definitions)
    ensures PutRequests(requests, news).Some? && RequestsMatch(PutRequests(requests, news).value, definitions)
  {
    if news != [] {
      MatchingRequestsStored(requests, news[..|news| - 1], definitions);
      assert news[|news| - 1].1 == definitions(news[|news| - 1].0);
    }
  }

  /* ---------- convergence ---------- */

  /** Snapshots passed the contract, and only revision `top` may end the task. */
  ghost predicate FeedSound(feed: Feed, top: nat, definitions: Id -> Json) {
    forall r: nat :: r <= top ==>
      && Admissible(feed.snapshots(r))
      && (feed.snapshots(r).terminal ==> r == top)
      && NewsMatch(feed.requests(r), definitions)
  }

  function MaxOf(order: seq<nat>): nat {
    if order == [] then 0 else Max(MaxOf(order[..|order| - 1]), order[|order| - 1])
  }

  lemma {:induction false} MaxOfBounds(order: seq<nat>, top: nat)
    requires forall i :: 0 <= i < |order| ==> order[i] <= top
    ensures MaxOf(order) <= top
    ensures top in order ==> MaxOf(order) == top
  {
    if order != [] {
      MaxOfBounds(order[..|order| - 1], top);
    }
  }

  ghost predicate Ready(d: TaskTable, definitions: Id -> Json) {
    Coherent(d) && d.task.Some? && RequestsMatch(d.requests, definitions)
  }

  lemma StaysReady(d: TaskTable, r: nat, tr: Transition, news: seq<(Id, Json)>, definitions: Id -> Json)
    requires Ready(d, definitions) && Admissible(tr) && NewsMatch(news, definitions)
    ensures PutRequests(d.requests, news).Some? && Ready(ApplySnapshot(d, r, tr, news), definitions)
  {
    var d' := ApplySnapshot(d, r, tr, news);
    MatchingRequestsStored(d.requests, news, definitions);
    StepKeepsCoherent(d, OpApplySnapshot(r, tr, news));
    assert d'.requests == d.requests || d'.requests == PutRequests(d.requests, news).value;
  }

  /** One more snapshot, after the newest so far was `m`. */
  lemma OneMore(t: Task, d: TaskTable, feed: Feed, m: nat, r: nat, top: nat, definitions: Id -> Json)
    requires FeedSound(feed, top, definitions) && m <= top && r <= top
    requires Ready(d, definitions)
    requires OutcomeOf(d.task.value) == Settled(t, feed, m)
    requires d.task.value.cancelRequested == t.cancelRequested && d.task.value.stopReason == t.stopReason
    ensures var d' := ApplySnapshot(d, r, feed.snapshots(r), feed.requests(r));
      && Ready(d', definitions)
      && OutcomeOf(d'.task.value) == Settled(t, feed, Max(m, r))
      && d'.task.value.cancelRequested == t.cancelRequested && d'.task.value.stopReason == t.stopReason
  {
    var tr, news := feed.snapshots(r), feed.requests(r);
    StaysReady(d, r, tr, news, definitions);
    assert Admissible(feed.snapshots(m)) && (feed.snapshots(m).terminal ==> m == top);
    if !IsTerminal(d.task.value.internalState) && r > d.task.value.adapterRevision {
      NewerIsNew(d, r);
    }
  }

  lemma {:induction false} DeliverySettles(d: TaskTable, feed: Feed, order: seq<nat>, top: nat, definitions: Id -> Json)
    requires FeedSound(feed, top, definitions) && Ready(d, definitions)
    requires forall i :: 0 <= i < |order| ==> order[i] <= top
    ensures Ready(Deliver(d, feed, order), definitions)
    ensures var t' := Deliver(d, feed, order).task.value;
      && OutcomeOf(t') == Settled(d.task.value, feed, MaxOf(order))
      && t'.cancelRequested == d.task.value.cancelRequested && t'.stopReason == d.task.value.stopReason
  {
    if order != [] {
      var front, r := order[..|order| - 1], order[|order| - 1];
      DeliverySettles(d, feed, front, top, definitions);
      MaxOfBounds(front, top);
      OneMore(d.task.value, Deliver(d, feed, front), feed, MaxOf(front), r, top, definitions);
    }
  }

  /**
   Two deliveries of the same feed that both include the newest snapshot end in
   the same outcome, whatever was lost, repeated or reordered on the way, and
   whether or not a stop was requested before.
   */
  lemma SnapshotsConverge(
      d: TaskTable, feed: Feed, order: seq<nat>, order': seq<nat>, top: nat, definitions: Id -> Json)
    requires FeedSound(feed, top, definitions) && Ready(d, definitions)
    requires forall i :: 0 <= i < |order| ==> order[i] <= top
    requires forall i :: 0 <= i < |order'| ==> order'[i] <= top
    requires top in order && top in order'
    ensures Deliver(d, feed, order).task.Some? && Deliver(d, feed, order').task.Some?
    ensures OutcomeOf(Deliver(d, feed, order).task.value) == OutcomeOf(Deliver(d, feed, order').task.value)
              == Settled(d.task.value, feed, top)
  {
    DeliverySettles(d, feed, order, top, definitions);
    DeliverySettles(d, feed, order', top, definitions);
    MaxOfBounds(order, top);
    MaxOfBounds(order', top);
  }
}
