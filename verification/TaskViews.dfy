/** How a task is shown: the protocol projection and the pages of its history. */
module TaskViews {
  import opened Basics
  import opened TaskTables
  import opened TaskLifecycle
  import opened TaskInput

  /* ---------- the protocol projection ---------- */

  datatype Projection = CreateView | GetView | NotificationView

  datatype DetailedTask = DetailedTask(
    resultType: Option<string>,
    status: McpStatus,
    statusMessage: Option<string>,
    ttlMs: Option<int>,
    polls: bool,
    runtimeRevision: nat,
    providerRevision: Option<nat>,
    substate: Option<string>,
    cancellationRequested: bool,
    inputRequests: map<Id, Json>,
    result: Option<Document>,
    error: Option<Document>)

  datatype ViewError =
    | TtlSemanticsMismatch | RuntimeRevisionInvalid | InputRequestsMissing | ResultMissing | ErrorMissing

  datatype ViewResult = Shown(view: DetailedTask) | NotShown(error: ViewError)

  const MAX_SAFE_INTEGER := 9007199254740991

  /** Twenty decimal digits. */
  const REVISION_BOUND := 100000000000000000000

  function OpenRequests(requests: map<Id, InputRequest>): map<Id, Json> {
    map key | key in requests && requests[key].status.Open? :: requests[key].definition
  }

  /** The two checks made before anything is shown. */
  predicate Presentable(t: Task, ttlMs: Option<int>) {
    (ttlMs.Some? ==> 0 <= ttlMs.value <= MAX_SAFE_INTEGER) && t.runtimeRevision < REVISION_BOUND
  }

  method MapTaskToDetailedTask(
      t: Task, requests: map<Id, InputRequest>, projection: Projection,
      handleExpiresAt: Option<Instant>, createdAt: Instant) returns (r: ViewResult)
    ensures var ttlMs := if handleExpiresAt.None? then None else Some(handleExpiresAt.value - createdAt);
      && (r == NotShown(TtlSemanticsMismatch) || r == NotShown(RuntimeRevisionInvalid) <==> !Presentable(t, ttlMs))
      && (RowCoherent(t) && Presentable(t, ttlMs) ==>
            (r.NotShown? <==> !projection.CreateView? && t.mcpStatus.NeedsInput? && OpenRequests(requests) == map[]))
      && (r.Shown? ==> r.view.status == t.mcpStatus && r.view.ttlMs == ttlMs)
      && (r.Shown? ==>
            && r.view.statusMessage == t.statusMessage && r.view.substate == t.substate
            && r.view.cancellationRequested == t.cancelRequested && r.view.runtimeRevision == t.runtimeRevision
            && (r.view.providerRevision.Some? <==> t.adapterRevision > 0)
            && (r.view.providerRevision.Some? ==> r.view.providerRevision.value == t.adapterRevision))
      && (r.Shown? ==>
            && (r.view.resultType == Some("task") <==> projection.CreateView?)
            && (r.view.resultType == Some("complete") <==> projection.GetView?)
            && (r.view.resultType.None? <==> projection.NotificationView?))
      && (r.Shown? ==> (r.view.polls <==> t.mcpStatus.Working? || t.mcpStatus.NeedsInput?))
      && (r.Shown? && projection.CreateView? ==>
            r.view.result.None? && r.view.error.None? && r.view.inputRequests == map[])
      && (r.Shown? && !projection.CreateView? && RowCoherent(t) ==>
            r.view.result == t.result && r.view.error == t.error
            && r.view.inputRequests == if t.mcpStatus.NeedsInput? then OpenRequests(requests) else map[])
  {
    var ttlMs := if handleExpiresAt.None? then None else Some(handleExpiresAt.value - createdAt);
    if ttlMs.Some? && (ttlMs.value > MAX_SAFE_INTEGER || ttlMs.value < 0) {
      return NotShown(TtlSemanticsMismatch);
    }
    if t.runtimeRevision >= REVISION_BOUND {
      return NotShown(RuntimeRevisionInvalid);
    }
    var resultType := if projection.CreateView? then Some("task")
                      else if projection.GetView? then Some("complete") else None;
    var base := DetailedTask(
      resultType,
      t.mcpStatus, t.statusMessage, ttlMs, !t.mcpStatus.Completed? && !t.mcpStatus.Failed? && !t.mcpStatus.Cancelled?,
      t.runtimeRevision, if t.adapterRevision > 0 then Some(t.adapterRevision) else None,
      t.substate, t.cancelRequested, map[], None, None);
    if projection.CreateView? {
      return Shown(base);
    }
    if t.mcpStatus.NeedsInput? {
      var open := OpenRequests(requests);
      if open == map[] {
        return NotShown(InputRequestsMissing);
      }
      base := base.(inputRequests := open);
    } else if t.mcpStatus.Completed? {
      if t.result.None? {
        return NotShown(ResultMissing);
      }
      base := base.(result := t.result);
    } else if t.mcpStatus.Failed? {
      if t.error.None? {
        return NotShown(ErrorMissing);
      }
      base := base.(error := t.error);
    }
    return Shown(base);
  }

  /** Whatever happened to a task, a completed one has its result and a failed one its error. */
  lemma PayloadsAlwaysThere(ops: seq<TaskOp>)
    requires AllAdmissible(ops) && TaskRun(ops).task.Some?
    ensures var t := TaskRun(ops).task.value;
      && RowCoherent(t)
      && (t.mcpStatus.Completed? ==> t.result.Some? && t.error.None?)
      && (t.mcpStatus.Failed? ==> t.error.Some? && t.result.None?)
  {
    CoherentAlways(ops);
  }

  const ASK := Transition(InputRequired, NeedsInput, None, "?", None, None, false)

  const ASKED := map["k" := InputRequest("d", Open, None)]
  const ANSWER := map["k" := "yes"]
  const DELIVERY := Command(UpdateCommand, Pending, None, 0, 0, 0, "h", None, ANSWER)

  /** A live task that waits for input. */
  predicate Waits(d: TaskTable) {
    d.task.Some? && d.task.value.internalState.InputRequired? && d.task.value.mcpStatus.NeedsInput?
    && !Halting(d.task.value) && d.requests == ASKED
  }

  lemma AskStage()
    ensures var d := PublishAccepted(NO_TASK, "e", 1, ASK, [("k", "d")], false);
      Waits(d) && d.commands == [] && d.responses == map[]
  {
    var news := [("k", "d")];
    assert news[..|news| - 1] == [];
    assert PutRequests(map[], []) == Some(map[]);
    assert PutRequests(map[], news) == Some(ASKED);
  }

  lemma AcceptStage(d: TaskTable)
    requires Waits(d) && d.commands == [] && d.responses == map[]
    ensures var d' := AcceptResponses(d, ANSWER, true, {});
      Waits(d') && d'.commands == [] && d'.responses == map["k" := AcceptedResponse("yes", ResponsePending, None)]
  {
    assert NewlyAccepted(d, ANSWER) == ANSWER;
  }

  lemma PromoteStage(d: TaskTable)
    requires Waits(d) && d.commands == [] && d.responses == map["k" := AcceptedResponse("yes", ResponsePending, None)]
    ensures var d' := PromoteResponses(d, "h");
      Waits(d') && d'.commands == [DELIVERY] && d'.responses == map["k" := AcceptedResponse("yes", Assigned, Some(1))]
  {
    assert PendingResponses(d) == ANSWER;
    assert "k" in PendingResponses(d);
  }

  lemma ClaimStage(d: TaskTable)
    requires Waits(d) && d.commands == [DELIVERY]
    ensures var d' := ClaimDueCommand(d, 0, "w", 10);
      Waits(d') && d'.commands == [DELIVERY.(state := Claimed, owner := Some("w"), claimUntil := 10)]
  {
    assert SupersedeAllExpired(d.commands, false, 0) == [DELIVERY];
    var d' := d.(commands := [DELIVERY],
                 responses := IgnoreAssigned(d.responses, NewlyExhausted(d.commands, [DELIVERY])));
    assert Due(d', 0, 0);
    assert BestDue(d', 0, 0) == None;
    assert BestDue(d', 1, 0) == Some(0);
  }

  lemma AnswerStage(d: TaskTable)
    requires Waits(d) && d.commands == [DELIVERY.(state := Claimed, owner := Some("w"), claimUntil := 10)]
    ensures var d' := AcknowledgeUpdate(d, 0, "w");
      d'.task.Some? && d'.task.value.mcpStatus.NeedsInput? && OpenRequests(d'.requests) == map[]
  {
    assert AllOpen(d.requests, ANSWER.Keys);
    var d' := AcknowledgeUpdate(d, 0, "w");
    assert d'.requests == AnswerAll(ASKED, ANSWER);
  }

  lemma RunMore(ops: seq<TaskOp>, op: TaskOp)
    requires AllAdmissible(ops) && CarriesAdmissible(op)
    ensures TaskRun(ops + [op]) == TaskStep(TaskRun(ops), op)
    ensures AllAdmissible(ops + [op])
  {
    assert (ops + [op])[..|ops|] == ops;
  }

  lemma Asking() returns (ops: seq<TaskOp>)
    ensures AllAdmissible(ops)
    ensures Waits(TaskRun(ops)) && TaskRun(ops).commands == [] && TaskRun(ops).responses == map[]
  {
    var op := OpPublishAccepted("e", 1, ASK, [("k", "d")], false);
    AskStage();
    RunMore([], op);
    ops := [] + [op];
  }

  lemma DeliveryUnderWay() returns (ops: seq<TaskOp>)
    ensures AllAdmissible(ops) && Waits(TaskRun(ops)) && TaskRun(ops).commands == [DELIVERY]
    ensures TaskRun(ops).responses == map["k" := AcceptedResponse("yes", Assigned, Some(1))]
  {
    var start := Asking();
    var o2, o3 := OpAcceptResponses(ANSWER, true, {}), OpPromoteResponses("h");
    AcceptStage(TaskRun(start));
    RunMore(start, o2);
    PromoteStage(TaskRun(start + [o2]));
    RunMore(start + [o2], o3);
    ops := start + [o2] + [o3];
  }

  /**
   The remaining failure does occur: between the acknowledgement of the last
   answer and the next snapshot, the task still asks for input and no request is open.
   */
  lemma AnsweredTaskCannotBeShown() returns (ops: seq<TaskOp>)
    ensures AllAdmissible(ops) && TaskRun(ops).task.Some?
    ensures TaskRun(ops).task.value.mcpStatus.NeedsInput? && OpenRequests(TaskRun(ops).requests) == map[]
  {
    var start := DeliveryUnderWay();
    var o4, o5 := OpClaimDueCommand(0, "w", 10), OpAcknowledgeUpdate(0, "w");
    ClaimStage(TaskRun(start));
    RunMore(start, o4);
    AnswerStage(TaskRun(start + [o4]));
    RunMore(start + [o4], o5);
    ops := start + [o4] + [o5];
  }

  /* ---------- observation pages ---------- */

  datatype Page = Page(observations: seq<Observation>, nextCursor: Option<nat>, hasMore: bool)

  datatype PageResult = PageOk(page: Page) | PageSizeInvalid | PageCursorInvalid

  /** The newest `k` rows below the cursor, newest first. */
  function Newest(rows: seq<Observation>, before: Option<int>, k: nat): seq<Observation> {
    if rows == [] || k == 0 then []
    else
      var last := rows[|rows| - 1];
      if before.None? || last.revision < before.value
      then [last] + Newest(rows[..|rows| - 1], before, k - 1)
      else Newest(rows[..|rows| - 1], before, k)
  }

  /** The rows of a page, of which one more than fits was asked for. */
  function PageOf(found: seq<Observation>, limit: nat): Page
    requires limit > 0
  {
    if |found| > limit then Page(found[..limit], Some(found[limit - 1].revision), true) else Page(found, None, false)
  }

  function ListObservationPage(rows: seq<Observation>, before: Option<int>, limit: int): PageResult {
    if limit < 1 || limit > 100 then PageSizeInvalid
    else if before.Some? && (before.value < 1 || before.value > MAX_SAFE_INTEGER) then PageCursorInvalid
    else
      PageOk(PageOf(Newest(rows, before, limit + 1), limit))
  }

  ghost predicate Dense(rows: seq<Observation>) {
    forall i :: 0 <= i < |rows| ==> rows[i].revision == i + 1
  }

  function Reversed(rows: seq<Observation>): seq<Observation> {
    if rows == [] then [] else [rows[|rows| - 1]] + Reversed(rows[..|rows| - 1])
  }

  lemma {:induction false} ReversedAppend(a: seq<Observation>, b: seq<Observation>)
    ensures Reversed(a + b) == Reversed(b) + Reversed(a)
  {
    if b == [] {
      assert a + b == a;
    } else {
      assert (a + b)[..|a + b| - 1] == a + b[..|b| - 1];
      ReversedAppend(a, b[..|b| - 1]);
    }
  }

  /** How many rows a cursor leaves to see. */
  function Below(rows: seq<Observation>, before: Option<int>): nat {
    if before.None? || before.value > |rows| then |rows| else if before.value < 1 then 0 else before.value - 1
  }

  /** Where the newest `k` of the first `b` rows begin. */
  function From(b: nat, k: nat): nat {
    if b > k then b - k else 0
  }

  lemma ReversedStep(rows: seq<Observation>, f: nat, n: nat)
    requires f <= n < |rows|
    ensures Reversed(rows[f..n + 1]) == [rows[n]] + Reversed(rows[..n][f..n])
  {
    var block := rows[f..n + 1];
    assert block[|block| - 1] == rows[n] && block[..|block| - 1] == rows[..n][f..n];
  }

  lemma PrefixSlice(rows: seq<Observation>, f: nat, b: nat, n: nat)
    requires f <= b <= n <= |rows|
    ensures rows[..n][f..b] == rows[f..b]
  {
  }

  /** What the last row means for how many rows are below the cursor. */
  lemma BelowFront(rows: seq<Observation>, before: Option<int>)
    requires Dense(rows) && rows != []
    ensures var n := |rows| - 1;
      && Dense(rows[..n])
      && if before.None? || rows[n].revision < before.value
         then Below(rows, before) == n + 1 && Below(rows[..n], before) == n
         else Below(rows, before) == Below(rows[..n], before) <= n
  {
    assert rows[|rows| - 1].revision == |rows|;
  }

  lemma {:induction false} NewestIsSlice(rows: seq<Observation>, before: Option<int>, k: nat)
    requires Dense(rows)
    ensures Newest(rows, before, k) == Reversed(rows[From(Below(rows, before), k)..Below(rows, before)])
  {
    var b := Below(rows, before);
    if rows != [] && k > 0 {
      var n := |rows| - 1;
      BelowFront(rows, before);
      if before.None? || rows[n].revision < before.value {
        NewestIsSlice(rows[..n], before, k - 1);
        ReversedStep(rows, From(b, k), n);
      } else {
        NewestIsSlice(rows[..n], before, k);
        PrefixSlice(rows, From(b, k), b, n);
      }
    }
  }

  lemma {:induction false} ReversedLast(rows: seq<Observation>)
    requires rows != []
    ensures |Reversed(rows)| == |rows| && Reversed(rows)[|rows| - 1] == rows[0]
  {
    if |rows| > 1 {
      ReversedLast(rows[..|rows| - 1]);
    }
  }

  lemma ReversedHead(rows: seq<Observation>, from: nat, b: nat)
    requires 0 < from < b <= |rows|
    ensures Reversed(rows[from - 1..b]) == Reversed(rows[from..b]) + [rows[from - 1]]
  {
    var one := [rows[from - 1]];
    assert rows[from - 1..b] == one + rows[from..b];
    ReversedAppend(one, rows[from..b]);
    assert one[..0] == [];
  }

  lemma PageRefusedExactly(rows: seq<Observation>, before: Option<int>, limit: int)
    ensures var r := ListObservationPage(rows, before, limit);
      && (r.PageSizeInvalid? <==> limit < 1 || limit > 100)
      && (r.PageCursorInvalid? <==>
            1 <= limit <= 100 && before.Some? && (before.value < 1 || before.value > MAX_SAFE_INTEGER))
  {
  }

  /** A page is the next block of the history, and its cursor continues right below it. */
  lemma PageIsBlock(rows: seq<Observation>, before: Option<int>, limit: int)
    requires Dense(rows) && 1 <= limit <= 100
    requires before.Some? ==> 1 <= before.value <= MAX_SAFE_INTEGER
    ensures var b := Below(rows, before);
      var from := From(b, limit);
      ListObservationPage(rows, before, limit)
      == PageOk(Page(Reversed(rows[from..b]), if b > limit then Some(from + 1) else None, b > limit))
  {
    NewestIsSlice(rows, before, limit + 1);
    PageOfFound(rows, before, limit, Below(rows, before));
  }

  lemma PageOfFound(rows: seq<Observation>, before: Option<int>, limit: int, b: nat)
    requires 1 <= limit <= 100 && b <= |rows| && (before.Some? ==> 1 <= before.value <= MAX_SAFE_INTEGER)
    requires Newest(rows, before, limit + 1) == Reversed(rows[From(b, limit + 1)..b])
    requires b > limit ==> rows[b - limit].revision == b - limit + 1
    ensures ListObservationPage(rows, before, limit)
         == PageOk(Page(Reversed(rows[From(b, limit)..b]),
                        if b > limit then Some(From(b, limit) + 1) else None, b > limit))
  {
    if b > limit {
      FoundMore(rows, b, limit);
    } else if b > 0 {
      ReversedLast(rows[0..b]);
    }
    assert ListObservationPage(rows, before, limit) == PageOk(PageOf(Newest(rows, before, limit + 1), limit));
  }

  /** One row more than the page holds was found. */
  lemma FoundMore(rows: seq<Observation>, b: nat, limit: nat)
    requires 1 <= limit < b <= |rows|
    ensures var found := Reversed(rows[b - limit - 1..b]);
      && |found| == limit + 1 && found[..limit] == Reversed(rows[b - limit..b])
      && found[limit - 1] == rows[b - limit]
  {
    ReversedHead(rows, b - limit, b);
    ReversedLast(rows[b - limit..b]);
  }

  /** A client's walk: page `k` is read from the history as it is by then. */
  ghost predicate Growing(history: nat -> seq<Observation>) {
    && (forall k: nat :: Dense(history(k)))
    && forall j: nat, k: nat :: j <= k ==> history(j) <= history(k)
  }

  predicate CursorOk(before: Option<int>) {
    before.Some? ==> 1 <= before.value <= MAX_SAFE_INTEGER
  }

  /** Follow `nextCursor` until there is none; the first page has no cursor. */
  ghost function Walk(
      history: nat -> seq<Observation>, limits: nat -> int, k: nat, before: Option<int>): seq<Observation>
    requires Growing(history) && forall i: nat :: 1 <= limits(i) <= 100
    requires CursorOk(before)
    requires forall i: nat :: |history(i)| < MAX_SAFE_INTEGER
    decreases Below(history(k), before)
  {
    PageIsBlock(history(k), before, limits(k));
    var page := ListObservationPage(history(k), before, limits(k)).page;
    assert history(k) <= history(k + 1);
    if page.nextCursor.None? then page.observations
    else page.observations + Walk(history, limits, k + 1, page.nextCursor)
  }

  lemma JoinBlocks(rows: seq<Observation>, later: seq<Observation>, from: nat, b: nat)
    requires from <= b <= |rows| && rows <= later
    ensures Reversed(rows[from..b]) + Reversed(later[..from]) == Reversed(rows[..b])
  {
    assert later[..from] == rows[..from];
    assert rows[..b] == rows[..from] + rows[from..b];
    ReversedAppend(rows[..from], rows[from..b]);
  }

  lemma {:induction false} WalkVisitsBelow(
      history: nat -> seq<Observation>, limits: nat -> int, k: nat, before: Option<int>)
    requires Growing(history) && forall i: nat :: 1 <= limits(i) <= 100
    requires CursorOk(before) && forall i: nat :: |history(i)| < MAX_SAFE_INTEGER
    ensures Walk(history, limits, k, before) == Reversed(history(k)[..Below(history(k), before)])
    decreases Below(history(k), before)
  {
    var rows, b := history(k), Below(history(k), before);
    PageIsBlock(rows, before, limits(k));
    if b > limits(k) {
      var from := b - limits(k);
      assert history(k) <= history(k + 1);
      assert Below(history(k + 1), Some(from + 1)) == from;
      WalkVisitsBelow(history, limits, k + 1, Some(from + 1));
      JoinBlocks(rows, history(k + 1), from, b);
    } else {
      assert rows[0..b] == rows[..b];
    }
  }

  /**
   Following `nextCursor` visits every observation the task had at the start, once,
   newest first, whatever the page sizes and whatever the task does in between.
   */
  lemma WalkVisitsAll(history: nat -> seq<Observation>, limits: nat -> int)
    requires Growing(history) && forall i: nat :: 1 <= limits(i) <= 100
    requires forall i: nat :: |history(i)| < MAX_SAFE_INTEGER
    ensures Walk(history, limits, 0, None) == Reversed(history(0))
  {
    WalkVisitsBelow(history, limits, 0, None);
    assert history(0)[..|history(0)|] == history(0);
  }

  /** A task's history is one that pages can be walked through, at any points of any run. */
  lemma HistoriesGrow(ops: seq<TaskOp>, more: seq<TaskOp>)
    requires AllAdmissible(ops) && AllAdmissible(more)
    ensures Dense(TaskRun(ops).observations) && TaskRun(ops).observations <= TaskRun(ops + more).observations
  {
    CoherentAlways(ops);
    NothingIsUndone(ops, more);
  }
}
