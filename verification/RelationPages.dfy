/** The tasks related to an event: a frozen projection, read page by page. */
module RelationPages {
  import opened Basics

  /** A UUID; its text and its number are in the same order. */
  type TaskId = nat

  predicate Ascending(ids: seq<TaskId>) {
    forall i, j :: 0 <= i < j < |ids| ==> ids[i] < ids[j]
  }

  /* ---------- the projection ---------- */

  function InsertId(id: TaskId, ids: seq<TaskId>): seq<TaskId> {
    if ids == [] || id < ids[0] then [id] + ids
    else if id == ids[0] then ids
    else [ids[0]] + InsertId(id, ids[1..])
  }

  /** Each id once, sorted. */
  function Projected(ids: seq<TaskId>): seq<TaskId> {
    if ids == [] then [] else InsertId(ids[|ids| - 1], Projected(ids[..|ids| - 1]))
  }

  lemma {:induction false} InsertIdHolds(id: TaskId, ids: seq<TaskId>, x: TaskId)
    ensures x in InsertId(id, ids) <==> x == id || x in ids
  {
    if ids != [] && id > ids[0] {
      InsertIdHolds(id, ids[1..], x);
      assert ids == [ids[0]] + ids[1..];
    }
  }

  lemma {:induction false} InsertIdAscends(id: TaskId, ids: seq<TaskId>)
    requires Ascending(ids)
    ensures Ascending(InsertId(id, ids))
  {
    if ids != [] && id > ids[0] {
      InsertIdAscends(id, ids[1..]);
      var rest := InsertId(id, ids[1..]);
      forall i | 0 <= i < |rest|
        ensures ids[0] < rest[i]
      {
        InsertIdHolds(id, ids[1..], rest[i]);
      }
    }
  }

  lemma {:induction false} ProjectedHolds(ids: seq<TaskId>)
    ensures Ascending(Projected(ids))
    ensures forall x :: x in Projected(ids) <==> x in ids
  {
    if ids != [] {
      ProjectedHolds(ids[..|ids| - 1]);
      var front, last := ids[..|ids| - 1], ids[|ids| - 1];
      InsertIdAscends(last, Projected(front));
      assert ids == front + [last];
      forall x
        ensures x in Projected(ids) <==> x in ids
      {
        InsertIdHolds(last, Projected(front), x);
      }
    }
  }

  lemma {:induction false} InsertLast(id: TaskId, ids: seq<TaskId>)
    requires forall i :: 0 <= i < |ids| ==> ids[i] < id
    ensures InsertId(id, ids) == ids + [id]
  {
    if ids != [] {
      InsertLast(id, ids[1..]);
      assert ids == [ids[0]] + ids[1..];
    }
  }

  /** The ids an event is authorized for come sorted, so projecting them changes nothing. */
  lemma {:induction false} ProjectedSorted(ids: seq<TaskId>)
    requires Ascending(ids)
    ensures Projected(ids) == ids
  {
    if ids != [] {
      ProjectedSorted(ids[..|ids| - 1]);
      InsertLast(ids[|ids| - 1], ids[..|ids| - 1]);
      assert ids == ids[..|ids| - 1] + [ids[|ids| - 1]];
    }
  }

  /* ---------- pages ---------- */

  datatype Page = Page(items: seq<TaskId>, total: nat, nextAfterTaskId: Option<TaskId>)

  datatype PageResult = PageOk(page: Page) | AnchorInvalid

  /** The rows beyond the anchor, in the order of the table. */
  function Beyond(ids: seq<TaskId>, after: Option<TaskId>): seq<TaskId> {
    if ids == [] then []
    else
      var last := ids[|ids| - 1];
      Beyond(ids[..|ids| - 1], after) + (if after.None? || last > after.value then [last] else [])
  }

  function Limited(found: seq<TaskId>, limit: nat): seq<TaskId> {
    if |found| > limit then found[..limit] else found
  }

  /** The page of these items; the cursor is the last of them if anything lies beyond it. */
  function PageOf(ids: seq<TaskId>, items: seq<TaskId>): Page {
    var hasMore := items != [] && Beyond(ids, Some(items[|items| - 1])) != [];
    Page(items, |ids|, if hasMore then Some(items[|items| - 1]) else None)
  }

  function IdsPage(ids: seq<TaskId>, after: Option<TaskId>, limit: int): PageResult {
    if limit < 1 || limit > 256 then AnchorInvalid
    else if after.Some? && after.value !in ids then AnchorInvalid
    else PageOk(PageOf(ids, Limited(Beyond(ids, after), limit)))
  }

  /** How many ids lie at or before the anchor. */
  ghost predicate Reached(ids: seq<TaskId>, after: Option<TaskId>, n: nat) {
    && n <= |ids|
    && (after.None? ==> n == 0)
    && (after.Some? ==> n > 0 && ids[n - 1] == after.value)
  }

  lemma {:induction false} BeyondIsRest(ids: seq<TaskId>, after: Option<TaskId>, n: nat)
    requires Ascending(ids) && Reached(ids, after, n)
    ensures Beyond(ids, after) == ids[n..]
  {
    if ids != [] {
      var front, last := ids[..|ids| - 1], ids[|ids| - 1];
      if n < |ids| {
        BeyondIsRest(front, after, n);
        assert ids[n..] == front[n..] + [last];
      } else {
        BeyondNothing(ids, after.value);
      }
    }
  }

  lemma {:induction false} BeyondNothing(ids: seq<TaskId>, anchor: TaskId)
    requires forall i :: 0 <= i < |ids| ==> ids[i] <= anchor
    ensures Beyond(ids, Some(anchor)) == []
  {
    if ids != [] {
      BeyondNothing(ids[..|ids| - 1], anchor);
    }
  }

  function End(n: nat, limit: nat, size: nat): nat {
    if n + limit < size then n + limit else size
  }

  lemma LimitedIsBlock(ids: seq<TaskId>, n: nat, limit: nat)
    requires n <= |ids|
    ensures Limited(ids[n..], limit) == ids[n..End(n, limit, |ids|)]
  {
  }

  /** More is left behind a block exactly if it does not end the projection. */
  lemma MoreBehind(ids: seq<TaskId>, m: nat)
    requires Ascending(ids) && 0 < m <= |ids|
    ensures Beyond(ids, Some(ids[m - 1])) != [] <==> m < |ids|
  {
    BeyondIsRest(ids, Some(ids[m - 1]), m);
  }

  /** A page is the next block of the projection, and its cursor is there exactly if more is left. */
  lemma PageIsBlock(ids: seq<TaskId>, after: Option<TaskId>, n: nat, limit: int)
    requires Ascending(ids) && Reached(ids, after, n) && 1 <= limit <= 256
    ensures var m := End(n, limit, |ids|);
      IdsPage(ids, after, limit) == PageOk(Page(ids[n..m], |ids|, if n < m < |ids| then Some(ids[m - 1]) else None))
  {
    BeyondIsRest(ids, after, n);
    LimitedIsBlock(ids, n, limit);
    PageFrom(ids, after, limit, ids[n..End(n, limit, |ids|)]);
    BlockPage(ids, n, End(n, limit, |ids|));
  }

  lemma PageFrom(ids: seq<TaskId>, after: Option<TaskId>, limit: int, items: seq<TaskId>)
    requires 1 <= limit <= 256 && (after.Some? ==> after.value in ids)
    requires Limited(Beyond(ids, after), limit) == items
    ensures IdsPage(ids, after, limit) == PageOk(PageOf(ids, items))
  {
  }

  lemma BlockPage(ids: seq<TaskId>, n: nat, m: nat)
    requires Ascending(ids) && n <= m <= |ids|
    ensures PageOf(ids, ids[n..m]) == Page(ids[n..m], |ids|, if n < m < |ids| then Some(ids[m - 1]) else None)
  {
    if n < m {
      assert ids[n..m][m - n - 1] == ids[m - 1];
      MoreBehind(ids, m);
    }
  }

  /** Follow `nextAfterTaskId` until there is none. */
  ghost function Walk(ids: seq<TaskId>, limits: nat -> int, k: nat, after: Option<TaskId>, n: nat): seq<Page>
    requires Ascending(ids) && Reached(ids, after, n) && forall i: nat :: 1 <= limits(i) <= 256
    decreases |ids| - n
  {
    PageIsBlock(ids, after, n, limits(k));
    var page := IdsPage(ids, after, limits(k)).page;
    if page.nextAfterTaskId.None? then [page]
    else [page] + Walk(ids, limits, k + 1, page.nextAfterTaskId, End(n, limits(k), |ids|))
  }

  function Items(pages: seq<Page>): seq<TaskId> {
    if pages == [] then [] else pages[0].items + Items(pages[1..])
  }

  lemma ItemsCons(page: Page, rest: seq<Page>)
    ensures Items([page] + rest) == page.items + Items(rest)
  {
    assert ([page] + rest)[1..] == rest;
  }

  predicate AllAnnounce(pages: seq<Page>, total: nat) {
    forall i :: 0 <= i < |pages| ==> pages[i].total == total
  }

  /** The first page of a walk, and the walk behind it. */
  lemma WalkSplits(ids: seq<TaskId>, limits: nat -> int, k: nat, after: Option<TaskId>, n: nat)
    returns (page: Page, m: nat)
    requires Ascending(ids) && Reached(ids, after, n) && forall i: nat :: 1 <= limits(i) <= 256
    ensures n <= m <= |ids| && page.items == ids[n..m] && page.total == |ids|
    ensures page.nextAfterTaskId.Some? ==> n < m && Reached(ids, page.nextAfterTaskId, m)
    ensures page.nextAfterTaskId.None? ==> m == |ids| && Walk(ids, limits, k, after, n) == [page] + []
    ensures page.nextAfterTaskId.Some? ==>
              Walk(ids, limits, k, after, n) == [page] + Walk(ids, limits, k + 1, page.nextAfterTaskId, m)
  {
    PageIsBlock(ids, after, n, limits(k));
    page := IdsPage(ids, after, limits(k)).page;
    m := End(n, limits(k), |ids|);
  }

  lemma PageBefore(ids: seq<TaskId>, n: nat, m: nat, page: Page, rest: seq<Page>)
    requires n <= m <= |ids| && page.items == ids[n..m] && page.total == |ids|
    requires Items(rest) == ids[m..] && AllAnnounce(rest, |ids|)
    ensures Items([page] + rest) == ids[n..] && AllAnnounce([page] + rest, |ids|)
  {
    ItemsCons(page, rest);
    assert ids[n..] == ids[n..m] + ids[m..];
  }

  lemma {:induction false} WalkGivesRest(ids: seq<TaskId>, limits: nat -> int, k: nat, after: Option<TaskId>, n: nat)
    requires Ascending(ids) && Reached(ids, after, n) && forall i: nat :: 1 <= limits(i) <= 256
    ensures Items(Walk(ids, limits, k, after, n)) == ids[n..]
    ensures AllAnnounce(Walk(ids, limits, k, after, n), |ids|)
    decreases |ids| - n
  {
    var page, m := WalkSplits(ids, limits, k, after, n);
    if page.nextAfterTaskId.Some? {
      WalkGivesRest(ids, limits, k + 1, page.nextAfterTaskId, m);
      PageBefore(ids, n, m, page, Walk(ids, limits, k + 1, page.nextAfterTaskId, m));
    } else {
      PageBefore(ids, n, m, page, []);
    }
  }

  /**
   Walking the pages gives every projected id once, in ascending order, as many
   as the total each page announces, whatever the page sizes.
   */
  lemma WalkGivesAll(ids: seq<TaskId>, limits: nat -> int)
    requires forall i: nat :: 1 <= limits(i) <= 256
    ensures var p := Projected(ids);
      Ascending(p) && Items(Walk(p, limits, 0, None, 0)) == p
    ensures var p := Projected(ids);
      AllAnnounce(Walk(p, limits, 0, None, 0), |Items(Walk(p, limits, 0, None, 0))|)
    ensures forall x :: x in Projected(ids) <==> x in ids
  {
    ProjectedHolds(ids);
    WalkGivesRest(Projected(ids), limits, 0, None, 0);
  }

  const MAX_RELATED := 256

  datatype Related = Related(ids: seq<TaskId>, count: nat, truncated: bool)

  /** What a notification says about the related tasks. */
  function NotificationRelated(related: seq<TaskId>): Related {
    Related(if |related| > MAX_RELATED then related[..MAX_RELATED] else related, |related|, |related| > MAX_RELATED)
  }

  /** The list of a notification is the beginning of the walk; its count is the walk's length. */
  lemma NotificationIsPrefix(related: seq<TaskId>, limits: nat -> int)
    requires Ascending(related) && forall i: nat :: 1 <= limits(i) <= 256
    ensures Ascending(Projected(related))
    ensures var walked := Items(Walk(Projected(related), limits, 0, None, 0));
      && NotificationRelated(related).ids <= walked
      && NotificationRelated(related).count == |walked|
      && (NotificationRelated(related).truncated <==> NotificationRelated(related).ids != walked)
  {
    ProjectedSorted(related);
    WalkGivesAll(related, limits);
  }

  /* ---------- the whole request ---------- */

  /** Which event of which stream of which provider. */
  datatype Subject = Subject(providerId: Id, streamId: Id, eventId: Id)

  datatype Scope = Scope(authorizationScopeHash: Id, executionMode: Id, simulationId: Option<Id>)

  /** A stored projection; a relation hash is the list it identifies. */
  datatype Projection = Projection(
    subject: Subject, scope: Scope, expiresAt: Instant,
    candidates: seq<TaskId>, projected: seq<TaskId>, items: seq<TaskId>)

  function CreateRelationProjection(
      subject: Subject, scope: Scope, candidates: seq<TaskId>, related: seq<TaskId>, expiresAt: Instant): Projection
  {
    Projection(subject, scope, expiresAt, candidates, related, Projected(related))
  }

  /** The event as it is when the page is asked for. */
  datatype EventNow = EventNow(candidates: seq<TaskId>, expiresAt: Instant)

  datatype PageError = CursorInvalid | CursorExpired | EventNotFound | AuthorizationMismatch | ProjectionStale

  datatype PageReply = Served(page: Page) | Refused(error: PageError)

  function RelationPage(
      stored: Option<Projection>, event: EventNow, subject: Subject, scope: Scope,
      after: Option<TaskId>, limit: int, now: Instant, later: Instant): PageReply
  {
    if limit < 1 || limit > 256 || stored.None? then Refused(CursorInvalid)
    else
      var p := stored.value;
      if p.expiresAt <= now then Refused(CursorExpired)
      else if event.expiresAt <= later then Refused(EventNotFound)
      else if p.subject != subject then Refused(CursorInvalid)
      else if p.scope != scope then Refused(AuthorizationMismatch)
      else if event.candidates != p.candidates || p.items != p.projected then Refused(ProjectionStale)
      else
        match IdsPage(p.items, after, limit)
        case AnchorInvalid => Refused(CursorInvalid)
        case PageOk(page) => Served(page)
  }

  /** A page is served exactly if nothing speaks against it, and then it is the page of the projected ids. */
  lemma RefusedExactly(
      stored: Option<Projection>, event: EventNow, subject: Subject, scope: Scope,
      after: Option<TaskId>, limit: int, now: Instant, later: Instant)
    ensures var r := RelationPage(stored, event, subject, scope, after, limit, now, later);
      && (r.Served? <==>
            && 1 <= limit <= 256 && stored.Some?
            && stored.value.expiresAt > now && event.expiresAt > later
            && stored.value.subject == subject && stored.value.scope == scope
            && event.candidates == stored.value.candidates && stored.value.items == stored.value.projected
            && (after.Some? ==> after.value in stored.value.items))
      && (r.Served? ==> IdsPage(stored.value.items, after, limit) == PageOk(r.page))
      && (r == Refused(CursorExpired) <==> Found(stored, limit) && stored.value.expiresAt <= now)
      && (r == Refused(EventNotFound) <==>
            Found(stored, limit) && stored.value.expiresAt > now && event.expiresAt <= later)
      && (r == Refused(AuthorizationMismatch) <==>
            && Found(stored, limit) && stored.value.expiresAt > now && event.expiresAt > later
            && stored.value.subject == subject && stored.value.scope != scope)
      && (r == Refused(ProjectionStale) <==>
            && Found(stored, limit) && stored.value.expiresAt > now && event.expiresAt > later
            && stored.value.subject == subject && stored.value.scope == scope
            && (event.candidates != stored.value.candidates || stored.value.items != stored.value.projected))
  {
  }

  /** The page size is from 1 to 256 and the projection is stored. */
  predicate Found(stored: Option<Projection>, limit: int) {
    1 <= limit <= 256 && stored.Some?
  }

  /**
   A projection made of the sorted ids an event is authorized for serves every
   page of the walk to the same subject and scope until it or the event expires
   or the candidates change.
   */
  lemma ProjectionServes(
      subject: Subject, scope: Scope, candidates: seq<TaskId>, related: seq<TaskId>, expiresAt: Instant,
      event: EventNow, after: Option<TaskId>, n: nat, limit: int, now: Instant, later: Instant)
    requires Ascending(related) && Reached(related, after, n) && 1 <= limit <= 256
    requires now < expiresAt && later < event.expiresAt && event.candidates == candidates
    ensures var stored := CreateRelationProjection(subject, scope, candidates, related, expiresAt);
      var m := End(n, limit, |related|);
      RelationPage(Some(stored), event, subject, scope, after, limit, now, later)
      == Served(Page(related[n..m], |related|, if n < m < |related| then Some(related[m - 1]) else None))
  {
    ProjectedSorted(related);
    PageIsBlock(related, after, n, limit);
  }
}
