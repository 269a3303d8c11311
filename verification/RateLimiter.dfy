/** A fixed-window rate limiter that holds a bounded number of windows. */
module RateLimiter {
  import opened Basics

  datatype Window = Window(key: Id, startedAt: int, count: nat)

  /** The windows in the order they were opened, one per key. */
  type Windows = seq<Window>

  datatype Config = Config(limit: int, windowMs: int, maxKeys: int)

  datatype Decision = Decision(allowed: bool, remaining: int)

  predicate OnePerKey(ws: Windows) {
    forall i, j :: 0 <= i < j < |ws| ==> ws[i].key != ws[j].key
  }

  /* ---------- one call ---------- */

  predicate IsOver(c: Config, w: Window, now: int) {
    now - w.startedAt >= c.windowMs
  }

  function Pruned(c: Config, ws: Windows, now: int): Windows {
    if ws == [] then []
    else
      var last := ws[|ws| - 1];
      Pruned(c, ws[..|ws| - 1], now) + (if IsOver(c, last, now) then [] else [last])
  }

  /** Position of the first of the oldest among the first `n`. */
  function Oldest(ws: Windows, n: nat): (r: nat)
    requires 0 < n <= |ws|
    ensures r < n
    ensures forall i :: 0 <= i < n ==> ws[r].startedAt <= ws[i].startedAt
    ensures forall i :: 0 <= i < r ==> ws[r].startedAt < ws[i].startedAt
  {
    if n == 1 then 0
    else
      var r := Oldest(ws, n - 1);
      if ws[n - 1].startedAt < ws[r].startedAt then n - 1 else r
  }

  function Without(ws: Windows, i: nat): Windows
    requires i < |ws|
  {
    ws[..i] + ws[i + 1..]
  }

  function Evicted(ws: Windows): Windows {
    if ws == [] then [] else Without(ws, Oldest(ws, |ws|))
  }

  /** Position of a key's window among the first `n`, or `n`. */
  function Position(ws: Windows, key: Id, n: nat): (r: nat)
    requires n <= |ws|
    ensures r <= n && (r < n ==> ws[r].key == key)
    ensures forall i :: 0 <= i < r ==> ws[i].key != key
  {
    if n == 0 then 0
    else
      var r := Position(ws, key, n - 1);
      if r < n - 1 || ws[n - 1].key == key then r else n
  }

  /** The key has a window now. */
  function Open(c: Config, ws: Windows, key: Id, now: int): (r: Windows)
    ensures Position(r, key, |r|) < |r|
  {
    var pruned := Pruned(c, ws, now);
    if Position(pruned, key, |pruned|) < |pruned| then pruned
    else
      var r := (if |pruned| >= c.maxKeys then Evicted(pruned) else pruned) + [Window(key, now, 0)];
      assert r[|r| - 1].key == key;
      r
  }

  function Counted(ws: Windows, i: nat): Windows
    requires i < |ws|
  {
    ws[i := ws[i].(count := ws[i].count + 1)]
  }

  function CountedCall(c: Config, ws: Windows, key: Id): (Windows, Decision)
    requires Position(ws, key, |ws|) < |ws|
  {
    var i := Position(ws, key, |ws|);
    var ws' := Counted(ws, i);
    (ws', Decision(ws'[i].count <= c.limit, if c.limit - ws'[i].count > 0 then c.limit - ws'[i].count else 0))
  }

  function Consume(c: Config, ws: Windows, key: Id, now: int): (Windows, Decision) {
    CountedCall(c, Open(c, ws, key, now), key)
  }

  /* ---------- the limiter as it updates its windows ---------- */

  class BoundedRateLimiter {
    const config: Config
    var windows: Windows

    constructor (limit: int, windowMs: int, maxKeys: int)
      ensures config == Config(limit, windowMs, maxKeys) && windows == []
    {
      config := Config(limit, windowMs, maxKeys);
      windows := [];
    }

    method Prune(now: int)
      modifies this
      ensures windows == Pruned(config, old(windows), now)
    {
      var kept := [];
      var i := 0;
      while i < |windows|
        invariant 0 <= i <= |windows|
        invariant windows == old(windows)
        invariant kept == Pruned(config, windows[..i], now)
      {
        assert windows[..i + 1][..i] == windows[..i];
        if now - windows[i].startedAt < config.windowMs {
          kept := kept + [windows[i]];
        }
        i := i + 1;
      }
      assert windows[..i] == windows;
      windows := kept;
    }

    method EvictOldest()
      modifies this
      ensures windows == Evicted(old(windows))
    {
      if windows == [] {
        return;
      }
      var oldest := 0;
      var i := 1;
      while i < |windows|
        invariant 1 <= i <= |windows| && windows == old(windows)
        invariant oldest == Oldest(windows, i)
      {
        if windows[i].startedAt < windows[oldest].startedAt {
          oldest := i;
        }
        i := i + 1;
      }
      windows := windows[..oldest] + windows[oldest + 1..];
    }

    /** A new window, after making room for it. */
    method OpenWindow(key: Id, now: int)
      modifies this
      ensures windows
           == (if |old(windows)| >= config.maxKeys then Evicted(old(windows)) else old(windows)) + [Window(key, now, 0)]
    {
      if |windows| >= config.maxKeys {
        EvictOldest();
      }
      windows := windows + [Window(key, now, 0)];
    }

    method Count(key: Id) returns (d: Decision)
      requires Position(windows, key, |windows|) < |windows|
      modifies this
      ensures (windows, d) == CountedCall(config, old(windows), key)
    {
      var i := Position(windows, key, |windows|);
      windows := windows[i := windows[i].(count := windows[i].count + 1)];
      var allowed := windows[i].count <= config.limit;
      var remaining := config.limit - windows[i].count;
      if remaining < 0 {
        remaining := 0;
      }
      return Decision(allowed, remaining);
    }

    method ConsumeOne(key: Id, now: int) returns (d: Decision)
      modifies this
      ensures (windows, d) == Consume(config, old(windows), key, now)
    {
      Prune(now);
      if Position(windows, key, |windows|) == |windows| {
        OpenWindow(key, now);
      }
      assert windows == Open(config, old(windows), key, now);
      d := Count(key);
    }
  }

  /* ---------- what a call does to each window ---------- */

  function Find(ws: Windows, key: Id): Option<Window> {
    var i := Position(ws, key, |ws|);
    if i < |ws| then Some(ws[i]) else None
  }

  lemma FindExact(ws: Windows, key: Id, i: nat)
    requires OnePerKey(ws) && i < |ws| && ws[i].key == key
    ensures Find(ws, key) == Some(ws[i])
  {
  }

  lemma FindNone(ws: Windows, key: Id)
    requires forall i :: 0 <= i < |ws| ==> ws[i].key != key
    ensures Find(ws, key) == None
  {
  }

  /** Windows kept are those of before that are not over, in the same order. */
  lemma {:induction false} PrunedHolds(c: Config, ws: Windows, now: int)
    requires OnePerKey(ws)
    ensures OnePerKey(Pruned(c, ws, now)) && |Pruned(c, ws, now)| <= |ws|
    ensures forall w :: w in Pruned(c, ws, now) <==> w in ws && !IsOver(c, w, now)
  {
    if ws != [] {
      var front, last := ws[..|ws| - 1], ws[|ws| - 1];
      PrunedHolds(c, front, now);
      var p := Pruned(c, front, now);
      assert ws == front + [last];
      forall i | 0 <= i < |p|
        ensures p[i].key != last.key
      {
        assert p[i] in front;
        var j :| 0 <= j < |front| && front[j] == p[i];
        assert ws[j].key != ws[|ws| - 1].key;
      }
    }
  }

  lemma PrunedFind(c: Config, ws: Windows, now: int, key: Id)
    requires OnePerKey(ws)
    ensures Find(Pruned(c, ws, now), key)
            == if Find(ws, key).Some? && !IsOver(c, Find(ws, key).value, now) then Find(ws, key) else None
  {
    PrunedHolds(c, ws, now);
    var p := Pruned(c, ws, now);
    if Find(p, key).Some? {
      var w := Find(p, key).value;
      assert w in p;
      var j :| 0 <= j < |ws| && ws[j] == w;
      FindExact(ws, key, j);
    }
    if Find(ws, key).Some? && !IsOver(c, Find(ws, key).value, now) {
      var w := Find(ws, key).value;
      assert w in p;
      var j :| 0 <= j < |p| && p[j] == w;
      FindExact(p, key, j);
    }
  }

  lemma WithoutFind(ws: Windows, i: nat, key: Id)
    requires OnePerKey(ws) && i < |ws|
    ensures OnePerKey(Without(ws, i)) && |Without(ws, i)| == |ws| - 1
    ensures Find(Without(ws, i), key) == if ws[i].key == key then None else Find(ws, key)
  {
    var r := Without(ws, i);
    assert forall j :: 0 <= j < |r| ==> r[j] == ws[if j < i then j else j + 1];
    if ws[i].key == key {
      FindNone(r, key);
    } else if Find(ws, key).Some? {
      var j := Position(ws, key, |ws|);
      FindExact(r, key, if j < i then j else j - 1);
    } else {
      FindNone(r, key);
    }
  }

  /** The key whose window the call throws out to make room. */
  function EvictedKey(c: Config, ws: Windows, key: Id, now: int): Option<Id> {
    var pruned := Pruned(c, ws, now);
    if Find(pruned, key).None? && |pruned| >= c.maxKeys && pruned != [] then Some(pruned[Oldest(pruned, |pruned|)].key)
    else None
  }

  /** The window of `k` after room was made for `key`. */
  lemma OpenFind(c: Config, ws: Windows, key: Id, now: int, k: Id)
    requires OnePerKey(ws)
    ensures var r := Open(c, ws, key, now);
      var before := Find(Pruned(c, ws, now), k);
      && OnePerKey(r)
      && Find(r, k) == (if k == key then Some(Or(before, Window(key, now, 0)))
                        else if EvictedKey(c, ws, key, now) == Some(k) then None else before)
  {
    PrunedHolds(c, ws, now);
    var pruned := Pruned(c, ws, now);
    if Find(pruned, key).None? {
      var room := if |pruned| >= c.maxKeys then Evicted(pruned) else pruned;
      if |pruned| >= c.maxKeys && pruned != [] {
        WithoutFind(pruned, Oldest(pruned, |pruned|), key);
        WithoutFind(pruned, Oldest(pruned, |pruned|), k);
      }
      AppendFind(room, Window(key, now, 0), k);
    }
  }

  function Or(o: Option<Window>, w: Window): Window {
    if o.Some? then o.value else w
  }

  lemma AppendFind(ws: Windows, w: Window, k: Id)
    requires OnePerKey(ws) && Find(ws, w.key).None?
    ensures OnePerKey(ws + [w])
    ensures Find(ws + [w], k) == if k == w.key then Some(w) else Find(ws, k)
  {
    var r := ws + [w];
    if k == w.key {
      FindExact(r, k, |ws|);
    } else if Find(ws, k).Some? {
      FindExact(r, k, Position(ws, k, |ws|));
    } else {
      FindNone(r, k);
    }
  }

  lemma CountedFind(ws: Windows, key: Id, k: Id)
    requires OnePerKey(ws) && Find(ws, key).Some?
    ensures var r := Counted(ws, Position(ws, key, |ws|));
      && OnePerKey(r)
      && Find(r, k) == if k == key then Some(Find(ws, key).value.(count := Find(ws, key).value.count + 1))
                       else Find(ws, k)
  {
    var i := Position(ws, key, |ws|);
    var r := Counted(ws, i);
    if k == key {
      FindExact(r, k, i);
    } else if Find(ws, k).Some? {
      FindExact(r, k, Position(ws, k, |ws|));
    } else {
      FindNone(r, k);
    }
  }

  /** The live window of a key, or a new one, with the call counted. */
  function Next(c: Config, w: Option<Window>, key: Id, now: int): Window {
    if w.Some? && !IsOver(c, w.value, now) then w.value.(count := w.value.count + 1) else Window(key, now, 1)
  }

  lemma ConsumeFind(c: Config, ws: Windows, key: Id, now: int, k: Id)
    requires OnePerKey(ws)
    ensures var (ws', d) := Consume(c, ws, key, now);
      && OnePerKey(ws')
      && d.allowed == (Next(c, Find(ws, key), key, now).count <= c.limit)
      && Find(ws', k) == (if k == key then Some(Next(c, Find(ws, key), key, now))
                          else if EvictedKey(c, ws, key, now) == Some(k) then None
                          else if Find(ws, k).Some? && IsOver(c, Find(ws, k).value, now) then None
                          else Find(ws, k))
  {
    var current := Open(c, ws, key, now);
    OpenFind(c, ws, key, now, key);
    OpenFind(c, ws, key, now, k);
    PrunedFind(c, ws, now, key);
    PrunedFind(c, ws, now, k);
    CountedFind(current, key, key);
    CountedFind(current, key, k);
  }

  /**
   `remaining` tells how many more calls of the key are allowed in its window: the next
   one, made before the window is over, is allowed exactly if it is not zero, and takes
   one off it. The window is not evicted in between, since nothing else is called.
   */
  lemma RemainingTells(c: Config, ws: Windows, key: Id, now: int, later: int)
    requires OnePerKey(ws) && 0 < c.windowMs && now <= later
    requires !IsOver(c, Next(c, Find(ws, key), key, now), later)
    ensures var (ws', d) := Consume(c, ws, key, now);
      var d' := Consume(c, ws', key, later).1;
      && d.remaining >= 0 && (!d.allowed ==> d.remaining == 0)
      && (d'.allowed <==> d.remaining > 0)
      && d'.remaining == (if d.remaining > 0 then d.remaining - 1 else 0)
  {
    ConsumeFind(c, ws, key, now, key);
    ConsumeFind(c, Consume(c, ws, key, now).0, key, later, key);
    RemainingCounts(c, ws, key, now);
    RemainingCounts(c, Consume(c, ws, key, now).0, key, later);
  }

  lemma RemainingCounts(c: Config, ws: Windows, key: Id, now: int)
    requires OnePerKey(ws)
    ensures var count := Next(c, Find(ws, key), key, now).count;
      Consume(c, ws, key, now).1.remaining == if c.limit > count then c.limit - count else 0
  {
    var current := Open(c, ws, key, now);
    OpenFind(c, ws, key, now, key);
    PrunedFind(c, ws, now, key);
    CountedFind(current, key, key);
  }

  /* ---------- runs ---------- */

  datatype Call = Call(key: Id, now: int)

  function After(c: Config, calls: seq<Call>): Windows {
    if calls == [] then []
    else
      var last := calls[|calls| - 1];
      Consume(c, After(c, calls[..|calls| - 1]), last.key, last.now).0
  }

  function LastAllowed(c: Config, calls: seq<Call>): bool
    requires calls != []
  {
    var last := calls[|calls| - 1];
    Consume(c, After(c, calls[..|calls| - 1]), last.key, last.now).1.allowed
  }

  /** The closed interval of length `windowMs` that begins at `s`. */
  predicate Inside(c: Config, s: int, now: int) {
    0 < c.windowMs && s <= now <= s + c.windowMs
  }

  /** How many calls for `k` inside the interval were allowed. */
  function AllowedInside(c: Config, calls: seq<Call>, k: Id, s: int): nat {
    if calls == [] then 0
    else
      var last := calls[|calls| - 1];
      AllowedInside(c, calls[..|calls| - 1], k, s)
      + if last.key == k && Inside(c, s, last.now) && LastAllowed(c, calls) then 1 else 0
  }

  ghost predicate TimeForward(calls: seq<Call>) {
    forall i, j :: 0 <= i < j < |calls| ==> calls[i].now <= calls[j].now
  }

  /** No call inside the interval throws out the window of `k`. */
  ghost predicate NotEvictedInside(c: Config, calls: seq<Call>, k: Id, s: int) {
    forall i :: 0 <= i < |calls| && Inside(c, s, calls[i].now) ==>
      EvictedKey(c, After(c, calls[..i]), calls[i].key, calls[i].now) != Some(k)
  }

  /**
   How far the count can be, by the window of `k`: nothing yet; all in the first
   window; the first window gone; all in the first and a second one; the interval over.
   */
  predicate Tally(c: Config, w: Option<Window>, now: int, s: int, n: nat) {
    || n == 0
    || (w.Some? && w.value.startedAt + c.windowMs > s && n <= w.value.count && n <= c.limit)
    || (w.None? && now > s && n <= c.limit)
    || (w.Some? && w.value.startedAt > s && n <= c.limit + w.value.count && n <= 2 * c.limit)
    || (now > s + c.windowMs && n <= 2 * c.limit)
  }

  lemma TallyStep(
      c: Config, w: Option<Window>, w': Option<Window>, before: int, call: Call, k: Id, s: int, n: nat, allowed: bool)
    requires 0 <= c.limit && before <= call.now && Tally(c, w, before, s, n)
    requires call.key == k ==> w' == Some(Next(c, w, k, call.now)) && allowed == (w'.value.count <= c.limit)
    requires call.key != k && call.now <= s + c.windowMs ==>
               w' == if w.Some? && IsOver(c, w.value, call.now) then None else w
    requires 0 < c.windowMs
    ensures Tally(c, w', call.now, s, n + if call.key == k && Inside(c, s, call.now) && allowed then 1 else 0)
  {
  }

  lemma {:induction false} TallyHolds(c: Config, calls: seq<Call>, k: Id, s: int)
    requires 0 <= c.limit && 0 < c.windowMs && TimeForward(calls) && NotEvictedInside(c, calls, k, s)
    ensures OnePerKey(After(c, calls))
    ensures calls != [] ==> Tally(c, Find(After(c, calls), k), calls[|calls| - 1].now, s, AllowedInside(c, calls, k, s))
  {
    if calls != [] {
      var front, last := calls[..|calls| - 1], calls[|calls| - 1];
      assert forall i :: 0 <= i < |front| ==> front[..i] == calls[..i];
      TallyHolds(c, front, k, s);
      var ws := After(c, front);
      ConsumeFind(c, ws, last.key, last.now, k);
      var before := if front == [] then last.now else front[|front| - 1].now;
      if AllowedInside(c, front, k, s) > 0 {
        InsideStarted(c, front, k, s);
        TallyStep(c, Find(ws, k), Find(After(c, calls), k), before, last, k, s,
                  AllowedInside(c, front, k, s), LastAllowed(c, calls));
      } else {
        FirstInside(c, Find(ws, k), Find(After(c, calls), k), last, k, s, LastAllowed(c, calls));
      }
    }
  }

  /** Before anything was allowed inside the interval, an eviction does not matter. */
  lemma FirstInside(c: Config, w: Option<Window>, w': Option<Window>, call: Call, k: Id, s: int, allowed: bool)
    requires 0 <= c.limit && 0 < c.windowMs
    requires call.key == k ==> w' == Some(Next(c, w, k, call.now)) && allowed == (w'.value.count <= c.limit)
    ensures Tally(c, w', call.now, s, if call.key == k && Inside(c, s, call.now) && allowed then 1 else 0)
  {
  }

  /** If something was allowed inside, the interval has begun. */
  lemma {:induction false} InsideStarted(c: Config, calls: seq<Call>, k: Id, s: int)
    requires TimeForward(calls) && AllowedInside(c, calls, k, s) > 0
    ensures calls != [] && calls[|calls| - 1].now >= s
  {
    var last := calls[|calls| - 1];
    if !(last.key == k && Inside(c, s, last.now) && LastAllowed(c, calls)) {
      InsideStarted(c, calls[..|calls| - 1], k, s);
    }
  }

  /** A key that is not thrown out is allowed at most twice the limit in any interval of the window's length. */
  lemma AtMostTwiceTheLimit(c: Config, calls: seq<Call>, k: Id, s: int)
    requires 0 <= c.limit && TimeForward(calls) && NotEvictedInside(c, calls, k, s)
    ensures AllowedInside(c, calls, k, s) <= 2 * c.limit
  {
    if 0 < c.windowMs {
      TallyHolds(c, calls, k, s);
    } else {
      NothingInside(c, calls, k, s);
    }
  }

  lemma {:induction false} NothingInside(c: Config, calls: seq<Call>, k: Id, s: int)
    requires c.windowMs <= 0
    ensures AllowedInside(c, calls, k, s) == 0
  {
    if calls != [] {
      NothingInside(c, calls[..|calls| - 1], k, s);
    }
  }

  /* ---------- size ---------- */

  lemma ConsumeSize(c: Config, ws: Windows, key: Id, now: int)
    requires OnePerKey(ws)
    ensures OnePerKey(Consume(c, ws, key, now).0)
    ensures |ws| <= c.maxKeys && 1 <= c.maxKeys ==> |Consume(c, ws, key, now).0| <= c.maxKeys
    ensures c.maxKeys <= 0 && |ws| <= 1 ==> |Consume(c, ws, key, now).0| == 1
  {
    PrunedHolds(c, ws, now);
    ConsumeFind(c, ws, key, now, key);
  }

  /** The limiter never holds more than `maxKeys` windows, exactly if `maxKeys` allows it one. */
  lemma {:induction false} SizeBounded(c: Config, calls: seq<Call>)
    ensures OnePerKey(After(c, calls))
    ensures 1 <= c.maxKeys ==> |After(c, calls)| <= c.maxKeys
    ensures c.maxKeys <= 0 ==> |After(c, calls)| == if calls == [] then 0 else 1
  {
    if calls != [] {
      var last := calls[|calls| - 1];
      SizeBounded(c, calls[..|calls| - 1]);
      ConsumeSize(c, After(c, calls[..|calls| - 1]), last.key, last.now);
    }
  }
}
