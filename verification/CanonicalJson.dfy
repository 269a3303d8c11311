/**
 Canonical JSON text. Strings are sequences of UTF-16 code units, as the language
 of the program has them, and object members are sorted by those units.
 */
module CanonicalJson {
  import opened Basics

  type Unit = n: int | 0 <= n < 0x10000

  type Text = seq<Unit>

  /** A finite number stands for its shortest decimal text. */
  datatype Number = Finite(text: Text) | NotFinite

  datatype Json =
    | Null
    | Bool(value: bool)
    | Num(number: Number)
    | Str(text: Text)
    | Arr(items: seq<Json>)
    | Obj(members: seq<(Text, Json)>)
    | Undefined

  const QUOTE: Unit := 0x22
  const BACKSLASH: Unit := 0x5C
  const COMMA: Unit := 0x2C
  const COLON: Unit := 0x3A
  const LETTER_U: Unit := 0x75

  predicate IsDigit(c: Unit) {
    0x30 <= c <= 0x39
  }

  /** Digits, sign, point and exponent. */
  predicate IsNumberUnit(c: Unit) {
    IsDigit(c) || c == 0x2D || c == 0x2B || c == 0x2E || c == 0x65
  }

  predicate IsNumberText(text: Text) {
    && text != [] && (IsDigit(text[0]) || text[0] == 0x2D)
    && forall i :: 0 <= i < |text| ==> IsNumberUnit(text[i])
  }

  /** An object has one member per key. */
  predicate DistinctKeys<T>(members: seq<(Text, T)>) {
    forall i, j :: 0 <= i < j < |members| ==> members[i].0 != members[j].0
  }

  predicate WellFormed(v: Json) {
    match v
    case Num(Finite(text)) => IsNumberText(text)
    case Arr(items) => forall i :: 0 <= i < |items| ==> WellFormed(items[i])
    case Obj(members) => DistinctKeys(members) && forall i :: 0 <= i < |members| ==> WellFormed(members[i].1)
    case _ => true
  }

  /* ---------- order of keys ---------- */

  /** Lexicographic by code units. */
  predicate Before(a: Text, b: Text) {
    b != [] && (a == [] || a[0] < b[0] || (a[0] == b[0] && Before(a[1..], b[1..])))
  }

  lemma {:induction false} BeforeTotal(a: Text, b: Text)
    ensures Before(a, b) || Before(b, a) || a == b
    ensures !(Before(a, b) && Before(b, a)) && !Before(a, a)
  {
    if a != [] {
      BeforeTotal(a[1..], a[1..]);
      if b != [] {
        BeforeTotal(a[1..], b[1..]);
        assert a == [a[0]] + a[1..] && b == [b[0]] + b[1..];
      }
    }
  }

  lemma {:induction false} BeforeTransitive(a: Text, b: Text, c: Text)
    requires Before(a, b) && Before(b, c)
    ensures Before(a, c)
  {
    if a != [] && a[0] == b[0] == c[0] {
      BeforeTransitive(a[1..], b[1..], c[1..]);
    }
  }

  function Insert<T>(e: (Text, T), sorted: seq<(Text, T)>): seq<(Text, T)> {
    if sorted == [] then [e]
    else if Before(e.0, sorted[0].0) then [e] + sorted
    else [sorted[0]] + Insert(e, sorted[1..])
  }

  function SortByKey<T>(members: seq<(Text, T)>): seq<(Text, T)> {
    if members == [] then [] else Insert(members[0], SortByKey(members[1..]))
  }

  lemma {:induction false} InsertHolds<T>(e: (Text, T), sorted: seq<(Text, T)>, x: (Text, T))
    ensures x in Insert(e, sorted) <==> x == e || x in sorted
  {
    if sorted != [] {
      InsertHolds(e, sorted[1..], x);
      assert sorted == [sorted[0]] + sorted[1..];
    }
  }

  lemma {:induction false} SortHolds<T>(members: seq<(Text, T)>, x: (Text, T))
    ensures x in SortByKey(members) <==> x in members
  {
    if members != [] {
      SortHolds(members[1..], x);
      InsertHolds(members[0], SortByKey(members[1..]), x);
      assert members == [members[0]] + members[1..];
    }
  }

  predicate Sorted<T>(members: seq<(Text, T)>) {
    forall i, j :: 0 <= i < j < |members| ==> Before(members[i].0, members[j].0)
  }

  lemma {:induction false} InsertSorts<T>(e: (Text, T), sorted: seq<(Text, T)>)
    requires Sorted(sorted) && forall i :: 0 <= i < |sorted| ==> sorted[i].0 != e.0
    ensures Sorted(Insert(e, sorted))
  {
    if sorted != [] {
      BeforeTotal(e.0, sorted[0].0);
      var rest := sorted[1..];
      if Before(e.0, sorted[0].0) {
        forall i | 0 <= i < |sorted|
          ensures Before(e.0, sorted[i].0)
        {
          if i > 0 {
            BeforeTransitive(e.0, sorted[0].0, sorted[i].0);
          }
        }
      } else {
        InsertSorts(e, rest);
        var out := Insert(e, rest);
        forall i | 0 <= i < |out|
          ensures Before(sorted[0].0, out[i].0)
        {
          InsertHolds(e, rest, out[i]);
        }
      }
    }
  }

  lemma {:induction false} SortSorts<T>(members: seq<(Text, T)>)
    requires DistinctKeys(members)
    ensures Sorted(SortByKey(members))
  {
    if members != [] {
      var rest := SortByKey(members[1..]);
      SortSorts(members[1..]);
      forall i | 0 <= i < |rest|
        ensures rest[i].0 != members[0].0
      {
        SortHolds(members[1..], rest[i]);
      }
      InsertSorts(members[0], rest);
    }
  }

  /* ---------- strings ---------- */

  predicate IsHigh(c: Unit) {
    0xD800 <= c < 0xDC00
  }

  predicate IsLow(c: Unit) {
    0xDC00 <= c < 0xE000
  }

  function HexDigit(n: int): Unit
    requires 0 <= n < 16
  {
    if n < 10 then 0x30 + n else 0x61 + n - 10
  }

  function Escaped(c: Unit): Text {
    [BACKSLASH, LETTER_U, HexDigit(c / 0x1000), HexDigit(c / 0x100 % 16), HexDigit(c / 0x10 % 16), HexDigit(c % 16)]
  }

  function QuoteUnit(c: Unit): Text {
    if c == QUOTE || c == BACKSLASH then [BACKSLASH, c]
    else if c == 0x08 then [BACKSLASH, 0x62]
    else if c == 0x09 then [BACKSLASH, 0x74]
    else if c == 0x0A then [BACKSLASH, 0x6E]
    else if c == 0x0C then [BACKSLASH, 0x66]
    else if c == 0x0D then [BACKSLASH, 0x72]
    else if c < 0x20 || IsHigh(c) || IsLow(c) then Escaped(c)
    else [c]
  }

  /** A surrogate pair is written as it is; a lone surrogate is escaped. */
  function QuoteUnits(s: Text): Text {
    if s == [] then []
    else if |s| > 1 && IsHigh(s[0]) && IsLow(s[1]) then [s[0], s[1]] + QuoteUnits(s[2..])
    else QuoteUnit(s[0]) + QuoteUnits(s[1..])
  }

  function Quote(s: Text): Text {
    [QUOTE] + QuoteUnits(s) + [QUOTE]
  }

  function HexValue(c: Unit): int {
    if IsDigit(c) then c - 0x30 else if 0x61 <= c <= 0x66 then c - 0x61 + 10 else -1
  }

  /** One unit of a quoted string, and how much text it took; None at the closing quote or on bad text. */
  function ReadUnit(text: Text): Option<(Unit, nat)> {
    if text == [] || text[0] == QUOTE then None
    else if text[0] != BACKSLASH then Some((text[0], 1))
    else if |text| < 2 then None
    else if text[1] == QUOTE || text[1] == BACKSLASH then Some((text[1], 2))
    else if text[1] == 0x62 then Some((0x08, 2))
    else if text[1] == 0x74 then Some((0x09, 2))
    else if text[1] == 0x6E then Some((0x0A, 2))
    else if text[1] == 0x66 then Some((0x0C, 2))
    else if text[1] == 0x72 then Some((0x0D, 2))
    else if text[1] != LETTER_U || |text| < 6 then None
    else
      var c := 0x1000 * HexValue(text[2]) + 0x100 * HexValue(text[3]) + 0x10 * HexValue(text[4]) + HexValue(text[5]);
      if 0 <= c < 0x10000 then Some((c, 6)) else None
  }

  /** Read up to the closing quote. */
  function Unquote(text: Text): Option<(Text, Text)> {
    if text != [] && text[0] == QUOTE then Some(([], text[1..]))
    else
      match ReadUnit(text)
      case None => None
      case Some((c, n)) =>
        if n == 0 || n > |text| then None
        else
          match Unquote(text[n..])
          case None => None
          case Some((s, rest)) => Some(([c] + s, rest))
  }

  lemma HexRoundTrip(n: int)
    requires 0 <= n < 16
    ensures HexValue(HexDigit(n)) == n
  {
  }

  lemma HexDigits(c: Unit)
    ensures c == 0x1000 * (c / 0x1000) + 0x100 * (c / 0x100 % 16) + 0x10 * (c / 0x10 % 16) + c % 16
  {
    var a, b := c / 0x10, c / 0x100;
    assert c == 0x10 * a + c % 16;
    assert a == 0x10 * b + a % 16;
    assert b == 0x10 * (c / 0x1000) + b % 16;
  }

  lemma ReadEscaped(c: Unit, text: Text)
    requires |text| >= 6 && text[..6] == Escaped(c)
    ensures ReadUnit(text) == Some((c, 6))
  {
    var e := Escaped(c);
    assert text[0] == e[0] && text[1] == e[1] && text[2] == e[2];
    assert text[3] == e[3] && text[4] == e[4] && text[5] == e[5];
    HexRoundTrip(c / 0x1000);
    HexRoundTrip(c / 0x100 % 16);
    HexRoundTrip(c / 0x10 % 16);
    HexRoundTrip(c % 16);
    HexDigits(c);
  }

  lemma ReadQuoted(c: Unit, rest: Text)
    ensures ReadUnit(QuoteUnit(c) + rest) == Some((c, |QuoteUnit(c)|))
    ensures (QuoteUnit(c) + rest)[0] != QUOTE
  {
    var q := QuoteUnit(c);
    var text := q + rest;
    assert text[0] == q[0] && (|q| > 1 ==> text[1] == q[1]);
    if |q| == 6 {
      assert text[..6] == q;
      ReadEscaped(c, text);
    }
  }

  /** One unit read, and the rest of the string behind it. */
  lemma UnquoteStep(text: Text, c: Unit, n: nat, s: Text, rest: Text)
    requires text != [] && text[0] != QUOTE && 0 < n <= |text|
    requires ReadUnit(text) == Some((c, n)) && Unquote(text[n..]) == Some((s, rest))
    ensures Unquote(text) == Some(([c] + s, rest))
  {
  }

  lemma UnquoteUnit(c: Unit, behind: Text, s: Text, rest: Text)
    requires Unquote(behind) == Some((s, rest))
    ensures Unquote(QuoteUnit(c) + behind) == Some(([c] + s, rest))
  {
    var q := QuoteUnit(c);
    ReadQuoted(c, behind);
    assert (q + behind)[|q|..] == behind;
    UnquoteStep(q + behind, c, |q|, s, rest);
  }

  lemma UnquotePair(high: Unit, low: Unit, behind: Text, s: Text, rest: Text)
    requires IsHigh(high) && IsLow(low) && Unquote(behind) == Some((s, rest))
    ensures Unquote([high, low] + behind) == Some(([high, low] + s, rest))
  {
    var text := [high, low] + behind;
    assert text[1..] == [low] + behind && text[1..][1..] == behind;
    UnquoteStep(text[1..], low, 1, s, rest);
    UnquoteStep(text, high, 1, [low] + s, rest);
    assert [high] + ([low] + s) == [high, low] + s;
  }

  lemma UnquoteEnd(rest: Text)
    ensures Unquote([QUOTE] + rest) == Some(([], rest))
  {
    assert ([QUOTE] + rest)[1..] == rest;
  }

  lemma Regroup(a: Text, b: Text, c: Text)
    ensures (a + b) + c == a + (b + c)
  {
  }

  /** Every string can be read back from its quoted form. */
  lemma {:induction false} QuoteRoundTrip(s: Text, rest: Text)
    ensures Unquote(QuoteUnits(s) + ([QUOTE] + rest)) == Some((s, rest))
    decreases |s|
  {
    var tail := [QUOTE] + rest;
    if s == [] {
      UnquoteEnd(rest);
      assert QuoteUnits(s) + tail == tail;
    } else {
      var n := if |s| > 1 && IsHigh(s[0]) && IsLow(s[1]) then 2 else 1;
      var head := if n == 2 then [s[0], s[1]] else QuoteUnit(s[0]);
      var behind := QuoteUnits(s[n..]);
      QuoteRoundTrip(s[n..], rest);
      assert QuoteUnits(s) == head + behind;
      Regroup(head, behind, tail);
      assert s[..n] + s[n..] == s;
      if n == 2 {
        UnquotePair(s[0], s[1], behind + tail, s[n..], rest);
        assert s[..n] == [s[0], s[1]];
      } else {
        UnquoteUnit(s[0], behind + tail, s[n..], rest);
        assert s[..n] == [s[0]];
      }
    }
  }

  lemma QuotedTail(s: Text, rest: Text)
    ensures (Quote(s) + rest)[1..] == QuoteUnits(s) + ([QUOTE] + rest)
  {
    Regroup([QUOTE] + QuoteUnits(s), [QUOTE], rest);
    Regroup([QUOTE], QuoteUnits(s), [QUOTE] + rest);
  }

  lemma QuoteUnique(a: Text, b: Text, t: Text, u: Text)
    requires Quote(a) + t == Quote(b) + u
    ensures a == b && t == u
  {
    QuotedTail(a, t);
    QuotedTail(b, u);
    QuoteRoundTrip(a, t);
    QuoteRoundTrip(b, u);
  }

  /* ---------- the canonical text ---------- */

  const NULL_TEXT: Text := [0x6E, 0x75, 0x6C, 0x6C]
  const TRUE_TEXT: Text := [0x74, 0x72, 0x75, 0x65]
  const FALSE_TEXT: Text := [0x66, 0x61, 0x6C, 0x73, 0x65]

  /** Numbers are finite and nothing is undefined. */
  predicate Serializable(v: Json) {
    match v
    case Undefined => false
    case Num(number) => number.Finite?
    case Arr(items) => forall i :: 0 <= i < |items| ==> Serializable(items[i])
    case Obj(members) => forall i :: 0 <= i < |members| ==> Serializable(members[i].1)
    case _ => true
  }

  function Join(parts: seq<Text>): Text {
    if |parts| == 0 then [] else if |parts| == 1 then parts[0] else parts[0] + [COMMA] + Join(parts[1..])
  }

  function Member(key: Text, value: Text): Text {
    Quote(key) + [COLON] + value
  }

  function Canon(v: Json): Text
    requires Serializable(v)
  {
    match v
    case Null => NULL_TEXT
    case Bool(value) => if value then TRUE_TEXT else FALSE_TEXT
    case Num(number) => number.text
    case Str(text) => Quote(text)
    case Arr(items) => [0x5B] + Join(seq(|items|, i requires 0 <= i < |items| => Canon(items[i]))) + [0x5D]
    case Obj(members) =>
      var sorted := SortByKey(members);
      var parts := seq(|sorted|, i requires 0 <= i < |sorted| =>
        SortHolds(members, sorted[i]);
        Member(sorted[i].0, Canon(sorted[i].1)));
      [0x7B] + Join(parts) + [0x7D]
  }

  /** A value outside the JSON data model is refused. */
  function Canonicalize(v: Json): Option<Text> {
    if Serializable(v) then Some(Canon(v)) else None
  }

  /* ---------- equality up to member order ---------- */

  ghost predicate HasKey<T>(members: seq<(Text, T)>, key: Text) {
    exists j :: 0 <= j < |members| && members[j].0 == key
  }

  ghost predicate Same(v: Json, w: Json) {
    match (v, w)
    case (Arr(a), Arr(b)) => |a| == |b| && forall i :: 0 <= i < |a| ==> Same(a[i], b[i])
    case (Obj(a), Obj(b)) =>
      && (forall i :: 0 <= i < |a| ==> exists j :: 0 <= j < |b| && b[j].0 == a[i].0 && Same(a[i].1, b[j].1))
      && forall j :: 0 <= j < |b| ==> HasKey(a, b[j].0)
    case _ => v == w
  }

  /* ---------- texts that cannot be confused ---------- */

  predicate IsEnd(c: Unit) {
    c == COMMA || c == 0x5D || c == 0x7D
  }

  /** What may follow a value. */
  predicate Ends(t: Text) {
    t == [] || IsEnd(t[0])
  }

  /** Two parts with anything that may follow them are told apart, or are the same. */
  ghost predicate UniqueParts(a: Text, b: Text) {
    forall t: Text, u: Text :: Ends(t) && Ends(u) && a + t == b + u ==> a == b && t == u
  }

  predicate Begins(a: Text) {
    a != [] && !IsEnd(a[0])
  }

  /** Everything behind the first part. */
  function Behind(parts: seq<Text>, close: Unit, t: Text): Text
    requires parts != []
  {
    if |parts| == 1 then [close] + t else [COMMA] + (Join(parts[1..]) + ([close] + t))
  }

  lemma JoinSplits(parts: seq<Text>, close: Unit, t: Text)
    requires parts != []
    ensures Join(parts) + ([close] + t) == parts[0] + Behind(parts, close, t)
  {
    if |parts| > 1 {
      Regroup(parts[0] + [COMMA], Join(parts[1..]), [close] + t);
      Regroup(parts[0], [COMMA], Join(parts[1..]) + ([close] + t));
    }
  }

  lemma NothingJoined(parts: seq<Text>, t: Text)
    requires parts == []
    ensures Join(parts) + t == t
  {
  }

  lemma SomethingJoined(parts: seq<Text>, close: Unit, t: Text)
    requires parts != [] && Begins(parts[0])
    ensures !IsEnd((Join(parts) + ([close] + t))[0])
  {
    JoinSplits(parts, close, t);
    assert (parts[0] + Behind(parts, close, t))[0] == parts[0][0];
  }

  ghost predicate AllUnique(a: seq<Text>, b: seq<Text>) {
    && (forall i :: 0 <= i < |a| ==> Begins(a[i]))
    && (forall i :: 0 <= i < |b| ==> Begins(b[i]))
    && forall i, j :: 0 <= i < |a| && 0 <= j < |b| ==> UniqueParts(a[i], b[j])
  }

  /** No parts cannot be confused with some. */
  lemma EmptyUnique(b: seq<Text>, close: Unit, t: Text, u: Text)
    requires IsEnd(close) && (b != [] ==> Begins(b[0]))
    requires [close] + t == Join(b) + ([close] + u)
    ensures b == [] && t == u
  {
    assert ([close] + t)[0] == close;
    if b != [] {
      SomethingJoined(b, close, u);
      assert false;
    }
    NothingJoined(b, [close] + u);
    assert ([close] + t)[1..] == t && ([close] + u)[1..] == u;
  }

  lemma FirstUnique(a: seq<Text>, b: seq<Text>, close: Unit, t: Text, u: Text)
    requires IsEnd(close) && a != [] && b != [] && UniqueParts(a[0], b[0])
    requires Join(a) + ([close] + t) == Join(b) + ([close] + u)
    ensures a[0] == b[0] && Behind(a, close, t) == Behind(b, close, u)
  {
    JoinSplits(a, close, t);
    JoinSplits(b, close, u);
  }

  lemma {:induction false} JoinUnique(a: seq<Text>, b: seq<Text>, close: Unit, t: Text, u: Text)
    requires close == 0x5D || close == 0x7D
    requires AllUnique(a, b) && Join(a) + ([close] + t) == Join(b) + ([close] + u)
    ensures a == b && t == u
  {
    if a == [] {
      NothingJoined(a, [close] + t);
      EmptyUnique(b, close, t, u);
    } else if b == [] {
      NothingJoined(b, [close] + u);
      EmptyUnique(a, close, u, t);
    } else {
      FirstUnique(a, b, close, t, u);
      BehindUnique(a, b, close, t, u);
      if |a| > 1 {
        JoinUnique(a[1..], b[1..], close, t, u);
      }
      assert a == [a[0]] + a[1..] && b == [b[0]] + b[1..];
    }
  }

  lemma BehindUnique(a: seq<Text>, b: seq<Text>, close: Unit, t: Text, u: Text)
    requires close == 0x5D || close == 0x7D
    requires a != [] && b != [] && Behind(a, close, t) == Behind(b, close, u)
    ensures |a| == 1 <==> |b| == 1
    ensures |a| == 1 ==> t == u
    ensures |a| > 1 ==> Join(a[1..]) + ([close] + t) == Join(b[1..]) + ([close] + u)
  {
    assert Behind(a, close, t)[0] == Behind(b, close, u)[0];
    assert Behind(a, close, t)[1..] == if |a| == 1 then t else Join(a[1..]) + ([close] + t);
    assert Behind(b, close, u)[1..] == if |b| == 1 then u else Join(b[1..]) + ([close] + u);
  }

  lemma Within(a: Text, b: Text, t: Text, u: Text)
    requires a + t == b + u && |a| < |b|
    ensures t != [] && t[0] == b[|a|]
  {
    assert |a + t| == |b + u|;
    assert t[0] == (a + t)[|a|] == (b + u)[|a|];
  }

  lemma NumberUnique(a: Text, b: Text, t: Text, u: Text)
    requires forall i :: 0 <= i < |a| ==> IsNumberUnit(a[i])
    requires forall i :: 0 <= i < |b| ==> IsNumberUnit(b[i])
    requires Ends(t) && Ends(u) && a + t == b + u
    ensures a == b && t == u
  {
    if |a| < |b| {
      Within(a, b, t, u);
      assert false;
    } else if |b| < |a| {
      Within(b, a, u, t);
      assert false;
    }
    assert a == (a + t)[..|a|] && b == (b + u)[..|b|];
    assert t == (a + t)[|a|..] && u == (b + u)[|b|..];
  }

  /* ---------- parts of arrays and objects ---------- */

  function ItemTexts(items: seq<Json>): seq<Text>
    requires Serializable(Arr(items))
  {
    seq(|items|, i requires 0 <= i < |items| => Canon(items[i]))
  }

  /** A member of the object, after sorting, is one of its members. */
  lemma SortedMember(members: seq<(Text, Json)>, i: nat) returns (j: nat)
    requires i < |SortByKey(members)|
    ensures j < |members| && SortByKey(members)[i] == members[j]
  {
    SortHolds(members, SortByKey(members)[i]);
    j :| 0 <= j < |members| && members[j] == SortByKey(members)[i];
  }

  lemma SortedSound(members: seq<(Text, Json)>, i: nat)
    requires i < |SortByKey(members)|
    ensures Serializable(Obj(members)) ==> Serializable(SortByKey(members)[i].1)
    ensures WellFormed(Obj(members)) ==> WellFormed(SortByKey(members)[i].1)
  {
    var j := SortedMember(members, i);
  }

  function MemberTexts(members: seq<(Text, Json)>): seq<Text>
    requires Serializable(Obj(members))
  {
    var sorted := SortByKey(members);
    seq(|sorted|, i requires 0 <= i < |sorted| =>
      SortedSound(members, i);
      Member(sorted[i].0, Canon(sorted[i].1)))
  }

  lemma ArrayText(items: seq<Json>, t: Text)
    requires Serializable(Arr(items))
    ensures Canon(Arr(items)) + t == [0x5B] + (Join(ItemTexts(items)) + ([0x5D] + t))
  {
    assert Canon(Arr(items)) == [0x5B] + Join(ItemTexts(items)) + [0x5D];
  }

  lemma ObjectText(members: seq<(Text, Json)>, t: Text)
    requires Serializable(Obj(members))
    ensures Canon(Obj(members)) + t == [0x7B] + (Join(MemberTexts(members)) + ([0x7D] + t))
  {
    var sorted := SortByKey(members);
    var parts := seq(|sorted|, i requires 0 <= i < |sorted| =>
      SortHolds(members, sorted[i]);
      Member(sorted[i].0, Canon(sorted[i].1)));
    assert parts == MemberTexts(members);
    assert Canon(Obj(members)) == [0x7B] + Join(parts) + [0x7D];
  }

  /** Which kind of value a text can begin. */
  function KindOf(c: Unit): int {
    if c == 0x6E then 0 else if c == 0x74 then 1 else if c == 0x66 then 2
    else if IsDigit(c) || c == 0x2D then 3 else if c == QUOTE then 4 else if c == 0x5B then 5
    else if c == 0x7B then 6 else 7
  }

  function Kind(v: Json): int {
    match v
    case Null => 0
    case Bool(value) => if value then 1 else 2
    case Num(_) => 3
    case Str(_) => 4
    case Arr(_) => 5
    case Obj(_) => 6
    case Undefined => 7
  }

  lemma CanonBegins(v: Json, t: Text)
    requires Serializable(v) && WellFormed(v)
    ensures Begins(Canon(v)) && KindOf(Canon(v)[0]) == Kind(v) && (Canon(v) + t)[0] == Canon(v)[0]
  {
    match v
    case Arr(items) => ArrayText(items, []);
      assert Canon(v) + [] == Canon(v);
    case Obj(members) => ObjectText(members, []);
      assert Canon(v) + [] == Canon(v);
    case _ =>
  }

  lemma MemberBegins(key: Text, value: Text)
    ensures Begins(Member(key, value))
  {
    assert Member(key, value)[0] == QUOTE;
  }

  lemma MemberSplits(key: Text, value: Text, t: Text)
    ensures Member(key, value) + t == Quote(key) + ([COLON] + (value + t))
  {
    Regroup(Quote(key) + [COLON], value, t);
    Regroup(Quote(key), [COLON], value + t);
  }

  lemma MemberUnique(k: Text, k': Text, x: Text, y: Text, t: Text, u: Text)
    requires Member(k, x) + t == Member(k', y) + u
    ensures k == k' && x + t == y + u
  {
    MemberSplits(k, x, t);
    MemberSplits(k', y, u);
    QuoteUnique(k, k', [COLON] + (x + t), [COLON] + (y + u));
    assert ([COLON] + (x + t))[1..] == x + t && ([COLON] + (y + u))[1..] == y + u;
  }

  lemma DropHead(c: Unit, x: Text, y: Text)
    requires [c] + x == [c] + y
    ensures x == y
  {
    assert ([c] + x)[1..] == x && ([c] + y)[1..] == y;
  }

  lemma DropPrefix(a: Text, x: Text, y: Text)
    requires a + x == a + y
    ensures x == y
  {
    assert (a + x)[|a|..] == x && (a + y)[|a|..] == y;
  }

  ghost predicate Ready(v: Json) {
    Serializable(v) && WellFormed(v)
  }

  /** A text that begins with a value begins with only one. */
  lemma {:induction false} CanonUnique(v: Json, w: Json, t: Text, u: Text)
    requires Ready(v) && Ready(w) && Ends(t) && Ends(u) && Canon(v) + t == Canon(w) + u
    ensures Canon(v) == Canon(w) && t == u
    decreases v
  {
    CanonBegins(v, t);
    CanonBegins(w, u);
    assert Kind(v) == Kind(w);
    match v
    case Num(number) => NumberUnique(number.text, w.number.text, t, u);
    case Str(text) => QuoteUnique(text, w.text, t, u);
    case Arr(items) =>
      ArrayText(items, t);
      ArrayText(w.items, u);
      DropHead(0x5B, Join(ItemTexts(items)) + ([0x5D] + t), Join(ItemTexts(w.items)) + ([0x5D] + u));
      ItemsUnique(v, w);
      JoinUnique(ItemTexts(items), ItemTexts(w.items), 0x5D, t, u);
      SameTail(v, w, t);
    case Obj(members) =>
      ObjectText(members, t);
      ObjectText(w.members, u);
      DropHead(0x7B, Join(MemberTexts(members)) + ([0x7D] + t), Join(MemberTexts(w.members)) + ([0x7D] + u));
      MembersUnique(v, w);
      JoinUnique(MemberTexts(members), MemberTexts(w.members), 0x7D, t, u);
      SameTail(v, w, t);
    case Null => DropPrefix(NULL_TEXT, t, u);
    case Bool(_) => DropPrefix(Canon(v), t, u);
    case Undefined =>
  }

  lemma SameTail(v: Json, w: Json, t: Text)
    requires Serializable(v) && Serializable(w) && Canon(v) + t == Canon(w) + t
    ensures Canon(v) == Canon(w)
  {
    assert |Canon(v)| == |Canon(w)|;
    assert Canon(v) == (Canon(v) + t)[..|Canon(v)|] && Canon(w) == (Canon(w) + t)[..|Canon(w)|];
  }

  lemma {:induction false} ItemsUnique(v: Json, w: Json)
    requires Ready(v) && Ready(w) && v.Arr? && w.Arr?
    ensures AllUnique(ItemTexts(v.items), ItemTexts(w.items))
    decreases v, 0
  {
    var (a, b) := (ItemTexts(v.items), ItemTexts(w.items));
    forall i | 0 <= i < |a|
      ensures Begins(a[i])
    {
      CanonBegins(v.items[i], []);
    }
    forall j | 0 <= j < |b|
      ensures Begins(b[j])
    {
      CanonBegins(w.items[j], []);
    }
    forall i, j, t: Text, u: Text | 0 <= i < |a| && 0 <= j < |b| && Ends(t) && Ends(u) && a[i] + t == b[j] + u
      ensures a[i] == b[j] && t == u
    {
      CanonUnique(v.items[i], w.items[j], t, u);
    }
  }

  lemma {:induction false} MembersUnique(v: Json, w: Json)
    requires Ready(v) && Ready(w) && v.Obj? && w.Obj?
    ensures AllUnique(MemberTexts(v.members), MemberTexts(w.members))
    decreases v, 0
  {
    var (a, b) := (MemberTexts(v.members), MemberTexts(w.members));
    var (x, y) := (SortByKey(v.members), SortByKey(w.members));
    forall i | 0 <= i < |a|
      ensures Begins(a[i])
    {
      SortedSound(v.members, i);
      MemberBegins(x[i].0, Canon(x[i].1));
    }
    forall j | 0 <= j < |b|
      ensures Begins(b[j])
    {
      SortedSound(w.members, j);
      MemberBegins(y[j].0, Canon(y[j].1));
    }
    forall i, j, t: Text, u: Text | 0 <= i < |a| && 0 <= j < |b| && Ends(t) && Ends(u) && a[i] + t == b[j] + u
      ensures a[i] == b[j] && t == u
    {
      SortedSound(v.members, i);
      SortedSound(w.members, j);
      var m := SortedMember(v.members, i);
      MemberUnique(x[i].0, y[j].0, Canon(x[i].1), Canon(y[j].1), t, u);
      CanonUnique(v.members[m].1, y[j].1, t, u);
    }
  }

  /* ---------- the same text means the same value ---------- */

  lemma {:induction false} SameTextSameValue(v: Json, w: Json)
    requires Ready(v) && Ready(w) && Canon(v) == Canon(w)
    ensures Same(v, w)
    decreases v
  {
    CanonBegins(v, []);
    CanonBegins(w, []);
    assert Kind(v) == Kind(w);
    match v
    case Str(text) => QuoteUnique(text, w.text, [], []);
    case Arr(items) =>
      ArrayText(items, []);
      ArrayText(w.items, []);
      DropHead(0x5B, Join(ItemTexts(items)) + ([0x5D] + []), Join(ItemTexts(w.items)) + ([0x5D] + []));
      ItemsUnique(v, w);
      JoinUnique(ItemTexts(items), ItemTexts(w.items), 0x5D, [], []);
      forall i | 0 <= i < |items|
        ensures |items| == |w.items| && Same(items[i], w.items[i])
      {
        assert ItemTexts(items)[i] == ItemTexts(w.items)[i];
        SameTextSameValue(items[i], w.items[i]);
      }
    case Obj(members) =>
      ObjectText(members, []);
      ObjectText(w.members, []);
      DropHead(0x7B, Join(MemberTexts(members)) + ([0x7D] + []), Join(MemberTexts(w.members)) + ([0x7D] + []));
      MembersUnique(v, w);
      JoinUnique(MemberTexts(members), MemberTexts(w.members), 0x7D, [], []);
      SameMemberTexts(v, w);
    case _ =>
  }

  /** A member has its place among the sorted members. */
  lemma SortedPlace(members: seq<(Text, Json)>, i: nat) returns (p: nat)
    requires i < |members|
    ensures p < |SortByKey(members)| && SortByKey(members)[p] == members[i]
  {
    SortHolds(members, members[i]);
    p :| 0 <= p < |SortByKey(members)| && SortByKey(members)[p] == members[i];
  }

  lemma {:induction false} SameMemberTexts(v: Json, w: Json)
    requires v.Obj? && w.Obj? && Ready(v) && Ready(w) && MemberTexts(v.members) == MemberTexts(w.members)
    ensures Same(v, w)
    decreases v, 0
  {
    var (a, b) := (v.members, w.members);
    forall i | 0 <= i < |a|
      ensures exists j :: 0 <= j < |b| && b[j].0 == a[i].0 && Same(a[i].1, b[j].1)
    {
      var p := SortedPlace(a, i);
      var j := SamePlace(v, w, p);
      SameTextSameValue(a[i].1, b[j].1);
    }
    forall j | 0 <= j < |b|
      ensures HasKey(a, b[j].0)
    {
      var p := SortedPlace(b, j);
      var i := SamePlace(w, v, p);
      assert a[i].0 == b[j].0;
    }
  }

  /** At the same place of the same texts: the same key, and values of the same text. */
  lemma SamePlace(v: Json, w: Json, p: nat) returns (j: nat)
    requires v.Obj? && w.Obj? && Ready(v) && Ready(w) && MemberTexts(v.members) == MemberTexts(w.members)
    requires p < |SortByKey(v.members)|
    ensures j < |w.members| && w.members[j].0 == SortByKey(v.members)[p].0
    ensures Serializable(SortByKey(v.members)[p].1) && Serializable(w.members[j].1)
    ensures Canon(SortByKey(v.members)[p].1) == Canon(w.members[j].1)
  {
    var (x, y) := (SortByKey(v.members), SortByKey(w.members));
    assert |MemberTexts(v.members)| == |x| && |MemberTexts(w.members)| == |y|;
    SortedSound(v.members, p);
    SortedSound(w.members, p);
    assert MemberTexts(v.members)[p] == MemberTexts(w.members)[p];
    j := SortedMember(w.members, p);
    var (c, c') := (Canon(x[p].1), Canon(y[p].1));
    assert Member(x[p].0, c) + [] == Member(y[p].0, c') + [];
    MemberUnique(x[p].0, y[p].0, c, c', [], []);
    assert c + [] == c && c' + [] == c';
  }

  /* ---------- the same value has the same text ---------- */

  ghost predicate SameKeys<T>(a: seq<(Text, T)>, b: seq<(Text, T)>) {
    && (forall i :: 0 <= i < |a| ==> HasKey(b, a[i].0))
    && forall j :: 0 <= j < |b| ==> HasKey(a, b[j].0)
  }

  /** The least key of sorted members is the first. */
  lemma LeastFirst<T>(a: seq<(Text, T)>, b: seq<(Text, T)>)
    requires Sorted(a) && Sorted(b) && SameKeys(a, b) && a != []
    ensures b != [] && a[0].0 == b[0].0
  {
    assert HasKey(b, a[0].0);
    var j :| 0 <= j < |b| && b[j].0 == a[0].0;
    assert HasKey(a, b[0].0);
    var i :| 0 <= i < |a| && a[i].0 == b[0].0;
    BeforeTotal(a[0].0, b[0].0);
  }

  lemma TailsSameKeys<T>(a: seq<(Text, T)>, b: seq<(Text, T)>)
    requires Sorted(a) && Sorted(b) && SameKeys(a, b) && a != [] && b != [] && a[0].0 == b[0].0
    ensures Sorted(a[1..]) && Sorted(b[1..]) && SameKeys(a[1..], b[1..])
  {
    TailHasKeys(a, b);
    TailHasKeys(b, a);
  }

  lemma TailHasKeys<T>(a: seq<(Text, T)>, b: seq<(Text, T)>)
    requires Sorted(a) && SameKeys(a, b) && a != [] && b != [] && a[0].0 == b[0].0
    ensures forall i :: 0 <= i < |a[1..]| ==> HasKey(b[1..], a[1..][i].0)
  {
    forall i | 0 <= i < |a[1..]|
      ensures HasKey(b[1..], a[1..][i].0)
    {
      assert a[1..][i] == a[i + 1];
      assert HasKey(b, a[i + 1].0);
      var j :| 0 <= j < |b| && b[j].0 == a[i + 1].0;
      BeforeTotal(a[0].0, a[0].0);
      assert Before(a[0].0, a[i + 1].0);
      assert b[1..][j - 1].0 == a[1..][i].0;
    }
  }

  /** Sorted members with the same keys have them at the same places. */
  lemma {:induction false} SortedKeysUnique<T>(a: seq<(Text, T)>, b: seq<(Text, T)>)
    requires Sorted(a) && Sorted(b) && SameKeys(a, b)
    ensures |a| == |b| && forall p :: 0 <= p < |a| ==> a[p].0 == b[p].0
  {
    assert b != [] ==> HasKey(a, b[0].0);
    if a != [] {
      LeastFirst(a, b);
      TailsSameKeys(a, b);
      SortedKeysUnique(a[1..], b[1..]);
      forall p | 0 <= p < |a|
        ensures a[p].0 == b[p].0
      {
        if p > 0 {
          assert a[1..][p - 1].0 == b[1..][p - 1].0;
        }
      }
    }
  }

  lemma SortKeepsKeys(a: seq<(Text, Json)>, b: seq<(Text, Json)>)
    requires SameKeys(a, b)
    ensures SameKeys(SortByKey(a), SortByKey(b))
  {
    KeysInSorted(a, b);
    KeysInSorted(b, a);
  }

  lemma KeysInSorted(a: seq<(Text, Json)>, b: seq<(Text, Json)>)
    requires SameKeys(a, b)
    ensures forall i :: 0 <= i < |SortByKey(a)| ==> HasKey(SortByKey(b), SortByKey(a)[i].0)
  {
    forall i | 0 <= i < |SortByKey(a)|
      ensures HasKey(SortByKey(b), SortByKey(a)[i].0)
    {
      var m := SortedMember(a, i);
      assert HasKey(b, a[m].0);
      var j :| 0 <= j < |b| && b[j].0 == a[m].0;
      var p := SortedPlace(b, j);
    }
  }

  lemma {:induction false} SameValueSameText(v: Json, w: Json)
    requires Ready(v) && Ready(w) && Same(v, w)
    ensures Canon(v) == Canon(w)
    decreases v
  {
    match v
    case Arr(items) =>
      forall i | 0 <= i < |items|
        ensures Canon(items[i]) == Canon(w.items[i])
      {
        SameValueSameText(items[i], w.items[i]);
      }
      assert ItemTexts(items) == ItemTexts(w.items);
      ArrayText(items, []);
      ArrayText(w.items, []);
      SameTail(v, w, []);
    case Obj(members) =>
      SameMembersSameTexts(v, w);
      ObjectText(members, []);
      ObjectText(w.members, []);
      SameTail(v, w, []);
    case _ =>
  }

  lemma {:induction false} SameMembersSameTexts(v: Json, w: Json)
    requires v.Obj? && w.Obj? && Ready(v) && Ready(w) && Same(v, w)
    ensures MemberTexts(v.members) == MemberTexts(w.members)
    decreases v, 0
  {
    var (a, b) := (v.members, w.members);
    var (x, y) := (SortByKey(a), SortByKey(b));
    SortSorts(a);
    SortSorts(b);
    forall i | 0 <= i < |a|
      ensures HasKey(b, a[i].0)
    {
      var j :| 0 <= j < |b| && b[j].0 == a[i].0 && Same(a[i].1, b[j].1);
    }
    SortKeepsKeys(a, b);
    SortedKeysUnique(x, y);
    forall p | 0 <= p < |x|
      ensures MemberTexts(a)[p] == MemberTexts(b)[p]
    {
      SortedSound(a, p);
      SortedSound(b, p);
      var i := SortedMember(a, p);
      var j := SortedMember(b, p);
      SamePartner(v, w, i, j);
      SameValueSameText(a[i].1, b[j].1);
    }
  }

  /** With one member per key, the member of the same key is the partner. */
  lemma SamePartner(v: Json, w: Json, i: nat, j: nat)
    requires v.Obj? && w.Obj? && WellFormed(w) && Same(v, w)
    requires i < |v.members| && j < |w.members| && v.members[i].0 == w.members[j].0
    ensures Same(v.members[i].1, w.members[j].1)
  {
    var (a, b) := (v.members, w.members);
    var m :| 0 <= m < |b| && b[m].0 == a[i].0 && Same(a[i].1, b[m].1);
    assert DistinctKeys(b) && b[m].0 == b[j].0;
    assert m == j;
  }

  /**
   The canonical text is a complete invariant: two values have the same text
   exactly when they are equal up to the order of object members.
   */
  lemma CanonicalTextComplete(v: Json, w: Json)
    requires WellFormed(v) && WellFormed(w) && Canonicalize(v).Some? && Canonicalize(w).Some?
    ensures Canonicalize(v) == Canonicalize(w) <==> Same(v, w)
  {
    if Canon(v) == Canon(w) {
      SameTextSameValue(v, w);
    }
    if Same(v, w) {
      SameValueSameText(v, w);
    }
  }
}
