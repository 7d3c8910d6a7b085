/** Counting links in one text surface: entity offsets are UTF-16 code units, regex offsets are
    bytes, and overlapping spans are one link (internal/detect/normalize_message.go). */
module LinkSpans {
  import opened Options

  // Text and its two ways of counting.

  /** One step of a range loop over a string: the decoded code point and the bytes it took. An
      invalid byte decodes to 0xFFFD and takes one. */
  datatype Rune = Rune(code: nat, width: nat)

  /** Section 2.1 of RFC 2781: code points above 0xFFFF are a surrogate pair. */
  function Units(r: Rune): nat {
    if r.code > 0xFFFF then 2 else 1
  }

  function Bytes(text: seq<Rune>): nat {
    if text == [] then 0 else text[0].width + Bytes(text[1..])
  }

  function Length(text: seq<Rune>): nat {
    if text == [] then 0 else Units(text[0]) + Length(text[1..])
  }

  /** A string fits in memory, so its lengths are Go ints; every code point takes a byte. */
  predicate Real(text: seq<Rune>) {
    Length(text) < 0x8000_0000_0000_0000 && forall r :: r in text ==> r.width > 0
  }

  /** The byte offset of a UTF-16 unit; -1 inside a surrogate pair and outside the text. */
  function ByteOf(text: seq<Rune>, unit: int): (at: int) {
    if unit == 0 then 0
    else if text == [] || unit < Units(text[0]) then -1
    else
      var rest := ByteOf(text[1..], unit - Units(text[0]));
      if rest < 0 then -1 else text[0].width + rest
  }

  lemma {:induction false} ByteOfBounds(text: seq<Rune>, unit: int)
    ensures -1 <= ByteOf(text, unit) <= Bytes(text)
    ensures unit < 0 || unit > Length(text) ==> ByteOf(text, unit) == -1
    ensures unit == Length(text) ==> ByteOf(text, unit) == Bytes(text)
  {
    if text != [] {
      ByteOfBounds(text[1..], unit - Units(text[0]));
    }
  }

  lemma {:induction false} ByteOfGrows(text: seq<Rune>, from: int, to: int)
    requires Real(text) && 0 <= from < to && ByteOf(text, from) >= 0 && ByteOf(text, to) >= 0
    ensures ByteOf(text, from) < ByteOf(text, to)
  {
    if from > 0 {
      ByteOfGrows(text[1..], from - Units(text[0]), to - Units(text[0]));
    }
  }

  lemma {:induction false} Split(a: seq<Rune>, b: seq<Rune>, unit: int)
    ensures Length(a + b) == Length(a) + Length(b) && Bytes(a + b) == Bytes(a) + Bytes(b)
    ensures 0 <= unit < Length(a) ==> ByteOf(a + b, unit) == ByteOf(a, unit)
    ensures unit >= Length(a) ==>
              ByteOf(a + b, unit) == if ByteOf(b, unit - Length(a)) < 0 then -1 else Bytes(a) + ByteOf(b, unit - Length(a))
  {
    if a == [] {
      assert a + b == b;
    } else {
      assert (a + b)[1..] == a[1..] + b;
      Split(a[1..], b, unit - Units(a[0]));
    }
  }

  /** The boundary table of countLinkOccurrences. */
  method Boundaries(text: seq<Rune>) returns (table: seq<int>)
    ensures |table| == Length(text) + 1
    ensures forall unit :: 0 <= unit < |table| ==> table[unit] == ByteOf(text, unit)
  {
    table := [];
    var i, at := 0, 0;
    while i < |text|
      invariant i <= |text| && at == Bytes(text[..i]) && |table| == Length(text[..i])
      invariant forall unit :: 0 <= unit < |table| ==> table[unit] == ByteOf(text, unit)
    {
      Rise(text, i);
      table := table + [at];
      if text[i].code > 0xFFFF {
        table := table + [-1];
      }
      at := at + text[i].width;
      i := i + 1;
    }
    assert text[..i] == text;
    ByteOfBounds(text, Length(text));
    table := table + [at];
  }

  /** What one more code point adds. */
  lemma Rise(text: seq<Rune>, i: nat)
    requires i < |text|
    ensures Length(text[..i + 1]) == Length(text[..i]) + Units(text[i]) <= Length(text)
    ensures Bytes(text[..i + 1]) == Bytes(text[..i]) + text[i].width
    ensures ByteOf(text, Length(text[..i])) == Bytes(text[..i])
    ensures Units(text[i]) == 2 ==> ByteOf(text, Length(text[..i]) + 1) == -1
  {
    var done, rest := text[..i], text[i..];
    assert text[..i + 1] == done + [text[i]];
    Split(done, [text[i]], 0);
    assert text == done + rest;
    Split(done, rest, Length(done));
    Split(done, rest, Length(done) + 1);
    Within(rest);
  }

  /** The first unit of a text is a boundary; the second is one only if the first code point is one unit. */
  lemma Within(text: seq<Rune>)
    requires text != []
    ensures ByteOf(text, 0) == 0 && Units(text[0]) <= Length(text)
    ensures Units(text[0]) == 2 ==> ByteOf(text, 1) == -1
  {
  }

  /** Go's int addition. */
  function Add64(a: int, b: int): int {
    (a + b + 0x8000_0000_0000_0000) % 0x1_0000_0000_0000_0000 - 0x8000_0000_0000_0000
  }

  predicate Int64(n: int) {
    -0x8000_0000_0000_0000 <= n < 0x8000_0000_0000_0000
  }

  /** A half-open range of bytes. */
  type Span = (int, int)

  /** The bytes an entity covers: both ends must be boundaries. */
  function Covered(text: seq<Rune>, offset: int, length: int): (s: Option<Span>) {
    if offset < 0 || length <= 0 || ByteOf(text, offset) < 0 || ByteOf(text, offset + length) < 0 then None
    else Some((ByteOf(text, offset), ByteOf(text, offset + length)))
  }

  lemma CoveredIsNonEmpty(text: seq<Rune>, offset: int, length: int)
    requires Real(text) && Covered(text, offset, length).Some?
    ensures var s := Covered(text, offset, length).value; 0 <= s.0 < s.1 <= Bytes(text)
  {
    ByteOfGrows(text, offset, offset + length);
    ByteOfBounds(text, offset + length);
  }

  /** The table lookup of countLinkOccurrences: checked before adding, so nothing wraps. */
  method LookUp(text: seq<Rune>, table: seq<int>, offset: int, length: int) returns (s: Option<Span>)
    requires |table| == Length(text) + 1
    requires forall unit :: 0 <= unit < |table| ==> table[unit] == ByteOf(text, unit)
    ensures s == Covered(text, offset, length)
  {
    var units := |table| - 1;
    ByteOfBounds(text, offset);
    ByteOfBounds(text, offset + length);
    if offset < 0 || length <= 0 || offset > units || length > units - offset {
      return None;
    }
    var start, end := table[offset], table[offset + length];
    s := if start >= 0 && end >= 0 then Some((start, end)) else None;
  }

  /** entitySpan, whose sum may wrap; None stands for its empty string. It covers exactly the
      bytes the table lookup finds. */
  method EntitySpan(text: seq<Rune>, offset: int, length: int) returns (s: Option<Span>)
    requires Real(text) && Int64(offset) && Int64(length)
    ensures s == Covered(text, offset, length)
  {
    hide ByteOf;
    if offset < 0 || length <= 0 {
      return None;
    }
    var sum := Add64(offset, length);
    var units, start, end, i, at := 0, -1, -1, 0, 0;
    while i < |text|
      invariant i <= |text| && at == Bytes(text[..i]) && units == Length(text[..i])
      invariant end == -1
      invariant start == if offset < units then ByteOf(text, offset) else -1
      invariant 0 <= sum < units ==> ByteOf(text, sum) < 0
    {
      Rise(text, i);
      if units == offset && start < 0 {
        start := at;
      }
      if units == sum && end < 0 {
        end := at;
        break;
      }
      units := units + Units(text[i]);
      at := at + text[i].width;
      i := i + 1;
    }
    ByteOfBounds(text, offset);
    ByteOfBounds(text, offset + length);
    assert i == |text| ==> text[..i] == text;
    if start < 0 {
      if units != offset {
        return None;
      }
      start := at;
    }
    if end < 0 {
      if units != sum {
        return None;
      }
      end := at;
    }
    s := Some((start, end));
  }

  // Which spans are counted.

  datatype Kind = Url | TextLink | Other

  datatype Entity = Entity(kind: Kind, url: string, offset: int, length: int)

  predicate IsLink(e: Entity) {
    e.kind.Url? || (e.kind.TextLink? && e.url != "")
  }

  function LinkEntities(text: seq<Rune>, entities: seq<Entity>): seq<Span> {
    if entities == [] then []
    else
      var e := entities[|entities| - 1];
      var s := Covered(text, e.offset, e.length);
      LinkEntities(text, entities[..|entities| - 1]) + if IsLink(e) && s.Some? then [s.value] else []
  }

  /** The regex matches, then the spans of the link entities. */
  method Collect(text: seq<Rune>, entities: seq<Entity>, found: seq<Span>) returns (spans: seq<Span>)
    ensures spans == found + LinkEntities(text, entities)
  {
    spans := found;
    var table := Boundaries(text);
    var i := 0;
    while i < |entities|
      invariant i <= |entities|
      invariant spans == found + LinkEntities(text, entities[..i])
    {
      assert entities[..i + 1][..i] == entities[..i];
      if IsLink(entities[i]) {
        var s := LookUp(text, table, entities[i].offset, entities[i].length);
        if s.Some? {
          spans := spans + [s.value];
        }
      }
      i := i + 1;
    }
    assert entities[..i] == entities;
  }

  // What the count means.

  predicate NonEmpty(spans: seq<Span>) {
    forall s :: s in spans ==> 0 <= s.0 < s.1
  }

  predicate Inside(spans: seq<Span>, at: int) {
    exists s :: s in spans && s.0 < at < s.1
  }

  /** The starts not strictly inside another span. */
  ghost function Heads(spans: seq<Span>): set<int> {
    set s | s in spans && !Inside(spans, s.0) :: s.0
  }

  predicate Overlap(p: Span, q: Span) {
    p.0 < q.1 && q.0 < p.1
  }

  /** A chain of spans, each overlapping the next. */
  ghost predicate Chain(spans: seq<Span>, chain: seq<Span>) {
    && (forall s :: s in chain ==> s in spans)
    && (forall i :: 0 < i < |chain| ==> Overlap(chain[i - 1], chain[i]))
  }

  ghost predicate Linked(spans: seq<Span>, p: Span, q: Span) {
    exists chain :: Chain(spans, chain) && chain != [] && chain[0] == p && chain[|chain| - 1] == q
  }

  /** The greatest head at or before a start. */
  ghost function Head(spans: seq<Span>, at: nat): (h: int)
    requires NonEmpty(spans) && exists s :: s in spans && s.0 == at
    ensures h <= at && h in Heads(spans)
    ensures forall k :: k in Heads(spans) && k <= at ==> k <= h
    decreases at
  {
    if !Inside(spans, at) then at
    else
      var s :| s in spans && s.0 < at < s.1;
      Head(spans, s.0)
  }

  lemma Join(spans: seq<Span>, p: Span, q: Span, r: Span)
    requires Linked(spans, p, q) && r in spans && Overlap(q, r)
    ensures Linked(spans, p, r)
  {
    var chain :| Chain(spans, chain) && chain != [] && chain[0] == p && chain[|chain| - 1] == q;
    assert Chain(spans, chain + [r]);
  }

  lemma {:induction false} Reversed(spans: seq<Span>, chain: seq<Span>)
    requires Chain(spans, chain) && chain != []
    ensures Linked(spans, chain[|chain| - 1], chain[0])
  {
    if |chain| == 1 {
      assert Chain(spans, [chain[0]]);
    } else {
      Reversed(spans, chain[1..]);
      Join(spans, chain[|chain| - 1], chain[1], chain[0]);
    }
  }

  /** Every span is linked to one that starts at its head. */
  lemma {:induction false} Rooted(spans: seq<Span>, p: Span)
    requires NonEmpty(spans) && p in spans
    ensures exists root :: root in spans && root.0 == Head(spans, p.0) && Linked(spans, root, p)
    decreases p.0
  {
    if !Inside(spans, p.0) {
      assert Chain(spans, [p]) && Linked(spans, p, p);
    } else {
      var s :| s in spans && s.0 < p.0 < s.1 && Head(spans, p.0) == Head(spans, s.0);
      Rooted(spans, s);
      var root :| root in spans && root.0 == Head(spans, s.0) && Linked(spans, root, s);
      Join(spans, root, s, p);
    }
  }

  lemma {:induction false} Onward(spans: seq<Span>, p: Span, chain: seq<Span>)
    requires Chain(spans, chain) && chain != [] && Linked(spans, p, chain[0])
    ensures Linked(spans, p, chain[|chain| - 1])
  {
    if |chain| > 1 {
      Join(spans, p, chain[0], chain[1]);
      Onward(spans, p, chain[1..]);
    }
  }

  lemma Overlapping(spans: seq<Span>, p: Span, q: Span)
    requires NonEmpty(spans) && p in spans && q in spans && Overlap(p, q) && p.0 <= q.0
    ensures Head(spans, p.0) == Head(spans, q.0)
  {
  }

  lemma {:induction false} SameHead(spans: seq<Span>, chain: seq<Span>)
    requires NonEmpty(spans) && Chain(spans, chain) && chain != []
    ensures Head(spans, chain[0].0) == Head(spans, chain[|chain| - 1].0)
  {
    if |chain| > 1 {
      var p, q := chain[0], chain[1];
      if p.0 <= q.0 { Overlapping(spans, p, q); } else { Overlapping(spans, q, p); }
      SameHead(spans, chain[1..]);
    }
  }

  /** Two spans describe one link exactly when a chain of overlaps joins them: the heads are one
      to one with the groups of overlapping spans. */
  lemma OneLink(spans: seq<Span>, p: Span, q: Span)
    requires NonEmpty(spans) && p in spans && q in spans
    ensures Linked(spans, p, q) <==> Head(spans, p.0) == Head(spans, q.0)
  {
    if Linked(spans, p, q) {
      var chain :| Chain(spans, chain) && chain != [] && chain[0] == p && chain[|chain| - 1] == q;
      SameHead(spans, chain);
    }
    if Head(spans, p.0) == Head(spans, q.0) {
      Rooted(spans, p);
      Rooted(spans, q);
      var a :| a in spans && a.0 == Head(spans, p.0) && Linked(spans, a, p);
      var b :| b in spans && b.0 == Head(spans, p.0) && Linked(spans, b, q);
      var down :| Chain(spans, down) && down != [] && down[0] == a && down[|down| - 1] == p;
      Reversed(spans, down);
      Join(spans, p, a, b);
      var up :| Chain(spans, up) && up != [] && up[0] == b && up[|up| - 1] == q;
      Onward(spans, p, up);
    }
  }

  /** Every head is the head of a group. */
  lemma HeadOfItself(spans: seq<Span>, h: int)
    requires NonEmpty(spans) && h in Heads(spans)
    ensures exists s :: s in spans && s.0 == h && Head(spans, s.0) == h
  {
  }

  // The sweep.

  predicate ByStart(spans: seq<Span>) {
    forall i, j :: 0 <= i < j < |spans| ==> spans[i].0 <= spans[j].0
  }

  /** The end of the furthest span; -1 before any. */
  predicate Furthest(spans: seq<Span>, end: int) {
    && (forall t :: t in spans ==> t.1 <= end)
    && (if spans == [] then end == -1 else exists t :: t in spans && t.1 == end)
  }

  lemma Further(spans: seq<Span>, s: Span, end: int)
    requires Furthest(spans, end) && s.1 >= 0
    ensures Furthest(spans + [s], if s.1 > end then s.1 else end)
  {
  }

  /** What one more span, not before the others, adds to the heads. */
  lemma NextHead(spans: seq<Span>, s: Span, end: int)
    requires ByStart(spans + [s]) && NonEmpty(spans + [s])
    requires Furthest(spans, end)
    ensures Heads(spans + [s]) == Heads(spans) + (if s.0 >= end then {s.0} else {})
    ensures |Heads(spans + [s])| == |Heads(spans)| + (if s.0 >= end then 1 else 0)
  {
    assert forall t :: t in spans + [s] <==> t in spans || t == s;
    assert forall t :: t in spans ==> t.0 <= s.0 by {
      assert forall i :: 0 <= i < |spans| ==> (spans + [s])[i] == spans[i];
      assert (spans + [s])[|spans|] == s;
    }
    forall t | t in spans
      ensures Inside(spans + [s], t.0) <==> Inside(spans, t.0)
    {
    }
    if s.0 < end {
      var t :| t in spans && t.1 == end;
      assert t.0 < s.0 ==> Inside(spans + [s], s.0);
      assert t.0 == s.0 ==> (s.0 in Heads(spans + [s]) <==> s.0 in Heads(spans));
    }
  }

  lemma Prefix(spans: seq<Span>, n: nat)
    requires n <= |spans| && ByStart(spans) && NonEmpty(spans)
    ensures ByStart(spans[..n]) && NonEmpty(spans[..n])
  {
  }

  /** The loop of countLinkOccurrences over spans the sort has put in order of start, ties in any
      order: it counts the groups of overlapping spans. */
  method Sweep(spans: seq<Span>) returns (count: nat)
    requires ByStart(spans) && NonEmpty(spans)
    ensures count == |Heads(spans)|
  {
    var end, i := -1, 0;
    count := 0;
    while i < |spans|
      invariant i <= |spans| && count == |Heads(spans[..i])|
      invariant Furthest(spans[..i], end)
    {
      assert spans[..i + 1] == spans[..i] + [spans[i]];
      Prefix(spans, i + 1);
      NextHead(spans[..i], spans[i], end);
      Further(spans[..i], spans[i], end);
      if spans[i].0 >= end {
        count := count + 1;
      }
      if spans[i].1 > end {
        end := spans[i].1;
      }
      i := i + 1;
    }
    assert spans[..i] == spans;
  }

  /** Any two arrangements of the same spans have the same heads. */
  lemma AnyOrder(a: seq<Span>, b: seq<Span>)
    requires multiset(a) == multiset(b)
    ensures Heads(a) == Heads(b)
  {
    assert forall s :: s in a <==> s in multiset(a);
    assert forall s :: s in b <==> s in multiset(b);
  }

  lemma {:induction false} EntitiesAreNonEmpty(text: seq<Rune>, entities: seq<Entity>)
    requires Real(text)
    ensures NonEmpty(LinkEntities(text, entities))
  {
    if entities != [] {
      var e := entities[|entities| - 1];
      EntitiesAreNonEmpty(text, entities[..|entities| - 1]);
      if Covered(text, e.offset, e.length).Some? {
        CoveredIsNonEmpty(text, e.offset, e.length);
      }
    }
  }

  /** countLinkOccurrences: `found` are the regex matches and `sorted` is what the sort made of
      all the spans. */
  method CountLinkOccurrences(text: seq<Rune>, entities: seq<Entity>, found: seq<Span>, sorted: seq<Span>)
    returns (count: nat)
    requires Real(text) && NonEmpty(found) && ByStart(sorted)
    requires multiset(sorted) == multiset(found + LinkEntities(text, entities))
    ensures count == |Heads(found + LinkEntities(text, entities))|
  {
    var spans := Collect(text, entities, found);
    EntitiesAreNonEmpty(text, entities);
    assert forall s :: s in sorted <==> s in multiset(sorted);
    assert forall s :: s in spans <==> s in multiset(spans);
    AnyOrder(sorted, spans);
    count := Sweep(sorted);
  }
}
