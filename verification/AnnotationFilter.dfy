/** The streaming filter that removes the reserved runtime note from assistant text, and the batch
    function it must agree with.

    A string is a sequence of bytes: each `char` stands for one byte of the original's UTF-8 text. */
module AnnotationFilter {

  const MARKER: string := "[runtime:"

  predicate Blank(c: char) { c in " \t\r\n" }

  function Fold(c: char): char {
    if 'A' <= c <= 'Z' then (c as int + 32) as char else c
  }

  predicate EqualFold(left: string, right: string) {
    |left| == |right| && forall i :: 0 <= i < |left| ==> Fold(left[i]) == Fold(right[i])
  }

  predicate OccursAt(t: string, m: string, p: int) {
    0 <= p && p + |m| <= |t| && EqualFold(t[p..p + |m|], m)
  }

  predicate MarkerAt(t: string, p: int) { OccursAt(t, MARKER, p) }

  ghost predicate Clean(t: string) { forall p :: 0 <= p ==> !MarkerAt(t, p) }

  /** The last k bytes of t could be the beginning of a marker. */
  predicate Partial(t: string, k: int) {
    0 <= k <= |t| && k < |MARKER| && EqualFold(t[|t| - k..], MARKER[..k])
  }

  ghost predicate Longest(t: string, k: int) {
    0 <= k <= |t| && Partial(t, k) && forall j :: k < j ==> !Partial(t, j)
  }

  /** Steps back from n over blank bytes. */
  function Back(t: string, n: nat): (m: nat)
    requires n <= |t|
    ensures m <= n && (m == 0 || !Blank(t[m - 1]))
    ensures forall i :: m <= i < n ==> Blank(t[i])
  {
    if n > 0 && Blank(t[n - 1]) then Back(t, n - 1) else n
  }

  /** The first marker at or after p, or -1. */
  function IndexFrom(t: string, p: nat): (r: int)
    ensures r < 0 ==> forall q :: p <= q ==> !MarkerAt(t, q)
    ensures r >= 0 ==> p <= r <= |t| && MarkerAt(t, r) && forall q :: p <= q < r ==> !MarkerAt(t, q)
    decreases |t| - p
  {
    if p + |MARKER| > |t| then -1 else if MarkerAt(t, p) then p else IndexFrom(t, p + 1)
  }

  function Index(t: string): (r: int)
    ensures r <= |t|
  {
    IndexFrom(t, 0)
  }

  /** What a stream carrying the whole text t must deliver. */
  function Reference(t: string): string {
    if Index(t) < 0 then t else t[..Back(t, Index(t))]
  }

  // ---- Laws of the reference ---------------------------------------------------------------

  lemma {:induction false} BackExtends(t: string, u: string, n: nat)
    requires n <= |t|
    ensures Back(t + u, n) == Back(t, n)
  {
    if n > 0 && Blank(t[n - 1]) { BackExtends(t, u, n - 1); }
  }

  lemma {:induction false} BackShifts(pre: string, t: string, n: nat)
    requires n <= |t| && (pre == "" || !Blank(pre[|pre| - 1]))
    ensures Back(pre + t, |pre| + n) == |pre| + Back(t, n)
  {
    if n > 0 && Blank(t[n - 1]) { BackShifts(pre, t, n - 1); }
  }

  lemma MarkerShifts(pre: string, t: string, p: int)
    requires 0 <= p
    ensures MarkerAt(pre + t, |pre| + p) == MarkerAt(t, p)
  {
    if p + |MARKER| <= |t| {
      assert (pre + t)[|pre| + p..|pre| + p + |MARKER|] == t[p..p + |MARKER|];
    }
  }

  lemma MarkerStays(t: string, u: string, p: int)
    requires p + |MARKER| <= |t|
    ensures MarkerAt(t + u, p) == MarkerAt(t, p)
  {
    if 0 <= p {
      assert (t + u)[p..p + |MARKER|] == t[p..p + |MARKER|];
    }
  }

  lemma FoundStays(t: string, u: string)
    requires Index(t) >= 0
    ensures Index(t + u) == Index(t) && Reference(t + u) == Reference(t)
  {
    var i := Index(t);
    MarkerStays(t, u, i);
    forall q | 0 <= q < i ensures !MarkerAt(t + u, q) { MarkerStays(t, u, q); }
    BackExtends(t, u, i);
    assert (t + u)[..Back(t, i)] == t[..Back(t, i)];
  }

  /** The text t has no marker and the filter may have released exactly t[..n]: what follows is blanks
      and then the longest suffix that could still become a marker. */
  ghost predicate Withheld(t: string, n: nat) {
    && Clean(t)
    && exists k :: Longest(t, k) && n == Back(t, |t| - k)
  }

  lemma WithheldEnds(t: string, n: nat)
    requires Withheld(t, n)
    ensures n <= |t| && (n == 0 || !Blank(t[n - 1]))
  {
  }

  /** No marker can begin inside the released part, whatever arrives later. */
  lemma ReleasedIsSafe(t: string, n: nat, u: string, p: int)
    requires Withheld(t, n) && p < n
    ensures !MarkerAt(t + u, p)
  {
    if MarkerAt(t + u, p) {
      LongerPartial(t, u, p);
    }
  }

  /** Every later continuation keeps the released part ... */
  lemma ReleasedIsKept(t: string, n: nat, u: string)
    requires Withheld(t, n)
    ensures n <= |Reference(t + u)| && Reference(t + u)[..n] == t[..n]
  {
    hide MarkerAt, Withheld;
    WithheldEnds(t, n);
    var i := Index(t + u);
    if i >= 0 {
      if i < n { ReleasedIsSafe(t, n, u, i); }
      BackKeeps(t + u, n, i);
    }
  }

  lemma {:induction false} BackKeeps(t: string, n: nat, i: nat)
    requires n <= i <= |t| && (n == 0 || !Blank(t[n - 1]))
    ensures n <= Back(t, i)
  {
    if n < i && Blank(t[i - 1]) { BackKeeps(t, n, i - 1); }
  }

  /** ... and some continuation delivers nothing more, so no filter can release more than this one. */
  lemma ReleasedIsMost(t: string, n: nat) returns (u: string)
    requires Withheld(t, n)
    ensures Reference(t + u) == t[..n]
  {
    var k :| Longest(t, k) && n == Back(t, |t| - k);
    hide MarkerAt, Partial;
    u := MARKER[k..];
    PartialCompletes(t, k);
    forall q | 0 <= q < |t| - k ensures !MarkerAt(t + u, q) {
      if MarkerAt(t + u, q) { LongerPartial(t, u, q); }
    }
    assert Index(t + u) == |t| - k;
    BackExtends(t, u, |t| - k);
    assert (t + u)[..n] == t[..n];
  }

  lemma PartialCompletes(t: string, k: int)
    requires Partial(t, k)
    ensures MarkerAt(t + MARKER[k..], |t| - k)
  {
    var s := t + MARKER[k..];
    forall i | 0 <= i < |MARKER| ensures Fold(s[|t| - k..|t| - k + |MARKER|][i]) == Fold(MARKER[i]) {
      assert i < k ==> t[|t| - k..][i] == t[|t| - k + i] && MARKER[..k][i] == MARKER[i];
    }
  }

  lemma LongerPartial(t: string, u: string, q: int)
    requires Clean(t) && MarkerAt(t + u, q) && q < |t|
    ensures Partial(t, |t| - q)
  {
    if q + |MARKER| <= |t| { MarkerStays(t, u, q); }
    var j := |t| - q;
    forall i | 0 <= i < j ensures Fold(t[q..][i]) == Fold(MARKER[..j][i]) {
      assert (t + u)[q..q + |MARKER|][i] == t[q + i];
    }
  }

  /** What is withheld is determined by the text, not by how it was cut. */
  lemma WithheldIsUnique(t: string, m: nat, n: nat)
    requires Withheld(t, m) && Withheld(t, n)
    ensures m == n
  {
    var j :| Longest(t, j) && m == Back(t, |t| - j);
    var k :| Longest(t, k) && n == Back(t, |t| - k);
    assert j == k;
  }

  // ---- The scanning loops ------------------------------------------------------------------

  method EqualASCIIFold(left: string, right: string) returns (equal: bool)
    ensures equal == EqualFold(left, right)
  {
    if |left| != |right| { return false; }
    for offset := 0 to |right|
      invariant forall i :: 0 <= i < offset ==> Fold(left[i]) == Fold(right[i])
    {
      if Fold(left[offset]) != Fold(right[offset]) { return false; }
    }
    return true;
  }

  method IndexASCIIFold(content: string, marker: string) returns (index: int)
    ensures index < 0 ==> forall p :: !OccursAt(content, marker, p)
    ensures index >= 0 ==> OccursAt(content, marker, index) && forall p :: p < index ==> !OccursAt(content, marker, p)
  {
    if marker == "" { return 0; }
    if |content| < |marker| { return -1; }
    index := 0;
    while index <= |content| - |marker|
      invariant 0 <= index
      invariant forall p :: p < index ==> !OccursAt(content, marker, p)
    {
      var here := EqualASCIIFold(content[index..index + |marker|], marker);
      if here { return; }
      index := index + 1;
    }
    index := -1;
  }

  /** The start of the suffix to retain: the longest possible marker beginning, then blanks before it. */
  method RetainFrom(combined: string) returns (start: nat, k: nat)
    ensures Longest(combined, k) && start == Back(combined, |combined| - k)
  {
    var length := if |combined| < |MARKER| then |combined| else |MARKER| - 1;
    while length > 0
      invariant 0 <= length <= |combined| && length < |MARKER|
      invariant forall j :: length < j ==> !Partial(combined, j)
    {
      var here := EqualASCIIFold(combined[|combined| - length..], MARKER[..length]);
      if here { break; }
      length := length - 1;
    }
    k := length;
    start := |combined| - length;
    while start > 0 && Blank(combined[start - 1])
      invariant start <= |combined| && Back(combined, start) == Back(combined, |combined| - k)
    {
      start := start - 1;
    }
  }

  // ---- The filter --------------------------------------------------------------------------

  /** One push cannot uncover a marker in what was already released. */
  lemma PushFinds(pre: string, rest: string, content: string)
    requires Withheld(pre + rest, |pre|)
    ensures var combined := rest + content;
            && (Index(combined) < 0 ==> Index(pre + combined) < 0)
            && (Index(combined) >= 0 ==>
                  && Index(pre + combined) == |pre| + Index(combined)
                  && Reference(pre + combined) == pre + combined[..Back(combined, Index(combined))])
  {
    hide MarkerAt, Withheld, Index;
    var combined := rest + content;
    assert pre + combined == pre + rest + content;
    forall p | p < |pre| ensures !MarkerAt(pre + combined, p) { ReleasedIsSafe(pre + rest, |pre|, content, p); }
    IndexShifts(pre, combined);
    if Index(combined) >= 0 {
      WithheldEnds(pre + rest, |pre|);
      BackShifts(pre, combined, Index(combined));
    }
  }

  lemma IndexShifts(pre: string, t: string)
    requires forall p :: p < |pre| ==> !MarkerAt(pre + t, p)
    ensures if Index(t) < 0 then Index(pre + t) < 0 else Index(pre + t) == |pre| + Index(t)
  {
    forall p | |pre| <= p ensures MarkerAt(pre + t, p) == MarkerAt(t, p - |pre|) {
      MarkerShifts(pre, t, p - |pre|);
    }
    hide MarkerAt;
    var i := Index(t);
    if i >= 0 {
      assert MarkerAt(pre + t, |pre| + i);
    }
  }

  /** After a push without a marker, what is retained is what the whole text calls for. */
  lemma PushRetains(pre: string, rest: string, content: string, k: nat)
    requires Withheld(pre + rest, |pre|)
    requires Index(rest + content) < 0 && Longest(rest + content, k)
    ensures var combined := rest + content;
            Withheld(pre + combined, |pre| + Back(combined, |combined| - k))
  {
    hide Partial, MarkerAt;
    var combined := rest + content;
    var whole := pre + combined;
    PushFinds(pre, rest, content);
    WithheldEnds(pre + rest, |pre|);
    PartialShifts(pre, combined, k);
    forall j | k < j ensures !Partial(whole, j) {
      if j <= |combined| {
        PartialShifts(pre, combined, j);
      } else if Partial(whole, j) {
        assert whole == pre + rest + content;
        OlderPartial(pre + rest, content, j);
      }
    }
    BackShifts(pre, combined, |combined| - k);
    assert Longest(whole, k);
  }

  lemma PartialShifts(pre: string, t: string, k: int)
    requires 0 <= k <= |t|
    ensures Partial(pre + t, k) == Partial(t, k)
  {
    assert (pre + t)[|pre + t| - k..] == t[|t| - k..];
  }

  lemma OlderPartial(t: string, content: string, j: int)
    requires Partial(t + content, j) && |content| <= j
    ensures Partial(t, j - |content|)
  {
    var whole, m := t + content, j - |content|;
    forall i | 0 <= i < m ensures Fold(t[|t| - m..][i]) == Fold(MARKER[..m][i]) {
      assert whole[|whole| - j..][i] == t[|t| - m + i] && MARKER[..j][i] == MARKER[i];
    }
  }

  lemma IndexIs(t: string, index: int)
    requires index < 0 ==> forall p :: !OccursAt(t, MARKER, p)
    requires index >= 0 ==> OccursAt(t, MARKER, index) && forall p :: p < index ==> !OccursAt(t, MARKER, p)
    ensures if index >= 0 then index == Index(t) else Index(t) < 0
  {
    var i := Index(t);
    assert i >= 0 ==> MarkerAt(t, i);
    assert index >= 0 ==> MarkerAt(t, index);
  }

  /** The filter's state agrees with everything pushed and everything released so far. */
  ghost predicate Agrees(found: bool, pending: string, seen: string, released: string) {
    if found then Index(seen) >= 0 && released == Reference(seen) && pending == ""
    else Withheld(seen, |released|) && released + pending == seen
  }

  lemma AgreesAtStart()
    ensures Agrees(false, "", "", "")
  {
    assert Longest("", 0);
  }

  lemma PushAfterMarker(pending: string, seen: string, released: string, content: string)
    requires Agrees(true, pending, seen, released)
    ensures Agrees(true, pending, seen + content, released)
  {
    FoundStays(seen, content);
  }

  lemma PushMarker(pending: string, seen: string, released: string, content: string)
    requires Agrees(false, pending, seen, released) && Index(pending + content) >= 0
    ensures var combined := pending + content;
            Agrees(true, "", seen + content, released + combined[..Back(combined, Index(combined))])
  {
    hide Withheld, Index, Reference;
    assert seen + content == released + (pending + content);
    PushFinds(released, pending, content);
  }

  lemma PushPlain(pending: string, seen: string, released: string, content: string, k: nat)
    requires Agrees(false, pending, seen, released)
    requires Index(pending + content) < 0 && Longest(pending + content, k)
    ensures var combined := pending + content;
            var start := Back(combined, |combined| - k);
            Agrees(false, combined[start..], seen + content, released + combined[..start])
  {
    hide Withheld, Index, Partial;
    var combined := pending + content;
    var start := Back(combined, |combined| - k);
    assert seen + content == released + combined;
    PushRetains(released, pending, content, k);
    assert released + combined[..start] + combined[start..] == released + combined;
  }

  class RuntimeAnnotationFilter {
    var pending: string
    var found: bool
    /** Everything pushed, and everything released, since the stream began. */
    ghost var seen: string
    ghost var released: string

    ghost predicate Valid() reads this { Agrees(found, pending, seen, released) }

    constructor ()
      ensures Valid() && seen == "" && released == "" && !found
    {
      hide Agrees;
      AgreesAtStart();
      pending, found, seen, released := "", false, "", "";
    }

    method Push(content: string) returns (out: string)
      requires Valid()
      modifies this
      ensures Valid()
      ensures seen == old(seen) + content && released == old(released) + out
    {
      hide Agrees, Index, Longest, Back, OccursAt, MarkerAt;
      if found {
        PushAfterMarker(pending, seen, released, content);
        seen := seen + content;
        return "";
      }
      var combined := pending + content;
      var index := IndexASCIIFold(combined, MARKER);
      IndexIs(combined, index);
      if index >= 0 {
        PushMarker(pending, seen, released, content);
        pending, found := "", true;
        out := combined[..Back(combined, index)];
      } else {
        var start: nat, k: nat := RetainFrom(combined);
        PushPlain(pending, seen, released, content, k);
        pending := combined[start..];
        out := combined[..start];
      }
      seen, released := seen + content, released + out;
    }

    /** Releases the retained suffix of a stream that never completed the marker. */
    method Finish() returns (out: string)
      requires Valid()
      modifies this
      ensures old(released) + out == Reference(old(seen)) && found == old(found)
      ensures Valid()
    {
      if found { return ""; }
      out := pending;
      pending := "";
      AgreesAtStart();
      seen, released := "", "";
    }
  }

  function Flatten(chunks: seq<string>): string {
    if chunks == [] then "" else Flatten(chunks[..|chunks| - 1]) + chunks[|chunks| - 1]
  }

  /** A whole stream, in any chunks, delivers the reference of its text. */
  method Stream(chunks: seq<string>) returns (out: string, found: bool)
    ensures out == Reference(Flatten(chunks)) && found == (Index(Flatten(chunks)) >= 0)
  {
    var filter := new RuntimeAnnotationFilter();
    out := "";
    for i := 0 to |chunks|
      invariant filter.Valid() && fresh(filter)
      invariant filter.seen == Flatten(chunks[..i]) && filter.released == out
    {
      assert chunks[..i + 1][..i] == chunks[..i];
      var part := filter.Push(chunks[i]);
      out := out + part;
    }
    assert chunks[..|chunks|] == chunks;
    found := filter.found;
    var tail := filter.Finish();
    out := out + tail;
  }

  // ---- Agreement with the batch function ---------------------------------------------------

  predicate AsciiSpace(c: char) { c in "\t\n\r " || c as int == 0x0b || c as int == 0x0c }

  /** The bytes b, c (and d) encode a white-space rune beyond ASCII. */
  predicate Space2(b: char, c: char) { b as int == 0xC2 && c as int in {0x85, 0xA0} }

  predicate Space3(b: char, c: char, d: char) {
    || (b as int == 0xE1 && c as int == 0x9A && d as int == 0x80)
    || (b as int == 0xE2 && c as int == 0x80 && (0x80 <= d as int <= 0x8A || d as int in {0xA8, 0xA9, 0xAF}))
    || (b as int == 0xE2 && c as int == 0x81 && d as int == 0x9F)
    || (b as int == 0xE3 && c as int == 0x80 && d as int == 0x80)
  }

  /** Length in bytes of the white-space rune the text begins with, or zero. */
  function SpaceHead(s: string): (n: nat)
    ensures n <= |s|
  {
    if |s| >= 1 && AsciiSpace(s[0]) then 1
    else if |s| >= 2 && Space2(s[0], s[1]) then 2
    else if |s| >= 3 && Space3(s[0], s[1], s[2]) then 3
    else 0
  }

  function SpaceTail(s: string): (n: nat)
    ensures n <= |s|
  {
    var e := |s|;
    if e >= 1 && AsciiSpace(s[e - 1]) then 1
    else if e >= 2 && Space2(s[e - 2], s[e - 1]) then 2
    else if e >= 3 && Space3(s[e - 3], s[e - 2], s[e - 1]) then 3
    else 0
  }

  function TrimLeft(s: string): string {
    if SpaceHead(s) > 0 then TrimLeft(s[SpaceHead(s)..]) else s
  }

  function TrimRight(s: string): string {
    if SpaceTail(s) > 0 then TrimRight(s[..|s| - SpaceTail(s)]) else s
  }

  function TrimSpace(s: string): string { TrimRight(TrimLeft(s)) }

  /** The batch function: the text before the first marker, trimmed, and whether there was one. */
  function StripRuntimeAnnotations(content: string): (string, bool) {
    if Index(content) < 0 then (content, false) else (TrimSpace(content[..Index(content)]), true)
  }

  lemma {:induction false} TrimLeftSnoc(s: string, c: char)
    requires Blank(c)
    ensures TrimLeft(s + [c]) == if TrimLeft(s) == "" then "" else TrimLeft(s) + [c]
    decreases |s|
  {
    var h := SpaceHead(s);
    if s == "" {
      assert s + [c] == [c] && SpaceHead([c]) == 1 && [c][1..] == "";
    } else if h > 0 {
      assert SpaceHead(s + [c]) == h && (s + [c])[h..] == s[h..] + [c];
      TrimLeftSnoc(s[h..], c);
    } else {
      assert SpaceHead(s + [c]) == 0;
    }
  }

  lemma TrimSpaceSnoc(s: string, c: char)
    requires Blank(c)
    ensures TrimSpace(s + [c]) == TrimSpace(s)
  {
    TrimLeftSnoc(s, c);
    var t := TrimLeft(s);
    if t != "" {
      assert SpaceTail(t + [c]) == 1 && (t + [c])[..|t|] == t;
    }
  }

  lemma {:induction false} TrimSpaceBack(t: string, n: nat)
    requires n <= |t|
    ensures TrimSpace(t[..Back(t, n)]) == TrimSpace(t[..n])
  {
    if n > 0 && Blank(t[n - 1]) {
      TrimSpaceBack(t, n - 1);
      assert t[..n] == t[..n - 1] + [t[n - 1]];
      TrimSpaceSnoc(t[..n - 1], t[n - 1]);
    }
  }

  /** The stream finds a marker exactly when the batch function does, changes nothing otherwise, and
      then delivers the batch result up to outer white space. */
  lemma StreamAgreesWithBatch(t: string)
    ensures StripRuntimeAnnotations(t).1 <==> Index(t) >= 0
    ensures Index(t) < 0 ==> Reference(t) == t == StripRuntimeAnnotations(t).0
    ensures Index(t) >= 0 ==> TrimSpace(Reference(t)) == StripRuntimeAnnotations(t).0
  {
    if Index(t) >= 0 { TrimSpaceBack(t, Index(t)); }
  }

  lemma {:induction false} TrimLeftInside(s: string) returns (a: nat)
    ensures a <= |s| && TrimLeft(s) == s[a..]
    decreases |s|
  {
    if SpaceHead(s) > 0 {
      var n := TrimLeftInside(s[SpaceHead(s)..]);
      a := SpaceHead(s) + n;
    } else {
      a := 0;
    }
  }

  lemma {:induction false} TrimRightInside(s: string) returns (b: nat)
    ensures b <= |s| && TrimRight(s) == s[..b]
    decreases |s|
  {
    if SpaceTail(s) > 0 {
      b := TrimRightInside(s[..|s| - SpaceTail(s)]);
    } else {
      b := |s|;
    }
  }

  /** Nothing the batch function lets through carries the marker. */
  lemma StrippedIsClean(t: string)
    ensures Clean(StripRuntimeAnnotations(t).0)
  {
    hide MarkerAt, TrimLeft, TrimRight;
    if Index(t) >= 0 {
      var before := t[..Index(t)];
      var a := TrimLeftInside(before);
      var b := TrimRightInside(before[a..]);
      var out := TrimSpace(before);
      assert out == t[a..a + b];
      forall p | 0 <= p ensures !MarkerAt(out, p) {
        InsideMarker(t, a, a + b, p);
      }
    }
  }

  lemma SliceOfSlice(t: string, a: nat, b: nat, p: nat, q: nat)
    requires a <= b <= |t| && p <= q <= b - a
    ensures t[a..b][p..q] == t[a + p..a + q]
  {
    var u := t[a..b];
    assert forall i :: 0 <= i < q - p ==> u[p..q][i] == u[p + i] == t[a + p + i] == t[a + p..a + q][i];
  }

  lemma InsideMarker(t: string, a: nat, b: nat, p: int)
    requires a <= b <= |t| && 0 <= p
    ensures MarkerAt(t[a..b], p) ==> MarkerAt(t, a + p) && a + p < b
  {
    if MarkerAt(t[a..b], p) {
      SliceOfSlice(t, a, b, p, p + |MARKER|);
    }
  }
}
