/** One model continuation: its stream becomes segments, the segments become items, and the items enter
    the log together or not at all, now or when a prepared continuation is adopted. */
module Continuations {
  import opened Prelude
  import opened Trajectory
  import Text = AnnotationFilter

  datatype Authority = NoTools | Propose | Execute

  datatype Event = ReasoningDelta(text: string) | AssistantDelta(text: string) | CallEvent(call: Call)

  datatype Segment = Reasoned(text: string) | Spoken(text: string) | Action(call: Call, undeclared: bool)

  // ---- From events to segments -------------------------------------------------------------

  /** A call, marked when its tool was not offered. */
  function Ask(call: Call, declared: set<string>): Segment { Action(call, call.name !in declared) }

  predicate SameText(s: Segment, e: Event) { (s.Reasoned? && e.ReasoningDelta?) || (s.Spoken? && e.AssistantDelta?) }

  /** The least a stream carries: one byte said, one byte thought, or one call. */
  datatype Atom = Said(byte: char) | Thought(byte: char) | Asked(call: Call, undeclared: bool)

  function Letters(text: string, spoken: bool): seq<Atom> {
    seq(|text|, i requires 0 <= i < |text| => if spoken then Said(text[i]) else Thought(text[i]))
  }

  function Content(s: Segment): seq<Atom> {
    match s
    case Reasoned(text) => Letters(text, false)
    case Spoken(text) => Letters(text, true)
    case Action(call, undeclared) => [Asked(call, undeclared)]
  }

  /** Everything the segments hold, in order. */
  function Atoms(segments: seq<Segment>): seq<Atom> {
    if segments == [] then [] else Atoms(segments[..|segments| - 1]) + Content(segments[|segments| - 1])
  }

  /** What one event adds; an empty delta and a call without tool authority are refused. */
  function Carried(e: Event, declared: set<string>, authority: Authority): seq<Atom> {
    match e
    case ReasoningDelta(text) => Letters(text, false)
    case AssistantDelta(text) => Letters(text, true)
    case CallEvent(call) => if authority.NoTools? then [] else Content(Ask(call, declared))
  }

  /** Everything the provider emitted, in order. */
  function Emitted(events: seq<Event>, declared: set<string>, authority: Authority): seq<Atom> {
    if events == [] then []
    else Emitted(events[..|events| - 1], declared, authority) + Carried(events[|events| - 1], declared, authority)
  }

  ghost predicate Coalesced(segments: seq<Segment>) {
    && (forall i :: 0 <= i < |segments| ==> segments[i].Action? || segments[i].text != "")
    && (forall i :: 0 <= i < |segments| - 1 ==>
          !(segments[i].Spoken? && segments[i + 1].Spoken?) && !(segments[i].Reasoned? && segments[i + 1].Reasoned?))
  }

  /** The segments hold exactly what the events carried, across kinds and in order, and no two
      neighbours could be one. */
  ghost predicate Agrees(segments: seq<Segment>, events: seq<Event>, declared: set<string>, authority: Authority) {
    Atoms(segments) == Emitted(events, declared, authority) && Coalesced(segments)
  }

  lemma AtomsSnoc(segments: seq<Segment>, s: Segment)
    ensures Atoms(segments + [s]) == Atoms(segments) + Content(s)
  {
    assert (segments + [s])[..|segments|] == segments;
  }

  lemma EmittedSnoc(events: seq<Event>, e: Event, declared: set<string>, authority: Authority)
    ensures Emitted(events + [e], declared, authority)
         == Emitted(events, declared, authority) + Carried(e, declared, authority)
  {
    assert (events + [e])[..|events|] == events;
  }

  lemma LettersJoin(a: string, b: string, spoken: bool)
    ensures Letters(a + b, spoken) == Letters(a, spoken) + Letters(b, spoken)
  {
  }

  predicate Appends(segments: seq<Segment>, e: Event) {
    e.CallEvent? || segments == [] || !SameText(segments[|segments| - 1], e)
  }

  function TextSegment(e: Event): Segment
    requires !e.CallEvent?
  {
    if e.AssistantDelta? then Spoken(e.text) else Reasoned(e.text)
  }

  function Lengthened(segments: seq<Segment>, more: string): seq<Segment>
    requires segments != [] && !segments[|segments| - 1].Action?
  {
    segments[|segments| - 1 := segments[|segments| - 1].(text := segments[|segments| - 1].text + more)]
  }

  lemma CallKeeps(segments: seq<Segment>, events: seq<Event>, e: Event, declared: set<string>, authority: Authority)
    requires Agrees(segments, events, declared, authority) && e.CallEvent?
    ensures authority.NoTools? ==> Agrees(segments, events + [e], declared, authority)
    ensures !authority.NoTools? ==> Agrees(segments + [Ask(e.call, declared)], events + [e], declared, authority)
  {
    hide Atoms, Emitted;
    EmittedSnoc(events, e, declared, authority);
    AtomsSnoc(segments, Ask(e.call, declared));
    assert Atoms(segments) + [] == Atoms(segments);
  }

  lemma OpenKeeps(segments: seq<Segment>, events: seq<Event>, e: Event, declared: set<string>, authority: Authority)
    requires Agrees(segments, events, declared, authority) && !e.CallEvent? && e.text != "" && Appends(segments, e)
    ensures Agrees(segments + [TextSegment(e)], events + [e], declared, authority)
  {
    hide Atoms, Emitted, Letters;
    EmittedSnoc(events, e, declared, authority);
    AtomsSnoc(segments, TextSegment(e));
  }

  lemma ExtendKeeps(segments: seq<Segment>, events: seq<Event>, e: Event, declared: set<string>, authority: Authority)
    requires Agrees(segments, events, declared, authority) && !e.CallEvent? && e.text != "" && !Appends(segments, e)
    ensures Agrees(Lengthened(segments, e.text), events + [e], declared, authority)
  {
    hide Atoms, Emitted, Letters;
    var front, last := segments[..|segments| - 1], segments[|segments| - 1];
    var longer := last.(text := last.text + e.text);
    assert segments == front + [last] && Lengthened(segments, e.text) == front + [longer];
    AtomsSnoc(front, last);
    AtomsSnoc(front, longer);
    LettersJoin(last.text, e.text, last.Spoken?);
    EmittedSnoc(events, e, declared, authority);
    Regroup(Atoms(front), Content(last), Letters(e.text, last.Spoken?));
  }

  lemma EmptyKeeps(segments: seq<Segment>, events: seq<Event>, e: Event, declared: set<string>, authority: Authority)
    requires Agrees(segments, events, declared, authority) && !e.CallEvent? && e.text == ""
    ensures Agrees(segments, events + [e], declared, authority)
  {
    hide Atoms, Emitted;
    EmittedSnoc(events, e, declared, authority);
    assert Letters("", e.AssistantDelta?) == [];
    assert Emitted(events, declared, authority) + [] == Emitted(events, declared, authority);
  }

  /** Neighbouring deltas of one kind become one segment; nothing is lost, reordered or invented. An empty
      delta, and a call from a provider without tool authority, is refused. */
  method Collect(events: seq<Event>, declared: set<string>, authority: Authority) returns (segments: seq<Segment>)
    ensures Agrees(segments, events, declared, authority)
  {
    hide Agrees;
    segments := [];
    NothingAgrees(declared, authority);
    for i := 0 to |events|
      invariant Agrees(segments, events[..i], declared, authority)
    {
      var e := events[i];
      assert events[..i + 1] == events[..i] + [e];
      if e.CallEvent? {
        CallKeeps(segments, events[..i], e, declared, authority);
        if !authority.NoTools? { segments := segments + [Ask(e.call, declared)]; }
      } else if e.text == "" {
        EmptyKeeps(segments, events[..i], e, declared, authority);
      } else if Appends(segments, e) {
        OpenKeeps(segments, events[..i], e, declared, authority);
        segments := segments + [TextSegment(e)];
      } else {
        ExtendKeeps(segments, events[..i], e, declared, authority);
        var last := segments[|segments| - 1];
        segments := segments[|segments| - 1 := last.(text := last.text + e.text)];
      }
    }
    assert events[..|events|] == events;
  }

  lemma NothingAgrees(declared: set<string>, authority: Authority)
    ensures Agrees([], [], declared, authority)
  {
  }

  // ---- Only one way to read a stream -------------------------------------------------------

  /** The kind of a segment shows in every atom of it. */
  predicate KindOf(a: Atom, s: Segment) {
    match s
    case Reasoned(_) => a.Thought?
    case Spoken(_) => a.Said?
    case Action(_, _) => a.Asked?
  }

  lemma ContentKind(s: Segment)
    ensures forall i :: 0 <= i < |Content(s)| ==> KindOf(Content(s)[i], s)
    ensures s.Action? || s.text != "" ==> Content(s) != []
  {
  }

  /** The last segment is as long as it can be. */
  lemma LastIsLongest(a: seq<Segment>, b: seq<Segment>)
    requires a != [] && b != [] && Coalesced(a) && Coalesced(b) && Atoms(a) == Atoms(b)
    ensures |Content(a[|a| - 1])| >= |Content(b[|b| - 1])|
  {
    hide Content;
    var last, other := a[|a| - 1], b[|b| - 1];
    var front, n := Atoms(a[..|a| - 1]), |Atoms(a)|;
    ContentKind(last);
    ContentKind(other);
    var p := n - |Content(last)| - 1;
    assert KindOf(Atoms(a)[n - 1], last) by { assert Atoms(a)[n - 1] == Content(last)[|Content(last)| - 1]; }
    assert KindOf(Atoms(b)[n - 1], other) by { assert Atoms(b)[n - 1] == Content(other)[|Content(other)| - 1]; }
    if |a| > 1 {
      EndsWith(a[..|a| - 1]);
      assert Atoms(a)[p] == front[p];
      assert KindOf(Atoms(a)[p], a[|a| - 2]);
    }
    assert |Content(last)| < |Content(other)| ==> Atoms(b)[p] == Content(other)[p - (n - |Content(other)|)];
    ActionIsShort(other);
  }

  lemma ActionIsShort(s: Segment)
    ensures s.Action? ==> |Content(s)| == 1
  {
  }

  lemma EndsWith(a: seq<Segment>)
    requires a != [] && Coalesced(a)
    ensures Atoms(a) != [] && KindOf(Atoms(a)[|Atoms(a)| - 1], a[|a| - 1])
  {
    hide Content;
    ContentKind(a[|a| - 1]);
    var c := Content(a[|a| - 1]);
    assert Atoms(a)[|Atoms(a)| - 1] == c[|c| - 1];
  }

  lemma ContentIsFaithful(s: Segment, t: Segment)
    requires Content(s) == Content(t) && Content(s) != []
    ensures s == t
  {
    ContentKind(s);
    ContentKind(t);
    assert KindOf(Content(s)[0], s) && KindOf(Content(t)[0], t);
    if !s.Action? {
      assert |s.text| == |t.text|;
      forall i | 0 <= i < |s.text| ensures s.text[i] == t.text[i] { assert Content(s)[i] == Content(t)[i]; }
    }
  }

  /** What a provider emitted can be collected in only one way. */
  lemma {:induction false} AtomsAreFaithful(a: seq<Segment>, b: seq<Segment>)
    requires Coalesced(a) && Coalesced(b) && Atoms(a) == Atoms(b)
    ensures a == b
  {
    hide Content;
    if a == [] {
      if b != [] { EndsWith(b); }
    } else if b == [] {
      EndsWith(a);
    } else {
      LastIsLongest(a, b);
      LastIsLongest(b, a);
      var m, n := |a| - 1, |b| - 1;
      var x, y := Content(a[m]), Content(b[n]);
      SameSuffix(Atoms(a[..m]), x, Atoms(b[..n]), y);
      ContentKind(a[m]);
      ContentIsFaithful(a[m], b[n]);
      AtomsAreFaithful(a[..m], b[..n]);
      assert a == a[..m] + [a[m]] && b == b[..n] + [b[n]];
    }
  }

  lemma SameSuffix(p: seq<Atom>, x: seq<Atom>, q: seq<Atom>, y: seq<Atom>)
    requires p + x == q + y && |x| == |y|
    ensures p == q && x == y
  {
    assert p == (p + x)[..|p|] && q == (q + y)[..|q|];
    assert x == (p + x)[|p|..] && y == (q + y)[|q|..];
  }

  // ---- Control text never becomes speech ---------------------------------------------------

  function Stripped(text: string, done: string -> (string, bool)): string {
    Text.StripRuntimeAnnotations(done(text).0).0
  }

  function StripSegment(s: Segment, done: string -> (string, bool)): Segment {
    if s.Spoken? then Spoken(Stripped(s.text, done)) else s
  }

  /** `done` removes the completion marker and says whether it was there. */
  method StripMarkers(segments: seq<Segment>, done: string -> (string, bool))
      returns (stripped: seq<Segment>, finished: bool)
    ensures |stripped| == |segments|
    ensures forall i :: 0 <= i < |segments| ==> stripped[i] == StripSegment(segments[i], done)
    ensures finished <==> exists i :: 0 <= i < |segments| && segments[i].Spoken? && done(segments[i].text).1
  {
    hide Text.StripRuntimeAnnotations;
    stripped, finished := segments, false;
    for i := 0 to |segments|
      invariant |stripped| == |segments|
      invariant forall k :: 0 <= k < |segments| ==>
        stripped[k] == if k < i then StripSegment(segments[k], done) else segments[k]
      invariant finished <==> exists k :: 0 <= k < i && segments[k].Spoken? && done(segments[k].text).1
    {
      if stripped[i].Spoken? {
        var text := stripped[i].text;
        var (out, found) := done(text);
        if found { finished := true; }
        var (clean, _) := Text.StripRuntimeAnnotations(out);
        if found || clean != text { stripped := stripped[i := Spoken(clean)]; }
      }
    }
  }

  // ---- From segments to items --------------------------------------------------------------

  /** What a continuation's items have in common. */
  datatype Setting = Setting(
    invocation: string, revision: nat, phase: string, authority: Authority, retainReasoning: bool,
    interrupted: bool, native: Native)

  predicate Proposal(c: Setting, s: Segment) { s.Action? && (c.authority.Propose? || s.undeclared) }

  predicate HasAction(segments: seq<Segment>) { exists i :: 0 <= i < |segments| && segments[i].Action? }

  predicate HasProposal(c: Setting, segments: seq<Segment>) {
    exists i :: 0 <= i < |segments| && Proposal(c, segments[i])
  }

  /** The segment becomes an item. */
  predicate Recorded(c: Setting, acting: bool, s: Segment) {
    match s
    case Action(_, _) => !c.interrupted
    case Reasoned(_) => c.retainReasoning
    case Spoken(text) => (!acting || c.interrupted) && Text.TrimSpace(text) != ""
  }

  function Recording(c: Setting, acting: bool): Segment -> bool { (s: Segment) => Recorded(c, acting, s) }

  function Records(c: Setting, segments: seq<Segment>): seq<Segment> {
    Filter(segments, Recording(c, HasAction(segments)))
  }

  /** The item says what the segment said, with the authority the segment had. */
  predicate Conveys(c: Setting, x: Item, s: Segment) {
    && x.invocation == c.invocation && x.revision == c.revision && x.phase == c.phase && x.interrupted == c.interrupted
    && match s
       case Reasoned(text) => x.kind == Reasoning && x.content == text && x.payload == Nothing
       case Spoken(text) => x.kind == Assistant && x.content == text && x.payload == Nothing
       case Action(call, _) =>
         x.kind == (if Proposal(c, s) then ToolProposal else ToolCall) && x.content == "" && x.payload == Called(call)
  }

  /** One causal chain, beginning at the item named root. */
  ghost predicate Chained(items: seq<Item>, root: string) {
    forall i :: 0 <= i < |items| ==> items[i].parents == [Cause(items, root, i)]
  }

  function Cause(items: seq<Item>, root: string, i: int): string {
    if 0 < i <= |items| then items[i - 1].id else root
  }

  /** Whether native state is to be kept at all. */
  predicate KeepsState(c: Setting, segments: seq<Segment>) { c.native.bytes != [] && !HasProposal(c, segments) }

  /** Native state, if kept, is on the first item and on no other. */
  ghost predicate Stateful(items: seq<Item>, kept: bool, native: Native) {
    && (kept ==> items != [])
    && forall i :: 0 <= i < |items| ==> items[i].native == if kept && i == 0 then native else NO_STATE
  }

  /** An item of its own for native state that nothing else could carry. */
  predicate StateOnly(c: Setting, x: Item) {
    && x.kind == Reasoning && x.content == "" && x.payload == Nothing
    && x.invocation == c.invocation && x.revision == c.revision && x.phase == c.phase && x.interrupted == c.interrupted
  }

  ghost predicate Conveyed(c: Setting, items: seq<Item>, records: seq<Segment>) {
    |items| == |records| && forall i :: 0 <= i < |items| ==> Conveys(c, items[i], records[i])
  }

  /** The whole of what building promises. */
  ghost predicate Built(c: Setting, segments: seq<Segment>, root: string, items: seq<Item>) {
    var records := Records(c, segments);
    var kept := KeepsState(c, segments);
    && Chained(items, root) && Stateful(items, kept, c.native)
    && (if kept && records == [] then |items| == 1 && StateOnly(c, items[0]) else Conveyed(c, items, records))
  }

  /** Where identities and times come from: what the n-th drawing yields. */
  datatype Source = Source(name: nat -> string, clock: nat -> nat)

  /** Each item has an identity and a time of its own drawing, in order. */
  ghost predicate Numbered(items: seq<Item>, source: Source, first: nat, next: nat, at: seq<nat>) {
    && |at| == |items| && first <= next
    && (forall i :: 0 <= i < |at| ==>
          first <= at[i] < next && items[i].id == source.name(at[i]) && items[i].time == source.clock(at[i]))
    && (forall i, j :: 0 <= i < j < |at| ==> at[i] < at[j])
  }

  function Blank(c: Setting, id: string, time: nat, parent: string, kind: Kind): Item {
    Item(id, kind, time, [parent], c.revision, c.invocation, c.phase, "", c.interrupted, Nothing, None, None,
      NO_STATE, true)
  }

  lemma ChainedSnoc(items: seq<Item>, root: string, x: Item)
    requires Chained(items, root) && x.parents == [Cause(items, root, |items|)]
    ensures Chained(items + [x], root)
  {
    var more := items + [x];
    forall i | 0 <= i < |more| ensures more[i].parents == [Cause(more, root, i)] {
      assert Cause(more, root, i) == Cause(items, root, i);
    }
  }

  lemma NumberedSnoc(items: seq<Item>, source: Source, first: nat, next: nat, at: seq<nat>, x: Item)
    requires Numbered(items, source, first, next, at) && x.id == source.name(next) && x.time == source.clock(next)
    ensures Numbered(items + [x], source, first, next + 1, at + [next])
  {
  }

  lemma NumberedSkip(items: seq<Item>, source: Source, first: nat, next: nat, at: seq<nat>)
    requires Numbered(items, source, first, next, at)
    ensures Numbered(items, source, first, next + 1, at)
  {
  }

  /** Building in progress: the first i segments are done. */
  ghost predicate Building(c: Setting, segments: seq<Segment>, i: nat, root: string, parent: string, attached: bool,
      items: seq<Item>)
    requires i <= |segments|
  {
    && Conveyed(c, items, Filter(segments[..i], Recording(c, HasAction(segments)))) && Chained(items, root)
    && parent == Cause(items, root, |items|)
    && Stateful(items, attached, c.native) && attached == (KeepsState(c, segments) && items != [])
  }

  lemma BuildSkips(c: Setting, segments: seq<Segment>, i: nat, root: string, parent: string, attached: bool,
      items: seq<Item>)
    requires i < |segments| && Building(c, segments, i, root, parent, attached, items)
    requires !Recorded(c, HasAction(segments), segments[i])
    ensures Building(c, segments, i + 1, root, parent, attached, items)
  {
    hide Filter, Recorded, HasAction, HasProposal, Conveys;
    assert segments[..i + 1] == segments[..i] + [segments[i]];
    FilterSnoc(segments[..i], segments[i], Recording(c, HasAction(segments)));
    var done := Filter(segments[..i], Recording(c, HasAction(segments)));
    assert done + [] == done;
  }

  lemma BuildAdds(c: Setting, segments: seq<Segment>, i: nat, root: string, parent: string, attached: bool,
      items: seq<Item>, x: Item)
    requires i < |segments| && Building(c, segments, i, root, parent, attached, items)
    requires Recorded(c, HasAction(segments), segments[i]) && Conveys(c, x, segments[i]) && x.parents == [parent]
    requires x.native == if KeepsState(c, segments) && !attached then c.native else NO_STATE
    ensures Building(c, segments, i + 1, root, x.id, KeepsState(c, segments), items + [x])
  {
    hide Filter, Recorded, HasAction, HasProposal, Conveys, Chained;
    assert segments[..i + 1] == segments[..i] + [segments[i]];
    FilterSnoc(segments[..i], segments[i], Recording(c, HasAction(segments)));
    ChainedSnoc(items, root, x);
  }

  lemma BuildEnds(c: Setting, segments: seq<Segment>, root: string, parent: string, attached: bool, items: seq<Item>,
      x: Item)
    requires Building(c, segments, |segments|, root, parent, attached, items)
    requires StateOnly(c, x) && x.parents == [parent] && x.native == c.native
    ensures Built(c, segments, root, if KeepsState(c, segments) && !attached then items + [x] else items)
  {
    hide Filter, Recorded, HasAction, HasProposal, Conveys, StateOnly;
    assert segments[..|segments|] == segments;
  }

  /** `buildItems`: every segment considered draws an identity and a time, recorded or not. */
  method BuildItems(c: Setting, segments: seq<Segment>, root: string, source: Source, first: nat)
    returns (items: seq<Item>, next: nat, ghost at: seq<nat>)
    ensures Built(c, segments, root, items) && Numbered(items, source, first, next, at)
  {
    hide Building, Built, Numbered, Conveys, Filter, StateOnly;
    var parent, attached := root, false;
    items, next, at := [], first, [];
    BuildStarts(c, segments, root, source, first);
    var hasProposal := HasProposal(c, segments);
    var hasAction := HasAction(segments);
    for i := 0 to |segments|
      invariant Building(c, segments, i, root, parent, attached, items) && Numbered(items, source, first, next, at)
    {
      var s := segments[i];
      if c.interrupted && s.Action? {
        BuildSkips(c, segments, i, root, parent, attached, items);
        continue;
      }
      var item := Blank(c, source.name(next), source.clock(next), parent, OtherKind);
      var recorded := Recorded(c, hasAction, s);
      match s {
        case Reasoned(text) => item := item.(kind := Reasoning, content := text);
        case Spoken(text) => item := item.(kind := Assistant, content := text);
        case Action(call, undeclared) =>
          var kind := if c.authority.Propose? || undeclared then ToolProposal else ToolCall;
          item := item.(kind := kind, payload := Called(call));
      }
      if !recorded {
        BuildSkips(c, segments, i, root, parent, attached, items);
        NumberedSkip(items, source, first, next, at);
        next := next + 1;
        continue;
      }
      if !hasProposal && !attached && c.native.bytes != [] { item := item.(native := c.native); }
      ConveysSegment(c, item, s);
      BuildAdds(c, segments, i, root, parent, attached, items, item);
      NumberedSnoc(items, source, first, next, at, item);
      items, parent, attached := items + [item], item.id, !hasProposal && c.native.bytes != [];
      next, at := next + 1, at + [next];
    }
    var item := Blank(c, source.name(next), source.clock(next), parent, Reasoning).(native := c.native);
    IsStateOnly(c, item);
    BuildEnds(c, segments, root, parent, attached, items, item);
    if !hasProposal && !attached && c.native.bytes != [] {
      NumberedSnoc(items, source, first, next, at, item);
      items, next, at := items + [item], next + 1, at + [next];
    }
  }

  lemma BuildStarts(c: Setting, segments: seq<Segment>, root: string, source: Source, first: nat)
    ensures Building(c, segments, 0, root, root, false, []) && Numbered([], source, first, first, [])
  {
    hide Recorded;
    FilterNothing(Recording(c, HasAction(segments)));
    assert segments[..0] == [];
  }

  lemma ConveysSegment(c: Setting, x: Item, s: Segment)
    requires x.invocation == c.invocation && x.revision == c.revision && x.phase == c.phase
    requires x.interrupted == c.interrupted
    requires match s
      case Reasoned(text) => x.kind == Reasoning && x.content == text && x.payload == Nothing
      case Spoken(text) => x.kind == Assistant && x.content == text && x.payload == Nothing
      case Action(call, undeclared) =>
        && x.kind == (if c.authority.Propose? || undeclared then ToolProposal else ToolCall)
        && x.content == "" && x.payload == Called(call)
    ensures Conveys(c, x, s)
  {
  }

  lemma IsStateOnly(c: Setting, x: Item)
    requires x.invocation == c.invocation && x.revision == c.revision && x.phase == c.phase
    requires x.interrupted == c.interrupted
    requires x.kind == Reasoning && x.content == "" && x.payload == Nothing
    ensures StateOnly(c, x)
  {
  }

  // ---- The result agrees with the items ----------------------------------------------------

  /** The calls carried by items of one kind, in order. */
  ghost function CallsIn(items: seq<Item>, kind: Kind): seq<Call> {
    if items == [] then []
    else
      var last := items[|items| - 1];
      CallsIn(items[..|items| - 1], kind)
      + if last.kind == kind && last.payload.Called? then [last.payload.call] else []
  }

  ghost function CallsOf(c: Setting, segments: seq<Segment>, proposals: bool): seq<Call> {
    if segments == [] then []
    else
      var last := segments[|segments| - 1];
      CallsOf(c, segments[..|segments| - 1], proposals)
      + if last.Action? && Proposal(c, last) == proposals then [last.call] else []
  }

  lemma CallsOfSnoc(c: Setting, segments: seq<Segment>, s: Segment, proposals: bool)
    ensures CallsOf(c, segments + [s], proposals)
         == CallsOf(c, segments, proposals) + if s.Action? && Proposal(c, s) == proposals then [s.call] else []
  {
    assert (segments + [s])[..|segments|] == segments;
  }

  lemma {:induction false} ConveyedCalls(c: Setting, items: seq<Item>, records: seq<Segment>)
    requires Conveyed(c, items, records)
    ensures CallsIn(items, ToolCall) == CallsOf(c, records, false)
    ensures CallsIn(items, ToolProposal) == CallsOf(c, records, true)
  {
    if items != [] {
      var n := |items| - 1;
      assert Conveys(c, items[n], records[n]);
      ConveyedCalls(c, items[..n], records[..n]);
    }
  }

  lemma {:induction false} RecordedCalls(c: Setting, segments: seq<Segment>, acting: bool, proposals: bool)
    ensures CallsOf(c, Filter(segments, Recording(c, acting)), proposals)
         == if c.interrupted then [] else CallsOf(c, segments, proposals)
  {
    hide Filter;
    var keep := Recording(c, acting);
    if segments == [] {
      FilterNothing(keep);
    } else {
      var front, s := segments[..|segments| - 1], segments[|segments| - 1];
      RecordedCalls(c, front, acting, proposals);
      assert segments == front + [s];
      FilterSnoc(front, s, keep);
      CallsOfSnoc(c, Filter(front, keep), s, proposals);
      assert Filter(front, keep) + [] == Filter(front, keep);
      assert keep(s) == Recorded(c, acting, s);
    }
  }

  /** The executable calls and the proposals among the items are, in order, those of the segments, and
      there are none of either when the provider was interrupted. */
  lemma BuiltCalls(c: Setting, segments: seq<Segment>, root: string, items: seq<Item>)
    requires Built(c, segments, root, items)
    ensures CallsIn(items, ToolCall) == if c.interrupted then [] else CallsOf(c, segments, false)
    ensures CallsIn(items, ToolProposal) == if c.interrupted then [] else CallsOf(c, segments, true)
  {
    hide Chained, Stateful, Filter, HasAction, Recorded, HasProposal;
    var records := Records(c, segments);
    RecordedCalls(c, segments, HasAction(segments), false);
    RecordedCalls(c, segments, HasAction(segments), true);
    if KeepsState(c, segments) && records == [] {
      assert items == [items[0]];
      assert items[..0] == [];
    } else {
      ConveyedCalls(c, items, records);
    }
  }

  /** Native state is withheld because of a proposal segment even when the interruption keeps that
      proposal out of the items: then no item carries the state, and none is a proposal either. */
  lemma InterruptedProposalWithholdsState(c: Setting, segments: seq<Segment>, root: string, items: seq<Item>)
    requires Built(c, segments, root, items) && c.interrupted && HasProposal(c, segments)
    ensures CallsIn(items, ToolProposal) == [] && forall i :: 0 <= i < |items| ==> items[i].native == NO_STATE
  {
    hide Chained, Conveyed, Filter, Recorded, HasProposal;
    BuiltCalls(c, segments, root, items);
  }

  /** Nothing assistant-like that is built carries the runtime marker. */
  lemma BuiltTextIsClean(c: Setting, segments: seq<Segment>, done: string -> (string, bool), root: string,
      items: seq<Item>, i: nat)
    requires Built(c, segments, root, items) && i < |items| && items[i].kind.Assistant?
    requires forall k :: 0 <= k < |segments| && segments[k].Spoken? ==>
      exists text :: segments[k].text == Stripped(text, done)
    ensures Text.Clean(items[i].content)
  {
    hide Chained, Stateful, HasAction, Recorded, HasProposal, Text.StripRuntimeAnnotations, Text.Clean;
    var records := Records(c, segments);
    assert Conveyed(c, items, records);
    assert Conveys(c, items[i], records[i]);
    assert records[i] in records && records[i] in segments;
    var k :| 0 <= k < |segments| && segments[k] == records[i];
    var text :| segments[k].text == Stripped(text, done);
    Text.StrippedIsClean(done(text).0);
  }

  lemma NothingAsked(c: Setting)
    ensures CallsOf(c, [], false) == CallsOf(c, [], true) == [] && SpokenIn([]) == ""
  {
  }

  /** What the segments say aloud. */
  function SpokenIn(segments: seq<Segment>): string {
    if segments == [] then ""
    else
      var last := segments[|segments| - 1];
      SpokenIn(segments[..|segments| - 1]) + if last.Spoken? then last.text else ""
  }

  lemma SpokenSnoc(segments: seq<Segment>, s: Segment)
    ensures SpokenIn(segments + [s]) == SpokenIn(segments) + if s.Spoken? then s.text else ""
  {
    assert (segments + [s])[..|segments|] == segments;
  }

  datatype RunResult = RunResult(calls: seq<Call>, proposals: seq<Call>, text: string, interrupted: bool,
      committed: bool)

  /** The part of `run` that reports what the segments asked for. */
  method Report(c: Setting, segments: seq<Segment>) returns (result: RunResult)
    ensures result.calls == (if c.interrupted then [] else CallsOf(c, segments, false))
    ensures result.proposals == (if c.interrupted then [] else CallsOf(c, segments, true))
    ensures result.text == SpokenIn(segments) && result.interrupted == c.interrupted && !result.committed
  {
    hide Proposal, CallsOf, SpokenIn;
    result := RunResult([], [], "", c.interrupted, false);
    NothingAsked(c);
    for i := 0 to |segments|
      invariant result.calls == (if c.interrupted then [] else CallsOf(c, segments[..i], false))
      invariant result.proposals == (if c.interrupted then [] else CallsOf(c, segments[..i], true))
      invariant result.text == SpokenIn(segments[..i]) && result.interrupted == c.interrupted && !result.committed
    {
      var s := segments[i];
      assert segments[..i + 1] == segments[..i] + [s];
      CallsOfSnoc(c, segments[..i], s, false);
      CallsOfSnoc(c, segments[..i], s, true);
      SpokenSnoc(segments[..i], s);
      if s.Spoken? { result := result.(text := result.text + s.text); }
      if s.Action? && !c.interrupted {
        if Proposal(c, s) {
          result := result.(proposals := result.proposals + [s.call]);
        } else {
          result := result.(calls := result.calls + [s.call]);
        }
      }
    }
    assert segments[..|segments|] == segments;
  }

  // ---- What the provider asked for ---------------------------------------------------------

  /** The calls among the provider's events, in order: those to be executed, or those only proposed. */
  ghost function Requested(c: Setting, events: seq<Event>, declared: set<string>, proposals: bool): seq<Call> {
    if events == [] then []
    else
      var last := events[|events| - 1];
      Requested(c, events[..|events| - 1], declared, proposals)
      + if last.CallEvent? && !c.authority.NoTools? && Proposal(c, Ask(last.call, declared)) == proposals
        then [last.call] else []
  }

  ghost function AskedIn(c: Setting, atoms: seq<Atom>, proposals: bool): seq<Call> {
    if atoms == [] then []
    else
      var last := atoms[|atoms| - 1];
      AskedIn(c, atoms[..|atoms| - 1], proposals)
      + if last.Asked? && Proposal(c, Action(last.call, last.undeclared)) == proposals then [last.call] else []
  }

  lemma {:induction false} AskedJoins(c: Setting, x: seq<Atom>, y: seq<Atom>, proposals: bool)
    ensures AskedIn(c, x + y, proposals) == AskedIn(c, x, proposals) + AskedIn(c, y, proposals)
  {
    hide Proposal;
    if y == [] {
      assert x + y == x;
    } else {
      var n := |y| - 1;
      assert (x + y)[..|x| + n] == x + y[..n] && (x + y)[|x| + n] == y[n];
      AskedJoins(c, x, y[..n], proposals);
    }
  }

  lemma {:induction false} LettersAskNothing(c: Setting, text: string, spoken: bool, proposals: bool)
    ensures AskedIn(c, Letters(text, spoken), proposals) == []
  {
    if text != "" {
      var n := |text| - 1;
      assert Letters(text, spoken)[..n] == Letters(text[..n], spoken);
      LettersAskNothing(c, text[..n], spoken, proposals);
    }
  }

  lemma OneAsked(c: Setting, s: Segment, proposals: bool)
    requires s.Action?
    ensures AskedIn(c, Content(s), proposals) == if Proposal(c, s) == proposals then [s.call] else []
  {
    assert Content(s)[..0] == [];
  }

  lemma {:induction false} SegmentsAsk(c: Setting, segments: seq<Segment>, proposals: bool)
    ensures CallsOf(c, segments, proposals) == AskedIn(c, Atoms(segments), proposals)
  {
    hide Proposal, AskedIn, Letters;
    if segments == [] {
      AsksNothing(c, proposals);
    } else {
      var front, s := segments[..|segments| - 1], segments[|segments| - 1];
      SegmentsAsk(c, front, proposals);
      AskedJoins(c, Atoms(front), Content(s), proposals);
      if s.Action? {
        OneAsked(c, s, proposals);
      } else {
        LettersAskNothing(c, s.text, s.Spoken?, proposals);
      }
    }
  }

  lemma AsksNothing(c: Setting, proposals: bool)
    ensures AskedIn(c, [], proposals) == []
  {
  }

  lemma {:induction false} EventsAsk(c: Setting, events: seq<Event>, declared: set<string>, proposals: bool)
    ensures Requested(c, events, declared, proposals) == AskedIn(c, Emitted(events, declared, c.authority), proposals)
  {
    hide Proposal, AskedIn, Letters;
    AsksNothing(c, proposals);
    if events != [] {
      var front, e := events[..|events| - 1], events[|events| - 1];
      EventsAsk(c, front, declared, proposals);
      AskedJoins(c, Emitted(front, declared, c.authority), Carried(e, declared, c.authority), proposals);
      if e.CallEvent? {
        OneAsked(c, Ask(e.call, declared), proposals);
      } else {
        LettersAskNothing(c, e.text, e.AssistantDelta?, proposals);
      }
    }
  }

  ghost predicate Stripping(raw: seq<Segment>, stripped: seq<Segment>, done: string -> (string, bool)) {
    |stripped| == |raw| && forall i :: 0 <= i < |raw| ==> stripped[i] == StripSegment(raw[i], done)
  }

  lemma {:induction false} StrippingKeepsCalls(c: Setting, raw: seq<Segment>, stripped: seq<Segment>,
                                               done: string -> (string, bool), proposals: bool)
    requires Stripping(raw, stripped, done)
    ensures CallsOf(c, stripped, proposals) == CallsOf(c, raw, proposals)
  {
    hide Stripped;
    if raw != [] { StrippingKeepsCalls(c, raw[..|raw| - 1], stripped[..|raw| - 1], done, proposals); }
  }

  /** The segments ask for exactly what the provider asked for. */
  lemma SegmentsAskTheSame(c: Setting, events: seq<Event>, declared: set<string>, raw: seq<Segment>,
                           stripped: seq<Segment>, done: string -> (string, bool), proposals: bool)
    requires Agrees(raw, events, declared, c.authority) && Stripping(raw, stripped, done)
    ensures CallsOf(c, stripped, proposals) == Requested(c, events, declared, proposals)
  {
    hide Atoms, Emitted, Coalesced, Stripping, CallsOf, Requested, AskedIn;
    StrippingKeepsCalls(c, raw, stripped, done, proposals);
    SegmentsAsk(c, raw, proposals);
    EventsAsk(c, events, declared, proposals);
  }

  // ---- Only declared tools, only with authority --------------------------------------------

  /** An executable call names a declared tool and comes from a provider with execution authority. */
  lemma {:induction false} RequestsAreVetted(c: Setting, events: seq<Event>, declared: set<string>, call: Call)
    requires call in Requested(c, events, declared, false)
    ensures call.name in declared && c.authority.Execute?
  {
    var front, last := events[..|events| - 1], events[|events| - 1];
    if call in Requested(c, front, declared, false) { RequestsAreVetted(c, front, declared, call); }
  }

  // ---- Entering the log --------------------------------------------------------------------

  /** New evidence, which invalidates an answer derived without it. */
  predicate Superseding(x: Item) { x.kind.Observation? || x.kind.Repair? || x.kind.ToolResult? }

  ghost predicate Quiet(items: seq<Item>) { forall i :: 0 <= i < |items| ==> !Superseding(items[i]) }

  datatype Refusal = EmptyBatch | VersionConflict | Inadmissible

  class Store {
    var items: seq<Item>

    constructor ()
      ensures items == []
    {
      items := [];
    }

    /** Appends the whole batch, unless evidence arrived after the base; `admissible` is the verdict of
        the log's own checks on the items. */
    method AppendBatchAfter(base: nat, batch: seq<Item>, admissible: bool) returns (err: Option<Refusal>)
      modifies this
      ensures err.None? <==> batch != [] && base <= |old(items)| && admissible && Quiet(old(items)[base..])
      ensures items == if err.None? then old(items) + batch else old(items)
      ensures err == Some(EmptyBatch) <==> batch == []
      ensures err == Some(VersionConflict) <==> batch != [] && (base > |old(items)| || !Quiet(old(items)[base..]))
    {
      if batch == [] { return Some(EmptyBatch); }
      if base > |items| { return Some(VersionConflict); }
      ghost var later := items[base..];
      for i := base to |items|
        invariant forall k :: 0 <= k < i - base ==> !Superseding(later[k])
      {
        if Superseding(items[i]) {
          assert Superseding(later[i - base]);
          return Some(VersionConflict);
        }
      }
      if !admissible { return Some(Inadmissible); }
      items := items + batch;
      return None;
    }

    /** Whatever other writers append meanwhile. */
    method Others(more: seq<Item>)
      modifies this
      ensures items == old(items) + more
    {
      items := items + more;
    }
  }

  /** The same items, entering the log no earlier than now. */
  ghost predicate Restamped(batch: seq<Item>, entered: seq<Item>, now: nat) {
    && |entered| == |batch|
    && forall i :: 0 <= i < |batch| ==> entered[i] == batch[i].(time := Max(batch[i].time, now))
  }

  /** The items were numbered as they were built, and stamped as they entered, by the last drawing. */
  ghost predicate Entered(batch: seq<Item>, entered: seq<Item>, source: Source, first: nat, next: nat, at: seq<nat>) {
    0 < next && Numbered(batch, source, first, next - 1, at) && Restamped(batch, entered, source.clock(next - 1))
  }

  lemma {:induction false} SameCalls(a: seq<Item>, b: seq<Item>, kind: Kind)
    requires |a| == |b| && forall i :: 0 <= i < |a| ==> a[i].kind == b[i].kind && a[i].payload == b[i].payload
    ensures CallsIn(a, kind) == CallsIn(b, kind)
  {
    if a != [] { SameCalls(a[..|a| - 1], b[..|b| - 1], kind); }
  }

  /** What a finished run claims: its calls and proposals are those of the items it would commit, in
      order, after its instruction in one causal chain; and there are none when it was interrupted. */
  ghost predicate Honest(batch: seq<Item>, result: RunResult) {
    && |batch| > 0 && batch[0].kind.Instruction? && Chained(batch[1..], batch[0].id)
    && result.calls == CallsIn(batch[1..], ToolCall) && result.proposals == CallsIn(batch[1..], ToolProposal)
    && (result.interrupted ==> result.calls == [] && result.proposals == [])
  }

  lemma HonestStays(batch: seq<Item>, entered: seq<Item>, result: RunResult)
    requires Honest(batch, result) && |entered| == |batch|
    requires forall i :: 0 <= i < |batch| ==>
      entered[i].kind == batch[i].kind && entered[i].payload == batch[i].payload && entered[i].id == batch[i].id
    requires forall i :: 0 < i < |batch| ==> entered[i].parents == batch[i].parents
    ensures Honest(entered, result.(committed := true))
  {
    SameCalls(batch[1..], entered[1..], ToolCall);
    SameCalls(batch[1..], entered[1..], ToolProposal);
    var a, b, root := batch[1..], entered[1..], batch[0].id;
    forall i | 0 <= i < |b| ensures b[i].parents == [Cause(b, root, i)] {
      assert a[i].parents == [Cause(a, root, i)];
      assert Cause(a, root, i) == Cause(b, root, i);
    }
  }

  /** One invocation: what it is told, which tools it is offered, how its control text is removed, and, in the
      setting, how it was configured and how the provider left off. */
  datatype Plan = Plan(setting: Setting, instruction: string, declared: set<string>, done: string -> (string, bool))

  /** The first item is the plan's instruction, and the others are built from the provider's events and
      nothing else: collected in order, stripped of control text, and recorded. */
  ghost predicate Derivation(p: Plan, events: seq<Event>, raw: seq<Segment>, segments: seq<Segment>, batch: seq<Item>,
                             text: string) {
    && Agrees(raw, events, p.declared, p.setting.authority) && Stripping(raw, segments, p.done)
    && |batch| > 0 && batch[0].kind.Instruction? && batch[0].content == p.instruction
    && batch[0].invocation == p.setting.invocation && batch[0].revision == p.setting.revision
    && Built(p.setting, segments, batch[0].id, batch[1..]) && text == SpokenIn(segments)
  }

  ghost predicate Derives(p: Plan, events: seq<Event>, batch: seq<Item>, text: string) {
    exists raw, segments :: Derivation(p, events, raw, segments, batch, text)
  }

  /** The result asks for what the provider asked for, or for nothing if it was interrupted. */
  ghost predicate Asks(p: Plan, events: seq<Event>, result: RunResult) {
    && result.calls == (if p.setting.interrupted then [] else Requested(p.setting, events, p.declared, false))
    && result.proposals == (if p.setting.interrupted then [] else Requested(p.setting, events, p.declared, true))
  }

  lemma BuiltStays(c: Setting, segments: seq<Segment>, root: string, items: seq<Item>, entered: seq<Item>)
    requires Built(c, segments, root, items) && |entered| == |items|
    requires forall i :: 0 <= i < |items| ==> entered[i] == items[i].(time := entered[i].time)
    ensures Built(c, segments, root, entered)
  {
    hide Filter, HasAction, HasProposal, Recorded;
    forall i | 0 <= i < |entered| ensures entered[i].parents == [Cause(entered, root, i)] {
      assert items[i].parents == [Cause(items, root, i)];
      assert Cause(items, root, i) == Cause(entered, root, i);
    }
    var records := Records(c, segments);
    if !(KeepsState(c, segments) && records == []) {
      forall i | 0 <= i < |entered| ensures Conveys(c, entered[i], records[i]) {
        assert Conveys(c, items[i], records[i]);
      }
    }
  }

  lemma DerivesStays(p: Plan, events: seq<Event>, batch: seq<Item>, entered: seq<Item>, text: string, now: nat)
    requires Derives(p, events, batch, text) && Restamped(batch, entered, now)
    ensures Derives(p, events, entered, text)
  {
    hide Built, Agrees, Stripping;
    var raw, segments :| Derivation(p, events, raw, segments, batch, text);
    BuiltStays(p.setting, segments, batch[0].id, batch[1..], entered[1..]);
    assert Derivation(p, events, raw, segments, entered, text);
  }

  class Runner {
    const store: Store
    const source: Source
    var drawn: nat    // how often an identity or a time has been drawn

    constructor (s: Store, from: Source)
      ensures store == s && source == from && drawn == 0
    {
      store, source, drawn := s, from, 0;
    }

    /** Runs the provider and assembles its output; nothing is appended. `before` is the log's last
        item when the invocation began. */
    method Generate(p: Plan, events: seq<Event>, before: Option<Item>) returns (result: RunResult, batch: seq<Item>)
      modifies this`drawn
      ensures !result.committed && result.interrupted == p.setting.interrupted
      ensures Honest(batch, result) && Derives(p, events, batch, result.text) && Asks(p, events, result)
      ensures before.Some? ==> batch[0].parents == [before.value.id]
      ensures exists at :: Numbered(batch, source, old(drawn), drawn, at)
      ensures forall call :: call in result.calls ==> call.name in p.declared && p.setting.authority.Execute?
      ensures forall i :: 0 < i < |batch| && batch[i].kind.Assistant? ==> Text.Clean(batch[i].content)
    {
      hide Built, Agrees, Numbered, Text.Clean, Chained, CallsOf, CallsIn, Requested, Text.StripRuntimeAnnotations;
      var c := p.setting;
      var parents := if before.Some? then [before.value.id] else [];
      var instruction := Item(source.name(drawn), Instruction, source.clock(drawn), parents, c.revision, c.invocation,
                              "runtime", p.instruction, false, Nothing, None, None, NO_STATE, true);
      var raw := Collect(events, p.declared, c.authority);
      var stripped, finished := StripMarkers(raw, p.done);
      var items, next, at := BuildItems(c, stripped, instruction.id, source, drawn + 1);
      NumberedCons(instruction, items, source, drawn, next, at);
      drawn := next;
      result := Report(c, stripped);
      batch := [instruction] + items;
      assert batch[1..] == items;
      BuiltCalls(c, stripped, instruction.id, items);
      BuiltChain(c, stripped, instruction.id, items);
      assert Derivation(p, events, raw, stripped, batch, result.text);
      SegmentsAskTheSame(c, events, p.declared, raw, stripped, p.done, false);
      SegmentsAskTheSame(c, events, p.declared, raw, stripped, p.done, true);
      forall call | call in result.calls ensures call.name in p.declared && c.authority.Execute? {
        RequestsAreVetted(c, events, p.declared, call);
      }
      forall i | 0 < i < |batch| && batch[i].kind.Assistant? ensures Text.Clean(batch[i].content) {
        assert batch[i] == items[i - 1];
        StrippedAre(raw, stripped, p.done);
        BuiltTextIsClean(c, stripped, p.done, instruction.id, items, i - 1);
      }
    }

    /** Appends a batch as one transaction against what arrived since the base, stamped as it enters. */
    method Commit(result: RunResult, base: nat, batch: seq<Item>, admissible: bool)
      returns (final: RunResult, entered: seq<Item>)
      requires Honest(batch, result) && base <= |store.items|
      modifies this`drawn, store
      ensures drawn == old(drawn) + 1 && Restamped(batch, entered, source.clock(old(drawn)))
      ensures final.text == result.text
      ensures final.committed ==> store.items == old(store.items) + entered && Honest(entered, final)
      ensures final.committed ==> final.calls == result.calls && final.proposals == result.proposals
      ensures !final.committed ==> store.items == old(store.items) && final.calls == [] && final.proposals == []
      ensures !final.committed ==> final.interrupted
      ensures final.committed <==> admissible && Quiet(old(store.items)[base..])
    {
      hide Chained, CallsIn, Quiet;
      var now := source.clock(drawn);
      drawn := drawn + 1;
      entered := batch;
      for i := 0 to |batch|
        invariant |entered| == |batch| && drawn == old(drawn) + 1
        invariant forall k :: 0 <= k < |batch| ==>
          entered[k] == if k < i then batch[k].(time := Max(batch[k].time, now)) else batch[k]
      {
        if entered[i].time < now { entered := entered[i := entered[i].(time := now)]; }
      }
      HonestStays(batch, entered, result);
      var err := store.AppendBatchAfter(base, entered, admissible);
      if err.Some? {
        final := result.(interrupted := true, calls := [], proposals := [], committed := false);
      } else {
        final := result.(committed := true);
      }
    }

    /** An ordinary run, while other writers append `others`. What it returns as calls is what the provider
        asked for and is in the log as executable calls, in the same order; if it could not be committed it
        returns none and has appended nothing. */
    method Run(p: Plan, events: seq<Event>, others: seq<Item>, admissible: bool)
      returns (final: RunResult, entered: seq<Item>)
      modifies this`drawn, store
      ensures final.committed <==> admissible && Quiet(others)
      ensures Derives(p, events, entered, final.text)
      ensures final.committed ==>
        store.items == old(store.items) + others + entered && Honest(entered, final) && Asks(p, events, final)
      ensures !final.committed ==>
        store.items == old(store.items) + others && final.calls == [] && final.proposals == []
      ensures old(store.items) != [] ==>
        |entered| > 0 && entered[0].parents == [old(store.items)[|old(store.items)| - 1].id]
      ensures forall call :: call in final.calls ==> call.name in p.declared && p.setting.authority.Execute?
      ensures old(drawn) < drawn && forall i :: 0 <= i < |entered| ==> entered[i].time >= source.clock(drawn - 1)
      ensures exists batch, at :: Entered(batch, entered, source, old(drawn), drawn, at)
    {
      hide Honest, Derives, Quiet, Text.Clean, Requested, Numbered;
      var before := store.items;
      store.Others(others);
      var result, batch := Generate(p, events, if before == [] then None else Some(before[|before| - 1]));
      ghost var at :| Numbered(batch, source, old(drawn), drawn, at);
      NumberedMeans(batch, source, old(drawn), drawn, at);
      HonestBatch(batch, result);
      assert store.items[|before|..] == others;
      ghost var now := source.clock(drawn);
      final, entered := Commit(result, |before|, batch, admissible);
      DerivesStays(p, events, batch, entered, result.text, now);
      assert Entered(batch, entered, source, old(drawn), drawn, at);
    }

    /** Speculative work: generated, kept aside, and appended by nobody until it is adopted. Only what other
        writers append meanwhile is new in the log. */
    method Prepare(p: Plan, events: seq<Event>, others: seq<Item>) returns (prepared: Option<Prepared>)
      modifies this`drawn, store
      ensures store.items == old(store.items) + others
      ensures prepared.Some? ==> fresh(prepared.value) && prepared.value.Valid() && prepared.value.Ready()
      ensures prepared.Some? ==> prepared.value.base == |old(store.items)| && !p.setting.interrupted
      ensures prepared.Some? ==>
        && Derives(p, events, prepared.value.items, prepared.value.result.text)
        && Asks(p, events, prepared.value.result)
        && exists at :: Numbered(prepared.value.items, source, old(drawn), drawn, at)
      ensures old(store.items) != [] && prepared.Some? ==>
        |prepared.value.items| > 0
        && prepared.value.items[0].parents == [old(store.items)[|old(store.items)| - 1].id]
      ensures prepared.None? ==>
        p.setting.interrupted || exists batch, text :: Derives(p, events, batch, text) && |batch| == 1
    {
      hide Honest, Derives, Asks, Text.Clean, Numbered;
      var before := store.items;
      store.Others(others);
      var result, batch := Generate(p, events, if before == [] then None else Some(before[|before| - 1]));
      HonestBatch(batch, result);
      if |batch| <= 1 || result.interrupted { return None; }
      var made := new Prepared(result, batch, |before|);
      prepared := Some(made);
    }

    /** Commits prepared output at the current safe point, once. The items enter as they were generated,
        after the log's present end and at the present time, and only if no evidence arrives while they do. */
    method Adopt(prepared: Prepared, others: seq<Item>, admissible: bool)
      returns (adopted: bool, final: RunResult, entered: seq<Item>)
      requires prepared.Valid()
      modifies this`drawn, prepared`adopted, store
      ensures prepared.Valid()
      ensures adopted <==>
        old(prepared.Ready()) && prepared.base <= |old(store.items)| && admissible && Quiet(others)
      ensures !(old(prepared.Ready()) && prepared.base <= |old(store.items)|) ==> store.items == old(store.items)
      ensures adopted ==> prepared.adopted && !prepared.Ready()
      ensures adopted ==> store.items == old(store.items) + others + entered && Honest(entered, final)
      ensures adopted ==> final.calls == prepared.result.calls && final.proposals == prepared.result.proposals
      ensures adopted ==> |entered| == |prepared.items| && forall i :: 0 < i < |entered| ==>
        entered[i] == prepared.items[i].(time := entered[i].time)
      ensures adopted ==> drawn == old(drawn) + 2 && forall i :: 0 <= i < |entered| ==>
        entered[i].time == Max(source.clock(old(drawn)), source.clock(old(drawn) + 1))
      ensures adopted ==> |entered| > 0 && entered[0] == prepared.items[0].(time := entered[0].time,
        parents := if old(store.items) == [] then prepared.items[0].parents
                   else [old(store.items)[|old(store.items)| - 1].id])
      ensures !adopted && old(prepared.Ready()) && prepared.base <= |old(store.items)| ==>
        store.items == old(store.items) + others
      ensures !adopted ==> prepared.adopted == old(prepared.adopted)
      ensures !adopted ==> final.calls == [] && final.proposals == []
    {
      hide Honest, Quiet;
      entered := [];
      final := RunResult([], [], "", false, false);
      if !prepared.Ready() || |store.items| < prepared.base { return false, final, entered; }
      var snapshot := store.items;
      var now := source.clock(drawn);
      drawn := drawn + 1;
      var was := prepared.items;
      var items := seq(|was|, i requires 0 <= i < |was| => was[i].(time := now));
      if snapshot != [] { items := items[0 := items[0].(parents := [snapshot[|snapshot| - 1].id])]; }
      Reparented(was, items, prepared.result);
      store.Others(others);
      assert store.items[|snapshot|..] == others;
      final, entered := Commit(prepared.result, |snapshot|, items, admissible);
      if !final.committed { return false, final, entered; }
      prepared.adopted := true;
      return true, final, entered;
    }
  }

  class Prepared {
    const result: RunResult
    const items: seq<Item>
    const base: nat
    var adopted: bool

    ghost predicate Valid()
      reads this
    {
      Honest(items, result) && !result.committed
    }

    predicate Ready()
      reads this
    {
      !adopted && |items| > 1 && !result.interrupted
    }

    constructor (r: RunResult, batch: seq<Item>, version: nat)
      requires Honest(batch, r) && !r.committed && |batch| > 1 && !r.interrupted
      ensures Valid() && Ready() && result == r && items == batch && base == version
    {
      result, items, base, adopted := r, batch, version, false;
    }
  }

  lemma HonestBatch(batch: seq<Item>, result: RunResult)
    requires Honest(batch, result)
    ensures |batch| > 0
  {
  }

  lemma Reparented(was: seq<Item>, items: seq<Item>, result: RunResult)
    requires Honest(was, result) && !result.committed && |items| == |was|
    requires forall i :: 0 <= i < |was| ==>
      items[i].kind == was[i].kind && items[i].payload == was[i].payload && items[i].id == was[i].id
    requires forall i :: 0 < i < |was| ==> items[i].parents == was[i].parents
    ensures Honest(items, result)
  {
    HonestStays(was, items, result);
  }

  lemma NumberedMeans(items: seq<Item>, source: Source, first: nat, next: nat, at: seq<nat>)
    requires Numbered(items, source, first, next, at)
    ensures first <= next && (items != [] ==> first < next)
  {
    if items != [] { assert first <= at[0] < next; }
  }

  lemma NumberedCons(x: Item, items: seq<Item>, source: Source, first: nat, next: nat, at: seq<nat>)
    requires Numbered(items, source, first + 1, next, at) && x.id == source.name(first) && x.time == source.clock(first)
    ensures Numbered([x] + items, source, first, next, [first] + at)
  {
  }

  lemma BuiltChain(c: Setting, segments: seq<Segment>, root: string, items: seq<Item>)
    requires Built(c, segments, root, items)
    ensures Chained(items, root)
  {
    hide Chained, Stateful;
  }

  lemma StrippedAre(raw: seq<Segment>, stripped: seq<Segment>, done: string -> (string, bool))
    requires Stripping(raw, stripped, done)
    ensures forall k :: 0 <= k < |stripped| && stripped[k].Spoken? ==>
      exists text :: stripped[k].text == Stripped(text, done)
  {
    hide Stripped;
    forall k | 0 <= k < |stripped| && stripped[k].Spoken?
      ensures exists text :: stripped[k].text == Stripped(text, done)
    {
      assert stripped[k].text == Stripped(raw[k].text, done);
    }
  }
}
