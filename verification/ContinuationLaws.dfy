/** What a continuation makes of its provider's words, thoughts and calls, whatever the mixture. */
module ContinuationLaws {
  import opened Prelude
  import opened Trajectory
  import opened Continuations
  import Text = AnnotationFilter

  // ---- Which calls may be executed ---------------------------------------------------------

  /** The calls among the events whose tool was offered, or was not. */
  function CallsTo(events: seq<Event>, declared: set<string>, offered: bool): seq<Trajectory.Call> {
    if events == [] then []
    else
      var last := events[|events| - 1];
      CallsTo(events[..|events| - 1], declared, offered)
      + if last.CallEvent? && (last.call.name in declared) == offered then [last.call] else []
  }

  function AllCalls(events: seq<Event>): seq<Trajectory.Call> {
    if events == [] then []
    else
      var last := events[|events| - 1];
      AllCalls(events[..|events| - 1]) + if last.CallEvent? then [last.call] else []
  }

  /** A provider with execution authority executes its calls of the tools offered and proposes the others; one that
      may only propose proposes them all; and one without tool authority does neither. Each keeps its order. */
  lemma {:induction false} RequestedAre(c: Setting, events: seq<Event>, declared: set<string>)
    ensures Requested(c, events, declared, false) ==
      if c.authority.Execute? then CallsTo(events, declared, true) else []
    ensures Requested(c, events, declared, true) ==
      match c.authority
      case NoTools => []
      case Propose => AllCalls(events)
      case Execute => CallsTo(events, declared, false)
  {
    if events != [] { RequestedAre(c, events[..|events| - 1], declared); }
  }

  // ---- Words and thoughts ------------------------------------------------------------------

  /** What the items say, in order. */
  ghost function Words(items: seq<Item>): seq<string> {
    if items == [] then []
    else
      var last := items[|items| - 1];
      Words(items[..|items| - 1]) + if last.kind == Assistant then [last.content] else []
  }

  /** What the items think, in order, leaving out what has no words. */
  ghost function Thoughts(items: seq<Item>): seq<string> {
    if items == [] then []
    else
      var last := items[|items| - 1];
      Thoughts(items[..|items| - 1]) + if last.kind == Reasoning && last.content != "" then [last.content] else []
  }

  /** What the segments say that is not blank. */
  ghost function Sayings(segments: seq<Segment>): seq<string> {
    if segments == [] then []
    else
      var last := segments[|segments| - 1];
      Sayings(segments[..|segments| - 1])
      + if last.Spoken? && Text.TrimSpace(last.text) != "" then [last.text] else []
  }

  ghost function Musings(segments: seq<Segment>): seq<string> {
    if segments == [] then []
    else
      var last := segments[|segments| - 1];
      Musings(segments[..|segments| - 1]) + if last.Reasoned? && last.text != "" then [last.text] else []
  }

  lemma SnocAll(segments: seq<Segment>, s: Segment)
    ensures Sayings(segments + [s]) ==
      Sayings(segments) + if s.Spoken? && Text.TrimSpace(s.text) != "" then [s.text] else []
    ensures Musings(segments + [s]) == Musings(segments) + if s.Reasoned? && s.text != "" then [s.text] else []
  {
    assert (segments + [s])[..|segments|] == segments;
  }

  lemma {:induction false} ConveyedWords(c: Setting, items: seq<Item>, records: seq<Segment>)
    requires Conveyed(c, items, records)
    requires forall i :: 0 <= i < |records| && records[i].Spoken? ==> Text.TrimSpace(records[i].text) != ""
    ensures Words(items) == Sayings(records) && Thoughts(items) == Musings(records)
  {
    hide Text.TrimSpace;
    if items != [] {
      var n := |items| - 1;
      assert Conveys(c, items[n], records[n]);
      ConveyedWords(c, items[..n], records[..n]);
    }
  }

  lemma {:induction false} RecordedSayings(c: Setting, segments: seq<Segment>, acting: bool)
    ensures Sayings(Filter(segments, Recording(c, acting)))
         == if acting && !c.interrupted then [] else Sayings(segments)
  {
    hide Filter, Text.TrimSpace, Musings;
    var keep := Recording(c, acting);
    if segments == [] {
      FilterNothing(keep);
    } else {
      var front, s := segments[..|segments| - 1], segments[|segments| - 1];
      RecordedSayings(c, front, acting);
      assert segments == front + [s];
      FilterSnoc(front, s, keep);
      SnocAll(Filter(front, keep), s);
      assert Filter(front, keep) + [] == Filter(front, keep);
      assert keep(s) == Recorded(c, acting, s);
    }
  }

  lemma {:induction false} RecordedMusings(c: Setting, segments: seq<Segment>, acting: bool)
    ensures Musings(Filter(segments, Recording(c, acting))) == if c.retainReasoning then Musings(segments) else []
  {
    hide Filter, Text.TrimSpace, Sayings;
    var keep := Recording(c, acting);
    if segments == [] {
      FilterNothing(keep);
    } else {
      var front, s := segments[..|segments| - 1], segments[|segments| - 1];
      RecordedMusings(c, front, acting);
      assert segments == front + [s];
      FilterSnoc(front, s, keep);
      SnocAll(Filter(front, keep), s);
      assert Filter(front, keep) + [] == Filter(front, keep);
      assert keep(s) == Recorded(c, acting, s);
    }
  }

  lemma RecordedIsNotBlank(c: Setting, segments: seq<Segment>, acting: bool)
    ensures var records := Filter(segments, Recording(c, acting));
      forall i :: 0 <= i < |records| && records[i].Spoken? ==> Text.TrimSpace(records[i].text) != ""
  {
    hide Text.TrimSpace;
    var records := Filter(segments, Recording(c, acting));
    forall i | 0 <= i < |records| && records[i].Spoken? ensures Text.TrimSpace(records[i].text) != "" {
      assert records[i] in records;
      assert Recording(c, acting)(records[i]) == Recorded(c, acting, records[i]);
    }
  }

  /** Of what a provider says, the log keeps every word that is not blank, in order, unless it completed with a call:
      then the call speaks for it. Of what it thinks, the log keeps all or nothing, as configured. */
  lemma BuiltSays(c: Setting, segments: seq<Segment>, root: string, items: seq<Item>)
    requires Built(c, segments, root, items)
    ensures var acting := exists i :: 0 <= i < |segments| && segments[i].Action?;
      && Words(items) == (if acting && !c.interrupted then [] else Sayings(segments))
      && Thoughts(items) == (if c.retainReasoning then Musings(segments) else [])
  {
    hide Chained, Stateful, Filter, HasProposal, Recorded;
    var records := Records(c, segments);
    RecordedSayings(c, segments, HasAction(segments));
    RecordedMusings(c, segments, HasAction(segments));
    RecordedIsNotBlank(c, segments, HasAction(segments));
    if KeepsState(c, segments) && records == [] {
      assert items == [items[0]] && items[..0] == [];
    } else {
      ConveyedWords(c, items, records);
    }
  }

  // ---- Native state ------------------------------------------------------------------------

  /** The segment is a call that may only be proposed. */
  predicate OnlyProposed(c: Setting, s: Segment) { s.Action? && (s.undeclared || c.authority == Propose) }

  /** Native state that the provider returned is on the first item, and on no other, exactly when nothing it streamed
      was only a proposal; there is then an item to carry it, whatever else there is. */
  lemma StateIsCarried(c: Setting, segments: seq<Segment>, root: string, items: seq<Item>)
    requires Built(c, segments, root, items) && c.native.bytes != []
    ensures var proposed := exists i :: 0 <= i < |segments| && OnlyProposed(c, segments[i]);
      && (!proposed ==> items != [] && items[0].native == c.native
                        && forall i :: 0 < i < |items| ==> items[i].native == NO_STATE)
      && (proposed ==> forall i :: 0 <= i < |items| ==> items[i].native == NO_STATE)
  {
    hide Chained, Conveyed, Filter, Recorded, HasAction;
    if HasProposal(c, segments) {
      var i :| 0 <= i < |segments| && Proposal(c, segments[i]);
      assert OnlyProposed(c, segments[i]);
    }
    if exists i :: 0 <= i < |segments| && OnlyProposed(c, segments[i]) {
      var i :| 0 <= i < |segments| && OnlyProposed(c, segments[i]);
      assert Proposal(c, segments[i]);
    }
  }

  // ---- Control text ------------------------------------------------------------------------

  /** Text in which nothing is found to remove is kept as it is. */
  lemma UnmarkedIsKept(text: string, done: string -> (string, bool))
    requires done(text) == (text, false) && Text.Index(text) < 0
    ensures Stripped(text, done) == text && StripSegment(Spoken(text), done) == Spoken(text)
    ensures StripSegment(Reasoned(text), done) == Reasoned(text)
  {
  }

  // ---- What keeps a continuation from being committed --------------------------------------

  /** A new observation, repair or tool result is evidence that a continuation did not have; nothing else is. */
  lemma EvidenceIs(items: seq<Item>)
    ensures Quiet(items) <==>
      forall i :: 0 <= i < |items| ==> items[i].kind !in {Observation, Repair, Kind.ToolResult}
  {
    forall x: Item ensures Superseding(x) <==> x.kind in {Observation, Repair, Kind.ToolResult} {}
  }
}
