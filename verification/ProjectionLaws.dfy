/** What the compact view shows and what the validator accepts, told item by item. */
module ProjectionLaws {
  import opened Prelude
  import opened Trajectory
  import opened Projection
  import Text = AnnotationFilter

  // ---- The validator -----------------------------------------------------------------------

  ghost predicate Ascending(at: seq<nat>, n: nat) {
    && (forall i :: 0 <= i < |at| ==> at[i] < n)
    && (forall i, j :: 0 <= i < j < |at| ==> at[i] < at[j])
  }

  /** The item is the log's, but that it may have shed causes, its native state, or the kind of it. */
  predicate Copies(x: Item, original: Item) {
    && x == original.(parents := x.parents, native := x.native)
    && (x.native.bytes == original.native.bytes || x.native.bytes == [])
    && (x.native.kind == original.native.kind || x.native.kind == "")
  }

  /** These are items of the log, in its order, that name no cause and no assistant item that is missing. */
  ghost predicate Selects(canonical: seq<Item>, projected: seq<Item>, at: seq<nat>) {
    && |at| == |projected| && Ascending(at, |canonical|)
    && (forall i :: 0 <= i < |at| ==> Copies(projected[i], canonical[at[i]]))
    && (forall i, p :: 0 <= i < |projected| && p in projected[i].parents ==> Names(projected, p))
    && (forall i :: 0 <= i < |projected| && projected[i].kind.AssistantState? && projected[i].payload.Stated? ==>
          Names(projected, projected[i].payload.assistantID))
  }

  /** For a log with unique identities the validator accepts a projection if and only if it selects items of the
      log: none invented, altered, repeated or moved, and no reference left dangling. */
  lemma AcceptedIsSelected(canonical: seq<Item>, projected: seq<Item>)
    requires UniqueIds(canonical)
    ensures Accepts(canonical, projected) <==> exists at :: Selects(canonical, projected, at)
  {
    hide Position, Names;
    if Accepts(canonical, projected) {
      var at := seq(|projected|, i requires 0 <= i < |projected| =>
        assert FaithfulAt(canonical, projected[i]); Position(canonical, projected[i].id) as nat);
      forall i | 0 <= i < |projected| ensures Copies(projected[i], canonical[at[i]]) {
        assert FaithfulAt(canonical, projected[i]);
      }
      forall i, p | 0 <= i < |projected| && p in projected[i].parents ensures Names(projected, p) {
        assert Grounded(projected, projected[i]);
      }
      assert Selects(canonical, projected, at);
    }
    if exists at :: Selects(canonical, projected, at) {
      var at :| Selects(canonical, projected, at);
      forall i | 0 <= i < |projected|
        ensures FaithfulAt(canonical, projected[i]) && Position(canonical, projected[i].id) == at[i]
      {
        assert Copies(projected[i], canonical[at[i]]);
        PositionIs(canonical, at[i]);
      }
    }
  }

  // ---- The compact view --------------------------------------------------------------------

  /** The user's own words. */
  predicate UserWords(x: Item) {
    x.kind == Observation && if x.provenance.Some? then x.provenance.value.user else x.phase != "observer"
  }

  /** The name an image goes by: its own source, else that of its observation, else its observer. */
  function SourceOf(p: Provenance, media: string): string {
    var own, all := Text.TrimSpace(media), Text.TrimSpace(p.source);
    if own != "" then own else if all != "" then all else "observer:" + p.observer
  }

  predicate Shows(x: Item, source: string) {
    && x.kind == Observation && x.provenance.Some?
    && var p := x.provenance.value; exists i :: 0 <= i < |p.media| && SourceOf(p, p.media[i]) == source
  }

  /** A computer action of the fast phase. */
  predicate Acts(x: Item) {
    x.kind == ToolCall && x.payload.Called? && x.phase == "fast" && "computer." <= x.payload.call.name
  }

  predicate Replies(x: Item, id: string) {
    x.kind == ToolResult && x.payload.Resulted? && x.payload.result.callID == id
  }

  /** An action worth showing: the newest there is, or one that has been answered somewhere in the log. */
  predicate Tells(items: seq<Item>, k: int) {
    && 0 <= k < |items| && Acts(items[k])
    && ((forall j :: k < j < |items| ==> !Acts(items[j]))
        || (exists j :: 0 <= j < |items| && Replies(items[j], items[k].payload.call.id)))
  }

  ghost function LaterTelling(items: seq<Item>, k: int): set<int> { set j | k < j < |items| && Tells(items, j) }

  /** An action is shown when fewer than eight later ones are worth showing. */
  ghost predicate ActionShown(items: seq<Item>, k: int) { Tells(items, k) && |LaterTelling(items, k)| < 8 }

  /** k is the first reply to the call at a after it. */
  ghost predicate FirstReply(items: seq<Item>, a: int, k: int) {
    && 0 <= a < k < |items| && items[a].payload.Called? && Replies(items[k], items[a].payload.call.id)
    && forall j :: a < j < k ==> !Replies(items[j], items[a].payload.call.id)
  }

  ghost predicate ReplyShown(items: seq<Item>, k: int) {
    exists a :: ActionShown(items, a) && FirstReply(items, a, k)
  }

  ghost predicate WordsShown(items: seq<Item>, k: int) {
    0 <= k < |items| && UserWords(items[k]) && forall j :: k < j < |items| ==> !UserWords(items[j])
  }

  ghost predicate PictureShown(items: seq<Item>, k: int) {
    exists source :: 0 <= k < |items| && Shows(items[k], source)
                     && forall j :: k < j < |items| ==> !Shows(items[j], source)
  }

  lemma SameWords(x: Item, media: string)
    ensures FromUser(x) <==> UserWords(x)
    ensures IsAction(x) <==> Acts(x)
    ensures forall id :: IsResult(x, id) <==> Replies(x, id)
    ensures forall p :: MediaSource(p, media) == SourceOf(p, media)
  {
  }

  lemma SamePictures(x: Item, source: string)
    ensures Pictures(x, source) <==> Shows(x, source)
  {
    hide MediaSource, SourceOf;
    forall m: string, p: Provenance ensures MediaSource(p, m) == SourceOf(p, m) { SameWords(x, m); }
    if Pictures(x, source) {
      var p := x.provenance.value;
      var m :| m in p.media && MediaSource(p, m) == source;
      var i :| 0 <= i < |p.media| && p.media[i] == m;
      assert SourceOf(p, p.media[i]) == source;
    }
  }

  lemma PictureIsShown(items: seq<Item>, k: int)
    ensures Pictured(items, k) <==> PictureShown(items, k)
  {
    hide Pictures, Shows;
    forall j, source | 0 <= j < |items| ensures Pictures(items[j], source) <==> Shows(items[j], source) {
      SamePictures(items[j], source);
    }
    if Pictured(items, k) {
      var source :| NewestPicture(items, |items|, source, k);
      assert Shows(items[k], source);
    }
    if PictureShown(items, k) {
      var source :| 0 <= k < |items| && Shows(items[k], source)
                    && forall j :: k < j < |items| ==> !Shows(items[j], source);
      assert NewestPicture(items, |items|, source, k);
    }
  }

  // ---- Which actions -----------------------------------------------------------------------

  lemma {:induction false} TellingOnlyIs(items: seq<Item>, s: seq<nat>, newest: nat)
    requires forall i, j :: 0 <= i < j < |s| ==> s[i] < s[j]
    ensures var r := TellingOnly(items, s, newest);
      && (forall i, j :: 0 <= i < j < |r| ==> r[i] < r[j])
      && (forall k: nat :: k in r <==> k in s && Telling(items, k, newest))
  {
    hide Telling;
    if s != [] {
      var front := s[..|s| - 1];
      TellingOnlyIs(items, front, newest);
      assert s == front + [s[|s| - 1]];
    }
  }

  /** The actions told of are, in order, those worth showing. */
  lemma ToldAre(items: seq<Item>)
    ensures var told := Told(items);
      && (forall i, j :: 0 <= i < j < |told| ==> told[i] < told[j])
      && (forall k: nat :: k in told <==> Tells(items, k))
  {
    hide TellingOnly, IsAction, Acts;
    var all := Actions(items, |items|);
    forall k | 0 <= k < |items| ensures IsAction(items[k]) <==> Acts(items[k]) { SameWords(items[k], ""); }
    if all != [] {
      TellingOnlyIs(items, all, all[|all| - 1]);
      forall k: nat ensures k in Told(items) <==> Tells(items, k) { ToldHas(items, k); }
    }
  }

  lemma ToldHas(items: seq<Item>, k: nat)
    requires Actions(items, |items|) != []
    ensures k in Told(items) <==> Tells(items, k)
  {
    hide TellingOnly, IsAction, Acts, Telling, Replies;
    var all := Actions(items, |items|);
    var newest := all[|all| - 1];
    TellingOnlyIs(items, all, newest);
    if k < |items| {
      SameWords(items[k], "");
      if IsAction(items[k]) {
        NewestIsLast(items, k);
        TellingIs(items, k, newest);
      }
    }
  }

  lemma NewestIsLast(items: seq<Item>, k: nat)
    requires k < |items| && IsAction(items[k])
    ensures var all := Actions(items, |items|);
      all != [] && (k == all[|all| - 1] <==> forall j :: k < j < |items| ==> !Acts(items[j]))
  {
    hide IsAction, Acts;
    var all := Actions(items, |items|);
    forall j | 0 <= j < |items| ensures IsAction(items[j]) <==> Acts(items[j]) { SameWords(items[j], ""); }
    assert k in all;
    var last := all[|all| - 1];
    var i :| 0 <= i < |all| && all[i] == k;
    assert IsAction(items[last]);
    forall j | 0 <= j < |items| && IsAction(items[j]) ensures j <= last { ActionsEnd(items, j); }
  }

  lemma ActionsEnd(items: seq<Item>, j: nat)
    requires j < |items| && IsAction(items[j])
    ensures var all := Actions(items, |items|); all != [] && j <= all[|all| - 1]
  {
    hide IsAction;
    var all := Actions(items, |items|);
    assert j in all;
    var m :| 0 <= m < |all| && all[m] == j;
  }

  lemma TellingIs(items: seq<Item>, k: nat, newest: nat)
    requires k < |items| && IsAction(items[k])
    requires k == newest <==> forall j :: k < j < |items| ==> !Acts(items[j])
    ensures Telling(items, k, newest) <==> Tells(items, k)
  {
    SameWords(items[k], "");
    var id := items[k].payload.call.id;
    forall j | 0 <= j < |items| ensures IsResult(items[j], id) <==> Replies(items[j], id) { SameWords(items[j], ""); }
    hide IsResult, Replies, Acts;
    if HasResult(items, |items|, id) {
      var j :| 0 <= j < |items| && IsResult(items[j], id);
      assert Replies(items[j], id);
    }
    if exists j :: 0 <= j < |items| && Replies(items[j], id) {
      var j :| 0 <= j < |items| && Replies(items[j], id);
      assert IsResult(items[j], id);
    }
  }

  /** The same numbers, as a set. */
  function Ints(s: seq<nat>): set<int> { set i | 0 <= i < |s| :: s[i] as int }

  lemma {:induction false} SortedSize(s: seq<nat>)
    requires forall i, j :: 0 <= i < j < |s| ==> s[i] < s[j]
    ensures |Ints(s)| == |s|
  {
    if s != [] {
      var front, last := s[..|s| - 1], s[|s| - 1];
      SortedSize(front);
      IntsSnoc(s);
    }
  }

  lemma IntsSnoc(s: seq<nat>)
    requires s != [] && forall i, j :: 0 <= i < j < |s| ==> s[i] < s[j]
    ensures Ints(s) == Ints(s[..|s| - 1]) + {s[|s| - 1] as int} && s[|s| - 1] as int !in Ints(s[..|s| - 1])
  {
    var front := s[..|s| - 1];
    forall k | k in Ints(s) ensures k in Ints(front) + {s[|s| - 1] as int} {
      var i :| 0 <= i < |s| && s[i] == k;
      assert i < |front| ==> front[i] == k;
    }
    forall k | k in Ints(front) ensures k in Ints(s) {
      var i :| 0 <= i < |front| && front[i] == k;
      assert s[i] == k;
    }
  }

  lemma LaterAre(items: seq<Item>, told: seq<nat>, i: nat)
    requires i < |told| && forall i, j :: 0 <= i < j < |told| ==> told[i] < told[j]
    requires forall k: nat :: k in told <==> Tells(items, k)
    ensures LaterTelling(items, told[i]) == Ints(told[i + 1..])
  {
    hide Tells;
    var later := told[i + 1..];
    TellsAreInside(items);
    forall j | j in LaterTelling(items, told[i]) ensures j in Ints(later) {
      var k: nat := j;
      assert k in told;
      var m :| 0 <= m < |told| && told[m] == k;
      assert later[m - i - 1] == k;
    }
    forall j | j in Ints(later) ensures j in LaterTelling(items, told[i]) {
      var m :| 0 <= m < |later| && later[m] == j;
      var k := told[i + 1 + m];
      assert k in told && told[i] < k;
      assert Tells(items, k);
    }
  }

  lemma RetainedIs(items: seq<Item>, k: nat)
    ensures k in Retained(items) <==> ActionShown(items, k)
  {
    hide Told, Tells, LaterTelling, Ints;
    ToldAre(items);
    var told := Told(items);
    if Tells(items, k) {
      var i :| 0 <= i < |told| && told[i] == k;
      LaterAre(items, told, i);
      SortedSize(told[i + 1..]);
      LastHas(told, i);
    } else {
      assert k !in told;
    }
  }

  lemma TellsAreInside(items: seq<Item>)
    ensures forall k :: Tells(items, k) ==> 0 <= k < |items|
  {
    hide Acts, Replies;
  }

  lemma LastHas(s: seq<nat>, i: nat)
    requires i < |s| && forall i, j :: 0 <= i < j < |s| ==> s[i] < s[j]
    ensures s[i] in LastOf(s, 8) <==> |s| - 1 - i < 8
  {
    var r := LastOf(s, 8);
    if |s| - 1 - i < 8 { assert r[i - (|s| - |r|)] == s[i]; }
    if s[i] in r {
      var j :| 0 <= j < |r| && r[j] == s[i];
      assert s[|s| - |r| + j] == s[i];
    }
  }

  /** The compact view shows exactly: the user's latest words; the newest observation of each image source; the
      last eight actions worth showing; and the first reply to each action it shows. */
  lemma ShownExactly(items: seq<Item>, k: int)
    ensures k in ChosenSet(items) <==>
      0 <= k < |items|
      && (WordsShown(items, k) || PictureShown(items, k) || ActionShown(items, k) || ReplyShown(items, k))
  {
    hide Retained, ActionShown, Pictured, PictureShown, FromUser, UserWords, IsResult, Replies;
    PictureIsShown(items, k);
    if 0 <= k < |items| {
      forall j | 0 <= j < |items| ensures FromUser(items[j]) <==> UserWords(items[j]) { SameWords(items[j], ""); }
      RetainedIs(items, k);
      ReplyIsShown(items, k);
    }
  }

  lemma AnswersIs(items: seq<Item>, a: int, k: int)
    ensures Answers(items, a, k) <==> FirstReply(items, a, k)
  {
    forall j, id | 0 <= j < |items| ensures IsResult(items[j], id) <==> Replies(items[j], id) {
      SameWords(items[j], "");
    }
    hide IsResult, Replies;
  }

  lemma ReplyIsShown(items: seq<Item>, k: nat)
    requires k < |items|
    ensures Answered(items, Retained(items), k) <==> ReplyShown(items, k)
  {
    hide Retained, ActionShown, Answers, FirstReply;
    if Answered(items, Retained(items), k) {
      var i :| 0 <= i < |Retained(items)| && Answers(items, Retained(items)[i], k);
      var a := Retained(items)[i];
      RetainedIs(items, a);
      AnswersIs(items, a, k);
      assert ActionShown(items, a) && FirstReply(items, a, k);
    }
    if ReplyShown(items, k) {
      var a :| ActionShown(items, a) && FirstReply(items, a, k);
      FirstReplyIsAfter(items, a, k);
      RetainedIs(items, a);
      AnswersIs(items, a, k);
      var i :| 0 <= i < |Retained(items)| && Retained(items)[i] == a;
      assert Answers(items, Retained(items)[i], k);
    }
  }

  lemma FirstReplyIsAfter(items: seq<Item>, a: int, k: int)
    requires FirstReply(items, a, k)
    ensures 0 <= a < k
  {
  }

  // ---- The filters -------------------------------------------------------------------------

  /** The call an item makes or answers, if it is a tool item. */
  function CallOf(x: Item): Option<string> {
    if x.kind == ToolCall && x.payload.Called? then Some(x.payload.call.id)
    else if x.kind == ToolResult && x.payload.Resulted? then Some(x.payload.result.callID)
    else None
  }

  /** The projection has a computer call of that identity. */
  ghost predicate Clicks(p: seq<Item>, id: string) {
    exists x :: x in p && x.kind == ToolCall && x.payload.Called? && "computer." <= x.payload.call.name
      && x.payload.call.id == id
  }

  ghost predicate IsAnswered(p: seq<Item>, id: string) { exists x :: x in p && Replies(x, id) }

  ghost predicate Named(names: seq<string>, id: string) {
    id != "" && exists i :: 0 <= i < |names| && Text.TrimSpace(names[i]) == id
  }

  /** Of a projection, the filter for one intent leaves out, in order, exactly the items of computer calls that the
      intent does not name. */
  lemma IntentLeaves(p: seq<Item>, names: seq<string>, x: Item)
    ensures var q := IntentView(p, Some(names));
      x in q <==> x in p && !(CallOf(x).Some? && Clicks(p, CallOf(x).value) && !Named(names, CallOf(x).value))
    ensures IntentView(p, None) == p
  {
    hide Text.TrimSpace;
    if CallOf(x).Some? {
      var id := CallOf(x).value;
      assert id in ForeignCalls(p, names) <==> Clicks(p, id) && !Named(names, id);
    }
  }

  /** And the filter for a reflex part way through its task leaves out exactly the items of computer calls that
      have been answered. */
  lemma OpenLeaves(p: seq<Item>, x: Item)
    ensures var q := OpenView(p, true);
      x in q <==> x in p && !(CallOf(x).Some? && Clicks(p, CallOf(x).value) && IsAnswered(p, CallOf(x).value))
    ensures OpenView(p, false) == p
  {
    if CallOf(x).Some? {
      var id := CallOf(x).value;
      HeldIsAnswered(p, id);
      assert id in AnsweredCalls(p) <==> Clicks(p, id) && IsAnswered(p, id);
    }
  }

  lemma HeldIsAnswered(p: seq<Item>, id: string)
    ensures HoldsResult(p, id) <==> IsAnswered(p, id)
  {
    if HoldsResult(p, id) {
      var i :| 0 <= i < |p| && IsResult(p[i], id);
      assert p[i] in p && Replies(p[i], id);
    }
    if IsAnswered(p, id) {
      var x :| x in p && Replies(x, id);
      var i :| 0 <= i < |p| && p[i] == x;
      assert IsResult(p[i], id);
    }
  }

  /** A reflex with a task of its own is not shown the user's words. */
  lemma TaskLeaves(p: seq<Item>, x: Item)
    ensures x in TaskView(p, true) <==> x in p && !UserWords(x)
    ensures TaskView(p, false) == p
  {
  }
}
