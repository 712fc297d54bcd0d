/** The compact view of the log given to the visual reflex, and the validator every projection must
    satisfy. */
module Projection {
  import opened Prelude
  import opened Trajectory
  import Text = AnnotationFilter

  // ---- The validator -----------------------------------------------------------------------

  /** Where an identity is in the log: its last item, should there be several. */
  function Position(items: seq<Item>, id: string): (k: int)
    ensures -1 <= k < |items|
    ensures k >= 0 ==> items[k].id == id
    ensures forall i :: k < i < |items| ==> items[i].id != id
  {
    if items == [] then -1
    else if items[|items| - 1].id == id then |items| - 1
    else Position(items[..|items| - 1], id)
  }

  /** A projected item may shed causes and native state; nothing else about it may differ. */
  predicate Faithful(original: Item, x: Item) {
    && x == original.(parents := x.parents, native := x.native)
    && (x.native.bytes != [] ==> x.native.bytes == original.native.bytes)
    && (x.native.kind != "" ==> x.native.kind == original.native.kind)
  }

  ghost predicate Names(items: seq<Item>, id: string) { exists i :: 0 <= i < |items| && items[i].id == id }

  predicate FaithfulAt(canonical: seq<Item>, x: Item) {
    Position(canonical, x.id) >= 0 && Faithful(canonical[Position(canonical, x.id)], x)
  }

  /** Every cause, and the assistant item a state speaks of, is still there. */
  ghost predicate Grounded(projected: seq<Item>, x: Item) {
    && (forall p :: p in x.parents ==> Names(projected, p))
    && (x.kind.AssistantState? && x.payload.Stated? ==> Names(projected, x.payload.assistantID))
  }

  /** The first n projected items are in the log's order. */
  ghost predicate InOrder(canonical: seq<Item>, p: seq<Item>, n: int) {
    forall i, j :: 0 <= i < j < n <= |p| ==> Position(canonical, p[i].id) < Position(canonical, p[j].id)
  }

  ghost predicate Accepts(canonical: seq<Item>, projected: seq<Item>) {
    && (forall i :: 0 <= i < |projected| ==> FaithfulAt(canonical, projected[i]))
    && InOrder(canonical, projected, |projected|)
    && (forall i :: 0 <= i < |projected| ==> Grounded(projected, projected[i]))
  }

  lemma InOrderStep(canonical: seq<Item>, p: seq<Item>, n: nat)
    requires n < |p| && InOrder(canonical, p, n)
    ensures InOrder(canonical, p, n + 1) <==> n == 0 || Position(canonical, p[n - 1].id) < Position(canonical, p[n].id)
  {
    hide Position;
    if n > 0 && Position(canonical, p[n - 1].id) < Position(canonical, p[n].id) {
      forall i | 0 <= i < n ensures Position(canonical, p[i].id) < Position(canonical, p[n].id) {
        assert i < n - 1 ==> Position(canonical, p[i].id) < Position(canonical, p[n - 1].id);
      }
    }
  }

  /** A repeated identity cannot be in order. */
  lemma InOrderDiffers(canonical: seq<Item>, p: seq<Item>, i: nat, j: nat)
    requires i < j < |p| && p[i].id == p[j].id
    ensures !InOrder(canonical, p, |p|)
  {
    hide Position;
  }

  method IndexById(canonical: seq<Item>) returns (order: map<string, nat>)
    ensures forall id :: id in order <==> Position(canonical, id) >= 0
    ensures forall id :: id in order ==> order[id] == Position(canonical, id)
  {
    order := map[];
    for i := 0 to |canonical|
      invariant forall id :: id in order <==> Position(canonical[..i], id) >= 0
      invariant forall id :: id in order ==> order[id] == Position(canonical[..i], id)
    {
      assert canonical[..i + 1][..i] == canonical[..i];
      order := order[canonical[i].id := i];
    }
    assert canonical[..|canonical|] == canonical;
  }

  method ValidateProjection(canonical: seq<Item>, projected: seq<Item>) returns (ok: bool)
    ensures ok <==> Accepts(canonical, projected)
  {
    hide Position, Faithful, Grounded, InOrder;
    var order := IndexById(canonical);
    var retained: set<string> := {};
    var previous: int := -1;
    NothingInOrder(canonical, projected);
    for i := 0 to |projected|
      invariant forall k :: 0 <= k < i ==> FaithfulAt(canonical, projected[k])
      invariant InOrder(canonical, projected, i)
      invariant previous == if i == 0 then -1 else Position(canonical, projected[i - 1].id)
      invariant forall id :: id in retained <==> Named(projected, i, id)
    {
      var item := projected[i];
      if item.id !in order {
        assert !FaithfulAt(canonical, item);
        return false;
      }
      if item.id in retained {
        var k :| 0 <= k < i && projected[k].id == item.id;
        InOrderDiffers(canonical, projected, k, i);
        return false;
      }
      InOrderStep(canonical, projected, i);
      if order[item.id] <= previous {
        Misplaced(canonical, projected, i + 1);
        return false;
      }
      previous := order[item.id];
      retained := retained + {item.id};
      var original := canonical[order[item.id]];
      if !Faithful(original, item) {
        assert !FaithfulAt(canonical, item);
        return false;
      }
    }
    ok := CheckGrounded(projected, retained);
  }

  ghost predicate Named(p: seq<Item>, n: int, id: string) { exists k :: 0 <= k < n <= |p| && p[k].id == id }

  lemma NothingInOrder(canonical: seq<Item>, p: seq<Item>)
    ensures InOrder(canonical, p, 0)
  {
  }

  lemma Misplaced(canonical: seq<Item>, p: seq<Item>, n: nat)
    requires n <= |p| && !InOrder(canonical, p, n)
    ensures !InOrder(canonical, p, |p|)
  {
    hide Position;
  }

  method CheckGrounded(projected: seq<Item>, retained: set<string>) returns (ok: bool)
    requires forall id :: id in retained <==> Names(projected, id)
    ensures ok <==> forall i :: 0 <= i < |projected| ==> Grounded(projected, projected[i])
  {
    hide Names;
    for i := 0 to |projected|
      invariant forall k :: 0 <= k < i ==> Grounded(projected, projected[k])
    {
      var item := projected[i];
      for p := 0 to |item.parents|
        invariant forall q :: 0 <= q < p ==> item.parents[q] in retained
      {
        if item.parents[p] !in retained {
          assert !Grounded(projected, item);
          return false;
        }
      }
      if item.kind.AssistantState? && item.payload.Stated? && item.payload.assistantID !in retained {
        assert !Grounded(projected, item);
        return false;
      }
    }
    return true;
  }

  // ---- What the compact view keeps ---------------------------------------------------------

  const RETAINED: nat := 8

  predicate Computer(name: string) { "computer." <= name }

  /** A computer action proposed by the fast phase. */
  predicate IsAction(x: Item) {
    x.kind.ToolCall? && x.payload.Called? && x.phase == "fast" && Computer(x.payload.call.name)
  }

  predicate IsResult(x: Item, callID: string) {
    x.kind.ToolResult? && x.payload.Resulted? && x.payload.result.callID == callID
  }

  function MediaSource(p: Provenance, media: string): string {
    if Text.TrimSpace(media) != "" then Text.TrimSpace(media)
    else if Text.TrimSpace(p.source) != "" then Text.TrimSpace(p.source)
    else "observer:" + p.observer
  }

  /** The item observes an image from that source. */
  predicate Pictures(x: Item, source: string) {
    && x.kind.Observation? && x.provenance.Some?
    && exists m :: m in x.provenance.value.media && MediaSource(x.provenance.value, m) == source
  }

  /** k is the last place below n where the item observes the source. */
  ghost predicate NewestPicture(items: seq<Item>, n: nat, source: string, k: int) {
    && 0 <= k < n <= |items| && Pictures(items[k], source)
    && forall j :: k < j < n ==> !Pictures(items[j], source)
  }

  ghost predicate LatestUser(items: seq<Item>, n: nat, k: int) {
    && 0 <= k < n <= |items| && FromUser(items[k])
    && forall j :: k < j < n ==> !FromUser(items[j])
  }

  ghost predicate HasResult(items: seq<Item>, n: nat, callID: string)
    requires n <= |items|
  {
    exists j :: 0 <= j < n && IsResult(items[j], callID)
  }

  /** The places of the fast actions below n, in order. */
  function Actions(items: seq<Item>, n: nat): (s: seq<nat>)
    requires n <= |items|
    ensures forall i :: 0 <= i < |s| ==> s[i] < n && IsAction(items[s[i]])
    ensures forall k :: 0 <= k < n && IsAction(items[k]) ==> k in s
    ensures forall i, j :: 0 <= i < j < |s| ==> s[i] < s[j]
  {
    if n == 0 then []
    else
      var rest := Actions(items, n - 1);
      if IsAction(items[n - 1]) then rest + [n - 1] else rest
  }

  /** An older action is worth showing only once it has a result; the newest always is. */
  ghost predicate Telling(items: seq<Item>, k: nat, newest: nat) {
    k == newest || (k < |items| && items[k].payload.Called? && HasResult(items, |items|, items[k].payload.call.id))
  }

  ghost function TellingOnly(items: seq<Item>, s: seq<nat>, newest: nat): (r: seq<nat>)
    ensures forall i :: 0 <= i < |r| ==> r[i] in s
  {
    if s == [] then []
    else
      var k := s[|s| - 1];
      var rest := TellingOnly(items, s[..|s| - 1], newest);
      if Telling(items, k, newest) then rest + [k] else rest
  }

  function LastOf(s: seq<nat>, n: nat): (r: seq<nat>)
    ensures |r| == if |s| > n then n else |s|
    ensures r == s[|s| - |r|..]
  {
    if |s| > n then s[|s| - n..] else s
  }

  ghost function Told(items: seq<Item>): seq<nat> {
    var all := Actions(items, |items|);
    if all == [] then [] else TellingOnly(items, all, all[|all| - 1])
  }

  ghost function Retained(items: seq<Item>): (r: seq<nat>)
    ensures |r| <= RETAINED
    ensures forall i :: 0 <= i < |r| ==> r[i] < |items| && IsAction(items[r[i]])
  {
    var told := Told(items);
    assert forall i :: 0 <= i < |told| ==> told[i] in Actions(items, |items|);
    LastOf(told, RETAINED)
  }

  /** k holds the first result after place a that answers the call there. */
  ghost predicate Answers(items: seq<Item>, a: int, k: int) {
    && 0 <= a < k < |items| && items[a].payload.Called? && IsResult(items[k], items[a].payload.call.id)
    && forall j :: a < j < k ==> !IsResult(items[j], items[a].payload.call.id)
  }

  ghost predicate Answered(items: seq<Item>, kept: seq<nat>, k: int) {
    exists i :: 0 <= i < |kept| && Answers(items, kept[i], k)
  }

  ghost predicate Pictured(items: seq<Item>, k: int) {
    exists source :: NewestPicture(items, |items|, source, k)
  }

  /** The current task, the newest observation of each image source, and the retained actions with
      their results. */
  ghost predicate Chosen(items: seq<Item>, k: int) {
    || LatestUser(items, |items|, k) || Pictured(items, k) || k in Retained(items)
    || Answered(items, Retained(items), k)
  }

  function Detach(x: Item): Item { x.(parents := [], native := NO_STATE) }

  /** The selected items below n, in order, detached from history. */
  function Pick(items: seq<Item>, selected: set<int>, n: nat): seq<Item>
    requires n <= |items|
  {
    if n == 0 then []
    else Pick(items, selected, n - 1) + if n - 1 in selected then [Detach(items[n - 1])] else []
  }

  /** Places in the log of the items picked. */
  function Places(selected: set<int>, n: nat): (at: seq<nat>)
    ensures forall i :: 0 <= i < |at| ==> at[i] < n && at[i] in selected
    ensures forall i, j :: 0 <= i < j < |at| ==> at[i] < at[j]
    ensures forall k :: 0 <= k < n && k in selected ==> k in at
  {
    if n == 0 then [] else Places(selected, n - 1) + if n - 1 in selected then [n - 1] else []
  }

  lemma {:induction false} PickPlaces(items: seq<Item>, selected: set<int>, n: nat)
    requires n <= |items|
    ensures |Pick(items, selected, n)| == |Places(selected, n)|
    ensures forall i :: 0 <= i < |Places(selected, n)| ==>
      Pick(items, selected, n)[i] == Detach(items[Places(selected, n)[i]])
  {
    hide Detach;
    if n > 0 { PickPlaces(items, selected, n - 1); }
  }

  lemma PositionIs(items: seq<Item>, k: nat)
    requires UniqueIds(items) && k < |items|
    ensures Position(items, items[k].id) == k
  {
  }

  /** Any selection of items that are not assistant states is an acceptable projection. */
  lemma PickAccepted(items: seq<Item>, selected: set<int>)
    requires UniqueIds(items)
    requires forall k :: 0 <= k < |items| && k in selected ==> !items[k].kind.AssistantState?
    ensures Accepts(items, Pick(items, selected, |items|))
  {
    hide Position;
    var p, at := Pick(items, selected, |items|), Places(selected, |items|);
    PickPlaces(items, selected, |items|);
    forall i | 0 <= i < |p| ensures FaithfulAt(items, p[i]) && Grounded(p, p[i]) && Position(items, p[i].id) == at[i] {
      PositionIs(items, at[i]);
    }
  }

  // ---- Consequences ------------------------------------------------------------------------

  /** Every tool result follows a call it answers. */
  ghost predicate NoOrphans(p: seq<Item>) {
    forall i :: 0 <= i < |p| && p[i].kind.ToolResult? && p[i].payload.Resulted? ==>
      HasCall(p, i, p[i].payload.result.callID)
  }

  ghost predicate HasCall(p: seq<Item>, n: nat, callID: string)
    requires n <= |p|
  {
    exists j :: 0 <= j < n && p[j].kind.ToolCall? && p[j].payload.Called? && p[j].payload.call.id == callID
  }

  function Calls(p: seq<Item>): nat {
    if p == [] then 0 else Calls(p[..|p| - 1]) + if p[|p| - 1].kind.ToolCall? then 1 else 0
  }

  lemma CallsSnoc(p: seq<Item>, x: Item)
    ensures Calls(p + [x]) == Calls(p) + if x.kind.ToolCall? then 1 else 0
  {
    assert (p + [x])[..|p|] == p;
  }

  lemma ChosenKinds(items: seq<Item>, k: nat)
    requires k < |items| && Chosen(items, k)
    ensures items[k].kind.Observation? || items[k].kind.ToolCall? || items[k].kind.ToolResult?
    ensures items[k].kind.ToolCall? ==> k in Retained(items)
    ensures items[k].kind.ToolResult? ==> Answered(items, Retained(items), k)
  {
    hide Retained, MediaSource;
  }

  ghost function ChosenSet(items: seq<Item>): set<int> { set k | 0 <= k < |items| && Chosen(items, k) }

  /** The compact view itself. */
  ghost function Compacted(items: seq<Item>): seq<Item> { Pick(items, ChosenSet(items), |items|) }

  lemma CompactAccepted(items: seq<Item>)
    requires UniqueIds(items)
    ensures Accepts(items, Compacted(items))
  {
    hide Accepts, Retained, Answered, Chosen;
    forall k | 0 <= k < |items| && k in ChosenSet(items) ensures !items[k].kind.AssistantState? {
      ChosenKinds(items, k);
    }
    PickAccepted(items, ChosenSet(items));
  }

  lemma PickHas(items: seq<Item>, selected: set<int>, k: nat) returns (i: nat)
    requires k < |items| && k in selected
    ensures i < |Places(selected, |items|)| == |Pick(items, selected, |items|)| && Places(selected, |items|)[i] == k
    ensures Pick(items, selected, |items|)[i] == Detach(items[k])
  {
    PickPlaces(items, selected, |items|);
    assert k in Places(selected, |items|);
    i :| 0 <= i < |Places(selected, |items|)| && Places(selected, |items|)[i] == k;
  }

  lemma CompactHasNoOrphans(items: seq<Item>)
    ensures NoOrphans(Compacted(items))
  {
    hide Chosen, Retained, Pick;
    var sel := ChosenSet(items);
    var p, at := Compacted(items), Places(sel, |items|);
    PickPlaces(items, sel, |items|);
    forall i | 0 <= i < |p| && p[i].kind.ToolResult? && p[i].payload.Resulted?
      ensures HasCall(p, i, p[i].payload.result.callID)
    {
      var k := at[i];
      ChosenKinds(items, k);
      var r :| 0 <= r < |Retained(items)| && Answers(items, Retained(items)[r], k);
      var a := Retained(items)[r];
      RetainedIsChosen(items, r);
      var j := PickHas(items, sel, a);
      assert p[j].payload == items[a].payload && p[j].kind == items[a].kind;
      assert j < i;
    }
  }

  lemma RetainedIsChosen(items: seq<Item>, r: nat)
    requires r < |Retained(items)|
    ensures Retained(items)[r] in ChosenSet(items)
  {
    hide Retained, LatestUser, Pictured, Answered;
  }

  function Elements(s: seq<nat>): (r: set<nat>)
    ensures forall k :: k in r <==> k in s
    ensures |r| <= |s|
  {
    if s == [] then {}
    else
      assert s == s[..|s| - 1] + [s[|s| - 1]];
      Elements(s[..|s| - 1]) + {s[|s| - 1]}
  }

  ghost function Below(ks: set<nat>, n: nat): set<nat> { set k | k in ks && k < n }

  lemma {:induction false} CallsBelow(items: seq<Item>, selected: set<int>, ks: set<nat>, n: nat)
    requires n <= |items|
    requires forall k :: 0 <= k < n && k in selected && items[k].kind.ToolCall? ==> k in ks
    ensures Calls(Pick(items, selected, n)) <= |Below(ks, n)|
  {
    if n > 0 {
      CallsBelow(items, selected, ks, n - 1);
      assert Pick(items, selected, n - 1) + [] == Pick(items, selected, n - 1);
      if n - 1 in selected {
        CallsSnoc(Pick(items, selected, n - 1), Detach(items[n - 1]));
      }
      FewerBelow(ks, n);
    }
  }

  lemma FewerBelow(ks: set<nat>, n: nat)
    requires n > 0
    ensures |Below(ks, n)| == |Below(ks, n - 1)| + if n - 1 in ks then 1 else 0
  {
    if n - 1 in ks {
      assert Below(ks, n) == Below(ks, n - 1) + {n - 1};
    } else {
      assert Below(ks, n) == Below(ks, n - 1);
    }
  }

  lemma CompactKeepsFewActions(items: seq<Item>)
    ensures Calls(Compacted(items)) <= RETAINED
  {
    hide Chosen, Retained, Pick, Answered;
    var ks := Elements(Retained(items));
    forall k | 0 <= k < |items| && k in ChosenSet(items) && items[k].kind.ToolCall? ensures k in ks {
      ChosenKinds(items, k);
    }
    CallsBelow(items, ChosenSet(items), ks, |items|);
    Smaller(Below(ks, |items|), ks);
  }

  lemma {:induction false} Smaller(a: set<nat>, b: set<nat>)
    requires a <= b
    ensures |a| <= |b|
  {
    if a != {} {
      var x :| x in a;
      Smaller(a - {x}, b - {x});
    }
  }

  /** The newest observation of every image source, the user's latest words and the newest action are shown. */
  lemma CompactKeepsNewest(items: seq<Item>, k: nat, source: string)
    requires k < |items|
    requires || NewestPicture(items, |items|, source, k) || LatestUser(items, |items|, k)
             || (IsAction(items[k]) && forall j :: k < j < |items| ==> !IsAction(items[j]))
    ensures Detach(items[k]) in Compacted(items)
  {
    hide Pick, Answered, NewestPicture, LatestUser, IsAction;
    if !NewestPicture(items, |items|, source, k) && !LatestUser(items, |items|, k) { NewestActionRetained(items, k); }
    var i := PickHas(items, ChosenSet(items), k);
  }

  lemma NewestActionRetained(items: seq<Item>, k: nat)
    requires k < |items| && IsAction(items[k]) && forall j :: k < j < |items| ==> !IsAction(items[j])
    ensures k in Retained(items)
  {
    hide IsAction;
    var all := Actions(items, |items|);
    assert k in all;
    assert all[|all| - 1] == k;
    var told := Told(items);
    assert told[|told| - 1] == k;
    var kept := Retained(items);
    assert kept[|kept| - 1] == k;
  }

  // ---- The filters applied on top ----------------------------------------------------------

  /** Causes have been shed and nothing is an assistant state: any part of it can be shown. */
  ghost predicate Bare(p: seq<Item>) { forall x :: x in p ==> x.parents == [] && !x.kind.AssistantState? }

  lemma CompactIsBare(items: seq<Item>)
    ensures Bare(Compacted(items))
  {
    hide Retained, Answered, Chosen, Pick;
    var p := Compacted(items);
    PickPlaces(items, ChosenSet(items), |items|);
    forall x | x in p ensures x.parents == [] && !x.kind.AssistantState? {
      var i :| 0 <= i < |p| && p[i] == x;
      ChosenKinds(items, Places(ChosenSet(items), |items|)[i]);
    }
  }

  /** Any part of an accepted bare projection is accepted. */
  lemma FilterAccepted(canonical: seq<Item>, p: seq<Item>, keep: Item -> bool)
    requires Bare(p) && Accepts(canonical, p)
    ensures Bare(Filter(p, keep)) && Accepts(canonical, Filter(p, keep))
  {
    hide Position, Filter;
    var before := (a: Item, b: Item) => Position(canonical, a.id) < Position(canonical, b.id);
    FilterKeepsOrder(p, keep, before);
    var q := Filter(p, keep);
    forall i | 0 <= i < |q| ensures FaithfulAt(canonical, q[i]) && Grounded(q, q[i]) {
      assert q[i] in p;
    }
    forall i, j | 0 <= i < j < |q| ensures Position(canonical, q[i].id) < Position(canonical, q[j].id) {
      assert before(q[i], q[j]);
    }
  }

  lemma {:induction false} FilterCalls(p: seq<Item>, keep: Item -> bool)
    ensures Calls(Filter(p, keep)) <= Calls(p)
  {
    hide Filter;
    if p == [] {
      FilterNothing(keep);
    } else {
      var q, x := p[..|p| - 1], p[|p| - 1];
      FilterCalls(q, keep);
      FilterSnoc(q, x, keep);
      assert p == q + [x];
      CallsSnoc(q, x);
      CallsSnoc(Filter(q, keep), x);
      assert Filter(q, keep) + [] == Filter(q, keep);
    }
  }

  /** The call an item makes or answers is one of these. */
  predicate Carries(x: Item, ids: set<string>) {
    || (x.kind.ToolCall? && x.payload.Called? && x.payload.call.id in ids)
    || (x.kind.ToolResult? && x.payload.Resulted? && x.payload.result.callID in ids)
  }

  function Clear(ids: set<string>): Item -> bool { (x: Item) => !Carries(x, ids) }

  function Without(p: seq<Item>, ids: set<string>): seq<Item> { Filter(p, Clear(ids)) }

  /** Taking out calls together with their results leaves no result alone. */
  lemma {:induction false} WithoutHasNoOrphans(p: seq<Item>, ids: set<string>)
    requires NoOrphans(p)
    ensures NoOrphans(Without(p, ids))
  {
    hide Filter;
    var keep := Clear(ids);
    if p == [] {
      FilterNothing(keep);
    } else {
      var q, x := p[..|p| - 1], p[|p| - 1];
      OrphansPrefix(p);
      WithoutHasNoOrphans(q, ids);
      FilterSnoc(q, x, keep);
      assert p == q + [x];
      assert Without(p, ids) == Without(q, ids) + if keep(x) then [x] else [];
      if keep(x) && x.kind.ToolResult? && x.payload.Resulted? {
        var id := x.payload.result.callID;
        assert HasCall(p, |q|, id);
        var j :| 0 <= j < |q| && p[j].kind.ToolCall? && p[j].payload.Called? && p[j].payload.call.id == id;
        assert q[j] in q && keep(q[j]);
        assert q[j] in Without(q, ids);
      }
      if keep(x) { OrphansSnoc(Without(q, ids), x); } else { assert Without(p, ids) == Without(q, ids); }
    }
  }

  lemma OrphansPrefix(p: seq<Item>)
    requires NoOrphans(p) && p != []
    ensures NoOrphans(p[..|p| - 1])
  {
    var q := p[..|p| - 1];
    forall i | 0 <= i < |q| && q[i].kind.ToolResult? && q[i].payload.Resulted?
      ensures HasCall(q, i, q[i].payload.result.callID)
    {
      assert HasCall(p, i, p[i].payload.result.callID);
      var id := p[i].payload.result.callID;
      var j :| 0 <= j < i && p[j].kind.ToolCall? && p[j].payload.Called? && p[j].payload.call.id == id;
      assert q[j] == p[j];
    }
  }

  lemma OrphansSnoc(p: seq<Item>, x: Item)
    requires NoOrphans(p)
    requires x.kind.ToolResult? && x.payload.Resulted? ==>
      exists y :: y in p && y.kind.ToolCall? && y.payload.Called? && y.payload.call.id == x.payload.result.callID
    ensures NoOrphans(p + [x])
  {
    var q := p + [x];
    forall i | 0 <= i < |q| && q[i].kind.ToolResult? && q[i].payload.Resulted?
      ensures HasCall(q, i, q[i].payload.result.callID)
    {
      if i < |p| {
        assert HasCall(p, i, p[i].payload.result.callID);
        var id := p[i].payload.result.callID;
        var j :| 0 <= j < i && p[j].kind.ToolCall? && p[j].payload.Called? && p[j].payload.call.id == id;
        assert q[j] == p[j];
      } else {
        var y :| y in p && y.kind.ToolCall? && y.payload.Called? && y.payload.call.id == x.payload.result.callID;
        var j :| 0 <= j < |p| && p[j] == y;
        assert q[j] == y;
      }
    }
  }

  // ---- The code ----------------------------------------------------------------------------

  method RecordMedia(item: Item, place: nat, latest: map<string, nat>) returns (next: map<string, nat>)
    ensures forall s :: s in next <==> s in latest || Pictures(item, s)
    ensures forall s :: s in next ==> next[s] == if Pictures(item, s) then place else latest[s]
  {
    hide MediaSource;
    next := latest;
    if !item.kind.Observation? || item.provenance.None? { return; }
    var p := item.provenance.value;
    for m := 0 to |p.media|
      invariant forall s :: s in next <==> s in latest || exists j :: 0 <= j < m && MediaSource(p, p.media[j]) == s
      invariant forall s :: s in next ==>
        next[s] == if exists j :: 0 <= j < m && MediaSource(p, p.media[j]) == s then place else latest[s]
    {
      next := next[MediaSource(p, p.media[m]) := place];
    }
    forall s ensures Pictures(item, s) <==> exists j :: 0 <= j < |p.media| && MediaSource(p, p.media[j]) == s {
    }
  }

  ghost predicate UserSeen(items: seq<Item>, n: nat, latest: int)
    requires n <= |items|
  {
    if latest < 0 then forall j :: 0 <= j < n ==> !FromUser(items[j]) else LatestUser(items, n, latest)
  }

  ghost predicate MediaSeen(items: seq<Item>, n: nat, latest: map<string, nat>)
    requires n <= |items|
  {
    && (forall s :: s in latest ==> NewestPicture(items, n, s, latest[s]))
    && (forall k, s :: 0 <= k < n && Pictures(items[k], s) ==> s in latest)
  }

  ghost predicate ResultsSeen(items: seq<Item>, n: nat, resolved: set<string>)
    requires n <= |items|
  {
    forall id :: id in resolved <==> HasResult(items, n, id)
  }

  lemma MediaStep(items: seq<Item>, n: nat, latest: map<string, nat>, next: map<string, nat>)
    requires n < |items| && MediaSeen(items, n, latest)
    requires forall s :: s in next <==> s in latest || Pictures(items[n], s)
    requires forall s :: s in next ==> next[s] == if Pictures(items[n], s) then n else latest[s]
    ensures MediaSeen(items, n + 1, next)
  {
    hide Pictures;
    forall s | s in next ensures NewestPicture(items, n + 1, s, next[s]) {
      if !Pictures(items[n], s) { assert NewestPicture(items, n, s, latest[s]); }
    }
  }

  lemma ResultsStep(items: seq<Item>, n: nat, resolved: set<string>)
    requires n < |items| && ResultsSeen(items, n, resolved)
    ensures var x := items[n];
      ResultsSeen(items, n + 1,
        if x.kind.ToolResult? && x.payload.Resulted? then resolved + {x.payload.result.callID} else resolved)
  {
    var x := items[n];
    var next := if x.kind.ToolResult? && x.payload.Resulted? then resolved + {x.payload.result.callID} else resolved;
    forall id ensures id in next <==> HasResult(items, n + 1, id) {
      if HasResult(items, n, id) {
        var j :| 0 <= j < n && IsResult(items[j], id);
        assert HasResult(items, n + 1, id);
      }
      if IsResult(items[n], id) { assert HasResult(items, n + 1, id); }
    }
  }

  method Scan(items: seq<Item>)
    returns (latestUser: int, actions: seq<nat>, resolved: set<string>, latestMedia: map<string, nat>)
    ensures UserSeen(items, |items|, latestUser) && actions == Actions(items, |items|)
    ensures ResultsSeen(items, |items|, resolved) && MediaSeen(items, |items|, latestMedia)
  {
    hide MediaSeen, ResultsSeen, Pictures, Computer;
    latestUser, actions, resolved, latestMedia := -1, [], {}, map[];
    NothingSeen(items);
    for i := 0 to |items|
      invariant UserSeen(items, i, latestUser) && actions == Actions(items, i)
      invariant ResultsSeen(items, i, resolved) && MediaSeen(items, i, latestMedia)
    {
      var item := items[i];
      ResultsStep(items, i, resolved);
      if item.kind.ToolResult? && item.payload.Resulted? { resolved := resolved + {item.payload.result.callID}; }
      if IsAction(item) { actions := actions + [i]; }
      if FromUser(item) { latestUser := i; }
      var next := RecordMedia(item, i, latestMedia);
      MediaStep(items, i, latestMedia, next);
      latestMedia := next;
    }
  }

  lemma NothingSeen(items: seq<Item>)
    ensures ResultsSeen(items, 0, {}) && MediaSeen(items, 0, map[])
  {
  }

  /** Drops unresolved actions other than the newest. */
  method KeepTelling(items: seq<Item>, actions: seq<nat>, resolved: set<string>, newest: nat) returns (kept: seq<nat>)
    requires forall i :: 0 <= i < |actions| ==> actions[i] < |items| && IsAction(items[actions[i]])
    requires ResultsSeen(items, |items|, resolved)
    ensures kept == TellingOnly(items, actions, newest)
  {
    hide IsAction, HasResult;
    kept := [];
    for i := 0 to |actions|
      invariant kept == TellingOnly(items, actions[..i], newest)
    {
      assert actions[..i + 1][..i] == actions[..i];
      var k := actions[i];
      IsCall(items[k]);
      if k == newest || items[k].payload.call.id in resolved { kept := kept + [k]; }
    }
    assert actions[..|actions|] == actions;
  }

  /** Drops unresolved actions other than the newest, then all but the last eight. */
  method KeepActions(items: seq<Item>, actions: seq<nat>, resolved: set<string>) returns (kept: seq<nat>)
    requires actions == Actions(items, |items|) && ResultsSeen(items, |items|, resolved)
    ensures kept == Retained(items)
  {
    hide IsAction, ResultsSeen, TellingOnly, Actions;
    kept := actions;
    if |actions| > 0 { kept := KeepTelling(items, actions, resolved, actions[|actions| - 1]); }
    if |kept| > RETAINED { kept := kept[|kept| - RETAINED..]; }
  }

  lemma IsCall(x: Item)
    requires IsAction(x)
    ensures x.payload.Called?
  {
  }

  /** Adds the first result after action a, if there is one. */
  method SelectResult(items: seq<Item>, a: nat, selected: set<int>) returns (next: set<int>)
    requires a < |items| && items[a].payload.Called?
    ensures forall k :: k in next <==> k in selected || Answers(items, a, k)
  {
    var id := items[a].payload.call.id;
    for j := a + 1 to |items|
      invariant forall k :: a < k < j ==> !IsResult(items[k], id)
    {
      if IsResult(items[j], id) {
        assert forall k :: Answers(items, a, k) <==> k == j;
        return selected + {j};
      }
    }
    return selected;
  }

  method SelectActions(items: seq<Item>, kept: seq<nat>, start: set<int>) returns (selected: set<int>)
    requires forall i :: 0 <= i < |kept| ==> kept[i] < |items| && items[kept[i]].payload.Called?
    ensures forall k :: k in selected <==> k in start || k in kept || Answered(items, kept, k)
  {
    hide Answers;
    selected := start;
    for i := 0 to |kept|
      invariant forall k :: k in selected <==> k in start || k in kept[..i] || Answered(items, kept[..i], k)
    {
      var with := SelectResult(items, kept[i], selected + {kept[i]});
      AnsweredStep(items, kept, i);
      selected := with;
    }
    assert kept[..|kept|] == kept;
  }

  lemma AnsweredStep(items: seq<Item>, kept: seq<nat>, i: nat)
    requires i < |kept|
    ensures forall k :: Answered(items, kept[..i + 1], k) <==>
      Answered(items, kept[..i], k) || Answers(items, kept[i], k)
    ensures forall k :: k in kept[..i + 1] <==> k in kept[..i] || k == kept[i]
  {
    hide Answers;
    assert kept[..i + 1] == kept[..i] + [kept[i]];
    forall k
      ensures Answered(items, kept[..i + 1], k) <==> Answered(items, kept[..i], k) || Answers(items, kept[i], k)
    {
      if Answered(items, kept[..i], k) {
        var j :| 0 <= j < i && Answers(items, kept[..i][j], k);
        assert Answers(items, kept[..i + 1][j], k);
      }
      if Answers(items, kept[i], k) { assert Answers(items, kept[..i + 1][i], k); }
    }
  }

  lemma PicturedAre(items: seq<Item>, latest: map<string, nat>, k: int)
    requires MediaSeen(items, |items|, latest)
    ensures Pictured(items, k) <==> k in latest.Values
  {
    hide Pictures;
    if Pictured(items, k) {
      var s :| NewestPicture(items, |items|, s, k);
      assert Pictures(items[k], s);
      assert NewestPicture(items, |items|, s, latest[s]);
      assert latest[s] == k;
    }
    if k in latest.Values {
      var s :| s in latest && latest[s] == k;
      assert NewestPicture(items, |items|, s, k);
    }
  }

  lemma UserIs(items: seq<Item>, latest: int, k: int)
    requires UserSeen(items, |items|, latest)
    ensures LatestUser(items, |items|, k) <==> latest >= 0 && k == latest
  {
    hide FromUser;
  }

  method CompactVisualProjection(items: seq<Item>) returns (projected: seq<Item>)
    ensures projected == Compacted(items)
  {
    hide Retained, Pick, UserSeen, MediaSeen, ResultsSeen, Answered, Pictured, LatestUser;
    var latestUser, actions, resolved, latestMedia := Scan(items);
    var selected: set<int> := {};
    if latestUser >= 0 { selected := {latestUser}; }
    selected := selected + latestMedia.Values;
    var kept := KeepActions(items, actions, resolved);
    KeptAreCalls(items);
    selected := SelectActions(items, kept, selected);
    forall k ensures k in selected <==> Chosen(items, k) {
      UserIs(items, latestUser, k);
      PicturedAre(items, latestMedia, k);
    }
    ChosenBelow(items);
    assert selected == ChosenSet(items);
    projected := [];
    PickNothing(items, selected);
    for i := 0 to |items|
      invariant projected == Pick(items, selected, i)
    {
      PickStep(items, selected, i);
      if i in selected { projected := projected + [Detach(items[i])]; }
    }
  }

  lemma KeptAreCalls(items: seq<Item>)
    ensures forall i :: 0 <= i < |Retained(items)| ==> items[Retained(items)[i]].payload.Called?
  {
    hide Retained;
  }

  lemma ChosenBelow(items: seq<Item>)
    ensures forall k :: Chosen(items, k) ==> 0 <= k < |items|
  {
    hide Retained;
  }

  lemma PickNothing(items: seq<Item>, selected: set<int>)
    ensures Pick(items, selected, 0) == []
  {
  }

  lemma PickStep(items: seq<Item>, selected: set<int>, i: nat)
    requires i < |items|
    ensures Pick(items, selected, i + 1) ==
      if i in selected then Pick(items, selected, i) + [Detach(items[i])] else Pick(items, selected, i)
  {
  }

  predicate IsComputerCall(x: Item) { x.kind.ToolCall? && x.payload.Called? && Computer(x.payload.call.name) }

  /** The identity is among those named, once the names are trimmed. */
  ghost predicate Kept(retainedCallIDs: seq<string>, id: string) {
    id != "" && exists i :: 0 <= i < |retainedCallIDs| && Text.TrimSpace(retainedCallIDs[i]) == id
  }

  predicate MakesCall(p: seq<Item>, id: string) {
    exists i :: 0 <= i < |p| && IsComputerCall(p[i]) && p[i].payload.call.id == id
  }

  predicate HoldsResult(p: seq<Item>, id: string) { exists i :: 0 <= i < |p| && IsResult(p[i], id) }

  /** The calls of other intents have been taken out, and all that carries their identities. */
  ghost predicate IntentOnly(p: seq<Item>, retainedCallIDs: seq<string>, ids: set<string>, filtered: seq<Item>) {
    filtered == Without(p, ids) && forall id :: id in ids <==> MakesCall(p, id) && !Kept(retainedCallIDs, id)
  }

  /** The calls that have a result have been taken out, and all that carries their identities. */
  ghost predicate UnresolvedOnly(p: seq<Item>, ids: set<string>, filtered: seq<Item>) {
    filtered == Without(p, ids) && forall id :: id in ids <==> MakesCall(p, id) && HoldsResult(p, id)
  }

  /** Hides the computer actions of other intents, with their results. */
  method OnlyCurrentIntent(projected: seq<Item>, retainedCallIDs: seq<string>) returns (filtered: seq<Item>)
    ensures exists ids :: IntentOnly(projected, retainedCallIDs, ids, filtered)
    ensures forall x :: x in filtered && IsComputerCall(x) ==> Kept(retainedCallIDs, x.payload.call.id)
  {
    hide Computer, Filter, Text.TrimSpace;
    var retained: set<string> := {};
    for i := 0 to |retainedCallIDs|
      invariant forall id :: id in retained <==>
        id != "" && exists j :: 0 <= j < i && Text.TrimSpace(retainedCallIDs[j]) == id
    {
      var id := Text.TrimSpace(retainedCallIDs[i]);
      if id != "" { retained := retained + {id}; }
    }
    var foreign: set<string> := {};
    for i := 0 to |projected|
      invariant forall id :: id in foreign <==>
        id !in retained && exists j :: 0 <= j < i && IsComputerCall(projected[j]) && projected[j].payload.call.id == id
    {
      var item := projected[i];
      if IsComputerCall(item) && item.payload.call.id !in retained { foreign := foreign + {item.payload.call.id}; }
    }
    filtered := Without(projected, foreign);
    assert IntentOnly(projected, retainedCallIDs, foreign, filtered);
    forall x | x in filtered && IsComputerCall(x) ensures Kept(retainedCallIDs, x.payload.call.id) {
      assert x in projected;
      assert MakesCall(projected, x.payload.call.id);
    }
  }

  /** Hides computer actions that already have a result, with their results. */
  method WithoutResolvedCoordinates(projected: seq<Item>) returns (filtered: seq<Item>)
    ensures exists ids :: UnresolvedOnly(projected, ids, filtered)
  {
    hide Computer, Filter;
    var resolved: set<string> := {};
    for i := 0 to |projected|
      invariant forall id :: id in resolved <==> exists j :: 0 <= j < i && IsResult(projected[j], id)
    {
      var item := projected[i];
      if item.kind.ToolResult? && item.payload.Resulted? { resolved := resolved + {item.payload.result.callID}; }
    }
    var completed: set<string> := {};
    for i := 0 to |projected|
      invariant forall id :: id in completed <==>
        id in resolved && exists j :: 0 <= j < i && IsComputerCall(projected[j]) && projected[j].payload.call.id == id
    {
      var item := projected[i];
      if IsComputerCall(item) && item.payload.call.id in resolved { completed := completed + {item.payload.call.id}; }
    }
    filtered := Without(projected, completed);
    assert UnresolvedOnly(projected, completed, filtered);
  }

  predicate NotUser(x: Item) { !FromUser(x) }

  lemma {:induction false} NotUserHasNoOrphans(p: seq<Item>)
    requires NoOrphans(p)
    ensures NoOrphans(Filter(p, NotUser))
  {
    hide Filter;
    if p == [] {
      FilterNothing(NotUser);
    } else {
      var q, x := p[..|p| - 1], p[|p| - 1];
      OrphansPrefix(p);
      NotUserHasNoOrphans(q);
      FilterSnoc(q, x, NotUser);
      assert p == q + [x];
      if x.kind.ToolResult? && x.payload.Resulted? {
        var id := x.payload.result.callID;
        assert HasCall(p, |q|, id);
        var j :| 0 <= j < |q| && p[j].kind.ToolCall? && p[j].payload.Called? && p[j].payload.call.id == id;
        assert q[j] in q && NotUser(q[j]);
        assert q[j] in Filter(q, NotUser);
      }
      if NotUser(x) { OrphansSnoc(Filter(q, NotUser), x); } else { assert Filter(p, NotUser) == Filter(q, NotUser); }
    }
  }

  /** What a reflex projection is promised to be. */
  ghost predicate Presentable(canonical: seq<Item>, p: seq<Item>) {
    && Bare(p) && NoOrphans(p) && Calls(p) <= RETAINED && (UniqueIds(canonical) ==> Accepts(canonical, p))
  }

  lemma WithoutPresentable(canonical: seq<Item>, p: seq<Item>, ids: set<string>)
    requires Presentable(canonical, p)
    ensures Presentable(canonical, Without(p, ids))
  {
    hide Accepts, NoOrphans, Bare, Filter;
    WithoutHasNoOrphans(p, ids);
    FilterCalls(p, Clear(ids));
    FilterBare(p, Clear(ids));
    if UniqueIds(canonical) { FilterAccepted(canonical, p, Clear(ids)); }
  }

  lemma FilterBare(p: seq<Item>, keep: Item -> bool)
    requires Bare(p)
    ensures Bare(Filter(p, keep))
  {
    hide Filter;
  }

  predicate IsTool(x: Item) { x.kind.ToolCall? || x.kind.ToolResult? }

  /** The user's words go exactly when the reflex has its own task, tools only by a filter of tools, and
      nothing else goes or is added. */
  ghost predicate Thins(whole: seq<Item>, ownTask: bool, toolsToo: bool, part: seq<Item>) {
    && (forall x :: x in part ==> x in whole && (ownTask ==> !FromUser(x)))
    && (forall x :: x in whole && x !in part ==> (ownTask && FromUser(x)) || (toolsToo && IsTool(x)))
  }

  lemma WithoutThins(whole: seq<Item>, ownTask: bool, toolsToo: bool, part: seq<Item>, ids: set<string>)
    requires Thins(whole, ownTask, toolsToo, part)
    ensures Thins(whole, ownTask, true, Without(part, ids))
  {
    hide Filter;
  }

  /** The newest observation of every image source is kept, unless it is the user's own and the reflex has
      its own task; and so are the user's latest words, unless it has. */
  ghost predicate KeepsNewest(items: seq<Item>, ownTask: bool, part: seq<Item>) {
    && (forall k :: 0 <= k < |items| && Pictured(items, k) && !(ownTask && FromUser(items[k])) ==>
      Detach(items[k]) in part)
    && (forall k :: 0 <= k < |items| && LatestUser(items, |items|, k) && !ownTask ==> Detach(items[k]) in part)
  }

  lemma ThinsKeepsNewest(items: seq<Item>, ownTask: bool, toolsToo: bool, part: seq<Item>)
    requires Thins(Compacted(items), ownTask, toolsToo, part)
    ensures KeepsNewest(items, ownTask, part)
  {
    hide Compacted, MediaSource;
    forall k | 0 <= k < |items| && Pictured(items, k) && !(ownTask && FromUser(items[k]))
      ensures Detach(items[k]) in part
    {
      var source :| NewestPicture(items, |items|, source, k);
      CompactKeepsNewest(items, k, source);
    }
    forall k | 0 <= k < |items| && LatestUser(items, |items|, k) && !ownTask ensures Detach(items[k]) in part {
      CompactKeepsNewest(items, k, "");
    }
  }

  /** The computer calls of the projection that belong to other intents. */
  ghost function ForeignCalls(p: seq<Item>, retainedCallIDs: seq<string>): set<string> {
    set x | x in p && IsComputerCall(x) && !Kept(retainedCallIDs, x.payload.call.id) :: x.payload.call.id
  }

  /** The computer calls of the projection that have a result in it. */
  ghost function AnsweredCalls(p: seq<Item>): set<string> {
    set x | x in p && IsComputerCall(x) && HoldsResult(p, x.payload.call.id) :: x.payload.call.id
  }

  ghost function TaskView(p: seq<Item>, ownTask: bool): seq<Item> { if ownTask then Filter(p, NotUser) else p }

  ghost function IntentView(p: seq<Item>, intent: Option<seq<string>>): seq<Item> {
    if intent.Some? then Without(p, ForeignCalls(p, intent.value)) else p
  }

  ghost function OpenView(p: seq<Item>, completed: bool): seq<Item> {
    if completed then Without(p, AnsweredCalls(p)) else p
  }

  /** Exactly what a reflex is shown. */
  ghost function ReflexView(items: seq<Item>, ownTask: bool, intent: Option<seq<string>>, completed: bool): seq<Item> {
    OpenView(IntentView(TaskView(Compacted(items), ownTask), intent), completed)
  }

  lemma IntentIs(p: seq<Item>, retainedCallIDs: seq<string>, ids: set<string>, filtered: seq<Item>)
    requires IntentOnly(p, retainedCallIDs, ids, filtered)
    ensures filtered == Without(p, ForeignCalls(p, retainedCallIDs))
  {
    hide Without, Kept, Computer;
    forall id ensures id in ids <==> id in ForeignCalls(p, retainedCallIDs) {
      if MakesCall(p, id) {
        var i :| 0 <= i < |p| && IsComputerCall(p[i]) && p[i].payload.call.id == id;
        assert p[i] in p;
      }
    }
    assert ids == ForeignCalls(p, retainedCallIDs);
  }

  lemma UnresolvedIs(p: seq<Item>, ids: set<string>, filtered: seq<Item>)
    requires UnresolvedOnly(p, ids, filtered)
    ensures filtered == Without(p, AnsweredCalls(p))
  {
    hide Without, HoldsResult, Computer;
    forall id ensures id in ids <==> id in AnsweredCalls(p) {
      if MakesCall(p, id) {
        var i :| 0 <= i < |p| && IsComputerCall(p[i]) && p[i].payload.call.id == id;
        assert p[i] in p;
      }
    }
    assert ids == AnsweredCalls(p);
  }

  /** The projection of one reflex: the compact view, then any of the three filters. It is accepted for
      every log with unique identities, no result in it lacks its call, it shows at most eight actions,
      and the newest observation of each image source and the user's latest words stay in it. */
  method ReflexProjection(items: seq<Item>, ownTask: bool, intent: Option<seq<string>>, completed: bool)
    returns (projected: seq<Item>, accepted: bool)
    ensures Presentable(items, projected) && (UniqueIds(items) ==> accepted)
    ensures projected == ReflexView(items, ownTask, intent, completed)
    ensures Thins(Compacted(items), ownTask, intent.Some? || completed, projected)
    ensures KeepsNewest(items, ownTask, projected)
  {
    hide Presentable, Accepts, NoOrphans, Bare, Filter, Compacted, MakesCall, KeepsNewest, Without,
      ForeignCalls, AnsweredCalls;
    projected := CompactVisualProjection(items);
    CompactPresentable(items);
    if ownTask {
      NotUserPresentable(items, projected);
      projected := Filter(projected, NotUser);
    }
    assert Thins(Compacted(items), ownTask, false, projected);
    hide Thins;
    if intent.Some? {
      ghost var before := projected;
      projected := OnlyCurrentIntent(projected, intent.value);
      ghost var ids :| IntentOnly(before, intent.value, ids, projected);
      WithoutPresentable(items, before, ids);
      WithoutThins(Compacted(items), ownTask, false, before, ids);
      IntentIs(before, intent.value, ids, projected);
    }
    if completed {
      ghost var before := projected;
      projected := WithoutResolvedCoordinates(projected);
      ghost var ids :| UnresolvedOnly(before, ids, projected);
      WithoutPresentable(items, before, ids);
      WithoutThins(Compacted(items), ownTask, intent.Some?, before, ids);
      UnresolvedIs(before, ids, projected);
    }
    ThinsKeepsNewest(items, ownTask, intent.Some? || completed, projected);
    accepted := ValidateProjection(items, projected);
    PresentableIsValid(items, projected);
  }

  lemma CompactPresentable(items: seq<Item>)
    ensures Presentable(items, Compacted(items))
  {
    hide Accepts, NoOrphans, Bare, Compacted;
    CompactIsBare(items);
    CompactHasNoOrphans(items);
    CompactKeepsFewActions(items);
    if UniqueIds(items) { CompactAccepted(items); }
  }

  lemma NotUserPresentable(canonical: seq<Item>, p: seq<Item>)
    requires Presentable(canonical, p)
    ensures Presentable(canonical, Filter(p, NotUser))
  {
    hide Accepts, NoOrphans, Bare, Filter;
    NotUserHasNoOrphans(p);
    FilterCalls(p, NotUser);
    FilterBare(p, NotUser);
    if UniqueIds(canonical) { FilterAccepted(canonical, p, NotUser); }
  }

  lemma PresentableIsValid(canonical: seq<Item>, p: seq<Item>)
    requires Presentable(canonical, p)
    ensures UniqueIds(canonical) ==> Accepts(canonical, p)
  {
    hide Accepts, NoOrphans, Bare;
  }
}
