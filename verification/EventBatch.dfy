/** How the event loop turns arriving events into the causal log, and how committed groups rejoin. */
module EventBatch {
  import opened Prelude
  import opened Trajectory
  import Text = AnnotationFilter

  // ---- Rejoining committed groups ----------------------------------------------------------

  datatype Triage = QueueUp | CancelWork | Alongside

  datatype Batch<E> = Batch(events: seq<E>, items: seq<Item>, start: nat, end: nat, triage: Triage, deferred: bool)

  function EventsOf<E>(bs: seq<Batch<E>>): seq<E> { if bs == [] then [] else bs[0].events + EventsOf(bs[1..]) }

  function ItemsOf<E>(bs: seq<Batch<E>>): seq<Item> { if bs == [] then [] else bs[0].items + ItemsOf(bs[1..]) }

  ghost predicate Any<E>(bs: seq<Batch<E>>, t: Triage) { exists i :: 0 <= i < |bs| && bs[i].triage == t }

  ghost predicate AllAlongside<E>(bs: seq<Batch<E>>) { forall i :: 0 <= i < |bs| ==> bs[i].triage.Alongside? }

  /** Cancelling work dominates; running alongside it needs every group to agree. */
  ghost function Strongest<E>(bs: seq<Batch<E>>): Triage {
    if Any(bs, CancelWork) then CancelWork else if AllAlongside(bs) then Alongside else QueueUp
  }

  /** Some group waited: it was deferred already, or another was committed after it. */
  ghost predicate Waited<E>(bs: seq<Batch<E>>) {
    |bs| > 1 || exists i :: 0 <= i < |bs| && bs[i].deferred
  }

  ghost function Merged<E>(bs: seq<Batch<E>>): Batch<E> {
    if bs == [] then Batch([], [], 0, 0, QueueUp, false)
    else Batch(EventsOf(bs), ItemsOf(bs), bs[0].start, bs[|bs| - 1].end, Strongest(bs), Waited(bs))
  }

  lemma {:induction false} Joins<E>(xs: seq<Batch<E>>, ys: seq<Batch<E>>)
    ensures EventsOf(xs + ys) == EventsOf(xs) + EventsOf(ys) && ItemsOf(xs + ys) == ItemsOf(xs) + ItemsOf(ys)
  {
    if xs == [] {
      assert xs + ys == ys;
    } else {
      assert (xs + ys)[1..] == xs[1..] + ys;
      Joins(xs[1..], ys);
    }
  }

  lemma StrongestJoins<E>(xs: seq<Batch<E>>, ys: seq<Batch<E>>)
    requires xs != [] && ys != []
    ensures Strongest(xs + ys) == Strongest([Merged(xs), Merged(ys)])
  {
    var zs, two := xs + ys, [Merged(xs), Merged(ys)];
    if Any(xs, CancelWork) {
      var i :| 0 <= i < |xs| && xs[i].triage == CancelWork;
      assert zs[i].triage == CancelWork && two[0].triage == CancelWork;
    } else if Any(ys, CancelWork) {
      var i :| 0 <= i < |ys| && ys[i].triage == CancelWork;
      assert zs[|xs| + i].triage == CancelWork && two[1].triage == CancelWork;
    } else {
      assert !Any(zs, CancelWork) && !Any(two, CancelWork);
      if AllAlongside(xs) && AllAlongside(ys) {
        assert AllAlongside(zs) && AllAlongside(two);
      } else if !AllAlongside(xs) {
        var i :| 0 <= i < |xs| && !xs[i].triage.Alongside?;
        assert !zs[i].triage.Alongside? && !two[0].triage.Alongside?;
      } else {
        var i :| 0 <= i < |ys| && !ys[i].triage.Alongside?;
        assert !zs[|xs| + i].triage.Alongside? && !two[1].triage.Alongside?;
      }
    }
  }

  /** Groups may be rejoined in any grouping. */
  lemma MergeIsAssociative<E>(xs: seq<Batch<E>>, ys: seq<Batch<E>>)
    requires xs != [] && ys != []
    ensures Merged(xs + ys) == Merged([Merged(xs), Merged(ys)])
  {
    hide Strongest;
    var two := [Merged(xs), Merged(ys)];
    Joins(xs, ys);
    StrongestJoins(xs, ys);
    TwoJoin(Merged(xs), Merged(ys));
    assert (xs + ys)[|xs + ys| - 1] == ys[|ys| - 1];
  }

  lemma TwoJoin<E>(x: Batch<E>, y: Batch<E>)
    ensures EventsOf([x, y]) == x.events + y.events && ItemsOf([x, y]) == x.items + y.items
  {
    assert [x, y] == [x] + [y];
    Joins([x], [y]);
    One(x);
    One(y);
  }

  method Merge<E>(batches: seq<Batch<E>>) returns (merged: Batch<E>)
    ensures merged == Merged(batches)
  {
    if batches == [] { return Batch([], [], 0, 0, QueueUp, false); }
    merged := Batch([], [], batches[0].start, batches[|batches| - 1].end, QueueUp, false);
    var parallel := true;
    for i := 0 to |batches|
      invariant merged.events == EventsOf(batches[..i]) && merged.items == ItemsOf(batches[..i])
      invariant merged.start == batches[0].start && merged.end == batches[|batches| - 1].end
      invariant merged.deferred <==> (i > 0 && |batches| > 1) || exists k :: 0 <= k < i && batches[k].deferred
      invariant merged.triage == if Any(batches[..i], CancelWork) then CancelWork else QueueUp
      invariant parallel == AllAlongside(batches[..i])
    {
      var b := batches[i];
      assert batches[..i + 1] == batches[..i] + [b];
      Joins(batches[..i], [b]);
      One(b);
      AnyStep(batches, i, CancelWork);
      merged := merged.(events := merged.events + b.events, items := merged.items + b.items,
                        deferred := merged.deferred || b.deferred || i < |batches| - 1);
      if b.triage.CancelWork? { merged := merged.(triage := CancelWork); }
      parallel := parallel && b.triage.Alongside?;
    }
    assert batches[..|batches|] == batches;
    if parallel && !merged.triage.CancelWork? { merged := merged.(triage := Alongside); }
  }

  lemma One<E>(b: Batch<E>)
    ensures EventsOf([b]) == b.events && ItemsOf([b]) == b.items
  {
    assert [b][1..] == [];
  }

  lemma AnyStep<E>(bs: seq<Batch<E>>, i: nat, t: Triage)
    requires i < |bs|
    ensures Any(bs[..i + 1], t) <==> Any(bs[..i], t) || bs[i].triage == t
    ensures AllAlongside(bs[..i + 1]) <==> AllAlongside(bs[..i]) && bs[i].triage.Alongside?
  {
    var a, b := bs[..i], bs[..i + 1];
    if Any(a, t) {
      var k :| 0 <= k < |a| && a[k].triage == t;
      assert b[k].triage == t;
    }
    if bs[i].triage == t { assert b[i].triage == t; }
    if AllAlongside(b) {
      assert b[i].triage.Alongside?;
      assert forall k :: 0 <= k < |a| ==> a[k] == b[k];
    }
  }

  // ---- Matching tool results to the calls they answer --------------------------------------

  predicate IsCall(x: Item) { x.kind.ToolCall? && x.payload.Called? }

  predicate IsResult(x: Item) { x.kind.ToolResult? && x.payload.Resulted? }

  predicate CallIs(x: Item, invocation: string, callID: string) {
    IsCall(x) && x.invocation == invocation && x.payload.call.id == callID
  }

  /** How many call items of the first n have this call identity, in whatever invocation. */
  function Mentions(all: seq<Item>, n: nat, callID: string): nat
    requires n <= |all|
  {
    if n == 0 then 0
    else Mentions(all, n - 1, callID) + if IsCall(all[n - 1]) && all[n - 1].payload.call.id == callID then 1 else 0
  }

  /** A result answers a call of its own invocation; one that names no invocation answers the only call
      of that identity there is. */
  predicate Answers(all: seq<Item>, r: Item, invocation: string, callID: string) {
    && IsResult(r) && r.payload.result.callID == callID
    && (exists k :: 0 <= k < |all| && CallIs(all[k], invocation, callID))
    && (if r.invocation != "" then r.invocation == invocation else Mentions(all, |all|, callID) == 1)
  }

  predicate Answered(all: seq<Item>, invocation: string, callID: string) {
    exists j :: 0 <= j < |all| && Answers(all, all[j], invocation, callID)
  }

  predicate Outstanding(all: seq<Item>, k: int, invocation: string) {
    && 0 <= k < |all| && IsCall(all[k]) && all[k].invocation == invocation
    && !Answered(all, invocation, all[k].payload.call.id)
  }

  /** The invocation's unanswered calls, in the log's order. */
  function Pending(all: seq<Item>, n: nat, invocation: string): (s: seq<nat>)
    requires n <= |all|
    ensures forall i :: 0 <= i < |s| ==> s[i] < n && Outstanding(all, s[i], invocation)
    ensures forall i, j :: 0 <= i < j < |s| ==> s[i] < s[j]
    ensures forall k :: 0 <= k < n && Outstanding(all, k, invocation) ==> k in s
  {
    if n == 0 then []
    else
      var rest := Pending(all, n - 1, invocation);
      if Outstanding(all, n - 1, invocation) then rest + [n - 1] else rest
  }

  function Find(results: seq<Result>, callID: string): (k: int)
    ensures -1 <= k < |results|
    ensures k >= 0 ==> results[k].callID == callID
    ensures k < 0 ==> forall i :: 0 <= i < |results| ==> results[i].callID != callID
  {
    if results == [] then -1
    else if results[|results| - 1].callID == callID then |results| - 1
    else Find(results[..|results| - 1], callID)
  }

  datatype Pair = Pair(place: nat, result: Result)

  predicate Fits(all: seq<Item>, k: nat, results: seq<Result>) {
    && k < |all| && IsCall(all[k]) && Find(results, all[k].payload.call.id) >= 0
    && results[Find(results, all[k].payload.call.id)].name == all[k].payload.call.name
  }

  /** One result for every unanswered call of the invocation, and no others. */
  predicate Complete(all: seq<Item>, invocation: string, results: seq<Result>) {
    var pending := Pending(all, |all|, invocation);
    && Text.TrimSpace(invocation) != "" && results != [] && pending != [] && |results| == |pending|
    && (forall i, j :: 0 <= i < j < |results| ==> results[i].callID != results[j].callID)
    && (forall i :: 0 <= i < |pending| ==> Fits(all, pending[i], results))
  }

  function Match(all: seq<Item>, invocation: string, results: seq<Result>): (r: Option<seq<Pair>>)
    ensures r.Some? <==> Complete(all, invocation, results)
    ensures r.Some? ==> r.value != [] && |r.value| == |results|
    ensures r.Some? ==> forall i :: 0 <= i < |r.value| ==>
      && r.value[i].place < |all| && IsCall(all[r.value[i].place]) && r.value[i].result in results
      && r.value[i].result.callID == all[r.value[i].place].payload.call.id
      && r.value[i].result.name == all[r.value[i].place].payload.call.name
      && r.value[i].place == Pending(all, |all|, invocation)[i]
  {
    if !Complete(all, invocation, results) then None
    else
      var pending := Pending(all, |all|, invocation);
      Some(seq(|pending|, i requires 0 <= i < |pending| =>
        assert Fits(all, pending[i], results);
        Pair(pending[i], results[Find(results, all[pending[i]].payload.call.id)])))
  }

  ghost function Elements(ids: seq<string>): set<string> { set id | id in ids }

  lemma ElementsSnoc(ids: seq<string>, id: string)
    ensures Elements(ids + [id]) == Elements(ids) + {id}
  {
  }

  lemma {:induction false} ElementsSize(ids: seq<string>)
    ensures |Elements(ids)| <= |ids|
    ensures (forall i, j :: 0 <= i < j < |ids| ==> ids[i] != ids[j]) ==> |Elements(ids)| == |ids|
  {
    if ids != [] {
      var front, last := ids[..|ids| - 1], ids[|ids| - 1];
      ElementsSize(front);
      ElementsSnoc(front, last);
      assert ids == front + [last];
    }
  }

  lemma {:induction false} SameWhenAsMany(a: set<string>, b: set<string>)
    requires a <= b && |a| >= |b|
    ensures a == b
  {
    if a != {} {
      var x :| x in a;
      SameWhenAsMany(a - {x}, b - {x});
      assert a == (a - {x}) + {x} && b == (b - {x}) + {x};
    }
  }

  /** A matched event leaves nothing over: every unanswered call of the invocation gets its result, in
      the log's order, and, call identities being distinct within an invocation, every result is used. */
  lemma MatchUsesEveryResult(all: seq<Item>, invocation: string, results: seq<Result>, r: nat)
    requires Complete(all, invocation, results) && r < |results|
    requires forall j, k :: (&& 0 <= j < k < |all| && IsCall(all[j]) && IsCall(all[k])
                             && all[j].invocation == all[k].invocation) ==>
      all[j].payload.call.id != all[k].payload.call.id
    ensures exists i :: 0 <= i < |results| && Match(all, invocation, results).value[i].result == results[r]
  {
    hide Complete, Answered;
    var pairs := Match(all, invocation, results).value;
    var pending := Pending(all, |all|, invocation);
    forall i, j | 0 <= i < j < |pairs| ensures pairs[i].result.callID != pairs[j].result.callID {
      assert pending[i] < pending[j];
      assert Outstanding(all, pending[i], invocation) && Outstanding(all, pending[j], invocation);
    }
    var used := seq(|pairs|, i requires 0 <= i < |pairs| => pairs[i].result.callID);
    var given := seq(|results|, i requires 0 <= i < |results| => results[i].callID);
    ElementsSize(used);
    ElementsSize(given);
    forall id | id in Elements(used) ensures id in Elements(given) {
      var i :| 0 <= i < |used| && used[i] == id;
      var k :| 0 <= k < |results| && results[k] == pairs[i].result;
      assert given[k] == id;
    }
    SameWhenAsMany(Elements(used), Elements(given));
    assert given[r] in Elements(used);
    var i :| 0 <= i < |used| && used[i] == given[r];
    OneResultEach(all, invocation, results, pairs[i].result, r);
  }

  lemma OneResultEach(all: seq<Item>, invocation: string, results: seq<Result>, x: Result, r: nat)
    requires Complete(all, invocation, results) && x in results && r < |results| && x.callID == results[r].callID
    ensures x == results[r]
  {
    var k :| 0 <= k < |results| && results[k] == x;
  }

  // ---- From events to items ----------------------------------------------------------------

  datatype Event =
    | Signal(name: string)
    | Observed(mark: EventMark, revision: nat, phase: string, content: string, provenance: Option<Provenance>)
    | Stating(mark: EventMark, revision: nat, assistantID: string, detail: string)
    | Repairing(mark: EventMark, revision: nat, targetID: string, repairID: string)
    | Holding(mark: EventMark, revision: nat, invocation: string, callID: string, detail: string)
    | Resulting(mark: EventMark, invocation: string, results: seq<Result>)

  /** The causes named, without blanks and without repetition, in order. */
  function DirectParents(ids: seq<string>): (r: seq<string>)
    ensures forall i, j :: 0 <= i < j < |r| ==> r[i] != r[j]
    ensures forall id :: id in r <==> id in ids && id != ""
    ensures ids != [] && ids[0] != "" ==> r != [] && r[0] == ids[0]
  {
    if ids == [] then []
    else
      var rest := DirectParents(ids[..|ids| - 1]);
      var id := ids[|ids| - 1];
      assert ids == ids[..|ids| - 1] + [id];
      if id == "" || id in rest then rest else rest + [id]
  }

  method CollectParents(ids: seq<string>) returns (result: seq<string>)
    ensures result == DirectParents(ids)
  {
    result := [];
    var seen: set<string> := {};
    for i := 0 to |ids|
      invariant result == DirectParents(ids[..i]) && forall id :: id in seen <==> id in result
    {
      assert ids[..i + 1][..i] == ids[..i];
      if ids[i] != "" && ids[i] !in seen {
        seen := seen + {ids[i]};
        result := result + [ids[i]];
      }
    }
    assert ids[..|ids|] == ids;
  }

  /** The last place below n holding that revision of an observation, or -1. */
  function LatestRevision(all: seq<Item>, n: nat, revision: nat): (k: int)
    requires n <= |all|
    ensures -1 <= k < n && (k >= 0 ==> HasRevision(all[k], revision))
    ensures forall i :: k < i < n ==> !HasRevision(all[i], revision)
  {
    if n == 0 then -1 else if HasRevision(all[n - 1], revision) then n - 1 else LatestRevision(all, n - 1, revision)
  }

  predicate IsCallOf(x: Item, callID: string) { IsCall(x) && x.payload.call.id == callID }

  function LatestCall(all: seq<Item>, n: nat, callID: string): (k: int)
    requires n <= |all|
    ensures -1 <= k < n && (k >= 0 ==> IsCallOf(all[k], callID))
    ensures forall i :: k < i < n ==> !IsCallOf(all[i], callID)
  {
    if n == 0 then -1 else if IsCallOf(all[n - 1], callID) then n - 1 else LatestCall(all, n - 1, callID)
  }

  function IdAt(all: seq<Item>, k: int): string { if 0 <= k < |all| then all[k].id else "" }

  /** Compilation in progress: the log so far, the last time used, the last item's identity, and how many
      identities have been drawn. */
  datatype Draft = Draft(all: seq<Item>, last: nat, parent: string, issued: nat)

  /** The outside world: the n-th identity, and what the clock says when it is drawn. */
  datatype World = World(name: nat -> string, clock: nat -> nat)

  /** Enters one item: its identity and time are new, its first cause is the item before it. */
  function Enter(d: Draft, w: World, x: Item, causes: seq<string>): Draft {
    var item := x.(id := w.name(d.issued), time := Max(w.clock(d.issued), d.last),
      parents := DirectParents([d.parent] + causes));
    Draft(d.all + [item], item.time, item.id, d.issued + 1)
  }

  function Shape(kind: Kind, revision: nat, invocation: string, phase: string, content: string, payload: Payload,
                 provenance: Option<Provenance>, mark: EventMark): Item {
    Item("", kind, 0, [], revision, invocation, phase, content, false, payload, provenance, Some(mark), NO_STATE, true)
  }

  function Superseded(d: Draft, mark: EventMark): string {
    if mark.supersedes == 0 then "" else IdAt(d.all, LatestRevision(d.all, |d.all|, mark.supersedes))
  }

  function Reply(e: Event, all: seq<Item>, p: Pair): Item
    requires e.Resulting? && p.place < |all|
  {
    Shape(ToolResult, all[p.place].revision, e.invocation, "tool", "", Resulted(p.result), None, e.mark)
  }

  /** Enters the first n matched results in order; the calls are those of the log the event met. */
  function Replies(d: Draft, w: World, e: Event, pairs: seq<Pair>, n: nat): Draft
    requires e.Resulting? && n <= |pairs| && forall i :: 0 <= i < |pairs| ==> pairs[i].place < |d.all|
  {
    if n == 0 then d
    else Enter(Replies(d, w, e, pairs, n - 1), w, Reply(e, d.all, pairs[n - 1]), [d.all[pairs[n - 1].place].id])
  }

  function Step(d: Draft, w: World, e: Event): Option<Draft> {
    match e
    case Signal(_) => Some(d)
    case Observed(mark, revision, phase, content, provenance) =>
      if mark.supersedes != 0 && Superseded(d, mark) == "" then None
      else Some(Enter(d, w, Shape(Observation, revision, "", phase, content, Nothing, provenance, mark),
        [Superseded(d, mark)]))
    case Stating(mark, revision, id, detail) =>
      Some(Enter(d, w, Shape(AssistantState, revision, "", "runtime", "", Stated(id, detail), None, mark), [id]))
    case Repairing(mark, revision, target, repair) =>
      Some(Enter(d, w, Shape(Repair, revision, "", "runtime", "", Repaired(target, repair), None, mark),
        [target, repair]))
    case Holding(mark, revision, invocation, callID, detail) =>
      var call := IdAt(d.all, LatestCall(d.all, |d.all|, callID));
      if call == "" then None
      else Some(Enter(d, w,
        Shape(ToolPlaceholder, revision, invocation, "runtime", "", Held(callID, detail), None, mark), [call]))
    case Resulting(mark, invocation, results) =>
      var pairs := Match(d.all, invocation, results);
      if pairs.None? then None else Some(Replies(d, w, e, pairs.value, |pairs.value|))
  }

  /** The events compiled one after the other, or None at the first that cannot be. */
  function Compiled(d: Draft, w: World, events: seq<Event>, n: nat): Option<Draft>
    requires n <= |events|
  {
    if n == 0 then Some(d)
    else
      var before := Compiled(d, w, events, n - 1);
      if before.None? then None else Step(before.value, w, events[n - 1])
  }

  function Opening(log: seq<Item>): Draft {
    if log == [] then Draft([], 0, "", 0) else Draft(log, log[|log| - 1].time, log[|log| - 1].id, 0)
  }

  // ---- What compilation promises -----------------------------------------------------------

  /** The item before is the first cause, causes are distinct, and time has not gone back. */
  ghost predicate Follows(prefix: seq<Item>, x: Item) {
    && (forall i, j :: 0 <= i < j < |x.parents| ==> x.parents[i] != x.parents[j]) && "" !in x.parents
    && (prefix != [] ==> prefix[|prefix| - 1].time <= x.time)
    && (prefix != [] && prefix[|prefix| - 1].id != "" ==> x.parents != [] && x.parents[0] == prefix[|prefix| - 1].id)
  }

  /** Everything the item refers to is among its causes; the observation it supersedes, and the call it
      holds or answers, is in the log before it. */
  ghost predicate Refers(prefix: seq<Item>, x: Item) {
    && (x.kind.Observation? && Supersedes(x) != 0 ==>
          var k := LatestRevision(prefix, |prefix|, Supersedes(x));
          k >= 0 && prefix[k].id in x.parents)
    && (x.payload.Held? ==>
          var k := LatestCall(prefix, |prefix|, x.payload.callID);
          k >= 0 && prefix[k].id in x.parents)
    && (x.payload.Resulted? ==> AnswersEarlier(prefix, x))
    && (x.payload.Stated? && x.payload.assistantID != "" ==> x.payload.assistantID in x.parents)
    && (x.payload.Repaired? ==>
          && (x.payload.targetID != "" ==> x.payload.targetID in x.parents)
          && (x.payload.repairID != "" ==> x.payload.repairID in x.parents))
  }

  ghost predicate AnswersEarlier(prefix: seq<Item>, x: Item)
    requires x.payload.Resulted?
  {
    exists k :: 0 <= k < |prefix| && CallIs(prefix[k], x.invocation, x.payload.result.callID)
      && prefix[k].payload.call.name == x.payload.result.name && (prefix[k].id == "" || prefix[k].id in x.parents)
  }

  ghost predicate Sits(all: seq<Item>, i: int) {
    0 <= i < |all| ==> Follows(all[..i], all[i]) && Refers(all[..i], all[i])
  }

  /** A draft carries the log it started from, and everything entered since sits properly. */
  ghost predicate Sound(log: seq<Item>, d: Draft) {
    && log <= d.all
    && (if d.all == [] then d.last == 0 && d.parent == ""
        else d.last == d.all[|d.all| - 1].time && d.parent == d.all[|d.all| - 1].id)
    && (forall i :: |log| <= i < |d.all| ==> Sits(d.all, i))
  }

  lemma EnterFollows(d: Draft, w: World, x: Item, causes: seq<string>)
    requires if d.all == [] then d.last == 0 && d.parent == ""
             else d.last == d.all[|d.all| - 1].time && d.parent == d.all[|d.all| - 1].id
    ensures var next := Enter(d, w, x, causes);
      && Follows(d.all, next.all[|d.all|])
      && forall id :: id in causes && id != "" ==> id in next.all[|d.all|].parents
  {
    hide DirectParents;
    var ids := [d.parent] + causes;
    assert ids[0] == d.parent;
    forall id | id in causes && id != "" ensures id in DirectParents(ids) {
      assert id in ids;
    }
  }

  lemma EnterSound(log: seq<Item>, d: Draft, w: World, x: Item, causes: seq<string>)
    requires Sound(log, d) && |Enter(d, w, x, causes).all| == |d.all| + 1
    requires Refers(d.all, Enter(d, w, x, causes).all[|d.all|])
    ensures Sound(log, Enter(d, w, x, causes)) && d.all <= Enter(d, w, x, causes).all
    ensures |Enter(d, w, x, causes).all| == |d.all| + 1
  {
    hide Follows, Refers, DirectParents;
    var next := Enter(d, w, x, causes);
    EnterFollows(d, w, x, causes);
    forall i | |log| <= i < |next.all| ensures Sits(next.all, i) {
      if i < |d.all| {
        assert next.all[..i] == d.all[..i] && next.all[i] == d.all[i];
        assert Sits(d.all, i);
      } else {
        assert next.all[..i] == d.all;
      }
    }
  }

  /** The pair answers a call of the event's invocation. */
  predicate PairFits(all: seq<Item>, e: Event, p: Pair)
    requires e.Resulting?
  {
    && p.place < |all| && IsCall(all[p.place]) && all[p.place].invocation == e.invocation
    && p.result.callID == all[p.place].payload.call.id && p.result.name == all[p.place].payload.call.name
  }

  lemma PairsFit(all: seq<Item>, e: Event, pairs: seq<Pair>)
    requires e.Resulting? && Match(all, e.invocation, e.results) == Some(pairs)
    ensures forall i :: 0 <= i < |pairs| ==> PairFits(all, e, pairs[i])
    ensures forall i :: 0 <= i < |pairs| ==> pairs[i].place < |all|
  {
    hide Match, Answered;
    var pending := Pending(all, |all|, e.invocation);
    forall i | 0 <= i < |pairs| ensures PairFits(all, e, pairs[i]) {
      assert Outstanding(all, pending[i], e.invocation);
    }
  }

  lemma {:induction false} RepliesSound(log: seq<Item>, d: Draft, w: World, e: Event, pairs: seq<Pair>, n: nat)
    requires Sound(log, d) && e.Resulting? && n <= |pairs| && forall i :: 0 <= i < |pairs| ==> pairs[i].place < |d.all|
    requires forall i :: 0 <= i < |pairs| ==> PairFits(d.all, e, pairs[i])
    ensures Sound(log, Replies(d, w, e, pairs, n)) && d.all <= Replies(d, w, e, pairs, n).all
  {
    hide Follows, DirectParents, Sound, Sits, AnswersEarlier, Enter, Refers, Reply, PairFits;
    if n > 0 {
      RepliesSound(log, d, w, e, pairs, n - 1);
      var before := Replies(d, w, e, pairs, n - 1);
      var p := pairs[n - 1];
      ReplyRefers(log, d, before, w, e, p);
      EnterSound(log, before, w, Reply(e, d.all, p), [d.all[p.place].id]);
    }
  }

  lemma ReplyRefers(log: seq<Item>, d: Draft, before: Draft, w: World, e: Event, p: Pair)
    requires e.Resulting? && d.all <= before.all && PairFits(d.all, e, p) && Sound(log, before)
    ensures var next := Enter(before, w, Reply(e, d.all, p), [d.all[p.place].id]);
      |next.all| == |before.all| + 1 && Refers(before.all, next.all[|before.all|])
  {
    hide Follows, DirectParents, Sits;
    var causes := [d.all[p.place].id];
    EnterFollows(before, w, Reply(e, d.all, p), causes);
    assert causes[0] in causes;
    var x := Enter(before, w, Reply(e, d.all, p), causes).all[|before.all|];
    assert before.all[p.place] == d.all[p.place];
    assert AnswersEarlier(before.all, x);
  }

  lemma ReferredIn(d: Draft, w: World, x: Item, causes: seq<string>, id: string)
    requires if d.all == [] then d.last == 0 && d.parent == ""
             else d.last == d.all[|d.all| - 1].time && d.parent == d.all[|d.all| - 1].id
    requires id in causes && id != ""
    ensures id in Enter(d, w, x, causes).all[|d.all|].parents
  {
    hide DirectParents, Follows;
    EnterFollows(d, w, x, causes);
  }

  lemma ObservedSound(log: seq<Item>, d: Draft, w: World, x: Item, mark: EventMark)
    requires Sound(log, d) && x.kind.Observation? && x.payload.Nothing? && x.event == Some(mark)
    requires mark.supersedes != 0 ==> Superseded(d, mark) != ""
    ensures Sound(log, Enter(d, w, x, [Superseded(d, mark)])) && d.all <= Enter(d, w, x, [Superseded(d, mark)]).all
  {
    hide DirectParents, Follows, Sits;
    var causes := [Superseded(d, mark)];
    if mark.supersedes != 0 { ReferredIn(d, w, x, causes, Superseded(d, mark)); }
    assert Refers(d.all, Enter(d, w, x, causes).all[|d.all|]);
    EnterSound(log, d, w, x, causes);
  }

  lemma HeldSound(log: seq<Item>, d: Draft, w: World, x: Item, callID: string)
    requires Sound(log, d) && x.kind.ToolPlaceholder? && x.payload.Held? && x.payload.callID == callID
    requires IdAt(d.all, LatestCall(d.all, |d.all|, callID)) != ""
    ensures var next := Enter(d, w, x, [IdAt(d.all, LatestCall(d.all, |d.all|, callID))]);
      Sound(log, next) && d.all <= next.all
  {
    hide DirectParents, Follows, Sits;
    var causes := [IdAt(d.all, LatestCall(d.all, |d.all|, callID))];
    ReferredIn(d, w, x, causes, causes[0]);
    EnterSound(log, d, w, x, causes);
  }

  lemma StatedSound(log: seq<Item>, d: Draft, w: World, x: Item, causes: seq<string>)
    requires Sound(log, d) && !x.kind.Observation? && (x.payload.Stated? || x.payload.Repaired?)
    requires x.payload.Stated? ==> causes == [x.payload.assistantID]
    requires x.payload.Repaired? ==> causes == [x.payload.targetID, x.payload.repairID]
    ensures Sound(log, Enter(d, w, x, causes)) && d.all <= Enter(d, w, x, causes).all
  {
    hide DirectParents, Follows, Sits;
    if x.payload.Stated? && x.payload.assistantID != "" { ReferredIn(d, w, x, causes, causes[0]); }
    if x.payload.Repaired? && x.payload.targetID != "" { ReferredIn(d, w, x, causes, causes[0]); }
    if x.payload.Repaired? && x.payload.repairID != "" { ReferredIn(d, w, x, causes, causes[1]); }
    EnterSound(log, d, w, x, causes);
  }

  lemma StepSound(log: seq<Item>, d: Draft, w: World, e: Event)
    requires Sound(log, d)
    ensures var r := Step(d, w, e); r.Some? ==> Sound(log, r.value) && d.all <= r.value.all
  {
    hide DirectParents, Sound, Match, LatestRevision, LatestCall, Enter, Superseded, IdAt, Replies;
    match e
    case Signal(_) =>
    case Observed(mark, revision, phase, content, provenance) =>
      if mark.supersedes == 0 || Superseded(d, mark) != "" {
        ObservedSound(log, d, w, Shape(Observation, revision, "", phase, content, Nothing, provenance, mark), mark);
      }
    case Stating(mark, revision, id, detail) =>
      StatedSound(log, d, w, Shape(AssistantState, revision, "", "runtime", "", Stated(id, detail), None, mark), [id]);
    case Repairing(mark, revision, target, repair) =>
      StatedSound(log, d, w, Shape(Repair, revision, "", "runtime", "", Repaired(target, repair), None, mark),
        [target, repair]);
    case Holding(mark, revision, invocation, callID, detail) =>
      if IdAt(d.all, LatestCall(d.all, |d.all|, callID)) != "" {
        HeldSound(log, d, w, Shape(ToolPlaceholder, revision, invocation, "runtime", "", Held(callID, detail), None,
          mark), callID);
      }
    case Resulting(mark, invocation, results) =>
      var pairs := Match(d.all, invocation, results);
      if pairs.Some? {
        PairsFit(d.all, e, pairs.value);
        RepliesSound(log, d, w, e, pairs.value, |pairs.value|);
      }
  }

  lemma {:induction false} CompiledSound(log: seq<Item>, w: World, events: seq<Event>, n: nat)
    requires n <= |events|
    ensures var r := Compiled(Opening(log), w, events, n); r.Some? ==> Sound(log, r.value)
  {
    hide Sound, Step;
    if n == 0 {
      OpeningSound(log);
    } else {
      CompiledSound(log, w, events, n - 1);
      var before := Compiled(Opening(log), w, events, n - 1);
      if before.Some? { StepSound(log, before.value, w, events[n - 1]); }
    }
  }

  lemma OpeningSound(log: seq<Item>)
    ensures Sound(log, Opening(log))
  {
  }

  /** How many items an event becomes, and which event each item came from. */
  function Yield(e: Event): nat { if e.Signal? then 0 else if e.Resulting? then |e.results| else 1 }

  function Repeat(id: string, n: nat): seq<string> { if n == 0 then [] else Repeat(id, n - 1) + [id] }

  function Sources(events: seq<Event>, n: nat): seq<string>
    requires n <= |events|
  {
    if n == 0 then []
    else
      var e := events[n - 1];
      Sources(events, n - 1) + if e.Signal? then [] else Repeat(e.mark.eventID, Yield(e))
  }

  function SourcesIn(items: seq<Item>): seq<string> {
    if items == [] then []
    else
      var last := items[|items| - 1];
      SourcesIn(items[..|items| - 1]) + [if last.event.Some? then last.event.value.eventID else ""]
  }

  lemma SourcesSnoc(items: seq<Item>, x: Item)
    ensures SourcesIn(items + [x]) == SourcesIn(items) + [if x.event.Some? then x.event.value.eventID else ""]
  {
    assert (items + [x])[..|items|] == items;
  }

  lemma EnterSource(log: seq<Item>, d: Draft, w: World, x: Item, causes: seq<string>)
    requires log <= d.all && x.event.Some?
    ensures var next := Enter(d, w, x, causes);
      log <= next.all && SourcesIn(next.all[|log|..]) == SourcesIn(d.all[|log|..]) + [x.event.value.eventID]
  {
    hide DirectParents;
    var next := Enter(d, w, x, causes);
    SourcesSnoc(d.all[|log|..], next.all[|d.all|]);
    assert next.all[|log|..] == d.all[|log|..] + [next.all[|d.all|]];
  }

  lemma {:induction false} RepliesSource(log: seq<Item>, d: Draft, w: World, e: Event, pairs: seq<Pair>, n: nat)
    requires log <= d.all && e.Resulting? && n <= |pairs| && forall i :: 0 <= i < |pairs| ==> pairs[i].place < |d.all|
    ensures var next := Replies(d, w, e, pairs, n);
      log <= next.all && SourcesIn(next.all[|log|..]) == SourcesIn(d.all[|log|..]) + Repeat(e.mark.eventID, n)
  {
    hide DirectParents, Enter, SourcesIn;
    if n > 0 {
      RepliesSource(log, d, w, e, pairs, n - 1);
      var before := Replies(d, w, e, pairs, n - 1);
      EnterSource(log, before, w, Reply(e, d.all, pairs[n - 1]), [d.all[pairs[n - 1].place].id]);
    }
  }

  lemma StepSource(log: seq<Item>, d: Draft, w: World, e: Event)
    requires log <= d.all
    ensures var r := Step(d, w, e);
      r.Some? ==>
        && log <= r.value.all
        && SourcesIn(r.value.all[|log|..])
           == SourcesIn(d.all[|log|..]) + if e.Signal? then [] else Repeat(e.mark.eventID, Yield(e))
  {
    hide DirectParents, Enter, SourcesIn, Match, LatestRevision, LatestCall, Superseded;
    var r := Step(d, w, e);
    if e.Resulting? {
      var pairs := Match(d.all, e.invocation, e.results);
      if pairs.Some? { RepliesSource(log, d, w, e, pairs.value, |pairs.value|); }
    } else if e.Signal? {
      assert SourcesIn(d.all[|log|..]) + [] == SourcesIn(d.all[|log|..]);
    } else {
      assert Repeat(e.mark.eventID, 1) == [e.mark.eventID];
      match e
      case Observed(mark, revision, phase, content, provenance) =>
        EnterSource(log, d, w, Shape(Observation, revision, "", phase, content, Nothing, provenance, mark),
          [Superseded(d, mark)]);
      case Stating(mark, revision, id, detail) =>
        EnterSource(log, d, w, Shape(AssistantState, revision, "", "runtime", "", Stated(id, detail), None, mark),
          [id]);
      case Repairing(mark, revision, target, repair) =>
        EnterSource(log, d, w, Shape(Repair, revision, "", "runtime", "", Repaired(target, repair), None, mark),
          [target, repair]);
      case Holding(mark, revision, invocation, callID, detail) =>
        EnterSource(log, d, w,
          Shape(ToolPlaceholder, revision, invocation, "runtime", "", Held(callID, detail), None, mark),
                    [IdAt(d.all, LatestCall(d.all, |d.all|, callID))]);
    }
  }

  /** Every event but a signal is represented, in arrival order, by exactly the items it stands for. */
  lemma {:induction false} CompiledSources(log: seq<Item>, w: World, events: seq<Event>, n: nat)
    requires n <= |events|
    ensures var r := Compiled(Opening(log), w, events, n);
      r.Some? ==> log <= r.value.all && SourcesIn(r.value.all[|log|..]) == Sources(events, n)
  {
    hide Step, SourcesIn;
    if n == 0 {
      assert Opening(log).all[|log|..] == [];
      NoSources();
    } else {
      CompiledSources(log, w, events, n - 1);
      var before := Compiled(Opening(log), w, events, n - 1);
      if before.Some? { StepSource(log, before.value, w, events[n - 1]); }
    }
  }

  lemma NoSources()
    ensures SourcesIn([]) == []
  {
  }

  // ---- What becomes of each event ----------------------------------------------------------

  /** How many items the first n events become. */
  function Count(events: seq<Event>, n: nat): nat
    requires n <= |events|
  {
    if n == 0 then 0 else Count(events, n - 1) + Yield(events[n - 1])
  }

  /** Result item x answers the call at place k of the log its event met. */
  ghost predicate AnswersCall(met: seq<Item>, k: nat, e: Event, x: Item)
    requires e.Resulting?
  {
    && k < |met| && IsCall(met[k]) && x.kind.ToolResult? && x.payload.Resulted? && x.payload.result in e.results
    && x.payload.result.callID == met[k].payload.call.id && x.payload.result.name == met[k].payload.call.name
    && x.revision == met[k].revision && x.invocation == e.invocation && x.event == Some(e.mark)
    && (met[k].id != "" ==> met[k].id in x.parents)
  }

  /** What the event must have become, in a log that had met[..] when the event was reached: an item that
      carries all that the event carried, and whose causes include what the event refers to. */
  ghost predicate Represents(met: seq<Item>, all: seq<Item>, e: Event) {
    && |met| + Yield(e) <= |all|
    && match e
       case Signal(_) => true
       case Observed(mark, revision, phase, content, provenance) =>
         var x := all[|met|];
         && x.kind.Observation? && x.revision == revision && x.phase == phase && x.content == content
         && x.provenance == provenance && x.event == Some(mark) && x.payload.Nothing?
         && (mark.supersedes != 0 ==>
               var k := LatestRevision(met, |met|, mark.supersedes); k >= 0 && met[k].id in x.parents)
       case Stating(mark, revision, id, detail) =>
         var x := all[|met|];
         && x.kind.AssistantState? && x.revision == revision && x.payload == Stated(id, detail)
         && x.event == Some(mark) && (id != "" ==> id in x.parents)
       case Repairing(mark, revision, target, repair) =>
         var x := all[|met|];
         && x.kind.Repair? && x.revision == revision && x.payload == Repaired(target, repair)
         && x.event == Some(mark) && (target != "" ==> target in x.parents) && (repair != "" ==> repair in x.parents)
       case Holding(mark, revision, invocation, callID, detail) =>
         var x := all[|met|];
         && x.kind.ToolPlaceholder? && x.revision == revision && x.invocation == invocation
         && x.payload == Held(callID, detail) && x.event == Some(mark)
         && (var k := LatestCall(met, |met|, callID); k >= 0 && met[k].id in x.parents)
       case Resulting(_, invocation, results) =>
         && Complete(met, invocation, results)
         && forall i :: 0 <= i < |results| ==> AnswersCall(met, Pending(met, |met|, invocation)[i], e, all[|met| + i])
  }

  /** Nothing in the log it meets can satisfy the event. */
  ghost predicate Unresolvable(met: seq<Item>, e: Event) {
    match e
    case Observed(mark, _, _, _, _) =>
      mark.supersedes != 0 && IdAt(met, LatestRevision(met, |met|, mark.supersedes)) == ""
    case Holding(_, _, _, callID, _) => IdAt(met, LatestCall(met, |met|, callID)) == ""
    case Resulting(_, invocation, results) => !Complete(met, invocation, results)
    case _ => false
  }

  lemma RepresentsLater(met: seq<Item>, all: seq<Item>, more: seq<Item>, e: Event)
    requires Represents(met, all, e) && all <= more
    ensures Represents(met, more, e)
  {
    hide Complete, Pending, LatestRevision, LatestCall, AnswersCall;
    assert forall i :: 0 <= i < |all| ==> more[i] == all[i];
  }

  /** The parts of `Sound` that entering an item needs. */
  ghost predicate Current(d: Draft) {
    if d.all == [] then d.last == 0 && d.parent == ""
    else d.last == d.all[|d.all| - 1].time && d.parent == d.all[|d.all| - 1].id
  }

  lemma EnterCurrent(d: Draft, w: World, x: Item, causes: seq<string>)
    requires Current(d)
    ensures var next := Enter(d, w, x, causes);
      && Current(next) && d.all <= next.all && |next.all| == |d.all| + 1
      && next.all[|d.all|] == x.(id := next.all[|d.all|].id, time := next.all[|d.all|].time,
                                 parents := next.all[|d.all|].parents)
      && forall id :: id in causes && id != "" ==> id in next.all[|d.all|].parents
  {
    hide DirectParents, Follows;
    EnterFollows(d, w, x, causes);
  }

  lemma {:induction false} RepliesRepresent(d: Draft, w: World, e: Event, pairs: seq<Pair>, n: nat)
    requires Current(d) && e.Resulting? && n <= |pairs| && forall i :: 0 <= i < |pairs| ==> pairs[i].place < |d.all|
    requires forall i :: 0 <= i < |pairs| ==> PairFits(d.all, e, pairs[i]) && pairs[i].result in e.results
    ensures var next := Replies(d, w, e, pairs, n);
      && Current(next) && d.all <= next.all && |next.all| == |d.all| + n
      && forall i :: 0 <= i < n ==> AnswersCall(d.all, pairs[i].place, e, next.all[|d.all| + i])
  {
    hide Enter, Current, DirectParents;
    if n > 0 {
      RepliesRepresent(d, w, e, pairs, n - 1);
      var before, p := Replies(d, w, e, pairs, n - 1), pairs[n - 1];
      var causes := [d.all[p.place].id];
      EnterCurrent(before, w, Reply(e, d.all, p), causes);
      assert causes[0] in causes;
      var next := Enter(before, w, Reply(e, d.all, p), causes);
      assert AnswersCall(d.all, p.place, e, next.all[|before.all|]);
      forall i | 0 <= i < n - 1 ensures AnswersCall(d.all, pairs[i].place, e, next.all[|d.all| + i]) {
        assert next.all[|d.all| + i] == before.all[|d.all| + i];
      }
    }
  }

  lemma OneRepresents(d: Draft, w: World, e: Event)
    requires Current(d) && !e.Resulting? && !e.Signal? && !Unresolvable(d.all, e)
    ensures var r := Step(d, w, e);
      r.Some? && Current(r.value) && d.all <= r.value.all && |r.value.all| == |d.all| + 1
      && Represents(d.all, r.value.all, e)
  {
    hide Enter, Current, DirectParents;
    match e
    case Observed(mark, revision, phase, content, provenance) =>
      var causes := [Superseded(d, mark)];
      EnterCurrent(d, w, Shape(Observation, revision, "", phase, content, Nothing, provenance, mark), causes);
      assert causes[0] in causes;
    case Stating(mark, revision, id, detail) =>
      var causes := [id];
      EnterCurrent(d, w, Shape(AssistantState, revision, "", "runtime", "", Stated(id, detail), None, mark), causes);
      assert causes[0] in causes;
    case Repairing(mark, revision, target, repair) =>
      var causes := [target, repair];
      EnterCurrent(d, w, Shape(Repair, revision, "", "runtime", "", Repaired(target, repair), None, mark), causes);
      assert causes[0] in causes && causes[1] in causes;
    case Holding(mark, revision, invocation, callID, detail) =>
      var causes := [IdAt(d.all, LatestCall(d.all, |d.all|, callID))];
      var x := Shape(ToolPlaceholder, revision, invocation, "runtime", "", Held(callID, detail), None, mark);
      EnterCurrent(d, w, x, causes);
      assert causes[0] in causes;
  }

  lemma ResultsRepresent(d: Draft, w: World, e: Event)
    requires Current(d) && e.Resulting? && Complete(d.all, e.invocation, e.results)
    ensures var r := Step(d, w, e);
      && r.Some? && Current(r.value) && d.all <= r.value.all && |r.value.all| == |d.all| + |e.results|
      && Represents(d.all, r.value.all, e)
  {
    hide Enter, Current, Replies, Complete, AnswersCall;
    var pairs := Match(d.all, e.invocation, e.results).value;
    PairsFit(d.all, e, pairs);
    RepliesRepresent(d, w, e, pairs, |pairs|);
  }

  /** An event is refused exactly when it is unresolvable, and otherwise becomes what it must. */
  lemma StepRepresents(d: Draft, w: World, e: Event)
    requires Current(d)
    ensures var r := Step(d, w, e);
      && (r.None? <==> Unresolvable(d.all, e))
      && (r.Some? ==>
            && Current(r.value) && d.all <= r.value.all && |r.value.all| == |d.all| + Yield(e)
            && Represents(d.all, r.value.all, e))
  {
    hide Current, Enter, Replies, Represents, Complete;
    if e.Signal? {
      SignalRepresents(d.all, e);
    } else if e.Resulting? {
      if Complete(d.all, e.invocation, e.results) { ResultsRepresent(d, w, e); }
    } else if !Unresolvable(d.all, e) {
      OneRepresents(d, w, e);
    }
  }

  lemma SignalRepresents(all: seq<Item>, e: Event)
    requires e.Signal?
    ensures Represents(all, all, e)
  {
  }

  /** Every event compiled, each against the log as it then stood, its own group's earlier items included. */
  ghost predicate AllRepresented(log: seq<Item>, all: seq<Item>, events: seq<Event>, n: nat)
    requires n <= |events|
  {
    log <= all && |all| == |log| + Count(events, n) && forall i :: 0 <= i < n ==> RepresentedAt(log, all, events, i)
  }

  ghost predicate RepresentedAt(log: seq<Item>, all: seq<Item>, events: seq<Event>, i: nat)
    requires i < |events|
  {
    var met := |log| + Count(events, i);
    met <= |all| && Represents(all[..met], all, events[i])
  }

  lemma RepresentedLater(log: seq<Item>, a: seq<Item>, b: seq<Item>, events: seq<Event>, i: nat)
    requires i < |events| && RepresentedAt(log, a, events, i) && a <= b
    ensures RepresentedAt(log, b, events, i)
  {
    hide Represents, Count;
    var k := |log| + Count(events, i);
    assert b[..k] == a[..k];
    RepresentsLater(a[..k], a, b, events[i]);
  }

  /** The event at which compilation stops. */
  ghost predicate StuckAt(log: seq<Item>, w: World, events: seq<Event>, n: int) {
    && 0 <= n < |events| && Compiled(Opening(log), w, events, n).Some?
    && Unresolvable(Compiled(Opening(log), w, events, n).value.all, events[n])
  }

  lemma {:induction false} CompiledRepresents(log: seq<Item>, w: World, events: seq<Event>, n: nat)
    requires n <= |events|
    ensures var r := Compiled(Opening(log), w, events, n);
      r.Some? ==> Current(r.value) && AllRepresented(log, r.value.all, events, n)
  {
    hide Step, Represents, Current, Yield;
    if n == 0 {
      OpeningCurrent(log);
    } else {
      CompiledRepresents(log, w, events, n - 1);
      var before := Compiled(Opening(log), w, events, n - 1);
      if before.Some? && Step(before.value, w, events[n - 1]).Some? {
        StepRepresents(before.value, w, events[n - 1]);
        RepresentedStep(log, before.value.all, Step(before.value, w, events[n - 1]).value.all, events, n - 1);
      }
    }
  }

  lemma OpeningCurrent(log: seq<Item>)
    ensures Current(Opening(log))
  {
  }

  lemma RepresentedStep(log: seq<Item>, a: seq<Item>, b: seq<Item>, events: seq<Event>, n: nat)
    requires n < |events| && AllRepresented(log, a, events, n) && a <= b && |b| == |a| + Yield(events[n])
    requires Represents(a, b, events[n])
    ensures AllRepresented(log, b, events, n + 1)
  {
    hide Represents, RepresentedAt, Yield;
    RepresentedLast(log, a, b, events, n);
    forall i | 0 <= i < n ensures RepresentedAt(log, b, events, i) { RepresentedLater(log, a, b, events, i); }
  }

  lemma RepresentedLast(log: seq<Item>, a: seq<Item>, b: seq<Item>, events: seq<Event>, n: nat)
    requires n < |events| && |a| == |log| + Count(events, n) && a <= b && Represents(a, b, events[n])
    ensures RepresentedAt(log, b, events, n)
  {
    hide Represents, Count;
    assert b[..|a|] == a;
  }

  lemma {:induction false} StuckSomewhere(log: seq<Item>, w: World, events: seq<Event>, n: nat)
    requires n <= |events|
    ensures Compiled(Opening(log), w, events, n).None? <==> exists k :: k < n && StuckAt(log, w, events, k)
  {
    hide StuckAt, Compiled;
    if n == 0 {
      CompiledNothing(log, w, events);
    } else {
      StuckSomewhere(log, w, events, n - 1);
      StuckHere(log, w, events, n - 1);
      var r, before := Compiled(Opening(log), w, events, n), Compiled(Opening(log), w, events, n - 1);
      if r.None? {
        if before.None? {
          var k :| k < n - 1 && StuckAt(log, w, events, k);
          assert k < n && StuckAt(log, w, events, k);
        } else {
          assert n - 1 < n && StuckAt(log, w, events, n - 1);
        }
      } else {
        forall k | k < n ensures !StuckAt(log, w, events, k) {
          assert k == n - 1 || k < n - 1;
        }
      }
    }
  }

  lemma CompiledNothing(log: seq<Item>, w: World, events: seq<Event>)
    ensures Compiled(Opening(log), w, events, 0).Some? && forall k :: k < 0 ==> !StuckAt(log, w, events, k)
  {
  }

  lemma StuckHere(log: seq<Item>, w: World, events: seq<Event>, n: nat)
    requires n < |events|
    ensures var r, before := Compiled(Opening(log), w, events, n + 1), Compiled(Opening(log), w, events, n);
      && (before.None? ==> r.None?)
      && (before.Some? ==> (r.None? <==> StuckAt(log, w, events, n)))
  {
    hide Step, Unresolvable, Current, AllRepresented;
    CompiledRepresents(log, w, events, n);
    var before := Compiled(Opening(log), w, events, n);
    if before.Some? { StepRepresents(before.value, w, events[n]); }
  }

  // ---- The code ----------------------------------------------------------------------------

  method FindRevision(all: seq<Item>, revision: nat) returns (id: string)
    ensures id == IdAt(all, LatestRevision(all, |all|, revision))
  {
    var i := |all|;
    while i > 0
      invariant 0 <= i <= |all| && LatestRevision(all, |all|, revision) == LatestRevision(all, i, revision)
    {
      i := i - 1;
      if HasRevision(all[i], revision) { return all[i].id; }
    }
    return "";
  }

  method FindCall(all: seq<Item>, callID: string) returns (id: string)
    ensures id == IdAt(all, LatestCall(all, |all|, callID))
  {
    var i := |all|;
    while i > 0
      invariant 0 <= i <= |all| && LatestCall(all, |all|, callID) == LatestCall(all, i, callID)
    {
      i := i - 1;
      if IsCallOf(all[i], callID) { return all[i].id; }
    }
    return "";
  }

  /** The event loop's compiler, with its running time, parent and identities. */
  class Compiler {
    const world: World
    var all: seq<Item>
    var last: nat
    var parent: string
    var issued: nat

    function Value(): Draft
      reads this
    {
      Draft(all, last, parent, issued)
    }

    constructor (w: World, log: seq<Item>)
      ensures world == w && Value() == Opening(log)
    {
      world, all, issued := w, log, 0;
      last := if log == [] then 0 else log[|log| - 1].time;
      parent := if log == [] then "" else log[|log| - 1].id;
    }

    method Append(x: Item, causes: seq<string>)
      modifies this
      ensures Value() == Enter(old(Value()), world, x, causes)
    {
      var id := world.name(issued);
      var now := world.clock(issued);
      if now < last { now := last; }
      var parents := CollectParents([parent] + causes);
      all := all + [x.(id := id, time := now, parents := parents)];
      last, parent, issued := now, id, issued + 1;
    }

    method CompileResults(e: Event) returns (ok: bool)
      requires e.Resulting?
      modifies this
      ensures ok <==> Complete(old(all), e.invocation, e.results)
      ensures ok ==> Step(old(Value()), world, e) == Some(Value())
      ensures !ok ==> Value() == old(Value()) && Step(old(Value()), world, e) == None
    {
      hide Enter, Complete;
      var matched := Match(all, e.invocation, e.results);
      if matched.None? { return false; }
      var pairs, calls := matched.value, all;
      ghost var start := Value();
      for i := 0 to |pairs|
        invariant Value() == Replies(start, world, e, pairs, i)
      {
        Append(Reply(e, calls, pairs[i]), [calls[pairs[i].place].id]);
      }
      return true;
    }

    /** Compiles one event, or refuses it and changes nothing. */
    method CompileEvent(e: Event) returns (ok: bool)
      modifies this
      ensures ok ==> Step(old(Value()), world, e) == Some(Value())
      ensures !ok ==> Value() == old(Value()) && Step(old(Value()), world, e) == None
    {
      hide Enter, Match, LatestRevision, LatestCall, IdAt, Replies;
      ok := true;
      match e
      case Signal(_) =>
      case Observed(mark, revision, phase, content, provenance) =>
        var superseded := "";
        if mark.supersedes != 0 {
          superseded := FindRevision(all, mark.supersedes);
          if superseded == "" { return false; }
        }
        Append(Shape(Observation, revision, "", phase, content, Nothing, provenance, mark), [superseded]);
      case Stating(mark, revision, id, detail) =>
        Append(Shape(AssistantState, revision, "", "runtime", "", Stated(id, detail), None, mark), [id]);
      case Repairing(mark, revision, target, repair) =>
        Append(Shape(Repair, revision, "", "runtime", "", Repaired(target, repair), None, mark), [target, repair]);
      case Holding(mark, revision, invocation, callID, detail) =>
        var call := FindCall(all, callID);
        if call == "" { return false; }
        Append(Shape(ToolPlaceholder, revision, invocation, "runtime", "", Held(callID, detail), None, mark), [call]);
      case Resulting(mark, invocation, results) =>
        ok := CompileResults(e);
    }
  }

  /** Compiles a group of events against a log. Either every event is compiled, and the items carry what the
      events carried, in order, follow the log in time and cause, and have what the events refer to among
      their causes; or some event is unresolvable in the log it meets, and nothing is returned. */
  method Compile(w: World, log: seq<Item>, events: seq<Event>) returns (items: Option<seq<Item>>)
    ensures items.None? <==> exists n :: StuckAt(log, w, events, n)
    ensures items.Some? ==> AllRepresented(log, log + items.value, events, |events|)
    ensures items.Some? ==> Compiled(Opening(log), w, events, |events|).Some?
    ensures items.Some? ==> log + items.value == Compiled(Opening(log), w, events, |events|).value.all
    ensures items.Some? ==> forall i :: |log| <= i < |log + items.value| ==> Sits(log + items.value, i)
    ensures items.Some? ==> SourcesIn(items.value) == Sources(events, |events|)
  {
    hide Step, Sits, SourcesIn, Sources, AllRepresented, Unresolvable, Current;
    StuckSomewhere(log, w, events, |events|);
    var compiler := new Compiler(w, log);
    for i := 0 to |events|
      invariant compiler.world == w && Compiled(Opening(log), w, events, i) == Some(compiler.Value())
    {
      var ok := compiler.CompileEvent(events[i]);
      if !ok {
        StaysRefused(Opening(log), w, events, i + 1, |events|);
        return None;
      }
    }
    CompiledSound(log, w, events, |events|);
    CompiledSources(log, w, events, |events|);
    CompiledRepresents(log, w, events, |events|);
    items := Some(compiler.all[|log|..]);
    assert log + items.value == compiler.all;
  }

  lemma {:induction false} StaysRefused(d: Draft, w: World, events: seq<Event>, n: nat, m: nat)
    requires n <= m <= |events| && Compiled(d, w, events, n).None?
    ensures Compiled(d, w, events, m).None?
  {
    hide Step;
    if n < m { StaysRefused(d, w, events, n, m - 1); }
  }

  function Stamped(x: Item, batchID: string, index: nat, size: nat): Item
    requires x.event.Some?
  {
    x.(event := Some(x.event.value.(batchID := batchID, batchIndex := index, batchSize := size)))
  }

  /** A group of two or more is stamped so that it reads as a group. */
  method MarkBatch(batchID: string, items: seq<Item>) returns (marked: seq<Item>)
    ensures |marked| == |items|
    ensures forall i :: 0 <= i < |items| ==>
      marked[i] == if |items| < 2 || items[i].event.None? then items[i]
                   else Stamped(items[i], batchID, i, |items|)
  {
    marked := items;
    if |items| < 2 { return; }
    for i := 0 to |items|
      invariant |marked| == |items| && forall k :: i <= k < |items| ==> marked[k] == items[k]
      invariant forall k :: 0 <= k < i ==>
        marked[k] == if items[k].event.None? then items[k]
                     else Stamped(items[k], batchID, k, |items|)
    {
      if marked[i].event.Some? {
        var mark := marked[i].event.value.(batchID := batchID, batchIndex := i, batchSize := |items|);
        marked := marked[i := marked[i].(event := Some(mark))];
      }
    }
  }
}
