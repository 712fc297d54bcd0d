/** What compiling a group of events and rejoining groups come to, without reference to how they are done. */
module BatchLaws {
  import opened Prelude
  import opened Trajectory
  import opened EventBatch
  import Text = AnnotationFilter

  // ---- Rejoining groups --------------------------------------------------------------------

  /** The rejoined group cancels if any group cancels, runs alongside only if every group does, was deferred if any
      was or if there is more than one, and spans from the first group to the last. */
  lemma MergedMeans<E>(bs: seq<Batch<E>>)
    requires bs != []
    ensures var m := Merged(bs);
      && (m.triage == CancelWork <==> exists i :: 0 <= i < |bs| && bs[i].triage == CancelWork)
      && (m.triage == Alongside <==> forall i :: 0 <= i < |bs| ==> bs[i].triage == Alongside)
      && (m.deferred <==> |bs| > 1 || bs[0].deferred)
      && m.start == bs[0].start && m.end == bs[|bs| - 1].end
  {
    if Any(bs, CancelWork) {
      var i :| 0 <= i < |bs| && bs[i].triage == CancelWork;
      assert bs[i].triage == CancelWork;
    }
    if forall i :: 0 <= i < |bs| ==> bs[i].triage == Alongside { assert bs[0].triage == Alongside; }
  }

  /** Events and items are those of the groups, one group after the other. */
  lemma MergedJoins<E>(xs: seq<Batch<E>>, ys: seq<Batch<E>>, b: Batch<E>)
    requires xs != [] && ys != []
    ensures Merged(xs + ys).events == Merged(xs).events + Merged(ys).events
    ensures Merged(xs + ys).items == Merged(xs).items + Merged(ys).items
    ensures Merged([b]).events == b.events && Merged([b]).items == b.items && Merged([b]).triage == b.triage
  {
    Joins(xs, ys);
    One(b);
    MergedMeans([b]);
  }

  // ---- Which results complete an invocation ------------------------------------------------

  /** There is one call of that identity in the log, and only one. */
  ghost predicate Sole(all: seq<Item>, callID: string) {
    exists k :: 0 <= k < |all| && IsCallOf(all[k], callID)
      && forall j :: 0 <= j < |all| && IsCallOf(all[j], callID) ==> j == k
  }

  /** The result item at j answers the call of that identity of the invocation: it names the invocation, or names
      none and there is no other call it could answer. */
  ghost predicate Replies(all: seq<Item>, j: int, invocation: string, callID: string) {
    && 0 <= j < |all| && all[j].kind == ToolResult && all[j].payload.Resulted? && all[j].payload.result.callID == callID
    && (all[j].invocation == invocation || (all[j].invocation == "" && Sole(all, callID)))
  }

  /** The item at k is a call of the invocation that nothing in the log answers. */
  ghost predicate Unanswered(all: seq<Item>, k: int, invocation: string) {
    && 0 <= k < |all| && all[k].kind == ToolCall && all[k].payload.Called? && all[k].invocation == invocation
    && forall j :: !Replies(all, j, invocation, all[k].payload.call.id)
  }

  lemma {:induction false} MentionsNone(all: seq<Item>, n: nat, callID: string)
    requires n <= |all| && forall j :: 0 <= j < n ==> !IsCallOf(all[j], callID)
    ensures Mentions(all, n, callID) == 0
  {
    if n > 0 { MentionsNone(all, n - 1, callID); }
  }

  lemma {:induction false} MentionsSome(all: seq<Item>, n: nat, callID: string, k: nat)
    requires k < n <= |all| && IsCallOf(all[k], callID)
    ensures Mentions(all, n, callID) >= 1
    ensures Mentions(all, n, callID) == 1 <==> forall j :: 0 <= j < n && IsCallOf(all[j], callID) ==> j == k
  {
    if k == n - 1 {
      if forall j :: 0 <= j < n - 1 ==> !IsCallOf(all[j], callID) {
        MentionsNone(all, n - 1, callID);
      } else {
        var j :| 0 <= j < n - 1 && IsCallOf(all[j], callID);
        MentionsSome(all, n - 1, callID, j);
      }
    } else {
      MentionsSome(all, n - 1, callID, k);
    }
  }

  lemma OutstandingIsUnanswered(all: seq<Item>, k: int, invocation: string)
    requires invocation != ""
    ensures Outstanding(all, k, invocation) <==> Unanswered(all, k, invocation)
  {
    if 0 <= k < |all| && IsCall(all[k]) && all[k].invocation == invocation {
      var id := all[k].payload.call.id;
      MentionsSome(all, |all|, id, k);
      forall j | 0 <= j < |all| ensures Answers(all, all[j], invocation, id) <==> Replies(all, j, invocation, id) {
        assert CallIs(all[k], invocation, id);
        assert Sole(all, id) <==> Mentions(all, |all|, id) == 1;
      }
      hide Answers, Replies;
      if Answered(all, invocation, id) {
        var j :| 0 <= j < |all| && Answers(all, all[j], invocation, id);
        assert Replies(all, j, invocation, id);
      }
      if exists j :: Replies(all, j, invocation, id) {
        var j :| Replies(all, j, invocation, id);
        RepliesInside(all, j, invocation, id);
        assert Answers(all, all[j], invocation, id);
      }
    }
  }

  lemma RepliesInside(all: seq<Item>, j: int, invocation: string, id: string)
    requires Replies(all, j, invocation, id)
    ensures 0 <= j < |all|
  {
  }

  /** Within an invocation call identities are distinct. */
  ghost predicate DistinctCalls(all: seq<Item>, invocation: string) {
    forall j, k :: (&& 0 <= j < k < |all| && IsCall(all[j]) && IsCall(all[k])
                    && all[j].invocation == invocation && all[k].invocation == invocation) ==>
      all[j].payload.call.id != all[k].payload.call.id
  }

  /** One of the results is for that call. */
  ghost predicate Serves(results: seq<Result>, call: Trajectory.Call) {
    exists i :: 0 <= i < |results| && results[i].callID == call.id && results[i].name == call.name
  }

  /** The identity is that of an unanswered call. */
  ghost predicate Awaited(all: seq<Item>, invocation: string, callID: string) {
    exists k :: Unanswered(all, k, invocation) && all[k].payload.call.id == callID
  }

  /** The results are, one for one, those of the invocation's unanswered calls. */
  ghost predicate OneForOne(all: seq<Item>, invocation: string, results: seq<Result>) {
    && (forall i, j :: 0 <= i < j < |results| ==> results[i].callID != results[j].callID)
    && (forall k :: Unanswered(all, k, invocation) ==> Serves(results, all[k].payload.call))
    && (forall i :: 0 <= i < |results| ==> Awaited(all, invocation, results[i].callID))
  }

  ghost function CallNames(all: seq<Item>, places: seq<nat>): seq<string>
    requires forall i :: 0 <= i < |places| ==> places[i] < |all| && all[places[i]].payload.Called?
  {
    seq(|places|, i requires 0 <= i < |places| => all[places[i]].payload.call.id)
  }

  ghost function ResultNames(results: seq<Result>): seq<string> {
    seq(|results|, i requires 0 <= i < |results| => results[i].callID)
  }

  /** A result event is accepted if and only if it names an invocation and brings exactly one result, of the right
      tool, for each of the invocation's unanswered calls, and no others. */
  lemma CompleteIsOneForOne(all: seq<Item>, invocation: string, results: seq<Result>)
    requires DistinctCalls(all, invocation)
    ensures Complete(all, invocation, results) <==>
      Text.TrimSpace(invocation) != "" && results != [] && OneForOne(all, invocation, results)
  {
    hide Text.TrimSpace, Unanswered, Outstanding;
    if Text.TrimSpace(invocation) != "" && results != [] {
      BlankIsBlank(invocation);
      var pending := Pending(all, |all|, invocation);
      forall k ensures Outstanding(all, k, invocation) <==> Unanswered(all, k, invocation) {
        OutstandingIsUnanswered(all, k, invocation);
      }
      PendingAre(all, invocation);
      if Complete(all, invocation, results) {
        CompleteMatches(all, invocation, results);
      }
      if OneForOne(all, invocation, results) {
        MatchesComplete(all, invocation, results);
      }
    }
  }

  lemma BlankIsBlank(s: string)
    requires Text.TrimSpace(s) != ""
    ensures s != ""
  {
  }

  lemma PendingAre(all: seq<Item>, invocation: string)
    ensures var pending := Pending(all, |all|, invocation);
      && (forall k: int :: Outstanding(all, k, invocation) <==> 0 <= k && k in pending)
      && forall i :: 0 <= i < |pending| ==>
           pending[i] < |all| && IsCall(all[pending[i]]) && all[pending[i]].invocation == invocation
  {
  }

  lemma FindsIt(results: seq<Result>, i: nat)
    requires i < |results| && forall i, j :: 0 <= i < j < |results| ==> results[i].callID != results[j].callID
    ensures Find(results, results[i].callID) == i
  {
  }

  lemma PendingNamesDiffer(all: seq<Item>, invocation: string)
    requires DistinctCalls(all, invocation)
    ensures var names := CallNames(all, Pending(all, |all|, invocation));
      forall i, j :: 0 <= i < j < |names| ==> names[i] != names[j]
  {
    hide Outstanding;
    PendingAre(all, invocation);
    var pending := Pending(all, |all|, invocation);
    var names := CallNames(all, pending);
    forall i, j | 0 <= i < j < |names| ensures names[i] != names[j] {
      assert pending[i] < pending[j];
    }
  }

  /** As many results as calls, and a result for each call: the identities are the same. */
  lemma SameNames(calls: seq<string>, given: seq<string>)
    requires |calls| == |given|
    requires forall i, j :: 0 <= i < j < |calls| ==> calls[i] != calls[j]
    requires forall i, j :: 0 <= i < j < |given| ==> given[i] != given[j]
    requires forall i :: 0 <= i < |calls| ==> calls[i] in given
    ensures forall i :: 0 <= i < |given| ==> given[i] in calls
  {
    ElementsSize(calls);
    ElementsSize(given);
    SameWhenAsMany(Elements(calls), Elements(given));
    forall i | 0 <= i < |given| ensures given[i] in calls { assert given[i] in Elements(given); }
  }

  /** The same identities, each once: as many of the one as of the other. */
  lemma SameNumber(calls: seq<string>, given: seq<string>)
    requires forall i, j :: 0 <= i < j < |calls| ==> calls[i] != calls[j]
    requires forall i, j :: 0 <= i < j < |given| ==> given[i] != given[j]
    requires forall i :: 0 <= i < |calls| ==> calls[i] in given
    requires forall i :: 0 <= i < |given| ==> given[i] in calls
    ensures |calls| == |given|
  {
    ElementsSize(calls);
    ElementsSize(given);
    forall id ensures id in Elements(calls) <==> id in Elements(given) {}
    assert Elements(calls) == Elements(given);
  }

  lemma FitsServes(all: seq<Item>, k: nat, results: seq<Result>)
    requires Fits(all, k, results)
    ensures Serves(results, all[k].payload.call) && all[k].payload.call.id in ResultNames(results)
  {
    var i := Find(results, all[k].payload.call.id);
    assert results[i].callID == all[k].payload.call.id && ResultNames(results)[i] == results[i].callID;
  }

  lemma ServesFits(all: seq<Item>, k: nat, results: seq<Result>)
    requires k < |all| && IsCall(all[k]) && Serves(results, all[k].payload.call)
    requires forall i, j :: 0 <= i < j < |results| ==> results[i].callID != results[j].callID
    ensures Fits(all, k, results) && all[k].payload.call.id in ResultNames(results)
  {
    var call := all[k].payload.call;
    var i :| 0 <= i < |results| && results[i].callID == call.id && results[i].name == call.name;
    FindsIt(results, i);
    assert ResultNames(results)[i] == results[i].callID;
  }

  lemma CompleteMatches(all: seq<Item>, invocation: string, results: seq<Result>)
    requires Complete(all, invocation, results) && DistinctCalls(all, invocation)
    requires forall k :: Outstanding(all, k, invocation) <==> Unanswered(all, k, invocation)
    ensures OneForOne(all, invocation, results)
  {
    hide Outstanding, Unanswered, Text.TrimSpace, Fits, Serves, Find, DistinctCalls;
    PendingAre(all, invocation);
    PendingNamesDiffer(all, invocation);
    var pending := Pending(all, |all|, invocation);
    var calls, given := CallNames(all, pending), ResultNames(results);
    forall i | 0 <= i < |pending| ensures calls[i] in given { FitsServes(all, pending[i], results); }
    SameNames(calls, given);
    forall k | Unanswered(all, k, invocation) ensures Serves(results, all[k].payload.call) {
      assert k in pending;
      FitsServes(all, k, results);
    }
    forall i | 0 <= i < |results| ensures Awaited(all, invocation, results[i].callID) {
      assert given[i] in calls;
      var m :| 0 <= m < |calls| && calls[m] == given[i];
      assert Unanswered(all, pending[m], invocation);
    }
  }

  lemma AwaitedIsCalled(all: seq<Item>, invocation: string, id: string)
    requires Awaited(all, invocation, id)
    requires forall k :: Outstanding(all, k, invocation) <==> Unanswered(all, k, invocation)
    ensures id in CallNames(all, Pending(all, |all|, invocation))
  {
    hide Outstanding, Unanswered;
    PendingAre(all, invocation);
    var pending := Pending(all, |all|, invocation);
    var k :| Unanswered(all, k, invocation) && all[k].payload.call.id == id;
    assert k in pending;
    var m :| 0 <= m < |pending| && pending[m] == k;
    assert CallNames(all, pending)[m] == id;
  }

  lemma MatchesComplete(all: seq<Item>, invocation: string, results: seq<Result>)
    requires OneForOne(all, invocation, results) && DistinctCalls(all, invocation)
    requires Text.TrimSpace(invocation) != "" && results != []
    requires forall k :: Outstanding(all, k, invocation) <==> Unanswered(all, k, invocation)
    ensures Complete(all, invocation, results)
  {
    hide Outstanding, Unanswered, Text.TrimSpace, Fits, Serves, Find, DistinctCalls;
    PendingAre(all, invocation);
    PendingNamesDiffer(all, invocation);
    var pending := Pending(all, |all|, invocation);
    var calls, given := CallNames(all, pending), ResultNames(results);
    forall i | 0 <= i < |pending| ensures Fits(all, pending[i], results) && calls[i] in given {
      assert Unanswered(all, pending[i], invocation);
      ServesFits(all, pending[i], results);
    }
    forall i | 0 <= i < |given| ensures given[i] in calls { AwaitedIsCalled(all, invocation, results[i].callID); }
    SameNumber(calls, given);
  }

  // ---- Identities and times ----------------------------------------------------------------

  /** The item at i has the next identity there is, and the time the clock then showed, or that of the item before
      it if the clock has gone back. */
  ghost predicate DrawnAt(log: seq<Item>, w: World, all: seq<Item>, i: int)
    requires |log| <= i < |all|
  {
    var past, now := if i == 0 then 0 else all[i - 1].time, w.clock(i - |log|);
    all[i].id == w.name(i - |log|) && all[i].time == if now < past then past else now
  }

  ghost predicate Drawn(log: seq<Item>, w: World, d: Draft) {
    && log <= d.all && d.issued == |d.all| - |log|
    && d.last == (if d.all == [] then 0 else d.all[|d.all| - 1].time)
    && forall i :: |log| <= i < |d.all| ==> DrawnAt(log, w, d.all, i)
  }

  lemma EnterDraws(log: seq<Item>, w: World, d: Draft, x: Item, causes: seq<string>)
    requires Drawn(log, w, d)
    ensures Drawn(log, w, Enter(d, w, x, causes))
  {
    hide DirectParents;
    var next := Enter(d, w, x, causes);
    forall i | |log| <= i < |next.all| ensures DrawnAt(log, w, next.all, i) {
      if i < |d.all| { assert DrawnAt(log, w, d.all, i); }
    }
  }

  lemma {:induction false} RepliesDraw(log: seq<Item>, w: World, d: Draft, e: Event, pairs: seq<Pair>, n: nat)
    requires Drawn(log, w, d) && e.Resulting? && n <= |pairs|
    requires forall i :: 0 <= i < |pairs| ==> pairs[i].place < |d.all|
    ensures Drawn(log, w, EventBatch.Replies(d, w, e, pairs, n))
  {
    hide Drawn, Enter;
    if n > 0 {
      RepliesDraw(log, w, d, e, pairs, n - 1);
      EnterDraws(log, w, EventBatch.Replies(d, w, e, pairs, n - 1), Reply(e, d.all, pairs[n - 1]),
                 [d.all[pairs[n - 1].place].id]);
    }
  }

  lemma StepDraws(log: seq<Item>, w: World, d: Draft, e: Event)
    requires Drawn(log, w, d)
    ensures Step(d, w, e).Some? ==> Drawn(log, w, Step(d, w, e).value)
  {
    hide Drawn, Enter, Match, Superseded, LatestCall, IdAt, EventBatch.Replies;
    match e
    case Signal(_) =>
    case Observed(mark, revision, phase, content, provenance) =>
      EnterDraws(log, w, d, Shape(Observation, revision, "", phase, content, Nothing, provenance, mark),
                 [Superseded(d, mark)]);
    case Stating(mark, revision, id, detail) =>
      EnterDraws(log, w, d, Shape(AssistantState, revision, "", "runtime", "", Stated(id, detail), None, mark), [id]);
    case Repairing(mark, revision, target, repair) =>
      EnterDraws(log, w, d, Shape(Repair, revision, "", "runtime", "", Repaired(target, repair), None, mark),
                 [target, repair]);
    case Holding(mark, revision, invocation, callID, detail) =>
      EnterDraws(log, w, d,
                 Shape(ToolPlaceholder, revision, invocation, "runtime", "", Held(callID, detail), None, mark),
                 [IdAt(d.all, LatestCall(d.all, |d.all|, callID))]);
    case Resulting(mark, invocation, results) =>
      var pairs := Match(d.all, invocation, results);
      if pairs.Some? { RepliesDraw(log, w, d, e, pairs.value, |pairs.value|); }
  }

  /** Over a whole group, every item has its own identity in order, and the time of its own reading. */
  lemma {:induction false} CompiledDraws(log: seq<Item>, w: World, events: seq<Event>, n: nat)
    requires n <= |events|
    ensures var r := Compiled(Opening(log), w, events, n); r.Some? ==> Drawn(log, w, r.value)
  {
    hide Step, Drawn;
    if n == 0 {
      OpeningDraws(log, w);
    } else {
      CompiledDraws(log, w, events, n - 1);
      var before := Compiled(Opening(log), w, events, n - 1);
      if before.Some? { StepDraws(log, w, before.value, events[n - 1]); }
    }
  }

  lemma OpeningDraws(log: seq<Item>, w: World)
    ensures Drawn(log, w, Opening(log))
  {
  }

  // ---- Causes ------------------------------------------------------------------------------

  /** The first place an identity is named. */
  function FirstNamed(ids: seq<string>, id: string): (k: nat)
    requires id in ids
    ensures k < |ids| && ids[k] == id && forall i :: 0 <= i < k ==> ids[i] != id
  {
    if ids[0] == id then 0
    else
      assert ids == [ids[0]] + ids[1..];
      1 + FirstNamed(ids[1..], id)
  }

  /** Causes are listed in the order in which they were first named. */
  lemma {:induction false} CausesKeepOrder(ids: seq<string>, i: nat, j: nat)
    requires i < j < |DirectParents(ids)|
    ensures FirstNamed(ids, DirectParents(ids)[i]) < FirstNamed(ids, DirectParents(ids)[j])
  {
    var front, last := ids[..|ids| - 1], ids[|ids| - 1];
    var rest := DirectParents(front);
    var a, b := DirectParents(ids)[i], DirectParents(ids)[j];
    assert ids == front + [last];
    assert a == rest[i] && a in front;
    if j < |rest| {
      CausesKeepOrder(front, i, j);
    }
  }
}
