/** What `Cancel` and `CancelMatching` do, from the caller's own set of identities. */
module SpeechCancels {
  import opened Prelude
  import opened SpeechPlan
  import Alone = SpeechRuns
  import L = Ledgers

  /** Whether the caller asked for this utterance: `Cancel` asks for all of them. */
  predicate Asked(pick: Option<set<string>>, id: string) {
    match pick
    case None => true
    case Some(ids) => id in ids
  }

  // ---- One step, whatever else is going on -------------------------------------------------

  /** An utterance taken out of the queue goes to `stop` exactly when it was asked for, and is otherwise set
      aside; nothing else of the thread or of the queue changes. */
  lemma DrainingSorts(w: World, t: nat, ok: bool)
    requires t in w.threads && w.threads[t].Cancelling? && w.threads[t].stop.Draining? && w.plan.queue != []
    ensures var x, e, b := w.threads[t], w.plan.queue[0], Next(w, Advance(t, ok));
      && b.plan == w.plan.(queue := w.plan.queue[1..]) && b.book == w.book && b.log == w.log
      && b.threads == w.threads[t := if Asked(x.pick, e.u.id) then x.(stop := Looking(e.u.id, false))
                                     else x.(keep := x.keep + [e])]
  {
  }

  /** The active utterance goes to `stop` exactly when it was asked for; `Cancel` alone starts a new epoch. */
  lemma ReadingLooks(w: World, t: nat, ok: bool)
    requires t in w.threads && w.threads[t].Cancelling? && w.threads[t].stop.Reading?
    ensures var x, b := w.threads[t], Next(w, Advance(t, ok));
      && b.plan == w.plan.(epoch := w.plan.epoch + if x.pick.None? then 1 else 0) && b.book == w.book && b.log == w.log
      && b.threads == w.threads[t := x.(stop :=
           if w.plan.active.Some? && Asked(x.pick, w.plan.active.value.id) then Looking(w.plan.active.value.id, true)
           else Draining)]
  {
  }

  // ---- A call that nobody disturbs ---------------------------------------------------------

  function Onward(t: nat, n: nat): seq<Event> { if n == 0 then [] else [Advance(t, true)] + Onward(t, n - 1) }

  lemma RunOnward(w: World, t: nat, n: nat)
    requires n > 0 && t in w.threads && w.threads[t].Cancelling?
    ensures Run(w, Onward(t, n)) == Run(Ceasing(w, t, w.threads[t]), Onward(t, n - 1))
  {
    hide Ceasing;
    Alone.RunOne(w, Advance(t, true), Onward(t, n - 1));
  }

  lemma RunNothing(w: World, t: nat)
    ensures Run(w, Onward(t, 0)) == w
  {
  }

  /** What becomes of a commitment that is stopped. */
  function Halted(c: L.Commitment, reason: string): L.Commitment {
    if c.stage in {L.Prepared, L.Queued} then c.(stage := L.Cancelled, cancelReason := reason)
    else if c.stage == L.Stage.Emitting then c.(stage := L.Played, cancelReason := reason)
    else c
  }

  function Halts(b: L.Book, id: string, reason: string): L.Book {
    if id in b.commitments then b.(commitments := b.commitments[id := Halted(b.commitments[id], reason)]) else b
  }

  lemma CancelHalts(b: L.Book, id: string, reason: string)
    ensures L.Apply(b, L.Op.Cancel(id, reason)) == Halts(b, id, reason)
  {
  }

  /** Nothing of it has reached the world and it can still be stopped. */
  predicate Stoppable(b: L.Book, id: string) {
    id in b.commitments && b.commitments[id].stage in {L.Prepared, L.Queued}
  }

  /** Some of it has reached the world. */
  predicate Reached(b: L.Book, id: string) {
    id in b.commitments && b.commitments[id].stage in {L.Stage.Emitting, L.Played}
  }

  function StopSteps(b: L.Book, id: string, first: bool): nat {
    if Stoppable(b, id) then 3
    else if id in b.commitments && b.commitments[id].stage == L.Stage.Emitting then if first then 3 else 2
    else if first && Reached(b, id) then 2 else 1
  }

  /** The world once thread t is through with `stop`. */
  function Stops(w: World, t: nat, x: Thread, id: string, first: bool): World
    requires x.Cancelling?
  {
    w.(book := Halts(w.book, id, x.reason), threads := w.threads[t := x.(stop := Draining)],
       log := w.log.(reported := w.log.reported + (if Stoppable(w.book, id) then [id] else []),
                     heard := w.log.heard + (if first && Reached(w.book, id) then [id] else [])))
  }

  lemma StopsOpen(w: World, t: nat, x: Thread, id: string, first: bool, n: nat)
    requires t in w.threads && w.threads[t] == x && x.Cancelling? && x.stop == Looking(id, first)
    requires Stoppable(w.book, id)
    ensures Run(w, Onward(t, n + 3)) == Run(Stops(w, t, x, id, first), Onward(t, n))
  {
    hide Run, Onward, L.Apply, Halts;
    CancelHalts(w.book, id, x.reason);
    RunOnward(w, t, n + 3);
    var w1 := SetThread(w, t, x.(stop := Stopping(id, first)));
    RunOnward(w1, t, n + 2);
    var w2 := SetThread(w.(book := Halts(w.book, id, x.reason)), t, x.(stop := Relooking(id, first)));
    assert Ceasing(w1, t, w1.threads[t]) == w2;
    RunOnward(w2, t, n + 1);
    assert Ceasing(w2, t, w2.threads[t]) == Stops(w, t, x, id, first);
  }

  lemma StopsEmitting(w: World, t: nat, x: Thread, id: string, first: bool, n: nat)
    requires t in w.threads && w.threads[t] == x && x.Cancelling? && x.stop == Looking(id, first)
    requires id in w.book.commitments && w.book.commitments[id].stage == L.Stage.Emitting
    ensures Run(w, Onward(t, n + if first then 3 else 2)) == Run(Stops(w, t, x, id, first), Onward(t, n))
  {
    hide Run, Onward, L.Apply, Halts;
    CancelHalts(w.book, id, x.reason);
    var k := n + if first then 3 else 2;
    RunOnward(w, t, k);
    var w1 := SetThread(w, t, x.(stop := Stopping(id, first)));
    RunOnward(w1, t, k - 1);
    var y := x.(stop := if first then Hearing(id) else Draining);
    var w2 := SetThread(w.(book := Halts(w.book, id, x.reason)), t, y);
    assert Ceasing(w1, t, w1.threads[t]) == w2;
    if first {
      RunOnward(w2, t, n + 1);
      assert Ceasing(w2, t, w2.threads[t]) == Stops(w, t, x, id, first);
    } else {
      assert w2 == Stops(w, t, x, id, first);
    }
  }

  lemma StopsOver(w: World, t: nat, x: Thread, id: string, first: bool, n: nat)
    requires t in w.threads && w.threads[t] == x && x.Cancelling? && x.stop == Looking(id, first)
    requires id in w.book.commitments ==> w.book.commitments[id].stage in {L.Played, L.Cancelled}
    ensures Run(w, Onward(t, n + if first && Reached(w.book, id) then 2 else 1))
         == Run(Stops(w, t, x, id, first), Onward(t, n))
  {
    hide Run, Onward, L.Apply;
    var k := n + if first && Reached(w.book, id) then 2 else 1;
    RunOnward(w, t, k);
    assert Halts(w.book, id, x.reason) == w.book;
    if k > n + 1 {
      var w1 := SetThread(w, t, x.(stop := Hearing(id)));
      assert Ceasing(w, t, x) == w1;
      RunOnward(w1, t, k - 1);
      assert Ceasing(w1, t, w1.threads[t]) == Stops(w, t, x, id, first);
    } else {
      assert Ceasing(w, t, x) == Stops(w, t, x, id, first);
    }
  }

  lemma StopRuns(w: World, t: nat, x: Thread, id: string, first: bool, n: nat)
    requires t in w.threads && w.threads[t] == x && x.Cancelling? && x.stop == Looking(id, first)
    ensures Run(w, Onward(t, n + StopSteps(w.book, id, first))) == Run(Stops(w, t, x, id, first), Onward(t, n))
  {
    hide Run, Onward, Stops, Halts;
    if Stoppable(w.book, id) {
      StopsOpen(w, t, x, id, first, n);
    } else if id in w.book.commitments && w.book.commitments[id].stage == L.Stage.Emitting {
      StopsEmitting(w, t, x, id, first, n);
    } else {
      StopsOver(w, t, x, id, first, n);
    }
  }

  // ---- Draining the queue ------------------------------------------------------------------

  function Names(q: seq<Entry>): set<string> { set i | 0 <= i < |q| :: q[i].u.id }

  /** The entries that were not asked for, in order. */
  function Spared(q: seq<Entry>, pick: Option<set<string>>): seq<Entry> {
    if q == [] then []
    else (if Asked(pick, q[0].u.id) then [] else [q[0]]) + Spared(q[1..], pick)
  }

  /** The utterances that were asked for and could still be stopped, in order. */
  function Caught(b: L.Book, q: seq<Entry>, pick: Option<set<string>>): seq<string> {
    if q == [] then []
    else (if Asked(pick, q[0].u.id) && Stoppable(b, q[0].u.id) then [q[0].u.id] else []) + Caught(b, q[1..], pick)
  }

  /** From a to b, exactly these commitments have been stopped. */
  ghost predicate Struck(a: L.Book, b: L.Book, ids: set<string>, reason: string) {
    && b == a.(commitments := b.commitments) && b.commitments.Keys == a.commitments.Keys
    && forall id :: id in a.commitments ==>
         b.commitments[id] == if id in ids then Halted(a.commitments[id], reason) else a.commitments[id]
  }

  function Wanted(q: seq<Entry>, pick: Option<set<string>>): set<string> { set id | id in Names(q) && Asked(pick, id) }

  /** Thread t of w has emptied the queue by b. */
  ghost predicate Emptied(w: World, t: nat, x: Thread, b: World)
    requires x.Cancelling?
  {
    && b.threads == w.threads[t := x.(stop := if x.pick.Some? then Returning else Stopped,
                                      keep := x.keep + Spared(w.plan.queue, x.pick))]
    && b.plan == w.plan.(queue := []) && b.worker == w.worker
    && b.log == w.log.(reported := w.log.reported + Caught(w.book, w.plan.queue, x.pick))
    && Struck(w.book, b.book, Wanted(w.plan.queue, x.pick), x.reason)
    && (forall id :: id in Wanted(w.plan.queue, x.pick) ==> Is(b.place, id, Discarded))
    && (forall id :: id !in Names(w.plan.queue) && id in w.place ==> Is(b.place, id, w.place[id]))
  }

  lemma NamesHead(q: seq<Entry>)
    requires q != []
    ensures Names(q) == Names(q[1..]) + {q[0].u.id}
    ensures Distinct(q) ==> Distinct(q[1..]) && q[0].u.id !in Names(q[1..])
  {
    forall id | id in Names(q) ensures id in Names(q[1..]) + {q[0].u.id} {
      var i :| 0 <= i < |q| && q[i].u.id == id;
      assert i > 0 ==> q[1..][i - 1] == q[i];
    }
    forall id | id in Names(q[1..]) ensures id in Names(q) {
      var i :| 0 <= i < |q[1..]| && q[1..][i].u.id == id;
      assert q[i + 1].u.id == id;
    }
  }

  lemma {:induction false} CaughtElsewhere(a: L.Book, b: L.Book, q: seq<Entry>, pick: Option<set<string>>)
    requires forall i :: 0 <= i < |q| ==> (Stoppable(a, q[i].u.id) <==> Stoppable(b, q[i].u.id))
    ensures Caught(a, q, pick) == Caught(b, q, pick)
  {
    hide Stoppable;
    if q != [] { CaughtElsewhere(a, b, q[1..], pick); }
  }

  /** What taking the head out does, up to the next time the thread looks at the queue. */
  function HeadGone(w: World, t: nat, x: Thread): World
    requires x.Cancelling? && w.plan.queue != []
  {
    var e := w.plan.queue[0];
    if Asked(x.pick, e.u.id) then Stops(Put(Take(w), e.u.id, Discarded), t, x, e.u.id, false)
    else SetThread(Put(Take(w), e.u.id, Kept(t)), t, x.(keep := x.keep + [e]))
  }

  function HeadSteps(w: World, x: Thread): nat
    requires x.Cancelling? && w.plan.queue != []
  {
    var id := w.plan.queue[0].u.id;
    if Asked(x.pick, id) then 1 + StopSteps(w.book, id, false) else 1
  }

  lemma HeadGoes(w: World, t: nat, x: Thread, n: nat)
    requires t in w.threads && w.threads[t] == x && x.Cancelling? && x.stop.Draining? && w.plan.queue != []
    ensures Run(w, Onward(t, n + HeadSteps(w, x))) == Run(HeadGone(w, t, x), Onward(t, n))
  {
    hide Run, Onward, StopSteps, Stops;
    var e := w.plan.queue[0];
    RunOnward(w, t, n + HeadSteps(w, x));
    if Asked(x.pick, e.u.id) {
      var w1 := Ceasing(w, t, x);
      var y := x.(stop := Looking(e.u.id, false));
      assert w1 == SetThread(Put(Take(w), e.u.id, Discarded), t, y);
      StopRuns(w1, t, y, e.u.id, false, n);
      SameStops(w1, Put(Take(w), e.u.id, Discarded), t, y, x, e.u.id);
    }
  }

  lemma SameStops(a: World, b: World, t: nat, y: Thread, x: Thread, id: string)
    requires x.Cancelling? && y == x.(stop := Looking(id, false)) && x.stop.Draining? && a == SetThread(b, t, y)
    ensures Stops(a, t, y, id, false) == Stops(b, t, x, id, false)
  {
  }

  function DrainSteps(w: World, t: nat, x: Thread): nat
    requires x.Cancelling?
    decreases |w.plan.queue|
  {
    if w.plan.queue == [] then 1
    else HeadSteps(w, x) + DrainSteps(HeadGone(w, t, x), t, HeadThread(w, x))
  }

  function HeadThread(w: World, x: Thread): Thread
    requires x.Cancelling? && w.plan.queue != []
  {
    if Asked(x.pick, w.plan.queue[0].u.id) then x.(stop := Draining) else x.(keep := x.keep + [w.plan.queue[0]])
  }

  lemma {:induction false} DrainRuns(w: World, t: nat, x: Thread) returns (b: World)
    requires t in w.threads && w.threads[t] == x && x.Cancelling? && x.stop.Draining?
    requires Distinct(w.plan.queue)
    requires forall i :: 0 <= i < |w.plan.queue| ==> w.plan.queue[i].u.id in w.book.commitments
    ensures Emptied(w, t, x, b)
    ensures forall n: nat :: Run(w, Onward(t, DrainSteps(w, t, x) + n)) == Run(b, Onward(t, n))
    decreases |w.plan.queue|
  {
    hide Run, Onward, Emptied, HeadGone, HeadSteps, Halts, Stoppable, Reached;
    if w.plan.queue == [] {
      b := Ceasing(w, t, x);
      forall n: nat ensures Run(w, Onward(t, DrainSteps(w, t, x) + n)) == Run(b, Onward(t, n)) {
        RunOnward(w, t, 1 + n);
      }
      NothingEmptied(w, t, x);
    } else {
      var w1, y := HeadGone(w, t, x), HeadThread(w, x);
      HeadGoneIs(w, t, x);
      NamesHead(w.plan.queue);
      b := DrainRuns(w1, t, y);
      forall n: nat ensures Run(w, Onward(t, DrainSteps(w, t, x) + n)) == Run(b, Onward(t, n)) {
        HeadGoes(w, t, x, DrainSteps(w1, t, y) + n);
      }
      HeadEmptied(w, t, x, b);
    }
  }

  lemma NothingEmptied(w: World, t: nat, x: Thread)
    requires t in w.threads && w.threads[t] == x && x.Cancelling? && x.stop.Draining? && w.plan.queue == []
    ensures Emptied(w, t, x, Ceasing(w, t, x))
  {
    assert x.keep + [] == x.keep;
    assert w.log.reported + [] == w.log.reported;
  }

  lemma HeadGoneIs(w: World, t: nat, x: Thread)
    requires t in w.threads && w.threads[t] == x && x.Cancelling? && x.stop.Draining? && w.plan.queue != []
    ensures var w1 := HeadGone(w, t, x);
      && w1.threads == w.threads[t := HeadThread(w, x)] && w1.plan == w.plan.(queue := w.plan.queue[1..])
      && w1.book.commitments.Keys == w.book.commitments.Keys && w1.worker == w.worker
  {
  }

  lemma HeadEmptied(w: World, t: nat, x: Thread, b: World)
    requires t in w.threads && w.threads[t] == x && x.Cancelling? && x.stop.Draining? && w.plan.queue != []
    requires Distinct(w.plan.queue) && w.plan.queue[0].u.id in w.book.commitments
    requires Emptied(HeadGone(w, t, x), t, HeadThread(w, x), b)
    ensures Emptied(w, t, x, b)
  {
    hide Distinct, Stoppable, Halts, Reached, Struck, Names;
    var w1, e, q := HeadGone(w, t, x), w.plan.queue[0], w.plan.queue[1..];
    NamesHead(w.plan.queue);
    HeadCaught(w, t, x);
    HeadStruck(w, t, x, b.book);
    HeadKept(w, x);
  }

  lemma HeadKept(w: World, x: Thread)
    requires x.Cancelling? && w.plan.queue != []
    ensures HeadThread(w, x).keep + Spared(w.plan.queue[1..], x.pick) == x.keep + Spared(w.plan.queue, x.pick)
  {
  }

  lemma HeadCaught(w: World, t: nat, x: Thread)
    requires x.Cancelling? && w.plan.queue != [] && Distinct(w.plan.queue)
    ensures var w1 := HeadGone(w, t, x);
      w1.log == w.log.(reported := w1.log.reported)
      && w1.log.reported + Caught(w1.book, w.plan.queue[1..], x.pick)
         == w.log.reported + Caught(w.book, w.plan.queue, x.pick)
  {
    hide Distinct, Stoppable, Halts;
    var w1, e, q := HeadGone(w, t, x), w.plan.queue[0], w.plan.queue[1..];
    NamesHead(w.plan.queue);
    forall i | 0 <= i < |q| ensures Stoppable(w1.book, q[i].u.id) <==> Stoppable(w.book, q[i].u.id) {
      assert q[i].u.id in Names(q);
      OthersStoppable(w.book, e.u.id, x.reason, q[i].u.id);
    }
    CaughtElsewhere(w.book, w1.book, q, x.pick);
  }

  lemma HeadStruck(w: World, t: nat, x: Thread, b: L.Book)
    requires x.Cancelling? && w.plan.queue != [] && Distinct(w.plan.queue)
    requires w.plan.queue[0].u.id in w.book.commitments
    requires Struck(HeadGone(w, t, x).book, b, Wanted(w.plan.queue[1..], x.pick), x.reason)
    ensures Struck(w.book, b, Wanted(w.plan.queue, x.pick), x.reason)
  {
    hide Distinct, Halted, Names, Halts;
    var e, q := w.plan.queue[0], w.plan.queue[1..];
    NamesHead(w.plan.queue);
    assert Wanted(w.plan.queue, x.pick) == Wanted(q, x.pick) + if Asked(x.pick, e.u.id) then {e.u.id} else {};
    if Asked(x.pick, e.u.id) { StruckOneMore(w.book, b, e.u.id, Wanted(q, x.pick), x.reason); }
  }

  lemma StruckOneMore(a: L.Book, b: L.Book, k: string, ids: set<string>, reason: string)
    requires k in a.commitments && k !in ids && Struck(Halts(a, k, reason), b, ids, reason)
    ensures Struck(a, b, ids + {k}, reason)
  {
    hide Halted;
  }

  lemma OthersStoppable(b: L.Book, k: string, reason: string, id: string)
    requires id != k
    ensures Stoppable(Halts(b, k, reason), id) <==> Stoppable(b, id)
  {
  }

  // ---- Putting back what was set aside -----------------------------------------------------

  ghost predicate PutBack(w: World, t: nat, x: Thread, b: World)
    requires x.Cancelling?
  {
    && b.threads == w.threads[t := x.(stop := Stopped, keep := [])]
    && b.plan == w.plan.(queue := w.plan.queue + x.keep) && b.worker == w.worker && b.log == w.log && b.book == w.book
    && (forall id :: id !in Names(x.keep) && id in w.place ==> Is(b.place, id, w.place[id]))
  }

  lemma {:induction false} ReturnRuns(w: World, t: nat, x: Thread) returns (b: World)
    requires t in w.threads && w.threads[t] == x && x.Cancelling? && x.stop.Returning?
    requires |w.plan.queue| + |x.keep| <= w.plan.depth
    ensures PutBack(w, t, x, b)
    ensures forall n: nat :: Run(w, Onward(t, |x.keep| + 1 + n)) == Run(b, Onward(t, n))
    decreases |x.keep|
  {
    hide Run, Onward, Names;
    var w1 := Ceasing(w, t, x);
    if x.keep == [] {
      assert w.plan.queue + x.keep == w.plan.queue;
      b := w1;
      forall n: nat ensures Run(w, Onward(t, |x.keep| + 1 + n)) == Run(b, Onward(t, n)) {
        RunOnward(w, t, 1 + n);
      }
    } else {
      NamesHead(x.keep);
      b := ReturnRuns(w1, t, x.(keep := x.keep[1..]));
      assert w1.plan.queue + x.keep[1..] == w.plan.queue + x.keep;
      forall n: nat ensures Run(w, Onward(t, |x.keep| + 1 + n)) == Run(b, Onward(t, n)) {
        RunOnward(w, t, |x.keep| + 1 + n);
      }
    }
  }

  // ---- The whole call ----------------------------------------------------------------------

  /** The planner's active utterance is the one its worker is speaking. */
  predicate ActiveIsLive(w: World) {
    w.plan.active == if w.worker.Live? then Some(w.worker.s.u) else None
  }

  lemma ActiveStays(w: World, e: Event)
    requires ActiveIsLive(w)
    ensures ActiveIsLive(Next(w, e))
  {
    hide L.Apply, Entering, Ceasing, Streaming, Speakable;
    if e.Work? {
      if w.worker.Live? { StreamingKeepsActive(w, w.worker.s, w.worker.at, e.ok, e.provided); }
    } else {
      ThreadsLeaveWorker(w, e);
      if e.Advance? && e.t in w.threads { ThreadsLeaveActive(w, e.t, e.ok); }
    }
  }

  lemma StreamingKeepsActive(w: World, s: Stream, at: Spot, ok: bool, p: Provided)
    requires w.worker == Live(s, at)
    ensures var b := Streaming(w, s, at, ok, p);
      if at.Ending? then b.worker.Idle? && b.plan.active.None?
      else b.worker.Live? && b.worker.s.u == s.u && b.plan.active == w.plan.active
  {
    hide L.Apply, L.TransitionError, FrameBytes, Milliseconds, Payload;
  }

  lemma ThreadsLeaveActive(w: World, t: nat, ok: bool)
    requires t in w.threads
    ensures Next(w, Advance(t, ok)).plan.active == w.plan.active
  {
    hide L.Apply, L.Refusal, L.TransitionError, L.Crossed, L.Terminal, Matches;
  }

  lemma {:induction false} ActiveIsAlwaysLive(w: World, events: seq<Event>)
    requires ActiveIsLive(w)
    ensures ActiveIsLive(Run(w, events))
    decreases |events|
  {
    hide Next;
    if events != [] {
      ActiveStays(w, events[0]);
      ActiveIsAlwaysLive(Next(w, events[0]), events[1..]);
    }
  }

  /** The active utterance, if it was asked for. */
  function Target(w: World, pick: Option<set<string>>): seq<string> {
    if w.plan.active.Some? && Asked(pick, w.plan.active.value.id) then [w.plan.active.value.id] else []
  }

  function IdsOf(ids: seq<string>): set<string> { set i | 0 <= i < |ids| :: ids[i] }

  ghost predicate Apart(w: World, pick: Option<set<string>>) {
    && Distinct(w.plan.queue) && |w.plan.queue| <= w.plan.depth
    && (forall i :: 0 <= i < |w.plan.queue| ==> w.plan.queue[i].u.id in w.book.commitments)
    && forall id :: id in Target(w, pick) ==> id !in Names(w.plan.queue) && id in w.book.commitments
  }

  lemma SafeIsApart(w: World, pick: Option<set<string>>)
    requires Safe(w) && ActiveIsLive(w)
    ensures Apart(w, pick)
  {
    hide L.Sound, Bound, Conserved, BeganPlaced, ThreadPlaced, Asked;
    forall i | 0 <= i < |w.plan.queue| ensures w.plan.queue[i].u.id in w.book.commitments {
      assert Is(w.place, w.plan.queue[i].u.id, InQueue);
    }
  }

  /** The first part of the call: the active utterance. */
  lemma ActiveFirst(w: World, t: nat, reason: string, pick: Option<set<string>>) returns (b: World, k: nat)
    requires t !in w.threads && Apart(w, pick)
    ensures forall n: nat :: Run(w, [Event.Cancel(t, reason, pick)] + Onward(t, k + n)) == Run(b, Onward(t, n))
    ensures b.threads == w.threads[t := Cancelling(reason, pick, Draining, [])]
    ensures b.plan == w.plan.(epoch := w.plan.epoch + if pick.None? then 1 else 0)
    ensures b.worker == w.worker && b.place == w.place
    ensures Target(w, pick) == [] ==> b.book == w.book && b.log == w.log
    ensures Target(w, pick) != [] ==>
      var id := Target(w, pick)[0];
      && b.book == Halts(w.book, id, reason)
      && b.log == w.log.(reported := w.log.reported + (if Stoppable(w.book, id) then [id] else []),
                         heard := w.log.heard + (if Reached(w.book, id) then [id] else []))
  {
    hide Run, Onward, Stoppable, Reached, Halts, Asked, StopSteps, Apart;
    var w0 := Next(w, Event.Cancel(t, reason, pick));
    var x := Cancelling(reason, pick, Reading, []);
    assert w0 == SetThread(w, t, x);
    var w1 := Ceasing(w0, t, x);
    ReadingLooks(w0, t, true);
    assert w1 == Next(w0, Advance(t, true));
    if Target(w, pick) == [] {
      b, k := w1, 1;
      forall n: nat ensures Run(w, [Event.Cancel(t, reason, pick)] + Onward(t, k + n)) == Run(b, Onward(t, n)) {
        Alone.RunOne(w, Event.Cancel(t, reason, pick), Onward(t, k + n));
        RunOnward(w0, t, k + n);
      }
    } else {
      var id := Target(w, pick)[0];
      var y := x.(stop := Looking(id, true));
      b, k := Stops(w1, t, y, id, true), 1 + StopSteps(w1.book, id, true);
      forall n: nat ensures Run(w, [Event.Cancel(t, reason, pick)] + Onward(t, k + n)) == Run(b, Onward(t, n)) {
        Alone.RunOne(w, Event.Cancel(t, reason, pick), Onward(t, k + n));
        RunOnward(w0, t, k + n);
        StopRuns(w1, t, y, id, true, n);
      }
    }
  }

  /** Everything the call has done, against the world it found. */
  ghost predicate Done(w: World, t: nat, reason: string, pick: Option<set<string>>, b: World) {
    && b.threads == w.threads[t := Cancelling(reason, pick, Stopped, [])] && b.worker == w.worker
    && b.plan == w.plan.(queue := Spared(w.plan.queue, pick), epoch := w.plan.epoch + if pick.None? then 1 else 0)
    && Struck(w.book, b.book, IdsOf(Target(w, pick)) + Wanted(w.plan.queue, pick), reason)
    && b.log == w.log.(
         reported := w.log.reported + (if Target(w, pick) != [] && Stoppable(w.book, Target(w, pick)[0])
                                       then Target(w, pick) else []) + Caught(w.book, w.plan.queue, pick),
         heard := w.log.heard + (if Target(w, pick) != [] && Reached(w.book, Target(w, pick)[0])
                                 then Target(w, pick) else []))
    && (forall id :: id in Wanted(w.plan.queue, pick) ==> Is(b.place, id, Discarded))
  }

  /** The active part and the queue part together strike exactly what was asked for. */
  lemma StruckTogether(w: World, a: L.Book, b: L.Book, reason: string, pick: Option<set<string>>)
    requires Apart(w, pick) && Struck(a, b, Wanted(w.plan.queue, pick), reason)
    requires if Target(w, pick) == [] then a == w.book else a == Halts(w.book, Target(w, pick)[0], reason)
    ensures Struck(w.book, b, IdsOf(Target(w, pick)) + Wanted(w.plan.queue, pick), reason)
    ensures Caught(a, w.plan.queue, pick) == Caught(w.book, w.plan.queue, pick)
  {
    hide Distinct, Halted, Names, Asked, Stoppable;
    var q := w.plan.queue;
    if Target(w, pick) != [] {
      var k := Target(w, pick)[0];
      assert IdsOf(Target(w, pick)) == {k};
      assert k in Target(w, pick);
      forall i | 0 <= i < |q| ensures Stoppable(a, q[i].u.id) <==> Stoppable(w.book, q[i].u.id) {
        NamesHas(q, i);
        OthersStoppable(w.book, k, reason, q[i].u.id);
      }
    }
    CaughtElsewhere(a, w.book, q, pick);
  }

  lemma NamesHas(q: seq<Entry>, i: nat)
    requires i < |q|
    ensures q[i].u.id in Names(q)
  {
  }

  lemma {:induction false} SparedNames(q: seq<Entry>, pick: Option<set<string>>)
    ensures |Spared(q, pick)| <= |q| && forall id :: id in Names(Spared(q, pick)) ==> !Asked(pick, id)
    ensures pick.None? ==> Spared(q, pick) == []
  {
    if q != [] {
      SparedNames(q[1..], pick);
      var later := Spared(q[1..], pick);
      if !Asked(pick, q[0].u.id) {
        assert Spared(q, pick)[1..] == later;
        NamesHead(Spared(q, pick));
      }
    }
  }

  /** A call that nobody disturbs ends, having stopped exactly the utterances it was asked to: the active one
      if it was asked for, and those in the queue. The others are still in the queue, in order. */
  lemma CancelDoes(w: World, t: nat, reason: string, pick: Option<set<string>>) returns (n: nat, b: World)
    requires Safe(w) && ActiveIsLive(w) && t !in w.threads
    ensures b == Run(w, [Event.Cancel(t, reason, pick)] + Onward(t, n))
    ensures Done(w, t, reason, pick, b)
  {
    hide Run, Onward, Safe, Apart, Struck, Halts, Asked, Names, Stoppable, Reached, Wanted, Target, Spared;
    SafeIsApart(w, pick);
    var a, k := ActiveFirst(w, t, reason, pick);
    var x := Cancelling(reason, pick, Draining, []);
    ApartDrains(w, a, reason, pick);
    var d := DrainRuns(a, t, x);
    var m := DrainSteps(a, t, x);
    EmptiedIs(w, a, t, reason, pick, d);
    StruckTogether(w, a.book, d.book, reason, pick);
    SparedNames(w.plan.queue, pick);
    if pick.None? {
      b, n := d, k + m;
      assert Run(w, [Event.Cancel(t, reason, pick)] + Onward(t, k + m)) == Run(a, Onward(t, m));
      assert Run(a, Onward(t, m + 0)) == Run(d, Onward(t, 0));
      RunNothing(d, t);
    } else {
      var y := d.threads[t];
      b := ReturnRuns(d, t, y);
      var r := |y.keep| + 1;
      n := k + (m + r);
      assert Run(w, [Event.Cancel(t, reason, pick)] + Onward(t, k + (m + r))) == Run(a, Onward(t, m + r));
      assert Run(a, Onward(t, m + r)) == Run(d, Onward(t, r));
      assert Run(d, Onward(t, r + 0)) == Run(b, Onward(t, 0));
      RunNothing(b, t);
      WantedAreAsked(w.plan.queue, pick);
      assert [] + Spared(w.plan.queue, pick) == Spared(w.plan.queue, pick);
    }
    ReportsJoin(w, a, reason, pick);
  }

  lemma ReportsJoin(w: World, a: World, reason: string, pick: Option<set<string>>)
    requires Target(w, pick) == [] ==> a.log == w.log
    requires Target(w, pick) != [] ==>
      var id := Target(w, pick)[0];
      a.log == w.log.(reported := w.log.reported + (if Stoppable(w.book, id) then [id] else []),
                      heard := w.log.heard + (if Reached(w.book, id) then [id] else []))
    ensures a.log == w.log.(
      reported := w.log.reported + (if Target(w, pick) != [] && Stoppable(w.book, Target(w, pick)[0])
                                    then Target(w, pick) else []),
      heard := w.log.heard + (if Target(w, pick) != [] && Reached(w.book, Target(w, pick)[0])
                              then Target(w, pick) else []))
  {
    hide Stoppable, Reached, Asked;
    if Target(w, pick) == [] {
      assert w.log.reported + [] == w.log.reported && w.log.heard + [] == w.log.heard;
    } else {
      assert Target(w, pick) == [Target(w, pick)[0]];
    }
  }

  lemma WantedAreAsked(q: seq<Entry>, pick: Option<set<string>>)
    ensures forall id :: id in Wanted(q, pick) ==> Asked(pick, id)
  {
  }

  lemma ApartDrains(w: World, a: World, reason: string, pick: Option<set<string>>)
    requires Apart(w, pick) && a.plan.queue == w.plan.queue && a.plan.depth == w.plan.depth
    requires if Target(w, pick) == [] then a.book == w.book else a.book == Halts(w.book, Target(w, pick)[0], reason)
    ensures Distinct(a.plan.queue) && |a.plan.queue| <= a.plan.depth
    ensures forall i :: 0 <= i < |a.plan.queue| ==> a.plan.queue[i].u.id in a.book.commitments
  {
    hide Distinct, Halted, Asked;
  }

  lemma EmptiedIs(w: World, a: World, t: nat, reason: string, pick: Option<set<string>>, d: World)
    requires a.threads == w.threads[t := Cancelling(reason, pick, Draining, [])] && a.plan.queue == w.plan.queue
    requires Emptied(a, t, Cancelling(reason, pick, Draining, []), d)
    ensures var x := Cancelling(reason, pick, if pick.Some? then Returning else Stopped, Spared(w.plan.queue, pick));
      && d.threads == w.threads[t := x] && d.plan == a.plan.(queue := []) && d.worker == a.worker
      && d.log == a.log.(reported := a.log.reported + Caught(a.book, w.plan.queue, pick))
      && Struck(a.book, d.book, Wanted(w.plan.queue, pick), reason)
      && forall id :: id in Wanted(w.plan.queue, pick) ==> Is(d.place, id, Discarded)
  {
    hide Struck, Wanted, Caught, Spared;
    assert [] + Spared(w.plan.queue, pick) == Spared(w.plan.queue, pick);
  }

  // ---- What that means for the caller ------------------------------------------------------

  lemma {:induction false} SparedIsFiltered(q: seq<Entry>, ids: set<string>)
    ensures Spared(q, Some(ids)) == Filter(q, (e: Entry) => e.u.id !in ids)
  {
    hide Filter;
    if q == [] {
      FilterNothing((e: Entry) => e.u.id !in ids);
    } else {
      SparedIsFiltered(q[1..], ids);
      FilterHead(q, (e: Entry) => e.u.id !in ids);
    }
  }

  lemma {:induction false} CaughtHas(b: L.Book, q: seq<Entry>, pick: Option<set<string>>, i: nat)
    requires i < |q| && Asked(pick, q[i].u.id) && Stoppable(b, q[i].u.id)
    ensures q[i].u.id in Caught(b, q, pick)
  {
    hide Asked, Stoppable;
    if i > 0 { CaughtHas(b, q[1..], pick, i - 1); }
  }

  /** An utterance that was let go of is never spoken afterwards. */
  lemma GoneIsNeverSpoken(w: World, events: seq<Event>, id: string)
    requires Safe(w) && id in w.place && Gone(w.place[id]) && !w.place[id].Spoken?
    ensures id !in Run(w, events).log.began
  {
    hide L.Sound, Bound, Conserved, Run, L.Follows, AllAt, ThreadPlaced, WorkerPlaced;
    RunKeeps(w, events);
    var now := Run(w, events);
    assert Is(now.place, id, w.place[id]);
    assert forall i :: 0 <= i < |now.log.began| ==>
      Is(now.place, now.log.began[i], Speaking) || Is(now.place, now.log.began[i], Spoken);
  }

  /** A book that had exactly these commitments stopped has them ended, and the others as they were. */
  lemma StruckMeans(a: L.Book, b: L.Book, ids: set<string>, reason: string, id: string)
    requires Struck(a, b, ids, reason) && id in a.commitments
    ensures id in b.commitments
    ensures id in ids ==> L.Terminal(b, id)
    ensures id in ids && Stoppable(a, id) ==> b.commitments[id].stage == L.Cancelled
    ensures id in ids && Reached(a, id) ==> b.commitments[id].stage == L.Played
    ensures id !in ids ==> b.commitments[id] == a.commitments[id]
  {
  }

  /** `CancelMatching`, for a caller's set of identities and a call that nobody disturbs. Every queued utterance
      of the set is ended in the ledger, reported if it could still be stopped, and never spoken, whatever
      happens later. The other entries are still queued, in order; no other commitment has changed. */
  lemma MatchingIsStopped(w: World, t: nat, reason: string, ids: set<string>, later: seq<Event>)
    returns (n: nat, b: World)
    requires Safe(w) && ActiveIsLive(w) && t !in w.threads
    ensures b == Run(w, [Event.Cancel(t, reason, Some(ids))] + Onward(t, n))
    ensures t in b.threads && b.threads[t] == Cancelling(reason, Some(ids), Stopped, [])
    ensures b.plan == w.plan.(queue := Filter(w.plan.queue, (e: Entry) => e.u.id !in ids)) && b.worker == w.worker
    ensures forall i :: 0 <= i < |w.plan.queue| && w.plan.queue[i].u.id in ids ==>
      var id := w.plan.queue[i].u.id;
      && L.Terminal(b.book, id) && id !in Run(b, later).log.began
      && (Stoppable(w.book, id) ==> b.book.commitments[id].stage == L.Cancelled && id in b.log.reported)
    ensures forall id :: id in w.book.commitments && id !in ids ==>
      id in b.book.commitments && b.book.commitments[id] == w.book.commitments[id]
    ensures b.log.frames == w.log.frames && b.log.began == w.log.began
  {
    hide Run, Onward, Safe, Struck, Stoppable, Filter, Spared, Caught, L.Terminal;
    n, b := CancelDoes(w, t, reason, Some(ids));
    var hit := IdsOf(Target(w, Some(ids))) + Wanted(w.plan.queue, Some(ids));
    SparedIsFiltered(w.plan.queue, ids);
    SafeIsApart(w, Some(ids));
    RunKeeps(w, [Event.Cancel(t, reason, Some(ids))] + Onward(t, n));
    forall i | 0 <= i < |w.plan.queue| && w.plan.queue[i].u.id in ids
      ensures var id := w.plan.queue[i].u.id;
        && L.Terminal(b.book, id) && id !in Run(b, later).log.began
        && (Stoppable(w.book, id) ==> b.book.commitments[id].stage == L.Cancelled && id in b.log.reported)
    {
      var id := w.plan.queue[i].u.id;
      NamesHas(w.plan.queue, i);
      StruckMeans(w.book, b.book, hit, reason, id);
      if Stoppable(w.book, id) { CaughtHas(w.book, w.plan.queue, Some(ids), i); }
      GoneIsNeverSpoken(b, later, id);
    }
    forall id | id in w.book.commitments && id !in ids
      ensures id in b.book.commitments && b.book.commitments[id] == w.book.commitments[id]
    {
      StruckMeans(w.book, b.book, hit, reason, id);
    }
  }

  /** And the active utterance, if it is of the set: ended as cancelled and reported when nothing of it had
      reached the world, and ended as played and returned as heard when something had. If it is not of the
      set, it is not touched. */
  lemma ActiveIsStopped(w: World, t: nat, reason: string, pick: Option<set<string>>) returns (n: nat, b: World)
    requires Safe(w) && ActiveIsLive(w) && t !in w.threads && w.plan.active.Some?
    ensures b == Run(w, [Event.Cancel(t, reason, pick)] + Onward(t, n))
    ensures t in b.threads && b.threads[t] == Cancelling(reason, pick, Stopped, [])
    ensures var id := w.plan.active.value.id;
      && id in w.book.commitments && id in b.book.commitments
      && (Asked(pick, id) && w.book.commitments[id].stage in {L.Prepared, L.Queued} ==>
            b.book.commitments[id].stage == L.Cancelled && id in b.log.reported && b.log.heard == w.log.heard)
      && (Asked(pick, id) && w.book.commitments[id].stage in {L.Stage.Emitting, L.Played} ==>
            b.book.commitments[id].stage == L.Played && b.log.heard == w.log.heard + [id])
      && (!Asked(pick, id) ==> b.book.commitments[id] == w.book.commitments[id] && b.log.heard == w.log.heard)
  {
    hide Run, Onward, Safe, Struck, Spared, Caught, Asked, Names;
    n, b := CancelDoes(w, t, reason, pick);
    SafeIsApart(w, pick);
    SpeakerIsKnown(w);
    var id := w.plan.active.value.id;
    WantedAreAsked(w.plan.queue, pick);
    StruckMeans(w.book, b.book, IdsOf(Target(w, pick)) + Wanted(w.plan.queue, pick), reason, id);
    assert Asked(pick, id) ==> Target(w, pick)[0] == id;
  }

  /** `Cancel` asks for everything: nothing is left in the queue, and a new epoch has begun. */
  lemma CancelEmptiesQueue(w: World, t: nat, reason: string) returns (n: nat, b: World)
    requires Safe(w) && ActiveIsLive(w) && t !in w.threads
    ensures b == Run(w, [Event.Cancel(t, reason, None)] + Onward(t, n))
    ensures b.plan == w.plan.(queue := [], epoch := w.plan.epoch + 1)
    ensures forall i :: 0 <= i < |w.plan.queue| ==> L.Terminal(b.book, w.plan.queue[i].u.id)
  {
    hide Run, Onward, Safe, Struck, Caught, L.Terminal;
    n, b := CancelDoes(w, t, reason, None);
    SafeIsApart(w, None);
    SparedNames(w.plan.queue, None);
    forall i | 0 <= i < |w.plan.queue| ensures L.Terminal(b.book, w.plan.queue[i].u.id) {
      NamesHas(w.plan.queue, i);
      StruckMeans(w.book, b.book, IdsOf(Target(w, None)) + Wanted(w.plan.queue, None), reason, w.plan.queue[i].u.id);
    }
  }
}
