/** Where every utterance the planner accepted has gone: nothing is dropped behind the ledger's back. */
module SpeechAccount {
  import opened Prelude
  import opened SpeechPlan
  import L = Ledgers
  import Text = AnnotationFilter

  function Ids(q: seq<Entry>): set<string> { set i | 0 <= i < |q| :: q[i].u.id }

  /** The utterances a thread has in hand. */
  function Held(x: Thread): set<string> {
    match x
    case Enqueuing(u, _, step) => if Holding(step) then {u.id} else {}
    case Cancelling(_, _, _, keep) => Ids(keep)
  }

  /** The utterances a cancellation has yet to tell the ledger about. */
  function Pursued(x: Thread): set<string> {
    if x.Cancelling? && (x.stop.Looking? || x.stop.Stopping?) then {x.stop.id} else {}
  }

  /** The utterance the worker has taken and not begun, and the one it is speaking. */
  function Carried(k: Worker): set<string> {
    match k
    case Picked(e) => {e.u.id}
    case Dropping(u) => {u.id}
    case Starting(u) => {u.id}
    case Discarding(u) => {u.id}
    case _ => {}
  }

  function Spoke(k: Worker): set<string> { if k.Live? then {k.s.u.id} else {} }

  predicate HeldBy(threads: map<nat, Thread>, t: nat, id: string) { t in threads && id in Held(threads[t]) }

  predicate PursuedBy(threads: map<nat, Thread>, t: nat, id: string) { t in threads && id in Pursued(threads[t]) }

  /** What is said about where an utterance is, is so. */
  ghost predicate Found(w: World, id: string, p: Place) {
    match p
    case Sender(t) => HeldBy(w.threads, t, id)
    case Kept(t) => HeldBy(w.threads, t, id)
    case InQueue => id in Ids(w.plan.queue)
    case AtWorker => id in Carried(w.worker)
    case Speaking => id in Spoke(w.worker)
    case Spoken => L.Terminal(w.book, id)
    case Discarded => L.Terminal(w.book, id) || exists t :: PursuedBy(w.threads, t, id)
    case Refused => L.Terminal(w.book, id) || L.Crossed(w.book, id)
    case Lost => true
  }

  ghost predicate Accounted(w: World) { forall id :: id in w.place ==> Found(w, id, w.place[id]) }

  /** Nobody is going to do anything about the utterance any more. */
  ghost predicate LetGo(w: World, id: string) {
    && id !in Ids(w.plan.queue) && id !in Carried(w.worker) && id !in Spoke(w.worker)
    && forall t :: !HeldBy(w.threads, t, id) && !PursuedBy(w.threads, t, id)
  }

  /** But for the identities in ks, a step from a to b loses track of nothing. */
  ghost predicate Tracks(a: World, b: World, ks: set<string>) {
    && L.Follows(a.book, b.book)
    && (forall id :: id in b.place && id !in ks ==> id in a.place && b.place[id] == a.place[id])
    && Ids(a.plan.queue) - ks <= Ids(b.plan.queue)
    && Carried(a.worker) - ks <= Carried(b.worker) && Spoke(a.worker) - ks <= Spoke(b.worker)
    && (forall t, id :: HeldBy(a.threads, t, id) && id !in ks ==> HeldBy(b.threads, t, id))
    && (forall t, id :: PursuedBy(a.threads, t, id) && id !in ks ==>
          PursuedBy(b.threads, t, id) || L.Terminal(b.book, id) || id !in b.book.commitments)
  }

  lemma FoundStays(a: World, b: World, ks: set<string>, id: string, p: Place)
    requires Tracks(a, b, ks) && id !in ks && Found(a, id, p) && id in b.book.commitments
    ensures Found(b, id, p)
  {
    hide L.Follows, L.Terminal, L.Crossed, Ids, Held, Pursued, Carried, Spoke, HeldBy, PursuedBy;
    if L.Terminal(a.book, id) { L.EndedStays(a.book, b.book, id); }
    FollowsKeeps(a.book, b.book, id);
    if p.Discarded? && !L.Terminal(a.book, id) {
      var t :| PursuedBy(a.threads, t, id);
      assert PursuedBy(b.threads, t, id) || L.Terminal(b.book, id);
    }
  }

  lemma AccountedStays(a: World, b: World, ks: set<string>)
    requires Accounted(a) && Tracks(a, b, ks) && Known(b)
    requires forall k :: k in ks && k in b.place ==> Found(b, k, b.place[k])
    ensures Accounted(b)
  {
    hide Found, L.Follows, Ids, Carried, Spoke, HeldBy, PursuedBy;
    forall id | id in b.place ensures Found(b, id, b.place[id]) {
      if id !in ks { FoundStays(a, b, ks, id, a.place[id]); }
    }
  }

  ghost predicate Known(w: World) { forall id :: id in w.place ==> id in w.book.commitments }

  /** One thread moves. */
  lemma ThreadTracks(a: World, b: World, t: nat, x: Thread, ks: set<string>)
    requires t in a.threads && b.threads == a.threads[t := x] && b.worker == a.worker
    requires L.Follows(a.book, b.book) && Ids(a.plan.queue) - ks <= Ids(b.plan.queue)
    requires forall id :: id in b.place && id !in ks ==> id in a.place && b.place[id] == a.place[id]
    requires Held(a.threads[t]) - ks <= Held(x)
    requires forall id :: id in Pursued(a.threads[t]) && id !in ks ==>
      id in Pursued(x) || L.Terminal(b.book, id) || id !in b.book.commitments
    ensures Tracks(a, b, ks)
  {
    hide L.Follows, L.Terminal, Ids, Held, Pursued, Carried, Spoke;
  }

  lemma RefusedIsMoved(b: L.Book, id: string)
    requires id in b.commitments && L.TransitionError(b, id, L.Queued).Some?
    ensures L.Apply(b, L.Queue(id)) == b && (L.Terminal(b, id) || L.Crossed(b, id))
  {
  }

  /** The utterance a step of `Enqueue` moves, if any. */
  function Moved(w: World, t: nat, x: Thread, ok: bool): set<string>
    requires x.Enqueuing?
  {
    if Entering(w, t, x, ok).place == w.place then {} else {x.u.id}
  }

  lemma EnteringTracks(w: World, t: nat, ok: bool)
    requires t in w.threads && w.threads[t].Enqueuing? && !w.threads[t].step.Enqueued?
    requires L.Follows(w.book, Entering(w, t, w.threads[t], ok).book)
    requires Holding(w.threads[t].step) ==> Is(w.place, w.threads[t].u.id, Sender(t))
    ensures Tracks(w, Entering(w, t, w.threads[t], ok), Moved(w, t, w.threads[t], ok))
  {
    hide L.Follows, L.Apply, L.Refusal, L.TransitionError, L.Terminal, L.Crossed, Draft, Tracks, Ids;
    var b := Entering(w, t, w.threads[t], ok);
    QueueGrows(w.plan.queue, b.plan.queue);
    ThreadTracks(w, b, t, b.threads[t], Moved(w, t, w.threads[t], ok));
  }

  lemma EnteringAccounts(w: World, t: nat, ok: bool)
    requires Accounted(w) && Known(w) && t in w.threads && w.threads[t].Enqueuing?
    requires Holding(w.threads[t].step) ==> Is(w.place, w.threads[t].u.id, Sender(t))
    requires var b := Entering(w, t, w.threads[t], ok); L.Follows(w.book, b.book) && Known(b)
    ensures Accounted(Entering(w, t, w.threads[t], ok))
  {
    hide L.Follows, L.Apply, L.Refusal, L.TransitionError, L.Terminal, L.Crossed, Draft, Accounted, Tracks, Ids;
    var x, b := w.threads[t], Entering(w, t, w.threads[t], ok);
    if x.step.Enqueued? { return; }
    EnteringTracks(w, t, ok);
    QueueGrows(w.plan.queue, b.plan.queue);
    if x.step.Lining? && L.TransitionError(w.book, x.u.id, L.Queued).Some? { RefusedIsMoved(w.book, x.u.id); }
    if x.step.Backing? { L.CancelEnds(w.book, x.u.id, "refused"); }
    AccountedStays(w, b, Moved(w, t, x, ok));
  }

  lemma QueueGrows(a: seq<Entry>, b: seq<Entry>)
    ensures a <= b ==> Ids(a) <= Ids(b)
    ensures a != [] ==> Ids(a) == Ids(a[1..]) + {a[0].u.id}
    ensures b != [] ==> b[|b| - 1].u.id in Ids(b)
  {
    if a <= b { assert forall i :: 0 <= i < |a| ==> b[i] == a[i]; }
    if a != [] {
      forall id | id in Ids(a) ensures id in Ids(a[1..]) + {a[0].u.id} {
        var i :| 0 <= i < |a| && a[i].u.id == id;
        assert i > 0 ==> a[1..][i - 1] == a[i];
      }
      forall id | id in Ids(a[1..]) ensures id in Ids(a) {
        var i :| 0 <= i < |a[1..]| && a[1..][i].u.id == id;
        assert a[i + 1].u.id == id;
      }
    }
  }

  lemma DrainAccounts(w: World, t: nat)
    requires Accounted(w) && Known(w) && t in w.threads && w.threads[t].Cancelling? && w.threads[t].stop.Draining?
    requires var b := DrainStep(w, t, w.threads[t]); Known(b)
    ensures Accounted(DrainStep(w, t, w.threads[t]))
  {
    hide L.Follows, L.Terminal, L.Crossed, Accounted, Tracks, Ids, Matches;
    var x, b := w.threads[t], DrainStep(w, t, w.threads[t]);
    L.FollowsReflexive(w.book);
    var ks := if w.plan.queue == [] then {} else {w.plan.queue[0].u.id};
    QueueGrows(w.plan.queue, w.plan.queue);
    QueueGrows(x.keep, b.threads[t].keep);
    ThreadTracks(w, b, t, b.threads[t], ks);
    assert b.threads[t].stop.Looking? ==> PursuedBy(b.threads, t, b.threads[t].stop.id);
    AccountedStays(w, b, ks);
  }

  lemma ReturnAccounts(w: World, t: nat)
    requires Accounted(w) && Known(w) && t in w.threads && w.threads[t].Cancelling? && w.threads[t].stop.Returning?
    requires var b := ReturnStep(w, t, w.threads[t]); Known(b)
    ensures Accounted(ReturnStep(w, t, w.threads[t]))
  {
    hide L.Follows, L.Terminal, L.Crossed, Accounted, Tracks, Ids;
    var x, b := w.threads[t], ReturnStep(w, t, w.threads[t]);
    L.FollowsReflexive(w.book);
    var ks := if x.keep == [] then {} else {x.keep[0].u.id};
    QueueGrows(x.keep, x.keep);
    QueueGrows(w.plan.queue, b.plan.queue);
    ThreadTracks(w, b, t, b.threads[t], ks);
    AccountedStays(w, b, ks);
  }

  lemma StopAccounts(w: World, t: nat)
    requires Accounted(w) && Known(w) && t in w.threads && w.threads[t].Cancelling?
    requires var b := Ceasing(w, t, w.threads[t]); L.Follows(w.book, b.book) && Known(b)
    requires !w.threads[t].stop.Draining? && !w.threads[t].stop.Returning?
    ensures Accounted(Ceasing(w, t, w.threads[t]))
  {
    hide L.Follows, L.Apply, L.Terminal, L.Crossed, Accounted, Tracks, Ids, Matches;
    var x, b := w.threads[t], Ceasing(w, t, w.threads[t]);
    if x.stop.Stopped? { return; }
    if x.stop.Stopping? {
      if x.stop.id in w.book.commitments { L.CancelEnds(w.book, x.stop.id, x.reason); }
      FollowsKeeps(w.book, b.book, x.stop.id);
      CancelAddsNothing(w.book, x.stop.id, x.reason);
    }
    ThreadTracks(w, b, t, b.threads[t], {});
    AccountedStays(w, b, {});
  }

  lemma CancelAddsNothing(b: L.Book, id: string, reason: string)
    ensures L.Apply(b, L.Op.Cancel(id, reason)).commitments.Keys == b.commitments.Keys
  {
  }

  /** The worker moves. */
  lemma WorkerTracks(a: World, b: World, ks: set<string>)
    requires b.threads == a.threads && L.Follows(a.book, b.book) && Ids(a.plan.queue) - ks <= Ids(b.plan.queue)
    requires forall id :: id in b.place && id !in ks ==> id in a.place && b.place[id] == a.place[id]
    requires Carried(a.worker) - ks <= Carried(b.worker) && Spoke(a.worker) - ks <= Spoke(b.worker)
    ensures Tracks(a, b, ks)
  {
    hide L.Follows, L.Terminal, Ids, Held, Pursued, Carried, Spoke;
  }

  lemma StreamingTracks(w: World, s: Stream, at: Spot, ok: bool, p: Provided)
    requires w.worker == Live(s, at)
    ensures var b := Streaming(w, s, at, ok, p);
      && b.threads == w.threads && b.plan.queue == w.plan.queue
      && (if at.Ending? then b.place == w.place[s.u.id := Spoken] && b.book == w.book
          else b.place == w.place && Spoke(b.worker) == Spoke(w.worker))
  {
    hide L.Apply, L.TransitionError, FrameBytes, Milliseconds, Payload;
  }

  lemma WorkingAccounts(w: World, ok: bool, p: Provided, over: bool)
    requires Accounted(w) && Known(w) && WorkerKnown(w)
    requires w.worker.Live? && w.worker.at.Ending? ==> L.Terminal(w.book, w.worker.s.u.id)
    requires var b := Working(w, ok, p, over); L.Follows(w.book, b.book) && Known(b)
    ensures Accounted(Working(w, ok, p, over))
  {
    hide L.Follows, L.Apply, L.Terminal, L.Crossed, Accounted, Tracks, Ids, Streaming;
    if w.worker.Live? {
      LiveAccounts(w, w.worker.s, w.worker.at, ok, p);
    } else {
      RestAccounts(w, ok, p, over);
    }
  }

  lemma LiveAccounts(w: World, s: Stream, at: Spot, ok: bool, p: Provided)
    requires Accounted(w) && w.worker == Live(s, at) && (at.Ending? ==> L.Terminal(w.book, s.u.id))
    requires var b := Streaming(w, s, at, ok, p); L.Follows(w.book, b.book) && Known(b)
    ensures Accounted(Streaming(w, s, at, ok, p))
  {
    hide L.Follows, L.Apply, L.Terminal, L.Crossed, Accounted, Tracks, Ids, Streaming;
    var b := Streaming(w, s, at, ok, p);
    var ks := if at.Ending? then {s.u.id} else {};
    StreamingTracks(w, s, at, ok, p);
    WorkerTracks(w, b, ks);
    AccountedStays(w, b, ks);
  }

  lemma RestAccounts(w: World, ok: bool, p: Provided, over: bool)
    requires Accounted(w) && Known(w) && WorkerKnown(w) && !w.worker.Live?
    requires var b := Working(w, ok, p, over); L.Follows(w.book, b.book) && Known(b)
    ensures Accounted(Working(w, ok, p, over))
  {
    hide L.Follows, L.Apply, L.Terminal, L.Crossed, Accounted, Tracks, Ids, Streaming;
    var b := Working(w, ok, p, over);
    if w.worker.Dropping? || w.worker.Discarding? {
      DropAccounts(w, ok, p, over);
    } else if w.worker.Starting? {
      StartAccounts(w, b, w.worker.u);
    } else if |b.plan.queue| != |w.plan.queue| {
      TakeAccounts(w, b);
    } else {
      WorkerTracks(w, b, {});
      AccountedStays(w, b, {});
    }
  }

  lemma StartAccounts(w: World, b: World, u: Utterance)
    requires Accounted(w) && w.worker == Starting(u) && Known(b) && Spoke(b.worker) == {u.id}
    requires b.place == w.place[u.id := Speaking] && b.book == w.book && b.threads == w.threads
    requires b.plan.queue == w.plan.queue
    ensures Accounted(b)
  {
    hide L.Follows, L.Terminal, L.Crossed, Accounted, Tracks, Ids;
    L.FollowsReflexive(w.book);
    WorkerTracks(w, b, {u.id});
    AccountedStays(w, b, {u.id});
  }

  lemma TakeAccounts(w: World, b: World)
    requires Accounted(w) && w.plan.queue != [] && Known(b) && b.plan.queue == w.plan.queue[1..]
    requires Carried(w.worker) == Spoke(w.worker) == {} && Carried(b.worker) == {w.plan.queue[0].u.id}
    requires b.place == w.place[w.plan.queue[0].u.id := AtWorker] && b.book == w.book && b.threads == w.threads
    ensures Accounted(b)
  {
    hide L.Follows, L.Terminal, L.Crossed, Accounted, Tracks, Ids;
    var ks := {w.plan.queue[0].u.id};
    L.FollowsReflexive(w.book);
    QueueGrows(w.plan.queue, w.plan.queue);
    WorkerTracks(w, b, ks);
    AccountedStays(w, b, ks);
  }

  lemma DropAccounts(w: World, ok: bool, p: Provided, over: bool)
    requires Accounted(w) && Known(w) && WorkerKnown(w) && (w.worker.Dropping? || w.worker.Discarding?)
    requires var b := Working(w, ok, p, over); L.Follows(w.book, b.book) && Known(b)
    ensures Accounted(Working(w, ok, p, over))
  {
    hide L.Follows, L.Apply, L.Terminal, L.Crossed, Accounted, Tracks, Ids, Streaming;
    var b := Working(w, ok, p, over);
    if w.worker.Dropping? {
      L.CancelEnds(w.book, w.worker.u.id, "superseded before emission");
    } else {
      L.CancelEnds(w.book, w.worker.u.id, "session ended");
    }
    WorkerTracks(w, b, Carried(w.worker));
    AccountedStays(w, b, Carried(w.worker));
  }

  ghost predicate WorkerKnown(w: World) { forall id :: id in Carried(w.worker) ==> id in w.book.commitments }

  lemma SafeKnows(w: World)
    requires Safe(w)
    ensures Known(w) && WorkerKnown(w)
    ensures forall t :: t in w.threads && w.threads[t].Enqueuing? && Holding(w.threads[t].step) ==>
      Is(w.place, w.threads[t].u.id, Sender(t))
  {
    hide L.Sound, Bound, Conserved, AllAt, BeganPlaced;
    forall t | t in w.threads && w.threads[t].Enqueuing? && Holding(w.threads[t].step)
      ensures Is(w.place, w.threads[t].u.id, Sender(t))
    {
      assert ThreadPlaced(w.place, t, w.threads[t]);
    }
  }

  lemma AccountedStep(w: World, e: Event)
    requires Safe(w) && Closed(w) && Accounted(w)
    ensures Accounted(Next(w, e))
  {
    hide Safe, L.Follows, L.Apply, L.Terminal, Accounted, Entering, Ceasing, Working, Speakable, Known, WorkerKnown;
    var b := Next(w, e);
    SafeKnows(w);
    NextKeeps(w, e);
    SafeKnows(b);
    if e.Advance? && e.t in w.threads {
      if w.threads[e.t].Enqueuing? {
        EnteringAccounts(w, e.t, e.ok);
      } else {
        CeasingAccounts(w, e.t);
      }
    } else if e.Work? {
      WorkingAccounts(w, e.ok, e.provided, e.over);
    } else {
      NewThreadAccounts(w, e);
    }
  }

  lemma CeasingAccounts(w: World, t: nat)
    requires Accounted(w) && Known(w) && t in w.threads && w.threads[t].Cancelling?
    requires var b := Ceasing(w, t, w.threads[t]); L.Follows(w.book, b.book) && Known(b)
    ensures Accounted(Ceasing(w, t, w.threads[t]))
  {
    hide L.Follows, Accounted, DrainStep, ReturnStep, StopStep, Known;
    if w.threads[t].stop.Draining? {
      DrainAccounts(w, t);
    } else if w.threads[t].stop.Returning? {
      ReturnAccounts(w, t);
    } else {
      StopAccounts(w, t);
    }
  }

  lemma NewThreadAccounts(w: World, e: Event)
    requires Accounted(w) && !e.Work? && (e.Advance? ==> e.t !in w.threads)
    requires L.Follows(w.book, Next(w, e).book) && Known(Next(w, e))
    ensures Accounted(Next(w, e))
  {
    hide L.Follows, L.Apply, L.Terminal, Accounted, Speakable, Ids, Carried, Spoke;
    AccountedStays(w, Next(w, e), {});
  }

  lemma {:induction false} RunAccounts(w: World, events: seq<Event>)
    requires Safe(w) && Closed(w) && Accounted(w)
    ensures Accounted(Run(w, events))
    decreases |events|
  {
    hide Safe, Next, Closed, Accounted;
    if events != [] {
      AccountedStep(w, events[0]);
      ClosedStep(w, events[0]);
      NextKeeps(w, events[0]);
      RunAccounts(Next(w, events[0]), events[1..]);
    }
  }

  /** No utterance the planner committed is dropped behind the ledger's back: once nobody has it in hand,
      its commitment has ended, unless a full queue lost it or another client had moved it before `Queue`. */
  lemma DroppedIsEnded(depth: nat, frameMS: nat, events: seq<Event>, id: string)
    ensures var w := Run(Initial(depth, frameMS), events);
      id in w.place && LetGo(w, id) ==>
        || L.Terminal(w.book, id) || Is(w.place, id, Lost)
        || (Is(w.place, id, Refused) && L.Crossed(w.book, id))
  {
    hide Run, Safe, L.Terminal, L.Crossed;
    InitialIsSafe(depth, frameMS);
    RunAccounts(Initial(depth, frameMS), events);
    var w := Run(Initial(depth, frameMS), events);
    if id in w.place { assert Found(w, id, w.place[id]); }
  }

  /** An utterance becomes lost only when a cancellation puts it back into a full queue, and refused only
      when the ledger will not queue what its own `Enqueue` has just prepared. */
  lemma GivenUpWhen(w: World, e: Event, id: string)
    requires Safe(w)
    ensures Is(Next(w, e).place, id, Lost) && !Is(w.place, id, Lost) ==>
      && e.Advance? && e.t in w.threads && w.threads[e.t].Cancelling? && w.threads[e.t].stop.Returning?
      && w.threads[e.t].keep != [] && w.threads[e.t].keep[0].u.id == id && |w.plan.queue| == w.plan.depth
    ensures Is(Next(w, e).place, id, Refused) && !Is(w.place, id, Refused) ==>
      && e.Advance? && e.t in w.threads && w.threads[e.t].Enqueuing? && w.threads[e.t].step.Lining?
      && w.threads[e.t].u.id == id && L.TransitionError(w.book, id, L.Queued).Some?
  {
    hide L.Sound, Bound, Conserved, AllAt, L.Apply, L.Refusal, L.TransitionError, L.Crossed, L.Terminal, Speakable;
    hide BeganPlaced, ThreadPlaced, WorkerPlaced, Working, Matches;
    if e.Work? { WorkGivesUpNothing(w, e, id); }
  }

  lemma WorkGivesUpNothing(w: World, e: Event, id: string)
    requires e.Work?
    ensures var b := Working(w, e.ok, e.provided, e.over);
      && (Is(b.place, id, Lost) ==> Is(w.place, id, Lost)) && (Is(b.place, id, Refused) ==> Is(w.place, id, Refused))
  {
    hide L.Apply, Streaming;
    if w.worker.Live? { StreamingTracks(w, w.worker.s, w.worker.at, e.ok, e.provided); }
  }

  /** The exception is real: for every utterance, a client that emits it between `Prepare` and `Queue`
      leaves it neither spoken nor ended. */
  lemma EmittedElsewhereStaysOpen(depth: nat, frameMS: nat, u: Utterance)
    requires Sayable(Initial(depth, frameMS), u)
    ensures var w := Run(Initial(depth, frameMS), MovedEarly(u));
      Is(w.place, u.id, Refused) && LetGo(w, u.id) && L.Crossed(w.book, u.id) && !L.Terminal(w.book, u.id)
  {
    hide Run, Speakable, Entering, Text.TrimSpace;
    var start, es := Initial(depth, frameMS), MovedEarly(u);
    RunSnoc(start, es[..3], es[3]);
    ThreeSteps(start, es[..3]);
    assert es == es[..3] + [es[3]];
    var one := Next(start, es[0]);
    EmittedBetween(one, 0, u);
    Declines(Next(Next(one, es[1]), es[2]), 0, u);
  }

  function MovedEarly(u: Utterance): seq<Event> {
    [Enqueue(0, u, "voice"), Advance(0, true), Elsewhere(L.Emit(u.id)), Advance(0, true)]
  }

  lemma EmittedBetween(w: World, t: nat, u: Utterance)
    requires t in w.threads && w.threads[t] == Enqueuing(u, "voice", Preparing) && Sayable(w, u)
    ensures var b := Next(Next(w, Advance(t, true)), Elsewhere(L.Emit(u.id)));
      && b.plan == w.plan && b.worker == w.worker && b.threads == w.threads[t := Enqueuing(u, "voice", Lining)]
      && StageIs(b, u.id, L.Emitting)
  {
    hide Text.TrimSpace, Speakable;
  }

  lemma Declines(w: World, t: nat, u: Utterance)
    requires t in w.threads && w.threads[t] == Enqueuing(u, "voice", Lining) && StageIs(w, u.id, L.Emitting)
    ensures Next(w, Advance(t, true)) ==
      w.(place := w.place[u.id := Refused], threads := w.threads[t := Enqueuing(u, "voice", Enqueued(false))])
  {
  }
}
