/** Speech planning and pacing through the commit boundary, as a protocol.

    The worker, every `Enqueue` and every `Cancel` are cut at each lock, channel operation, ledger call
    and call out of the process. A sequence of events is an interleaving of all of them with every
    other user of the ledger; a cancelled context, a refusing sink and a failing provider are answers
    given from outside, so they can come at any point. */
module SpeechPlan {
  import opened Prelude
  import opened Ledgers
  import Text = AnnotationFilter

  datatype Utterance = Utterance(id: string, text: string, items: seq<string>, revision: nat, phase: string)

  datatype Entry = Entry(u: Utterance, epoch: nat)

  type Bytes = seq<nat>

  /** One frame given to the sink, and whether the sink took it. */
  datatype Frame = Frame(id: string, payload: Bytes, final: bool, taken: bool)

  /** The local variables of one utterance's emission. `accepted` is everything the provider
      synthesised and `from` where its frames begin; neither is read by the code. */
  datatype Stream = Stream(u: Utterance, rate: nat, frameBytes: nat, buffer: Bytes, playedMS: nat,
                           accepted: Bytes, from: nat)

  datatype Spot =
    | Opening                    // before Sink.Begin
    | Pulling                    // the provider is running
    | Cutting                    // inside the callback, at the head of the frame loop
    | Waiting(final: bool)       // before the pacing wait
    | Crossing(final: bool)      // before Ledger.Emit
    | Handing(final: bool)       // before the playback report
    | Sending(final: bool)       // before Sink.Audio
    | Closing                    // the provider has returned without an error
    | Settling(completed: bool)  // before the ledger learns the outcome
    | Ending(completed: bool)    // before Sink.End

  datatype Worker =
    | Idle
    | Picked(e: Entry)           // taken from the queue, epoch not yet checked
    | Dropping(u: Utterance)     // found stale, before Ledger.Cancel
    | Starting(u: Utterance)     // before it becomes the active utterance
    | Live(s: Stream, at: Spot)
    | Sweeping                   // the session has ended
    | Discarding(u: Utterance)
    | Halted

  datatype Thread =
    | Enqueuing(u: Utterance, authority: string, step: Step)
    | Cancelling(reason: string, pick: Option<set<string>>, stop: Stop, keep: seq<Entry>)

  datatype Step =
    | Preparing | Lining | Checking | Reserving(epoch: nat) | Pushing(epoch: nat) | Backing | Enqueued(ok: bool)

  datatype Stop =
    | Reading
    | Looking(id: string, first: bool)
    | Stopping(id: string, first: bool)
    | Relooking(id: string, first: bool)
    | Hearing(id: string)
    | Draining
    | Returning
    | Stopped

  datatype Ended = Ended(u: Utterance, from: nat, to: nat, rate: nat, accepted: Bytes, residual: Bytes, playedMS: nat,
      completed: bool)

  /** Where an utterance that entered the ledger is. */
  datatype Place = Sender(t: nat) | InQueue | Kept(t: nat) | AtWorker | Speaking | Spoken
    | Discarded | Refused | Lost

  /** The planner's own fields. */
  datatype Plan = Plan(depth: nat, frameMS: nat, queue: seq<Entry>, epoch: nat, active: Option<Utterance>, closed: bool)

  /** What has happened: frames given to the sink, emissions over, identities returned as cancelled
      and as heard, and emissions begun. */
  datatype Log = Log(frames: seq<Frame>, ended: seq<Ended>, reported: seq<string>, heard: seq<string>,
      began: seq<string>)

  datatype World = World(
    book: Book, plan: Plan, worker: Worker, threads: map<nat, Thread>, log: Log, place: map<string, Place>)

  function Initial(depth: nat, frameMS: nat): World {
    World(EMPTY, Plan(depth, frameMS, [], 0, None, false), Idle, map[], Log([], [], [], [], []), map[])
  }

  /** What the provider does next when it is given control. */
  datatype Provided = Chunk(rate: nat, bytes: Bytes) | Finished | Broken

  datatype Event =
    | Enqueue(t: nat, u: Utterance, authority: string)
    | Cancel(t: nat, reason: string, pick: Option<set<string>>)
    | Shut
    | Advance(t: nat, ok: bool)
    | Work(ok: bool, provided: Provided, over: bool)
    | Elsewhere(op: Op)

  // ---- Enqueue -----------------------------------------------------------------------------

  function Draft(u: Utterance, authority: string): Commitment {
    Commitment(u.id, Kind.Speech, u.items, "", u.revision, u.phase, authority, Never, Prepared, 0, "")
  }

  predicate Speakable(u: Utterance, authority: string) {
    u.id != "" && Text.TrimSpace(u.text) != "" && authority != "silent"
  }

  function SetThread(w: World, t: nat, x: Thread): World { w.(threads := w.threads[t := x]) }

  function Put(w: World, id: string, p: Place): World { w.(place := w.place[id := p]) }

  function Take(w: World): World
    requires w.plan.queue != []
  {
    w.(plan := w.plan.(queue := w.plan.queue[1..]))
  }

  function Fill(w: World, e: Entry): World { w.(plan := w.plan.(queue := w.plan.queue + [e])) }

  function Tell(w: World, op: Op): World { w.(book := Apply(w.book, op)) }

  function Entering(w: World, t: nat, x: Thread, ok: bool): World
    requires x.Enqueuing?
  {
    var id := x.u.id;
    match x.step
    case Preparing =>
      if Refusal(w.book, Draft(x.u, x.authority)).Some? then SetThread(w, t, x.(step := Enqueued(false)))
      else SetThread(Put(Tell(w, Prepare(Draft(x.u, x.authority))), id, Sender(t)), t, x.(step := Lining))
    case Lining =>
      var next := Tell(w, Queue(id));
      if TransitionError(w.book, id, Queued).Some?
        then SetThread(Put(next, id, Refused), t, x.(step := Enqueued(false)))
      else SetThread(next, t, x.(step := Checking))
    case Checking => SetThread(w, t, x.(step := if w.plan.closed then Backing else Reserving(w.plan.epoch)))
    case Reserving(epoch) => SetThread(w, t, x.(step := if ok then Pushing(epoch) else Backing))
    case Pushing(epoch) =>
      if |w.plan.queue| < w.plan.depth then
        SetThread(Put(Fill(w, Entry(x.u, epoch)), id, InQueue), t, x.(step := Enqueued(true)))
      else SetThread(w, t, x.(step := Backing))
    case Backing =>
      SetThread(Put(Tell(w, Op.Cancel(id, "refused")), id, Discarded), t, x.(step := Enqueued(false)))
    case Enqueued(_) => w
  }

  // ---- Cancel and CancelMatching -----------------------------------------------------------

  predicate Matches(pick: Option<set<string>>, id: string) { pick.Some? ==> id in pick.value }

  function AfterStop(w: World, t: nat, x: Thread, id: string, first: bool, crossed: bool): World
    requires x.Cancelling?
  {
    SetThread(w, t, x.(stop := if first && crossed then Hearing(id) else Draining))
  }

  /** `stop` is three ledger calls, with anything at all in between. */
  function StopStep(w: World, t: nat, x: Thread): World
    requires x.Cancelling?
  {
    match x.stop
    case Looking(id, first) =>
      if id !in w.book.commitments || Terminal(w.book, id) then AfterStop(w, t, x, id, first, Crossed(w.book, id))
      else SetThread(w, t, x.(stop := Stopping(id, first)))
    case Stopping(id, first) =>
      var next := Tell(w, Op.Cancel(id, x.reason));
      if id !in w.book.commitments || Crossed(w.book, id) then AfterStop(next, t, x, id, first, Crossed(w.book, id))
      else SetThread(next, t, x.(stop := Relooking(id, first)))
    case Relooking(id, first) => AfterStop(w.(log := w.log.(reported := w.log.reported + [id])), t, x, id, first, false)
    case Hearing(id) => SetThread(w.(log := w.log.(heard := w.log.heard + [id])), t, x.(stop := Draining))
    case _ => w
  }

  function DrainStep(w: World, t: nat, x: Thread): World
    requires x.Cancelling?
  {
    if w.plan.queue == [] then SetThread(w, t, x.(stop := if x.pick.Some? then Returning else Stopped))
    else
      var e := w.plan.queue[0];
      var next := Take(w);
      if Matches(x.pick, e.u.id) then
        SetThread(Put(next, e.u.id, Discarded), t, x.(stop := Looking(e.u.id, false)))
      else SetThread(Put(next, e.u.id, Kept(t)), t, x.(keep := x.keep + [e]))
  }

  function ReturnStep(w: World, t: nat, x: Thread): World
    requires x.Cancelling?
  {
    if x.keep == [] then SetThread(w, t, x.(stop := Stopped))
    else
      var e := x.keep[0];
      var y := x.(keep := x.keep[1..]);
      if |w.plan.queue| < w.plan.depth then SetThread(Put(Fill(w, e), e.u.id, InQueue), t, y)
      else SetThread(Put(w, e.u.id, Lost), t, y)
  }

  function Ceasing(w: World, t: nat, x: Thread): World
    requires x.Cancelling?
  {
    match x.stop
    case Reading =>
      var next := if x.pick.None? then w.(plan := w.plan.(epoch := w.plan.epoch + 1)) else w;
      if w.plan.active.Some? && Matches(x.pick, w.plan.active.value.id) then
        SetThread(next, t, x.(stop := Looking(w.plan.active.value.id, true)))
      else SetThread(next, t, x.(stop := Draining))
    case Draining => DrainStep(w, t, x)
    case Returning => ReturnStep(w, t, x)
    case _ => StopStep(w, t, x)
  }

  // ---- The worker --------------------------------------------------------------------------

  function FrameBytes(rate: nat, frameMS: nat): nat { rate * frameMS / 1000 * 2 }

  /** Whole milliseconds of a PCM16 payload. */
  function Milliseconds(bytes: nat, rate: nat): nat {
    if rate == 0 then 0 else bytes / 2 * 1_000_000_000 / rate / 1_000_000
  }

  function Over(s: Stream, to: nat, completed: bool): Ended {
    Ended(s.u, s.from, to, s.rate, s.accepted, s.buffer, s.playedMS, completed)
  }

  function At(w: World, s: Stream, at: Spot): World { w.(worker := Live(s, at)) }

  /** An error inside the callback goes back to the provider; one from the last frame ends the stream. */
  function Stumble(final: bool): Spot { if final then Settling(false) else Pulling }

  function Payload(s: Stream, final: bool): Bytes
    requires !final ==> s.frameBytes <= |s.buffer|
  {
    if final then s.buffer else s.buffer[..s.frameBytes]
  }

  function Callback(w: World, s: Stream, rate: nat, bytes: Bytes): World {
    if s.rate == 0 && rate == 0 then At(w, s, Pulling)
    else
      var r := if s.rate == 0 then s.(rate := rate, frameBytes := FrameBytes(rate, w.plan.frameMS)) else s;
      if s.rate == 0 && r.frameBytes == 0 then At(w, r, Pulling)
      else if rate != r.rate then At(w, r, Pulling)
      else At(w, r.(buffer := r.buffer + bytes, accepted := r.accepted + bytes), Cutting)
  }

  function Send(w: World, s: Stream, final: bool, ok: bool): World
    requires !final ==> s.frameBytes <= |s.buffer|
  {
    var payload := Payload(s, final);
    var next := w.(log := w.log.(frames := w.log.frames + [Frame(s.u.id, payload, final, ok)]));
    if !ok then At(next, s, Stumble(final))
    else
      At(next, s.(buffer := s.buffer[|payload|..], playedMS := s.playedMS + Milliseconds(|payload|, s.rate)),
         if final then Settling(true) else Cutting)
  }

  function Streaming(w: World, s: Stream, at: Spot, ok: bool, p: Provided): World {
    match at
    case Opening => At(w, s, if ok then Pulling else Settling(false))
    case Pulling =>
      (match p
       case Chunk(rate, bytes) => Callback(w, s, rate, bytes)
       case Finished => At(w, s, Closing)
       case Broken => At(w, s, Settling(false)))
    case Cutting =>
      if |s.buffer| < s.frameBytes then At(w, s, Pulling)
      else if s.frameBytes == 0 then w
      else At(w, s, Waiting(false))
    case Waiting(final) => At(w, s, if ok then Crossing(final) else Stumble(final))
    case Crossing(final) =>
      At(Tell(w, Emit(s.u.id)), s,
         if TransitionError(w.book, s.u.id, Stage.Emitting).None? then Handing(final) else Stumble(final))
    case Handing(final) => At(w, s, if ok then Sending(final) else Stumble(final))
    case Sending(final) => if !final && |s.buffer| < s.frameBytes then w else Send(w, s, final, ok)
    case Closing =>
      At(w, s, if !ok || s.rate == 0 then Settling(false) else if s.buffer == [] then Settling(true) else Waiting(true))
    case Settling(completed) =>
      At(Tell(w, if s.playedMS > 0 then Complete(s.u.id, s.playedMS)
                 else if !completed then Op.Cancel(s.u.id, "stopped") else Complete(s.u.id, 0)),
         s, Ending(completed))
    case Ending(completed) =>
      Put(w.(worker := Idle, plan := w.plan.(active := None),
             log := w.log.(ended := w.log.ended + [Over(s, |w.log.frames|, completed)])),
          s.u.id, Spoken)
  }

  function Working(w: World, ok: bool, p: Provided, over: bool): World {
    match w.worker
    case Idle =>
      if over then w.(worker := Sweeping)
      else if w.plan.queue == [] then w
      else Put(Take(w).(worker := Picked(w.plan.queue[0])), w.plan.queue[0].u.id, AtWorker)
    case Picked(e) => w.(worker := if e.epoch != w.plan.epoch then Dropping(e.u) else Starting(e.u))
    case Dropping(u) => Put(Tell(w, Op.Cancel(u.id, "superseded before emission")).(worker := Idle), u.id, Discarded)
    case Starting(u) =>
      Put(w.(plan := w.plan.(active := Some(u)), log := w.log.(began := w.log.began + [u.id]),
             worker := Live(Stream(u, 0, 0, [], 0, [], |w.log.frames|), Opening)), u.id, Speaking)
    case Live(s, at) => Streaming(w, s, at, ok, p)
    case Sweeping =>
      if w.plan.queue == [] then w.(worker := Halted)
      else Put(Take(w).(worker := Discarding(w.plan.queue[0].u)), w.plan.queue[0].u.id, AtWorker)
    case Discarding(u) => Put(Tell(w, Op.Cancel(u.id, "session ended")).(worker := Sweeping), u.id, Discarded)
    case Halted => w
  }

  function Next(w: World, e: Event): World {
    match e
    case Enqueue(t, u, authority) =>
      if t in w.threads || !Speakable(u, authority) then w
      else SetThread(w, t, Enqueuing(u, authority, Preparing))
    case Cancel(t, reason, pick) =>
      if t in w.threads then w else SetThread(w, t, Cancelling(reason, pick, Reading, []))
    case Shut => w.(plan := w.plan.(closed := true))
    case Advance(t, ok) =>
      if t !in w.threads then w
      else if w.threads[t].Enqueuing? then Entering(w, t, w.threads[t], ok)
      else Ceasing(w, t, w.threads[t])
    case Work(ok, p, over) => Working(w, ok, p, over)
    case Elsewhere(op) => Tell(w, op)
  }

  function Run(w: World, events: seq<Event>): World
    decreases |events|
  {
    if events == [] then w else Run(Next(w, events[0]), events[1..])
  }

  // ---- The boundary: what was reported stopped, and what was sent --------------------------

  predicate CancelledIn(b: Book, id: string) { id in b.commitments && b.commitments[id].stage.Cancelled? }

  ghost predicate ThreadBound(b: Book, x: Thread) {
    x.Cancelling? ==>
      && (x.stop.Relooking? ==> CancelledIn(b, x.stop.id))
      && (x.stop.Hearing? ==> Crossed(b, x.stop.id))
  }

  ghost predicate WorkerBound(b: Book, k: Worker) {
    k.Live? && (k.at.Handing? || k.at.Sending?) ==> Crossed(b, k.s.u.id)
  }

  ghost predicate Bound(w: World) {
    && (forall i :: 0 <= i < |w.log.frames| ==> Crossed(w.book, w.log.frames[i].id))
    && (forall i :: 0 <= i < |w.log.reported| ==> CancelledIn(w.book, w.log.reported[i]))
    && (forall i :: 0 <= i < |w.log.heard| ==> Crossed(w.book, w.log.heard[i]))
    && (forall t :: t in w.threads ==> ThreadBound(w.book, w.threads[t]))
    && WorkerBound(w.book, w.worker)
  }

  lemma FollowsKeeps(a: Book, b: Book, id: string)
    requires Follows(a, b)
    ensures Crossed(a, id) ==> Crossed(b, id)
    ensures CancelledIn(a, id) ==> CancelledIn(b, id)
    ensures id in a.commitments ==> id in b.commitments
  {
  }

  /** One event adds at most one frame, one report and one hearing, and moves one thread or the worker. */
  ghost predicate Bounded(a: World, b: World) {
    && Follows(a.book, b.book)
    && (b.log.frames == a.log.frames
        || (&& |b.log.frames| == |a.log.frames| + 1 && b.log.frames[..|a.log.frames|] == a.log.frames
            && Crossed(b.book, b.log.frames[|a.log.frames|].id)))
    && (b.log.reported == a.log.reported
        || (&& |b.log.reported| == |a.log.reported| + 1 && b.log.reported[..|a.log.reported|] == a.log.reported
            && CancelledIn(b.book, b.log.reported[|a.log.reported|])))
    && (b.log.heard == a.log.heard || (|b.log.heard| == |a.log.heard| + 1 && b.log.heard[..|a.log.heard|] == a.log.heard
                               && Crossed(b.book, b.log.heard[|a.log.heard|])))
    && (forall t :: t in b.threads && !(t in a.threads && b.threads[t] == a.threads[t]) ==>
      ThreadBound(b.book, b.threads[t]))
    && (b.worker == a.worker || WorkerBound(b.book, b.worker))
  }

  lemma BoundStays(a: World, b: World)
    requires Bound(a) && Bounded(a, b)
    ensures Bound(b)
  {
    hide Follows, Crossed, CancelledIn;
    forall i | 0 <= i < |b.log.frames| ensures Crossed(b.book, b.log.frames[i].id) {
      if i < |a.log.frames| {
        assert b.log.frames[i] == a.log.frames[i];
        FollowsKeeps(a.book, b.book, a.log.frames[i].id);
      }
    }
    forall i | 0 <= i < |b.log.reported| ensures CancelledIn(b.book, b.log.reported[i]) {
      if i < |a.log.reported| {
        assert b.log.reported[i] == a.log.reported[i];
        FollowsKeeps(a.book, b.book, a.log.reported[i]);
      }
    }
    forall i | 0 <= i < |b.log.heard| ensures Crossed(b.book, b.log.heard[i]) {
      if i < |a.log.heard| {
        assert b.log.heard[i] == a.log.heard[i];
        FollowsKeeps(a.book, b.book, a.log.heard[i]);
      }
    }
    forall t | t in b.threads ensures ThreadBound(b.book, b.threads[t]) {
      if t in a.threads && b.threads[t] == a.threads[t] && a.threads[t].Cancelling?
         && (a.threads[t].stop.Relooking? || a.threads[t].stop.Hearing?) {
        FollowsKeeps(a.book, b.book, a.threads[t].stop.id);
      }
    }
    if b.worker == a.worker && a.worker.Live? { FollowsKeeps(a.book, b.book, a.worker.s.u.id); }
  }

  lemma TellFollows(w: World, op: Op)
    requires Sound(w.book)
    ensures Sound(Tell(w, op).book) && Follows(w.book, Tell(w, op).book)
  {
    hide Sound, Follows, Apply;
    ApplyKeeps(w.book, op);
    ApplyFollows(w.book, op);
  }

  lemma ThreadMoves(a: World, b: World, t: nat, x: Thread)
    requires b.threads == a.threads[t := x] && ThreadBound(b.book, x) && Follows(a.book, b.book)
    requires b.log.frames == a.log.frames && b.worker == a.worker
    requires || b.log.reported == a.log.reported
             || (exists id :: b.log.reported == a.log.reported + [id] && CancelledIn(b.book, id))
    requires b.log.heard == a.log.heard || (exists id :: b.log.heard == a.log.heard + [id] && Crossed(b.book, id))
    ensures Bounded(a, b)
  {
    hide Follows, Crossed, CancelledIn;
  }

  lemma WorkerMoves(a: World, b: World)
    requires b.threads == a.threads && b.log.reported == a.log.reported && b.log.heard == a.log.heard
    requires Follows(a.book, b.book) && WorkerBound(b.book, b.worker)
    requires b.log.frames == a.log.frames || (exists f :: b.log.frames == a.log.frames + [f] && Crossed(b.book, f.id))
    ensures Bounded(a, b)
  {
    hide Follows, Crossed, CancelledIn;
  }

  lemma EnteringBounded(w: World, t: nat, ok: bool)
    requires Sound(w.book) && t in w.threads && w.threads[t].Enqueuing?
    ensures var b := Entering(w, t, w.threads[t], ok); Sound(b.book) && Bounded(w, b)
  {
    hide Sound, Bounded, Follows, Apply, Refusal, TransitionError, Crossed, CancelledIn, Draft;
    var x := w.threads[t];
    var b := Entering(w, t, x, ok);
    FollowsReflexive(w.book);
    TellFollows(w, Prepare(Draft(x.u, x.authority)));
    TellFollows(w, Queue(x.u.id));
    TellFollows(w, Op.Cancel(x.u.id, "refused"));
    assert x.step.Enqueued? ==> b.threads == w.threads[t := x];
    ThreadMoves(w, b, t, b.threads[t]);
  }

  /** A cancellation that finds nothing crossed leaves the commitment cancelled. */
  lemma StopCancels(b: Book, id: string, reason: string)
    ensures id in b.commitments && !Crossed(b, id) ==> CancelledIn(Apply(b, Op.Cancel(id, reason)), id)
    ensures Crossed(b, id) ==> Crossed(Apply(b, Op.Cancel(id, reason)), id)
  {
  }

  lemma StopStepBounded(w: World, t: nat)
    requires Sound(w.book) && Bound(w) && t in w.threads && w.threads[t].Cancelling?
    ensures var b := StopStep(w, t, w.threads[t]); Sound(b.book) && Bounded(w, b)
  {
    hide Sound, Bounded, Follows, Apply, Crossed, CancelledIn, Terminal;
    var x := w.threads[t];
    var b := StopStep(w, t, x);
    assert ThreadBound(w.book, x);
    FollowsReflexive(w.book);
    if x.stop.Stopping? {
      StopCancels(w.book, x.stop.id, x.reason);
      TellFollows(w, Op.Cancel(x.stop.id, x.reason));
    }
    ThreadMoves(w, b, t, b.threads[t]);
  }

  lemma CeasingBounded(w: World, t: nat)
    requires Sound(w.book) && Bound(w) && t in w.threads && w.threads[t].Cancelling?
    ensures var b := Ceasing(w, t, w.threads[t]); Sound(b.book) && Bounded(w, b)
  {
    hide Sound, Bound, Bounded, Follows, Apply, StopStep, Matches, Crossed, CancelledIn;
    var x := w.threads[t];
    var b := Ceasing(w, t, x);
    FollowsReflexive(w.book);
    if x.stop.Reading? || x.stop.Draining? || x.stop.Returning? {
      ThreadMoves(w, b, t, b.threads[t]);
    } else {
      StopStepBounded(w, t);
    }
  }

  lemma StreamingBounded(w: World, s: Stream, at: Spot, ok: bool, p: Provided)
    requires Sound(w.book) && Bound(w) && w.worker == Live(s, at)
    ensures var b := Streaming(w, s, at, ok, p); Sound(b.book) && Bounded(w, b)
  {
    hide Sound, Bounded, Follows, Apply, Crossed, CancelledIn, TransitionError, FrameBytes, Milliseconds;
    FollowsReflexive(w.book);
    if at.Crossing? {
      EmitCrosses(w.book, s.u.id);
      TellFollows(w, Emit(s.u.id));
    }
    TellFollows(w, Complete(s.u.id, s.playedMS));
    TellFollows(w, Complete(s.u.id, 0));
    TellFollows(w, Op.Cancel(s.u.id, "stopped"));
    WorkerMoves(w, Streaming(w, s, at, ok, p));
  }

  lemma WorkingBounded(w: World, ok: bool, p: Provided, over: bool)
    requires Sound(w.book) && Bound(w)
    ensures var b := Working(w, ok, p, over); Sound(b.book) && Bounded(w, b)
  {
    hide Sound, Bounded, Follows, Apply, Crossed, CancelledIn, Streaming;
    var b := Working(w, ok, p, over);
    FollowsReflexive(w.book);
    if w.worker.Live? {
      StreamingBounded(w, w.worker.s, w.worker.at, ok, p);
    } else {
      if w.worker.Dropping? { TellFollows(w, Op.Cancel(w.worker.u.id, "superseded before emission")); }
      if w.worker.Discarding? { TellFollows(w, Op.Cancel(w.worker.u.id, "session ended")); }
      WorkerMoves(w, b);
    }
  }

  lemma NextBounded(w: World, e: Event)
    requires Sound(w.book) && Bound(w)
    ensures Sound(Next(w, e).book) && Bounded(w, Next(w, e))
  {
    hide Sound, Follows, Apply, Crossed, CancelledIn, Entering, Ceasing, Working, Speakable;
    FollowsReflexive(w.book);
    match e
    case Advance(t, ok) =>
      if t in w.threads {
        if w.threads[t].Enqueuing? { EnteringBounded(w, t, ok); } else { CeasingBounded(w, t); }
      }
    case Work(ok, p, over) => WorkingBounded(w, ok, p, over);
    case Elsewhere(op) => TellFollows(w, op);
    case _ =>
  }

  // ---- The audio: what was synthesised, sent and left over ---------------------------------

  /** The audio the sink took. */
  ghost function Joined(fs: seq<Frame>): Bytes {
    if fs == [] then []
    else
      var f := fs[|fs| - 1];
      Joined(fs[..|fs| - 1]) + if f.taken then f.payload else []
  }

  ghost function PlayedIn(fs: seq<Frame>, rate: nat): nat {
    if fs == [] then 0
    else
      var f := fs[|fs| - 1];
      PlayedIn(fs[..|fs| - 1], rate) + if f.taken then Milliseconds(|f.payload|, rate) else 0
  }

  lemma JoinedSnoc(fs: seq<Frame>, f: Frame, rate: nat)
    ensures Joined(fs + [f]) == Joined(fs) + if f.taken then f.payload else []
    ensures PlayedIn(fs + [f], rate) == PlayedIn(fs, rate) + if f.taken then Milliseconds(|f.payload|, rate) else 0
  {
    hide Milliseconds;
    assert (fs + [f])[..|fs|] == fs;
  }

  /** A full frame, or the last piece of the utterance. */
  predicate WellCut(f: Frame, id: string, frameBytes: nat) {
    f.id == id && 0 < |f.payload| && (!f.final ==> |f.payload| == frameBytes)
  }

  ghost predicate SpotFits(s: Stream, at: Spot) {
    && (at.Waiting? || at.Crossing? || at.Handing? || at.Sending? ==>
          if at.final then s.buffer != [] else 0 < s.frameBytes <= |s.buffer|)
    && ((at.Settling? || at.Ending?) && at.completed ==> s.buffer == [] && s.rate > 0)
  }

  /** Audio taken by the sink, then the audio still held, is the audio synthesised. */
  ghost predicate Accounted(fs: seq<Frame>, frameMS: nat, s: Stream) {
    && Joined(fs) + s.buffer == s.accepted
    && s.playedMS == PlayedIn(fs, s.rate)
    && s.frameBytes == (if s.rate == 0 then 0 else FrameBytes(s.rate, frameMS))
    && (s.rate == 0 ==> fs == [] && s.accepted == [])
    && (forall i :: 0 <= i < |fs| ==> WellCut(fs[i], s.u.id, s.frameBytes))
  }

  ghost predicate WorkerHolds(frames: seq<Frame>, frameMS: nat, k: Worker) {
    k.Live? ==> k.s.from <= |frames| && Accounted(frames[k.s.from..], frameMS, k.s) && SpotFits(k.s, k.at)
  }

  ghost predicate Settled(frames: seq<Frame>, frameMS: nat, e: Ended) {
    && e.from <= e.to <= |frames|
    && Joined(frames[e.from..e.to]) + e.residual == e.accepted
    && e.playedMS == PlayedIn(frames[e.from..e.to], e.rate)
    && (forall i :: e.from <= i < e.to ==> WellCut(frames[i], e.u.id, FrameBytes(e.rate, frameMS)))
    && (e.completed ==> e.residual == [])
  }

  ghost predicate Conserved(w: World) {
    && WorkerHolds(w.log.frames, w.plan.frameMS, w.worker)
    && (forall i :: 0 <= i < |w.log.ended| ==> Settled(w.log.frames, w.plan.frameMS, w.log.ended[i]))
  }

  lemma SettledStays(frames: seq<Frame>, more: seq<Frame>, frameMS: nat, e: Ended)
    requires Settled(frames, frameMS, e) && frames <= more
    ensures Settled(more, frameMS, e)
  {
    hide Joined, PlayedIn, WellCut, FrameBytes;
    assert more[e.from..e.to] == frames[e.from..e.to];
    assert forall i :: e.from <= i < e.to ==> more[i] == frames[i];
  }

  lemma SendAccounts(fs: seq<Frame>, frameMS: nat, s: Stream, final: bool, ok: bool)
    requires Accounted(fs, frameMS, s) && (if final then s.buffer != [] else 0 < s.frameBytes <= |s.buffer|)
    ensures var payload := Payload(s, final);
      var t := if !ok then s else
        s.(buffer := s.buffer[|payload|..], playedMS := s.playedMS + Milliseconds(|payload|, s.rate));
      s.rate > 0 && Accounted(fs + [Frame(s.u.id, payload, final, ok)], frameMS, t)
  {
    hide Joined, PlayedIn, FrameBytes, Milliseconds;
    var payload := Payload(s, final);
    JoinedSnoc(fs, Frame(s.u.id, payload, final, ok), s.rate);
    assert s.buffer == payload + s.buffer[|payload|..];
    assert |s.accepted| >= |s.buffer| > 0;
  }

  lemma CallbackAccounts(w: World, s: Stream, rate: nat, bytes: Bytes)
    requires WorkerHolds(w.log.frames, w.plan.frameMS, Live(s, Pulling))
    ensures var b := Callback(w, s, rate, bytes);
      b.log == w.log && b.plan == w.plan && WorkerHolds(w.log.frames, w.plan.frameMS, b.worker)
  {
    hide Joined, FrameBytes, Milliseconds, WellCut;
    assert s.rate == 0 ==> s.buffer == [];
  }

  lemma StreamingHolds(w: World, s: Stream, at: Spot, ok: bool, p: Provided)
    requires w.worker == Live(s, at) && Conserved(w)
    ensures Conserved(Streaming(w, s, at, ok, p))
  {
    hide Joined, PlayedIn, FrameBytes, Milliseconds, WellCut, Accounted, Settled, TransitionError, Apply;
    var b := Streaming(w, s, at, ok, p);
    var frames, frameMS := w.log.frames, w.plan.frameMS;
    if at.Pulling? && p.Chunk? {
      CallbackAccounts(w, s, p.rate, p.bytes);
    } else if at.Sending? {
      SendAccounts(frames[s.from..], frameMS, s, at.final, ok);
      assert b.log.frames[s.from..] == frames[s.from..] + [b.log.frames[|frames|]];
      forall i | 0 <= i < |w.log.ended| ensures Settled(b.log.frames, frameMS, w.log.ended[i]) {
        SettledStays(frames, b.log.frames, frameMS, w.log.ended[i]);
      }
    } else if at.Ending? {
      EndSettles(frames, frameMS, s, at.completed);
    }
  }

  lemma EndSettles(frames: seq<Frame>, frameMS: nat, s: Stream, completed: bool)
    requires s.from <= |frames| && Accounted(frames[s.from..], frameMS, s) && SpotFits(s, Ending(completed))
    ensures Settled(frames, frameMS, Over(s, |frames|, completed))
  {
    hide Joined, PlayedIn, FrameBytes, WellCut;
    var fs := frames[s.from..];
    assert frames[s.from..|frames|] == fs;
    forall i | s.from <= i < |frames| ensures WellCut(frames[i], s.u.id, FrameBytes(s.rate, frameMS)) {
      assert frames[i] == fs[i - s.from];
    }
  }

  /** Only the worker touches the audio. */
  lemma ThreadsLeaveAudio(w: World, t: nat, ok: bool)
    requires t in w.threads
    ensures var b := Next(w, Advance(t, ok));
      && b.worker == w.worker && b.log.frames == w.log.frames && b.log.ended == w.log.ended
      && b.plan.frameMS == w.plan.frameMS
  {
    hide Apply, Refusal, TransitionError, Crossed, Terminal, Draft, Matches;
  }

  lemma WorkingHolds(w: World, ok: bool, p: Provided, over: bool)
    requires Conserved(w)
    ensures Conserved(Working(w, ok, p, over))
  {
    hide FrameBytes, Milliseconds, WellCut, Settled, Streaming, Apply;
    match w.worker
    case Live(s, at) => StreamingHolds(w, s, at, ok, p);
    case Starting(u) => assert w.log.frames[|w.log.frames|..] == [];
    case _ =>
  }

  lemma NextHolds(w: World, e: Event)
    requires Conserved(w)
    ensures Conserved(Next(w, e))
  {
    hide Settled, WorkerHolds, Apply, Entering, Ceasing, Working, Speakable;
    match e
    case Advance(t, ok) => if t in w.threads { ThreadsLeaveAudio(w, t, ok); }
    case Work(ok, p, over) => WorkingHolds(w, ok, p, over);
    case _ =>
  }

  // ---- Every accepted utterance is in exactly one place -------------------------------------

  predicate Is(place: map<string, Place>, id: string, p: Place) { id in place && place[id] == p }

  ghost predicate Distinct(q: seq<Entry>) { forall i, j :: 0 <= i < j < |q| ==> q[i].u.id != q[j].u.id }

  ghost predicate AllAt(place: map<string, Place>, q: seq<Entry>, p: Place) {
    Distinct(q) && forall i :: 0 <= i < |q| ==> Is(place, q[i].u.id, p)
  }

  predicate Holding(x: Step) { !x.Preparing? && !x.Enqueued? }

  ghost predicate ThreadPlaced(place: map<string, Place>, t: nat, x: Thread) {
    match x
    case Enqueuing(u, _, step) => Holding(step) ==> Is(place, u.id, Sender(t))
    case Cancelling(_, _, _, keep) => AllAt(place, keep, Kept(t))
  }

  ghost predicate WorkerPlaced(place: map<string, Place>, k: Worker) {
    match k
    case Picked(e) => Is(place, e.u.id, AtWorker)
    case Dropping(u) => Is(place, u.id, AtWorker)
    case Starting(u) => Is(place, u.id, AtWorker)
    case Discarding(u) => Is(place, u.id, AtWorker)
    case Live(s, _) => Is(place, s.u.id, Speaking)
    case _ => true
  }

  ghost predicate BeganPlaced(place: map<string, Place>, began: seq<string>) {
    && (forall i :: 0 <= i < |began| ==> Is(place, began[i], Speaking) || Is(place, began[i], Spoken))
    && (forall i, j :: 0 <= i < j < |began| ==> began[i] != began[j])
  }

  ghost predicate Placed(w: World) {
    && (forall id :: id in w.place ==> id in w.book.commitments)
    && AllAt(w.place, w.plan.queue, InQueue) && |w.plan.queue| <= w.plan.depth
    && (forall t :: t in w.threads ==> ThreadPlaced(w.place, t, w.threads[t]))
    && WorkerPlaced(w.place, w.worker)
    && BeganPlaced(w.place, w.log.began)
  }

  /** The identity k goes from wherever `from` says to q; nothing else moves. */
  ghost predicate Shifts(a: map<string, Place>, b: map<string, Place>, k: string, from: Option<Place>, q: Place) {
    && b == a[k := q]
    && (from.None? ==> k !in a) && (from.Some? ==> Is(a, k, from.value))
  }

  lemma AllStay(a: map<string, Place>, b: map<string, Place>, k: string, from: Option<Place>, q: Place,
      es: seq<Entry>, p: Place)
    requires Shifts(a, b, k, from, q) && AllAt(a, es, p) && from != Some(p)
    ensures AllAt(b, es, p)
  {
    hide Distinct;
  }

  lemma AllTake(a: map<string, Place>, b: map<string, Place>, q: Place, es: seq<Entry>, p: Place)
    requires es != [] && Shifts(a, b, es[0].u.id, Some(p), q) && AllAt(a, es, p)
    ensures AllAt(b, es[1..], p)
  {
  }

  lemma AllFill(a: map<string, Place>, b: map<string, Place>, e: Entry, from: Option<Place>, es: seq<Entry>, p: Place)
    requires Shifts(a, b, e.u.id, from, p) && AllAt(a, es, p) && from != Some(p)
    ensures AllAt(b, es + [e], p)
  {
    forall i | 0 <= i < |es| ensures es[i].u.id != e.u.id { assert Is(a, es[i].u.id, p); }
  }

  lemma ThreadStays(a: map<string, Place>, b: map<string, Place>, k: string, from: Option<Place>, q: Place, t: nat,
      x: Thread)
    requires Shifts(a, b, k, from, q) && ThreadPlaced(a, t, x) && from != Some(Sender(t)) && from != Some(Kept(t))
    ensures ThreadPlaced(b, t, x)
  {
    if x.Cancelling? { AllStay(a, b, k, from, q, x.keep, Kept(t)); }
  }

  lemma BeganStays(a: map<string, Place>, b: map<string, Place>, k: string, from: Option<Place>, q: Place,
      began: seq<string>)
    requires Shifts(a, b, k, from, q) && BeganPlaced(a, began)
    requires from != Some(Spoken) && (from == Some(Speaking) ==> q == Spoken)
    ensures BeganPlaced(b, began)
  {
  }

  lemma BeganGrows(a: map<string, Place>, b: map<string, Place>, k: string, began: seq<string>)
    requires Shifts(a, b, k, Some(AtWorker), Speaking) && BeganPlaced(a, began)
    ensures BeganPlaced(b, began + [k])
  {
    forall i | 0 <= i < |began| ensures began[i] != k { assert Is(a, began[i], Speaking) || Is(a, began[i], Spoken); }
  }

  ghost predicate Theirs(from: Option<Place>, t: nat) {
    from.Some? ==>
      && !Gone(from.value) && !from.value.AtWorker? && !from.value.Speaking?
      && (from.value.Sender? ==> from.value.t == t) && (from.value.Kept? ==> from.value.t == t)
  }

  /** Where nothing happens to an utterance any more. */
  predicate Gone(p: Place) { p.Lost? || p.Discarded? || p.Refused? || p.Spoken? }

  ghost predicate KeepsGone(a: World, b: World) {
    forall id :: id in a.place && Gone(a.place[id]) ==> Is(b.place, id, a.place[id])
  }

  /** A thread's step that moves one utterance. */
  lemma ThreadShifts(a: World, b: World, t: nat, x: Thread, k: string, from: Option<Place>, q: Place)
    requires Placed(a) && Follows(a.book, b.book) && k in b.book.commitments
    requires Shifts(a.place, b.place, k, from, q) && Theirs(from, t)
    requires b.threads == a.threads[t := x] && ThreadPlaced(b.place, t, x)
    requires AllAt(b.place, b.plan.queue, InQueue) && |b.plan.queue| <= b.plan.depth
    requires b.worker == a.worker && b.log.began == a.log.began
    ensures Placed(b) && KeepsGone(a, b)
  {
    hide Follows, AllAt, ThreadPlaced, BeganPlaced;
    forall id | id in b.place ensures id in b.book.commitments { FollowsKeeps(a.book, b.book, id); }
    forall u | u in b.threads ensures ThreadPlaced(b.place, u, b.threads[u]) {
      if u != t { ThreadStays(a.place, b.place, k, from, q, u, a.threads[u]); }
    }
    BeganStays(a.place, b.place, k, from, q, a.log.began);
  }

  /** A worker's step that moves one utterance. */
  lemma WorkerShifts(a: World, b: World, k: string, from: Place, q: Place)
    requires Placed(a) && Follows(a.book, b.book)
    requires Shifts(a.place, b.place, k, Some(from), q) && (from.InQueue? || from.AtWorker? || from.Speaking?)
    requires b.threads == a.threads
    requires AllAt(b.place, b.plan.queue, InQueue) && |b.plan.queue| <= b.plan.depth
    requires WorkerPlaced(b.place, b.worker) && BeganPlaced(b.place, b.log.began)
    ensures Placed(b) && KeepsGone(a, b)
  {
    hide Follows, AllAt, ThreadPlaced, BeganPlaced, WorkerPlaced;
    forall id | id in b.place ensures id in b.book.commitments { FollowsKeeps(a.book, b.book, id); }
    forall u | u in b.threads ensures ThreadPlaced(b.place, u, b.threads[u]) {
      ThreadStays(a.place, b.place, k, Some(from), q, u, a.threads[u]);
    }
  }

  /** A step that moves no utterance. */
  lemma NothingShifts(a: World, b: World)
    requires Placed(a) && Follows(a.book, b.book) && b.place == a.place
    requires b.plan.queue == a.plan.queue && b.plan.depth == a.plan.depth && b.log.began == a.log.began
    requires forall t :: t in b.threads ==> ThreadPlaced(b.place, t, b.threads[t])
    requires WorkerPlaced(b.place, b.worker)
    ensures Placed(b) && KeepsGone(a, b)
  {
    hide Follows, AllAt, ThreadPlaced, BeganPlaced, WorkerPlaced;
    forall id | id in b.place ensures id in b.book.commitments { FollowsKeeps(a.book, b.book, id); }
  }

  lemma ThreadRests(a: World, b: World, t: nat, x: Thread)
    requires Placed(a) && Follows(a.book, b.book) && b.place == a.place
    requires b.plan.queue == a.plan.queue && b.plan.depth == a.plan.depth && b.log.began == a.log.began
    requires b.threads == a.threads[t := x] && ThreadPlaced(b.place, t, x) && b.worker == a.worker
    ensures Placed(b) && KeepsGone(a, b)
  {
    hide Follows, AllAt, ThreadPlaced, BeganPlaced, WorkerPlaced;
    NothingShifts(a, b);
  }

  lemma PrepareEnters(b: Book, c: Commitment)
    ensures Refusal(b, c).None? ==> c.id !in b.commitments && c.id in Apply(b, Prepare(c)).commitments
  {
    hide Text.TrimSpace;
  }

  lemma EnteringPlaced(w: World, t: nat, ok: bool)
    requires Sound(w.book) && Placed(w) && t in w.threads && w.threads[t].Enqueuing?
    ensures Placed(Entering(w, t, w.threads[t], ok)) && KeepsGone(w, Entering(w, t, w.threads[t], ok))
  {
    hide Sound, Follows, Apply, Refusal, TransitionError, BeganPlaced, WorkerPlaced, AllAt;
    var x := w.threads[t];
    var b := Entering(w, t, x, ok);
    var k := x.u.id;
    assert ThreadPlaced(w.place, t, x);
    FollowsReflexive(w.book);
    if x.step.Preparing? {
      TellFollows(w, Prepare(Draft(x.u, x.authority)));
      PrepareEnters(w.book, Draft(x.u, x.authority));
      if Refusal(w.book, Draft(x.u, x.authority)).Some? {
        ThreadRests(w, b, t, b.threads[t]);
      } else {
        AllStay(w.place, b.place, k, None, Sender(t), w.plan.queue, InQueue);
        ThreadShifts(w, b, t, b.threads[t], k, None, Sender(t));
      }
    } else if x.step.Enqueued? {
    } else {
      HolderMoves(w, t, ok);
    }
  }

  lemma HolderMoves(w: World, t: nat, ok: bool)
    requires Sound(w.book) && Placed(w) && t in w.threads && w.threads[t].Enqueuing? && Holding(w.threads[t].step)
    ensures Placed(Entering(w, t, w.threads[t], ok)) && KeepsGone(w, Entering(w, t, w.threads[t], ok))
  {
    hide Sound, Follows, Apply, TransitionError, BeganPlaced, WorkerPlaced, AllAt;
    var x := w.threads[t];
    var b := Entering(w, t, x, ok);
    var k := x.u.id;
    assert ThreadPlaced(w.place, t, x);
    FollowsReflexive(w.book);
    TellFollows(w, Queue(k));
    TellFollows(w, Op.Cancel(k, "refused"));
    FollowsKeeps(w.book, b.book, k);
    if Holding(b.threads[t].step) {
      ThreadRests(w, b, t, b.threads[t]);
    } else if x.step.Pushing? {
      AllFill(w.place, b.place, Entry(x.u, x.step.epoch), Some(Sender(t)), w.plan.queue, InQueue);
      ThreadShifts(w, b, t, b.threads[t], k, Some(Sender(t)), InQueue);
    } else {
      var q := if x.step.Lining? then Refused else Discarded;
      AllStay(w.place, b.place, k, Some(Sender(t)), q, w.plan.queue, InQueue);
      ThreadShifts(w, b, t, b.threads[t], k, Some(Sender(t)), q);
    }
  }

  lemma DrainPlaced(w: World, t: nat)
    requires Placed(w) && t in w.threads && w.threads[t].Cancelling?
    ensures Placed(DrainStep(w, t, w.threads[t])) && KeepsGone(w, DrainStep(w, t, w.threads[t]))
  {
    hide Follows, BeganPlaced, WorkerPlaced, AllAt, Matches, Distinct;
    var x := w.threads[t];
    var b := DrainStep(w, t, x);
    assert ThreadPlaced(w.place, t, x);
    FollowsReflexive(w.book);
    if w.plan.queue == [] {
      ThreadRests(w, b, t, b.threads[t]);
    } else {
      var e := w.plan.queue[0];
      var q := if Matches(x.pick, e.u.id) then Discarded else Kept(t);
      QueueHead(w);
      AllTake(w.place, b.place, q, w.plan.queue, InQueue);
      if q.Kept? {
        AllFill(w.place, b.place, e, Some(InQueue), x.keep, Kept(t));
      } else {
        AllStay(w.place, b.place, e.u.id, Some(InQueue), q, x.keep, Kept(t));
      }
      ThreadShifts(w, b, t, b.threads[t], e.u.id, Some(InQueue), q);
    }
  }

  lemma QueueHead(w: World)
    requires Placed(w) && w.plan.queue != []
    ensures Is(w.place, w.plan.queue[0].u.id, InQueue) && w.plan.queue[0].u.id in w.book.commitments
  {
    hide Distinct, ThreadPlaced, BeganPlaced, WorkerPlaced;
  }

  lemma ReturnPlaced(w: World, t: nat)
    requires Placed(w) && t in w.threads && w.threads[t].Cancelling?
    ensures Placed(ReturnStep(w, t, w.threads[t])) && KeepsGone(w, ReturnStep(w, t, w.threads[t]))
  {
    hide Follows, BeganPlaced, WorkerPlaced, Distinct;
    var x := w.threads[t];
    var b := ReturnStep(w, t, x);
    assert ThreadPlaced(w.place, t, x);
    FollowsReflexive(w.book);
    if x.keep == [] {
      ThreadRests(w, b, t, b.threads[t]);
    } else {
      var e := x.keep[0];
      var q := if |w.plan.queue| < w.plan.depth then InQueue else Lost;
      AllTake(w.place, b.place, q, x.keep, Kept(t));
      if q.InQueue? {
        AllFill(w.place, b.place, e, Some(Kept(t)), w.plan.queue, InQueue);
      } else {
        AllStay(w.place, b.place, e.u.id, Some(Kept(t)), q, w.plan.queue, InQueue);
      }
      ThreadShifts(w, b, t, b.threads[t], e.u.id, Some(Kept(t)), q);
    }
  }

  lemma CeasingPlaced(w: World, t: nat)
    requires Sound(w.book) && Placed(w) && t in w.threads && w.threads[t].Cancelling?
    ensures Placed(Ceasing(w, t, w.threads[t])) && KeepsGone(w, Ceasing(w, t, w.threads[t]))
  {
    hide Sound, Follows, Apply, BeganPlaced, WorkerPlaced, AllAt, Matches, Crossed, Terminal, DrainStep, ReturnStep,
      Placed;
    var x := w.threads[t];
    var b := Ceasing(w, t, x);
    FollowsReflexive(w.book);
    if x.stop.Draining? {
      DrainPlaced(w, t);
    } else if x.stop.Returning? {
      ReturnPlaced(w, t);
    } else if !x.stop.Stopped? {
      if x.stop.Stopping? { TellFollows(w, Op.Cancel(x.stop.id, x.reason)); }
      KeepAt(w, t);
      ThreadRests(w, b, t, b.threads[t]);
    }
  }

  lemma KeepAt(w: World, t: nat)
    requires Placed(w) && t in w.threads && w.threads[t].Cancelling?
    ensures AllAt(w.place, w.threads[t].keep, Kept(t))
  {
    hide AllAt, BeganPlaced, WorkerPlaced;
    assert ThreadPlaced(w.place, t, w.threads[t]);
  }

  lemma StreamingPlaced(w: World, s: Stream, at: Spot, ok: bool, p: Provided)
    requires Sound(w.book) && Placed(w) && w.worker == Live(s, at)
    ensures Placed(Streaming(w, s, at, ok, p)) && KeepsGone(w, Streaming(w, s, at, ok, p))
  {
    hide Sound, Follows, Apply, BeganPlaced, AllAt, ThreadPlaced, TransitionError, FrameBytes, Milliseconds, Payload;
    var b := Streaming(w, s, at, ok, p);
    FollowsReflexive(w.book);
    if at.Crossing? { TellFollows(w, Emit(s.u.id)); }
    if at.Ending? {
      AllStay(w.place, b.place, s.u.id, Some(Speaking), Spoken, w.plan.queue, InQueue);
      BeganStays(w.place, b.place, s.u.id, Some(Speaking), Spoken, w.log.began);
      WorkerShifts(w, b, s.u.id, Speaking, Spoken);
    } else {
      if at.Settling? {
        TellFollows(w, Complete(s.u.id, s.playedMS));
        TellFollows(w, Complete(s.u.id, 0));
        TellFollows(w, Op.Cancel(s.u.id, "stopped"));
      }
      NothingShifts(w, b);
    }
  }

  lemma PickPlaced(w: World, b: World)
    requires Placed(w) && w.plan.queue != [] && b.plan == Take(w).plan && b.book == w.book && b.threads == w.threads
    requires b.log == w.log && b.place == w.place[w.plan.queue[0].u.id := AtWorker]
    requires b.worker == Picked(w.plan.queue[0]) || b.worker == Discarding(w.plan.queue[0].u)
    ensures Placed(b) && KeepsGone(w, b)
  {
    hide Follows, BeganPlaced, AllAt, ThreadPlaced;
    var k := w.plan.queue[0].u.id;
    FollowsReflexive(w.book);
    QueueHead(w);
    AllTake(w.place, b.place, AtWorker, w.plan.queue, InQueue);
    BeganStays(w.place, b.place, k, Some(InQueue), AtWorker, w.log.began);
    WorkerShifts(w, b, k, InQueue, AtWorker);
  }

  lemma DropPlaced(w: World, b: World, u: Utterance)
    requires Placed(w) && (w.worker == Dropping(u) || w.worker == Discarding(u)) && Follows(w.book, b.book)
    requires b.plan == w.plan && b.threads == w.threads && b.log == w.log && b.place == w.place[u.id := Discarded]
    requires b.worker.Idle? || b.worker.Sweeping?
    ensures Placed(b) && KeepsGone(w, b)
  {
    hide Follows, BeganPlaced, AllAt, ThreadPlaced;
    AllStay(w.place, b.place, u.id, Some(AtWorker), Discarded, w.plan.queue, InQueue);
    BeganStays(w.place, b.place, u.id, Some(AtWorker), Discarded, w.log.began);
    WorkerShifts(w, b, u.id, AtWorker, Discarded);
  }

  lemma StartPlaced(w: World, b: World, u: Utterance)
    requires Placed(w) && w.worker == Starting(u) && b.book == w.book && b.threads == w.threads
    requires b.plan.queue == w.plan.queue && b.plan.depth == w.plan.depth && b.place == w.place[u.id := Speaking]
    requires b.log.began == w.log.began + [u.id] && b.worker.Live? && b.worker.s.u == u
    ensures Placed(b) && KeepsGone(w, b)
  {
    hide Follows, BeganPlaced, AllAt, ThreadPlaced;
    FollowsReflexive(w.book);
    AllStay(w.place, b.place, u.id, Some(AtWorker), Speaking, w.plan.queue, InQueue);
    BeganGrows(w.place, b.place, u.id, w.log.began);
    WorkerShifts(w, b, u.id, AtWorker, Speaking);
  }

  lemma WorkingPlaced(w: World, ok: bool, p: Provided, over: bool)
    requires Sound(w.book) && Placed(w)
    ensures Placed(Working(w, ok, p, over)) && KeepsGone(w, Working(w, ok, p, over))
  {
    hide Sound, Follows, Apply, BeganPlaced, AllAt, ThreadPlaced, Streaming;
    var b := Working(w, ok, p, over);
    FollowsReflexive(w.book);
    match w.worker
    case Idle => if over || w.plan.queue == [] { NothingShifts(w, b); } else { PickPlaced(w, b); }
    case Picked(e) => NothingShifts(w, b);
    case Dropping(u) =>
      TellFollows(w, Op.Cancel(u.id, "superseded before emission"));
      DropPlaced(w, b, u);
    case Starting(u) => StartPlaced(w, b, u);
    case Live(s, at) => StreamingPlaced(w, s, at, ok, p);
    case Sweeping => if w.plan.queue == [] { NothingShifts(w, b); } else { PickPlaced(w, b); }
    case Discarding(u) =>
      TellFollows(w, Op.Cancel(u.id, "session ended"));
      DropPlaced(w, b, u);
    case Halted =>
  }

  lemma NextPlaced(w: World, e: Event)
    requires Sound(w.book) && Placed(w)
    ensures Placed(Next(w, e)) && KeepsGone(w, Next(w, e))
  {
    hide Sound, Follows, Apply, BeganPlaced, WorkerPlaced, Distinct, Entering, Ceasing, Working, Speakable;
    FollowsReflexive(w.book);
    match e
    case Enqueue(t, u, authority) => ThreadRestsOrSame(w, e);
    case Cancel(t, reason, pick) => ThreadRestsOrSame(w, e);
    case Shut => NothingShifts(w, Next(w, e));
    case Advance(t, ok) =>
      if t in w.threads {
        if w.threads[t].Enqueuing? { EnteringPlaced(w, t, ok); } else { CeasingPlaced(w, t); }
      }
    case Work(ok, p, over) => WorkingPlaced(w, ok, p, over);
    case Elsewhere(op) =>
      TellFollows(w, op);
      NothingShifts(w, Next(w, e));
  }

  lemma ThreadRestsOrSame(w: World, e: Event)
    requires Placed(w) && (e.Enqueue? || e.Cancel?)
    ensures Placed(Next(w, e)) && KeepsGone(w, Next(w, e))
  {
    hide Follows, BeganPlaced, WorkerPlaced, Speakable;
    var b := Next(w, e);
    FollowsReflexive(w.book);
    if b != w { ThreadRests(w, b, e.t, b.threads[e.t]); }
  }

  // ---- Whole runs --------------------------------------------------------------------------

  ghost predicate Safe(w: World) { Sound(w.book) && Bound(w) && Conserved(w) && Placed(w) }

  ghost predicate Remembers(a: World, b: World) {
    && Follows(a.book, b.book) && a.log.frames <= b.log.frames && a.log.reported <= b.log.reported
    && a.log.heard <= b.log.heard && KeepsGone(a, b)
  }

  lemma NextKeeps(w: World, e: Event)
    requires Safe(w)
    ensures Safe(Next(w, e)) && Remembers(w, Next(w, e))
  {
    hide Sound, Bound, Conserved, Placed, Next, Follows, Crossed, CancelledIn;
    NextBounded(w, e);
    BoundStays(w, Next(w, e));
    NextHolds(w, e);
    NextPlaced(w, e);
  }

  lemma {:induction false} RunKeeps(w: World, events: seq<Event>)
    requires Safe(w)
    ensures Safe(Run(w, events)) && Remembers(w, Run(w, events))
    decreases |events|
  {
    hide Safe, Next, Follows;
    if events == [] {
      FollowsReflexive(w.book);
    } else {
      NextKeeps(w, events[0]);
      RunKeeps(Next(w, events[0]), events[1..]);
      FollowsTransitive(w.book, Next(w, events[0]).book, Run(w, events).book);
    }
  }

  lemma InitialIsSafe(depth: nat, frameMS: nat)
    ensures Safe(Initial(depth, frameMS))
  {
    EmptyIsSound();
  }

  lemma {:induction false} RunJoins(w: World, first: seq<Event>, rest: seq<Event>)
    ensures Run(w, first + rest) == Run(Run(w, first), rest)
    decreases |first|
  {
    hide Next;
    if first == [] {
      assert first + rest == rest;
    } else {
      assert (first + rest)[1..] == first[1..] + rest;
      RunJoins(Next(w, first[0]), first[1..], rest);
    }
  }

  /** A commitment returned as cancelled has no frame given to the sink, then or at any later time. */
  lemma ReportedIsNeverSent(depth: nat, frameMS: nat, first: seq<Event>, rest: seq<Event>, i: nat, j: nat)
    ensures var past := Run(Initial(depth, frameMS), first);
      var now := Run(Initial(depth, frameMS), first + rest);
      i < |past.log.reported| && j < |now.log.frames| ==> past.log.reported[i] != now.log.frames[j].id
  {
    hide Sound, Conserved, Placed, Run, Follows;
    InitialIsSafe(depth, frameMS);
    RunKeeps(Initial(depth, frameMS), first);
    RunJoins(Initial(depth, frameMS), first, rest);
    var past := Run(Initial(depth, frameMS), first);
    RunKeeps(past, rest);
    var now := Run(past, rest);
    assert i < |past.log.reported| ==> past.log.reported[i] == now.log.reported[i];
    assert i < |past.log.reported| ==> CancelledIn(now.book, now.log.reported[i]);
  }

  // ---- Every frame has an emit of its own --------------------------------------------------

  /** The worker has the ledger's leave for one frame of id, and has not used it yet. */
  predicate Cleared(k: Worker, id: string) { k.Live? && k.s.u.id == id && (k.at.Handing? || k.at.Sending?) }

  /** Event e is the worker's `Emit` of id, and the ledger accepts it. */
  ghost predicate EmitSucceeds(w: World, e: Event, id: string) {
    && e.Work? && w.worker.Live? && w.worker.s.u.id == id && w.worker.at.Crossing?
    && TransitionError(w.book, id, Stage.Emitting).None? && Next(w, e).book == Apply(w.book, Emit(id))
  }

  lemma ThreadsLeaveWorker(w: World, e: Event)
    requires !e.Work?
    ensures Next(w, e).worker == w.worker && Next(w, e).log.frames == w.log.frames
  {
    hide Apply, Entering, Ceasing, Speakable;
    if e.Advance? && e.t in w.threads { ThreadsLeaveAudio(w, e.t, e.ok); }
  }

  /** From w to b: only a successful `Emit` clears the worker, only a cleared worker sends, and sending uses
      the leave up. */
  ghost predicate Licensed(w: World, b: World, id: string) {
    && (Cleared(b.worker, id) && !Cleared(w.worker, id) ==>
          && w.worker.Live? && w.worker.s.u.id == id && w.worker.at.Crossing?
          && TransitionError(w.book, id, Stage.Emitting).None? && b.book == Apply(w.book, Emit(id)))
    && (Cleared(b.worker, id) ==> b.log.frames == w.log.frames)
    && (b.log.frames == w.log.frames || exists f :: b.log.frames == w.log.frames + [f] && Cleared(w.worker, f.id))
  }

  lemma SendLicensed(w: World, s: Stream, final: bool, ok: bool, id: string)
    requires w.worker == Live(s, Sending(final)) && (!final ==> s.frameBytes <= |s.buffer|)
    ensures Licensed(w, Send(w, s, final, ok), id)
  {
    hide Apply, TransitionError, Milliseconds, Payload;
    var f := Frame(s.u.id, Payload(s, final), final, ok);
    assert Send(w, s, final, ok).log.frames == w.log.frames + [f] && Cleared(w.worker, f.id);
  }

  lemma StreamingLicensed(w: World, s: Stream, at: Spot, ok: bool, p: Provided, id: string)
    requires w.worker == Live(s, at)
    ensures Licensed(w, Streaming(w, s, at, ok, p), id)
  {
    hide Apply, TransitionError, FrameBytes, Callback, Send;
    if at.Sending? && (at.final || s.frameBytes <= |s.buffer|) {
      SendLicensed(w, s, at.final, ok, id);
    } else {
      CallbackPulls(w, s, p);
    }
  }

  lemma ClearedStep(w: World, e: Event, id: string)
    ensures Licensed(w, Next(w, e), id)
    ensures Cleared(Next(w, e).worker, id) && !Cleared(w.worker, id) ==> EmitSucceeds(w, e, id)
  {
    hide Apply, TransitionError, Streaming, Next;
    if !e.Work? {
      ThreadsLeaveWorker(w, e);
    } else {
      WorkIsWorking(w, e);
      if w.worker.Live? { StreamingLicensed(w, w.worker.s, w.worker.at, e.ok, e.provided, id); }
    }
  }

  lemma WorkIsWorking(w: World, e: Event)
    requires e.Work?
    ensures Next(w, e) == Working(w, e.ok, e.provided, e.over)
  {
  }

  lemma CallbackPulls(w: World, s: Stream, p: Provided)
    ensures p.Chunk? ==>
      var b := Callback(w, s, p.rate, p.bytes);
      b.log == w.log && b.worker.Live? && (b.worker.at.Pulling? || b.worker.at.Cutting?)
  {
    hide FrameBytes;
  }

  lemma RunStep(w: World, events: seq<Event>, k: nat)
    requires k < |events|
    ensures Run(w, events[..k + 1]) == Next(Run(w, events[..k]), events[k])
  {
    hide Next;
    RunSnoc(w, events[..k], events[k]);
    assert events[..k + 1] == events[..k] + [events[k]];
  }

  /** A cleared worker was cleared by an `Emit`, and has sent nothing since. */
  lemma {:induction false} ClearedByEmit(w: World, events: seq<Event>, k: nat, id: string) returns (j: nat)
    requires k <= |events| && !Cleared(w.worker, id) && Cleared(Run(w, events[..k]).worker, id)
    ensures j < k && EmitSucceeds(Run(w, events[..j]), events[j], id)
    ensures Run(w, events[..j]).log.frames == Run(w, events[..k]).log.frames
  {
    hide Next, EmitSucceeds;
    assert events[..0] == [];
    RunStep(w, events, k - 1);
    ClearedStep(Run(w, events[..k - 1]), events[k - 1], id);
    if Cleared(Run(w, events[..k - 1]).worker, id) {
      j := ClearedByEmit(w, events, k - 1, id);
    } else {
      j := k - 1;
    }
  }

  /** The event that gave frame i to the sink. */
  lemma {:induction false} FrameAppears(w: World, events: seq<Event>, n: nat, i: nat) returns (k: nat)
    requires n <= |events| && |w.log.frames| <= i < |Run(w, events[..n]).log.frames|
    ensures k < n && |Run(w, events[..k]).log.frames| == i
    ensures Run(w, events[..k + 1]).log.frames == Run(w, events[..n]).log.frames[..i + 1]
    ensures Cleared(Run(w, events[..k]).worker, Run(w, events[..n]).log.frames[i].id)
  {
    hide Next;
    assert events[..0] == [];
    RunStep(w, events, n - 1);
    var b := Run(w, events[..n - 1]);
    ClearedStep(b, events[n - 1], "");
    if i < |b.log.frames| {
      k := FrameAppears(w, events, n - 1, i);
    } else {
      k := n - 1;
    }
  }

  /** Every frame given to the sink follows a successful `Emit` of its utterance, and one of its own: the
      emit happened when all the frames before this one, and no others, had been given. */
  lemma SentAfterEmit(depth: nat, frameMS: nat, events: seq<Event>, i: nat) returns (j: nat, k: nat)
    requires i < |Run(Initial(depth, frameMS), events).log.frames|
    ensures var start := Initial(depth, frameMS);
      var frames := Run(start, events).log.frames;
      && j < k < |events| && EmitSucceeds(Run(start, events[..j]), events[j], frames[i].id)
      && Run(start, events[..j]).log.frames == Run(start, events[..k]).log.frames == frames[..i]
      && Run(start, events[..k + 1]).log.frames == frames[..i + 1]
  {
    hide Next, EmitSucceeds;
    var start := Initial(depth, frameMS);
    assert events[..|events|] == events;
    k := FrameAppears(start, events, |events|, i);
    j := ClearedByEmit(start, events, k, Run(start, events).log.frames[i].id);
    ClearedStep(Run(start, events[..k]), events[k], "");
    RunStep(start, events, k);
  }

  // ---- Stopping stops the audio ------------------------------------------------------------

  /** How many frames of id have been given to the sink. */
  ghost function FramesOf(frames: seq<Frame>, id: string): nat {
    if frames == [] then 0
    else FramesOf(frames[..|frames| - 1], id) + if frames[|frames| - 1].id == id then 1 else 0
  }

  lemma FramesSnoc(frames: seq<Frame>, f: Frame, id: string)
    ensures FramesOf(frames + [f], id) == FramesOf(frames, id) + if f.id == id then 1 else 0
  {
    assert (frames + [f])[..|frames|] == frames;
  }

  /** Frames of id that may still come once it has ended: the one already past its `Emit`, if there is one. */
  function Owing(w: World, id: string): nat { if Cleared(w.worker, id) then 1 else 0 }

  lemma EndedRefusesEmit(b: Book, id: string)
    requires Terminal(b, id)
    ensures TransitionError(b, id, Stage.Emitting).Some?
  {
  }

  lemma EndedStep(w: World, e: Event, id: string)
    requires Safe(w) && Terminal(w.book, id)
    ensures Terminal(Next(w, e).book, id)
    ensures FramesOf(Next(w, e).log.frames, id) + Owing(Next(w, e), id) <= FramesOf(w.log.frames, id) + Owing(w, id)
  {
    hide Safe, Next, Follows, Terminal, TransitionError, FramesOf, Apply;
    NextKeeps(w, e);
    EndedStays(w.book, Next(w, e).book, id);
    EndedRefusesEmit(w.book, id);
    ClearedStep(w, e, id);
    if Next(w, e).log.frames != w.log.frames {
      var f :| Next(w, e).log.frames == w.log.frames + [f] && Cleared(w.worker, f.id);
      FramesSnoc(w.log.frames, f, id);
    }
  }

  /** Once the ledger has an utterance ended, as `stop` leaves it, at most one more frame of it reaches the
      sink, whatever happens, and none unless one was already past its `Emit`. */
  lemma {:induction false} EndedFallsSilent(w: World, events: seq<Event>, id: string)
    requires Safe(w) && Terminal(w.book, id)
    ensures FramesOf(Run(w, events).log.frames, id) <= FramesOf(w.log.frames, id) + Owing(w, id)
    decreases |events|
  {
    hide Safe, Next, FramesOf, Terminal, Owing;
    if events != [] {
      EndedStep(w, events[0], id);
      NextKeeps(w, events[0]);
      EndedFallsSilent(Next(w, events[0]), events[1..], id);
    }
  }

  /** So it is with `stop`: from its cancel on, no frame of the utterance follows but the one already past
      its `Emit`. */
  lemma StopFallsSilent(w: World, t: nat, events: seq<Event>)
    requires Safe(w) && t in w.threads && w.threads[t].Cancelling? && w.threads[t].stop.Stopping?
    requires w.threads[t].stop.id in w.book.commitments
    ensures var id := w.threads[t].stop.id;
      FramesOf(Run(w, [Advance(t, true)] + events).log.frames, id) <= FramesOf(w.log.frames, id) + Owing(w, id)
  {
    hide Safe, FramesOf, Terminal, Owing, Apply, Crossed, Cleared;
    var id, e := w.threads[t].stop.id, Advance(t, true);
    var b := Next(w, e);
    assert b.book == Apply(w.book, Op.Cancel(id, w.threads[t].reason)) && b.worker == w.worker && b.log == w.log;
    CancelEnds(w.book, id, w.threads[t].reason);
    NextKeeps(w, e);
    EndedFallsSilent(b, events, id);
    SameOwing(w, b, id);
    assert ([e] + events)[1..] == events && ([e] + events)[0] == e;
  }

  lemma SameOwing(a: World, b: World, id: string)
    requires b.worker == a.worker
    ensures Owing(b, id) == Owing(a, id)
  {
  }

  // ---- Every emission is settled -----------------------------------------------------------

  ghost predicate Closed(w: World) {
    && (forall i :: 0 <= i < |w.log.ended| ==> Terminal(w.book, w.log.ended[i].u.id))
    && (w.worker.Live? && w.worker.at.Ending? ==> Terminal(w.book, w.worker.s.u.id))
  }

  lemma CompleteEnds(b: Book, id: string, ms: nat)
    requires id in b.commitments
    ensures Terminal(Apply(b, Complete(id, ms)), id)
  {
  }

  lemma StreamingCloses(w: World, s: Stream, at: Spot, ok: bool, p: Provided)
    requires w.worker == Live(s, at) && s.u.id in w.book.commitments
    ensures var b := Streaming(w, s, at, ok, p);
      && (b.worker.Live? && b.worker.at.Ending? ==> b.worker.s == s && (Terminal(b.book, s.u.id) || at.Ending?))
      && (b.log.ended == w.log.ended
          || (at.Ending? && exists x :: b.log.ended == w.log.ended + [x] && x.u == s.u))
  {
    hide Apply, TransitionError, FrameBytes, Callback, Send, Terminal;
    CompleteEnds(w.book, s.u.id, s.playedMS);
    CompleteEnds(w.book, s.u.id, 0);
    CancelEnds(w.book, s.u.id, "stopped");
    CallbackPulls(w, s, p);
    CallbackEndsNothing(w, s, p);
    if at.Sending? && (at.final || s.frameBytes <= |s.buffer|) { SendEndsNothing(w, s, at.final, ok); }
  }

  lemma CallbackEndsNothing(w: World, s: Stream, p: Provided)
    ensures p.Chunk? ==> Callback(w, s, p.rate, p.bytes).book == w.book
  {
    hide FrameBytes;
  }

  lemma SendEndsNothing(w: World, s: Stream, final: bool, ok: bool)
    requires !final ==> s.frameBytes <= |s.buffer|
    ensures var b := Send(w, s, final, ok);
      b.log.ended == w.log.ended && b.worker.Live? && !b.worker.at.Ending?
  {
    hide Milliseconds, Payload;
  }

  lemma SpeakerIsKnown(w: World)
    requires Safe(w) && w.worker.Live?
    ensures w.worker.s.u.id in w.book.commitments
  {
    hide Sound, Bound, Conserved, AllAt, ThreadPlaced, BeganPlaced;
  }

  lemma ClosedStep(w: World, e: Event)
    requires Safe(w) && Closed(w)
    ensures Closed(Next(w, e))
  {
    hide Safe, Next, Follows, Terminal, Streaming;
    var b := Next(w, e);
    NextKeeps(w, e);
    forall id | Terminal(w.book, id) ensures Terminal(b.book, id) { EndedStays(w.book, b.book, id); }
    if !e.Work? {
      ThreadsLeaveWorker(w, e);
      ThreadsEndNothing(w, e);
    } else {
      WorkIsWorking(w, e);
      if w.worker.Live? {
        SpeakerIsKnown(w);
        StreamingCloses(w, w.worker.s, w.worker.at, e.ok, e.provided);
      }
    }
  }

  lemma ThreadsEndNothing(w: World, e: Event)
    requires !e.Work?
    ensures Next(w, e).log.ended == w.log.ended
  {
    hide Apply, Entering, Ceasing, Speakable;
    if e.Advance? && e.t in w.threads { ThreadsLeaveAudio(w, e.t, e.ok); }
  }

  lemma {:induction false} RunCloses(w: World, events: seq<Event>)
    requires Safe(w) && Closed(w)
    ensures Closed(Run(w, events))
    decreases |events|
  {
    hide Safe, Next, Closed;
    if events != [] {
      ClosedStep(w, events[0]);
      NextKeeps(w, events[0]);
      RunCloses(Next(w, events[0]), events[1..]);
    }
  }

  /** When an emission is over, however it ended, the ledger has its commitment ended. */
  lemma EmissionsAreSettled(depth: nat, frameMS: nat, events: seq<Event>, i: nat)
    ensures var w := Run(Initial(depth, frameMS), events);
      i < |w.log.ended| ==> Terminal(w.book, w.log.ended[i].u.id)
  {
    hide Run, Terminal, Safe;
    InitialIsSafe(depth, frameMS);
    RunCloses(Initial(depth, frameMS), events);
  }

  // ---- Cancelling silences the queue -------------------------------------------------------

  /** No entry is from an epoch at or past n. */
  ghost predicate Before(q: seq<Entry>, id: string, n: int) {
    forall i :: 0 <= i < |q| && q[i].u.id == id ==> q[i].epoch < n
  }

  /** Thread x will not get utterance id past the worker's check of an epoch at or past n. */
  predicate ThreadDead(x: Thread, id: string, n: int) {
    match x
    case Enqueuing(u, _, step) =>
      u.id == id && Holding(step) ==> step.Backing? || ((step.Reserving? || step.Pushing?) && step.epoch < n)
    case Cancelling(_, _, _, keep) => forall i :: 0 <= i < |keep| && keep[i].u.id == id ==> keep[i].epoch < n
  }

  predicate WorkerDead(k: Worker, id: string, n: int) {
    match k
    case Picked(e) => e.u.id == id ==> e.epoch < n
    case Starting(u) => u.id != id
    case Live(s, _) => s.u.id != id
    case _ => true
  }

  /** Wherever the utterance is, it belongs to an epoch that is over, and it has not begun. */
  ghost predicate Dead(w: World, id: string) {
    && id in w.book.commitments && id !in w.log.began && Before(w.plan.queue, id, w.plan.epoch)
    && (forall t :: t in w.threads ==> ThreadDead(w.threads[t], id, w.plan.epoch))
    && WorkerDead(w.worker, id, w.plan.epoch)
  }

  lemma DeadThreadStays(x: Thread, id: string, m: int, n: int)
    requires ThreadDead(x, id, m) && m <= n
    ensures ThreadDead(x, id, n)
  {
  }

  /** One thread moves. */
  lemma DeadMove(a: World, b: World, t: nat, x: Thread, id: string)
    requires Dead(a, id) && Follows(a.book, b.book) && b.log.began == a.log.began && b.worker == a.worker
    requires a.plan.epoch <= b.plan.epoch && Before(b.plan.queue, id, b.plan.epoch)
    requires b.threads == a.threads[t := x] && ThreadDead(x, id, b.plan.epoch)
    ensures Dead(b, id)
  {
    hide Follows, ThreadDead;
    FollowsKeeps(a.book, b.book, id);
    forall u | u in b.threads ensures ThreadDead(b.threads[u], id, b.plan.epoch) {
      if u != t { DeadThreadStays(a.threads[u], id, a.plan.epoch, b.plan.epoch); }
    }
  }

  lemma DeadEntering(w: World, t: nat, ok: bool, id: string)
    requires Sound(w.book) && Dead(w, id) && t in w.threads && w.threads[t].Enqueuing?
    ensures Dead(Entering(w, t, w.threads[t], ok), id)
  {
    hide Sound, Follows, Apply, TransitionError, Text.TrimSpace, WorkerDead;
    var x := w.threads[t];
    var b := Entering(w, t, x, ok);
    assert ThreadDead(x, id, w.plan.epoch);
    FollowsReflexive(w.book);
    TellFollows(w, Prepare(Draft(x.u, x.authority)));
    TellFollows(w, Queue(x.u.id));
    TellFollows(w, Op.Cancel(x.u.id, "refused"));
    if !x.step.Enqueued? { DeadMove(w, b, t, b.threads[t], id); }
  }

  lemma DeadDrain(w: World, t: nat, id: string)
    requires Dead(w, id) && t in w.threads && w.threads[t].Cancelling?
    ensures Dead(DrainStep(w, t, w.threads[t]), id)
  {
    hide Follows, Matches, WorkerDead;
    var x, b := w.threads[t], DrainStep(w, t, w.threads[t]);
    assert ThreadDead(x, id, w.plan.epoch);
    FollowsReflexive(w.book);
    DeadMove(w, b, t, b.threads[t], id);
  }

  lemma DeadReturn(w: World, t: nat, id: string)
    requires Dead(w, id) && t in w.threads && w.threads[t].Cancelling?
    ensures Dead(ReturnStep(w, t, w.threads[t]), id)
  {
    hide Follows, WorkerDead;
    var x, b := w.threads[t], ReturnStep(w, t, w.threads[t]);
    assert ThreadDead(x, id, w.plan.epoch);
    FollowsReflexive(w.book);
    DeadMove(w, b, t, b.threads[t], id);
  }

  lemma DeadStop(w: World, t: nat, id: string)
    requires Sound(w.book) && Dead(w, id) && t in w.threads && w.threads[t].Cancelling?
    ensures Dead(StopStep(w, t, w.threads[t]), id)
  {
    hide Sound, Follows, Apply, Crossed, Terminal, WorkerDead, Before;
    var x, b := w.threads[t], StopStep(w, t, w.threads[t]);
    assert ThreadDead(x, id, w.plan.epoch);
    FollowsReflexive(w.book);
    if x.stop.Stopping? { TellFollows(w, Op.Cancel(x.stop.id, x.reason)); }
    DeadMove(w, b, t, b.threads[t], id);
  }

  lemma DeadCeasing(w: World, t: nat, id: string)
    requires Sound(w.book) && Dead(w, id) && t in w.threads && w.threads[t].Cancelling?
    ensures Dead(Ceasing(w, t, w.threads[t]), id)
  {
    hide Sound, Follows, StopStep, DrainStep, ReturnStep, Matches, WorkerDead, Before;
    var x, b := w.threads[t], Ceasing(w, t, w.threads[t]);
    if x.stop.Reading? {
      assert ThreadDead(x, id, w.plan.epoch);
      FollowsReflexive(w.book);
      BeforeLater(w.plan.queue, id, w.plan.epoch, b.plan.epoch);
      DeadMove(w, b, t, b.threads[t], id);
    } else if x.stop.Draining? {
      DeadDrain(w, t, id);
    } else if x.stop.Returning? {
      DeadReturn(w, t, id);
    } else {
      DeadStop(w, t, id);
    }
  }

  lemma BeforeLater(q: seq<Entry>, id: string, m: int, n: int)
    requires Before(q, id, m) && m <= n
    ensures Before(q, id, n)
  {
  }

  lemma DeadWorking(w: World, ok: bool, p: Provided, over: bool, id: string)
    requires Sound(w.book) && Dead(w, id)
    ensures Dead(Working(w, ok, p, over), id)
  {
    hide Sound, Follows, Apply, Streaming, ThreadDead;
    var b := Working(w, ok, p, over);
    FollowsReflexive(w.book);
    if w.worker.Live? {
      StreamingLeavesPlan(w, w.worker.s, w.worker.at, ok, p);
      FollowsKeeps(w.book, b.book, id);
    } else if w.worker.Dropping? {
      TellFollows(w, Op.Cancel(w.worker.u.id, "superseded before emission"));
      FollowsKeeps(w.book, b.book, id);
    } else if w.worker.Discarding? {
      TellFollows(w, Op.Cancel(w.worker.u.id, "session ended"));
      FollowsKeeps(w.book, b.book, id);
    }
  }

  lemma StreamingLeavesPlan(w: World, s: Stream, at: Spot, ok: bool, p: Provided)
    requires Sound(w.book) && w.worker == Live(s, at)
    ensures var b := Streaming(w, s, at, ok, p);
      && Follows(w.book, b.book) && b.log.began == w.log.began && b.threads == w.threads
      && b.plan.queue == w.plan.queue && b.plan.epoch == w.plan.epoch
      && (b.worker.Idle? || (b.worker.Live? && b.worker.s.u == s.u))
  {
    hide Sound, Follows, Apply, TransitionError, FrameBytes, Milliseconds, Payload;
    FollowsReflexive(w.book);
    if at.Crossing? { TellFollows(w, Emit(s.u.id)); }
    if at.Settling? {
      TellFollows(w, Complete(s.u.id, s.playedMS));
      TellFollows(w, Complete(s.u.id, 0));
      TellFollows(w, Op.Cancel(s.u.id, "stopped"));
    }
  }

  lemma DeadStep(w: World, e: Event, id: string)
    requires Sound(w.book) && Dead(w, id)
    ensures Dead(Next(w, e), id)
  {
    hide Sound, Follows, Apply, Entering, Ceasing, Working, Speakable, WorkerDead;
    FollowsReflexive(w.book);
    match e
    case Enqueue(t, u, authority) =>
      if Next(w, e) != w { DeadMove(w, Next(w, e), t, Enqueuing(u, authority, Preparing), id); }
    case Cancel(t, reason, pick) =>
      if Next(w, e) != w { DeadMove(w, Next(w, e), t, Cancelling(reason, pick, Reading, []), id); }
    case Shut =>
    case Advance(t, ok) =>
      if t in w.threads {
        if w.threads[t].Enqueuing? { DeadEntering(w, t, ok, id); } else { DeadCeasing(w, t, id); }
      }
    case Work(ok, p, over) => DeadWorking(w, ok, p, over, id);
    case Elsewhere(op) =>
      TellFollows(w, op);
      FollowsKeeps(w.book, Next(w, e).book, id);
  }

  lemma {:induction false} DeadForGood(w: World, events: seq<Event>, id: string)
    requires Safe(w) && Dead(w, id)
    ensures id !in Run(w, events).log.began
    decreases |events|
  {
    hide Safe, Next;
    if events != [] {
      SafeIsSound(w);
      DeadStep(w, events[0], id);
      NextKeeps(w, events[0]);
      DeadForGood(Next(w, events[0]), events[1..], id);
    }
  }

  /** Nothing is dated after epoch n. */
  predicate ThreadDated(x: Thread, n: int) {
    match x
    case Enqueuing(_, _, step) => step.Reserving? || step.Pushing? ==> step.epoch <= n
    case Cancelling(_, _, _, keep) => forall i :: 0 <= i < |keep| ==> keep[i].epoch <= n
  }

  ghost predicate Dated(w: World) {
    && (forall i :: 0 <= i < |w.plan.queue| ==> w.plan.queue[i].epoch <= w.plan.epoch)
    && (forall t :: t in w.threads ==> ThreadDated(w.threads[t], w.plan.epoch))
  }

  lemma DatedMove(a: World, b: World, t: nat, x: Thread)
    requires Dated(a) && a.plan.epoch <= b.plan.epoch && b.threads == a.threads[t := x]
    requires forall i :: 0 <= i < |b.plan.queue| ==> b.plan.queue[i].epoch <= b.plan.epoch
    requires ThreadDated(x, b.plan.epoch)
    ensures Dated(b)
  {
    forall u | u in b.threads ensures ThreadDated(b.threads[u], b.plan.epoch) {
      if u != t { assert ThreadDated(a.threads[u], a.plan.epoch); }
    }
  }

  lemma DatedEntering(w: World, t: nat, ok: bool)
    requires Dated(w) && t in w.threads && w.threads[t].Enqueuing?
    ensures Dated(Entering(w, t, w.threads[t], ok))
  {
    hide Apply, Refusal, TransitionError, Draft;
    var x, b := w.threads[t], Entering(w, t, w.threads[t], ok);
    assert ThreadDated(x, w.plan.epoch);
    if !x.step.Enqueued? { DatedMove(w, b, t, b.threads[t]); }
  }

  lemma DatedDrain(w: World, t: nat)
    requires Dated(w) && t in w.threads && w.threads[t].Cancelling?
    ensures Dated(DrainStep(w, t, w.threads[t]))
  {
    hide Matches;
    var x := w.threads[t];
    assert ThreadDated(x, w.plan.epoch);
    DatedMove(w, DrainStep(w, t, x), t, DrainStep(w, t, x).threads[t]);
  }

  lemma DatedReturn(w: World, t: nat)
    requires Dated(w) && t in w.threads && w.threads[t].Cancelling?
    ensures Dated(ReturnStep(w, t, w.threads[t]))
  {
    var x := w.threads[t];
    assert ThreadDated(x, w.plan.epoch);
    DatedMove(w, ReturnStep(w, t, x), t, ReturnStep(w, t, x).threads[t]);
  }

  lemma DatedCeasing(w: World, t: nat)
    requires Dated(w) && t in w.threads && w.threads[t].Cancelling?
    ensures Dated(Ceasing(w, t, w.threads[t]))
  {
    hide Apply, Crossed, Terminal, Matches, DrainStep, ReturnStep;
    var x, b := w.threads[t], Ceasing(w, t, w.threads[t]);
    assert ThreadDated(x, w.plan.epoch);
    if x.stop.Draining? {
      DatedDrain(w, t);
    } else if x.stop.Returning? {
      DatedReturn(w, t);
    } else if !x.stop.Stopped? {
      DatedMove(w, b, t, b.threads[t]);
    }
  }

  lemma DatedWorking(w: World, ok: bool, p: Provided, over: bool)
    requires Sound(w.book) && Dated(w)
    ensures Dated(Working(w, ok, p, over))
  {
    hide Sound, Apply, Streaming, Follows, ThreadDated;
    if w.worker.Live? { StreamingLeavesPlan(w, w.worker.s, w.worker.at, ok, p); }
  }

  lemma DatedStep(w: World, e: Event)
    requires Sound(w.book) && Dated(w)
    ensures Dated(Next(w, e))
  {
    hide Sound, Apply, Entering, Ceasing, Working, Speakable, Follows;
    match e
    case Enqueue(t, u, authority) =>
      if Next(w, e) != w { DatedMove(w, Next(w, e), t, Enqueuing(u, authority, Preparing)); }
    case Cancel(t, reason, pick) =>
      if Next(w, e) != w { DatedMove(w, Next(w, e), t, Cancelling(reason, pick, Reading, [])); }
    case Shut =>
    case Advance(t, ok) =>
      if t in w.threads {
        if w.threads[t].Enqueuing? { DatedEntering(w, t, ok); } else { DatedCeasing(w, t); }
      }
    case Work(ok, p, over) => DatedWorking(w, ok, p, over);
    case Elsewhere(op) =>
  }

  lemma {:induction false} RunDates(w: World, events: seq<Event>)
    requires Safe(w) && Dated(w)
    ensures Dated(Run(w, events))
    decreases |events|
  {
    hide Safe, Next, Dated;
    if events != [] {
      SafeIsSound(w);
      DatedStep(w, events[0]);
      NextKeeps(w, events[0]);
      RunDates(Next(w, events[0]), events[1..]);
    }
  }

  lemma QueuedIsDead(w: World, t: nat, x: Thread, i: nat)
    requires Safe(w) && Dated(w) && i < |w.plan.queue|
    requires t in w.threads && w.threads[t] == x && x.Cancelling? && x.stop.Reading? && x.pick.None?
    ensures Dead(Ceasing(w, t, x), w.plan.queue[i].u.id)
  {
    hide Sound, Bound, Conserved, Matches, Distinct;
    var b, id := Ceasing(w, t, x), w.plan.queue[i].u.id;
    assert Is(w.place, id, InQueue);
    assert forall j :: 0 <= j < |w.log.began| ==>
      Is(w.place, w.log.began[j], Speaking) || Is(w.place, w.log.began[j], Spoken);
    forall u | u in b.threads ensures ThreadDead(b.threads[u], id, b.plan.epoch) {
      assert ThreadPlaced(w.place, u, w.threads[u]) && ThreadDated(w.threads[u], w.plan.epoch);
    }
  }

  /** `Cancel` drops everything queued: an utterance in the queue when it begins is never spoken, by
      whichever of the many threads it is then taken out, whatever happens. */
  lemma CancelSilencesQueue(depth: nat, frameMS: nat, first: seq<Event>, t: nat, i: nat, rest: seq<Event>)
    ensures var w := Run(Initial(depth, frameMS), first);
      (&& t in w.threads && w.threads[t].Cancelling? && w.threads[t].stop.Reading? && w.threads[t].pick.None?
       && i < |w.plan.queue|) ==>
      w.plan.queue[i].u.id !in Run(Initial(depth, frameMS), first + [Advance(t, true)] + rest).log.began
  {
    hide Run, Next, Safe, Dated, Dead;
    var start, e := Initial(depth, frameMS), Advance(t, true);
    InitialIsSafe(depth, frameMS);
    NothingDated(depth, frameMS);
    RunKeeps(start, first);
    RunDates(start, first);
    var w := Run(start, first);
    if t in w.threads && w.threads[t].Cancelling? && w.threads[t].stop.Reading? && w.threads[t].pick.None?
       && i < |w.plan.queue| {
      QueuedIsDead(w, t, w.threads[t], i);
      AdvanceCeases(w, t);
      NextKeeps(w, e);
      RunSnoc(start, first, e);
      RunJoins(start, first + [e], rest);
      DeadForGood(Next(w, e), rest, w.plan.queue[i].u.id);
    }
  }

  lemma NothingDated(depth: nat, frameMS: nat)
    ensures Dated(Initial(depth, frameMS))
  {
  }

  lemma AdvanceCeases(w: World, t: nat)
    requires t in w.threads && w.threads[t].Cancelling?
    ensures Next(w, Advance(t, true)) == Ceasing(w, t, w.threads[t])
  {
    hide Ceasing;
  }

  /** Whatever interrupted it, an emission's frames taken by the sink, then what was left, are exactly
      the audio synthesised, nothing is left of a completed one, every frame but the last is full,
      and the time reported is the time of the frames taken. */
  lemma AudioIsConserved(depth: nat, frameMS: nat, events: seq<Event>, i: nat)
    ensures var w := Run(Initial(depth, frameMS), events);
      i < |w.log.ended| ==>
        var e := w.log.ended[i];
        && e.from <= e.to <= |w.log.frames|
        && Joined(w.log.frames[e.from..e.to]) + e.residual == e.accepted
        && (e.completed ==> Joined(w.log.frames[e.from..e.to]) == e.accepted)
        && e.playedMS == PlayedIn(w.log.frames[e.from..e.to], e.rate)
        && forall j :: e.from <= j < e.to ==> WellCut(w.log.frames[j], e.u.id, FrameBytes(e.rate, frameMS))
  {
    hide Sound, Bound, Placed, Run, Joined, PlayedIn, FrameBytes, WellCut, Follows;
    InitialIsSafe(depth, frameMS);
    RunKeeps(Initial(depth, frameMS), events);
    RateStays(Initial(depth, frameMS), events);
    var w := Run(Initial(depth, frameMS), events);
    if i < |w.log.ended| {
      assert Settled(w.log.frames, w.plan.frameMS, w.log.ended[i]);
    }
  }

  lemma {:induction false} RateStays(w: World, events: seq<Event>)
    ensures Run(w, events).plan.frameMS == w.plan.frameMS
    decreases |events|
  {
    hide Next;
    if events != [] {
      NextRate(w, events[0]);
      RateStays(Next(w, events[0]), events[1..]);
    }
  }

  lemma NextRate(w: World, e: Event)
    ensures Next(w, e).plan.frameMS == w.plan.frameMS
  {
    hide Apply, TransitionError, Refusal, Crossed, Terminal, Matches, Draft, Milliseconds, FrameBytes, Speakable,
      Payload;
    if e.Advance? && e.t in w.threads { ThreadsLeaveAudio(w, e.t, e.ok); }
  }

  /** No utterance begins twice, and nothing heard is reported from an utterance that did not cross. */
  lemma BeginsOnce(depth: nat, frameMS: nat, events: seq<Event>, i: nat, j: nat)
    ensures var w := Run(Initial(depth, frameMS), events);
      && (i < j < |w.log.began| ==> w.log.began[i] != w.log.began[j])
      && (i < |w.log.heard| ==> Crossed(w.book, w.log.heard[i]))
      && |w.plan.queue| <= w.plan.depth
  {
    hide Sound, Conserved, Run, Follows, Crossed, AllAt;
    InitialIsSafe(depth, frameMS);
    RunKeeps(Initial(depth, frameMS), events);
  }

  // ---- Two places where the code does less than it says ------------------------------------

  /** `stop` returns the commitment: it was not over at the first look and had not crossed at the cancel. */
  predicate StopReports(atLook: Book, atCancel: Book, id: string) {
    && id in atLook.commitments && !Terminal(atLook, id)
    && id in atCancel.commitments && !Crossed(atCancel, id)
  }

  /** This call's own cancel is what ended the commitment. */
  predicate StopMoves(atCancel: Book, id: string) {
    id in atCancel.commitments && atCancel.commitments[id].stage.Open()
  }

  /** The three steps of `stop` return a commitment exactly when `StopReports` says so. */
  lemma StopStepsReport(v: World, w: World, t: nat, x: Thread, id: string, first: bool)
    requires x.Cancelling? && x.stop == Looking(id, first)
    ensures var y := StopStep(v, t, x).threads[t];
      (y == x.(stop := Stopping(id, first)) && StopStep(w, t, y).threads[t] == y.(stop := Relooking(id, first)))
      <==> StopReports(v.book, w.book, id)
  {
    hide Apply, Crossed, Terminal;
  }

  /** `stop` is said to return a commitment only when its own call moved it. What it returns is moved
      by this call, unless somebody else cancelled it between the look and the cancel. */
  lemma StopReportsItsOwnMove(atLook: Book, atCancel: Book, id: string)
    requires Follows(atLook, atCancel)
    ensures StopReports(atLook, atCancel, id) && !StopMoves(atCancel, id)
       <==> id in atLook.commitments && atLook.commitments[id].stage.Open() && CancelledIn(atCancel, id)
    ensures id in atLook.commitments && StopMoves(atCancel, id) ==> StopReports(atLook, atCancel, id)
  {
    hide IndexGrows, DebtsSettle;
    if id in atLook.commitments { assert Advances(atLook.commitments[id], atCancel.commitments[id]); }
  }

  /** And that happens: of two callers that both looked first, the second reports the first's work. */
  lemma SecondStopReportsToo(b: Book, id: string, reason: string)
    requires Sound(b) && id in b.commitments && b.commitments[id].stage.Open()
    ensures var after := Apply(b, Op.Cancel(id, reason));
      && StopReports(b, b, id) && StopMoves(b, id)
      && StopReports(b, after, id) && !StopMoves(after, id)
  {
    hide Sound;
  }

  /** `CancelMatching` is said to leave utterances that do not match alone. One it set aside is lost
      exactly when the queue has filled up by the time it is put back. */
  lemma KeptIsLostWhenFull(w: World, t: nat)
    requires Safe(w) && t in w.threads && w.threads[t].Cancelling? && w.threads[t].stop.Returning?
    requires w.threads[t].keep != []
    ensures var e := w.threads[t].keep[0];
      var b := Next(w, Advance(t, true));
      && (Is(b.place, e.u.id, Lost) <==> |w.plan.queue| == w.plan.depth)
      && (Is(b.place, e.u.id, InQueue) <==> |w.plan.queue| < w.plan.depth)
      && b.book == w.book
  {
    hide Sound, Bound, Conserved, Distinct;
    assert ThreadPlaced(w.place, t, w.threads[t]);
    assert Is(w.place, w.threads[t].keep[0].u.id, Kept(t));
  }

  /** There is room for everything thread t has set aside. */
  ghost predicate Room(w: World, t: nat) {
    && t in w.threads && w.threads[t].Cancelling?
    && |w.threads[t].keep| + |w.plan.queue| <= w.plan.depth
  }

  /** Somebody other than t puts an utterance into the queue. */
  ghost predicate Pushes(w: World, t: nat, e: Event) {
    e != Advance(t, true) && e != Advance(t, false) && |Next(w, e).plan.queue| > |w.plan.queue|
  }

  ghost predicate Undisturbed(w: World, t: nat, events: seq<Event>)
    decreases |events|
  {
    events == [] || (!Pushes(w, t, events[0]) && Undisturbed(Next(w, events[0]), t, events[1..]))
  }

  lemma DepthStays(w: World, e: Event)
    ensures Next(w, e).plan.depth == w.plan.depth
  {
    hide Apply, TransitionError, Refusal, Crossed, Terminal, Matches, Draft, Milliseconds, FrameBytes, Speakable,
      Payload;
    if e.Advance? && e.t in w.threads { ThreadKeepsPlan(w, e.t, e.ok); }
  }

  lemma ThreadKeepsPlan(w: World, t: nat, ok: bool)
    requires t in w.threads
    ensures Aside(w, Next(w, Advance(t, ok)), t)
  {
    hide Entering, Ceasing;
    if w.threads[t].Enqueuing? { EnteringKeepsPlan(w, t, ok); } else { CeasingKeepsPlan(w, t); }
  }

  ghost predicate Aside(a: World, b: World, t: nat) {
    && b.plan.depth == a.plan.depth
    && forall u :: u in a.threads && u != t ==> u in b.threads && b.threads[u] == a.threads[u]
  }

  lemma EnteringKeepsPlan(w: World, t: nat, ok: bool)
    requires t in w.threads && w.threads[t].Enqueuing?
    ensures Aside(w, Entering(w, t, w.threads[t], ok), t)
  {
    hide Apply, Refusal, TransitionError, Draft;
  }

  lemma CeasingKeepsPlan(w: World, t: nat)
    requires t in w.threads && w.threads[t].Cancelling?
    ensures Aside(w, Ceasing(w, t, w.threads[t]), t)
  {
    hide Apply, Crossed, Terminal, Matches;
  }

  lemma WorkerKeepsThreads(w: World, e: Event, t: nat)
    requires t in w.threads && (e.Advance? ==> e.t != t)
    ensures t in Next(w, e).threads && Next(w, e).threads[t] == w.threads[t]
  {
    hide Apply, TransitionError, Milliseconds, FrameBytes, Speakable, Payload, Entering, Ceasing;
    if e.Advance? && e.t in w.threads { ThreadKeepsPlan(w, e.t, e.ok); }
  }

  /** Thread t's own steps keep what it holds and what the queue holds within one total. */
  lemma CeasingKeepsRoom(w: World, t: nat)
    requires Room(w, t)
    ensures Room(Ceasing(w, t, w.threads[t]), t)
  {
    hide Apply, Crossed, Terminal, Matches;
  }

  lemma RoomStep(w: World, t: nat, e: Event)
    requires Room(w, t) && !Pushes(w, t, e)
    ensures Room(Next(w, e), t)
  {
    hide Ceasing, Entering, Working, Apply, Speakable;
    DepthStays(w, e);
    if e.Advance? && e.t == t {
      CeasingKeepsRoom(w, t);
    } else {
      WorkerKeepsThreads(w, e, t);
    }
  }

  /** From the moment there is room for what it holds, as there is before it has set anything aside, a
      `CancelMatching` puts everything back unless somebody else puts an utterance into the queue. */
  lemma {:induction false} UndisturbedPutsBack(w: World, t: nat, events: seq<Event>)
    requires Safe(w) && Room(w, t) && Undisturbed(w, t, events)
    ensures var b := Run(w, events);
      && Room(b, t)
      && (b.threads[t].stop.Returning? && b.threads[t].keep != [] ==>
            Is(Next(b, Advance(t, true)).place, b.threads[t].keep[0].u.id, InQueue))
    decreases |events|
  {
    hide Safe, Next, Room;
    if events == [] {
      RoomMeans(w, t);
      if w.threads[t].stop.Returning? && w.threads[t].keep != [] { KeptIsLostWhenFull(w, t); }
    } else {
      RoomStep(w, t, events[0]);
      NextKeeps(w, events[0]);
      UndisturbedPutsBack(Next(w, events[0]), t, events[1..]);
    }
  }

  lemma RoomMeans(w: World, t: nat)
    requires Room(w, t)
    ensures t in w.threads && w.threads[t].Cancelling? && (w.threads[t].keep != [] ==> |w.plan.queue| < w.plan.depth)
  {
  }

  lemma RunSnoc(w: World, events: seq<Event>, e: Event)
    ensures Run(w, events + [e]) == Next(Run(w, events), e)
  {
    hide Next;
    RunJoins(w, events, [e]);
    var v := Run(w, events);
    assert Run(v, [e]) == Run(Next(v, e), []);
  }

  lemma ThreeSteps(w: World, es: seq<Event>)
    requires |es| == 3
    ensures Run(w, es) == Next(Next(Next(w, es[0]), es[1]), es[2])
  {
    hide Next;
    RunSnoc(w, es[..2], es[2]);
    RunSnoc(w, es[..1], es[1]);
    RunSnoc(w, es[..0], es[0]);
    assert es == es[..2] + [es[2]];
    assert es[..2] == es[..1] + [es[1]];
    assert es[..1] == es[..0] + [es[0]];
  }

  /** An utterance the ledger will take. */
  ghost predicate Sayable(w: World, u: Utterance) {
    Speakable(u, "voice") && Text.TrimSpace(u.id) != "" && u.id !in w.book.commitments
  }

  ghost predicate StageIs(w: World, id: string, s: Stage) {
    id in w.book.commitments && w.book.commitments[id].stage == s
  }

  lemma FirstHalf(w: World, t: nat, u: Utterance)
    requires t !in w.threads && Sayable(w, u)
    ensures var b := Run(w, [Enqueue(t, u, "voice"), Advance(t, true), Advance(t, true)]);
      && b.plan == w.plan && b.threads == w.threads[t := Enqueuing(u, "voice", Checking)]
      && b.book.commitments.Keys == w.book.commitments.Keys + {u.id} && StageIs(b, u.id, Queued)
      && forall id :: id in w.book.commitments ==> b.book.commitments[id] == w.book.commitments[id]
  {
    hide Text.TrimSpace, Speakable, Entering, Run;
    var es := [Enqueue(t, u, "voice"), Advance(t, true), Advance(t, true)];
    ThreeSteps(w, es);
    var one := Next(w, es[0]);
    assert one.threads[t] == Enqueuing(u, "voice", Preparing);
    Commits(one, t, u);
    var two := Next(one, es[1]);
    Lines(two, t, u);
  }

  lemma Commits(w: World, t: nat, u: Utterance)
    requires t in w.threads && w.threads[t] == Enqueuing(u, "voice", Preparing) && Sayable(w, u)
    ensures var b := Entering(w, t, w.threads[t], true);
      && b.plan == w.plan && b.threads == w.threads[t := Enqueuing(u, "voice", Lining)]
      && b.book.commitments == w.book.commitments[u.id := Draft(u, "voice")]
  {
    hide Text.TrimSpace, Speakable;
  }

  lemma Lines(w: World, t: nat, u: Utterance)
    requires t in w.threads && w.threads[t] == Enqueuing(u, "voice", Lining) && StageIs(w, u.id, Prepared)
    ensures var b := Entering(w, t, w.threads[t], true);
      && b.plan == w.plan && b.threads == w.threads[t := Enqueuing(u, "voice", Checking)]
      && b.book.commitments == w.book.commitments[u.id := w.book.commitments[u.id].(stage := Queued)]
  {
  }

  lemma SecondHalf(w: World, t: nat, u: Utterance)
    requires t in w.threads && w.threads[t] == Enqueuing(u, "voice", Checking)
    requires !w.plan.closed && |w.plan.queue| < w.plan.depth
    ensures var b := Run(w, [Advance(t, true), Advance(t, true), Advance(t, true)]);
      && b.plan == w.plan.(queue := w.plan.queue + [Entry(u, w.plan.epoch)]) && b.book == w.book
      && b.threads == w.threads[t := Enqueuing(u, "voice", Enqueued(true))]
  {
    ThreeSteps(w, [Advance(t, true), Advance(t, true), Advance(t, true)]);
  }

  function Enqueueing(t: nat, u: Utterance): seq<Event> {
    [Enqueue(t, u, "voice"), Advance(t, true), Advance(t, true)]
    + [Advance(t, true), Advance(t, true), Advance(t, true)]
  }

  /** An undisturbed `Enqueue` with room in the queue puts its utterance there. */
  lemma EnqueueSucceeds(w: World, t: nat, u: Utterance)
    requires t !in w.threads && Sayable(w, u) && !w.plan.closed && |w.plan.queue| < w.plan.depth
    ensures var b := Run(w, Enqueueing(t, u));
      && b.plan == w.plan.(queue := w.plan.queue + [Entry(u, w.plan.epoch)])
      && b.threads == w.threads[t := Enqueuing(u, "voice", Enqueued(true))]
      && b.book.commitments.Keys == w.book.commitments.Keys + {u.id} && StageIs(b, u.id, Queued)
      && forall id :: id in w.book.commitments ==> b.book.commitments[id] == w.book.commitments[id]
  {
    hide Run, Next, Sayable;
    var es := [Enqueue(t, u, "voice"), Advance(t, true), Advance(t, true)];
    RunJoins(w, es, [Advance(t, true), Advance(t, true), Advance(t, true)]);
    FirstHalf(w, t, u);
    SecondHalf(Run(w, es), t, u);
  }

  function TakingOut(t: nat): seq<Event> {
    [Event.Cancel(t, "superseded", Some({})), Advance(t, true), Advance(t, true)]
  }

  function Holder(stop: Stop, keep: seq<Entry>): Thread { Cancelling("superseded", Some({}), stop, keep) }

  /** A `CancelMatching` that matches nothing takes the one queued utterance out. */
  lemma TakesOut(w: World, t: nat, e: Entry)
    requires t !in w.threads && w.plan.queue == [e] && w.plan.active.None?
    ensures var b := Run(w, TakingOut(t));
      b.plan == w.plan.(queue := []) && b.book == w.book && b.threads == w.threads[t := Holder(Draining, [e])]
  {
    hide Run;
    var es := TakingOut(t);
    ThreeSteps(w, es);
    var two := Next(Next(w, es[0]), es[1]);
    assert two.threads[t] == Holder(Draining, []) && two.plan.queue == [e];
    assert [] + [e] == [e] && [e][1..] == [];
  }

  function SettingAside(t: nat): seq<Event> { TakingOut(t) + [Advance(t, true)] }

  /** And then finds the queue empty. */
  lemma SetsAside(w: World, t: nat, e: Entry)
    requires t !in w.threads && w.plan.queue == [e] && w.plan.active.None?
    ensures var b := Run(w, SettingAside(t));
      b.plan == w.plan.(queue := []) && b.book == w.book && b.threads == w.threads[t := Holder(Returning, [e])]
  {
    hide Run;
    TakesOut(w, t, e);
    RunSnoc(w, TakingOut(t), Advance(t, true));
  }

  function TakingMore(t: nat): seq<Event> { [Advance(t, true), Advance(t, true), Advance(t, true)] }

  /** It takes another, finds the queue empty, and puts the first back. */
  lemma TakesMore(w: World, t: nat, e: Entry, f: Entry)
    requires t in w.threads && w.threads[t] == Holder(Draining, [e]) && w.plan.queue == [f] && w.plan.depth == 1
    ensures var one := Next(w, Advance(t, true));
      && one.plan.queue == [] && t in Next(one, Advance(t, true)).threads
      && Next(one, Advance(t, true)).threads[t] == Holder(Returning, [e, f])
    ensures var b := Run(w, TakingMore(t));
      b.plan == w.plan.(queue := [e]) && b.book == w.book && t in b.threads && b.threads[t] == Holder(Returning, [f])
  {
    hide Run;
    ThreeSteps(w, TakingMore(t));
    assert [e] + [f] == [e, f] && [f][1..] == [] && [e, f][1..] == [f] && [] + [e] == [e];
    var one := Next(w, Advance(t, true));
    assert one.threads[t] == Holder(Draining, [e, f]) && one.plan.queue == [];
    var two := Next(one, Advance(t, true));
    assert two.threads[t] == Holder(Returning, [e, f]) && two.plan.queue == [];
  }

  /** What `CancelMatching` should leave alone, it can lose, starting from nothing: the first utterance is
      queued and set aside, the second takes its place, and putting the first back fails. The ledger
      goes on calling it queued. */
  lemma KeptCanBeLost(frameMS: nat, u: Utterance, v: Utterance) returns (events: seq<Event>)
    requires Sayable(Initial(1, frameMS), u) && Sayable(Initial(1, frameMS), v) && u.id != v.id
    ensures var w := Run(Initial(1, frameMS), events);
      Is(w.place, u.id, Lost) && StageIs(w, u.id, Queued) && w.plan.queue == [Entry(v, 0)]
  {
    hide Run, Next, Speakable, Text.TrimSpace;
    var w0 := Initial(1, frameMS);
    EnqueueSucceeds(w0, 0, u);
    var w1 := Run(w0, Enqueueing(0, u));
    SetsAside(w1, 1, Entry(u, 0));
    var w2 := Run(w1, SettingAside(1));
    EnqueueSucceeds(w2, 2, v);
    var w3 := Run(w2, Enqueueing(2, v));
    events := Enqueueing(0, u) + SettingAside(1) + Enqueueing(2, v) + [Advance(1, true)];
    RunJoins(w0, Enqueueing(0, u), SettingAside(1));
    RunJoins(w0, Enqueueing(0, u) + SettingAside(1), Enqueueing(2, v));
    RunSnoc(w0, Enqueueing(0, u) + SettingAside(1) + Enqueueing(2, v), Advance(1, true));
    Loses(w3, 1, Entry(u, 0));
  }

  lemma Loses(w: World, t: nat, e: Entry)
    requires t in w.threads && w.threads[t] == Holder(Returning, [e]) && |w.plan.queue| >= w.plan.depth
    ensures var b := Next(w, Advance(t, true));
      Is(b.place, e.u.id, Lost) && b.book == w.book && b.plan == w.plan
  {
  }

  /** Pushes while it is still draining count too: here the second utterance is queued between two drains,
      both are set aside, nobody pushes once the queue was found empty, and the second is lost. */
  lemma DrainedLateIsLost(frameMS: nat, u: Utterance, v: Utterance) returns (before: seq<Event>, after: seq<Event>)
    requires Sayable(Initial(1, frameMS), u) && Sayable(Initial(1, frameMS), v) && u.id != v.id
    ensures after == TakingMore(1) + [Advance(1, true)]
    ensures var w := Run(Initial(1, frameMS), before + after);
      Is(w.place, v.id, Lost) && StageIs(w, v.id, Queued) && w.plan.queue == [Entry(u, 0)]
  {
    hide Run, Next, Speakable, Text.TrimSpace;
    var w0 := Initial(1, frameMS);
    EnqueueSucceeds(w0, 0, u);
    var w1 := Run(w0, Enqueueing(0, u));
    TakesOut(w1, 1, Entry(u, 0));
    var w2 := Run(w1, TakingOut(1));
    EnqueueSucceeds(w2, 2, v);
    var w3 := Run(w2, Enqueueing(2, v));
    TakesMore(w3, 1, Entry(u, 0), Entry(v, 0));
    var w4 := Run(w3, TakingMore(1));
    before := Enqueueing(0, u) + TakingOut(1) + Enqueueing(2, v);
    after := TakingMore(1) + [Advance(1, true)];
    RunJoins(w0, Enqueueing(0, u), TakingOut(1));
    RunJoins(w0, Enqueueing(0, u) + TakingOut(1), Enqueueing(2, v));
    RunJoins(w0, before, after);
    RunSnoc(w3, TakingMore(1), Advance(1, true));
    Loses(w4, 1, Entry(v, 0));
  }

  /** And what is lost is never spoken. */
  lemma LostIsNeverSpoken(w: World, events: seq<Event>, id: string)
    requires Safe(w) && Is(w.place, id, Lost)
    ensures id !in Run(w, events).log.began
  {
    hide Sound, Bound, Conserved, Run, Follows, AllAt, ThreadPlaced, WorkerPlaced;
    RunKeeps(w, events);
    var now := Run(w, events);
    assert Is(now.place, id, Lost);
    assert forall i :: 0 <= i < |now.log.began| ==>
      Is(now.place, now.log.began[i], Speaking) || Is(now.place, now.log.began[i], Spoken);
  }

  lemma SafeIsSound(w: World)
    requires Safe(w)
    ensures Sound(w.book)
  {
    hide Sound, Bound, Conserved, Placed;
  }

  /** The planner itself, one critical section, channel operation or outside call at a time. */
  class Speech {
    const ledger: Ledger
    const depth: nat
    const frameMS: nat
    var queue: seq<Entry>
    var epoch: nat
    var active: Option<Utterance>
    var closed: bool
    var worker: Worker
    var threads: map<nat, Thread>
    var log: Log    // what has happened, seen from outside
    ghost var place: map<string, Place>

    ghost function Value(): World
      reads this, ledger
    {
      World(ledger.Value(), Plan(depth, frameMS, queue, epoch, active, closed), worker, threads, log, place)
    }

    /** The protocol's invariant holds of this object and of the ledger it shares. */
    ghost predicate Valid()
      reads this, ledger
    {
      Safe(Value())
    }

    constructor (l: Ledger, queueDepth: nat, frameDuration: nat)
      requires l.Value() == EMPTY
      ensures ledger == l && depth == queueDepth && frameMS == frameDuration
      ensures Value() == Initial(queueDepth, frameDuration) && Valid()
    {
      ledger, depth, frameMS := l, queueDepth, frameDuration;
      queue, epoch, active, closed, worker, threads := [], 0, None, false, Idle, map[];
      log, place := Log([], [], [], [], []), map[];
      new;
      InitialIsSafe(queueDepth, frameDuration);
    }

    /** A call of `Enqueue` begins. */
    method BeginEnqueue(t: nat, u: Utterance, authority: string)
      requires Valid() && t !in threads
      modifies this`threads
      ensures Valid() && Value() == Next(old(Value()), Event.Enqueue(t, u, authority))
    {
      hide Safe, Text.TrimSpace;
      NextKeeps(Value(), Event.Enqueue(t, u, authority));
      if u.id == "" || Text.TrimSpace(u.text) == "" || authority == "silent" { return; }
      Set(t, Enqueuing(u, authority, Preparing));
    }

    /** A call of `Cancel`, or of `CancelMatching` for the utterances in `pick`, begins. */
    method BeginCancel(t: nat, reason: string, pick: Option<set<string>>)
      requires Valid() && t !in threads
      modifies this`threads
      ensures Valid() && Value() == Next(old(Value()), Event.Cancel(t, reason, pick))
    {
      hide Safe;
      NextKeeps(Value(), Event.Cancel(t, reason, pick));
      Set(t, Cancelling(reason, pick, Reading, []));
    }

    /** The first section of `Close`; a `Cancel` follows it. */
    method Shuts()
      requires Valid()
      modifies this`closed
      ensures Valid() && Value() == Next(old(Value()), Shut)
    {
      hide Safe;
      NextKeeps(Value(), Shut);
      closed := true;
    }

    /** Whatever else is done to the ledger. */
    method Other(op: Op)
      requires Valid()
      modifies ledger
      ensures Valid() && Value() == Next(old(Value()), Elsewhere(op)) && Remembers(old(Value()), Value())
    {
      hide Safe, Sound, Follows, Apply, Refusal, TransitionError, Owed, Remembers;
      NextKeeps(Value(), Elsewhere(op));
      SafeIsSound(Value());
      match op
      case Prepare(c) => var _ := ledger.Prepare(c);
      case Queue(id) => var _ := ledger.Queue(id);
      case Emit(id) => var _ := ledger.Emit(id);
      case Complete(id, ms) => var _ := ledger.Complete(id, ms);
      case Cancel(id, reason) => var _, _ := ledger.Cancel(id, reason);
      case Invalidate(id, revision) => var _ := ledger.Invalidate(id, revision);
      case Resolve(id) => var _ := ledger.ResolveObligation(id);
      case Truncate(id, ms) => var _ := ledger.Truncated(id, ms);
    }

    method Set(t: nat, x: Thread)
      modifies this`threads
      ensures threads == old(threads)[t := x]
    {
      threads := threads[t := x];
    }

    /** One step of an `Enqueue`. */
    method Enters(t: nat, ok: bool)
      requires Valid() && t in threads && threads[t].Enqueuing?
      modifies this`threads, this`queue, this`place, ledger
      ensures Valid() && Value() == Next(old(Value()), Advance(t, ok)) && Remembers(old(Value()), Value())
    {
      hide Safe, Sound, Follows, Apply, Refusal, TransitionError, Remembers;
      NextKeeps(Value(), Advance(t, ok));
      SafeIsSound(Value());
      var x := threads[t];
      match x.step
      case Preparing =>
        var err := ledger.Prepare(Draft(x.u, x.authority));
        if err.Some? {
          Set(t, x.(step := Enqueued(false)));
        } else {
          place := place[x.u.id := Sender(t)];
          Set(t, x.(step := Lining));
        }
      case Lining =>
        var err := ledger.Queue(x.u.id);
        if err.Some? {
          place := place[x.u.id := Refused];
          Set(t, x.(step := Enqueued(false)));
        } else {
          Set(t, x.(step := Checking));
        }
      case Checking => Set(t, x.(step := if closed then Backing else Reserving(epoch)));
      case Reserving(e) => Set(t, x.(step := if ok then Pushing(e) else Backing));
      case Pushing(e) =>
        if |queue| < depth {
          queue := queue + [Entry(x.u, e)];
          place := place[x.u.id := InQueue];
          Set(t, x.(step := Enqueued(true)));
        } else {
          Set(t, x.(step := Backing));
        }
      case Backing =>
        var _, _ := ledger.Cancel(x.u.id, "refused");
        place := place[x.u.id := Discarded];
        Set(t, x.(step := Enqueued(false)));
      case Enqueued(_) =>
    }

    /** One of `stop`'s three ledger calls, or the lookup of what was heard. */
    method Stops(t: nat)
      requires t in threads && threads[t].Cancelling? && ledger.Valid()
      requires !threads[t].stop.Draining? && !threads[t].stop.Returning? && !threads[t].stop.Reading?
      modifies this`threads, this`log, ledger
      ensures ledger.Valid() && Value() == StopStep(old(Value()), t, old(threads)[t])
    {
      hide Sound, Follows, Apply;
      var x := threads[t];
      match x.stop
      case Looking(id, first) =>
        if id !in ledger.commitments || ledger.commitments[id].stage.Terminal() {
          var crossed := id in ledger.commitments && ledger.commitments[id].stage.Crossed();
          Set(t, x.(stop := if first && crossed then Hearing(id) else Draining));
        } else {
          Set(t, x.(stop := Stopping(id, first)));
        }
      case Stopping(id, first) =>
        var crossed, err := ledger.Cancel(id, x.reason);
        if err.Some? || crossed {
          Set(t, x.(stop := if first && crossed then Hearing(id) else Draining));
        } else {
          Set(t, x.(stop := Relooking(id, first)));
        }
      case Relooking(id, first) =>
        log := log.(reported := log.reported + [id]);
        Set(t, x.(stop := Draining));
      case Hearing(id) =>
        log := log.(heard := log.heard + [id]);
        Set(t, x.(stop := Draining));
      case _ =>
    }

    /** One step of a `Cancel` or a `CancelMatching`. */
    method Ceases(t: nat)
      requires Valid() && t in threads && threads[t].Cancelling?
      modifies this`threads, this`log, this`queue, this`epoch, this`place, ledger
      ensures Valid() && Value() == Next(old(Value()), Advance(t, true)) && Remembers(old(Value()), Value())
    {
      hide Safe, Sound, StopStep, Matches, Remembers;
      NextKeeps(Value(), Advance(t, true));
      SafeIsSound(Value());
      var x := threads[t];
      match x.stop
      case Reading =>
        if x.pick.None? { epoch := epoch + 1; }
        if active.Some? && Matches(x.pick, active.value.id) {
          Set(t, x.(stop := Looking(active.value.id, true)));
        } else {
          Set(t, x.(stop := Draining));
        }
      case Draining =>
        if queue == [] {
          Set(t, x.(stop := if x.pick.Some? then Returning else Stopped));
        } else {
          var e := queue[0];
          queue := queue[1..];
          if Matches(x.pick, e.u.id) {
            place := place[e.u.id := Discarded];
            Set(t, x.(stop := Looking(e.u.id, false)));
          } else {
            place := place[e.u.id := Kept(t)];
            Set(t, x.(keep := x.keep + [e]));
          }
        }
      case Returning =>
        if x.keep == [] {
          Set(t, x.(stop := Stopped));
        } else if |queue| < depth {
          queue := queue + [x.keep[0]];
          place := place[x.keep[0].u.id := InQueue];
          Set(t, x.(keep := x.keep[1..]));
        } else {
          place := place[x.keep[0].u.id := Lost];
          Set(t, x.(keep := x.keep[1..]));
        }
      case _ => Stops(t);
    }

    /** One step of emitting the active utterance. */
    method Streams(s: Stream, at: Spot, ok: bool, p: Provided)
      requires worker == Live(s, at) && ledger.Valid()
      modifies this`worker, this`active, this`log, this`place, ledger
      ensures ledger.Valid() && Value() == Streaming(old(Value()), s, at, ok, p)
    {
      hide Sound, Follows, Apply, TransitionError, FrameBytes, Milliseconds;
      match at
      case Opening => worker := Live(s, if ok then Pulling else Settling(false));
      case Pulling =>
        match p {
          case Chunk(rate, bytes) => Receives(s, rate, bytes);
          case Finished => worker := Live(s, Closing);
          case Broken => worker := Live(s, Settling(false));
        }
      case Cutting =>
        if |s.buffer| < s.frameBytes {
          worker := Live(s, Pulling);
        } else if s.frameBytes > 0 {
          worker := Live(s, Waiting(false));
        }
      case Waiting(final) => worker := Live(s, if ok then Crossing(final) else Stumble(final));
      case Crossing(final) =>
        var err := ledger.Emit(s.u.id);
        worker := Live(s, if err.None? then Handing(final) else Stumble(final));
      case Handing(final) => worker := Live(s, if ok then Sending(final) else Stumble(final));
      case Sending(final) => if final || |s.buffer| >= s.frameBytes { Sends(s, final, ok); }
      case Closing =>
        worker := Live(s, if !ok || s.rate == 0 then Settling(false)
                          else if s.buffer == [] then Settling(true) else Waiting(true));
      case Settling(completed) =>
        if s.playedMS > 0 {
          var _ := ledger.Complete(s.u.id, s.playedMS);
        } else if !completed {
          var _, _ := ledger.Cancel(s.u.id, "stopped");
        } else {
          var _ := ledger.Complete(s.u.id, 0);
        }
        worker := Live(s, Ending(completed));
      case Ending(completed) =>
        log := log.(ended := log.ended + [Over(s, |log.frames|, completed)]);
        place := place[s.u.id := Spoken];
        worker, active := Idle, None;
    }

    /** The provider's callback up to the frame loop. */
    method Receives(s: Stream, rate: nat, bytes: Bytes)
      requires worker == Live(s, Pulling)
      modifies this`worker
      ensures Value() == Callback(old(Value()), s, rate, bytes)
    {
      var r := s;
      if r.rate == 0 {
        if rate == 0 { return; }
        r := r.(rate := rate, frameBytes := FrameBytes(rate, frameMS));
        worker := Live(r, Pulling);
        if r.frameBytes == 0 { return; }
      }
      if rate != r.rate { return; }
      r := r.(buffer := r.buffer + bytes, accepted := r.accepted + bytes);
      worker := Live(r, Cutting);
    }

    method Sends(s: Stream, final: bool, ok: bool)
      requires !final ==> s.frameBytes <= |s.buffer|
      modifies this`worker, this`log
      ensures Value() == Send(old(Value()), s, final, ok)
    {
      hide Milliseconds;
      var payload := if final then s.buffer else s.buffer[..s.frameBytes];
      log := log.(frames := log.frames + [Frame(s.u.id, payload, final, ok)]);
      if !ok {
        worker := Live(s, Stumble(final));
      } else {
        var r := s.(buffer := s.buffer[|payload|..], playedMS := s.playedMS + Milliseconds(|payload|, s.rate));
        worker := Live(r, if final then Settling(true) else Cutting);
      }
    }

    /** One step of the worker. */
    method Works(ok: bool, p: Provided, over: bool)
      requires Valid()
      modifies this`worker, this`active, this`queue, this`log, this`place, ledger
      ensures Valid() && Value() == Next(old(Value()), Work(ok, p, over)) && Remembers(old(Value()), Value())
    {
      hide Safe, Sound, Follows, Apply, Streaming, Remembers;
      NextKeeps(Value(), Work(ok, p, over));
      SafeIsSound(Value());
      match worker
      case Idle =>
        if over {
          worker := Sweeping;
        } else if queue != [] {
          place := place[queue[0].u.id := AtWorker];
          worker, queue := Picked(queue[0]), queue[1..];
        }
      case Picked(e) => worker := if e.epoch != epoch then Dropping(e.u) else Starting(e.u);
      case Dropping(u) =>
        var _, _ := ledger.Cancel(u.id, "superseded before emission");
        place := place[u.id := Discarded];
        worker := Idle;
      case Starting(u) =>
        active := Some(u);
        worker := Live(Stream(u, 0, 0, [], 0, [], |log.frames|), Opening);
        log := log.(began := log.began + [u.id]);
        place := place[u.id := Speaking];
      case Live(s, at) => Streams(s, at, ok, p);
      case Sweeping =>
        if queue == [] {
          worker := Halted;
        } else {
          place := place[queue[0].u.id := AtWorker];
          worker, queue := Discarding(queue[0].u), queue[1..];
        }
      case Discarding(u) =>
        var _, _ := ledger.Cancel(u.id, "session ended");
        place := place[u.id := Discarded];
        worker := Sweeping;
      case Halted =>
    }
  }
}
