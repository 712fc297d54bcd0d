/** What the speech worker and its callers come to when nobody disturbs them. */
module SpeechRuns {
  import opened Prelude
  import opened SpeechPlan
  import L = Ledgers

  // ---- Frames of a buffer ------------------------------------------------------------------

  /** The full frames a buffer holds. */
  function Cut(buffer: Bytes, size: nat): seq<Bytes>
    requires size > 0
  {
    if |buffer| < size then [] else [buffer[..size]] + Cut(buffer[size..], size)
  }

  /** What is left after them. */
  function Rest(buffer: Bytes, size: nat): (r: Bytes)
    requires size > 0
    ensures |r| < size
  {
    if |buffer| < size then buffer else Rest(buffer[size..], size)
  }

  function Join(parts: seq<Bytes>): Bytes { if parts == [] then [] else parts[0] + Join(parts[1..]) }

  lemma {:induction false} JoinJoins(a: seq<Bytes>, b: seq<Bytes>)
    ensures Join(a + b) == Join(a) + Join(b)
  {
    if a == [] {
      assert a + b == b;
    } else {
      assert (a + b)[1..] == a[1..] + b;
      JoinJoins(a[1..], b);
    }
  }

  /** Cutting loses nothing, and every frame is full. */
  lemma {:induction false} CutConserves(buffer: Bytes, size: nat)
    requires size > 0
    ensures Join(Cut(buffer, size)) + Rest(buffer, size) == buffer
    ensures forall i :: 0 <= i < |Cut(buffer, size)| ==> |Cut(buffer, size)[i]| == size
    decreases |buffer|
  {
    if |buffer| >= size {
      var parts := Cut(buffer, size);
      CutConserves(buffer[size..], size);
      assert parts[1..] == Cut(buffer[size..], size);
    }
  }

  /** Cutting a part and then the rest with more is cutting the whole. */
  lemma {:induction false} CutContinues(a: Bytes, b: Bytes, size: nat)
    requires size > 0
    ensures Cut(a + b, size) == Cut(a, size) + Cut(Rest(a, size) + b, size)
    ensures Rest(a + b, size) == Rest(Rest(a, size) + b, size)
    decreases |a|
  {
    if |a| >= size {
      assert (a + b)[..size] == a[..size] && (a + b)[size..] == a[size..] + b;
      CutContinues(a[size..], b, size);
    }
  }

  /** Whole milliseconds of these frames at this many samples a second, two bytes to a sample. */
  function PlayedMS(parts: seq<Bytes>, rate: nat): nat
    requires rate > 0
  {
    if parts == [] then 0 else |parts[0]| / 2 * 1_000_000_000 / rate / 1_000_000 + PlayedMS(parts[1..], rate)
  }

  lemma {:induction false} PlayedJoins(a: seq<Bytes>, b: seq<Bytes>, rate: nat)
    requires rate > 0
    ensures PlayedMS(a + b, rate) == PlayedMS(a, rate) + PlayedMS(b, rate)
  {
    if a == [] {
      assert a + b == b;
    } else {
      assert (a + b)[1..] == a[1..] + b;
      PlayedJoins(a[1..], b, rate);
    }
  }

  function Given(id: string, parts: seq<Bytes>, final: bool): seq<Frame> {
    seq(|parts|, i requires 0 <= i < |parts| => Frame(id, parts[i], final, true))
  }

  // ---- The worker on its own ---------------------------------------------------------------

  const GO := Work(true, Finished, false)

  /** n sections of the worker in which every outside answer is good and the provider is not asked. */
  function Quietly(n: nat): seq<Event> { if n == 0 then [] else [GO] + Quietly(n - 1) }

  lemma {:induction false} QuietlyJoins(m: nat, n: nat)
    ensures Quietly(m + n) == Quietly(m) + Quietly(n)
  {
    if m > 0 { QuietlyJoins(m - 1, n); }
  }

  lemma RunOne(w: World, e: Event, es: seq<Event>)
    ensures Run(w, [e] + es) == Run(Next(w, e), es)
  {
    hide Next;
    assert ([e] + es)[1..] == es;
  }

  lemma RunQuiet(w: World, n: nat)
    requires n > 0
    ensures Run(w, Quietly(n)) == Run(Working(w, true, Finished, false), Quietly(n - 1))
  {
    hide Working;
    RunOne(w, GO, Quietly(n - 1));
  }

  lemma RunNothing(w: World)
    ensures Run(w, Quietly(0)) == w
  {
  }

  /** The world a, once its worker is at this spot of a stream, has given out these frames, and has the
      commitment at this stage; all else is as it was. */
  function Talking(a: World, s: Stream, at: Spot, stage: L.Stage, frames: seq<Frame>): World
    requires s.u.id in a.book.commitments
  {
    a.(worker := Live(s, at), log := a.log.(frames := a.log.frames + frames),
       book := L.SetStage(a.book, s.u.id, stage))
  }

  lemma EmitMoves(a: World, s: Stream, at: Spot, stage: L.Stage, frames: seq<Frame>)
    requires s.u.id in a.book.commitments && stage in {L.Queued, L.Stage.Emitting}
    ensures var b := Talking(a, s, at, stage, frames);
      && L.TransitionError(b.book, s.u.id, L.Stage.Emitting).None?
      && L.Apply(b.book, L.Emit(s.u.id)) == L.SetStage(a.book, s.u.id, L.Stage.Emitting)
  {
    var c := a.book.commitments[s.u.id];
    assert a.book.commitments[s.u.id := c.(stage := stage)][s.u.id := c.(stage := L.Stage.Emitting)]
        == a.book.commitments[s.u.id := c.(stage := L.Stage.Emitting)];
  }

  /** From the head of the frame loop, five sections give one full frame to the sink. */
  lemma FrameGoes(a: World, s: Stream, stage: L.Stage, frames: seq<Frame>, n: nat)
    requires s.u.id in a.book.commitments && stage in {L.Queued, L.Stage.Emitting}
    requires 0 < s.frameBytes <= |s.buffer| && s.rate > 0
    ensures var part := s.buffer[..s.frameBytes];
      var next := s.(buffer := s.buffer[s.frameBytes..],
                     playedMS := s.playedMS + s.frameBytes / 2 * 1_000_000_000 / s.rate / 1_000_000);
      Run(Talking(a, s, Cutting, stage, frames), Quietly(n + 5)) ==
      Run(Talking(a, next, Cutting, L.Stage.Emitting, frames + [Frame(s.u.id, part, false, true)]), Quietly(n))
  {
    hide Run, L.Apply, L.TransitionError, L.SetStage, Quietly;
    var b := Talking(a, s, Cutting, stage, frames);
    RunQuiet(b, n + 5);
    RunQuiet(Talking(a, s, Waiting(false), stage, frames), n + 4);
    RunQuiet(Talking(a, s, Crossing(false), stage, frames), n + 3);
    EmitMoves(a, s, Crossing(false), stage, frames);
    RunQuiet(Talking(a, s, Handing(false), L.Stage.Emitting, frames), n + 2);
    RunQuiet(Talking(a, s, Sending(false), L.Stage.Emitting, frames), n + 1);
    assert (a.log.frames + frames) + [Frame(s.u.id, s.buffer[..s.frameBytes], false, true)]
        == a.log.frames + (frames + [Frame(s.u.id, s.buffer[..s.frameBytes], false, true)]);
  }

  /** The stage once these frames have been given out: the first one crosses. */
  function After(stage: L.Stage, parts: seq<Bytes>): L.Stage { if parts == [] then stage else L.Stage.Emitting }

  /** The stream once these frames have left its buffer. */
  function Drained(s: Stream, parts: seq<Bytes>, rest: Bytes): Stream
    requires s.rate > 0
  {
    s.(buffer := rest, playedMS := s.playedMS + PlayedMS(parts, s.rate))
  }

  /** One whole callback: every full frame goes out, and the provider gets control back. */
  lemma {:induction false} FramesGo(a: World, s: Stream, stage: L.Stage, frames: seq<Frame>, n: nat)
    requires s.u.id in a.book.commitments && stage in {L.Queued, L.Stage.Emitting} && s.frameBytes > 0 && s.rate > 0
    ensures var parts := Cut(s.buffer, s.frameBytes);
      Run(Talking(a, s, Cutting, stage, frames), Quietly(n + 1 + 5 * |parts|)) ==
      Run(Talking(a, Drained(s, parts, Rest(s.buffer, s.frameBytes)), Pulling, After(stage, parts),
                  frames + Given(s.u.id, parts, false)), Quietly(n))
    decreases |s.buffer|
  {
    hide Run, L.SetStage, Quietly, Talking;
    var parts := Cut(s.buffer, s.frameBytes);
    if |s.buffer| < s.frameBytes {
      CallbackEnds(a, s, stage, frames, n);
      assert frames + Given(s.u.id, parts, false) == frames;
      assert Drained(s, parts, s.buffer) == s;
    } else {
      var part, later := s.buffer[..s.frameBytes], s.buffer[s.frameBytes..];
      var next := s.(buffer := later,
                     playedMS := s.playedMS + s.frameBytes / 2 * 1_000_000_000 / s.rate / 1_000_000);
      var more := Cut(later, s.frameBytes);
      assert parts[1..] == more && parts[0] == part;
      FrameGoes(a, s, stage, frames, n + 1 + 5 * |more|);
      FramesGo(a, next, L.Stage.Emitting, frames + [Frame(s.u.id, part, false, true)], n);
      assert frames + [Frame(s.u.id, part, false, true)] + Given(s.u.id, more, false)
          == frames + Given(s.u.id, parts, false);
      assert Drained(next, more, Rest(later, s.frameBytes)) == Drained(s, parts, Rest(s.buffer, s.frameBytes));
    }
  }

  lemma CallbackEnds(a: World, s: Stream, stage: L.Stage, frames: seq<Frame>, n: nat)
    requires s.u.id in a.book.commitments && |s.buffer| < s.frameBytes
    ensures Run(Talking(a, s, Cutting, stage, frames), Quietly(n + 1)) ==
      Run(Talking(a, s, Pulling, stage, frames), Quietly(n))
  {
    hide Run, L.SetStage, Quietly;
    RunQuiet(Talking(a, s, Cutting, stage, frames), n + 1);
  }

  // ---- The provider's chunks ---------------------------------------------------------------

  function Chunks(rate: nat, chunk: Bytes): Event { Work(true, Chunk(rate, chunk), false) }

  /** The events of a provider that gives these chunks when `held` bytes await their frame. */
  function Synthesis(rate: nat, size: nat, held: Bytes, chunks: seq<Bytes>): seq<Event>
    requires size > 0
    decreases |chunks|
  {
    if chunks == [] then []
    else
      [Chunks(rate, chunks[0])] + Quietly(1 + 5 * |Cut(held + chunks[0], size)|)
      + Synthesis(rate, size, Rest(held + chunks[0], size), chunks[1..])
  }

  /** A stream part way: it has this much in its buffer, has accepted this much and played this long. Before
      the first chunk it knows no rate. */
  function Part(u: Utterance, known: bool, rate: nat, size: nat, held: Bytes, accepted: Bytes, ms: nat,
                from: nat): Stream {
    Stream(u, if known then rate else 0, if known then size else 0, held, ms, accepted, from)
  }

  lemma ChunkComes(a: World, u: Utterance, known: bool, rate: nat, size: nat, held: Bytes, accepted: Bytes, ms: nat,
                   from: nat, stage: L.Stage, frames: seq<Frame>, chunk: Bytes)
    requires u.id in a.book.commitments && rate > 0 && size == rate * a.plan.frameMS / 1000 * 2 > 0
    requires !known ==> held == []
    ensures Next(Talking(a, Part(u, known, rate, size, held, accepted, ms, from), Pulling, stage, frames),
                 Chunks(rate, chunk))
         == Talking(a, Part(u, true, rate, size, held + chunk, accepted + chunk, ms, from), Cutting, stage, frames)
  {
    hide L.SetStage;
  }

  lemma {:induction false} ChunksGo(a: World, u: Utterance, known: bool, rate: nat, size: nat, held: Bytes,
      accepted: Bytes, ms: nat, from: nat, stage: L.Stage, frames: seq<Frame>, chunks: seq<Bytes>, es: seq<Event>)
    requires u.id in a.book.commitments && rate > 0 && size == rate * a.plan.frameMS / 1000 * 2 > 0
    requires stage in {L.Queued, L.Stage.Emitting} && |held| < size && (!known ==> held == [])
    ensures var bytes, parts := held + Join(chunks), Cut(held + Join(chunks), size);
      Run(Talking(a, Part(u, known, rate, size, held, accepted, ms, from), Pulling, stage, frames),
          Synthesis(rate, size, held, chunks) + es) ==
      Run(Talking(a, Part(u, known || chunks != [], rate, size, Rest(bytes, size), accepted + Join(chunks),
                          ms + PlayedMS(parts, rate), from),
                  Pulling, After(stage, parts), frames + Given(u.id, parts, false)), es)
    decreases |chunks|
  {
    hide Run, Next, L.SetStage, Quietly, Talking, Cut, Rest;
    if chunks == [] {
      CutNothing(held, size);
      assert held + Join(chunks) == held && accepted + Join(chunks) == accepted;
      assert frames + Given(u.id, [], false) == frames;
      assert Synthesis(rate, size, held, chunks) + es == es;
    } else {
      var now := held + chunks[0];
      var parts, rest := Cut(now, size), Rest(now, size);
      var w0 := Talking(a, Part(u, known, rate, size, held, accepted, ms, from), Pulling, stage, frames);
      var s1 := Part(u, true, rate, size, now, accepted + chunks[0], ms, from);
      var quiet, later := Quietly(1 + 5 * |parts|), Synthesis(rate, size, rest, chunks[1..]);
      assert Synthesis(rate, size, held, chunks) + es == [Chunks(rate, chunks[0])] + (quiet + (later + es));
      ChunkComes(a, u, known, rate, size, held, accepted, ms, from, stage, frames, chunks[0]);
      RunOne(w0, Chunks(rate, chunks[0]), quiet + (later + es));
      RunJoins(Talking(a, s1, Cutting, stage, frames), quiet, later + es);
      FramesGo(a, s1, stage, frames, 0);
      var s2 := Part(u, true, rate, size, rest, accepted + chunks[0], ms + PlayedMS(parts, rate), from);
      var given := frames + Given(u.id, parts, false);
      RunNothing(Talking(a, s2, Pulling, After(stage, parts), given));
      ChunksGo(a, u, true, rate, size, rest, accepted + chunks[0], ms + PlayedMS(parts, rate), from,
               After(stage, parts), given, chunks[1..], es);
      Continues(held, chunks, size, rate);
      var more := Cut(rest + Join(chunks[1..]), size);
      assert given + Given(u.id, more, false) == frames + Given(u.id, parts + more, false);
      assert accepted + chunks[0] + Join(chunks[1..]) == accepted + Join(chunks);
    }
  }

  lemma CutNothing(held: Bytes, size: nat)
    requires |held| < size
    ensures Cut(held, size) == [] && Rest(held, size) == held
  {
  }

  lemma Continues(held: Bytes, chunks: seq<Bytes>, size: nat, rate: nat)
    requires size > 0 && rate > 0 && chunks != []
    ensures var parts, rest := Cut(held + chunks[0], size), Rest(held + chunks[0], size);
      && Cut(held + Join(chunks), size) == parts + Cut(rest + Join(chunks[1..]), size)
      && Rest(held + Join(chunks), size) == Rest(rest + Join(chunks[1..]), size)
      && PlayedMS(Cut(held + Join(chunks), size), rate)
         == PlayedMS(parts, rate) + PlayedMS(Cut(rest + Join(chunks[1..]), size), rate)
  {
    hide Cut, Rest, PlayedMS;
    assert held + Join(chunks) == (held + chunks[0]) + Join(chunks[1..]);
    CutContinues(held + chunks[0], Join(chunks[1..]), size);
    PlayedJoins(Cut(held + chunks[0], size), Cut(Rest(held + chunks[0], size) + Join(chunks[1..]), size), rate);
  }

  // ---- A whole utterance -------------------------------------------------------------------

  /** An utterance of the present epoch is next, and the ledger has it queued. */
  ghost predicate HeadIsDue(w: World) {
    && w.worker.Idle? && w.plan.queue != [] && w.plan.queue[0].epoch == w.plan.epoch
    && StageIs(w, w.plan.queue[0].u.id, L.Queued)
  }

  /** The world once the utterance at the head of the queue has become the active one. */
  function Started(w: World): World
    requires w.plan.queue != []
  {
    var u := w.plan.queue[0].u;
    w.(plan := w.plan.(queue := w.plan.queue[1..], active := Some(u)), log := w.log.(began := w.log.began + [u.id]),
       place := w.place[u.id := Speaking])
  }

  lemma Starts(w: World, es: seq<Event>)
    requires HeadIsDue(w)
    ensures var u := w.plan.queue[0].u;
      Run(w, Quietly(4) + es)
      == Run(Talking(Started(w), Part(u, false, 0, 0, [], [], 0, |w.log.frames|), Pulling, L.Queued, []), es)
  {
    hide Run, Quietly, Working, Talking, Opens;
    RunJoins(w, Quietly(4), es);
    RunQuiet(w, 4);
    RunQuiet(PickedUp(w), 3);
    RunQuiet(PickedUp(w).(worker := Starting(w.plan.queue[0].u)), 2);
    RunQuiet(Opens(w), 1);
    TakesHead(w);
    BeginsHead(w);
    RunNothing(Working(Opens(w), true, Finished, false));
  }

  /** The head of the queue in the worker's hands. */
  function PickedUp(w: World): World
    requires w.plan.queue != []
  {
    w.(plan := w.plan.(queue := w.plan.queue[1..]), worker := Picked(w.plan.queue[0]),
       place := w.place[w.plan.queue[0].u.id := AtWorker])
  }

  function Opens(w: World): World
    requires w.plan.queue != []
  {
    Started(w).(worker := Live(Part(w.plan.queue[0].u, false, 0, 0, [], [], 0, |w.log.frames|), Opening))
  }

  lemma TakesHead(w: World)
    requires HeadIsDue(w)
    ensures Working(w, true, Finished, false) == PickedUp(w)
    ensures Working(PickedUp(w), true, Finished, false) == PickedUp(w).(worker := Starting(w.plan.queue[0].u))
    ensures Working(PickedUp(w).(worker := Starting(w.plan.queue[0].u)), true, Finished, false) == Opens(w)
  {
    hide StageIs;
    var id := w.plan.queue[0].u.id;
    assert w.place[id := AtWorker][id := Speaking] == w.place[id := Speaking];
  }

  lemma BeginsHead(w: World)
    requires HeadIsDue(w)
    ensures Working(Opens(w), true, Finished, false) ==
      Talking(Started(w), Part(w.plan.queue[0].u, false, 0, 0, [], [], 0, |w.log.frames|), Pulling, L.Queued, [])
  {
    var id := w.plan.queue[0].u.id;
    assert w.book.commitments[id := w.book.commitments[id].(stage := L.Queued)] == w.book.commitments;
    assert Started(w).log.frames + [] == w.log.frames;
  }

  /** The last frame, if any bytes are left: four sections and no more. */
  lemma LastFrameGoes(a: World, s: Stream, stage: L.Stage, frames: seq<Frame>, n: nat)
    requires s.u.id in a.book.commitments && stage in {L.Queued, L.Stage.Emitting} && s.rate > 0 && s.buffer != []
    ensures var next := s.(buffer := [],
                           playedMS := s.playedMS + |s.buffer| / 2 * 1_000_000_000 / s.rate / 1_000_000);
      Run(Talking(a, s, Waiting(true), stage, frames), Quietly(n + 4)) ==
      Run(Talking(a, next, Settling(true), L.Stage.Emitting, frames + [Frame(s.u.id, s.buffer, true, true)]),
          Quietly(n))
  {
    hide Run, L.Apply, L.TransitionError, L.SetStage, Quietly;
    RunQuiet(Talking(a, s, Waiting(true), stage, frames), n + 4);
    RunQuiet(Talking(a, s, Crossing(true), stage, frames), n + 3);
    EmitMoves(a, s, Crossing(true), stage, frames);
    RunQuiet(Talking(a, s, Handing(true), L.Stage.Emitting, frames), n + 2);
    RunQuiet(Talking(a, s, Sending(true), L.Stage.Emitting, frames), n + 1);
    assert s.buffer[|s.buffer|..] == [];
    assert (a.log.frames + frames) + [Frame(s.u.id, s.buffer, true, true)]
        == a.log.frames + (frames + [Frame(s.u.id, s.buffer, true, true)]);
  }

  /** All the frames of an utterance: the full ones, and what is left as the last. */
  function AllGiven(id: string, bytes: Bytes, size: nat): seq<Frame>
    requires size > 0
  {
    Given(id, Cut(bytes, size), false) + Given(id, Remainder(bytes, size), true)
  }

  function Remainder(bytes: Bytes, size: nat): seq<Bytes>
    requires size > 0
  {
    if Rest(bytes, size) == [] then [] else [Rest(bytes, size)]
  }

  /** The emission is over, with the commitment as the ledger has it then. */
  function Finish(a: World, s: Stream, frames: seq<Frame>, completed: bool, c: L.Commitment): World {
    a.(worker := Idle, plan := a.plan.(active := None), place := a.place[s.u.id := Spoken],
       log := a.log.(frames := a.log.frames + frames,
                     ended := a.log.ended + [Ended(s.u, s.from, |a.log.frames + frames|, s.rate, s.accepted, s.buffer,
                                                   s.playedMS, completed)]),
       book := a.book.(commitments := a.book.commitments[s.u.id := c]))
  }

  lemma Settles(a: World, s: Stream, stage: L.Stage, frames: seq<Frame>)
    requires s.u.id in a.book.commitments && stage in {L.Queued, L.Stage.Emitting}
    ensures Run(Talking(a, s, Settling(true), stage, frames), Quietly(2)) ==
      Finish(a, s, frames, true, a.book.commitments[s.u.id].(stage := L.Played, playedMS := s.playedMS))
  {
    hide Run, Quietly;
    var b := Talking(a, s, Settling(true), stage, frames);
    RunQuiet(b, 2);
    var d := Working(b, true, Finished, false);
    RunQuiet(d, 1);
    var f := Working(d, true, Finished, false);
    RunNothing(f);
    var c := a.book.commitments[s.u.id];
    assert a.book.commitments[s.u.id := c.(stage := stage)][s.u.id := c.(stage := L.Played, playedMS := s.playedMS)]
        == a.book.commitments[s.u.id := c.(stage := L.Played, playedMS := s.playedMS)];
    assert f == Finish(a, s, frames, true, c.(stage := L.Played, playedMS := s.playedMS));
  }

  /** The provider has given all it has. */
  lemma Concludes(a: World, s: Stream, stage: L.Stage, frames: seq<Frame>)
    requires s.u.id in a.book.commitments && stage in {L.Queued, L.Stage.Emitting} && s.rate > 0
    ensures var last := if s.buffer == [] then [] else [s.buffer];
      var ms := s.playedMS + PlayedMS(last, s.rate);
      Run(Talking(a, s, Pulling, stage, frames), Quietly(if s.buffer == [] then 4 else 8)) ==
      Finish(a, s.(buffer := [], playedMS := ms), frames + Given(s.u.id, last, true), true,
             a.book.commitments[s.u.id].(stage := L.Played, playedMS := ms))
  {
    hide Run, Quietly, L.SetStage, Finish;
    var n := if s.buffer == [] then 4 else 8;
    RunQuiet(Talking(a, s, Pulling, stage, frames), n);
    RunQuiet(Talking(a, s, Closing, stage, frames), n - 1);
    if s.buffer == [] {
      Settles(a, s, stage, frames);
      assert frames + Given(s.u.id, [], true) == frames;
    } else {
      LastFrameGoes(a, s, stage, frames, 2);
      var next := s.(buffer := [], playedMS := s.playedMS + PlayedMS([s.buffer], s.rate));
      Settles(a, next, L.Stage.Emitting, frames + [Frame(s.u.id, s.buffer, true, true)]);
      assert Given(s.u.id, [s.buffer], true) == [Frame(s.u.id, s.buffer, true, true)];
    }
  }

  /** The events of one utterance spoken undisturbed. */
  function Utter(frameMS: nat, rate: nat, chunks: seq<Bytes>): seq<Event>
    requires rate * frameMS / 1000 * 2 > 0
  {
    var size := rate * frameMS / 1000 * 2;
    Quietly(4) + (Synthesis(rate, size, [], chunks) + Quietly(if Rest(Join(chunks), size) == [] then 4 else 8))
  }

  lemma SpeaksExactly(w: World, rate: nat, chunks: seq<Bytes>)
    requires HeadIsDue(w) && rate > 0 && rate * w.plan.frameMS / 1000 * 2 > 0 && chunks != []
    ensures var u, bytes, size := w.plan.queue[0].u, Join(chunks), rate * w.plan.frameMS / 1000 * 2;
      var ms := PlayedMS(Cut(bytes, size), rate) + PlayedMS(Remainder(bytes, size), rate);
      Run(w, Utter(w.plan.frameMS, rate, chunks)) ==
      Finish(Started(w), Part(u, true, rate, size, [], bytes, ms, |w.log.frames|), AllGiven(u.id, bytes, size), true,
             w.book.commitments[u.id].(stage := L.Played, playedMS := ms))
  {
    hide Run, Quietly, Talking, Synthesis, Cut, Rest, Join, PlayedMS, Finish;
    var u, bytes, size := w.plan.queue[0].u, Join(chunks), rate * w.plan.frameMS / 1000 * 2;
    var tail := Quietly(if Rest(bytes, size) == [] then 4 else 8);
    Starts(w, Synthesis(rate, size, [], chunks) + tail);
    ChunksGo(Started(w), u, false, rate, size, [], [], 0, |w.log.frames|, L.Queued, [], chunks, tail);
    assert [] + bytes == bytes;
    var parts := Cut(bytes, size);
    assert [] + Given(u.id, parts, false) == Given(u.id, parts, false);
    Concludes(Started(w), Part(u, true, rate, size, Rest(bytes, size), bytes, PlayedMS(parts, rate), |w.log.frames|),
              After(L.Queued, parts), Given(u.id, parts, false));
  }

  function Payloads(frames: seq<Frame>): seq<Bytes> {
    seq(|frames|, i requires 0 <= i < |frames| => frames[i].payload)
  }

  lemma AllGivenMeans(id: string, bytes: Bytes, size: nat, rate: nat)
    requires size > 0 && rate > 0
    ensures var fs := AllGiven(id, bytes, size);
      && Payloads(fs) == Cut(bytes, size) + Remainder(bytes, size) && Join(Payloads(fs)) == bytes
      && PlayedMS(Payloads(fs), rate) == PlayedMS(Cut(bytes, size), rate) + PlayedMS(Remainder(bytes, size), rate)
      && forall i :: 0 <= i < |fs| ==>
           && fs[i].id == id && fs[i].taken && fs[i].payload != []
           && (if fs[i].final then i == |fs| - 1 && |fs[i].payload| < size else |fs[i].payload| == size)
  {
    var parts, last := Cut(bytes, size), Remainder(bytes, size);
    var fs := AllGiven(id, bytes, size);
    assert Payloads(fs) == parts + last;
    CutConserves(bytes, size);
    JoinJoins(parts, last);
    PlayedJoins(parts, last, rate);
    assert last != [] ==> Join(last) == last[0];
    hide Cut, Join, PlayedMS;
  }

  /** The planner speaks. An utterance of the present epoch at the head of the queue, which the ledger has
      queued, begins; the sink is given the very bytes the provider synthesised, in full frames but for a
      shorter last one; and the ledger has it played, for as long as the frames took. */
  lemma QueuedIsSpoken(w: World, rate: nat, chunks: seq<Bytes>)
    requires HeadIsDue(w) && rate > 0 && rate * w.plan.frameMS / 1000 * 2 > 0 && chunks != []
    ensures var b, id := Run(w, Utter(w.plan.frameMS, rate, chunks)), w.plan.queue[0].u.id;
      && b.worker.Idle? && b.plan == w.plan.(queue := w.plan.queue[1..], active := None) && b.threads == w.threads
      && b.log.began == w.log.began + [id] && b.log.reported == w.log.reported && b.log.heard == w.log.heard
      && w.log.frames <= b.log.frames
      && var news := b.log.frames[|w.log.frames|..];
         && Join(Payloads(news)) == Join(chunks)
         && (forall i :: 0 <= i < |news| ==>
               && news[i].id == id && news[i].taken && news[i].payload != []
               && (if news[i].final then i == |news| - 1 && |news[i].payload| < rate * w.plan.frameMS / 1000 * 2
                   else |news[i].payload| == rate * w.plan.frameMS / 1000 * 2))
         && b.book == w.book.(commitments := w.book.commitments[id :=
              w.book.commitments[id].(stage := L.Played, playedMS := PlayedMS(Payloads(news), rate))])
  {
    hide Run, Utter, Cut, Join, PlayedMS, Rest, AllGiven;
    var u, bytes, size := w.plan.queue[0].u, Join(chunks), rate * w.plan.frameMS / 1000 * 2;
    SpeaksExactly(w, rate, chunks);
    AllGivenMeans(u.id, bytes, size, rate);
    var fs := AllGiven(u.id, bytes, size);
    assert (w.log.frames + fs)[|w.log.frames|..] == fs;
  }

  /** How the ledger has a commitment whose provider broke off: as played if time was played or a frame had
      crossed, and as cancelled if nothing had. */
  function BrokenOff(c: L.Commitment, parts: seq<Bytes>, ms: nat): L.Commitment {
    if ms > 0 then c.(stage := L.Played, playedMS := ms)
    else c.(stage := if parts == [] then L.Cancelled else L.Played, cancelReason := "stopped")
  }

  lemma Breaks(a: World, s: Stream, parts: seq<Bytes>, frames: seq<Frame>)
    requires s.u.id in a.book.commitments
    ensures Run(Talking(a, s, Pulling, After(L.Queued, parts), frames), [Work(true, Broken, false)] + Quietly(2)) ==
      Finish(a, s, frames, false, BrokenOff(a.book.commitments[s.u.id], parts, s.playedMS))
  {
    hide Run, Quietly;
    var stage := After(L.Queued, parts);
    var b := Talking(a, s, Pulling, stage, frames);
    RunOne(b, Work(true, Broken, false), Quietly(2));
    var d := Talking(a, s, Settling(false), stage, frames);
    RunQuiet(d, 2);
    var f := Working(d, true, Finished, false);
    RunQuiet(f, 1);
    RunNothing(Working(f, true, Finished, false));
    var c := a.book.commitments[s.u.id];
    var last := BrokenOff(c, parts, s.playedMS);
    assert a.book.commitments[s.u.id := c.(stage := stage)][s.u.id := last] == a.book.commitments[s.u.id := last];
    assert Working(f, true, Finished, false) == Finish(a, s, frames, false, last);
  }

  /** A provider that breaks off leaves an emission that is not complete: the full frames were given out, the
      rest was not, and the ledger is told which of the two happened. */
  lemma BrokenIsNotCompleted(w: World, rate: nat, chunks: seq<Bytes>)
    requires HeadIsDue(w) && rate > 0 && rate * w.plan.frameMS / 1000 * 2 > 0 && chunks != []
    ensures var u, bytes, size := w.plan.queue[0].u, Join(chunks), rate * w.plan.frameMS / 1000 * 2;
      var parts := Cut(bytes, size);
      Run(w, Quietly(4) + (Synthesis(rate, size, [], chunks) + ([Work(true, Broken, false)] + Quietly(2)))) ==
      Finish(Started(w), Part(u, true, rate, size, Rest(bytes, size), bytes, PlayedMS(parts, rate), |w.log.frames|),
             Given(u.id, parts, false), false,
             BrokenOff(w.book.commitments[u.id], parts, PlayedMS(parts, rate)))
  {
    hide Run, Quietly, Talking, Synthesis, Cut, Rest, Join, PlayedMS, Finish, BrokenOff;
    var u, bytes, size := w.plan.queue[0].u, Join(chunks), rate * w.plan.frameMS / 1000 * 2;
    var tail := [Work(true, Broken, false)] + Quietly(2);
    Starts(w, Synthesis(rate, size, [], chunks) + tail);
    ChunksGo(Started(w), u, false, rate, size, [], [], 0, |w.log.frames|, L.Queued, [], chunks, tail);
    assert [] + bytes == bytes;
    var parts := Cut(bytes, size);
    assert [] + Given(u.id, parts, false) == Given(u.id, parts, false);
    Breaks(Started(w), Part(u, true, rate, size, Rest(bytes, size), bytes, PlayedMS(parts, rate), |w.log.frames|),
           parts, Given(u.id, parts, false));
  }

  /** An entry of an earlier epoch is not spoken: it is cancelled in the ledger and nothing is given out. */
  lemma StaleIsDropped(w: World)
    requires w.worker.Idle? && w.plan.queue != [] && w.plan.queue[0].epoch != w.plan.epoch
    requires StageIs(w, w.plan.queue[0].u.id, L.Queued)
    ensures var b, id := Run(w, Quietly(3)), w.plan.queue[0].u.id;
      && b.worker.Idle? && b.plan == w.plan.(queue := w.plan.queue[1..]) && b.threads == w.threads && b.log == w.log
      && StageIs(b, id, L.Cancelled)
      && forall k :: k != id && k in w.book.commitments ==>
           k in b.book.commitments && b.book.commitments[k] == w.book.commitments[k]
  {
    hide Run, Quietly;
    RunQuiet(w, 3);
    var w1 := Working(w, true, Finished, false);
    RunQuiet(w1, 2);
    var w2 := Working(w1, true, Finished, false);
    RunQuiet(w2, 1);
    RunNothing(Working(w2, true, Finished, false));
  }

  /** When the session ends, everything still queued is ended in the ledger, and nothing of it is given out. */
  lemma {:induction false} SessionEndDrains(w: World)
    requires L.Sound(w.book) && w.worker.Sweeping?
    requires forall i :: 0 <= i < |w.plan.queue| ==> w.plan.queue[i].u.id in w.book.commitments
    ensures var b := Run(w, Quietly(2 * |w.plan.queue| + 1));
      && b.worker.Halted? && b.plan.queue == [] && b.log == w.log && L.Sound(b.book) && L.Follows(w.book, b.book)
      && forall i :: 0 <= i < |w.plan.queue| ==> L.Terminal(b.book, w.plan.queue[i].u.id)
    decreases |w.plan.queue|
  {
    hide Run, Quietly, L.Sound, L.Follows, L.Apply, L.Terminal;
    var q := w.plan.queue;
    RunQuiet(w, 2 * |q| + 1);
    if q == [] {
      RunNothing(Working(w, true, Finished, false));
      L.FollowsReflexive(w.book);
    } else {
      var w1 := Working(w, true, Finished, false);
      RunQuiet(w1, 2 * |q|);
      var w2 := Working(w1, true, Finished, false);
      L.CancelEnds(w.book, q[0].u.id, "session ended");
      TellFollows(w, L.Op.Cancel(q[0].u.id, "session ended"));
      forall i | 0 <= i < |q| ensures q[i].u.id in w2.book.commitments {
        FollowsKeeps(w.book, w2.book, q[i].u.id);
      }
      SessionEndDrains(w2);
      var b := Run(w2, Quietly(2 * |w2.plan.queue| + 1));
      L.FollowsTransitive(w.book, w2.book, b.book);
      L.EndedStays(w2.book, b.book, q[0].u.id);
      forall i | 0 <= i < |q| ensures L.Terminal(b.book, q[i].u.id) {
        if i > 0 { assert q[i] == w2.plan.queue[i - 1]; }
      }
    }
  }

  lemma SessionEnds(w: World, ok: bool, p: Provided)
    requires Safe(w) && w.worker.Idle?
    ensures var b := Run(w, [Work(ok, p, true)] + Quietly(2 * |w.plan.queue| + 1));
      && b.worker.Halted? && b.plan.queue == [] && b.log == w.log
      && forall i :: 0 <= i < |w.plan.queue| ==> L.Terminal(b.book, w.plan.queue[i].u.id)
  {
    hide Run, Quietly, L.Sound, L.Follows, L.Terminal, Bound, Conserved;
    forall i | 0 <= i < |w.plan.queue| ensures w.plan.queue[i].u.id in w.book.commitments {
      assert Is(w.place, w.plan.queue[i].u.id, InQueue);
    }
    RunOne(w, Work(ok, p, true), Quietly(2 * |w.plan.queue| + 1));
    SessionEndDrains(w.(worker := Sweeping));
  }

  // ---- From `Enqueue` to the sink ----------------------------------------------------------

  lemma EnqueuingLeaves(w: World, t: nat)
    requires t in w.threads && w.threads[t].Enqueuing?
    ensures var b := Next(w, Advance(t, true));
      t in b.threads && b.threads[t].Enqueuing? && b.worker == w.worker && b.log == w.log
  {
    hide L.Apply, L.Refusal, L.TransitionError;
  }

  lemma {:induction false} RunsOfEnqueuingLeave(w: World, t: nat, es: seq<Event>)
    requires t in w.threads && w.threads[t].Enqueuing? && forall i :: 0 <= i < |es| ==> es[i] == Advance(t, true)
    ensures Run(w, es).worker == w.worker && Run(w, es).log == w.log
    decreases |es|
  {
    hide Next;
    if es != [] {
      EnqueuingLeaves(w, t);
      RunsOfEnqueuingLeave(Next(w, es[0]), t, es[1..]);
    }
  }

  /** What is enqueued in an idle planner with an empty queue is spoken. */
  lemma EnqueuedIsSpoken(w: World, t: nat, u: Utterance, rate: nat, chunks: seq<Bytes>)
    requires t !in w.threads && Sayable(w, u) && !w.plan.closed && w.plan.depth > 0 && w.plan.queue == []
    requires w.worker.Idle? && rate > 0 && rate * w.plan.frameMS / 1000 * 2 > 0 && chunks != []
    ensures var b := Run(w, Enqueueing(t, u) + Utter(w.plan.frameMS, rate, chunks));
      && b.worker.Idle? && b.plan.queue == [] && b.log.began == w.log.began + [u.id]
      && w.log.frames <= b.log.frames && StageIs(b, u.id, L.Played)
      && var news := b.log.frames[|w.log.frames|..];
         && Join(Payloads(news)) == Join(chunks)
         && forall i :: 0 <= i < |news| ==>
              && news[i].id == u.id && news[i].taken
              && (news[i].final || |news[i].payload| == rate * w.plan.frameMS / 1000 * 2)
  {
    hide Run, Next, Utter, Join, Payloads, Sayable;
    var d := Run(w, Enqueueing(t, u));
    EnqueueSucceeds(w, t, u);
    var first, rest := Enqueueing(t, u)[0], Enqueueing(t, u)[1..];
    assert [first] + rest == Enqueueing(t, u);
    RunOne(w, first, rest);
    EnqueueBegins(w, t, u);
    RunsOfEnqueuingLeave(Next(w, first), t, rest);
    RunJoins(w, Enqueueing(t, u), Utter(w.plan.frameMS, rate, chunks));
    QueuedIsSpoken(d, rate, chunks);
  }

  lemma EnqueueBegins(w: World, t: nat, u: Utterance)
    requires t !in w.threads && Sayable(w, u)
    ensures var b := Next(w, Enqueue(t, u, "voice"));
      t in b.threads && b.threads[t].Enqueuing? && b.worker == w.worker && b.log == w.log
  {
    hide Speakable;
  }

  // ---- What is refused ---------------------------------------------------------------------

  function Onward(t: nat, n: nat, ok: bool): seq<Event> {
    if n == 0 then [] else [Advance(t, ok)] + Onward(t, n - 1, ok)
  }

  lemma RunOnward(w: World, t: nat, n: nat, ok: bool)
    requires n > 0 && t in w.threads && w.threads[t].Enqueuing?
    ensures Run(w, Onward(t, n, ok)) == Run(Entering(w, t, w.threads[t], ok), Onward(t, n - 1, ok))
  {
    hide Entering;
    RunOne(w, Advance(t, ok), Onward(t, n - 1, ok));
  }

  lemma RunNone(w: World, t: nat, ok: bool)
    ensures Run(w, Onward(t, 0, ok)) == w
  {
  }

  /** An utterance that the ledger has queued is refused by a closed planner, by a sink that will not reserve,
      and by a full queue: it is not queued, and the ledger has it cancelled. */
  lemma EnqueueRefuses(w: World, t: nat, u: Utterance, authority: string, ok: bool)
    requires t in w.threads && w.threads[t] == Enqueuing(u, authority, Checking) && StageIs(w, u.id, L.Queued)
    requires w.plan.closed || !ok || |w.plan.queue| >= w.plan.depth
    ensures var b := Run(w, Onward(t, 4, ok));
      && b.plan == w.plan && b.log == w.log && b.worker == w.worker
      && b.threads == w.threads[t := Enqueuing(u, authority, Enqueued(false))] && StageIs(b, u.id, L.Cancelled)
      && forall k :: k != u.id && k in w.book.commitments ==>
           k in b.book.commitments && b.book.commitments[k] == w.book.commitments[k]
  {
    hide Run, Onward, Entering, BackedOut;
    var x := w.threads[t];
    RunOnward(w, t, 4, ok);
    Declines(w, t, u, authority, ok);
    if w.plan.closed {
      BacksOut(w, t, u, authority, 3, ok);
    } else {
      RunOnward(SetThread(w, t, x.(step := Reserving(w.plan.epoch))), t, 3, ok);
      if !ok {
        BacksOut(w, t, u, authority, 2, ok);
      } else {
        RunOnward(SetThread(w, t, x.(step := Pushing(w.plan.epoch))), t, 2, ok);
        BacksOut(w, t, u, authority, 1, ok);
      }
    }
    BackedOutIs(w, t, u, authority);
  }

  /** Where each section of an `Enqueue` that is to be refused leads. */
  lemma Declines(w: World, t: nat, u: Utterance, authority: string, ok: bool)
    requires t in w.threads && w.threads[t] == Enqueuing(u, authority, Checking)
    ensures var x := w.threads[t];
      && Entering(w, t, x, ok) ==
           SetThread(w, t, x.(step := if w.plan.closed then Backing else Reserving(w.plan.epoch)))
      && var y := x.(step := Reserving(w.plan.epoch));
         && Entering(SetThread(w, t, y), t, y, ok) ==
              SetThread(w, t, x.(step := if ok then Pushing(w.plan.epoch) else Backing))
         && var z := x.(step := Pushing(w.plan.epoch));
            |w.plan.queue| >= w.plan.depth ==>
              Entering(SetThread(w, t, z), t, z, ok) == SetThread(w, t, x.(step := Backing))
  {
  }

  function BackedOut(w: World, t: nat, u: Utterance, authority: string): World {
    SetThread(Put(Tell(w, L.Op.Cancel(u.id, "refused")), u.id, Discarded), t, Enqueuing(u, authority, Enqueued(false)))
  }

  lemma {:induction false} BacksOut(w: World, t: nat, u: Utterance, authority: string, n: nat, ok: bool)
    requires t in w.threads && n > 0
    ensures Run(SetThread(w, t, Enqueuing(u, authority, Backing)), Onward(t, n, ok)) == BackedOut(w, t, u, authority)
  {
    hide Run, Onward, L.Apply;
    var x := Enqueuing(u, authority, Backing);
    RunOnward(SetThread(w, t, x), t, n, ok);
    assert Entering(SetThread(w, t, x), t, x, ok) == BackedOut(w, t, u, authority);
    Rests(BackedOut(w, t, u, authority), t, n - 1, ok);
  }

  /** A call that has returned does nothing more. */
  lemma {:induction false} Rests(w: World, t: nat, n: nat, ok: bool)
    requires t in w.threads && w.threads[t].Enqueuing? && w.threads[t].step.Enqueued?
    ensures Run(w, Onward(t, n, ok)) == w
  {
    hide Run, Onward;
    if n == 0 {
      RunNone(w, t, ok);
    } else {
      RunOnward(w, t, n, ok);
      Rests(w, t, n - 1, ok);
    }
  }

  lemma BackedOutIs(w: World, t: nat, u: Utterance, authority: string)
    requires StageIs(w, u.id, L.Queued)
    ensures var b := BackedOut(w, t, u, authority);
      && b.plan == w.plan && b.log == w.log && b.worker == w.worker
      && b.threads == w.threads[t := Enqueuing(u, authority, Enqueued(false))] && StageIs(b, u.id, L.Cancelled)
      && forall k :: k != u.id && k in w.book.commitments ==>
           k in b.book.commitments && b.book.commitments[k] == w.book.commitments[k]
  {
  }

  /** Of what the provider gives, exactly this is accepted: the first chunk if its rate makes frames of at least
      one sample, and later ones of the same rate. Nothing else changes the buffer. */
  lemma ChunkIsAccepted(w: World, s: Stream, ok: bool, rate: nat, bytes: Bytes)
    requires w.worker == Live(s, Pulling)
    ensures var b := Next(w, Work(ok, Chunk(rate, bytes), false));
      && b.worker.Live? && b.worker.s.u == s.u && b.log == w.log && b.book == w.book && b.threads == w.threads
      && (if (if s.rate == 0 then rate * w.plan.frameMS / 1000 * 2 > 0 else rate == s.rate)
          then b.worker == Live(s.(rate := rate, frameBytes := if s.rate == 0 then rate * w.plan.frameMS / 1000 * 2
                                                               else s.frameBytes,
                                   buffer := s.buffer + bytes, accepted := s.accepted + bytes), Cutting)
          else b.worker.at.Pulling? && b.worker.s.buffer == s.buffer && b.worker.s.accepted == s.accepted)
  {
  }

  /** A sink that refuses the beginning, or a provider that has nothing, ends the emission with nothing given out,
      not completed, and the commitment cancelled. */
  lemma NothingIsSpoken(w: World, begins: bool)
    requires HeadIsDue(w)
    ensures var b, u := Run(w, Quietly(3) + ([Work(begins, Finished, false)] + Quietly(if begins then 4 else 2))),
                        w.plan.queue[0].u;
      && b.worker.Idle? && b.log.frames == w.log.frames && b.log.began == w.log.began + [u.id]
      && b.log.ended == w.log.ended + [Ended(u, |w.log.frames|, |w.log.frames|, 0, [], [], 0, false)]
      && StageIs(b, u.id, L.Cancelled)
  {
    hide Run, Quietly, L.Apply, Milliseconds, FrameBytes, Payload;
    var u := w.plan.queue[0].u;
    var tail := Quietly(if begins then 4 else 2);
    var s := Part(u, false, 0, 0, [], [], 0, |w.log.frames|);
    var a := Started(w);
    RunJoins(w, Quietly(3), [Work(begins, Finished, false)] + tail);
    RunQuiet(w, 3);
    var w1 := Working(w, true, Finished, false);
    RunQuiet(w1, 2);
    var w2 := Working(w1, true, Finished, false);
    RunQuiet(w2, 1);
    var w3 := Working(w2, true, Finished, false);
    RunNothing(w3);
    assert w3.worker == Live(s, Opening) && w3.book == w.book && w3.log == a.log;
    RunOne(w3, Work(begins, Finished, false), tail);
    var w4 := Next(w3, Work(begins, Finished, false));
    if begins {
      RunQuiet(w4, 4);
      var w5 := Working(w4, true, Finished, false);
      RunQuiet(w5, 3);
      EndsWithNothing(Working(w5, true, Finished, false), s);
    } else {
      EndsWithNothing(w4, s);
    }
  }

  lemma EndsWithNothing(w: World, s: Stream)
    requires w.worker == Live(s, Settling(false)) && s.playedMS == 0 && StageIs(w, s.u.id, L.Queued)
    ensures var b := Run(w, Quietly(2));
      && b.worker.Idle?
      && b.log == w.log.(ended := w.log.ended
           + [Ended(s.u, s.from, |w.log.frames|, s.rate, s.accepted, s.buffer, 0, false)])
      && StageIs(b, s.u.id, L.Cancelled)
  {
    hide Run, Quietly;
    RunQuiet(w, 2);
    var w1 := Working(w, true, Finished, false);
    RunQuiet(w1, 1);
    RunNothing(Working(w1, true, Finished, false));
  }
}
