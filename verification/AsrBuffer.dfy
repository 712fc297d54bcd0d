/** The re-chunking buffer between the interaction cadence and a speech recogniser, against a reference
    chunker that sees the whole audio at once. */
module AsrBuffer {
  import opened Prelude

  newtype byte = x: int | 0 <= x < 0x100

  const SECOND: int := 1_000_000_000
  const MAX_CHUNK_DURATION: int := 3600 * SECOND
  const MAX_SAMPLE_RATE: int := 384_000
  const TWO_64: int := 0x1_0000_0000_0000_0000
  const MAX_INT64: int := 0x7fff_ffff_ffff_ffff

  /** A block of 16-bit samples; `audio` holds two bytes for each. */
  datatype Frame = Frame(index: nat, offset: nat, rate: nat, audio: seq<byte>)

  /** A recogniser's answer to one chunk. */
  datatype Reply = Failed | Revisions(list: seq<nat>)

  /** A recogniser whose answers are determined by the chunks it has been given; the answer is to the
      last of them. */
  type Provider = seq<Frame> -> Reply

  // ---- Chunk sizes in samples --------------------------------------------------------------

  predicate ValidDuration(d: int) { 0 < d <= MAX_CHUNK_DURATION }

  predicate ValidRate(r: int) { 0 < r <= MAX_SAMPLE_RATE }

  /** Whole samples covering a duration in nanoseconds, computed without leaving 64 bits. */
  function DurationSamples(duration: int, rate: int): (samples: nat)
    requires ValidDuration(duration) && ValidRate(rate)
    ensures duration * rate + SECOND - 1 <= MAX_INT64
    ensures samples > 0 && (samples - 1) * SECOND < duration * rate <= samples * SECOND
    ensures 2 * samples < TWO_64
  {
    ProductFits(duration, rate);
    (duration * rate + SECOND - 1) / SECOND
  }

  lemma ProductFits(duration: int, rate: int)
    requires ValidDuration(duration) && ValidRate(rate)
    ensures 0 < duration * rate <= MAX_CHUNK_DURATION * MAX_SAMPLE_RATE
  {
    assert duration * rate <= MAX_CHUNK_DURATION * rate;
  }

  lemma LongerChunksAreLarger(d: int, e: int, rate: int)
    requires ValidDuration(d) && ValidDuration(e) && ValidRate(rate) && d <= e
    ensures DurationSamples(d, rate) <= DurationSamples(e, rate)
  {
    hide DurationSamples;
    var m, n := DurationSamples(d, rate), DurationSamples(e, rate);
    MulMonotone(d, e, rate);
    assert (m - 1) * SECOND < n * SECOND;
  }

  lemma MulMonotone(d: int, e: int, rate: int)
    requires d <= e && 0 < rate
    ensures d * rate <= e * rate
  {
  }

  // ---- The reference chunker ---------------------------------------------------------------

  /** The sizes in samples a stream is cut by, and where it starts. */
  datatype Cadence = Cadence(minimum: nat, maximum: nat, rate: nat, start: nat)

  ghost predicate GoodCadence(c: Cadence) { 0 < c.minimum <= c.maximum }

  function NextSize(c: Cadence, size: nat, revisions: seq<nat>): nat {
    if revisions != [] then c.minimum
    else if size * 2 <= c.maximum then size * 2 else c.maximum
  }

  /** A stream part way through: the chunks handed over, where the next one starts, its size, and the
      revisions received. After a failed answer nothing more is handed over. */
  datatype Cutting = Cutting(sent: seq<Frame>, at: nat, size: nat, revisions: seq<nat>, failed: bool)

  function Fresh(c: Cadence): Cutting { Cutting([], c.start, c.minimum, [], false) }

  /** One chunk is handed to the recogniser. */
  function Deliver(p: Provider, c: Cadence, s: Cutting, chunk: seq<byte>): Cutting {
    var sent := s.sent + [Frame(|s.sent|, s.at, c.rate, chunk)];
    match p(sent)
    case Failed => s.(sent := sent, failed := true)
    case Revisions(list) =>
      Cutting(sent, s.at + |chunk| / 2, NextSize(c, s.size, list), s.revisions + list, false)
  }

  lemma DeliverKeepsSize(p: Provider, c: Cadence, s: Cutting, chunk: seq<byte>)
    requires GoodCadence(c) && 0 < s.size
    ensures 0 < Deliver(p, c, s, chunk).size
  {
  }

  /** Cuts audio into chunks of the current size for as long as it lasts; the rest is not yet due. */
  function Chop(p: Provider, c: Cadence, s: Cutting, audio: seq<byte>): (Cutting, seq<byte>)
    requires GoodCadence(c) && 0 < s.size
    decreases |audio|
  {
    if s.failed || |audio| < 2 * s.size then (s, audio)
    else
      DeliverKeepsSize(p, c, s, audio[..2 * s.size]);
      Chop(p, c, Deliver(p, c, s, audio[..2 * s.size]), audio[2 * s.size..])
  }

  /** The whole stream cut from its beginning. */
  function Reference(p: Provider, c: Cadence, audio: seq<byte>): (Cutting, seq<byte>)
    requires GoodCadence(c)
  {
    Chop(p, c, Fresh(c), audio)
  }

  /** The whole stream cut to its end: the short remainder goes out as a last chunk. */
  function Completed(p: Provider, c: Cadence, audio: seq<byte>): Cutting
    requires GoodCadence(c)
  {
    var (t, rest) := Reference(p, c, audio);
    if t.failed || rest == [] then t else Deliver(p, c, t, rest)
  }

  function Flat(frames: seq<Frame>): seq<byte> {
    if frames == [] then [] else Flat(frames[..|frames| - 1]) + frames[|frames| - 1].audio
  }

  /** Cutting is online: audio that arrives later only continues the cut. */
  lemma {:induction false} ChopContinues(p: Provider, c: Cadence, s: Cutting, a: seq<byte>, b: seq<byte>)
    requires GoodCadence(c) && 0 < s.size
    ensures var (t, rest) := Chop(p, c, s, a);
            && t.size > 0 && (t.failed || |rest| < 2 * t.size)
            && Chop(p, c, s, a + b) == Chop(p, c, t, rest + b)
    decreases |a|
  {
    hide Deliver;
    if !s.failed && |a| >= 2 * s.size {
      assert (a + b)[..2 * s.size] == a[..2 * s.size] && (a + b)[2 * s.size..] == a[2 * s.size..] + b;
      DeliverKeepsSize(p, c, s, a[..2 * s.size]);
      ChopContinues(p, c, Deliver(p, c, s, a[..2 * s.size]), a[2 * s.size..], b);
    }
  }

  /** Nothing is lost or reordered: what was handed over and what remains make up the stream. */
  lemma {:induction false} ChopConserves(p: Provider, c: Cadence, s: Cutting, audio: seq<byte>)
    requires GoodCadence(c) && 0 < s.size
    ensures var (t, rest) := Chop(p, c, s, audio);
            Flat(t.sent) + rest == Flat(s.sent) + audio
    decreases |audio|
  {
    if !s.failed && |audio| >= 2 * s.size {
      var chunk, later := audio[..2 * s.size], audio[2 * s.size..];
      var t := Deliver(p, c, s, chunk);
      assert t.sent[..|s.sent|] == s.sent;
      DeliverKeepsSize(p, c, s, chunk);
      hide Deliver, Flat;
      assert Flat(t.sent) + later == Flat(s.sent) + (chunk + later) && chunk + later == audio;
      ChopConserves(p, c, t, later);
    }
  }

  function Pow2(k: nat): nat { if k == 0 then 1 else 2 * Pow2(k - 1) }

  /** How many of the answers just before chunk i carried no revision. */
  ghost function Quiet(p: Provider, sent: seq<Frame>, i: nat): nat
    requires i <= |sent|
  {
    if i > 0 && p(sent[..i]) == Revisions([]) then 1 + Quiet(p, sent, i - 1) else 0
  }

  ghost function SizeFor(c: Cadence, k: nat): nat {
    if c.minimum * Pow2(k) <= c.maximum then c.minimum * Pow2(k) else c.maximum
  }

  /** Chunk i is the i-th, starts where the one before it ended, and has the size its history calls for. */
  ghost predicate ChunkAt(p: Provider, c: Cadence, sent: seq<Frame>, i: nat)
    requires i < |sent|
  {
    && sent[i].index == i && sent[i].rate == c.rate
    && sent[i].offset == (if i == 0 then c.start else sent[i - 1].offset + |sent[i - 1].audio| / 2)
    && |sent[i].audio| == 2 * SizeFor(c, Quiet(p, sent, i))
  }

  ghost predicate Lawful(p: Provider, c: Cadence, sent: seq<Frame>) {
    forall i :: 0 <= i < |sent| ==> ChunkAt(p, c, sent, i)
  }

  lemma {:induction false} QuietPrefix(p: Provider, a: seq<Frame>, b: seq<Frame>, i: nat)
    requires i <= |a| && a <= b
    ensures Quiet(p, a, i) == Quiet(p, b, i)
  {
    if i > 0 {
      assert a[..i] == b[..i];
      QuietPrefix(p, a, b, i - 1);
    }
  }

  lemma NextSizeDoubles(c: Cadence, k: nat, list: seq<nat>)
    requires GoodCadence(c)
    ensures NextSize(c, SizeFor(c, k), list) == SizeFor(c, if list == [] then k + 1 else 0)
  {
    assert c.minimum * Pow2(k + 1) == 2 * (c.minimum * Pow2(k));
  }

  lemma LawfulSnoc(p: Provider, c: Cadence, sent: seq<Frame>, frame: Frame)
    requires Lawful(p, c, sent) && ChunkAt(p, c, sent + [frame], |sent|)
    ensures Lawful(p, c, sent + [frame])
  {
    forall i | 0 <= i < |sent| ensures ChunkAt(p, c, sent + [frame], i) {
      assert ChunkAt(p, c, sent, i);
      QuietPrefix(p, sent, sent + [frame], i);
    }
  }

  /** The cut so far is lawful and its size is the one its history calls for. */
  ghost predicate OnLaw(p: Provider, c: Cadence, s: Cutting) {
    && Lawful(p, c, s.sent) && s.size > 0
    && (!s.failed ==>
          && s.size == SizeFor(c, Quiet(p, s.sent, |s.sent|))
          && s.at == if s.sent == [] then c.start
                     else s.sent[|s.sent| - 1].offset + |s.sent[|s.sent| - 1].audio| / 2)
  }

  lemma DeliverOnLaw(p: Provider, c: Cadence, s: Cutting, chunk: seq<byte>)
    requires GoodCadence(c) && OnLaw(p, c, s) && !s.failed && |chunk| == 2 * s.size
    ensures OnLaw(p, c, Deliver(p, c, s, chunk))
  {
    var frame := Frame(|s.sent|, s.at, c.rate, chunk);
    var next := s.sent + [frame];
    QuietPrefix(p, s.sent, next, |s.sent|);
    assert ChunkAt(p, c, next, |s.sent|);
    LawfulSnoc(p, c, s.sent, frame);
    assert next[..|next|] == next;
    hide SizeFor, Lawful;
    match p(next)
    case Failed =>
    case Revisions(list) => NextSizeDoubles(c, Quiet(p, s.sent, |s.sent|), list);
  }

  /** The size law: every chunk has min(minimum * 2^k, maximum) samples, k being the number of answers
      without a revision since the last revision; chunks are contiguous and consecutively numbered. */
  lemma {:induction false} ChopOnLaw(p: Provider, c: Cadence, s: Cutting, audio: seq<byte>)
    requires GoodCadence(c) && OnLaw(p, c, s)
    ensures OnLaw(p, c, Chop(p, c, s, audio).0)
    decreases |audio|
  {
    hide OnLaw, Deliver;
    OnLawSize(p, c, s);
    if !s.failed && |audio| >= 2 * s.size {
      var chunk := audio[..2 * s.size];
      DeliverOnLaw(p, c, s, chunk);
      ChopOnLaw(p, c, Deliver(p, c, s, chunk), audio[2 * s.size..]);
    }
  }

  lemma OnLawSize(p: Provider, c: Cadence, s: Cutting)
    requires OnLaw(p, c, s)
    ensures s.size > 0
  {
  }

  /** However a stream is sliced, the recogniser is given the same lawful chunks, and they make up the
      stream together with the part not yet due. */
  lemma ReferenceLaws(p: Provider, c: Cadence, audio: seq<byte>)
    requires GoodCadence(c)
    ensures var (t, rest) := Reference(p, c, audio);
            Lawful(p, c, t.sent) && Flat(t.sent) + rest == audio && (t.failed || |rest| < 2 * t.size)
  {
    assert OnLaw(p, c, Fresh(c));
    ChopOnLaw(p, c, Fresh(c), audio);
    ChopConserves(p, c, Fresh(c), audio);
    ChopContinues(p, c, Fresh(c), audio, []);
  }

  // ---- The buffer --------------------------------------------------------------------------

  /** A healthy buffer agrees with the reference on everything it has accepted. */
  ghost predicate Follows(p: Provider, c: Cadence, input: seq<byte>, t: Cutting, pending: seq<byte>) {
    && GoodCadence(c) && |pending| == 2 * (|pending| / 2)
    && Reference(p, c, input) == (t, pending) && !t.failed
    && |pending| < 2 * t.size && 2 * (t.at - c.start) == |input| - |pending|
  }

  lemma FollowsFacts(p: Provider, c: Cadence, input: seq<byte>, t: Cutting, pending: seq<byte>)
    requires Follows(p, c, input, t, pending)
    ensures GoodCadence(c) && |pending| == 2 * (|pending| / 2) && |pending| < 2 * t.size && !t.failed
    ensures 2 * (t.at - c.start) == |input| - |pending|
  {
  }

  lemma FollowsReference(p: Provider, c: Cadence, input: seq<byte>, t: Cutting, pending: seq<byte>)
    requires Follows(p, c, input, t, pending)
    ensures GoodCadence(c) && Reference(p, c, input).0 == t && !t.failed
  {
  }

  lemma FollowsNothing(p: Provider, c: Cadence, t: Cutting, pending: seq<byte>)
    requires Follows(p, c, [], t, pending)
    ensures t == Fresh(c) && pending == []
  {
  }

  lemma FollowsAtStart(p: Provider, c: Cadence)
    requires GoodCadence(c)
    ensures Follows(p, c, [], Fresh(c), [])
  {
  }

  /** Audio that does not complete a chunk is only retained. */
  lemma FollowsTake(p: Provider, c: Cadence, input: seq<byte>, t: Cutting, pending: seq<byte>, piece: seq<byte>)
    requires Follows(p, c, input, t, pending) && |piece| == 2 * (|piece| / 2) && |pending| + |piece| < 2 * t.size
    ensures Follows(p, c, input + piece, t, pending + piece)
  {
    hide Deliver;
    ChopContinues(p, c, Fresh(c), input, piece);
  }

  /** Audio that completes a chunk hands it over, in the buffer as in the reference. */
  lemma FollowsFlush(p: Provider, c: Cadence, input: seq<byte>, t: Cutting, pending: seq<byte>, piece: seq<byte>)
    requires Follows(p, c, input, t, pending) && |piece| == 2 * (|piece| / 2) && |pending| + |piece| == 2 * t.size
    ensures var u := Deliver(p, c, t, pending + piece);
            && Reference(p, c, input + piece) == (u, [])
            && (!u.failed ==> Follows(p, c, input + piece, u, []))
  {
    hide Deliver;
    ChopContinues(p, c, Fresh(c), input, piece);
    var chunk := pending + piece;
    assert chunk[..2 * t.size] == chunk && chunk[2 * t.size..] == [];
    DeliverKeepsSize(p, c, t, chunk);
    DeliverMoves(p, c, t, chunk);
  }

  lemma DeliverMoves(p: Provider, c: Cadence, s: Cutting, chunk: seq<byte>)
    requires |chunk| == 2 * s.size
    ensures var u := Deliver(p, c, s, chunk); u.failed || u.at == s.at + s.size
  {
  }

  /** Once the recogniser has failed, further audio reaches nobody. */
  lemma FailureIsFinal(p: Provider, c: Cadence, input: seq<byte>, t: Cutting, more: seq<byte>)
    requires GoodCadence(c) && Reference(p, c, input) == (t, []) && t.failed
    ensures Reference(p, c, input + more) == (t, more)
  {
    ChopContinues(p, c, Fresh(c), input, more);
    assert [] + more == more;
  }

  // ---- What the recogniser answered --------------------------------------------------------

  function List(reply: Reply): seq<nat> {
    match reply
    case Failed => []
    case Revisions(list) => list
  }

  /** The answers to the chunks from place k on, one after the other. */
  function AnswersFrom(p: Provider, sent: seq<Frame>, k: nat): seq<nat> {
    if |sent| <= k then [] else AnswersFrom(p, sent[..|sent| - 1], k) + List(p(sent))
  }

  lemma AnswersSnoc(p: Provider, sent: seq<Frame>, frame: Frame, k: nat)
    requires k <= |sent|
    ensures AnswersFrom(p, sent + [frame], k) == AnswersFrom(p, sent, k) + List(p(sent + [frame]))
  {
    assert (sent + [frame])[..|sent|] == sent;
  }

  lemma {:induction false} AnswersSplit(p: Provider, sent: seq<Frame>, j: nat, k: nat)
    requires j <= k <= |sent|
    ensures AnswersFrom(p, sent, j) == AnswersFrom(p, sent[..k], j) + AnswersFrom(p, sent, k)
    decreases |sent|
  {
    hide AnswersFrom;
    var n := |sent| - 1;
    if k == |sent| {
      NoAnswers(p, sent, k);
      assert sent[..k] == sent;
    } else {
      AnswersSplit(p, sent[..n], j, k);
      assert sent[..n][..k] == sent[..k];
      assert sent[..n] + [sent[n]] == sent;
      AnswersSnoc(p, sent[..n], sent[n], j);
      AnswersSnoc(p, sent[..n], sent[n], k);
    }
  }

  lemma NoAnswers(p: Provider, sent: seq<Frame>, k: nat)
    requires |sent| <= k
    ensures AnswersFrom(p, sent, k) == []
  {
  }

  /** The revisions a cut stream has received are the recogniser's answers to the chunks it was given. */
  lemma {:induction false} ChopAnswers(p: Provider, c: Cadence, s: Cutting, audio: seq<byte>)
    requires GoodCadence(c) && 0 < s.size && s.revisions == AnswersFrom(p, s.sent, 0)
    ensures var t := Chop(p, c, s, audio).0; t.revisions == AnswersFrom(p, t.sent, 0)
    decreases |audio|
  {
    if !s.failed && |audio| >= 2 * s.size {
      var chunk := audio[..2 * s.size];
      AnswersSnoc(p, s.sent, Frame(|s.sent|, s.at, c.rate, chunk), 0);
      DeliverKeepsSize(p, c, s, chunk);
      ChopAnswers(p, c, Deliver(p, c, s, chunk), audio[2 * s.size..]);
    }
  }

  lemma ReferenceAnswers(p: Provider, c: Cadence, audio: seq<byte>)
    requires GoodCadence(c)
    ensures Reference(p, c, audio).0.revisions == AnswersFrom(p, Reference(p, c, audio).0.sent, 0)
  {
    ChopAnswers(p, c, Fresh(c), audio);
  }

  /** So what a recogniser that has failed was given is what the complete stream gives it. */
  lemma FailureCompletes(p: Provider, c: Cadence, input: seq<byte>)
    requires GoodCadence(c) && Reference(p, c, input).0.failed
    ensures Completed(p, c, input) == Reference(p, c, input).0
  {
  }

  lemma FollowsCompletes(p: Provider, c: Cadence, input: seq<byte>, t: Cutting, pending: seq<byte>)
    requires Follows(p, c, input, t, pending)
    ensures Completed(p, c, input) == if pending == [] then t else Deliver(p, c, t, pending)
  {
  }

  /** A complete stream that met no failure reached the recogniser whole. */
  lemma CompletedConserves(p: Provider, c: Cadence, audio: seq<byte>)
    requires GoodCadence(c) && !Completed(p, c, audio).failed
    ensures Flat(Completed(p, c, audio).sent) == audio
  {
    var (t, rest) := Reference(p, c, audio);
    ChopConserves(p, c, Fresh(c), audio);
    FlatDeliver(p, c, t, rest);
    assert Flat(t.sent) + [] == Flat(t.sent);
  }

  datatype PushResult = Refused | Overflowed | Broken | Pushed(revisions: seq<nat>)

  datatype FinalResult = NotFinal | FinalBroken | Final

  /** How the recogniser r answers once it has heard `carry`. */
  ghost function Continuing(r: Provider, carry: seq<Frame>): Provider {
    (frames: seq<Frame>) => r(carry + frames)
  }

  lemma ContinuingAnswers(r: Provider, carry: seq<Frame>, frames: seq<Frame>)
    ensures Continuing(r, carry)(frames) == r(carry + frames)
  {
  }

  class Buffer {
    const recogniser: Provider
    const minimumChunk: int
    const maximumChunk: int
    const maxFrame: int
    var pending: seq<byte>
    var pendingStartSample: nat
    var sampleRateHz: nat
    var minimumChunkSamples: nat
    var maximumChunkSamples: nat
    var currentChunkSamples: nat
    var nextInputIndex: nat
    var nextInputSample: nat
    var nextProviderIndex: nat
    var haveInput: bool
    var finalized: bool
    var terminal: bool
    /** What the wrapped recogniser remembers: this utterance, and whatever it would not let go of before. */
    var heard: seq<Frame>
    /** The utterance so far: where it starts, its audio, and what passed the recogniser's boundary. */
    ghost var start: nat
    ghost var input: seq<byte>
    ghost var cut: Cutting
    /** What the recogniser remembered when the utterance began. */
    ghost var carry: seq<Frame>

    /** How the recogniser answers in this utterance. */
    ghost function Voice(): Provider reads this { Continuing(recogniser, carry) }

    ghost function Pace(): Cadence reads this {
      Cadence(minimumChunkSamples, maximumChunkSamples, sampleRateHz, start)
    }

    ghost predicate Valid() reads this {
      && ValidDuration(minimumChunk) && ValidDuration(maximumChunk) && minimumChunk <= maximumChunk
      && (haveInput ==> Sized() && heard == carry + cut.sent)
      && (!haveInput ==>
            && input == [] && cut.sent == [] && heard == carry && cut.revisions == [] && pending == []
            && !finalized && nextProviderIndex == 0 && nextInputSample == 0)
      && (haveInput && !terminal && !finalized ==> Healthy())
      && (haveInput && (terminal || finalized) ==> cut == Completed(Voice(), Pace(), input))
      && (finalized && !terminal ==> pending == [] && !cut.failed)
    }

    /** The chunk sizes are those of the configured durations at the utterance's sample rate. */
    ghost predicate Sized() reads this {
      && ValidDuration(minimumChunk) && ValidDuration(maximumChunk) && ValidRate(sampleRateHz)
      && minimumChunkSamples == DurationSamples(minimumChunk, sampleRateHz)
      && maximumChunkSamples == DurationSamples(maximumChunk, sampleRateHz)
      && GoodCadence(Pace())
    }

    ghost predicate Healthy() reads this {
      && Standing()
      && (if input == [] then nextInputSample == 0 else 2 * (nextInputSample - start) == |input|)
    }

    constructor (p: Provider, minimum: int, maximum: int, frameLimit: int)
      requires ValidDuration(minimum) && ValidDuration(maximum) && minimum <= maximum
      ensures Valid() && !haveInput && !terminal && !finalized && carry == heard == []
      ensures recogniser == p && minimumChunk == minimum && maximumChunk == maximum && maxFrame == frameLimit
    {
      recogniser, minimumChunk, maximumChunk, maxFrame := p, minimum, maximum, frameLimit;
      pending, pendingStartSample, sampleRateHz := [], 0, 0;
      minimumChunkSamples, maximumChunkSamples, currentChunkSamples := 0, 0, 0;
      nextInputIndex, nextInputSample, nextProviderIndex := 0, 0, 0;
      haveInput, finalized, terminal := false, false, false;
      heard, start, input, cut := [], 0, [], Cutting([], 0, 0, [], false);
      carry := [];
    }

    /** The frame is well formed and continues the stream. */
    predicate Admits(frame: Frame) reads this {
      && ValidRate(frame.rate)
      && frame.audio != [] && |frame.audio| % 2 == 0 && |frame.audio| <= maxFrame
      && (haveInput ==>
            frame.index == nextInputIndex && frame.offset == nextInputSample && frame.rate == sampleRateHz)
    }

    /** Accepts one frame, making zero or more recogniser calls.
        A frame that would end past the last 64-bit sample is refused after its index has been consumed. */
    method PushFrame(frame: Frame) returns (result: PushResult)
      requires Valid() && frame.index < TWO_64 && frame.offset < TWO_64
      modifies this
      ensures Valid() && carry == old(carry)
      ensures result.Refused? <==> old(terminal || finalized || !Admits(frame))
      ensures result.Refused? ==> unchanged(this)
      ensures !result.Refused? ==>
                haveInput && !finalized && sampleRateHz == frame.rate && nextInputIndex == (frame.index + 1) % TWO_64
      ensures result.Overflowed? <==>
                !old(terminal || finalized || !Admits(frame)) && frame.offset + |frame.audio| / 2 >= TWO_64
      ensures result.Overflowed? ==>
                && input == old(input) && pending == old(pending) && nextInputSample == old(nextInputSample)
                && !terminal && heard == old(heard) && cut.sent == old(cut.sent)
      ensures result.Pushed? || result.Broken? ==>
                && nextInputSample == frame.offset + |frame.audio| / 2
                && start == if old(input) == [] then frame.offset else old(start)
      ensures result.Pushed? ==>
                && !terminal && input == old(input) + frame.audio
                && cut.revisions == old(cut.revisions) + result.revisions
                && result.revisions == AnswersFrom(recogniser, heard, |old(heard)|)
      ensures old(heard) <= heard
      ensures result.Broken? ==>
                && terminal && input == old(input) + frame.audio && GoodCadence(Pace())
                && Reference(Voice(), Pace(), input).0 == cut && cut.failed
    {
      hide Follows, GoodCadence, DurationSamples, Reference, Completed, Continuing;
      if terminal || finalized || !Admits(frame) { return Refused; }
      if !haveInput { Configure(frame.rate); }
      nextInputIndex := (frame.index + 1) % TWO_64;
      if |frame.audio| / 2 > TWO_64 - 1 - frame.offset { return Overflowed; }
      result := Accept(frame);
    }

    /** Takes a frame that continues the stream. */
    method Accept(frame: Frame) returns (result: PushResult)
      requires Valid() && haveInput && !terminal && !finalized
      requires frame.audio != [] && |frame.audio| % 2 == 0 && (input != [] ==> frame.offset == nextInputSample)
      modifies this`heard, this`pending, this`pendingStartSample, this`nextProviderIndex, this`currentChunkSamples,
               this`cut, this`nextInputSample, this`input, this`terminal, this`start
      ensures Valid() && (result.Pushed? || result.Broken?) && terminal == result.Broken?
      ensures input == old(input) + frame.audio && nextInputSample == frame.offset + |frame.audio| / 2
      ensures start == if old(input) == [] then frame.offset else old(start)
      ensures old(heard) <= heard && (result.Pushed? ==>
                && cut.revisions == old(cut.revisions) + result.revisions
                && result.revisions == AnswersFrom(recogniser, heard, |old(heard)|))
      ensures result.Broken? ==>
                GoodCadence(Pace()) && Reference(Voice(), Pace(), input).0 == cut && cut.failed
    {
      hide Follows, GoodCadence, DurationSamples, Reference, Completed, Continuing;
      if input == [] { Rebase(frame.offset); }
      result := Consume(frame);
      if result.Broken? { FailureCompletes(Voice(), Pace(), input); }
    }

    /** An utterance starts where its first accepted frame does. */
    ghost method Rebase(offset: nat)
      requires Standing() && input == [] && GoodCadence(Pace())
      modifies this`start, this`cut
      ensures Standing() && GoodCadence(Pace()) && start == offset && cut.revisions == old(cut.revisions)
    {
      hide Follows, Reference, Continuing;
      FollowsNothing(Voice(), Pace(), cut, pending);
      start := offset;
      cut := Fresh(Pace());
      FollowsAtStart(Voice(), Pace());
    }

    method Configure(rate: nat)
      requires Valid() && !haveInput && !terminal && ValidRate(rate)
      modifies this
      ensures Valid() && haveInput && !terminal && !finalized && input == [] && pending == [] && cut.revisions == []
      ensures nextInputSample == 0 && sampleRateHz == rate && carry == old(carry)
      ensures heard == old(heard) && cut.sent == old(cut.sent)
    {
      hide Follows, DurationSamples, Continuing;
      LongerChunksAreLarger(minimumChunk, maximumChunk, rate);
      minimumChunkSamples := DurationSamples(minimumChunk, rate);
      maximumChunkSamples := DurationSamples(maximumChunk, rate);
      currentChunkSamples := minimumChunkSamples;
      sampleRateHz, haveInput := rate, true;
      cut := Fresh(Pace());
      FollowsAtStart(Voice(), Pace());
    }

    /** Hands the retained audio to the recogniser as one chunk. */
    method Flush() returns (reply: Reply)
      requires !cut.failed && cut.at == pendingStartSample && |cut.sent| == nextProviderIndex
      requires cut.size == currentChunkSamples && heard == carry + cut.sent
      modifies this`heard, this`pending, this`pendingStartSample, this`nextProviderIndex, this`currentChunkSamples,
        this`cut
      ensures cut == Deliver(Voice(), Pace(), old(cut), old(pending)) && cut.failed == reply.Failed?
      ensures heard == carry + cut.sent && reply == recogniser(heard)
      ensures heard == old(heard) + [Frame(old(nextProviderIndex), old(pendingStartSample), sampleRateHz, old(pending))]
      ensures reply.Failed? ==> pending == old(pending)
      ensures reply.Revisions? ==>
                && pending == [] && nextProviderIndex == |cut.sent| && currentChunkSamples == cut.size
                && cut.revisions == old(cut.revisions) + reply.list
    {
      var frame := Frame(nextProviderIndex, pendingStartSample, sampleRateHz, pending);
      heard := heard + [frame];
      assert carry + (cut.sent + [frame]) == heard;
      ContinuingAnswers(recogniser, carry, cut.sent + [frame]);
      reply := recogniser(heard);
      cut := Deliver(Voice(), Pace(), cut, pending);
      if reply.Failed? { return; }
      var chunkSamples := |pending| / 2;
      nextProviderIndex := nextProviderIndex + 1;
      pending := [];
      pendingStartSample := pendingStartSample + chunkSamples;
      if reply.list != [] {
        currentChunkSamples := minimumChunkSamples;
      } else {
        currentChunkSamples :=
          if currentChunkSamples * 2 <= maximumChunkSamples then currentChunkSamples * 2 else maximumChunkSamples;
      }
    }

    /** The buffer stands where the reference does after `input`. */
    ghost predicate Standing() reads this {
      && Follows(Voice(), Pace(), input, cut, pending)
      && currentChunkSamples == cut.size && nextProviderIndex == |cut.sent| && heard == carry + cut.sent
      && (pending != [] ==> pendingStartSample == cut.at)
    }

    /** Moves as much of the frame as the current chunk can hold, and flushes a chunk that is full. */
    method TakePiece(frame: Frame, consumed: nat) returns (take: nat, reply: Option<Reply>)
      requires Standing() && 2 * consumed < |frame.audio| && |frame.audio| == 2 * (|frame.audio| / 2)
      requires 2 * (frame.offset + consumed - start) == |input|
      modifies this`heard, this`pending, this`pendingStartSample, this`nextProviderIndex, this`currentChunkSamples,
               this`cut, this`input
      ensures take > 0 && 2 * (consumed + take) <= |frame.audio|
      ensures input == old(input) + frame.audio[2 * consumed..2 * (consumed + take)]
      ensures heard == carry + cut.sent && (reply != Some(Failed) ==> Standing())
      ensures reply == None ==> cut.revisions == old(cut.revisions) && heard == old(heard)
      ensures reply.Some? ==>
                reply.value == recogniser(heard) && |heard| == |old(heard)| + 1 && heard[..|old(heard)|] == old(heard)
      ensures reply.Some? && reply.value.Revisions? ==> cut.revisions == old(cut.revisions) + reply.value.list
      ensures reply == Some(Failed) ==>
        GoodCadence(Pace()) && Reference(Voice(), Pace(), input) == (cut, []) && cut.failed
    {
      hide Follows, Deliver, Reference, Continuing;
      FollowsFacts(Voice(), Pace(), input, cut, pending);
      if pending == [] { pendingStartSample := frame.offset + consumed; }
      var needed := currentChunkSamples - |pending| / 2;
      var available := |frame.audio| / 2 - consumed;
      take := if needed <= available then needed else available;
      var piece := frame.audio[2 * consumed..2 * (consumed + take)];
      ghost var t, held := cut, pending;
      pending := pending + piece;
      if |pending| / 2 != currentChunkSamples {
        FollowsTake(Voice(), Pace(), input, t, held, piece);
        input := input + piece;
        return take, None;
      }
      FollowsFlush(Voice(), Pace(), input, t, held, piece);
      input := input + piece;
      var answer := Flush();
      reply := Some(answer);
    }

    /** The consuming loop of one accepted frame. */
    method Consume(frame: Frame) returns (result: PushResult)
      requires Standing() && GoodCadence(Pace()) && !terminal
      requires frame.audio != [] && |frame.audio| == 2 * (|frame.audio| / 2) && 2 * (frame.offset - start) == |input|
      modifies this`heard, this`pending, this`pendingStartSample, this`nextProviderIndex, this`currentChunkSamples,
               this`cut, this`nextInputSample, this`input, this`terminal
      ensures (result.Pushed? || result.Broken?) && heard == carry + cut.sent
      ensures input == old(input) + frame.audio && 2 * (nextInputSample - start) == |input|
      ensures nextInputSample == frame.offset + |frame.audio| / 2
      ensures result.Pushed? ==> !terminal && Standing() && cut.revisions == old(cut.revisions) + result.revisions
      ensures old(heard) <= heard
      ensures result.Pushed? ==> result.revisions == AnswersFrom(recogniser, heard, |old(heard)|)
      ensures result.Broken? ==> terminal && Reference(Voice(), Pace(), input).0 == cut && cut.failed
    {
      hide Follows, Reference, GoodCadence, Continuing, AnswersFrom;
      nextInputSample := frame.offset + |frame.audio| / 2;
      var received: seq<nat> := [];
      var consumed := 0;
      ghost var base := input;
      NoAnswers(recogniser, heard, |heard|);
      while 2 * consumed < |frame.audio|
        invariant 0 <= 2 * consumed <= |frame.audio| && input == base + frame.audio[..2 * consumed]
        invariant Standing() && cut.revisions == old(cut.revisions) + received
        invariant 2 * (nextInputSample - start) == |base| + |frame.audio| && !terminal
        invariant old(heard) <= heard && received == AnswersFrom(recogniser, heard, |old(heard)|)
      {
        ghost var before := heard;
        var take, reply := TakePiece(frame, consumed);
        ghost var later := consumed + take;
        assert frame.audio[..2 * later] == frame.audio[..2 * consumed] + frame.audio[2 * consumed..2 * later];
        consumed := consumed + take;
        if reply == Some(Failed) {
          FailureIsFinal(Voice(), Pace(), input, cut, frame.audio[2 * later..]);
          assert input + frame.audio[2 * later..] == base + frame.audio;
          input := base + frame.audio;
          terminal := true;
          return Broken;
        }
        if reply.Some? {
          received := received + reply.value.list;
          assert heard == before + [heard[|before|]];
          AnswersSnoc(recogniser, before, heard[|before|], |old(heard)|);
        }
      }
      assert frame.audio[..2 * consumed] == frame.audio;
      result := Pushed(received);
    }

    /** Flushes the short remainder and finalizes the recogniser, which may or may not agree. */
    method Finalize(sourceSample: nat, agrees: bool) returns (result: FinalResult)
      requires Valid()
      modifies this
      ensures Valid() && carry == old(carry) && input == old(input) && Pace() == old(Pace())
      ensures result.NotFinal? <==>
                old(terminal || finalized || !haveInput || sourceSample != nextInputSample)
      ensures result.NotFinal? ==> unchanged(this)
      ensures !result.NotFinal? ==>
                && haveInput && heard == carry + Completed(Voice(), Pace(), input).sent
                && (result.Final? <==> !Completed(Voice(), Pace(), input).failed && agrees)
                && finalized == result.Final? && terminal == result.FinalBroken?
      ensures result.Final? ==>
                && pending == [] && Flat(cut.sent) == input
                && cut.sent == old(cut.sent) +
                     if old(pending) == [] then []
                     else [Frame(|old(cut.sent)|, old(cut.at), sampleRateHz, old(pending))]
    {
      hide Follows, GoodCadence, DurationSamples, Flat, Reference, Completed, Continuing;
      if terminal || finalized || !haveInput || sourceSample != nextInputSample { return NotFinal; }
      FollowsFacts(Voice(), Pace(), input, cut, pending);
      FollowsCompletes(Voice(), Pace(), input, cut, pending);
      if |pending| > 0 {
        FlatDeliver(Voice(), Pace(), cut, pending);
        var reply := Flush();
        if reply.Failed? {
          terminal := true;
          return FinalBroken;
        }
      }
      if !agrees {
        terminal := true;
        return FinalBroken;
      }
      finalized := true;
      CompletedConserves(Voice(), Pace(), input);
      result := Final;
    }

    /** Ends the utterance in a reusable recogniser; `accepted` is whether it agreed, and so forgot. */
    method EndUtterance(accepted: bool)
      requires Valid()
      modifies this
      ensures Valid() && !haveInput && !finalized
      ensures terminal == (old(terminal) && !accepted)
      ensures carry == heard == if accepted then [] else old(heard)
      ensures pending == [] && input == [] && cut.sent == [] && nextInputIndex == 0 && nextInputSample == 0
    {
      hide Follows, DurationSamples, GoodCadence, Completed, Continuing;
      var memory := if accepted then [] else heard;
      heard, pending, pendingStartSample := memory, [], 0;
      nextInputIndex, nextInputSample, nextProviderIndex := 0, 0, 0;
      haveInput, finalized, terminal := false, false, terminal && !accepted;
      currentChunkSamples := minimumChunkSamples;
      carry := memory;
      input, cut := [], Cutting([], 0, currentChunkSamples, [], false);
    }
  }

  lemma FlatDeliver(p: Provider, c: Cadence, t: Cutting, chunk: seq<byte>)
    ensures Flat(Deliver(p, c, t, chunk).sent) == Flat(t.sent) + chunk
    ensures Deliver(p, c, t, chunk).sent == t.sent + [Frame(|t.sent|, t.at, c.rate, chunk)]
  {
    var u := Deliver(p, c, t, chunk);
    assert u.sent[..|t.sent|] == t.sent;
  }

  // ---- Whole streams -----------------------------------------------------------------------

  predicate WellFormed(frame: Frame, limit: int) {
    && ValidRate(frame.rate) && frame.audio != [] && |frame.audio| % 2 == 0 && |frame.audio| <= limit
    && frame.index < TWO_64 && frame.offset + |frame.audio| / 2 < TWO_64
  }

  predicate Succeeds(a: Frame, b: Frame) {
    b.index == (a.index + 1) % TWO_64 && b.offset == a.offset + |a.audio| / 2 && b.rate == a.rate
  }

  /** Some slicing of one stream into frames no longer than the limit. */
  predicate Slices(frames: seq<Frame>, limit: int) {
    && (forall i :: 0 <= i < |frames| ==> WellFormed(frames[i], limit))
    && (forall i :: 0 < i < |frames| ==> Succeeds(frames[i - 1], frames[i]))
  }

  /** The cadence of a stream that starts with this frame. */
  function CadenceFor(minimum: int, maximum: int, first: Frame): (c: Cadence)
    requires ValidDuration(minimum) && ValidDuration(maximum) && minimum <= maximum && ValidRate(first.rate)
    ensures GoodCadence(c)
  {
    LongerChunksAreLarger(minimum, maximum, first.rate);
    Cadence(DurationSamples(minimum, first.rate), DurationSamples(maximum, first.rate), first.rate, first.offset)
  }

  lemma {:induction false} SameAnswers(p: Provider, q: Provider, c: Cadence, s: Cutting, audio: seq<byte>)
    requires GoodCadence(c) && 0 < s.size && forall frames :: p(frames) == q(frames)
    ensures Chop(p, c, s, audio) == Chop(q, c, s, audio)
    decreases |audio|
  {
    if !s.failed && |audio| >= 2 * s.size {
      var chunk := audio[..2 * s.size];
      DeliverKeepsSize(p, c, s, chunk);
      SameAnswers(p, q, c, Deliver(p, c, s, chunk), audio[2 * s.size..]);
    }
  }

  /** A recogniser that remembers nothing is asked as it is. */
  lemma ContinuingNothing(r: Provider, c: Cadence, audio: seq<byte>)
    requires GoodCadence(c)
    ensures Completed(Continuing(r, []), c, audio) == Completed(r, c, audio)
    ensures Reference(Continuing(r, []), c, audio) == Reference(r, c, audio)
  {
    assert forall frames: seq<Frame> :: [] + frames == frames;
    SameAnswers(Continuing(r, []), r, c, Fresh(c), audio);
  }

  /** A stream that fails part way gives the recogniser nothing after the failure. */
  lemma FailureEnds(p: Provider, c: Cadence, audio: seq<byte>, more: seq<byte>)
    requires GoodCadence(c) && Reference(p, c, audio).0.failed
    ensures Completed(p, c, audio + more) == Reference(p, c, audio + more).0 == Reference(p, c, audio).0
  {
    ChopContinues(p, c, Fresh(c), audio, more);
  }

  lemma {:induction false} FlatSplit(frames: seq<Frame>, i: nat)
    requires i <= |frames|
    ensures Flat(frames) == Flat(frames[..i]) + Flat(frames[i..])
    decreases |frames|
  {
    if i == |frames| {
      assert frames[..i] == frames && frames[i..] == [];
    } else {
      var n := |frames| - 1;
      FlatSplit(frames[..n], i);
      assert frames[..n][..i] == frames[..i] && frames[..n][i..] == frames[i..n];
      assert frames[i..][..n - i] == frames[i..n] && frames[i..][n - i] == frames[n];
    }
  }

  /** The first n frames have been pushed into a fresh buffer, and all were accepted. */
  ghost predicate Fed(b: Buffer, p: Provider, minimum: int, maximum: int, limit: int, frames: seq<Frame>, n: nat)
    requires n <= |frames|
    reads b
  {
    && b.Valid() && b.recogniser == p && b.carry == [] && b.maxFrame == limit && !b.finalized
    && b.minimumChunk == minimum && b.maximumChunk == maximum && b.haveInput == (n > 0)
    && Slices(frames[..n], limit)
    && (n > 0 ==>
          && b.input == Flat(frames[..n]) != [] && b.sampleRateHz == frames[0].rate == frames[n - 1].rate
          && b.start == frames[0].offset
          && b.nextInputIndex == (frames[n - 1].index + 1) % TWO_64
          && b.nextInputSample == frames[n - 1].offset + |frames[n - 1].audio| / 2
          && b.Pace() == CadenceFor(minimum, maximum, frames[0]))
  }

  lemma SlicesStep(frames: seq<Frame>, n: nat, limit: int)
    requires n < |frames|
    ensures Slices(frames[..n + 1], limit) <==>
      && Slices(frames[..n], limit) && WellFormed(frames[n], limit) && (n > 0 ==> Succeeds(frames[n - 1], frames[n]))
    ensures Slices(frames, limit) ==> Slices(frames[..n + 1], limit)
  {
    hide WellFormed, Succeeds;
    var a, b := frames[..n], frames[..n + 1];
    assert forall i :: 0 <= i < n ==> a[i] == b[i] == frames[i];
    assert b[n] == frames[n];
    if Slices(b, limit) {
      assert WellFormed(b[n], limit) && (n > 0 ==> Succeeds(b[n - 1], b[n]));
    }
  }

  lemma FlatSnoc(frames: seq<Frame>, n: nat)
    requires n < |frames|
    ensures Flat(frames[..n + 1]) == Flat(frames[..n]) + frames[n].audio
    ensures n == 0 ==> Flat(frames[..n + 1]) == frames[n].audio
  {
    assert frames[..n + 1][..n] == frames[..n];
  }

  lemma NothingSlices(limit: int)
    ensures Slices([], limit)
  {
  }

  /** A fresh buffer takes the next frame exactly when the frames so far slice a stream. */
  method Feed(b: Buffer, ghost p: Provider, ghost minimum: int, ghost maximum: int, ghost limit: int,
              frames: seq<Frame>, n: nat) returns (pushed: PushResult)
    requires n < |frames| && Fed(b, p, minimum, maximum, limit, frames, n) && !b.terminal
    requires frames[n].index < TWO_64 && frames[n].offset < TWO_64
    modifies b
    ensures pushed.Pushed? || pushed.Broken? <==> Slices(frames[..n + 1], limit)
    ensures pushed.Pushed? || pushed.Broken? ==>
              Fed(b, p, minimum, maximum, limit, frames, n + 1) && b.terminal == pushed.Broken?
    ensures pushed.Pushed? || pushed.Broken? ==> Reference(b.Voice(), b.Pace(), b.input).0 == b.cut
    ensures pushed.Pushed? || pushed.Broken? ==> b.cut.failed == pushed.Broken? && b.heard == b.cut.sent
    ensures old(b.heard) <= b.heard
    ensures pushed.Pushed? ==> pushed.revisions == AnswersFrom(p, b.heard, |old(b.heard)|)
  {
    hide Completed, Reference, Flat, DurationSamples, Continuing, Slices, Follows;
    SlicesStep(frames, n, limit);
    FlatSnoc(frames, n);
    pushed := b.PushFrame(frames[n]);
    if pushed.Pushed? { FollowsReference(b.Voice(), b.Pace(), b.input, b.cut, b.pending); }
  }

  /** Pushes frames into a fresh buffer and finalizes it. Every slicing of a stream gives the recogniser
      the chunks of the whole stream, cut at once, and only a slicing is accepted. What the pushes return
      is the recogniser's answers, in order, to the chunks they handed over: to all of them, unless one
      failed, and to a beginning of them if one did. */
  method Stream(p: Provider, minimum: int, maximum: int, limit: int, frames: seq<Frame>, agrees: bool)
    returns (heard: seq<Frame>, revisions: seq<nat>, result: FinalResult)
    requires ValidDuration(minimum) && ValidDuration(maximum) && minimum <= maximum
    requires forall i :: 0 <= i < |frames| ==> frames[i].index < TWO_64 && frames[i].offset < TWO_64
    ensures frames != [] && Slices(frames, limit) ==>
              && ValidRate(frames[0].rate)
              && var whole := Completed(p, CadenceFor(minimum, maximum, frames[0]), Flat(frames));
                 heard == whole.sent && result == if !whole.failed && agrees then Final else FinalBroken
    ensures frames != [] && Slices(frames, limit) ==>
              && ValidRate(frames[0].rate)
              && var due := Reference(p, CadenceFor(minimum, maximum, frames[0]), Flat(frames)).0;
                 && revisions <= AnswersFrom(p, due.sent, 0)
                 && (!due.failed ==> revisions == AnswersFrom(p, due.sent, 0))
    ensures frames == [] || !Slices(frames, limit) ==> !result.Final?
  {
    hide Completed, Reference, Flat, DurationSamples, Continuing, Slices, Follows, CadenceFor, GoodCadence, AnswersFrom;
    var b := new Buffer(p, minimum, maximum, limit);
    var n := 0;
    revisions := [];
    assert frames[..0] == [];
    NothingSlices(limit);
    NoAnswers(p, [], 0);
    while n < |frames|
      invariant n <= |frames| && fresh(b) && Fed(b, p, minimum, maximum, limit, frames, n) && !b.terminal
      invariant revisions == AnswersFrom(p, b.heard, 0)
      invariant n > 0 ==> Reference(b.Voice(), b.Pace(), b.input).0 == b.cut && b.heard == b.cut.sent && !b.cut.failed
    {
      SlicesStep(frames, n, limit);
      ghost var before := b.heard;
      var pushed := Feed(b, p, minimum, maximum, limit, frames, n);
      n := n + 1;
      if pushed.Refused? || pushed.Overflowed? { return b.heard, revisions, NotFinal; }
      assert b.heard[..|before|] == before;
      AnswersSplit(p, b.heard, 0, |before|);
      if pushed.Broken? {
        FlatSplit(frames, n);
        FailureEnds(b.Voice(), b.Pace(), b.input, Flat(frames[n..]));
        ContinuingNothing(p, b.Pace(), Flat(frames));
        return b.heard, revisions, FinalBroken;
      }
      revisions := revisions + pushed.revisions;
    }
    assert frames[..n] == frames;
    if n > 0 { ContinuingNothing(p, b.Pace(), b.input); }
    result := b.Finalize(b.nextInputSample, agrees);
    heard := b.heard;
  }

  /** However one stream is sliced, the recogniser is given the same, and answers the same. */
  method SliceTwice(p: Provider, minimum: int, maximum: int, one: int, two: int, xs: seq<Frame>, ys: seq<Frame>,
                    agrees: bool) returns (a: seq<Frame>, b: seq<Frame>, said: seq<nat>, told: seq<nat>)
    requires ValidDuration(minimum) && ValidDuration(maximum) && minimum <= maximum
    requires xs != [] && ys != [] && Slices(xs, one) && Slices(ys, two) && Flat(xs) == Flat(ys)
    requires xs[0].offset == ys[0].offset && xs[0].rate == ys[0].rate
    ensures a == b && ValidRate(xs[0].rate)
    ensures a == Completed(p, CadenceFor(minimum, maximum, xs[0]), Flat(xs)).sent
    ensures !Reference(p, CadenceFor(minimum, maximum, xs[0]), Flat(xs)).0.failed ==> said == told
  {
    hide Completed, Reference, AnswersFrom, Flat, DurationSamples;
    var first, second;
    a, said, first := Stream(p, minimum, maximum, one, xs, agrees);
    b, told, second := Stream(p, minimum, maximum, two, ys, agrees);
  }

  /** Two buffers of one configuration that accepted the same audio, however it was sliced, have given
      the recogniser the same chunks and retain the same remainder. */
  lemma SlicingDoesNotMatter(a: Buffer, b: Buffer)
    requires a.Valid() && b.Valid() && a.recogniser == b.recogniser && a.carry == b.carry
    requires a.Pace() == b.Pace() && a.input == b.input
    requires a.haveInput && !a.terminal && !a.finalized && b.haveInput && !b.terminal && !b.finalized
    ensures a.cut == b.cut && a.pending == b.pending && a.heard == b.heard
    ensures Lawful(a.Voice(), a.Pace(), a.cut.sent) && Flat(a.cut.sent) + a.pending == a.input
  {
    ReferenceLaws(a.Voice(), a.Pace(), a.input);
  }
}
