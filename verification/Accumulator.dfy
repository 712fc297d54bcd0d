/** The process-level totals of the recogniser boundary: buffers fold in once when they close, and a
    two-phase snapshot reads the ones still open.

    Each method of `Accumulator` is one critical section, so any order of calls is an interleaving of
    buffers, closers and snapshot readers. Buffers are numbered in order of creation. */
module Accumulator {
  import opened Prelude

  datatype Metrics = Metrics(
    advances: nat, advanceFailures: nat, advanceNS: nat, advanceMax: nat,
    finals: nat, finalFailures: nat, finalNS: nat, finalMax: nat)

  const ZERO := Metrics(0, 0, 0, 0, 0, 0, 0, 0)

  /** Totals add up; a maximum does not. */
  function Add(a: Metrics, b: Metrics): Metrics {
    Metrics(a.advances + b.advances, a.advanceFailures + b.advanceFailures, a.advanceNS + b.advanceNS,
            Max(a.advanceMax, b.advanceMax),
            a.finals + b.finals, a.finalFailures + b.finalFailures, a.finalNS + b.finalNS,
            Max(a.finalMax, b.finalMax))
  }

  predicate Le(a: Metrics, b: Metrics) {
    && a.advances <= b.advances && a.advanceFailures <= b.advanceFailures
    && a.advanceNS <= b.advanceNS && a.advanceMax <= b.advanceMax
    && a.finals <= b.finals && a.finalFailures <= b.finalFailures
    && a.finalNS <= b.finalNS && a.finalMax <= b.finalMax
  }

  /** One call at the recogniser boundary. */
  datatype Call = Call(finalizing: bool, failed: bool, elapsed: nat)

  function Record(m: Metrics, c: Call): (r: Metrics)
    ensures Le(m, r)
  {
    var failure := if c.failed then 1 else 0;
    if c.finalizing then
      m.(finals := m.finals + 1, finalFailures := m.finalFailures + failure,
         finalNS := m.finalNS + c.elapsed, finalMax := Max(m.finalMax, c.elapsed))
    else
      m.(advances := m.advances + 1, advanceFailures := m.advanceFailures + failure,
         advanceNS := m.advanceNS + c.elapsed, advanceMax := Max(m.advanceMax, c.elapsed))
  }

  lemma AddLaws(a: Metrics, b: Metrics, c: Metrics)
    ensures Add(a, ZERO) == a && Add(ZERO, a) == a && Add(a, b) == Add(b, a)
    ensures Add(Add(a, b), c) == Add(a, Add(b, c)) && Le(a, Add(a, b))
  {
  }

  lemma AddMonotone(a: Metrics, b: Metrics, c: Metrics, d: Metrics)
    requires Le(a, b) && Le(c, d)
    ensures Le(Add(a, c), Add(b, d))
  {
  }

  lemma LeTransitive(a: Metrics, b: Metrics, c: Metrics)
    requires Le(a, b) && Le(b, c)
    ensures Le(a, c)
  {
  }

  // ---- What the figures mean ---------------------------------------------------------------

  /** The counters of a buffer that made these calls. */
  function Tally(calls: seq<Call>): Metrics {
    if calls == [] then ZERO else Record(Tally(calls[..|calls| - 1]), calls[|calls| - 1])
  }

  /** How many of the calls are advances, or finalisations; and how many of those failed. */
  function Count(calls: seq<Call>, finalizing: bool, failedOnly: bool): nat {
    if calls == [] then 0
    else (if calls[0].finalizing == finalizing && (failedOnly ==> calls[0].failed) then 1 else 0)
         + Count(calls[1..], finalizing, failedOnly)
  }

  /** How long they took together. */
  function Elapsed(calls: seq<Call>, finalizing: bool): nat {
    if calls == [] then 0
    else (if calls[0].finalizing == finalizing then calls[0].elapsed else 0) + Elapsed(calls[1..], finalizing)
  }

  /** m is the longest any of them took. */
  ghost predicate Longest(calls: seq<Call>, finalizing: bool, m: nat) {
    && (forall i :: 0 <= i < |calls| && calls[i].finalizing == finalizing ==> calls[i].elapsed <= m)
    && (m > 0 ==> exists i :: 0 <= i < |calls| && calls[i].finalizing == finalizing && calls[i].elapsed == m)
  }

  lemma {:induction false} CountSnoc(calls: seq<Call>, c: Call, finalizing: bool, failedOnly: bool)
    ensures Count(calls + [c], finalizing, failedOnly) == Count(calls, finalizing, failedOnly)
      + if c.finalizing == finalizing && (failedOnly ==> c.failed) then 1 else 0
    ensures Elapsed(calls + [c], finalizing) == Elapsed(calls, finalizing)
      + if c.finalizing == finalizing then c.elapsed else 0
  {
    if calls == [] {
      assert [] + [c] == [c] && [c][1..] == [];
    } else {
      assert (calls + [c])[1..] == calls[1..] + [c];
      CountSnoc(calls[1..], c, finalizing, failedOnly);
    }
  }

  lemma LongestSnoc(calls: seq<Call>, c: Call, finalizing: bool, m: nat)
    requires Longest(calls, finalizing, m)
    ensures Longest(calls + [c], finalizing, if c.finalizing == finalizing && c.elapsed > m then c.elapsed else m)
  {
    var all := calls + [c];
    assert all[|calls|] == c;
    if m > 0 {
      var i :| 0 <= i < |calls| && calls[i].finalizing == finalizing && calls[i].elapsed == m;
      assert all[i] == calls[i];
    }
  }

  /** The eight figures of a buffer are the numbers of its calls of each kind, of those that failed, the time they
      took together, and the longest time any one took. */
  lemma {:induction false} TallyMeans(calls: seq<Call>)
    ensures var m := Tally(calls);
      && m.advances == Count(calls, false, false) && m.advanceFailures == Count(calls, false, true)
      && m.advanceNS == Elapsed(calls, false) && Longest(calls, false, m.advanceMax)
      && m.finals == Count(calls, true, false) && m.finalFailures == Count(calls, true, true)
      && m.finalNS == Elapsed(calls, true) && Longest(calls, true, m.finalMax)
  {
    hide Longest, Count, Elapsed;
    if calls == [] {
      NoCalls();
    } else {
      var first, c := calls[..|calls| - 1], calls[|calls| - 1];
      assert first + [c] == calls;
      TallyMeans(first);
      CountSnoc(first, c, false, false);
      CountSnoc(first, c, false, true);
      CountSnoc(first, c, true, false);
      CountSnoc(first, c, true, true);
      LongestSnoc(first, c, false, Tally(first).advanceMax);
      LongestSnoc(first, c, true, Tally(first).finalMax);
    }
  }

  lemma NoCalls()
    ensures forall f, g :: Count([], f, g) == 0
    ensures forall f :: Elapsed([], f) == 0 && Longest([], f, 0)
  {
  }

  /** Adding the figures of two buffers gives the figures of one that had made the calls of both. */
  lemma {:induction false} TallyJoins(a: seq<Call>, b: seq<Call>)
    ensures Tally(a + b) == Add(Tally(a), Tally(b))
  {
    hide Tally, Add, Record;
    if b == [] {
      assert a + b == a;
      NoTally();
      AddLaws(Tally(a), ZERO, ZERO);
    } else {
      var first, c := b[..|b| - 1], b[|b| - 1];
      assert a + b == (a + first) + [c] && b == first + [c];
      TallyJoins(a, first);
      TallySnoc(a + first, c);
      TallySnoc(first, c);
      AddRecords(Tally(a), Tally(first), c);
    }
  }

  lemma AddRecords(m: Metrics, n: Metrics, c: Call)
    ensures Add(m, Record(n, c)) == Record(Add(m, n), c)
  {
  }

  /** Every call of every buffer. */
  function Everything(calls: seq<seq<Call>>): seq<Call> {
    if calls == [] then [] else Everything(calls[..|calls| - 1]) + calls[|calls| - 1]
  }

  ghost predicate Tallied(m: seq<Metrics>, calls: seq<seq<Call>>) {
    |m| == |calls| && forall b :: 0 <= b < |m| ==> m[b] == Tally(calls[b])
  }

  /** The true total is the figures of all the calls there have been. */
  lemma {:induction false} TotalTallies(m: seq<Metrics>, calls: seq<seq<Call>>)
    requires Tallied(m, calls)
    ensures Total(m) == Tally(Everything(calls))
  {
    hide Add, Tally;
    if m == [] {
      NoTally();
    } else {
      var k := |m| - 1;
      TotalTallies(m[..k], calls[..k]);
      TallyJoins(Everything(calls[..k]), calls[k]);
      SumSame(m[..k], m[..k], All(|m|), All(k));
    }
  }

  lemma TallySnoc(calls: seq<Call>, c: Call)
    ensures Tally(calls + [c]) == Record(Tally(calls), c)
  {
    assert (calls + [c])[..|calls|] == calls;
  }

  lemma NoTally()
    ensures Tally([]) == ZERO
  {
  }

  lemma LeAntisymmetric(a: Metrics, b: Metrics)
    requires Le(a, b) && Le(b, a)
    ensures a == b
  {
  }

  // ---- Sums over sets of buffers -----------------------------------------------------------

  /** The combined counters of the buffers named in s. */
  ghost function Sum(m: seq<Metrics>, s: set<nat>): Metrics {
    if m == [] then ZERO
    else
      var k := |m| - 1;
      Add(Sum(m[..k], s), if k in s then m[k] else ZERO)
  }

  ghost function All(n: nat): (s: set<nat>)
    ensures |s| == n && forall i: nat :: i in s <==> i < n
  {
    if n == 0 then {} else All(n - 1) + {n - 1}
  }

  /** The counters of every buffer there is. */
  ghost function Total(m: seq<Metrics>): Metrics { Sum(m, All(|m|)) }

  lemma {:induction false} SumSame(a: seq<Metrics>, b: seq<Metrics>, s: set<nat>, t: set<nat>)
    requires |a| == |b| && forall i :: 0 <= i < |a| ==> (i in s <==> i in t)
    requires forall i :: 0 <= i < |a| && i in s ==> a[i] == b[i]
    ensures Sum(a, s) == Sum(b, t)
  {
    if a != [] { SumSame(a[..|a| - 1], b[..|b| - 1], s, t); }
  }

  lemma {:induction false} SumInsert(m: seq<Metrics>, s: set<nat>, i: nat)
    requires i < |m| && i !in s
    ensures Sum(m, s + {i}) == Add(Sum(m, s), m[i])
  {
    var k := |m| - 1;
    hide Add;
    if i == k {
      SumSame(m[..k], m[..k], s + {i}, s);
      AddLaws(Sum(m[..k], s), ZERO, ZERO);
    } else {
      SumInsert(m[..k], s, i);
      var x := if k in s then m[k] else ZERO;
      AddLaws(Sum(m[..k], s), m[i], x);
      AddLaws(m[i], x, x);
      AddLaws(Sum(m[..k], s), x, m[i]);
    }
  }

  lemma {:induction false} SumMonotone(a: seq<Metrics>, b: seq<Metrics>, s: set<nat>)
    requires |a| == |b| && forall i :: 0 <= i < |a| ==> Le(a[i], b[i])
    ensures Le(Sum(a, s), Sum(b, s))
  {
    hide Add, Le;
    if a != [] {
      var k := |a| - 1;
      SumMonotone(a[..k], b[..k], s);
      LeReflexive(ZERO);
      AddMonotone(Sum(a[..k], s), Sum(b[..k], s), if k in s then a[k] else ZERO, if k in s then b[k] else ZERO);
    } else {
      LeReflexive(ZERO);
    }
  }

  lemma LeReflexive(a: Metrics)
    ensures Le(a, a)
  {
  }

  lemma {:induction false} TotalOfMore(a: seq<Metrics>, b: seq<Metrics>)
    requires |a| <= |b| && forall i :: 0 <= i < |a| ==> Le(a[i], b[i])
    ensures Le(Total(a), Total(b))
    decreases |b|
  {
    hide Add, Le;
    if |a| == |b| {
      SumMonotone(a, b, All(|a|));
    } else {
      var k := |b| - 1;
      TotalOfMore(a, b[..k]);
      SumSame(b[..k], b[..k], All(|b|), All(k));
      AddLaws(Total(b[..k]), b[k], ZERO);
      LeTransitive(Total(a), Total(b[..k]), Total(b));
    }
  }

  // ---- Histories ---------------------------------------------------------------------------

  ghost predicate Grows(a: seq<Metrics>, b: seq<Metrics>) {
    |a| <= |b| && forall i :: 0 <= i < |a| ==> Le(a[i], b[i])
  }

  /** The counters of every buffer, at every moment so far: buffers are only added, and counters only grow. */
  ghost predicate History(h: seq<seq<Metrics>>) {
    |h| > 0 && forall i, j :: 0 <= i <= j < |h| ==> Grows(h[i], h[j])
  }

  lemma HistoryGrows(h: seq<seq<Metrics>>, next: seq<Metrics>)
    requires History(h) && Grows(h[|h| - 1], next)
    ensures History(h + [next])
  {
    hide Le;
    var g := h + [next];
    forall i, j | 0 <= i <= j < |g| ensures Grows(g[i], g[j]) {
      if j == |h| {
        if i < j {
          assert Grows(h[i], h[j - 1]);
          forall k | 0 <= k < |h[i]| ensures Le(h[i][k], next[k]) {
            LeTransitive(h[i][k], h[j - 1][k], next[k]);
          }
        } else {
          forall k | 0 <= k < |next| ensures Le(next[k], next[k]) { LeReflexive(next[k]); }
        }
      } else {
        assert Grows(h[i], h[j]);
      }
    }
  }

  /** One counter value for each of a set of buffers, each taken at its own moment. */
  ghost predicate Moments(h: seq<seq<Metrics>>, at: seq<nat>, begun: nat, ended: nat) {
    && begun <= ended < |h| && |at| == |h[begun]|
    && forall b :: 0 <= b < |at| ==> begun <= at[b] <= ended && b < |h[at[b]]|
  }

  ghost function View(h: seq<seq<Metrics>>, at: seq<nat>, begun: nat, ended: nat): (v: seq<Metrics>)
    requires Moments(h, at, begun, ended)
  {
    seq(|at|, b requires 0 <= b < |at| => h[at[b]][b])
  }

  /** A snapshot being taken: `total` so far, the buffers copied under the lock, those still to be
      read, and (for the proof) when it began, when each buffer was read, and whether every buffer
      closed by then had been quiet since. */
  datatype Reading = Reading(total: Metrics, utterances: nat, copied: set<nat>, left: set<nat>,
                             ghost begun: nat, ghost at: seq<nat>, ghost exact: bool)

  datatype RuntimeSnapshot = RuntimeSnapshot(metrics: Metrics, utterances: nat, inFlight: nat)

  /** A snapshot that has been returned. */
  datatype Publication = Publication(snapshot: RuntimeSnapshot, begun: nat, ended: nat, at: seq<nat>, exact: bool)

  /** Every buffer outside `left` has been counted, once. */
  ghost predicate Reads(h: seq<seq<Metrics>>, r: Reading) {
    && |h| > 0 && Moments(h, r.at, r.begun, |h| - 1)
    && r.left <= r.copied <= All(|r.at|)
    && r.total == Sum(View(h, r.at, r.begun, |h| - 1), All(|r.at|) - r.left)
    && r.utterances + |r.copied| == |r.at|
  }

  /** The snapshot counts every buffer that existed when it began, exactly once, each with a value
      it held while the snapshot was being taken. */
  ghost predicate Publishes(h: seq<seq<Metrics>>, p: Publication) {
    && Moments(h, p.at, p.begun, p.ended)
    && p.snapshot.metrics == Total(View(h, p.at, p.begun, p.ended))
    && p.snapshot.utterances + p.snapshot.inFlight == |h[p.begun]|
  }

  lemma ReadsLater(h: seq<seq<Metrics>>, next: seq<Metrics>, r: Reading)
    requires Reads(h, r)
    ensures Reads(h + [next], r)
  {
    hide Sum, All;
    var g := h + [next];
    assert forall b :: 0 <= b < |r.at| ==> g[r.at[b]] == h[r.at[b]];
    assert Moments(g, r.at, r.begun, |g| - 1);
    assert View(g, r.at, r.begun, |g| - 1) == View(h, r.at, r.begun, |h| - 1);
  }

  lemma PublishesLater(h: seq<seq<Metrics>>, next: seq<Metrics>, p: Publication)
    requires Publishes(h, p)
    ensures Publishes(h + [next], p)
  {
    hide Sum, All;
    var g := h + [next];
    assert forall b :: 0 <= b < |p.at| ==> g[p.at[b]] == h[p.at[b]];
    assert View(g, p.at, p.begun, p.ended) == View(h, p.at, p.begun, p.ended);
  }

  /** A snapshot lies between the true totals when it began and when it ended. */
  lemma SnapshotIsBracketed(h: seq<seq<Metrics>>, p: Publication)
    requires History(h) && Publishes(h, p)
    ensures Le(Total(h[p.begun]), p.snapshot.metrics)
    ensures Le(p.snapshot.metrics, Total(h[p.ended]))
  {
    hide Le, Sum, All;
    var v := View(h, p.at, p.begun, p.ended);
    assert Grows(h[p.begun], h[p.ended]);
    forall b | 0 <= b < |v| ensures Le(h[p.begun][b], v[b]) && Le(v[b], h[p.ended][b]) {
      assert Grows(h[p.begun], h[p.at[b]]);
      assert Grows(h[p.at[b]], h[p.ended]);
    }
    TotalOfMore(h[p.begun], v);
    TotalOfMore(v, h[p.ended]);
  }

  /** Successive snapshots never decrease, in any sum or maximum. */
  lemma SnapshotsNeverDecrease(h: seq<seq<Metrics>>, p: Publication, q: Publication)
    requires History(h) && Publishes(h, p) && Publishes(h, q) && p.ended <= q.begun
    ensures Le(p.snapshot.metrics, q.snapshot.metrics)
  {
    hide Le, Sum, All;
    SnapshotIsBracketed(h, p);
    SnapshotIsBracketed(h, q);
    assert Grows(h[p.ended], h[q.begun]);
    TotalOfMore(h[p.ended], h[q.begun]);
    LeTransitive(p.snapshot.metrics, Total(h[p.ended]), Total(h[q.begun]));
    LeTransitive(p.snapshot.metrics, Total(h[q.begun]), q.snapshot.metrics);
  }

  lemma ReadOne(h: seq<seq<Metrics>>, r: Reading, b: nat)
    requires History(h) && Reads(h, r) && b in r.left
    ensures b < |h[|h| - 1]| && b < |r.at|
    ensures Reads(h, r.(total := Add(r.total, h[|h| - 1][b]), left := r.left - {b}, at := r.at[b := |h| - 1]))
  {
    hide Add, Le, Sum, All;
    var last := |h| - 1;
    assert Grows(h[r.begun], h[last]);
    var at := r.at[b := last];
    assert Moments(h, at, r.begun, last);
    SumStep(View(h, r.at, r.begun, last), View(h, at, r.begun, last), r.left, b);
  }

  lemma SumStep(v: seq<Metrics>, w: seq<Metrics>, left: set<nat>, b: nat)
    requires |v| == |w| && b < |v| && b in left
    requires forall i :: 0 <= i < |v| && i != b ==> v[i] == w[i]
    ensures Sum(w, All(|w|) - (left - {b})) == Add(Sum(v, All(|v|) - left), w[b])
  {
    hide Add, Le, Sum, All;
    var done := All(|v|) - left;
    SumSame(v, w, done, done);
    SumInsert(w, done, b);
    assert All(|w|) - (left - {b}) == done + {b};
  }

  lemma ReadNone(h: seq<seq<Metrics>>, folded: Metrics, utterances: nat, live: set<nat>, at: seq<nat>)
    requires History(h) && var n := |h[|h| - 1]|;
      && live <= All(n) && folded == Sum(h[|h| - 1], All(n) - live) && utterances + |live| == n
      && at == seq(n, _ => |h| - 1)
    ensures Reads(h, Reading(folded, utterances, live, live, |h| - 1, at, true))
  {
    hide Add, Le, Sum, All;
    var last := |h| - 1;
    assert Moments(h, at, last, last);
    assert View(h, at, last, last) == h[last];
  }

  lemma ReadAll(h: seq<seq<Metrics>>, r: Reading, p: Publication)
    requires History(h) && Reads(h, r) && r.left == {}
    requires p == Publication(RuntimeSnapshot(r.total, r.utterances, |r.copied|), r.begun, |h| - 1, r.at, r.exact)
    ensures Publishes(h, p) && p.begun < |h|
    ensures Le(Total(h[p.begun]), p.snapshot.metrics) && Le(p.snapshot.metrics, Total(h[|h| - 1]))
    ensures p.snapshot.utterances + p.snapshot.inFlight == |h[p.begun]|
  {
    hide Add, Le, Sum, All, History;
    assert All(|r.at|) - r.left == All(|r.at|);
    SnapshotIsBracketed(h, p);
  }

  lemma AfterEarlier(h: seq<seq<Metrics>>, published: seq<Publication>, p: Publication)
    requires History(h) && Publishes(h, p)
    requires forall i :: 0 <= i < |published| && published[i].exact ==> Publishes(h, published[i])
    ensures forall i :: 0 <= i < |published| && published[i].exact && published[i].ended <= p.begun ==>
      Le(published[i].snapshot.metrics, p.snapshot.metrics)
  {
    hide Add, Le, Sum, All, History, Publishes;
    forall i | 0 <= i < |published| && published[i].exact && published[i].ended <= p.begun
      ensures Le(published[i].snapshot.metrics, p.snapshot.metrics)
    {
      SnapshotsNeverDecrease(h, published[i], p);
    }
  }

  /** The accumulator together with the buffers it tracks and the snapshots under way. */
  class Accumulator {
    var folded: Metrics
    var utterances: nat
    var live: set<nat>
    var counters: seq<Metrics>         // each buffer's own counters
    var readings: map<nat, Reading>    // snapshots under way, by reader
    ghost var calls: seq<seq<Call>>    // what each buffer called
    ghost var history: seq<seq<Metrics>>
    ghost var published: seq<Publication>
    ghost var late: bool               // some buffer recorded a call after it closed

    /** Every buffer is either live or folded, never both and never neither; and as long as no buffer
        has recorded a call after it closed, the totals hold all that the folded ones did. */
    ghost predicate Valid()
      reads this
    {
      && History(history) && history[|history| - 1] == counters && Tallied(counters, calls)
      && live <= All(|counters|)
      && (!late ==> folded == Sum(counters, All(|counters|) - live))
      && utterances + |live| == |counters|
      && (forall id :: id in readings ==> readings[id].left <= All(|counters|))
      && (forall id :: id in readings && readings[id].exact ==> Reads(history, readings[id]))
      && (forall i :: 0 <= i < |published| && published[i].exact ==> Publishes(history, published[i]))
    }

    /** What no step changes about the past. */
    twostate predicate Continues()
      reads this
    {
      && |old(history)| <= |history| && history[..|old(history)|] == old(history)
      && |old(published)| <= |published| && published[..|old(published)|] == old(published)
    }

    constructor ()
      ensures Valid() && counters == [] && live == {} && folded == ZERO && utterances == 0
      ensures readings == map[] && published == [] && calls == [] && history == [[]] && !late
    {
      calls := [];
      folded, utterances, live, counters, readings := ZERO, 0, {}, [], map[];
      history, published, late := [[]], [], false;
    }

    /** Enrols a new buffer. */
    method New() returns (b: nat)
      requires Valid()
      modifies this
      ensures Valid() && Continues()
      ensures b == |old(counters)| && counters == old(counters) + [ZERO] && live == old(live) + {b}
      ensures folded == old(folded) && utterances == old(utterances) && late == old(late)
      ensures readings == old(readings) && published == old(published) && calls == old(calls) + [[]]
    {
      hide Add, Le, Sum, All, Reads, Publishes, Grows, Tally;
      b := |counters|;
      ghost var was, next := counters, counters + [ZERO];
      EnrolKeeps(counters, live, history);
      forall id | id in readings && readings[id].exact ensures Reads(history + [next], readings[id]) {
        ReadsLater(history, next, readings[id]);
      }
      forall i | 0 <= i < |published| && published[i].exact ensures Publishes(history + [next], published[i]) {
        PublishesLater(history, next, published[i]);
      }
      NoTally();
      counters, live, history, calls := counters + [ZERO], live + {b}, history + [next], calls + [[]];
    }

    /** Buffer b records one recogniser call. Nothing stops a closed buffer from making one, but it will
        not be in the totals. */
    method Observe(b: nat, call: Call)
      requires Valid() && b < |counters|
      modifies this`counters, this`history, this`late, this`calls
      ensures Valid() && Continues() && late == (old(late) || b !in live)
      ensures counters == old(counters)[b := Record(old(counters)[b], call)]
      ensures calls == old(calls)[b := old(calls)[b] + [call]]
    {
      hide Add, Le, Record, Sum, All, Reads, Publishes, Grows, Tally;
      ghost var next := counters[b := Record(counters[b], call)];
      ObserveKeeps(counters, live, history, b, call);
      forall id | id in readings && readings[id].exact ensures Reads(history + [next], readings[id]) {
        ReadsLater(history, next, readings[id]);
      }
      forall i | 0 <= i < |published| && published[i].exact ensures Publishes(history + [next], published[i]) {
        PublishesLater(history, next, published[i]);
      }
      TallySnoc(calls[b], call);
      calls := calls[b := calls[b] + [call]];
      counters, history, late := counters[b := Record(counters[b], call)], history + [next], late || b !in live;
    }

    /** Folds buffer b in, the first time it closes. */
    method Close(b: nat)
      requires Valid() && b < |counters|
      modifies this`live, this`folded, this`utterances
      ensures Valid() && Continues() && b !in live
      ensures b !in old(live) ==> live == old(live) && folded == old(folded) && utterances == old(utterances)
      ensures b in old(live) ==>
        live == old(live) - {b} && folded == Add(old(folded), counters[b]) && utterances == old(utterances) + 1
    {
      hide Add, Le, Sum, All, History, Reads, Publishes, Tally;
      if b in live {
        SumStep(counters, counters, live, b);
        live, folded, utterances := live - {b}, Add(folded, counters[b]), utterances + 1;
      }
    }

    /** The first phase of a snapshot: totals and the live buffers, under one lock. */
    method BeginSnapshot(id: nat)
      requires Valid() && id !in readings
      modifies this`readings
      ensures Valid() && Continues() && id in readings
      ensures readings[id].begun == |history| - 1 && readings[id].left == live && readings[id].exact == !late
      ensures readings[id].total == folded
      ensures forall other :: other != id ==>
        && (other in readings <==> other in old(readings))
        && (other in readings ==> readings[other] == old(readings)[other])
    {
      hide Add, Le, Sum, All, Reads, Publishes, Tally;
      ghost var last := |history| - 1;
      ghost var at := seq(|counters|, _ => last);
      if !late { ReadNone(history, folded, utterances, live, at); }
      readings := readings[id := Reading(folded, utterances, live, live, last, at, !late)];
    }

    /** The second phase reads the copied buffers one at a time, in any order. */
    method ReadBuffer(id: nat, b: nat)
      requires Valid() && id in readings && b in readings[id].left
      modifies this`readings
      ensures Valid() && Continues() && readings.Keys == old(readings).Keys
      ensures b < |counters| && readings[id].left == old(readings)[id].left - {b}
      ensures readings[id].total == Add(old(readings)[id].total, counters[b])
      ensures readings[id].begun == old(readings)[id].begun && readings[id].exact == old(readings)[id].exact
      ensures forall other :: other in readings && other != id ==> readings[other] == old(readings)[other]
    {
      hide Add, Le, Sum, All, Reads, Publishes, Tally;
      var r := readings[id];
      if r.exact { ReadOne(history, r, b); }
      readings := readings[id :=
        r.(total := Add(r.total, counters[b]), left := r.left - {b},
           at := if b < |r.at| then r.at[b := |history| - 1] else r.at)];
    }

    /** Returns the finished snapshot. Unless a call had followed a close before it began, it lies between
        the true totals at its beginning and its end, and is no smaller than any such snapshot that
        ended before it began; and if no call came in between, it holds the figures of every call made. */
    method EndSnapshot(id: nat) returns (s: RuntimeSnapshot)
      requires Valid() && id in readings && readings[id].left == {}
      modifies this`readings, this`published
      ensures Valid() && Continues() && readings == old(readings) - {id}
      ensures |published| == |old(published)| + 1
      ensures published[|old(published)|].exact && published[|old(published)|].begun == |history| - 1 ==>
        s.metrics == Tally(Everything(calls))
      ensures var p := published[|old(published)|];
        && p.snapshot == s && p.begun == old(readings)[id].begun && p.ended == |history| - 1
        && p.exact == old(readings)[id].exact && s.metrics == old(readings)[id].total
        && (p.exact ==>
              && p.begun < |history| && Le(Total(history[p.begun]), s.metrics) && Le(s.metrics, Total(counters))
              && s.utterances + s.inFlight == |history[p.begun]|
              && forall i :: 0 <= i < |old(published)| && published[i].exact && published[i].ended <= p.begun
                   ==> Le(published[i].snapshot.metrics, s.metrics))
    {
      hide Add, Le, Sum, All, Reads, Publishes, Tally;
      var r := readings[id];
      s := RuntimeSnapshot(r.total, r.utterances, |r.copied|);
      ghost var p := Publication(s, r.begun, |history| - 1, r.at, r.exact);
      if r.exact {
        ReadAll(history, r, p);
        AfterEarlier(history, published, p);
        TotalTallies(counters, calls);
        if p.begun == p.ended { LeAntisymmetric(s.metrics, Total(counters)); }
      }
      readings := readings - {id};
      published := published + [p];
    }
  }

  lemma EnrolKeeps(counters: seq<Metrics>, live: set<nat>, h: seq<seq<Metrics>>)
    requires History(h) && h[|h| - 1] == counters && live <= All(|counters|)
    ensures var next := counters + [ZERO];
      && History(h + [next])
      && Sum(next, All(|next|) - (live + {|counters|})) == Sum(counters, All(|counters|) - live)
      && |live + {|counters|}| == |live| + 1
  {
    hide Add, Le;
    var next := counters + [ZERO];
    forall i | 0 <= i < |counters| ensures Le(counters[i], next[i]) { LeReflexive(counters[i]); }
    HistoryGrows(h, next);
    var done := All(|next|) - (live + {|counters|});
    assert next[..|counters|] == counters;
    AddLaws(Sum(counters, done), ZERO, ZERO);
    SumSame(counters, counters, done, All(|counters|) - live);
  }

  lemma ObserveKeeps(counters: seq<Metrics>, live: set<nat>, h: seq<seq<Metrics>>, b: nat, call: Call)
    requires History(h) && h[|h| - 1] == counters && live <= All(|counters|) && b < |counters|
    ensures var next := counters[b := Record(counters[b], call)];
      && History(h + [next])
      && (b in live ==> Sum(next, All(|next|) - live) == Sum(counters, All(|counters|) - live))
  {
    hide Add, Le, Sum;
    var next := counters[b := Record(counters[b], call)];
    forall i | 0 <= i < |counters| ensures Le(counters[i], next[i]) { LeReflexive(counters[i]); }
    HistoryGrows(h, next);
    if b in live { SumSame(counters, next, All(|counters|) - live, All(|next|) - live); }
  }

  /** Whatever the call, making it after the buffer closed can make the totals go back: a snapshot that was
      already under way counts it, and the next one does not. */
  method LateCallGoesBack(call: Call) returns (a: Accumulator)
    ensures fresh(a) && a.Valid() && a.late && a.live == {} && a.counters == [Record(ZERO, call)]
    ensures |a.published| == 2 && a.published[0].ended <= a.published[1].begun
    ensures a.published[0].exact && !a.published[1].exact
    ensures !Le(a.published[0].snapshot.metrics, a.published[1].snapshot.metrics)
  {
    hide Sum, All, Reads, Publishes, History, Add, Le, Record, Tally;
    a := new Accumulator();
    var b := a.New();
    a.BeginSnapshot(0);
    a.Close(b);
    assert a.folded == Add(ZERO, ZERO) && a.live == {} && a.counters == [ZERO];
    a.Observe(b, call);
    a.ReadBuffer(0, b);
    var first := a.EndSnapshot(0);
    assert first.metrics == Add(ZERO, Record(ZERO, call));
    a.BeginSnapshot(1);
    var second := a.EndSnapshot(1);
    assert second.metrics == Add(ZERO, ZERO);
    CallShows(call);
  }

  lemma CallShows(call: Call)
    ensures !Le(Add(ZERO, Record(ZERO, call)), Add(ZERO, ZERO))
  {
  }
}
