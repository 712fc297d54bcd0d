/** The admission governor: a priority and deadline scheduler over integer capacity with an
    interactive reservation, backfilling, cooperative preemption and cancellable waiters.

    Every method of `Governor` is one critical section of the original, so any order of calls is an
    interleaving of its clients. The clock is arbitrary: each reading may return any value. */
module Admission {
  import opened Prelude

  const BACKGROUND: nat := 1
  const SPECULATIVE: nat := 2
  const URGENT: nat := 4

  datatype Request = Request(cls: nat, cost: int, preemptible: bool, deadline: Option<int>)

  datatype Limits = Limits(capacity: int, reserved: int)

  datatype Waiter = Waiter(sequence: nat, request: Request)

  /** What became of an enqueued request. The original keeps one cancelled state; `missed` records
      which counter it was charged to. */
  datatype Fate = Waiting | Granted(lease: nat) | Cancelled(missed: bool)

  datatype Running = Running(request: Request, sequence: nat, preempting: bool)

  predicate GoodLimits(l: Limits) {
    0 < l.capacity && 0 <= l.reserved <= l.capacity
  }

  predicate LowerPriority(r: Request) { r.cls <= SPECULATIVE }

  /** The request validation performed before a request may queue. */
  predicate Acceptable(l: Limits, r: Request) {
    && BACKGROUND <= r.cls <= URGENT
    && 0 < r.cost <= l.capacity
    && (LowerPriority(r) ==> r.cost <= l.capacity - l.reserved)
  }

  predicate Fits(l: Limits, used: int, lower: int, r: Request) {
    && used + r.cost <= l.capacity
    && (LowerPriority(r) ==> lower + r.cost <= l.capacity - l.reserved)
  }

  predicate Expired(r: Request, now: int) {
    r.deadline.Some? && r.deadline.value <= now
  }

  // ---- Queue order -------------------------------------------------------------------------

  function Compare(left: Waiter, right: Waiter): int {
    var l, r := left.request, right.request;
    if l.cls != r.cls then r.cls - l.cls
    else if l.deadline.None? != r.deadline.None? then if l.deadline.None? then 1 else -1
    else if l.deadline != r.deadline then if l.deadline.value < r.deadline.value then -1 else 1
    else if left.sequence < right.sequence then -1
    else if left.sequence > right.sequence then 1
    else 0
  }

  predicate Ahead(left: Waiter, right: Waiter) { Compare(left, right) < 0 }

  predicate Distinct(left: Waiter, right: Waiter) { left.sequence != right.sequence }

  /** The comparison is antisymmetric and transitive, and ties only on equal sequence numbers. */
  lemma CompareIsTotalOrder()
    ensures StrictOrder(Ahead)
    ensures forall a, b :: Compare(a, b) < 0 <==> Compare(b, a) > 0
    ensures forall a, b :: Distinct(a, b) ==> Ahead(a, b) || Ahead(b, a)
    ensures forall a, b :: Ahead(a, b) && a.request.cls != b.request.cls ==> a.request.cls > b.request.cls
  {
    assert forall a, b, c :: Ahead(a, b) && Ahead(b, c) ==> Ahead(a, c);
  }

  // ---- Capacity accounting -----------------------------------------------------------------

  ghost function Weight(r: Request, onlyLower: bool): int {
    if onlyLower && !LowerPriority(r) then 0 else r.cost
  }

  /** Summed cost of the leases numbered 1..n, of all classes or of the lower classes only. */
  ghost function Load(running: map<nat, Running>, n: nat, onlyLower: bool): int {
    if n == 0 then 0
    else (if n in running then Weight(running[n].request, onlyLower) else 0) + Load(running, n - 1, onlyLower)
  }

  lemma {:induction false} LoadSame(a: map<nat, Running>, b: map<nat, Running>, n: nat, onlyLower: bool)
    requires forall id :: 1 <= id <= n ==> (id in a <==> id in b)
    requires forall id :: 1 <= id <= n && id in a ==> a[id].request == b[id].request
    ensures Load(a, n, onlyLower) == Load(b, n, onlyLower)
  {
    if n > 0 { LoadSame(a, b, n - 1, onlyLower); }
  }

  lemma {:induction false} LoadWithout(running: map<nat, Running>, n: nat, id: nat, onlyLower: bool)
    requires 1 <= id <= n && id in running
    ensures Load(running - {id}, n, onlyLower) == Load(running, n, onlyLower) - Weight(running[id].request, onlyLower)
  {
    if id == n {
      LoadSame(running, running - {id}, n - 1, onlyLower);
    } else {
      LoadWithout(running, n - 1, id, onlyLower);
    }
  }

  /** The two capacity invariants: the counters are the loads, and the loads are within bounds. */
  ghost predicate Balanced(l: Limits, running: map<nat, Running>, n: nat, used: int, lower: int) {
    && (forall id :: id in running ==> 1 <= id <= n && Acceptable(l, running[id].request))
    && used == Load(running, n, false) <= l.capacity
    && lower == Load(running, n, true) <= l.capacity - l.reserved
  }

  lemma GrantBalances(l: Limits, running: map<nat, Running>, n: nat, used: int, lower: int, lease: Running)
    requires Balanced(l, running, n, used, lower)
    requires Acceptable(l, lease.request) && Fits(l, used, lower, lease.request)
    ensures Balanced(l, running[n + 1 := lease], n + 1, used + lease.request.cost,
                     lower + Weight(lease.request, true))
    ensures |running[n + 1 := lease]| == |running| + 1
  {
    LoadSame(running, running[n + 1 := lease], n, false);
    LoadSame(running, running[n + 1 := lease], n, true);
    if !LowerPriority(lease.request) {
      assert Weight(lease.request, true) == 0;
    }
    assert n + 1 !in running;
  }

  lemma ReleaseBalances(l: Limits, running: map<nat, Running>, n: nat, used: int, lower: int, id: nat)
    requires Balanced(l, running, n, used, lower) && id in running
    ensures Balanced(l, running - {id}, n, used - running[id].request.cost,
                     lower - Weight(running[id].request, true))
    ensures |running - {id}| == |running| - 1
  {
    LoadWithout(running, n, id, false);
    LoadWithout(running, n, id, true);
    assert (running - {id}).Keys == running.Keys - {id};
    assert |running - {id}| == |(running - {id}).Keys| && |running| == |running.Keys|;
  }

  // ---- Conservation of requests ------------------------------------------------------------

  function Kind(f: Fate): nat {
    match f
    case Waiting => 0
    case Granted(_) => 1
    case Cancelled(missed) => if missed then 3 else 2
  }

  /** How many of the requests numbered 1..n met a fate of kind k. */
  ghost function Tally(fates: map<nat, Fate>, n: nat, k: nat): nat {
    if n == 0 then 0
    else (if n in fates && Kind(fates[n]) == k then 1 else 0) + Tally(fates, n - 1, k)
  }

  lemma {:induction false} TallySame(a: map<nat, Fate>, b: map<nat, Fate>, n: nat, k: nat)
    requires forall s :: 1 <= s <= n ==> s in a && s in b && a[s] == b[s]
    ensures Tally(a, n, k) == Tally(b, n, k)
  {
    if n > 0 { TallySame(a, b, n - 1, k); }
  }

  lemma {:induction false} TallySet(fates: map<nat, Fate>, n: nat, s: nat, f: Fate, k: nat)
    requires 1 <= s <= n && forall t :: 1 <= t <= n ==> t in fates
    ensures Tally(fates[s := f], n, k)
         == Tally(fates, n, k) - (if Kind(fates[s]) == k then 1 else 0) + (if Kind(f) == k then 1 else 0)
  {
    if s == n {
      TallySame(fates, fates[s := f], n - 1, k);
    } else {
      TallySet(fates, n - 1, s, f, k);
    }
  }

  /** Waiting, admitted, cancelled and deadline-missed exhaust the requests and do not overlap. */
  lemma {:induction false} TallyPartition(fates: map<nat, Fate>, n: nat)
    requires forall s :: 1 <= s <= n ==> s in fates
    ensures Tally(fates, n, 0) + Tally(fates, n, 1) + Tally(fates, n, 2) + Tally(fates, n, 3) == n
  {
    if n > 0 { TallyPartition(fates, n - 1); }
  }

  ghost predicate Counted(fates: map<nat, Fate>, n: nat, admitted: int, withdrawn: int, missed: int) {
    && (forall s :: s in fates <==> 1 <= s <= n)
    && admitted == Tally(fates, n, 1)
    && withdrawn == Tally(fates, n, 2)
    && missed == Tally(fates, n, 3)
  }

  lemma CountedSet(fates: map<nat, Fate>, n: nat, admitted: int, withdrawn: int, missed: int, s: nat, f: Fate)
    requires Counted(fates, n, admitted, withdrawn, missed) && s in fates && fates[s].Waiting? && !f.Waiting?
    ensures Counted(fates[s := f], n,
                    admitted + (if f.Granted? then 1 else 0),
                    withdrawn + (if f == Cancelled(false) then 1 else 0),
                    missed + (if f == Cancelled(true) then 1 else 0))
  {
    TallySet(fates, n, s, f, 1);
    TallySet(fates, n, s, f, 2);
    TallySet(fates, n, s, f, 3);
  }

  lemma CountedGrow(fates: map<nat, Fate>, n: nat, admitted: int, withdrawn: int, missed: int)
    requires Counted(fates, n, admitted, withdrawn, missed)
    ensures Counted(fates[n + 1 := Waiting], n + 1, admitted, withdrawn, missed)
  {
    TallySame(fates, fates[n + 1 := Waiting], n, 1);
    TallySame(fates, fates[n + 1 := Waiting], n, 2);
    TallySame(fates, fates[n + 1 := Waiting], n, 3);
  }

  /** A request is in the line exactly when its fate is open; while a scan is in progress the line
      may still hold requests the scan has just found expired. */
  ghost predicate Lined(l: Limits, line: seq<Waiter>, fates: map<nat, Fate>, scanning: bool) {
    && Ordered(line, Distinct)
    && (forall w :: w in line ==> w.sequence in fates && Acceptable(l, w.request))
    && (forall w :: w in line ==> fates[w.sequence].Waiting? || (scanning && fates[w.sequence] == Cancelled(true)))
    && (forall s :: s in fates && fates[s].Waiting? ==> exists w :: w in line && w.sequence == s)
  }

  /** Each running lease is the one its request was granted. */
  ghost predicate LeasesMatch(running: map<nat, Running>, fates: map<nat, Fate>, n: nat) {
    && (forall id :: id in running ==> running[id].sequence in fates && fates[running[id].sequence] == Granted(id))
    && (forall q :: q in fates && fates[q].Granted? ==> fates[q].lease <= n)
  }

  lemma GrantKeepsLeases(running: map<nat, Running>, fates: map<nat, Fate>, n: nat, lease: Running)
    requires LeasesMatch(running, fates, n) && lease.sequence in fates && fates[lease.sequence].Waiting?
    ensures LeasesMatch(running[n + 1 := lease], fates[lease.sequence := Granted(n + 1)], n + 1)
  {
  }

  // ---- What one scheduling pass did --------------------------------------------------------

  datatype Stage = Stage(line: seq<Waiter>, used: int, lower: int)

  /** One grant: the place in the line, the requests already found expired at that moment, and how many
      times the clock had been read by then. */
  datatype Grant = Grant(index: nat, expired: set<nat>, tick: nat)

  function RemoveAt<T>(s: seq<T>, i: nat): seq<T> requires i < |s| { s[..i] + s[i + 1..] }

  /** The grant took the first waiter that had not expired and fits, charged its cost, and left the
      rest of the line as it was. */
  ghost predicate Picked(l: Limits, a: Stage, g: Grant, b: Stage) {
    && g.index < |a.line|
    && a.line[g.index].sequence !in g.expired
    && Fits(l, a.used, a.lower, a.line[g.index].request)
    && (forall i :: 0 <= i < g.index ==>
          a.line[i].sequence in g.expired || !Fits(l, a.used, a.lower, a.line[i].request))
    && b == Stage(RemoveAt(a.line, g.index), a.used + a.line[g.index].request.cost,
                  a.lower + Weight(a.line[g.index].request, true))
  }

  ghost predicate Pass(l: Limits, stages: seq<Stage>, grants: seq<Grant>) {
    && |stages| == |grants| + 1
    && (forall k :: 0 <= k < |grants| ==> Picked(l, stages[k], grants[k], stages[k + 1]))
    && (forall k :: 0 <= k < |grants| - 1 ==> grants[k].expired <= grants[k + 1].expired)
  }

  /** Each grant of the pass left its request with a lease. */
  ghost predicate AllGranted(stages: seq<Stage>, grants: seq<Grant>, fates: map<nat, Fate>) {
    && |grants| <= |stages|
    && (forall k :: 0 <= k < |grants| ==> IsGranted(stages[k].line, grants[k].index, fates))
  }

  ghost predicate IsGranted(line: seq<Waiter>, i: nat, fates: map<nat, Fate>) {
    i < |line| && line[i].sequence in fates && fates[line[i].sequence].Granted?
  }

  lemma PassExtends(l: Limits, stages: seq<Stage>, grants: seq<Grant>, g: Grant, next: Stage)
    requires Pass(l, stages, grants) && Picked(l, stages[|grants|], g, next)
    requires forall k :: 0 <= k < |grants| ==> grants[k].expired <= g.expired
    ensures Pass(l, stages + [next], grants + [g])
  {
    hide Picked;
  }

  lemma GrantedExtends(stages: seq<Stage>, grants: seq<Grant>, g: Grant, next: Stage,
                       before: map<nat, Fate>, after: map<nat, Fate>)
    requires |stages| == |grants| + 1 && AllGranted(stages, grants, before)
    requires g.index < |stages[|grants|].line| && Open(before, stages[|grants|].line[g.index])
    requires exists id :: after == before[stages[|grants|].line[g.index].sequence := Granted(id)]
    ensures AllGranted(stages + [next], grants + [g], after)
  {
    forall k | 0 <= k < |grants| ensures IsGranted(stages[k].line, grants[k].index, after) {
      assert IsGranted(stages[k].line, grants[k].index, before);
    }
    assert IsGranted(stages[|grants|].line, g.index, after);
  }

  // ---- Preemption --------------------------------------------------------------------------

  datatype Candidate = Candidate(id: nat, lease: Running)

  /** Victim order: lowest class, then largest cost, then newest. */
  predicate SoonerVictim(left: Candidate, right: Candidate) {
    var l, r := left.lease.request, right.lease.request;
    if l.cls != r.cls then l.cls < r.cls
    else if l.cost != r.cost then l.cost > r.cost
    else left.lease.sequence > right.lease.sequence
  }

  predicate MayPreempt(lease: Running, wanted: Request) {
    !lease.preempting && lease.request.preemptible && lease.request.cls < wanted.cls
  }

  /** How many units the head of the line is short of. */
  function Shortfall(l: Limits, used: int, lower: int, wanted: Request): int {
    var total := used + wanted.cost - l.capacity;
    var share := lower + wanted.cost - (l.capacity - l.reserved);
    if LowerPriority(wanted) && share > total then share else total
  }

  /** The candidates, each once, in victim order. */
  ghost predicate Ranking(order: seq<Candidate>, running: map<nat, Running>, wanted: Request) {
    && Ordered(order, SoonerVictim)
    && (forall c :: c in order <==> c.id in running && running[c.id] == c.lease && MayPreempt(c.lease, wanted))
  }

  /** Summed cost of the first k candidates. */
  ghost function Costs(cs: seq<Candidate>, k: nat): int
    requires k <= |cs|
  {
    if k == 0 then 0 else Costs(cs, k - 1) + cs[k - 1].lease.request.cost
  }

  ghost function Ids(cs: seq<Candidate>, k: nat): set<nat>
    requires k <= |cs|
  {
    if k == 0 then {} else Ids(cs, k - 1) + {cs[k - 1].id}
  }

  /** The victims are the shortest prefix of the ranking that covers the shortfall, or all of it. */
  ghost predicate MinimalPrefix(order: seq<Candidate>, k: nat, needed: int) {
    && k <= |order|
    && (k < |order| ==> k > 0 && Costs(order, k) >= needed)
    && (forall j :: 0 < j < k ==> Costs(order, j) < needed)
  }

  lemma VictimOrderIsStrict()
    ensures StrictOrder(SoonerVictim)
  {
    assert forall a, b, c :: SoonerVictim(a, b) && SoonerVictim(b, c) ==> SoonerVictim(a, c);
  }

  ghost predicate DistinctSequences(running: map<nat, Running>) {
    forall i, j :: i in running && j in running && i != j ==> running[i].sequence != running[j].sequence
  }

  /** The victims do not depend on the order in which the map of leases is read: there is only one
      ranking, and the minimal prefix of a ranking is unique. */
  lemma VictimsAreDetermined(running: map<nat, Running>, wanted: Request, needed: int,
                             a: seq<Candidate>, j: nat, b: seq<Candidate>, k: nat)
    requires Ranking(a, running, wanted) && Ranking(b, running, wanted)
    requires MinimalPrefix(a, j, needed) && MinimalPrefix(b, k, needed) && needed > 0
    ensures a[..j] == b[..k]
  {
    VictimOrderIsStrict();
    OrderedHasNoDuplicates(a);
    OrderedHasNoDuplicates(b);
    assert multiset(a) == multiset(b) by {
      forall c ensures multiset(a)[c] == multiset(b)[c] {
        assert c in a <==> c in b;
      }
    }
    OrderIsUnique(a, b, SoonerVictim);
  }

  lemma {:induction false} OrderedHasNoDuplicates(s: seq<Candidate>)
    requires Ordered(s, SoonerVictim)
    ensures forall c :: multiset(s)[c] == if c in s then 1 else 0
  {
    if s != [] {
      OrderedHasNoDuplicates(s[1..]);
      assert s == [s[0]] + s[1..];
      assert s[0] !in s[1..] by {
        forall i | 0 <= i < |s[1..]| ensures s[1..][i] != s[0] {
          assert SoonerVictim(s[0], s[i + 1]);
        }
      }
    }
  }

  lemma RankedMember(order: seq<Candidate>, running: map<nat, Running>, wanted: Request, k: nat)
    requires Ranking(order, running, wanted) && k < |order|
    ensures order[k].id in running && running[order[k].id] == order[k].lease && MayPreempt(order[k].lease, wanted)
  {
    assert order[k] in order;
  }

  lemma {:induction false} RankedIdIsNew(order: seq<Candidate>, running: map<nat, Running>, wanted: Request, j: nat,
      k: nat)
    requires Ranking(order, running, wanted) && j <= k < |order|
    ensures order[k].id !in Ids(order, j)
  {
    if j > 0 {
      RankedIdIsNew(order, running, wanted, j - 1, k);
      RankedMember(order, running, wanted, k);
      RankedMember(order, running, wanted, j - 1);
      assert SoonerVictim(order[j - 1], order[k]);
    }
  }

  /** Releasing a set of ranked victims lowers both loads by what they cost. */
  lemma {:induction false} LoadWithoutVictims(running: map<nat, Running>, n: nat, wanted: Request,
                                              order: seq<Candidate>, k: nat, onlyLower: bool)
    requires Ranking(order, running, wanted) && k <= |order|
    requires forall id :: id in running ==> 1 <= id <= n
    requires onlyLower ==> LowerPriority(wanted)
    ensures Load(running - Ids(order, k), n, onlyLower) == Load(running, n, onlyLower) - Costs(order, k)
  {
    if k == 0 {
      assert running - {} == running;
    } else {
      LoadWithoutVictims(running, n, wanted, order, k - 1, onlyLower);
      var id, rest := order[k - 1].id, running - Ids(order, k - 1);
      RankedIdIsNew(order, running, wanted, k - 1, k - 1);
      RankedMember(order, running, wanted, k - 1);
      assert running - Ids(order, k) == rest - {id};
      LoadWithout(rest, n, id, onlyLower);
    }
  }

  /** If the victims cover the shortfall then, once exactly they have released, the head of the line
      fits under the capacity and under the reservation. */
  lemma CoveredHeadFits(l: Limits, running: map<nat, Running>, n: nat, used: int, lower: int,
                        wanted: Request, order: seq<Candidate>, k: nat)
    requires Balanced(l, running, n, used, lower) && Ranking(order, running, wanted) && k <= |order|
    requires Costs(order, k) >= Shortfall(l, used, lower, wanted)
    ensures var rest := running - Ids(order, k);
            Fits(l, Load(rest, n, false), Load(rest, n, true), wanted)
  {
    LoadWithoutVictims(running, n, wanted, order, k, false);
    if LowerPriority(wanted) {
      LoadWithoutVictims(running, n, wanted, order, k, true);
    }
  }

  predicate Open(fates: map<nat, Fate>, w: Waiter) {
    w.sequence in fates && fates[w.sequence].Waiting?
  }

  /** The part of the line whose fate is still open. */
  function StillOpen(line: seq<Waiter>, fates: map<nat, Fate>): (r: seq<Waiter>)
    ensures forall w :: w in r <==> w in line && Open(fates, w)
  {
    Filter(line, (w: Waiter) => Open(fates, w))
  }

  predicate ApartIds(a: Candidate, b: Candidate) { a.id != b.id }

  function Flag(running: map<nat, Running>, ids: set<nat>): map<nat, Running> {
    map id | id in running :: if id in ids then running[id].(preempting := true) else running[id]
  }

  lemma LinedMember(l: Limits, line: seq<Waiter>, fates: map<nat, Fate>, i: nat)
    requires Lined(l, line, fates, true) && i < |line|
    ensures line[i].sequence in fates && Acceptable(l, line[i].request)
  {
    assert line[i] in line;
  }

  lemma ExpiryKeepsLine(l: Limits, line: seq<Waiter>, fates: map<nat, Fate>, w: Waiter)
    requires Lined(l, line, fates, true) && w in line && fates[w.sequence].Waiting?
    ensures Lined(l, line, fates[w.sequence := Cancelled(true)], true)
  {
  }

  lemma SweepKeepsLine(l: Limits, line: seq<Waiter>, fates: map<nat, Fate>)
    requires Lined(l, line, fates, true)
    ensures Lined(l, StillOpen(line, fates), fates, false)
  {
    FilterKeepsOrder(line, (w: Waiter) => Open(fates, w), Distinct);
    forall s | s in fates && fates[s].Waiting?
      ensures exists w :: w in StillOpen(line, fates) && w.sequence == s
    {
      var w :| w in line && w.sequence == s;
      assert w in StillOpen(line, fates);
    }
  }

  /** Closing the fate of the waiter that leaves the line keeps the line exact. */
  lemma DepartureKeepsLine(l: Limits, line: seq<Waiter>, fates: map<nat, Fate>, i: nat, f: Fate, scanning: bool)
    requires Lined(l, line, fates, scanning) && i < |line| && !f.Waiting?
    ensures Lined(l, RemoveAt(line, i), fates[line[i].sequence := f], scanning)
  {
    var rest := RemoveAt(line, i);
    forall w | w in rest ensures w in line && w.sequence != line[i].sequence {
      var k :| 0 <= k < |rest| && rest[k] == w;
      assert w == if k < i then line[k] else line[k + 1];
      assert if k < i then Distinct(line[k], line[i]) else Distinct(line[i], line[k + 1]);
    }
    forall s | s in fates && fates[s].Waiting? && s != line[i].sequence
      ensures exists w :: w in rest && w.sequence == s
    {
      var w :| w in line && w.sequence == s;
      StaysInRest(line, i, w);
    }
  }

  lemma StaysInRest(line: seq<Waiter>, i: nat, w: Waiter)
    requires i < |line| && w in line && w != line[i]
    ensures w in RemoveAt(line, i)
  {
    var k :| 0 <= k < |line| && line[k] == w;
    assert RemoveAt(line, i)[if k < i then k else k - 1] == w;
  }

  /** Open fates may close; closed fates never change. */
  ghost predicate Settling(before: map<nat, Fate>, after: map<nat, Fate>) {
    forall s :: s in before ==> s in after && (before[s].Waiting? || after[s] == before[s])
  }

  // ---- The whole governor as a value -------------------------------------------------------

  datatype State = State(
    limits: Limits, nextSequence: nat, nextLeaseID: nat, used: int, lower: int,
    waiters: seq<Waiter>, fates: map<nat, Fate>, running: map<nat, Running>,
    admitted: nat, released: nat, preemptions: nat, cancelledWaiters: nat, deadlineMisses: nat,
    refused: nat)  // deadline misses counted at the door, before the request joined the line

  /** What holds in every reachable state; `scanning` while a scheduling pass is under way. */
  ghost predicate Sound(s: State, scanning: bool) {
    && GoodLimits(s.limits)
    && Balanced(s.limits, s.running, s.nextLeaseID, s.used, s.lower)
    && Counted(s.fates, s.nextSequence, s.admitted, s.cancelledWaiters, s.deadlineMisses - s.refused)
    && s.admitted == s.released + |s.running|
    && LeasesMatch(s.running, s.fates, s.nextLeaseID)
    && Lined(s.limits, s.waiters, s.fates, scanning)
  }

  lemma SoundLeases(s: State)
    requires Sound(s, false)
    ensures DistinctSequences(s.running)
  {
  }

  function Initial(l: Limits): State { State(l, 0, 0, 0, 0, [], map[], map[], 0, 0, 0, 0, 0, 0) }

  function Enqueue(s: State, r: Request): State {
    var n := s.nextSequence + 1;
    s.(nextSequence := n, waiters := s.waiters + [Waiter(n, r)], fates := s.fates[n := Waiting])
  }

  function Sort(s: State): State { s.(waiters := SortBy(s.waiters, Ahead)) }

  function Expire(s: State, w: Waiter): State {
    s.(fates := s.fates[w.sequence := Cancelled(true)], deadlineMisses := s.deadlineMisses + 1)
  }

  function Sweep(s: State): State { s.(waiters := StillOpen(s.waiters, s.fates)) }

  function GrantAt(s: State, i: nat): State
    requires i < |s.waiters|
  {
    var w, id := s.waiters[i], s.nextLeaseID + 1;
    s.(waiters := RemoveAt(s.waiters, i), nextLeaseID := id,
       fates := s.fates[w.sequence := Granted(id)], running := s.running[id := Running(w.request, w.sequence, false)],
       used := s.used + w.request.cost,
       lower := if LowerPriority(w.request) then s.lower + w.request.cost else s.lower,
       admitted := s.admitted + 1)
  }

  function Without(line: seq<Waiter>, sequence: nat): seq<Waiter> {
    Filter(line, (w: Waiter) => w.sequence != sequence)
  }

  function Withdraw(s: State, sequence: nat, missed: bool): State {
    s.(fates := s.fates[sequence := Cancelled(missed)], waiters := Without(s.waiters, sequence),
       deadlineMisses := if missed then s.deadlineMisses + 1 else s.deadlineMisses,
       cancelledWaiters := if missed then s.cancelledWaiters else s.cancelledWaiters + 1)
  }

  function Drop(s: State, id: nat): State
    requires id in s.running
  {
    var r := s.running[id].request;
    s.(running := s.running - {id}, used := s.used - r.cost,
       lower := if LowerPriority(r) then s.lower - r.cost else s.lower, released := s.released + 1)
  }

  function Preempt(s: State, ids: set<nat>, count: nat): State {
    s.(running := Flag(s.running, ids), preemptions := s.preemptions + count)
  }

  lemma InitialSound(l: Limits)
    requires GoodLimits(l)
    ensures Sound(Initial(l), false)
  {
  }

  lemma EnqueueSound(s: State, r: Request)
    requires Sound(s, false) && Acceptable(s.limits, r)
    ensures Sound(Enqueue(s, r), false)
  {
    hide Balanced, Tally;
    CountedGrow(s.fates, s.nextSequence, s.admitted, s.cancelledWaiters, s.deadlineMisses - s.refused);
    var t := Enqueue(s, r);
    assert Waiter(t.nextSequence, r) in t.waiters;
    forall q | q in t.fates && t.fates[q].Waiting? ensures exists w :: w in t.waiters && w.sequence == q {
      if q != t.nextSequence {
        var w :| w in s.waiters && w.sequence == q;
        assert w in t.waiters;
      }
    }
  }

  lemma SortSound(s: State)
    requires Sound(s, false)
    ensures Sound(Sort(s), false) && Ordered(Sort(s).waiters, Ahead)
  {
    CompareIsTotalOrder();
    assert Comparable(s.waiters, Ahead) by {
      forall i, j | 0 <= i < j < |s.waiters|
        ensures Ahead(s.waiters[i], s.waiters[j]) || Ahead(s.waiters[j], s.waiters[i])
      {
        assert Distinct(s.waiters[i], s.waiters[j]);
      }
    }
    SortByIsSorted(s.waiters, Ahead);
    SortKeepsPairwise(s.waiters, Ahead, Distinct);
    forall q | q in s.fates && s.fates[q].Waiting? ensures exists w :: w in Sort(s).waiters && w.sequence == q {
      var w :| w in s.waiters && w.sequence == q;
      assert w in Sort(s).waiters;
    }
  }

  lemma ExpireSound(s: State, w: Waiter)
    requires Sound(s, true) && w in s.waiters && Open(s.fates, w)
    ensures Sound(Expire(s, w), true)
  {
    CountedSet(s.fates, s.nextSequence, s.admitted, s.cancelledWaiters, s.deadlineMisses - s.refused,
               w.sequence, Cancelled(true));
    ExpiryKeepsLine(s.limits, s.waiters, s.fates, w);
  }

  lemma SweepSound(s: State)
    requires Sound(s, true)
    ensures Sound(Sweep(s), false)
  {
    SweepKeepsLine(s.limits, s.waiters, s.fates);
  }

  lemma GrantSound(s: State, i: nat)
    requires Sound(s, true) && i < |s.waiters| && Open(s.fates, s.waiters[i])
    requires Fits(s.limits, s.used, s.lower, s.waiters[i].request)
    ensures Sound(GrantAt(s, i), true)
  {
    hide Lined, Balanced, Counted, LeasesMatch;
    var w := s.waiters[i];
    LinedMember(s.limits, s.waiters, s.fates, i);
    GrantKeepsLeases(s.running, s.fates, s.nextLeaseID, Running(w.request, w.sequence, false));
    GrantBalances(s.limits, s.running, s.nextLeaseID, s.used, s.lower, Running(w.request, w.sequence, false));
    CountedSet(s.fates, s.nextSequence, s.admitted, s.cancelledWaiters, s.deadlineMisses - s.refused,
               w.sequence, Granted(s.nextLeaseID + 1));
    DepartureKeepsLine(s.limits, s.waiters, s.fates, i, Granted(s.nextLeaseID + 1), true);
  }

  lemma WithdrawSound(s: State, sequence: nat, missed: bool)
    requires Sound(s, false) && sequence in s.fates && s.fates[sequence].Waiting?
    ensures Sound(Withdraw(s, sequence, missed), false)
  {
    CountedSet(s.fates, s.nextSequence, s.admitted, s.cancelledWaiters, s.deadlineMisses - s.refused,
               sequence, Cancelled(missed));
    FilterKeepsOrder(s.waiters, (w: Waiter) => w.sequence != sequence, Distinct);
    var t := Withdraw(s, sequence, missed);
    forall q | q in t.fates && t.fates[q].Waiting? ensures exists w :: w in t.waiters && w.sequence == q {
      var w :| w in s.waiters && w.sequence == q;
      assert w in t.waiters;
    }
  }

  lemma DropSound(s: State, id: nat)
    requires Sound(s, false) && id in s.running
    ensures Sound(Drop(s, id), false)
  {
    ReleaseBalances(s.limits, s.running, s.nextLeaseID, s.used, s.lower, id);
  }

  lemma PreemptSound(s: State, ids: set<nat>, count: nat)
    requires Sound(s, false)
    ensures Sound(Preempt(s, ids, count), false)
  {
    LoadSame(s.running, Flag(s.running, ids), s.nextLeaseID, false);
    LoadSame(s.running, Flag(s.running, ids), s.nextLeaseID, true);
    assert Flag(s.running, ids).Keys == s.running.Keys;
    assert |Flag(s.running, ids)| == |Flag(s.running, ids).Keys| && |s.running| == |s.running.Keys|;
  }

  /** Between two moments: closed fates stay closed, a lease that is gone never comes back, and one that
      was asked to stop stays asked. */
  ghost predicate Evolves(a: State, b: State) {
    && a.limits == b.limits
    && a.nextSequence <= b.nextSequence && a.nextLeaseID <= b.nextLeaseID
    && Settling(a.fates, b.fates)
    && (forall id :: id in b.running && id <= a.nextLeaseID ==>
          id in a.running && b.running[id].request == a.running[id].request
          && b.running[id].sequence == a.running[id].sequence
          && (a.running[id].preempting ==> b.running[id].preempting))
  }

  lemma EvolvesTransitive(a: State, b: State, c: State)
    requires Evolves(a, b) && Evolves(b, c)
    ensures Evolves(a, c)
  {
  }

  /** In any sound state: the reservation and the capacity are respected, every request ever enqueued
      is in exactly one of four counts, and the waiting ones are exactly those in the line. */
  lemma SoundMeans(s: State)
    requires Sound(s, false)
    ensures s.used == Load(s.running, s.nextLeaseID, false) <= s.limits.capacity
    ensures s.lower == Load(s.running, s.nextLeaseID, true) <= s.limits.capacity - s.limits.reserved
    ensures s.nextSequence + s.refused
         == |s.waiters| + s.admitted + s.cancelledWaiters + s.deadlineMisses
    ensures s.admitted == s.released + |s.running|
  {
    TallyPartition(s.fates, s.nextSequence);
    WaitingTally(s.limits, s.waiters, s.fates, s.nextSequence);
  }

  lemma {:induction false} WaitingTally(l: Limits, line: seq<Waiter>, fates: map<nat, Fate>, n: nat)
    requires Lined(l, line, fates, false) && forall s :: s in fates <==> 1 <= s <= n
    ensures Tally(fates, n, 0) == |line|
  {
    if line == [] {
      NoneWaiting(fates, n);
    } else {
      var w := line[0];
      assert w in line;
      DepartureKeepsLine(l, line, fates, 0, Cancelled(true), false);
      assert RemoveAt(line, 0) == line[1..];
      WaitingTally(l, line[1..], fates[w.sequence := Cancelled(true)], n);
      TallySet(fates, n, w.sequence, Cancelled(true), 0);
    }
  }

  lemma {:induction false} NoneWaiting(fates: map<nat, Fate>, n: nat)
    requires forall s :: s in fates ==> !fates[s].Waiting?
    ensures Tally(fates, n, 0) == 0
  {
    if n > 0 { NoneWaiting(fates, n - 1); }
  }

  /** Request `r` was enqueued as `q` and has not been lost: it waits in the line, or holds the lease
      it was granted, or has been cancelled; and only a request with a deadline has missed one. */
  ghost predicate Tracked(s: State, q: nat, r: Request) {
    && q in s.fates
    && match s.fates[q]
       case Waiting => Waiter(q, r) in s.waiters
       case Granted(id) => id in s.running && s.running[id].request == r && s.running[id].sequence == q
       case Cancelled(missed) => missed ==> r.deadline.Some?
  }

  /** Every tracked request stays tracked, and `Evolves` holds: what clients may rely on while others
      operate the governor. `except` names a request whose own lease is being released. */
  ghost predicate Serves(a: State, b: State, except: set<nat>) {
    && Evolves(a, b)
    && (forall q, r :: Tracked(a, q, r) && q !in except ==> Tracked(b, q, r))
  }

  lemma ServesTransitive(a: State, b: State, c: State, except: set<nat>)
    requires Serves(a, b, except) && Serves(b, c, except)
    ensures Serves(a, c, except)
  {
    EvolvesTransitive(a, b, c);
    hide Tracked, Evolves;
  }

  lemma GrantServes(s: State, i: nat)
    requires Sound(s, true) && i < |s.waiters| && Open(s.fates, s.waiters[i])
    ensures Serves(s, GrantAt(s, i), {})
  {
    var t, w := GrantAt(s, i), s.waiters[i];
    forall q, r | Tracked(s, q, r) ensures Tracked(t, q, r) {
      if s.fates[q].Waiting? {
        var k :| 0 <= k < |s.waiters| && s.waiters[k] == Waiter(q, r);
        assert k < i ==> t.waiters[k] == Waiter(q, r) && Distinct(s.waiters[k], w);
        assert k > i ==> t.waiters[k - 1] == Waiter(q, r) && Distinct(w, s.waiters[k]);
      }
    }
  }

  /** What one scheduling pass did: its grants in order, and the preemptions it then asked for. */
  datatype Report = Report(
    stages: seq<Stage>, grants: seq<Grant>, before: map<nat, Running>, order: seq<Candidate>, count: nat)

  /** The leases of `a`, as they were, and newer ones that nobody has asked to stop. */
  ghost predicate Gains(a: State, running: map<nat, Running>) {
    && (forall id :: id <= a.nextLeaseID ==> (id in running <==> id in a.running))
    && (forall id :: id in running && id <= a.nextLeaseID ==> running[id] == a.running[id])
    && (forall id :: id in running && id > a.nextLeaseID ==> !running[id].preempting)
  }

  /** A pass settles waiting requests only, by a grant or by a missed deadline. */
  ghost predicate Decided(a: map<nat, Fate>, b: map<nat, Fate>) {
    && (forall q :: q in b <==> q in a)
    && (forall q :: q in a && b[q] != a[q] ==> a[q].Waiting? && (b[q].Granted? || b[q] == Cancelled(true)))
  }

  /** The complete contract of a scheduling pass from `a` to `b`. */
  ghost predicate Scheduled(a: State, b: State, r: Report) {
    && Pass(a.limits, r.stages, r.grants)
    && r.stages[0] == Stage(SortBy(a.waiters, Ahead), a.used, a.lower)
    && b.used == r.stages[|r.grants|].used && b.lower == r.stages[|r.grants|].lower
    && AllGranted(r.stages, r.grants, b.fates) && Decided(a.fates, b.fates)
    && (forall k :: 0 <= k < |r.grants| ==> r.grants[k].expired <= ExpiredSet(b.fates))
    // who is left waits in order, and none of them fits
    && b.waiters == StillOpen(r.stages[|r.grants|].line, b.fates)
    && Ordered(b.waiters, Ahead)
    && (forall w :: w in b.waiters ==> !Fits(b.limits, b.used, b.lower, w.request))
    // preemption on behalf of the head
    && r.count <= |r.order|
    && Gains(a, r.before)
    && b.running == Flag(r.before, Ids(r.order, r.count)) && b.preemptions == a.preemptions + r.count
    && (b.waiters == [] ==> r.order == [])
    && (b.waiters != [] ==>
          var head := b.waiters[0].request;
          var needed := Shortfall(b.limits, b.used, b.lower, head);
          && needed > 0 && Ranking(r.order, r.before, head) && MinimalPrefix(r.order, r.count, needed)
          && (Costs(r.order, r.count) >= needed ==>
                var rest := b.running - Ids(r.order, r.count);
                Fits(b.limits, Load(rest, b.nextLeaseID, false), Load(rest, b.nextLeaseID, true), head)))
    // nothing else changed
    && b == a.(nextLeaseID := b.nextLeaseID, used := b.used, lower := b.lower, waiters := b.waiters,
               fates := b.fates, running := b.running, admitted := b.admitted,
               preemptions := b.preemptions, deadlineMisses := b.deadlineMisses)
  }

  lemma SoundRelax(s: State)
    requires Sound(s, false)
    ensures Sound(s, true)
  {
  }

  ghost function ExpiredSet(fates: map<nat, Fate>): set<nat> {
    set q | q in fates && fates[q] == Cancelled(true)
  }

  /** Everyone in the line is either still open or was just found expired. */
  lemma LineExpired(s: State)
    requires Sound(s, true)
    ensures forall j :: 0 <= j < |s.waiters| ==>
              (Open(s.fates, s.waiters[j]) <==> s.waiters[j].sequence !in ExpiredSet(s.fates))
  {
    forall j | 0 <= j < |s.waiters|
      ensures Open(s.fates, s.waiters[j]) <==> s.waiters[j].sequence !in ExpiredSet(s.fates)
    {
      assert s.waiters[j] in s.waiters;
    }
  }

  /** The preemption clauses of a pass, from what `RequestPreemption` established. */
  lemma HeadFitsAfterVictims(s: State, order: seq<Candidate>, count: nat)
    requires Sound(s, false) && s.waiters != [] && count <= |order|
    requires Ranking(order, s.running, s.waiters[0].request)
    requires Costs(order, count) >= Shortfall(s.limits, s.used, s.lower, s.waiters[0].request)
    ensures var rest := Flag(s.running, Ids(order, count)) - Ids(order, count);
            Fits(s.limits, Load(rest, s.nextLeaseID, false), Load(rest, s.nextLeaseID, true), s.waiters[0].request)
  {
    CoveredHeadFits(s.limits, s.running, s.nextLeaseID, s.used, s.lower, s.waiters[0].request, order, count);
    assert Flag(s.running, Ids(order, count)) - Ids(order, count) == s.running - Ids(order, count);
  }

  /** A scheduling pass under way: it began at `a`, has made `grants`, and now stands at `s`. */
  ghost predicate Scheduling(a: State, s: State, stages: seq<Stage>, grants: seq<Grant>) {
    && Sound(s, true) && Serves(a, s, {}) && Ordered(s.waiters, Ahead)
    && Pass(a.limits, stages, grants)
    && stages[0] == Stage(SortBy(a.waiters, Ahead), a.used, a.lower)
    && stages[|grants|] == Stage(s.waiters, s.used, s.lower)
    && AllGranted(stages, grants, s.fates) && Decided(a.fates, s.fates)
    && (forall k :: 0 <= k < |grants| ==> grants[k].expired <= ExpiredSet(s.fates))
    && Gains(a, s.running) && a.nextLeaseID <= s.nextLeaseID
    && s == a.(nextLeaseID := s.nextLeaseID, used := s.used, lower := s.lower, waiters := s.waiters,
               fates := s.fates, running := s.running, admitted := s.admitted, deadlineMisses := s.deadlineMisses)
  }

  lemma SchedulingIsSound(a: State, s: State, stages: seq<Stage>, grants: seq<Grant>)
    requires Scheduling(a, s, stages, grants)
    ensures Sound(s, true)
  {
  }

  lemma PassBegins(a: State)
    requires Sound(a, false)
    ensures Scheduling(a, Sort(a), [Stage(SortBy(a.waiters, Ahead), a.used, a.lower)], [])
  {
    SortSound(a);
    SoundRelax(Sort(a));
    SortKeepsPairwise(a.waiters, Ahead, Distinct);
    assert Serves(a, Sort(a), {});
    assert Gains(a, a.running);
  }

  lemma AgedServes(s: State, t: State)
    requires Sound(s, true)
    requires Aged(s.waiters, s.fates, t.fates) && t == s.(fates := t.fates, deadlineMisses := t.deadlineMisses)
    ensures Serves(s, t, {})
  {
    forall q, r | Tracked(s, q, r) ensures Tracked(t, q, r) {
      if s.fates[q] != t.fates[q] {
        var w :| w in s.waiters && w.sequence == q && w.request.deadline.Some?;
        OneWaiter(s, w, Waiter(q, r));
      }
    }
  }

  lemma OneWaiter(s: State, v: Waiter, w: Waiter)
    requires Sound(s, true) && v in s.waiters && w in s.waiters && v.sequence == w.sequence
    ensures v == w
  {
    hide Balanced, Counted, LeasesMatch;
    var i :| 0 <= i < |s.waiters| && s.waiters[i] == v;
    var j :| 0 <= j < |s.waiters| && s.waiters[j] == w;
    assert i < j ==> Distinct(s.waiters[i], s.waiters[j]);
    assert j < i ==> Distinct(s.waiters[j], s.waiters[i]);
  }

  lemma PassAges(a: State, s: State, t: State, stages: seq<Stage>, grants: seq<Grant>)
    requires Scheduling(a, s, stages, grants) && Sound(t, true)
    requires Aged(s.waiters, s.fates, t.fates) && t == s.(fates := t.fates, deadlineMisses := t.deadlineMisses)
    ensures Scheduling(a, t, stages, grants)
  {
    AgedServes(s, t);
    ServesTransitive(a, s, t, {});
    hide Sound, Serves;
  }

  lemma PassGrants(a: State, s: State, stages: seq<Stage>, grants: seq<Grant>, i: nat, tick: nat)
    requires Scheduling(a, s, stages, grants) && i < |s.waiters| && Open(s.fates, s.waiters[i])
    requires Fits(s.limits, s.used, s.lower, s.waiters[i].request)
    requires forall j :: 0 <= j < i ==>
      !Open(s.fates, s.waiters[j]) || !Fits(s.limits, s.used, s.lower, s.waiters[j].request)
    ensures var t := GrantAt(s, i);
            Scheduling(a, t, stages + [Stage(t.waiters, t.used, t.lower)], 
                       grants + [Grant(i, ExpiredSet(s.fates), tick)])
  {
    hide Sound, Serves, Fits, Pass, AllGranted, Ordered, SortBy;
    var t, g := GrantAt(s, i), Grant(i, ExpiredSet(s.fates), tick);
    GrantSound(s, i);
    GrantServes(s, i);
    ServesTransitive(a, s, t, {});
    LineExpired(s);
    var next := Stage(t.waiters, t.used, t.lower);
    assert |stages| == |grants| + 1 by { PassLength(a.limits, stages, grants); }
    assert Picked(a.limits, stages[|grants|], g, next);
    PassExtends(a.limits, stages, grants, g, next);
    PassLength(a.limits, stages + [next], grants + [g]);
    GrantedExtends(stages, grants, g, next, s.fates, t.fates);
    RemoveKeepsOrder(s.waiters, i);
    assert ExpiredSet(s.fates) <= ExpiredSet(t.fates);
  }

  lemma PassLength(l: Limits, stages: seq<Stage>, grants: seq<Grant>)
    requires Pass(l, stages, grants)
    ensures |stages| == |grants| + 1
  {
  }

  lemma RemoveKeepsOrder(line: seq<Waiter>, i: nat)
    requires i < |line| && Ordered(line, Ahead)
    ensures Ordered(RemoveAt(line, i), Ahead)
  {
  }

  lemma PassEnds(a: State, s: State, t: State, stages: seq<Stage>, grants: seq<Grant>,
                 order: seq<Candidate>, count: nat)
    requires Scheduling(a, s, stages, grants) && Sound(t, false)
    requires Aged(s.waiters, s.fates, t.fates)
    requires t == s.(fates := t.fates, deadlineMisses := t.deadlineMisses, waiters := StillOpen(s.waiters, t.fates))
    requires forall w :: w in t.waiters ==> !Fits(t.limits, t.used, t.lower, w.request)
    requires count <= |order|
    requires t.waiters == [] || Shortfall(t.limits, t.used, t.lower, t.waiters[0].request) <= 0 ==> order == []
    requires t.waiters != [] && Shortfall(t.limits, t.used, t.lower, t.waiters[0].request) > 0 ==>
                && Ranking(order, t.running, t.waiters[0].request)
                && MinimalPrefix(order, count, Shortfall(t.limits, t.used, t.lower, t.waiters[0].request))
    ensures var b := Preempt(t, Ids(order, count), count);
            Serves(a, b, {}) && Scheduled(a, b, Report(stages, grants, t.running, order, count))
  {
    hide Sound, Serves, Fits, Pass, Ranking, MinimalPrefix, Shortfall, Load, Flag, AllGranted, Ordered, SortBy;
    var u, b := s.(fates := t.fates, deadlineMisses := t.deadlineMisses), Preempt(t, Ids(order, count), count);
    AgedServes(s, u);
    ServesTransitive(a, s, u, {});
    SweepServes(u);
    ServesTransitive(a, u, t, {});
    PreemptServes(t, Ids(order, count), count);
    ServesTransitive(a, t, b, {});
    FilterKeepsOrder(s.waiters, (w: Waiter) => Open(t.fates, w), Ahead);
    PassLength(a.limits, stages, grants);
    PreemptionEnds(t, order, count);
    AgedGrows(s.waiters, s.fates, t.fates);
    GrantedSettles(stages, grants, s.fates, b.fates);
  }

  lemma AgedGrows(line: seq<Waiter>, a: map<nat, Fate>, b: map<nat, Fate>)
    requires Aged(line, a, b)
    ensures Settling(a, b) && ExpiredSet(a) <= ExpiredSet(b)
  {
  }

  lemma GrantedSettles(stages: seq<Stage>, grants: seq<Grant>, before: map<nat, Fate>, after: map<nat, Fate>)
    requires AllGranted(stages, grants, before) && Settling(before, after)
    ensures AllGranted(stages, grants, after)
  {
    forall k | 0 <= k < |grants| ensures IsGranted(stages[k].line, grants[k].index, after) {
      assert IsGranted(stages[k].line, grants[k].index, before);
    }
  }

  lemma SweepServes(s: State)
    ensures Serves(s, Sweep(s), {})
  {
  }

  lemma PreemptServes(s: State, ids: set<nat>, count: nat)
    ensures Serves(s, Preempt(s, ids, count), {})
  {
  }

  lemma PreemptionEnds(t: State, order: seq<Candidate>, count: nat)
    requires Sound(t, false) && forall w :: w in t.waiters ==> !Fits(t.limits, t.used, t.lower, w.request)
    requires count <= |order|
    requires t.waiters == [] || Shortfall(t.limits, t.used, t.lower, t.waiters[0].request) <= 0 ==> order == []
    requires t.waiters != [] && Shortfall(t.limits, t.used, t.lower, t.waiters[0].request) > 0 ==>
                && Ranking(order, t.running, t.waiters[0].request)
                && MinimalPrefix(order, count, Shortfall(t.limits, t.used, t.lower, t.waiters[0].request))
    ensures t.waiters != [] ==>
              var head := t.waiters[0].request;
              var needed := Shortfall(t.limits, t.used, t.lower, head);
              && needed > 0
              && (Costs(order, count) >= needed ==>
                    var rest := Flag(t.running, Ids(order, count)) - Ids(order, count);
                    Fits(t.limits, Load(rest, t.nextLeaseID, false), Load(rest, t.nextLeaseID, true), head))
  {
    if t.waiters != [] {
      assert t.waiters[0] in t.waiters;
      assert Shortfall(t.limits, t.used, t.lower, t.waiters[0].request) > 0;
      hide Sound, Ranking, Fits, Shortfall;
      if Costs(order, count) >= Shortfall(t.limits, t.used, t.lower, t.waiters[0].request) {
        HeadFitsAfterVictims(t, order, count);
      }
    }
  }

  function Late(s: State): State { s.(deadlineMisses := s.deadlineMisses + 1, refused := s.refused + 1) }

  lemma LateKeeps(s: State)
    requires Sound(s, false)
    ensures Sound(Late(s), false) && Serves(s, Late(s), {})
  {
  }

  lemma EnqueueServes(s: State, r: Request)
    requires Sound(s, false)
    ensures Serves(s, Enqueue(s, r), {}) && Tracked(Enqueue(s, r), s.nextSequence + 1, r)
  {
    var t := Enqueue(s, r);
    assert t.waiters[|s.waiters|] == Waiter(s.nextSequence + 1, r);
    assert s.nextSequence + 1 !in s.fates;
  }

  lemma WithdrawServes(s: State, q: nat, missed: bool)
    requires Sound(s, false) && q in s.fates && s.fates[q].Waiting? && (missed ==> MayMiss(s.waiters, q))
    ensures Serves(s, Withdraw(s, q, missed), {})
  {
  }

  /** Whoever waits under that ticket has a deadline. */
  predicate MayMiss(line: seq<Waiter>, q: nat) {
    forall i :: 0 <= i < |line| && line[i].sequence == q ==> line[i].request.deadline.Some?
  }

  lemma DropServes(s: State, id: nat)
    requires Sound(s, false) && id in s.running
    ensures Serves(s, Drop(s, id), {s.running[id].sequence})
  {
  }

  lemma ServesWiden(a: State, b: State, except: set<nat>)
    requires Serves(a, b, {})
    ensures Serves(a, b, except)
  {
  }

  lemma {:induction false} AskedIsRanked(order: seq<Candidate>, running: map<nat, Running>, wanted: Request,
                                               k: nat, id: nat)
    requires Ranking(order, running, wanted) && k <= |order| && id in Ids(order, k)
    ensures id in running && MayPreempt(running[id], wanted)
  {
    if id == order[k - 1].id {
      RankedMember(order, running, wanted, k - 1);
    } else {
      AskedIsRanked(order, running, wanted, k - 1, id);
    }
  }

  /** What a pass asks to stop is running, was not asked before, and is marked from then on. */
  lemma PassAsks(a: State, b: State, r: Report, id: nat)
    requires Sound(b, false) && Scheduled(a, b, r) && id in Ids(r.order, r.count)
    ensures id in b.running && b.running[id].preempting && id <= b.nextLeaseID
    ensures id <= a.nextLeaseID ==> id in a.running && !a.running[id].preempting
  {
    hide Pass, AllGranted, Ordered, SortBy, Fits, Shortfall, MinimalPrefix, Balanced, Counted, Lined, Load;
    if b.waiters == [] {
      NobodyAsked(r.order, r.count);
    } else {
      AskedIsRanked(r.order, r.before, b.waiters[0].request, r.count, id);
    }
  }

  lemma NobodyAsked(order: seq<Candidate>, k: nat)
    requires order == [] && k <= |order|
    ensures Ids(order, k) == {}
  {
  }

  /** Over any history a lease is asked to stop at most once: what one pass asked, no later pass asks. */
  lemma AskedOnce(a: State, b: State, r: Report, c: State, d: State, q: Report, id: nat)
    requires Sound(b, false) && Sound(d, false)
    requires Scheduled(a, b, r) && Evolves(b, c) && Scheduled(c, d, q) && id in Ids(r.order, r.count)
    requires q.count <= |q.order|
    ensures id !in Ids(q.order, q.count)
  {
    hide Scheduled, Sound, Settling;
    PassAsks(a, b, r, id);
    if id in Ids(q.order, q.count) { PassAsks(c, d, q, id); }
  }

  /** Once a request's fate is closed and its lease is not running, it will hold nothing again. */
  lemma NothingHeldForGood(a: State, b: State, q: nat)
    requires Sound(a, false) && Sound(b, false) && Evolves(a, b)
    requires q in a.fates && !a.fates[q].Waiting?
    requires forall id :: id in a.running ==> a.running[id].sequence != q
    ensures forall id :: id in b.running ==> b.running[id].sequence != q
  {
    forall id | id in b.running ensures b.running[id].sequence != q {
      assert b.running[id].sequence in b.fates && b.fates[b.running[id].sequence] == Granted(id);
    }
  }

  // ---- The governor as an object -----------------------------------------------------------

  /** Only expiry happened: some waiters of the line that have deadlines became missed deadlines. */
  ghost predicate Aged(line: seq<Waiter>, a: map<nat, Fate>, b: map<nat, Fate>) {
    && (forall s :: s in a <==> s in b)
    && (forall s :: s in a && a[s] != b[s] ==>
          && a[s].Waiting? && b[s] == Cancelled(true)
          && exists w :: w in line && w.sequence == s && w.request.deadline.Some?)
  }

  /** One of these readings of the clock decided whether the waiter had missed its deadline. */
  ghost predicate Judged(w: Waiter, fates: map<nat, Fate>, clock: nat -> int, from: nat, until: nat) {
    && w.sequence in fates
    && exists k :: from <= k < until && (Expired(w.request, clock(k)) <==> fates[w.sequence] == Cancelled(true))
  }

  lemma JudgedLater(w: Waiter, a: map<nat, Fate>, b: map<nat, Fate>, clock: nat -> int, from: nat, until: nat,
                    earlier: nat, later: nat)
    requires Judged(w, a, clock, from, until) && earlier <= from && until <= later
    requires w.sequence in b && b[w.sequence] == a[w.sequence]
    ensures Judged(w, b, clock, earlier, later)
  {
    var k :| from <= k < until && (Expired(w.request, clock(k)) <==> a[w.sequence] == Cancelled(true));
    assert earlier <= k < later && (Expired(w.request, clock(k)) <==> b[w.sequence] == Cancelled(true));
  }

  /** Every waiter a pass began with has been judged by a reading the pass took, or still stands in
      the line with an open fate. */
  ghost predicate Judging(began: seq<Waiter>, line: seq<Waiter>, fates: map<nat, Fate>, clock: nat -> int,
                          from: nat, until: nat) {
    forall w :: w in began ==>
      (w in line && Open(fates, w)) || (!Open(fates, w) && Judged(w, fates, clock, from, until))
  }

  ghost predicate AllJudged(began: seq<Waiter>, fates: map<nat, Fate>, clock: nat -> int, from: nat, until: nat) {
    forall w :: w in began ==> Judged(w, fates, clock, from, until)
  }

  /** One of these readings of the clock decided whether the waiter is among the expired. */
  ghost predicate FoundBy(w: Waiter, expired: set<nat>, clock: nat -> int, from: nat, until: nat) {
    exists k :: from <= k < until && (Expired(w.request, clock(k)) <==> w.sequence in expired)
  }

  /** The waiter granted, and everyone passed over for it, was found in time or expired by a reading taken
      before the grant. */
  ghost predicate FoundInTime(line: seq<Waiter>, g: Grant, clock: nat -> int, from: nat) {
    forall i :: 0 <= i <= g.index < |line| ==> FoundBy(line[i], g.expired, clock, from, g.tick)
  }

  ghost predicate Timely(stages: seq<Stage>, grants: seq<Grant>, clock: nat -> int, from: nat, until: nat) {
    && |grants| <= |stages|
    && (forall k :: 0 <= k < |grants| ==>
          from <= grants[k].tick <= until && FoundInTime(stages[k].line, grants[k], clock, from))
    && (forall j, k :: 0 <= j < k < |grants| ==> grants[j].tick <= grants[k].tick)
  }

  lemma JudgedIsFound(w: Waiter, fates: map<nat, Fate>, clock: nat -> int, from: nat, until: nat)
    requires Judged(w, fates, clock, from, until)
    ensures FoundBy(w, ExpiredSet(fates), clock, from, until)
  {
    hide Expired;
    var k :| from <= k < until && (Expired(w.request, clock(k)) <==> fates[w.sequence] == Cancelled(true));
    assert from <= k < until && (Expired(w.request, clock(k)) <==> w.sequence in ExpiredSet(fates));
  }

  /** After a scan that stopped at place i, every waiter up to there has been judged in this pass. */
  lemma ScanFinds(began: seq<Waiter>, line: seq<Waiter>, a: map<nat, Fate>, b: map<nat, Fate>, i: nat,
                  clock: nat -> int, start: nat, from: nat, until: nat)
    requires Judging(began, line, a, clock, start, from) && start <= from <= until
    requires i < |line| && Scanned(line, i + 1, a, b, clock, from, until) && Settling(a, b)
    requires forall w :: w in line ==> w in began
    ensures FoundInTime(line, Grant(i, ExpiredSet(b), until), clock, start)
  {
    hide Judged, FoundBy;
    forall j | 0 <= j <= i ensures FoundBy(line[j], ExpiredSet(b), clock, start, until) {
      var w := line[j];
      assert w in began;
      if Open(a, w) {
        JudgedIsFated(w, b, clock, from, until);
        JudgedLater(w, b, b, clock, from, until, start, until);
      } else {
        JudgedIsFated(w, a, clock, start, from);
        JudgedLater(w, a, b, clock, start, from, start, until);
      }
      JudgedIsFound(w, b, clock, start, until);
    }
  }

  lemma TimelyGrows(stages: seq<Stage>, grants: seq<Grant>, next: Stage, g: Grant, clock: nat -> int,
                    start: nat, from: nat)
    requires Timely(stages, grants, clock, start, from) && |stages| == |grants| + 1 && start <= from <= g.tick
    requires FoundInTime(stages[|grants|].line, g, clock, start)
    ensures Timely(stages + [next], grants + [g], clock, start, g.tick)
  {
    hide FoundInTime;
  }

  lemma NothingTimely(stages: seq<Stage>, clock: nat -> int, tick: nat)
    ensures Timely(stages, [], clock, tick, tick)
  {
  }

  lemma TimelyLater(stages: seq<Stage>, grants: seq<Grant>, clock: nat -> int, start: nat, from: nat, until: nat)
    requires Timely(stages, grants, clock, start, from) && from <= until
    ensures Timely(stages, grants, clock, start, until)
  {
    hide FoundInTime;
  }

  /** The first n waiters of the line, if they were open, have been judged; the rest are as they were. */
  ghost predicate Scanned(line: seq<Waiter>, n: int, before: map<nat, Fate>, after: map<nat, Fate>,
                          clock: nat -> int, from: nat, until: nat) {
    && (forall i :: 0 <= i < n <= |line| && Open(before, line[i]) ==> Judged(line[i], after, clock, from, until))
    && (forall i :: 0 <= n <= i < |line| ==> (Open(before, line[i]) <==> Open(after, line[i])))
  }

  lemma ScanSkips(line: seq<Waiter>, i: nat, before: map<nat, Fate>, after: map<nat, Fate>, clock: nat -> int,
                  from: nat, until: nat)
    requires i < |line| && Scanned(line, i, before, after, clock, from, until) && !Open(after, line[i])
    ensures Scanned(line, i + 1, before, after, clock, from, until)
  {
    hide Judged;
  }

  lemma ScanJudges(line: seq<Waiter>, i: nat, before: map<nat, Fate>, mid: map<nat, Fate>, after: map<nat, Fate>,
                   clock: nat -> int, from: nat, until: nat)
    requires i < |line| && Ordered(line, Distinct) && from <= until
    requires Scanned(line, i, before, mid, clock, from, until) && Open(mid, line[i])
    requires after == if Expired(line[i].request, clock(until)) then mid[line[i].sequence := Cancelled(true)] else mid
    ensures Scanned(line, i + 1, before, after, clock, from, until + 1)
  {
    hide Expired;
    forall j | 0 <= j < i + 1 && Open(before, line[j]) ensures Judged(line[j], after, clock, from, until + 1) {
      if j < i {
        assert Distinct(line[j], line[i]);
        JudgedLater(line[j], mid, after, clock, from, until, from, until + 1);
      } else {
        assert from <= until < until + 1;
        assert Expired(line[i].request, clock(until)) <==> after[line[i].sequence] == Cancelled(true);
      }
    }
    forall j | i + 1 <= j < |line| ensures Open(before, line[j]) <==> Open(after, line[j]) {
      assert Distinct(line[i], line[j]);
    }
  }

  /** A scan that finds nobody judges everyone. */
  lemma JudgingEnds(began: seq<Waiter>, line: seq<Waiter>, a: map<nat, Fate>, b: map<nat, Fate>, clock: nat -> int,
                    start: nat, from: nat, until: nat)
    requires Judging(began, line, a, clock, start, from) && start <= from <= until
    requires Scanned(line, |line|, a, b, clock, from, until) && Settling(a, b)
    ensures AllJudged(began, b, clock, start, until)
  {
    hide Judged;
    forall w | w in began ensures Judged(w, b, clock, start, until) {
      if Open(a, w) {
        var i :| 0 <= i < |line| && line[i] == w;
        JudgedLater(w, b, b, clock, from, until, start, until);
      } else {
        JudgedIsFated(w, a, clock, start, from);
        JudgedLater(w, a, b, clock, start, from, start, until);
      }
    }
  }

  lemma JudgedIsFated(w: Waiter, fates: map<nat, Fate>, clock: nat -> int, from: nat, until: nat)
    requires Judged(w, fates, clock, from, until)
    ensures w.sequence in fates
  {
  }

  /** A grant judges its own waiter, whom a reading found in time. */
  lemma JudgingGrants(began: seq<Waiter>, line: seq<Waiter>, a: map<nat, Fate>, b: map<nat, Fate>, i: nat, id: nat,
                      clock: nat -> int, start: nat, from: nat, until: nat)
    requires Judging(began, line, a, clock, start, from) && start <= from <= until
    requires i < |line| && Scanned(line, i + 1, a, b, clock, from, until) && Settling(a, b)
    requires Ordered(line, Distinct) && Open(a, line[i]) && Open(b, line[i])
    ensures Judging(began, RemoveAt(line, i), b[line[i].sequence := Granted(id)], clock, start, until)
  {
    hide Judged;
    var c := b[line[i].sequence := Granted(id)];
    forall w | w in began
      ensures (w in RemoveAt(line, i) && Open(c, w)) || (!Open(c, w) && Judged(w, c, clock, start, until))
    {
      if Open(a, w) {
        var j :| 0 <= j < |line| && line[j] == w;
        assert j < i ==> Distinct(line[j], line[i]);
        assert i < j ==> Distinct(line[i], line[j]);
        if j == i {
          GrantJudged(w, b, id, clock, from, until, start);
        } else if Open(b, w) {
          StaysInRest(line, i, w);
        } else {
          JudgedLater(w, b, c, clock, from, until, start, until);
        }
      } else {
        JudgedIsFated(w, a, clock, start, from);
        JudgedLater(w, a, b, clock, start, from, start, until);
        JudgedLater(w, b, c, clock, start, until, start, until);
      }
    }
  }

  lemma GrantJudged(w: Waiter, b: map<nat, Fate>, id: nat, clock: nat -> int, from: nat, until: nat, start: nat)
    requires Judged(w, b, clock, from, until) && Open(b, w) && start <= from
    ensures Judged(w, b[w.sequence := Granted(id)], clock, start, until)
  {
    hide Expired;
    var k :| from <= k < until && (Expired(w.request, clock(k)) <==> b[w.sequence] == Cancelled(true));
    var c := b[w.sequence := Granted(id)];
    assert start <= k < until && (Expired(w.request, clock(k)) <==> c[w.sequence] == Cancelled(true));
  }

  /** Collects the preemptible leases in whatever order the map yields them, then sorts them. */
  method RankCandidates(running: map<nat, Running>, wanted: Request) returns (ranked: seq<Candidate>)
    requires DistinctSequences(running)
    ensures Ranking(ranked, running, wanted)
  {
    var unread := running.Keys;
    var found: seq<Candidate> := [];
    while unread != {}
      invariant unread <= running.Keys && Ordered(found, ApartIds)
      invariant forall c :: c in found <==>
        c.id in running && c.id !in unread && running[c.id] == c.lease && MayPreempt(c.lease, wanted)
      decreases unread
    {
      var id :| id in unread;
      unread := unread - {id};
      if MayPreempt(running[id], wanted) {
        found := found + [Candidate(id, running[id])];
      }
    }
    VictimOrderIsStrict();
    SortKeepsPairwise(found, SoonerVictim, ApartIds);
    RankedIsOrdered(found, running, wanted);
    ranked := SortBy(found, SoonerVictim);
  }

  lemma RankedIsOrdered(found: seq<Candidate>, running: map<nat, Running>, wanted: Request)
    requires DistinctSequences(running) && Ordered(found, ApartIds)
    requires forall c :: c in found ==> c.id in running && running[c.id] == c.lease
    ensures Ordered(SortBy(found, SoonerVictim), SoonerVictim)
  {
    VictimOrderIsStrict();
    forall i, j | 0 <= i < j < |found|
      ensures SoonerVictim(found[i], found[j]) || SoonerVictim(found[j], found[i])
    {
      assert ApartIds(found[i], found[j]) && found[i] in found && found[j] in found;
    }
    SortByIsSorted(found, SoonerVictim);
  }

  lemma FlagNobody(running: map<nat, Running>)
    ensures Flag(running, {}) == running
  {
  }

  lemma FlagOne(running: map<nat, Running>, ids: set<nat>, id: nat)
    requires id in running
    ensures Flag(running, ids)[id := running[id].(preempting := true)] == Flag(running, ids + {id})
  {
  }

  /** Exactly a minimal prefix of the ranking has been asked to stop. */
  ghost predicate Flags(order: seq<Candidate>, running: map<nat, Running>, wanted: Request, needed: int,
                        after: map<nat, Running>, count: nat) {
    Ranking(order, running, wanted) && MinimalPrefix(order, count, needed) && after == Flag(running, Ids(order, count))
  }

  /** Flags victims in rank order until the shortfall is covered or the candidates are used up. */
  method ChooseVictims(running: map<nat, Running>, wanted: Request, needed: int)
    returns (after: map<nat, Running>, count: nat, ghost order: seq<Candidate>)
    requires DistinctSequences(running) && needed > 0
    ensures Ranking(order, running, wanted) && MinimalPrefix(order, count, needed)
    ensures after == Flag(running, Ids(order, count))
    ensures exists ranked :: Flags(ranked, running, wanted, needed, after, count)
  {
    hide Flag, Ranking, DistinctSequences;
    var ranked := RankCandidates(running, wanted);
    order := ranked;
    after, count := running, 0;
    FlagNobody(running);
    var missing := needed;
    while count < |ranked| && missing > 0
      invariant 0 <= count <= |ranked| && missing == needed - Costs(ranked, count)
      invariant after == Flag(running, Ids(ranked, count))
      invariant forall j :: 0 < j < count ==> Costs(ranked, j) < needed
    {
      var c := ranked[count];
      RankedMember(ranked, running, wanted, count);
      FlagOne(running, Ids(ranked, count), c.id);
      after := after[c.id := c.lease.(preempting := true)];
      missing := missing - c.lease.request.cost;
      count := count + 1;
    }
    assert Flags(order, running, wanted, needed, after, count);
  }

  datatype Entry = Refused | Overdue | Queued(sequence: nat)

  lemma ServesReflexive(s: State)
    ensures Serves(s, s, {})
  {
  }

  lemma ServesTracks(a: State, b: State, q: nat, r: Request)
    requires Serves(a, b, {}) && Tracked(a, q, r)
    ensures Tracked(b, q, r)
  {
  }

  lemma ServesSettles(a: State, b: State, q: nat)
    requires Serves(a, b, {}) && q in a.fates && !a.fates[q].Waiting?
    ensures q in b.fates && b.fates[q] == a.fates[q]
  {
  }

  lemma ScheduledFrame(a: State, b: State, r: Report)
    requires Scheduled(a, b, r)
    ensures b.nextSequence == a.nextSequence && b.released == a.released
  {
  }

  lemma GoneStaysGone(s: State, t: State, u: State, id: nat)
    requires Sound(s, false) && id in s.running && t == Drop(s, id) && Serves(t, u, {})
    ensures id !in u.running
  {
  }

  /** What one client may rely on while the others operate: its own request is not lost. */
  ghost predicate OthersServed(a: State, b: State, mine: nat) {
    && Evolves(a, b) && mine in b.fates
    && (forall r :: Tracked(a, mine, r) ==> Tracked(b, mine, r))
  }

  lemma OthersServedReflexive(s: State, mine: nat)
    requires mine in s.fates
    ensures OthersServed(s, s, mine)
  {
  }

  lemma OthersServedStep(a: State, b: State, c: State, mine: nat, except: set<nat>)
    requires OthersServed(a, b, mine) && Serves(b, c, except) && mine !in except
    ensures OthersServed(a, c, mine)
  {
    EvolvesTransitive(a, b, c);
    hide Tracked;
  }

  lemma OthersTrack(a: State, b: State, mine: nat, r: Request)
    requires OthersServed(a, b, mine) && Tracked(a, mine, r)
    ensures mine in b.fates && Tracked(b, mine, r)
    ensures b.fates[mine].Granted? ==>
              var id := b.fates[mine].lease;
              id in b.running && b.running[id].request == r && b.running[id].sequence == mine
  {
  }

  lemma OthersSettle(a: State, b: State, mine: nat)
    requires OthersServed(a, b, mine) && mine in a.fates && !a.fates[mine].Waiting?
    ensures mine in b.fates && b.fates[mine] == a.fates[mine]
  {
  }

  lemma TrackedIsFated(s: State, q: nat, r: Request)
    requires Tracked(s, q, r)
    ensures q in s.fates
  {
  }

  lemma SoundTickets(s: State)
    requires Sound(s, false)
    ensures 0 !in s.fates && forall id :: id in s.running ==> s.running[id].sequence != 0
  {
  }

  lemma SoundLine(s: State)
    requires Sound(s, true)
    ensures Ordered(s.waiters, Distinct)
  {
  }

  lemma ScanStarts(line: seq<Waiter>, fates: map<nat, Fate>, clock: nat -> int, from: nat)
    ensures Scanned(line, 0, fates, fates, clock, from, from) && Aged(line, fates, fates)
  {
  }

  lemma AgedExpires(line: seq<Waiter>, a: map<nat, Fate>, b: map<nat, Fate>, w: Waiter, now: int)
    requires Aged(line, a, b) && w in line && Open(b, w) && Expired(w.request, now)
    ensures Aged(line, a, b[w.sequence := Cancelled(true)])
  {
  }

  lemma JudgingStarts(s: State, clock: nat -> int, from: nat)
    requires Sound(s, false)
    ensures Judging(s.waiters, SortBy(s.waiters, Ahead), s.fates, clock, from, from)
    ensures Within(SortBy(s.waiters, Ahead), s.waiters)
  {
    hide Balanced, Counted, LeasesMatch, Judged;
    SortKeepsPairwise(s.waiters, Ahead, Distinct);
  }

  lemma EveryoneJudged(a: State, s: State, fates: map<nat, Fate>, clock: nat -> int, start: nat, from: nat, until: nat)
    requires Judging(a.waiters, s.waiters, s.fates, clock, start, from) && start <= from <= until
    requires Scanned(s.waiters, |s.waiters|, s.fates, fates, clock, from, until) && Aged(s.waiters, s.fates, fates)
    ensures AllJudged(a.waiters, fates, clock, start, until)
  {
    hide Judging, Scanned, Aged, AllJudged, Settling;
    AgedGrows(s.waiters, s.fates, fates);
    JudgingEnds(a.waiters, s.waiters, s.fates, fates, clock, start, from, until);
  }

  ghost predicate Within(line: seq<Waiter>, began: seq<Waiter>) { forall w :: w in line ==> w in began }

  lemma ScanFindsAll(a: State, s: State, t: State, i: nat, clock: nat -> int, start: nat, from: nat, until: nat)
    requires Judging(a.waiters, s.waiters, s.fates, clock, start, from) && start <= from <= until
    requires i < |s.waiters| && Within(s.waiters, a.waiters)
    requires Scanned(s.waiters, i + 1, s.fates, t.fates, clock, from, until) && Aged(s.waiters, s.fates, t.fates)
    ensures FoundInTime(s.waiters, Grant(i, ExpiredSet(t.fates), until), clock, start)
  {
    hide Judging, Scanned, Aged, Settling, FoundInTime;
    AgedGrows(s.waiters, s.fates, t.fates);
    ScanFinds(a.waiters, s.waiters, s.fates, t.fates, i, clock, start, from, until);
  }

  lemma GrantJudges(a: State, s: State, t: State, i: nat, clock: nat -> int, start: nat, from: nat, until: nat)
    requires Judging(a.waiters, s.waiters, s.fates, clock, start, from) && start <= from <= until
    requires Sound(s, true) && t.waiters == s.waiters && i < |t.waiters| && Open(t.fates, t.waiters[i])
    requires Scanned(s.waiters, i + 1, s.fates, t.fates, clock, from, until) && Aged(s.waiters, s.fates, t.fates)
    requires Within(s.waiters, a.waiters)
    ensures Judging(a.waiters, GrantAt(t, i).waiters, GrantAt(t, i).fates, clock, start, until)
    ensures FoundInTime(t.waiters, Grant(i, ExpiredSet(t.fates), until), clock, start)
    ensures Within(GrantAt(t, i).waiters, a.waiters)
  {
    hide Judging, Scanned, Aged, Settling, Sound, Ordered, Open, FoundInTime;
    ScanFindsAll(a, s, t, i, clock, start, from, until);
    SoundLine(s);
    AgedGrows(s.waiters, s.fates, t.fates);
    AgedOpens(s.waiters, s.fates, t.fates, t.waiters[i]);
    JudgingGrants(a.waiters, s.waiters, s.fates, t.fates, i, t.nextLeaseID + 1, clock, start, from, until);
  }

  lemma AgedOpens(line: seq<Waiter>, a: map<nat, Fate>, b: map<nat, Fate>, w: Waiter)
    requires Aged(line, a, b) && Open(b, w)
    ensures Open(a, w)
  {
  }

  /** A ticket whose request has a deadline may be charged with missing it, and no other may. */
  lemma TicketMayMiss(s: State, q: nat, r: Request)
    requires Sound(s, false) && Tracked(s, q, r)
    ensures r.deadline.Some? ==> MayMiss(s.waiters, q)
    ensures r.deadline.None? ==> s.fates[q] != Cancelled(true)
  {
    hide Balanced, Counted, LeasesMatch;
    if r.deadline.Some? {
      forall i | 0 <= i < |s.waiters| && s.waiters[i].sequence == q ensures s.waiters[i].request.deadline.Some? {
        assert s.waiters[i] in s.waiters;
        assert Lined(s.limits, s.waiters, s.fates, true);
        OneWaiter(s, s.waiters[i], Waiter(q, r));
      }
    }
  }

  lemma NoLease(s: State, q: nat)
    requires Sound(s, false) && q in s.fates
    requires s.fates[q].Cancelled? || (s.fates[q].Granted? && s.fates[q].lease !in s.running)
    ensures forall id :: id in s.running ==> s.running[id].sequence != q
  {
  }

  lemma ReleaseSettles(a: State, b: State, id: nat, q: nat)
    requires q in a.fates && !a.fates[q].Waiting?
    requires id !in a.running ==> b == a
    requires id in a.running ==> Serves(a, b, {a.running[id].sequence})
    ensures q in b.fates && b.fates[q] == a.fates[q]
  {
  }

  class Governor {
    const limits: Limits
    var nextSequence: nat
    var nextLeaseID: nat
    var used: int
    var lowerPriorityUsed: int
    var waiters: seq<Waiter>
    var fates: map<nat, Fate>
    var running: map<nat, Running>
    var admitted: nat
    var released: nat
    var preemptions: nat
    var cancelledWaiters: nat
    var deadlineMisses: nat
    ghost var refused: nat
    const clock: nat -> int    // what the clock says each time it is read
    var ticks: nat             // how often it has been read

    ghost function View(): State reads this {
      State(limits, nextSequence, nextLeaseID, used, lowerPriorityUsed, waiters, fates, running,
            admitted, released, preemptions, cancelledWaiters, deadlineMisses, refused)
    }

    ghost predicate Valid() reads this { Sound(View(), false) }

    constructor (l: Limits, readings: nat -> int)
      requires GoodLimits(l)
      ensures Valid() && View() == Initial(l) && clock == readings && ticks == 0
    {
      limits, clock, ticks := l, readings, 0;
      nextSequence, nextLeaseID, used, lowerPriorityUsed := 0, 0, 0, 0;
      waiters, fates, running := [], map[], map[];
      admitted, released, preemptions, cancelledWaiters, deadlineMisses, refused := 0, 0, 0, 0, 0, 0;
      InitialSound(l);
    }

    /** Reads the clock once for an open waiter, and charges it with a deadline the reading has reached. */
    method Expires(index: nat) returns (expired: bool)
      requires Sound(View(), true) && index < |waiters| && Open(fates, waiters[index])
      modifies this`fates, this`deadlineMisses, this`ticks
      ensures Sound(View(), true) && ticks == old(ticks) + 1
      ensures expired == Expired(waiters[index].request, clock(old(ticks)))
      ensures View() == old(View()).(fates := fates, deadlineMisses := deadlineMisses)
      ensures fates == if expired then old(fates)[waiters[index].sequence := Cancelled(true)] else old(fates)
    {
      hide Sound, Expired;
      var now := clock(ticks);
      ticks := ticks + 1;
      expired := Expired(waiters[index].request, now);
      if expired {
        ExpireSound(View(), waiters[index]);
        fates, deadlineMisses := fates[waiters[index].sequence := Cancelled(true)], deadlineMisses + 1;
      }
    }

    /** Finds the first waiter that has not expired and fits, charging expired ones to the deadline
        counter on the way; with none, it sweeps the expired ones out of the line. */
    method FirstAdmissible() returns (index: int)
      requires Sound(View(), true)
      modifies this`fates, this`deadlineMisses, this`waiters, this`ticks
      ensures Sound(View(), index >= 0) && Aged(old(waiters), old(fates), fates) && old(ticks) <= ticks
      ensures Scanned(old(waiters), if index >= 0 then index + 1 else |old(waiters)|, old(fates), fates,
                      clock, old(ticks), ticks)
      ensures View() == old(View()).(fates := fates, deadlineMisses := deadlineMisses, waiters := waiters)
      ensures index >= 0 ==>
                && index < |waiters| && waiters == old(waiters)
                && Open(fates, waiters[index]) && Fits(limits, used, lowerPriorityUsed, waiters[index].request)
                && forall i :: 0 <= i < index ==>
                     !Open(fates, waiters[i]) || !Fits(limits, used, lowerPriorityUsed, waiters[i].request)
      ensures index < 0 ==>
                && waiters == StillOpen(old(waiters), fates)
                && forall w :: w in waiters ==> !Fits(limits, used, lowerPriorityUsed, w.request)
    {
      hide Sound, Scanned, Fits, Aged, Expired, Ordered;
      index := 0;
      SoundLine(View());
      ScanStarts(waiters, fates, clock, ticks);
      while index < |waiters|
        invariant 0 <= index <= |waiters| && Sound(View(), true) && Aged(old(waiters), old(fates), fates)
        invariant old(ticks) <= ticks && Scanned(waiters, index, old(fates), fates, clock, old(ticks), ticks)
        invariant View() == old(View()).(fates := fates, deadlineMisses := deadlineMisses)
        invariant forall i :: 0 <= i < index ==>
                    !Open(fates, waiters[i]) || !Fits(limits, used, lowerPriorityUsed, waiters[i].request)
      {
        var pending := waiters[index];
        if Open(fates, pending) {
          ghost var mid, tick := fates, ticks;
          var expired := Expires(index);
          ScanJudges(waiters, index, old(fates), mid, fates, clock, old(ticks), tick);
          if expired {
            AgedExpires(waiters, old(fates), mid, pending, clock(tick));
          } else if Fits(limits, used, lowerPriorityUsed, pending.request) {
            return;
          }
        } else {
          ScanSkips(waiters, index, old(fates), fates, clock, old(ticks), ticks);
        }
        index := index + 1;
      }
      SweepSound(View());
      waiters := StillOpen(waiters, fates);
      index := -1;
    }

    method Admit(index: nat)
      requires Sound(View(), true) && index < |waiters| && Open(fates, waiters[index])
      requires Fits(limits, used, lowerPriorityUsed, waiters[index].request)
      modifies this
      ensures Sound(View(), true) && View() == GrantAt(old(View()), index) && ticks == old(ticks)
    {
      hide Sound;
      GrantSound(View(), index);
      var pending := waiters[index];
      waiters := RemoveAt(waiters, index);
      nextLeaseID := nextLeaseID + 1;
      fates := fates[pending.sequence := Granted(nextLeaseID)];
      running := running[nextLeaseID := Running(pending.request, pending.sequence, false)];
      used := used + pending.request.cost;
      if LowerPriority(pending.request) {
        lowerPriorityUsed := lowerPriorityUsed + pending.request.cost;
      }
      admitted := admitted + 1;
    }

    /** Asks the fewest preemptible lower-class leases to stop that cover the head's shortfall. */
    method RequestPreemption() returns (ghost order: seq<Candidate>, ghost k: nat)
      requires Valid()
      modifies this`running, this`preemptions
      ensures Valid() && k <= |order|
      ensures View() == Preempt(old(View()), Ids(order, k), k)
      ensures waiters == [] || Shortfall(limits, used, lowerPriorityUsed, waiters[0].request) <= 0 ==> order == []
      ensures waiters != [] && Shortfall(limits, used, lowerPriorityUsed, waiters[0].request) > 0 ==>
                && Ranking(order, old(running), waiters[0].request)
                && MinimalPrefix(order, k, Shortfall(limits, used, lowerPriorityUsed, waiters[0].request))
    {
      hide Sound, Ranking, Shortfall;
      SoundLeases(View());
      order, k := [], 0;
      assert Flag(running, {}) == running;
      if waiters == [] { return; }
      var wanted := waiters[0].request;
      var needed := Shortfall(limits, used, lowerPriorityUsed, wanted);
      if needed <= 0 { return; }
      var after, count;
      after, count, order := ChooseVictims(running, wanted, needed);
      PreemptSound(View(), Ids(order, count), count);
      running, preemptions, k := after, preemptions + count, count;
    }

    method Schedule() returns (ghost report: Report)
      requires Valid()
      modifies this
      ensures Valid() && Serves(old(View()), View(), {}) && Scheduled(old(View()), View(), report)
      ensures old(ticks) <= ticks && AllJudged(old(waiters), fates, clock, old(ticks), ticks)
      ensures Timely(report.stages, report.grants, clock, old(ticks), ticks)
    {
      hide Sound, Serves, Scheduling, Scheduled, Aged, Ranking, MinimalPrefix, Fits, Shortfall;
      hide Judging, Scanned, Settling, AllJudged, Ordered, Within, FoundInTime, Timely;
      ghost var s0 := View();
      ghost var stages, grants := [Stage(SortBy(waiters, Ahead), used, lowerPriorityUsed)], [];
      PassBegins(s0);
      JudgingStarts(s0, clock, ticks);
      NothingTimely(stages, clock, ticks);
      waiters := SortBy(waiters, Ahead);
      while true
        invariant Scheduling(s0, View(), stages, grants) && old(ticks) <= ticks
        invariant Judging(s0.waiters, waiters, fates, clock, old(ticks), ticks) && Within(waiters, s0.waiters)
        invariant |stages| == |grants| + 1 && stages[|grants|].line == waiters
        invariant Timely(stages, grants, clock, old(ticks), ticks)
        decreases |waiters|
      {
        ghost var s, from := View(), ticks;
        SchedulingIsSound(s0, s, stages, grants);
        var index := FirstAdmissible();
        if index < 0 {
          ghost var t := View();
          EveryoneJudged(s0, s, fates, clock, old(ticks), from, ticks);
          TimelyLater(stages, grants, clock, old(ticks), from, ticks);
          ghost var order, count := RequestPreemption();
          report := Report(stages, grants, t.running, order, count);
          PassEnds(s0, s, t, stages, grants, order, count);
          return;
        }
        GrantJudges(s0, s, View(), index, clock, old(ticks), from, ticks);
        PassAges(s0, s, View(), stages, grants);
        PassGrants(s0, View(), stages, grants, index, ticks);
        ghost var g := Grant(index, ExpiredSet(fates), ticks);
        Admit(index);
        TimelyGrows(stages, grants, Stage(waiters, used, lowerPriorityUsed), g, clock, old(ticks), from);
        stages, grants := stages + [Stage(waiters, used, lowerPriorityUsed)], grants + [g];
      }
    }

    /** A new request goes to the end of the line. */
    method Join(request: Request)
      requires Valid() && Acceptable(limits, request)
      modifies this`nextSequence, this`waiters, this`fates
      ensures Valid() && View() == Enqueue(old(View()), request) && Serves(old(View()), View(), {})
      ensures Tracked(View(), nextSequence, request)
    {
      hide Sound, Serves, Tracked, Acceptable;
      EnqueueSound(View(), request);
      EnqueueServes(View(), request);
      nextSequence := nextSequence + 1;
      waiters := waiters + [Waiter(nextSequence, request)];
      fates := fates[nextSequence := Waiting];
    }

    /** The first critical section of an acquisition: refuse, count a deadline already passed, or
        join the line and schedule. */
    method Enter(request: Request) returns (entry: Entry, ghost report: Report)
      requires Valid()
      modifies this
      ensures Valid() && Serves(old(View()), View(), {})
      ensures entry.Refused? <==> !Acceptable(limits, request)
      ensures entry.Refused? ==> View() == old(View())
      ensures Acceptable(limits, request) ==> (entry.Overdue? <==> Expired(request, clock(old(ticks))))
      ensures entry.Overdue? ==> View() == Late(old(View()))
      ensures entry.Queued? ==>
                && old(ticks) < ticks
                && AllJudged(old(waiters) + [Waiter(entry.sequence, request)], fates, clock, old(ticks) + 1, ticks)
                && Timely(report.stages, report.grants, clock, old(ticks) + 1, ticks)
      ensures entry.Queued? ==>
                && entry.sequence == old(nextSequence) + 1
                && Scheduled(Enqueue(old(View()), request), View(), report)
                && Tracked(View(), entry.sequence, request)
    {
      hide Sound, Serves, Scheduled, Tracked, AllJudged, Expired, Acceptable;
      ghost var s := View();
      report := Report([], [], map[], [], 0);
      ServesReflexive(s);
      if !Acceptable(limits, request) { return Refused, report; }
      var now := clock(ticks);
      ticks := ticks + 1;
      if Expired(request, now) {
        LateKeeps(s);
        deadlineMisses, refused := deadlineMisses + 1, refused + 1;
        return Overdue, report;
      }
      Join(request);
      ghost var t := View();
      report := Schedule();
      ServesTransitive(s, t, View(), {});
      ServesTracks(t, View(), s.nextSequence + 1, request);
      ScheduledFrame(t, View(), report);
      entry := Queued(nextSequence);
    }

    /** The second critical section: the waiter gives up. A grant that raced the cancellation is
        handed back for the caller to release. */
    method CancelWaiter(sequence: nat, deadline: bool) returns (held: Option<nat>, ghost report: Report)
      requires Valid() && sequence in fates && (deadline ==> MayMiss(waiters, sequence))
      modifies this
      ensures Valid() && Serves(old(View()), View(), {})
      ensures old(fates)[sequence].Granted? ==> held == Some(old(fates)[sequence].lease)
      ensures !old(fates)[sequence].Waiting? ==> View() == old(View())
      ensures !old(fates)[sequence].Granted? ==> held.None?
      ensures old(fates)[sequence].Waiting? ==>
                && Scheduled(Withdraw(old(View()), sequence, deadline), View(), report)
                && sequence in fates && fates[sequence] == Cancelled(deadline)
                && old(ticks) <= ticks
                && AllJudged(Without(old(waiters), sequence), fates, clock, old(ticks), ticks)
                && Timely(report.stages, report.grants, clock, old(ticks), ticks)
    {
      hide Sound, Serves, Scheduled;
      ghost var s := View();
      report := Report([], [], map[], [], 0);
      held := None;
      ServesReflexive(s);
      match fates[sequence]
      case Granted(lease) => held := Some(lease);
      case Cancelled(_) =>
      case Waiting =>
        WithdrawSound(s, sequence, deadline);
        WithdrawServes(s, sequence, deadline);
        fates := fates[sequence := Cancelled(deadline)];
        waiters := Without(waiters, sequence);
        if deadline {
          deadlineMisses := deadlineMisses + 1;
        } else {
          cancelledWaiters := cancelledWaiters + 1;
        }
        ghost var t := View();
        report := Schedule();
        ServesTransitive(s, t, View(), {});
        ServesSettles(t, View(), sequence);
    }

    method Release(id: nat) returns (ghost report: Report)
      requires Valid()
      modifies this
      ensures Valid() && id !in running
      ensures id !in old(running) ==> View() == old(View())
      ensures id in old(running) ==>
                && Scheduled(Drop(old(View()), id), View(), report)
                && Serves(old(View()), View(), {old(running)[id].sequence})
                && old(ticks) <= ticks && AllJudged(old(waiters), fates, clock, old(ticks), ticks)
                && Timely(report.stages, report.grants, clock, old(ticks), ticks)
    {
      hide Sound, Serves, Scheduled;
      report := Report([], [], map[], [], 0);
      if id !in running { return; }
      ghost var s := View();
      DropSound(s, id);
      DropServes(s, id);
      var request := running[id].request;
      running := running - {id};
      used := used - request.cost;
      if LowerPriority(request) {
        lowerPriorityUsed := lowerPriorityUsed - request.cost;
      }
      released := released + 1;
      ghost var t := View();
      report := Schedule();
      ServesWiden(t, View(), {s.running[id].sequence});
      ServesTransitive(s, t, View(), {s.running[id].sequence});
      GoneStaysGone(s, t, View(), id);
    }

    /** Any number of critical sections run by other clients, in any order: they may enter, give up
        on their own tickets and release their own leases. */
    method Interfere(mine: nat)
      requires Valid() && mine in fates
      modifies this
      ensures Valid() && OthersServed(old(View()), View(), mine)
    {
      hide Sound, Serves, Scheduled, OthersServed;
      ghost var s := View();
      OthersServedReflexive(s, mine);
      var steps: nat := *;
      while steps > 0
        invariant Valid() && OthersServed(s, View(), mine)
      {
        ghost var t := View();
        var choice: nat, other: nat := *, *;
        if choice == 0 {
          var request: Request := *;
          var _, _ := Enter(request);
          OthersServedStep(s, t, View(), mine, {});
        } else if choice == 1 && other != mine && other in fates {
          var timer: bool := *;
          var _, _ := CancelWaiter(other, timer && MayMiss(waiters, other));
          OthersServedStep(s, t, View(), mine, {});
        } else if other in running && running[other].sequence != mine {
          var _ := Release(other);
          OthersServedStep(s, t, View(), mine, {t.running[other].sequence});
        }
        steps := steps - 1;
      }
    }

    /** A whole acquisition under interference. It ends with the lease it asked for, running and
        charged to it, or with nothing: no lease of its ticket runs, now or ever again. */
    method Acquire(request: Request) returns (lease: Option<nat>, ghost ticket: nat)
      requires Valid()
      modifies this
      ensures Valid()
      ensures ticket ==
                if Acceptable(limits, request) && !Expired(request, clock(old(ticks))) then old(nextSequence) + 1 else 0
      ensures ticket == 0 ==> lease.None?
      ensures lease.Some? ==>
                && lease.value in running && running[lease.value].request == request
                && running[lease.value].sequence == ticket
      ensures lease.None? ==> forall id :: id in running ==> running[id].sequence != ticket
      ensures lease.None? && ticket > 0 ==> ticket in fates && !fates[ticket].Waiting?
      ensures lease.None? && ticket > 0 && request.deadline.None? ==> fates[ticket] != Cancelled(true)
    {
      hide Sound, Serves, Scheduled, OthersServed, Tracked;
      ghost var report;
      var entry;
      ticket, lease := 0, None;
      SoundTickets(View());
      entry, report := Enter(request);
      if !entry.Queued? {
        SoundTickets(View());
        return;
      }
      ticket := entry.sequence;
      TrackedIsFated(View(), ticket, request);
      ghost var entered := View();
      Interfere(entry.sequence);
      OthersTrack(entered, View(), ticket, request);
      var ready: bool := *;
      if ready && fates[entry.sequence].Granted? {
        lease := Some(fates[entry.sequence].lease);
        return;
      }
      var timer: bool, held := *, None;
      TicketMayMiss(View(), entry.sequence, request);
      held, report := CancelWaiter(entry.sequence, timer && request.deadline.Some?);
      ghost var cancelled := View();
      Interfere(entry.sequence);
      OthersSettle(cancelled, View(), ticket);
      if held.Some? {
        ghost var s := View();
        report := Release(held.value);
        ReleaseSettles(s, View(), held.value, ticket);
      }
      NoLease(View(), ticket);
    }
  }
}
