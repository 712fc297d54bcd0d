/** What the governor's passes come to, in the terms of its documentation: classes 1 to 4, costs, the
    capacity, the reservation, and deadlines. */
module AdmissionLaws {
  import opened Prelude
  import opened Admission

  /** There is room for r: within the capacity and, for background and speculative work, outside the
      interactive reservation. */
  predicate Room(l: Limits, used: int, lower: int, r: Request) {
    used + r.cost <= l.capacity && (r.cls <= 2 ==> lower + r.cost <= l.capacity - l.reserved)
  }

  /** One request is more urgent than another: of a higher class; in one class, with an earlier deadline, any
      deadline coming before none; and otherwise first come. */
  predicate MoreUrgent(a: Waiter, b: Waiter) {
    var x, y := a.request, b.request;
    || x.cls > y.cls
    || (x.cls == y.cls && x.deadline.Some? && y.deadline.None?)
    || (x.cls == y.cls && x.deadline.Some? && y.deadline.Some? && x.deadline.value < y.deadline.value)
    || (x.cls == y.cls && x.deadline == y.deadline && a.sequence < b.sequence)
  }

  lemma AheadIsMoreUrgent(a: Waiter, b: Waiter)
    ensures Ahead(a, b) <==> MoreUrgent(a, b)
  {
  }

  /** Which requests may queue at all, and when one has missed its deadline. */
  lemma RequestsInPlainTerms(l: Limits, r: Request, now: int)
    ensures Acceptable(l, r) <==>
      && r.cls in {1, 2, 3, 4} && 1 <= r.cost <= l.capacity
      && (r.cls in {1, 2} ==> r.cost <= l.capacity - l.reserved)
    ensures Expired(r, now) <==> r.deadline.Some? && now >= r.deadline.value
    ensures GoodLimits(l) <==> 1 <= l.capacity && 0 <= l.reserved && l.reserved <= l.capacity
  {
  }

  lemma LineIsSorted(a: State)
    requires Sound(a, false)
    ensures Ordered(SortBy(a.waiters, Ahead), Ahead)
  {
    hide Sound;
    SortSound(a);
  }

  lemma {:induction false} StagesAreSorted(l: Limits, stages: seq<Stage>, grants: seq<Grant>, k: nat)
    requires Pass(l, stages, grants) && k < |stages| && Ordered(stages[0].line, Ahead)
    ensures Ordered(stages[k].line, Ahead)
  {
    if k > 0 {
      StagesAreSorted(l, stages, grants, k - 1);
      assert Picked(l, stages[k - 1], grants[k - 1], stages[k]);
      RemoveKeepsOrder(stages[k - 1].line, grants[k - 1].index);
    }
  }

  /** Each grant of a pass goes to a request there is room for, and to the most urgent one: of those in the line
      that had not expired and there was room for, nobody was more urgent. Urgent work is never passed over for
      background work that happens to be small. */
  lemma GrantGoesToMostUrgent(a: State, b: State, r: Report, k: nat, v: Waiter)
    requires Sound(a, false) && Scheduled(a, b, r) && k < |r.grants|
    ensures k < |r.stages| && r.grants[k].index < |r.stages[k].line|
    ensures var at, g := r.stages[k], r.grants[k];
      && Room(a.limits, at.used, at.lower, at.line[g.index].request) && at.line[g.index].sequence !in g.expired
      && (v in at.line && v.sequence !in g.expired && Room(a.limits, at.used, at.lower, v.request) ==>
            v == at.line[g.index] || MoreUrgent(at.line[g.index], v))
  {
    hide Sound, Gains, Ranking, MinimalPrefix, Shortfall, MoreUrgent, SortBy;
    LineIsSorted(a);
    StagesAreSorted(a.limits, r.stages, r.grants, k);
    var at, g := r.stages[k], r.grants[k];
    assert Picked(a.limits, at, g, r.stages[k + 1]);
    if v in at.line && v.sequence !in g.expired && Room(a.limits, at.used, at.lower, v.request) {
      var i :| 0 <= i < |at.line| && at.line[i] == v;
      if i != g.index { AheadIsMoreUrgent(at.line[g.index], v); }
    }
  }

  /** Whoever is left waiting after a pass is left for want of room, and they wait in order of urgency. */
  lemma LeftForWantOfRoom(a: State, b: State, r: Report)
    requires Scheduled(a, b, r)
    ensures forall w :: w in b.waiters ==> !Room(b.limits, b.used, b.lower, w.request)
    ensures forall i, j :: 0 <= i < j < |b.waiters| ==> MoreUrgent(b.waiters[i], b.waiters[j])
  {
    hide Pass, Gains, Ranking, MinimalPrefix, Shortfall, MoreUrgent, AllGranted, Decided;
    forall i, j | 0 <= i < j < |b.waiters| ensures MoreUrgent(b.waiters[i], b.waiters[j]) {
      AheadIsMoreUrgent(b.waiters[i], b.waiters[j]);
    }
  }

  /** A request without a deadline that finds nobody waiting and has room is granted at once. */
  lemma RoomIsGiven(a: State, request: Request, b: State, r: Report)
    requires a.waiters == [] && request.deadline.None? && a.nextSequence + 1 !in a.fates
    requires Room(a.limits, a.used, a.lower, request)
    requires Scheduled(Enqueue(a, request), b, r) && Tracked(b, a.nextSequence + 1, request)
    ensures var n := a.nextSequence + 1;
      && b.fates[n].Granted? && b.fates[n].lease in b.running
      && b.running[b.fates[n].lease].request == request && b.running[b.fates[n].lease].sequence == n
  {
    hide Gains, Ranking, MinimalPrefix, Shortfall;
    var s, n := Enqueue(a, request), a.nextSequence + 1;
    assert s.waiters == [Waiter(n, request)];
    LineOfOne(s.waiters[0]);
    assert s.fates[n] == Waiting;
  }

  lemma LineOfOne(w: Waiter)
    ensures SortBy([w], Ahead) == [w]
  {
    assert [w][1..] == [];
    assert SortBy([w][1..], Ahead) == [];
  }

  // ---- Preemption --------------------------------------------------------------------------

  /** Leases are asked to stop lowest class first, then the most expensive, then the newest. */
  predicate StopsBefore(a: Running, b: Running) {
    || a.request.cls < b.request.cls
    || (a.request.cls == b.request.cls && a.request.cost > b.request.cost)
    || (a.request.cls == b.request.cls && a.request.cost == b.request.cost && a.sequence > b.sequence)
  }

  /** A lease that could be asked: preemptible, of a lower class, and not yet asked. */
  predicate Askable(x: Running, wanted: Request) {
    x.request.preemptible && x.request.cls < wanted.cls && !x.preempting
  }

  lemma {:induction false} IdsAreFirst(order: seq<Candidate>, k: nat, id: nat)
    requires k <= |order|
    ensures id in Ids(order, k) <==> exists i :: 0 <= i < k && order[i].id == id
  {
    if k > 0 {
      IdsAreFirst(order, k - 1, id);
      if order[k - 1].id == id { assert order[k - 1].id == id; }
    }
  }

  /** Only leases that may be asked are asked, on behalf of the head of the line alone, and none is spared that
      should have been asked before one that was. */
  lemma AsksTheRightOnes(a: State, b: State, r: Report, id: nat, other: nat)
    requires Scheduled(a, b, r) && id in Ids(r.order, r.count)
    ensures b.waiters != [] && id in r.before && Askable(r.before[id], b.waiters[0].request)
    ensures id in b.running && b.running[id] == r.before[id].(preempting := true)
    ensures other in r.before && Askable(r.before[other], b.waiters[0].request) && other !in Ids(r.order, r.count) ==>
      StopsBefore(r.before[id], r.before[other])
  {
    hide Pass, Gains, MinimalPrefix, AllGranted, Decided, Fits, Shortfall, Costs, Ids;
    IdsAreFirst(r.order, r.count, id);
    var i :| 0 <= i < r.count && r.order[i].id == id;
    RankedMember(r.order, r.before, b.waiters[0].request, i);
    if other in r.before && Askable(r.before[other], b.waiters[0].request) && other !in Ids(r.order, r.count) {
      assert Candidate(other, r.before[other]) in r.order;
      var j :| 0 <= j < |r.order| && r.order[j] == Candidate(other, r.before[other]);
      IdsAreFirst(r.order, r.count, other);
      assert j >= r.count;
      assert SoonerVictim(r.order[i], r.order[j]);
    }
  }

  /** As many are asked as are needed: if one that could be asked is spared, the head of the line has room once
      those asked have stopped. */
  lemma AsksEnough(a: State, b: State, r: Report, other: nat)
    requires Scheduled(a, b, r) && b.waiters != [] && other in r.before && r.count <= |r.order|
    requires Askable(r.before[other], b.waiters[0].request) && other !in Ids(r.order, r.count)
    ensures var rest := b.running - Ids(r.order, r.count);
      Room(b.limits, Load(rest, b.nextLeaseID, false), Load(rest, b.nextLeaseID, true), b.waiters[0].request)
  {
    hide Pass, Gains, AllGranted, Decided, Shortfall, Costs, Ids;
    assert Candidate(other, r.before[other]) in r.order;
    var j :| 0 <= j < |r.order| && r.order[j] == Candidate(other, r.before[other]);
    IdsAreFirst(r.order, r.count, other);
    assert j >= r.count;
  }

  /** A lease that was not asked in this pass keeps the flag it had, and nothing else about any lease changes. */
  lemma AsksNobodyElse(a: State, b: State, r: Report, id: nat)
    requires Scheduled(a, b, r) && id in r.before && id !in Ids(r.order, r.count)
    ensures id in b.running && b.running[id] == r.before[id]
  {
    hide Pass, Gains, MinimalPrefix, AllGranted, Decided, Fits, Shortfall, Costs, Ids, Ranking;
  }

  /** No more are asked than are needed: without the last of them, the head of the line would still lack room
      once the others had stopped. */
  lemma AsksNoMoreThanNeeded(a: State, b: State, r: Report)
    requires Sound(b, false) && Scheduled(a, b, r) && r.count > 0
    ensures b.waiters != [] && r.count <= |r.order|
    ensures var rest := b.running - Ids(r.order, r.count - 1);
      !Room(b.limits, Load(rest, b.nextLeaseID, false), Load(rest, b.nextLeaseID, true), b.waiters[0].request)
  {
    hide Ids, Costs, Load, Flag, Ranking, MinimalPrefix, Shortfall, Sound, Scheduled;
    PassAsked(a, b, r);
    var head := b.waiters[0].request;
    LoadLeft(r.before, b.running, b.nextLeaseID, head, r.order, r.count, false);
    if LowerPriority(head) { LoadLeft(r.before, b.running, b.nextLeaseID, head, r.order, r.count, true); }
    FewerIsTooFew(r.order, r.count, Shortfall(b.limits, b.used, b.lower, head));
    ShortMeansNoRoom(b.limits, b.used, b.lower, Costs(r.order, r.count - 1), head);
  }

  /** What a pass that asked somebody to stop says of it. */
  lemma PassAsked(a: State, b: State, r: Report)
    requires Sound(b, false) && Scheduled(a, b, r) && r.count > 0
    ensures b.waiters != [] && r.count <= |r.order|
    ensures var head := b.waiters[0].request;
      && Ranking(r.order, r.before, head) && Shortfall(b.limits, b.used, b.lower, head) > 0
      && MinimalPrefix(r.order, r.count, Shortfall(b.limits, b.used, b.lower, head))
    ensures b.running == Flag(r.before, Ids(r.order, r.count))
    ensures b.used == Load(b.running, b.nextLeaseID, false) && b.lower == Load(b.running, b.nextLeaseID, true)
    ensures forall id :: id in r.before ==> 1 <= id <= b.nextLeaseID
  {
    hide Pass, Gains, AllGranted, Decided, Lined, LeasesMatch, Counted, Ranking, MinimalPrefix, Shortfall, Costs, Ids;
    hide Load, Fits;
    SoundMeans(b);
    BeforeIsNumbered(a, b, r);
  }

  lemma BeforeIsNumbered(a: State, b: State, r: Report)
    requires Sound(b, false) && Scheduled(a, b, r)
    ensures forall id :: id in r.before ==> 1 <= id <= b.nextLeaseID
  {
    hide Pass, Gains, AllGranted, Decided, Lined, LeasesMatch, Counted, Ranking, MinimalPrefix, Shortfall, Costs, Ids;
    assert forall id :: id in r.before ==> id in b.running;
  }

  /** What is left running once all but the last of those asked have stopped. */
  lemma LoadLeft(before: map<nat, Running>, after: map<nat, Running>, n: nat, wanted: Request, order: seq<Candidate>,
                 k: nat, onlyLower: bool)
    requires Ranking(order, before, wanted) && 0 < k <= |order| && after == Flag(before, Ids(order, k))
    requires forall id :: id in before ==> 1 <= id <= n
    requires onlyLower ==> LowerPriority(wanted)
    ensures Load(after - Ids(order, k - 1), n, onlyLower) == Load(after, n, onlyLower) - Costs(order, k - 1)
  {
    hide Ranking, Load, Costs, Ids;
    var ids, asked := Ids(order, k - 1), Ids(order, k);
    FlagWeighs(before, asked, n, onlyLower);
    FlagWeighs(before - ids, asked, n, onlyLower);
    assert Flag(before, asked) - ids == Flag(before - ids, asked);
    LoadWithoutVictims(before, n, wanted, order, k - 1, onlyLower);
  }

  lemma FewerIsTooFew(order: seq<Candidate>, k: nat, needed: int)
    requires MinimalPrefix(order, k, needed) && 0 < k && needed > 0
    ensures Costs(order, k - 1) < needed
  {
  }

  lemma ShortMeansNoRoom(l: Limits, used: int, lower: int, freed: int, wanted: Request)
    requires freed < Shortfall(l, used, lower, wanted)
    ensures used + wanted.cost - freed > l.capacity
      || (LowerPriority(wanted) && lower + wanted.cost - freed > l.capacity - l.reserved)
  {
  }

  /** Asking a lease to stop frees nothing yet. */
  lemma {:induction false} FlagWeighs(running: map<nat, Running>, ids: set<nat>, n: nat, onlyLower: bool)
    ensures Load(Flag(running, ids), n, onlyLower) == Load(running, n, onlyLower)
  {
    if n > 0 { FlagWeighs(running, ids, n - 1, onlyLower); }
  }
}
