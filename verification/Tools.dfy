/** Tool dispatch through the commit boundary, as a protocol.

    A thread is one call of `Dispatch` or `EmitRemote`. Its code is cut at every lock it takes, every
    ledger call it makes and every call out of the process, so a sequence of events is an
    interleaving of any number of threads with everything else that uses the ledger. */
module ToolDispatch {
  import opened Prelude
  import opened Ledgers
  import Text = AnnotationFilter

  datatype Call = Call(id: string, name: string, arguments: string)

  datatype Result = Result(callID: string, name: string, content: string)

  /** What dispatch reads from a tool's declaration. */
  datatype Spec = Spec(confirm: Confirm, local: bool, normalizes: bool, computer: bool)

  /** A committed trajectory item that is a tool call. */
  datatype Item = Item(call: Call, derived: bool)

  datatype Outcome = Returned(result: Result) | Sent | Failed

  datatype Point =
    | Entered                        // before the results map is consulted
    | Preparing                      // before Ledger.Prepare
    | Confirming                     // before confirmation is asked for
    | Refusing                       // before Ledger.Cancel
    | Queueing                       // before Ledger.Queue
    | Emitting                       // before Ledger.Emit
    | Acting                         // before the dispatcher runs
    | Completing(result: Result)     // before Ledger.Complete
    | Storing(result: Result)        // before the result is stored
    | Leaving(outcome: Outcome)      // before the call leaves inFlight
    | Done(outcome: Outcome)

  /** `created` and `granted` record, for the statements below, that this thread's own `Prepare`
      made the commitment and that its confirmation was granted. */
  datatype Thread = Thread(dispatching: bool, call: Call, spec: Spec, at: Point, created: bool, granted: bool)

  /** One external effect: a dispatcher run, or a call handed to the client. */
  datatype Effect = Effect(thread: nat, call: Call, result: Option<Result>)

  /** The answers that come from outside: the policy, the confirmer and the dispatcher. */
  datatype Answers = Answers(policy: Option<bool>, confirmed: bool, reason: string, result: Result)

  datatype World = World(
    book: Book, results: map<string, Result>, inFlight: set<string>, threads: map<nat, Thread>,
    effects: seq<Effect>, owner: map<string, nat>)

  datatype Event =
    | Begin(thread: nat, dispatching: bool, call: Call, declared: Option<Spec>, items: seq<Item>)
    | Advance(thread: nat, answers: Answers)
    | Finish(callID: string)
    | Elsewhere(op: Op)

  const INITIAL := World(EMPTY, map[], {}, map[], [], map[])

  function Id(callID: string): string { "action_" + callID }

  lemma IdIsInjective(a: string, b: string)
    ensures Id(a) == Id(b) <==> a == b
  {
    assert Id(a)[7..] == a && Id(b)[7..] == b;
  }

  predicate Authoritative(items: seq<Item>, call: Call) {
    (exists i :: 0 <= i < |items| && items[i].call == call)
    && forall i :: 0 <= i < |items| && items[i].call == call ==> !items[i].derived
  }

  method CheckAuthority(items: seq<Item>, call: Call) returns (authoritative: bool)
    ensures authoritative == Authoritative(items, call)
  {
    authoritative := false;
    for i := 0 to |items|
      invariant authoritative <==> exists j :: 0 <= j < i && items[j].call == call
      invariant forall j :: 0 <= j < i && items[j].call == call ==> !items[j].derived
    {
      if items[i].call == call {
        if items[i].derived { return false; }
        authoritative := true;
      }
    }
  }

  predicate Granted(spec: Spec, a: Answers) {
    || spec.confirm.Never?
    || (spec.confirm.Policy? && a.policy == Some(true))
    || a.confirmed
  }

  /** The checks made before anything is shared. */
  predicate Admitted(dispatching: bool, call: Call, declared: Option<Spec>, items: seq<Item>) {
    && declared.Some? && !declared.value.normalizes && (dispatching || !declared.value.local)
    && Authoritative(items, call)
  }

  // ---- The steps ---------------------------------------------------------------------------

  function Move(w: World, t: nat, at: Point): World
    requires t in w.threads
  {
    w.(threads := w.threads[t := w.threads[t].(at := at)])
  }

  /** Where a failing thread goes: only `Dispatch` holds an inFlight entry. */
  function Fail(x: Thread): Point { if x.dispatching then Leaving(Failed) else Done(Failed) }

  function Start(w: World, t: nat, dispatching: bool, call: Call, declared: Option<Spec>, items: seq<Item>): World {
    if t in w.threads then w
    else if Admitted(dispatching, call, declared, items) then
      w.(threads := w.threads[t :=
           Thread(dispatching, call, declared.value, if dispatching then Entered else Preparing, false, false)])
    else w
  }

  function Claim(w: World, t: nat): World
    requires t in w.threads
  {
    var k := w.threads[t].call.id;
    if k in w.results then Move(w, t, Done(Returned(w.results[k])))
    else if k in w.inFlight then Move(w, t, Done(Failed))
    else Move(w.(inFlight := w.inFlight + {k}), t, Preparing)
  }

  function Draft(x: Thread): Commitment {
    Commitment(Id(x.call.id), if x.spec.computer then ComputerAction else Kind.ToolCall, [], x.call.id, 0, "", "",
               x.spec.confirm, Prepared, 0, "")
  }

  function Commit(w: World, t: nat): World
    requires t in w.threads
  {
    var x := w.threads[t];
    var err := Refusal(w.book, Draft(x));
    if err.None? then
      w.(book := Apply(w.book, Prepare(Draft(x))), owner := w.owner[x.call.id := t],
         threads := w.threads[t := x.(at := Confirming, created := true)])
    else if err.value.DuplicateCall? then Move(w, t, Confirming)
    else Move(w, t, Fail(x))
  }

  function Ask(w: World, t: nat, a: Answers): World
    requires t in w.threads
  {
    var x := w.threads[t];
    if Granted(x.spec, a) then w.(threads := w.threads[t := x.(at := Queueing, granted := true)])
    else Move(w, t, Refusing)
  }

  function Refuse(w: World, t: nat, reason: string): World
    requires t in w.threads
  {
    var x := w.threads[t];
    Move(w.(book := Apply(w.book, Cancel(Id(x.call.id), reason))), t, Fail(x))
  }

  function Line(w: World, t: nat): World
    requires t in w.threads
  {
    var x := w.threads[t];
    var err := TransitionError(w.book, Id(x.call.id), Queued);
    var next := w.(book := Apply(w.book, Queue(Id(x.call.id))));
    if err.Some? && !err.value.InvalidTransition? then Move(next, t, Fail(x))
    else if x.dispatching && !x.spec.local then Move(next, t, Fail(x))
    else Move(next, t, Point.Emitting)
  }

  function Cross(w: World, t: nat): World
    requires t in w.threads
  {
    var x := w.threads[t];
    var next := w.(book := Apply(w.book, Emit(Id(x.call.id))));
    if TransitionError(w.book, Id(x.call.id), Stage.Emitting).Some? then Move(next, t, Fail(x))
    else if x.dispatching then Move(next, t, Acting)
    else Move(next.(effects := w.effects + [Effect(t, x.call, None)]), t, Done(Sent))
  }

  function Act(w: World, t: nat, r: Result): World
    requires t in w.threads
  {
    Move(w.(effects := w.effects + [Effect(t, w.threads[t].call, Some(r))]), t, Completing(r))
  }

  function Close(w: World, t: nat, r: Result): World
    requires t in w.threads
  {
    var x := w.threads[t];
    Move(w.(book := Apply(w.book, Complete(Id(x.call.id), 0))), t,
         if r.callID == x.call.id && r.name == x.call.name then Storing(r) else Leaving(Failed))
  }

  function Store(w: World, t: nat, r: Result): World
    requires t in w.threads
  {
    Move(w.(results := w.results[w.threads[t].call.id := r]), t, Leaving(Returned(r)))
  }

  function Leave(w: World, t: nat, o: Outcome): World
    requires t in w.threads
  {
    Move(w.(inFlight := w.inFlight - {w.threads[t].call.id}), t, Done(o))
  }

  function Proceed(w: World, t: nat, a: Answers): World
    requires t in w.threads
  {
    match w.threads[t].at
    case Entered => Claim(w, t)
    case Preparing => Commit(w, t)
    case Confirming => Ask(w, t, a)
    case Refusing => Refuse(w, t, a.reason)
    case Queueing => Line(w, t)
    case Emitting => Cross(w, t)
    case Acting => Act(w, t, a.result)
    case Completing(r) => Close(w, t, r)
    case Storing(r) => Store(w, t, r)
    case Leaving(o) => Leave(w, t, o)
    case Done(_) => w
  }

  function Step(w: World, e: Event): World {
    match e
    case Begin(t, dispatching, call, declared, items) => Start(w, t, dispatching, call, declared, items)
    case Advance(t, a) => if t in w.threads then Proceed(w, t, a) else w
    case Finish(k) => w.(book := Apply(w.book, Complete(Id(k), 0)))
    case Elsewhere(op) => w.(book := Apply(w.book, op))
  }

  function Run(w: World, events: seq<Event>): World
    decreases |events|
  {
    if events == [] then w else Run(Step(w, events[0]), events[1..])
  }

  /** A commitment another client may prepare: one the ledger refuses outright, one outside the names
      dispatch uses, one under the name of the blank call, or one that carries the very call its name
      stands for. */
  predicate Harmless(c: Commitment) {
    Refusal(EMPTY, c).Some? || !Reserved(c.id) || c.id == Id("") || c.id == Id(c.callID)
  }

  predicate Disciplined(e: Event) {
    e.Elsewhere? && e.op.Prepare? ==> Harmless(e.op.c)
  }

  // ---- What every step keeps ---------------------------------------------------------------

  predicate Undecided(p: Point) { p.Entered? || p.Preparing? }

  predicate Asking(p: Point) { p.Confirming? || p.Refusing? || p.Queueing? }

  predicate Cleared(p: Point) { p.Emitting? || p.Acting? || p.Completing? || p.Storing? }

  predicate Past(p: Point) { p.Completing? || p.Storing? || p.Leaving? || p.Done? }

  predicate Over(p: Point) { p.Leaving? || p.Done? }

  /** A commitment under dispatch's names was made by dispatch, for that call. */
  ghost predicate Named(w: World) {
    forall k: string :: k != "" && Id(k) in w.book.commitments ==> k in w.book.callIDs && w.book.callIDs[k] == Id(k)
  }

  ghost predicate Owned(w: World) {
    forall k: string :: k in w.owner ==>
      && Id(k) in w.book.commitments && w.owner[k] in w.threads
      && w.threads[w.owner[k]].call.id == k && w.threads[w.owner[k]].created
  }

  ghost predicate ThreadFits(w: World, t: nat, x: Thread) {
    && (x.created <==> x.call.id in w.owner && w.owner[x.call.id] == t)
    && (Undecided(x.at) ==> !x.created)
    && (Asking(x.at) && !x.created ==> x.call.id in w.book.callIDs && w.book.callIDs[x.call.id] != Id(x.call.id))
    && (Cleared(x.at) ==> x.created && x.granted)
    && (x.at.Queueing? ==> x.granted)
    && (!x.dispatching ==> Undecided(x.at) || Asking(x.at) || x.at.Emitting? || x.at.Done?)
    && (x.at.Entered? || x.at.Acting? ==> x.dispatching)
    && (x.at.Acting? ==> Crossed(w.book, Id(x.call.id)))
    && (x.at.Completing? || x.at.Storing? ==> Effect(t, x.call, Some(x.at.result)) in w.effects)
    && (x.at.Storing? ==> x.at.result.callID == x.call.id && x.at.result.name == x.call.name)
    && (Over(x.at) && x.at.outcome.Returned? ==>
          x.call.id in w.results && w.results[x.call.id] == x.at.outcome.result)
  }

  ghost predicate Fitting(w: World) { forall t :: t in w.threads ==> ThreadFits(w, t, w.threads[t]) }

  ghost predicate EffectFits(w: World, e: Effect) {
    && e.thread in w.threads && w.threads[e.thread].call == e.call && w.threads[e.thread].created
    && w.threads[e.thread].granted && Past(w.threads[e.thread].at)
    && Crossed(w.book, Id(e.call.id))
  }

  /** Every effect belongs to the thread that made the commitment, and no two to one call. */
  ghost predicate Effective(w: World) {
    && (forall i :: 0 <= i < |w.effects| ==> EffectFits(w, w.effects[i]))
    && (forall i, j :: 0 <= i < j < |w.effects| ==> w.effects[i].call.id != w.effects[j].call.id)
  }

  ghost predicate Stored(w: World) {
    forall k: string :: k in w.results ==>
      && k in w.owner && w.owner[k] in w.threads && Over(w.threads[w.owner[k]].at)
      && Effect(w.owner[k], w.threads[w.owner[k]].call, Some(w.results[k])) in w.effects
      && w.results[k].callID == k && w.results[k].name == w.threads[w.owner[k]].call.name
  }

  predicate Claimed(x: Thread) { x.dispatching && !x.at.Entered? && !x.at.Done? }

  /** At most one `Dispatch` is at work on a call, and inFlight says which calls those are. */
  ghost predicate Exclusive(w: World) {
    && (forall t :: t in w.threads && Claimed(w.threads[t]) ==> w.threads[t].call.id in w.inFlight)
    && (forall t, u :: (&& t in w.threads && u in w.threads && Claimed(w.threads[t]) && Claimed(w.threads[u])
                        && w.threads[t].call.id == w.threads[u].call.id) ==> t == u)
  }

  ghost predicate Safe(w: World) {
    Sound(w.book) && Named(w) && Owned(w) && Fitting(w) && Effective(w) && Stored(w) && Exclusive(w)
  }

  // A step that moves one thread and grows the shared state keeps what the others rely on.
  ghost predicate Grows(a: World, b: World, t: nat) {
    && t in a.threads && t in b.threads
    && (forall u :: u in b.threads <==> u in a.threads)
    && (forall u :: u in a.threads && u != t ==> b.threads[u] == a.threads[u])
    && (b.threads[t].call == a.threads[t].call && b.threads[t].dispatching == a.threads[t].dispatching)
    && Follows(a.book, b.book)
    && (forall k :: k in a.owner ==> k in b.owner && b.owner[k] == a.owner[k])
    && (forall k :: k in b.owner && k !in a.owner ==> b.owner[k] == t)
    && (forall k :: k in a.results ==> k in b.results && b.results[k] == a.results[k])
    && (forall e :: e in a.effects ==> e in b.effects)
  }

  lemma FollowsKeeps(a: Book, b: Book, id: string, k: string)
    requires Follows(a, b)
    ensures Crossed(a, id) ==> Crossed(b, id)
    ensures id in a.commitments ==> id in b.commitments
    ensures k in a.callIDs ==> k in b.callIDs && b.callIDs[k] == a.callIDs[k]
  {
  }

  lemma OthersFit(a: World, b: World, t: nat)
    requires Fitting(a) && Grows(a, b, t)
    ensures forall u :: u in b.threads && u != t ==> ThreadFits(b, u, b.threads[u])
  {
    hide Follows, Crossed, Id;
    forall u | u in b.threads && u != t ensures ThreadFits(b, u, b.threads[u]) {
      assert ThreadFits(a, u, a.threads[u]);
      FollowsKeeps(a.book, b.book, Id(a.threads[u].call.id), a.threads[u].call.id);
    }
  }

  // ---- One lemma for each invariant --------------------------------------------------------

  lemma KeysStay(b: Book, op: Op)
    requires !op.Prepare?
    ensures Apply(b, op).commitments.Keys == b.commitments.Keys && Apply(b, op).callIDs == b.callIDs
  {
    hide Owed;
  }

  lemma EnterNames(a: Book, c: Commitment, k: string)
    requires Refusal(a, c).None? && (c.id == Id(k) ==> c.callID == k)
    requires k != "" && Id(k) in a.commitments ==> k in a.callIDs && a.callIDs[k] == Id(k)
    ensures var b := Enter(a, c);
      k != "" && Id(k) in b.commitments ==> k in b.callIDs && b.callIDs[k] == Id(k)
  {
    hide Text.TrimSpace, Id;
  }

  predicate Reserved(id: string) { "action_" <= id }

  lemma NamesStay(a: World, b: World, op: Op)
    requires Named(a) && b.book == Apply(a.book, op)
    requires op.Prepare? ==> Harmless(op.c)
    ensures Named(b)
  {
    hide Refusal, Id, Reserved;
    if !op.Prepare? {
      KeysStay(a.book, op);
    } else if Refusal(a.book, op.c).None? {
      RefusedAnywhere(a.book, op.c);
      forall k: string | k != "" && Id(k) in b.book.commitments
        ensures k in b.book.callIDs && b.book.callIDs[k] == Id(k)
      {
        IdIsInjective(k, op.c.callID);
        IdIsInjective(k, "");
        IdIsReserved(k);
        EnterNames(a.book, op.c, k);
      }
    }
  }

  /** What an empty ledger refuses, every ledger refuses. */
  lemma RefusedAnywhere(b: Book, c: Commitment)
    requires Refusal(b, c).None?
    ensures Refusal(EMPTY, c).None?
  {
    hide Text.TrimSpace;
  }

  lemma IdIsReserved(k: string)
    ensures Reserved(Id(k))
  {
  }

  /** A thread moves forward only. */
  predicate Forward(x: Thread, y: Thread) {
    && (x.created ==> y.created) && (x.granted ==> y.granted)
    && (Past(x.at) ==> Past(y.at)) && (Over(x.at) ==> Over(y.at))
  }

  lemma OwnersStay(a: World, b: World, t: nat)
    requires Owned(a) && Grows(a, b, t) && Forward(a.threads[t], b.threads[t])
    requires forall k :: k in b.owner && k !in a.owner ==>
      k == b.threads[t].call.id && b.threads[t].created && Id(k) in b.book.commitments
    ensures Owned(b)
  {
    hide Follows, Id, Past, Over;
    forall k: string | k in b.owner
      ensures && Id(k) in b.book.commitments && b.owner[k] in b.threads
              && b.threads[b.owner[k]].call.id == k && b.threads[b.owner[k]].created
    {
      FollowsKeeps(a.book, b.book, Id(k), k);
    }
  }

  lemma EffectStays(a: World, b: World, t: nat, e: Effect)
    requires EffectFits(a, e) && Grows(a, b, t) && Forward(a.threads[t], b.threads[t])
    ensures EffectFits(b, e)
  {
    hide Follows, Id, Past, Over, Crossed;
    FollowsKeeps(a.book, b.book, Id(e.call.id), "");
  }

  lemma EffectsStay(a: World, b: World, t: nat)
    requires Effective(a) && Grows(a, b, t) && Forward(a.threads[t], b.threads[t]) && b.effects == a.effects
    ensures Effective(b)
  {
    hide Grows, Forward, EffectFits;
    forall i | 0 <= i < |b.effects| ensures EffectFits(b, b.effects[i]) { EffectStays(a, b, t, a.effects[i]); }
  }

  lemma EffectIsFirst(a: World, t: nat, e: Effect)
    requires Fitting(a) && t in a.threads && a.threads[t].created && !Past(a.threads[t].at)
    requires EffectFits(a, e)
    ensures e.call.id != a.threads[t].call.id
  {
    hide Id, Crossed;
    assert ThreadFits(a, t, a.threads[t]);
    assert ThreadFits(a, e.thread, a.threads[e.thread]);
  }

  lemma EffectAdded(a: World, b: World, t: nat, e: Effect)
    requires Effective(a) && Fitting(a) && Grows(a, b, t) && Forward(a.threads[t], b.threads[t])
    requires a.threads[t].created && !Past(a.threads[t].at)
    requires b.effects == a.effects + [e] && EffectFits(b, e) && e.call == a.threads[t].call
    ensures Effective(b)
  {
    hide Forward, EffectFits, Fitting, Past, Follows;
    forall i | 0 <= i < |b.effects| ensures EffectFits(b, b.effects[i]) {
      if i < |a.effects| { EffectStays(a, b, t, a.effects[i]); }
    }
    forall i | 0 <= i < |a.effects| ensures a.effects[i].call.id != e.call.id {
      EffectIsFirst(a, t, a.effects[i]);
    }
  }

  lemma ResultsStay(a: World, b: World, t: nat)
    requires Stored(a) && Grows(a, b, t) && Forward(a.threads[t], b.threads[t])
    requires b.results == a.results
    ensures Stored(b)
  {
    hide Follows, Past, Over;
    forall k: string | k in b.results
      ensures && k in b.owner && b.owner[k] in b.threads && Over(b.threads[b.owner[k]].at)
              && Effect(b.owner[k], b.threads[b.owner[k]].call, Some(b.results[k])) in b.effects
              && b.results[k].callID == k && b.results[k].name == b.threads[b.owner[k]].call.name
    {
    }
  }

  lemma ResultAdded(a: World, b: World, t: nat, r: Result)
    requires Stored(a) && Grows(a, b, t) && Forward(a.threads[t], b.threads[t]) && Over(b.threads[t].at)
    requires var k := a.threads[t].call.id;
      k in b.owner && b.owner[k] == t && b.results == a.results[k := r]
    requires Effect(t, b.threads[t].call, Some(r)) in b.effects
    requires r.callID == b.threads[t].call.id && r.name == b.threads[t].call.name
    ensures Stored(b)
  {
    hide Follows, Past, Over;
    forall k: string | k in b.results
      ensures && k in b.owner && b.owner[k] in b.threads && Over(b.threads[b.owner[k]].at)
              && Effect(b.owner[k], b.threads[b.owner[k]].call, Some(b.results[k])) in b.effects
              && b.results[k].callID == k && b.results[k].name == b.threads[b.owner[k]].call.name
    {
    }
  }

  /** Nothing but thread t has moved, and t is still the same call of the same method. */
  ghost predicate OnlyMoves(a: World, b: World, t: nat) {
    && t in a.threads && t in b.threads && (forall u :: u in b.threads <==> u in a.threads)
    && (forall u :: u in a.threads && u != t ==> b.threads[u] == a.threads[u])
    && b.threads[t].call == a.threads[t].call && b.threads[t].dispatching == a.threads[t].dispatching
  }

  lemma ExclusionStays(a: World, b: World, t: nat)
    requires Exclusive(a) && OnlyMoves(a, b, t)
    requires var k := a.threads[t].call.id;
      || (b.inFlight == a.inFlight && (Claimed(b.threads[t]) ==> Claimed(a.threads[t])))
      || (b.inFlight == a.inFlight + {k} && k !in a.inFlight)
      || (b.inFlight == a.inFlight - {k} && Claimed(a.threads[t]) && !Claimed(b.threads[t]))
    ensures Exclusive(b)
  {
    hide Follows;
  }

  lemma FittingStays(a: World, b: World, t: nat)
    requires Fitting(a) && Grows(a, b, t) && ThreadFits(b, t, b.threads[t])
    ensures Fitting(b)
  {
    hide ThreadFits, Grows;
    OthersFit(a, b, t);
    assert forall u :: u in b.threads && u != t ==> ThreadFits(b, u, b.threads[u]);
  }

  ghost predicate FlightFits(a: World, b: World, t: nat)
    requires t in a.threads && t in b.threads
  {
    var k := a.threads[t].call.id;
    || (b.inFlight == a.inFlight && (Claimed(b.threads[t]) ==> Claimed(a.threads[t])))
    || (b.inFlight == a.inFlight + {k} && k !in a.inFlight)
    || (b.inFlight == a.inFlight - {k} && Claimed(a.threads[t]) && !Claimed(b.threads[t]))
  }

  /** What a step of thread t must show, apart from effects and results. */
  ghost predicate Moves(a: World, b: World, t: nat) {
    && Grows(a, b, t) && Forward(a.threads[t], b.threads[t]) && ThreadFits(b, t, b.threads[t])
    && Sound(b.book) && Named(b) && FlightFits(a, b, t)
    && (forall k :: k in b.owner && k !in a.owner ==>
          k == b.threads[t].call.id && b.threads[t].created && Id(k) in b.book.commitments)
  }

  lemma MovesKeeps(a: World, b: World, t: nat)
    requires Safe(a) && Moves(a, b, t)
    ensures Owned(b) && Fitting(b) && Exclusive(b)
  {
    hide Sound, Named, Forward, ThreadFits, Id, Effective, Stored;
    OwnersStay(a, b, t);
    FittingStays(a, b, t);
    ExclusionStays(a, b, t);
  }

  lemma QuietKeeps(a: World, b: World, t: nat)
    requires Safe(a) && Moves(a, b, t) && b.effects == a.effects && b.results == a.results
    ensures Safe(b)
  {
    hide Sound, Named, Owned, Fitting, Effective, Stored, Exclusive, Forward, ThreadFits, Id, FlightFits, Grows;
    MovesKeeps(a, b, t);
    EffectsStay(a, b, t);
    ResultsStay(a, b, t);
  }

  lemma FitsAt(a: World, t: nat)
    requires Safe(a) && t in a.threads
    ensures ThreadFits(a, t, a.threads[t])
  {
    hide Sound, Named, Owned, Effective, Stored, Exclusive, ThreadFits;
  }

  lemma MoveGrows(a: World, b: World, t: nat, y: Thread)
    requires t in a.threads && b.threads == a.threads[t := y]
    requires y.call == a.threads[t].call && y.dispatching == a.threads[t].dispatching
    requires Follows(a.book, b.book)
    requires b.owner == a.owner || (y.call.id !in a.owner && b.owner == a.owner[y.call.id := t])
    requires b.results == a.results || (y.call.id !in a.results && b.results.Keys == a.results.Keys + {y.call.id}
                                        && forall k :: k in a.results ==> b.results[k] == a.results[k])
    requires a.effects <= b.effects
    ensures Grows(a, b, t)
  {
    hide Follows;
  }

  lemma ClaimKeeps(a: World, t: nat)
    requires Safe(a) && t in a.threads && a.threads[t].at.Entered?
    ensures Safe(Claim(a, t)) && Grows(a, Claim(a, t), t)
  {
    hide Sound, Owned, Effective, Stored, Exclusive, Named, Fitting, Id, Follows, Grows;
    var b := Claim(a, t);
    FitsAt(a, t);
    FollowsReflexive(a.book);
    NamedSame(a, b);
    MoveGrows(a, b, t, b.threads[t]);
    QuietKeeps(a, b, t);
  }

  lemma AskKeeps(a: World, t: nat, answers: Answers)
    requires Safe(a) && t in a.threads && a.threads[t].at.Confirming?
    ensures Safe(Ask(a, t, answers)) && Grows(a, Ask(a, t, answers), t)
  {
    hide Sound, Owned, Effective, Stored, Exclusive, Named, Fitting, Id, Follows, Grows;
    var b := Ask(a, t, answers);
    FitsAt(a, t);
    FollowsReflexive(a.book);
    NamedSame(a, b);
    MoveGrows(a, b, t, b.threads[t]);
    QuietKeeps(a, b, t);
  }

  lemma LeaveKeeps(a: World, t: nat)
    requires Safe(a) && t in a.threads && a.threads[t].at.Leaving?
    ensures Safe(Leave(a, t, a.threads[t].at.outcome)) && Grows(a, Leave(a, t, a.threads[t].at.outcome), t)
  {
    hide Sound, Owned, Effective, Stored, Exclusive, Named, Fitting, Id, Follows, Grows;
    var b := Leave(a, t, a.threads[t].at.outcome);
    FitsAt(a, t);
    FollowsReflexive(a.book);
    NamedSame(a, b);
    MoveGrows(a, b, t, b.threads[t]);
    QuietKeeps(a, b, t);
  }

  lemma BookMoves(a: World, b: World, op: Op)
    requires Safe(a) && b.book == Apply(a.book, op) && !op.Prepare?
    ensures Sound(b.book) && Named(b) && Follows(a.book, b.book)
    ensures b.book.callIDs == a.book.callIDs
    ensures forall id :: Crossed(a.book, id) ==> Crossed(b.book, id)
  {
    hide Sound, Owned, Fitting, Effective, Stored, Exclusive, Named, Id, Follows, Apply, Crossed;
    ApplyKeeps(a.book, op);
    ApplyFollows(a.book, op);
    NamesStay(a, b, op);
    KeysStay(a.book, op);
    forall id | Crossed(a.book, id) ensures Crossed(b.book, id) { FollowsKeeps(a.book, b.book, id, ""); }
  }

  lemma RefuseKeeps(a: World, t: nat, reason: string)
    requires Safe(a) && t in a.threads && a.threads[t].at.Refusing?
    ensures Safe(Refuse(a, t, reason)) && Grows(a, Refuse(a, t, reason), t)
  {
    hide Sound, Owned, Effective, Stored, Exclusive, Named, Fitting, Id, Follows, Grows, Apply, Crossed;
    var b := Refuse(a, t, reason);
    FitsAt(a, t);
    BookMoves(a, b, Cancel(Id(a.threads[t].call.id), reason));
    MoveGrows(a, b, t, b.threads[t]);
    QuietKeeps(a, b, t);
  }

  lemma CloseKeeps(a: World, t: nat)
    requires Safe(a) && t in a.threads && a.threads[t].at.Completing?
    ensures Safe(Close(a, t, a.threads[t].at.result)) && Grows(a, Close(a, t, a.threads[t].at.result), t)
  {
    hide Sound, Owned, Effective, Stored, Exclusive, Named, Fitting, Id, Follows, Grows, Apply, Crossed;
    var b := Close(a, t, a.threads[t].at.result);
    FitsAt(a, t);
    BookMoves(a, b, Complete(Id(a.threads[t].call.id), 0));
    MoveGrows(a, b, t, b.threads[t]);
    QuietKeeps(a, b, t);
  }

  /** A thread that did not make the commitment itself finds no commitment to queue. */
  lemma NothingToQueue(a: World, t: nat)
    requires Safe(a) && t in a.threads && a.threads[t].at.Queueing? && !a.threads[t].created
    ensures TransitionError(a.book, Id(a.threads[t].call.id), Queued) == Some(UnknownCommitment)
  {
    hide Owned, Effective, Stored, Exclusive, Fitting, Id;
    hide Text.TrimSpace, Filed, Owing;
    FitsAt(a, t);
  }

  lemma LineKeeps(a: World, t: nat)
    requires Safe(a) && t in a.threads && a.threads[t].at.Queueing?
    ensures Safe(Line(a, t)) && Grows(a, Line(a, t), t)
  {
    hide Sound, Owned, Effective, Stored, Exclusive, Named, Fitting, Id, Follows, Grows, Apply, Crossed,
      TransitionError;
    var b := Line(a, t);
    FitsAt(a, t);
    BookMoves(a, b, Queue(Id(a.threads[t].call.id)));
    if !a.threads[t].created { NothingToQueue(a, t); }
    MoveGrows(a, b, t, b.threads[t]);
    QuietKeeps(a, b, t);
  }

  lemma NamedSame(a: World, b: World)
    requires Named(a) && b.book == a.book
    ensures Named(b)
  {
    hide Id;
  }

  lemma CommitKeeps(a: World, t: nat)
    requires Safe(a) && t in a.threads && a.threads[t].at.Preparing?
    ensures Safe(Commit(a, t)) && Grows(a, Commit(a, t), t)
  {
    hide Sound, Owned, Effective, Stored, Exclusive, Named, Fitting, Id, Follows, Grows, Apply, Crossed, Refusal;
    var b := Commit(a, t);
    var x := a.threads[t];
    FitsAt(a, t);
    if Refusal(a.book, Draft(x)).None? {
      CommitsNew(a, t);
      ApplyKeeps(a.book, Prepare(Draft(x)));
      ApplyFollows(a.book, Prepare(Draft(x)));
      NamesStay(a, b, Prepare(Draft(x)));
    } else {
      TakenElsewhere(a, t);
      FollowsReflexive(a.book);
      NamedSame(a, b);
    }
    MoveGrows(a, b, t, b.threads[t]);
    QuietKeeps(a, b, t);
  }

  lemma CommitsNew(a: World, t: nat)
    requires Safe(a) && t in a.threads && Refusal(a.book, Draft(a.threads[t])).None?
    ensures a.threads[t].call.id !in a.owner
    ensures Id(a.threads[t].call.id) in Commit(a, t).book.commitments
  {
    hide Sound, Effective, Stored, Exclusive, Named, Fitting, Id, Text.TrimSpace;
  }

  lemma TakenElsewhere(a: World, t: nat)
    requires Safe(a) && t in a.threads
    ensures var x := a.threads[t];
      var err := Refusal(a.book, Draft(x));
      err.Some? && err.value.DuplicateCall? ==>
        x.call.id in a.book.callIDs && a.book.callIDs[x.call.id] != Id(x.call.id)
  {
    hide Owned, Effective, Stored, Exclusive, Named, Fitting, Id, Text.TrimSpace, Filed, Owing;
  }

  lemma CrossKeeps(a: World, t: nat)
    requires Safe(a) && t in a.threads && a.threads[t].at.Emitting?
    ensures Safe(Cross(a, t)) && Grows(a, Cross(a, t), t)
  {
    hide Sound, Owned, Effective, Stored, Exclusive, Named, Fitting, Id, Follows, Grows, Apply, Crossed,
      TransitionError;
    var b := Cross(a, t);
    var x := a.threads[t];
    FitsAt(a, t);
    BookMoves(a, b, Emit(Id(x.call.id)));
    EmitCrosses(a.book, Id(x.call.id));
    MoveGrows(a, b, t, b.threads[t]);
    if b.effects == a.effects {
      QuietKeeps(a, b, t);
    } else {
      MovesKeeps(a, b, t);
      EffectAdded(a, b, t, Effect(t, x.call, None));
      ResultsStay(a, b, t);
    }
  }

  lemma ActKeeps(a: World, t: nat, r: Result)
    requires Safe(a) && t in a.threads && a.threads[t].at.Acting?
    ensures Safe(Act(a, t, r)) && Grows(a, Act(a, t, r), t)
  {
    hide Sound, Owned, Effective, Stored, Exclusive, Named, Fitting, Id, Follows, Grows, Crossed;
    var b := Act(a, t, r);
    FitsAt(a, t);
    FollowsReflexive(a.book);
    NamedSame(a, b);
    MoveGrows(a, b, t, b.threads[t]);
    var e := Effect(t, a.threads[t].call, Some(r));
    assert b.effects[|a.effects|] == e;
    MovesKeeps(a, b, t);
    EffectAdded(a, b, t, e);
    ResultsStay(a, b, t);
  }

  lemma NotYetStored(a: World, t: nat)
    requires Safe(a) && t in a.threads && a.threads[t].created && !Over(a.threads[t].at)
    ensures a.threads[t].call.id !in a.results
  {
    hide Sound, Owned, Effective, Exclusive, Named, Fitting, Id;
    FitsAt(a, t);
  }

  lemma StoreKeeps(a: World, t: nat)
    requires Safe(a) && t in a.threads && a.threads[t].at.Storing?
    ensures Safe(Store(a, t, a.threads[t].at.result)) && Grows(a, Store(a, t, a.threads[t].at.result), t)
  {
    hide Sound, Owned, Effective, Stored, Exclusive, Named, Fitting, Id, Follows, Grows, Crossed;
    var r := a.threads[t].at.result;
    var b := Store(a, t, r);
    FitsAt(a, t);
    NotYetStored(a, t);
    FollowsReflexive(a.book);
    NamedSame(a, b);
    MoveGrows(a, b, t, b.threads[t]);
    MovesKeeps(a, b, t);
    EffectsStay(a, b, t);
    ResultAdded(a, b, t, r);
  }

  lemma ProceedKeeps(a: World, t: nat, answers: Answers)
    requires Safe(a) && t in a.threads
    ensures Safe(Proceed(a, t, answers)) && Grows(a, Proceed(a, t, answers), t)
  {
    hide Safe, Grows, Claim, Commit, Ask, Refuse, Line, Cross, Act, Close, Store, Leave;
    match a.threads[t].at
    case Entered => ClaimKeeps(a, t);
    case Preparing => CommitKeeps(a, t);
    case Confirming => AskKeeps(a, t, answers);
    case Refusing => RefuseKeeps(a, t, answers.reason);
    case Queueing => LineKeeps(a, t);
    case Emitting => CrossKeeps(a, t);
    case Acting => ActKeeps(a, t, answers.result);
    case Completing(r) => CloseKeeps(a, t);
    case Storing(r) => StoreKeeps(a, t);
    case Leaving(o) => LeaveKeeps(a, t);
    case Done(_) => StandsStill(a, t);
  }

  lemma StandsStill(a: World, t: nat)
    requires t in a.threads
    ensures Grows(a, a, t)
  {
    hide Follows;
    FollowsReflexive(a.book);
  }

  // ---- Whole runs --------------------------------------------------------------------------

  /** What a later state remembers of an earlier one. */
  ghost predicate Remembers(a: World, b: World) {
    && (forall k :: k in a.results ==> k in b.results && b.results[k] == a.results[k])
    && (forall e :: e in a.effects ==> e in b.effects)
  }

  /** Nothing about the threads there were has changed, and the shared state has only grown. */
  ghost predicate Extends(a: World, b: World) {
    && (forall u :: u in a.threads ==> u in b.threads && b.threads[u] == a.threads[u])
    && Follows(a.book, b.book) && b.owner == a.owner && b.results == a.results && b.effects == a.effects
    && b.inFlight == a.inFlight
  }

  ghost predicate Newcomer(a: World, b: World, u: nat) {
    u in b.threads && u !in a.threads ==>
      && !b.threads[u].created && Undecided(b.threads[u].at)
      && (b.threads[u].at.Entered? <==> b.threads[u].dispatching)
  }

  lemma ExtendedOwned(a: World, b: World)
    requires Owned(a) && Extends(a, b)
    ensures Owned(b)
  {
    hide Id, Follows;
    forall k: string | k in b.owner
      ensures && Id(k) in b.book.commitments && b.owner[k] in b.threads
              && b.threads[b.owner[k]].call.id == k && b.threads[b.owner[k]].created
    {
      FollowsKeeps(a.book, b.book, Id(k), k);
    }
  }

  lemma ExtendedFitting(a: World, b: World)
    requires Owned(a) && Fitting(a) && Extends(a, b) && forall u :: Newcomer(a, b, u)
    ensures Fitting(b)
  {
    hide Id, Follows, Crossed;
    forall u | u in b.threads ensures ThreadFits(b, u, b.threads[u]) {
      if u in a.threads {
        assert ThreadFits(a, u, a.threads[u]);
        FollowsKeeps(a.book, b.book, Id(a.threads[u].call.id), a.threads[u].call.id);
      } else {
        assert Newcomer(a, b, u);
      }
    }
  }

  lemma ExtendedEffective(a: World, b: World)
    requires Effective(a) && Extends(a, b)
    ensures Effective(b)
  {
    hide Id, Follows, Crossed;
    forall i | 0 <= i < |b.effects| ensures EffectFits(b, b.effects[i]) {
      assert EffectFits(a, a.effects[i]);
      FollowsKeeps(a.book, b.book, Id(a.effects[i].call.id), "");
    }
  }

  lemma ExtendedStored(a: World, b: World)
    requires Stored(a) && Extends(a, b)
    ensures Stored(b)
  {
    hide Follows;
  }

  lemma ExtendedExclusive(a: World, b: World)
    requires Exclusive(a) && Extends(a, b) && forall u :: Newcomer(a, b, u)
    ensures Exclusive(b)
  {
    hide Follows;
    assert forall u :: u in b.threads && Claimed(b.threads[u]) && Newcomer(a, b, u) ==> u in a.threads;
  }

  lemma ExtendsKeeps(a: World, b: World)
    requires Safe(a) && Extends(a, b) && (forall u :: Newcomer(a, b, u)) && Sound(b.book) && Named(b)
    ensures Safe(b)
  {
    hide Sound, Named, Owned, Fitting, Effective, Stored, Exclusive, Extends, Newcomer;
    ExtendedOwned(a, b);
    ExtendedFitting(a, b);
    ExtendedEffective(a, b);
    ExtendedStored(a, b);
    ExtendedExclusive(a, b);
  }

  lemma StartKeeps(a: World, t: nat, dispatching: bool, call: Call, declared: Option<Spec>, items: seq<Item>)
    requires Safe(a)
    ensures var b := Start(a, t, dispatching, call, declared, items); Safe(b) && Extends(a, b)
  {
    hide Sound, Named, Owned, Fitting, Effective, Stored, Exclusive, Follows, Admitted;
    var b := Start(a, t, dispatching, call, declared, items);
    FollowsReflexive(a.book);
    NamedSame(a, b);
    ExtendsKeeps(a, b);
  }

  lemma BookKeeps(a: World, op: Op)
    requires Safe(a) && Disciplined(Elsewhere(op))
    ensures var b := a.(book := Apply(a.book, op)); Safe(b) && Extends(a, b)
  {
    hide Sound, Named, Owned, Fitting, Effective, Stored, Exclusive, Follows, Apply, Reserved;
    var b := a.(book := Apply(a.book, op));
    ApplyKeeps(a.book, op);
    ApplyFollows(a.book, op);
    NamesStay(a, b, op);
    ExtendsKeeps(a, b);
  }

  lemma StepKeeps(a: World, e: Event)
    requires Safe(a) && Disciplined(e)
    ensures Safe(Step(a, e)) && Remembers(a, Step(a, e))
  {
    hide Safe, Apply, Start, Proceed, Follows, Reserved;
    match e
    case Begin(t, dispatching, call, declared, items) => StartKeeps(a, t, dispatching, call, declared, items);
    case Advance(t, answers) => if t in a.threads { ProceedKeeps(a, t, answers); }
    case Finish(k) => BookKeeps(a, Complete(Id(k), 0));
    case Elsewhere(op) => BookKeeps(a, op);
  }

  lemma {:induction false} RunKeeps(a: World, events: seq<Event>)
    requires Safe(a) && forall i :: 0 <= i < |events| ==> Disciplined(events[i])
    ensures Safe(Run(a, events)) && Remembers(a, Run(a, events))
    decreases |events|
  {
    hide Safe, Step, Disciplined;
    if events != [] {
      StepKeeps(a, events[0]);
      RunKeeps(Step(a, events[0]), events[1..]);
    }
  }

  lemma InitialIsSafe()
    ensures Safe(INITIAL)
  {
    EmptyIsSound();
  }

  /** Over every interleaving, a call identity causes at most one external effect, counting local
      dispatch and remote emission together. */
  lemma AtMostOneEffect(events: seq<Event>, i: nat, j: nat)
    requires forall i :: 0 <= i < |events| ==> Disciplined(events[i])
    ensures var w := Run(INITIAL, events);
      i < j < |w.effects| ==> w.effects[i].call.id != w.effects[j].call.id
  {
    hide Sound, Named, Owned, Fitting, Stored, Exclusive, Run, Disciplined, EffectFits;
    InitialIsSafe();
    RunKeeps(INITIAL, events);
  }

  /** Every effect belongs to a thread whose own `Prepare` made the commitment, and the ledger says that
      commitment crossed. */
  lemma EffectsAreCommitted(events: seq<Event>, i: nat)
    requires forall i :: 0 <= i < |events| ==> Disciplined(events[i])
    ensures var w := Run(INITIAL, events);
      i < |w.effects| ==>
        var e := w.effects[i];
        && e.thread in w.threads && w.threads[e.thread].call == e.call
        && w.threads[e.thread].created && Crossed(w.book, Id(e.call.id))
  {
    hide Sound, Named, Owned, Fitting, Stored, Exclusive, Run, Disciplined, Crossed, Id;
    InitialIsSafe();
    RunKeeps(INITIAL, events);
    assert i < |Run(INITIAL, events).effects| ==> EffectFits(Run(INITIAL, events), Run(INITIAL, events).effects[i]);
  }

  // ---- Authority and confirmation, traced to the events ------------------------------------

  /** Event i admitted this thread: the tool was declared and the call was in the log with authority. */
  ghost predicate BeganAt(events: seq<Event>, i: int, t: nat, x: Thread) {
    && 0 <= i < |events| && events[i].Begin? && events[i].thread == t && events[i].dispatching == x.dispatching
    && events[i].call == x.call && events[i].declared == Some(x.spec)
    && Admitted(x.dispatching, x.call, Some(x.spec), events[i].items)
  }

  /** At event j the thread was about to ask for confirmation, and the answer granted it. */
  ghost predicate GrantedAt(events: seq<Event>, j: int, t: nat, x: Thread) {
    && 0 <= j < |events| && events[j].Advance? && events[j].thread == t && Granted(x.spec, events[j].answers)
    && var w := Run(INITIAL, events[..j]); t in w.threads && w.threads[t].at.Confirming?
  }

  /** At event j the thread's own `Prepare` made a commitment. */
  ghost predicate CreatedAt(events: seq<Event>, j: int, t: nat, x: Thread) {
    && 0 <= j < |events| && events[j].Advance? && events[j].thread == t
    && var w := Run(INITIAL, events[..j]);
       t in w.threads && w.threads[t].at.Preparing? && Refusal(w.book, Draft(x)).None?
  }

  ghost predicate Began(events: seq<Event>, n: int, t: nat, x: Thread) { exists i :: i < n && BeganAt(events, i, t, x) }

  ghost predicate WasGranted(events: seq<Event>, n: int, t: nat, x: Thread) {
    exists j :: j < n && GrantedAt(events, j, t, x)
  }

  ghost predicate WasCreated(events: seq<Event>, n: int, t: nat, x: Thread) {
    exists j :: j < n && CreatedAt(events, j, t, x)
  }

  /** Past asking, the confirmation was granted; and only a tool with a dispatcher is dispatched here. */
  predicate Allowed(x: Thread) {
    && (x.at.Queueing? || Cleared(x.at) ==> x.granted)
    && (x.dispatching && Cleared(x.at) ==> x.spec.local)
    && (x.at.Acting? ==> x.dispatching)
  }

  /** Everything the thread claims happened, among the first n events. */
  ghost predicate Traced(events: seq<Event>, n: int, t: nat, x: Thread) {
    && Began(events, n, t, x) && Allowed(x)
    && (x.granted ==> WasGranted(events, n, t, x))
    && (x.created ==> WasCreated(events, n, t, x))
  }

  /** How event e may change thread t from x to y. */
  predicate Alters(w: World, e: Event, t: nat, x: Thread, y: Thread) {
    && y.call == x.call && y.spec == x.spec && y.dispatching == x.dispatching && (Allowed(x) ==> Allowed(y))
    && (y.granted && !x.granted ==> x.at.Confirming? && e.Advance? && e.thread == t && Granted(x.spec, e.answers))
    && (y.created && !x.created ==>
          x.at.Preparing? && e.Advance? && e.thread == t && Refusal(w.book, Draft(x)).None?)
  }

  /** What one section of thread t does to the threads and the effects. */
  ghost predicate Acts(w: World, b: World, e: Event, t: nat)
    requires t in w.threads
  {
    && t in b.threads && b.threads == w.threads[t := b.threads[t]] && Alters(w, e, t, w.threads[t], b.threads[t])
    && (b.effects == w.effects
        || (&& (w.threads[t].at.Emitting? || w.threads[t].at.Acting?)
            && exists r :: && b.effects == w.effects + [Effect(t, w.threads[t].call, r)]
                           && (r.Some? <==> w.threads[t].at.Acting?)
                           && (w.threads[t].at.Emitting? ==> !w.threads[t].dispatching)))
  }

  lemma ClaimActs(w: World, t: nat, a: Answers)
    requires t in w.threads && w.threads[t].at.Entered?
    ensures Acts(w, Claim(w, t), Advance(t, a), t)
  {
    hide Refusal, Granted, Draft;
  }

  lemma CommitActs(w: World, t: nat, a: Answers)
    requires t in w.threads && w.threads[t].at.Preparing?
    ensures Acts(w, Commit(w, t), Advance(t, a), t)
  {
    hide Apply, Refusal, Granted, Draft;
  }

  lemma AskingActs(w: World, t: nat, a: Answers)
    requires t in w.threads && Asking(w.threads[t].at)
    ensures Acts(w, Proceed(w, t, a), Advance(t, a), t)
  {
    hide Apply, Refusal, TransitionError, Granted, Draft, Id, Claim, Commit, Cross, Act, Close, Store, Leave;
  }

  lemma ClearedActs(w: World, t: nat, a: Answers)
    requires t in w.threads && Cleared(w.threads[t].at)
    ensures Acts(w, Proceed(w, t, a), Advance(t, a), t)
  {
    hide Apply, Refusal, TransitionError, Granted, Draft, Id, Claim, Commit, Ask, Refuse, Line, Leave;
  }

  lemma OverActs(w: World, t: nat, a: Answers)
    requires t in w.threads && Over(w.threads[t].at)
    ensures Acts(w, Proceed(w, t, a), Advance(t, a), t)
  {
    hide Apply, Refusal, Granted, Draft, Id, Claim, Commit, Ask, Refuse, Line, Cross, Act, Close, Store;
  }

  lemma ProceedIs(w: World, t: nat, a: Answers)
    requires t in w.threads
    ensures w.threads[t].at.Entered? ==> Proceed(w, t, a) == Claim(w, t)
    ensures w.threads[t].at.Preparing? ==> Proceed(w, t, a) == Commit(w, t)
  {
    hide Claim, Commit;
  }

  lemma ProceedActs(w: World, t: nat, a: Answers)
    requires t in w.threads
    ensures Acts(w, Proceed(w, t, a), Advance(t, a), t)
  {
    hide Proceed, Acts;
    var at := w.threads[t].at;
    if at.Entered? {
      ClaimActs(w, t, a);
      ProceedIs(w, t, a);
    } else if at.Preparing? {
      CommitActs(w, t, a);
      ProceedIs(w, t, a);
    } else if Asking(at) {
      AskingActs(w, t, a);
    } else if Cleared(at) {
      ClearedActs(w, t, a);
    } else {
      OverActs(w, t, a);
    }
  }

  lemma TracedAdvance(w: World, e: Event, t: nat)
    requires e.Advance? && t in Step(w, e).threads
    ensures t in w.threads && Alters(w, e, t, w.threads[t], Step(w, e).threads[t])
  {
    hide Proceed, Alters;
    AltersReflexive(w, e, t);
    if e.thread in w.threads { ProceedActs(w, e.thread, e.answers); }
  }

  lemma AltersReflexive(w: World, e: Event, t: nat)
    ensures t in w.threads ==> Alters(w, e, t, w.threads[t], w.threads[t])
  {
  }

  lemma RunStep(events: seq<Event>, n: nat)
    requires n < |events|
    ensures Run(INITIAL, events[..n + 1]) == Step(Run(INITIAL, events[..n]), events[n])
  {
    hide Step;
    RunSnoc(INITIAL, events[..n], events[n]);
    assert events[..n + 1] == events[..n] + [events[n]];
  }

  lemma TraceGrows(events: seq<Event>, n: nat, t: nat, x: Thread, y: Thread)
    requires n < |events| && Traced(events, n, t, x) && t in Run(INITIAL, events[..n]).threads
    requires Run(INITIAL, events[..n]).threads[t] == x && Alters(Run(INITIAL, events[..n]), events[n], t, x, y)
    ensures Traced(events, n + 1, t, y)
  {
    hide Run, Admitted, Refusal, Granted, Allowed;
    var i :| i < n && BeganAt(events, i, t, x);
    assert i < n + 1 && BeganAt(events, i, t, y);
    SameDraft(x, y);
    if x.granted {
      var j :| j < n && GrantedAt(events, j, t, x);
      assert j < n + 1 && GrantedAt(events, j, t, y);
    } else if y.granted {
      assert n < n + 1 && GrantedAt(events, n, t, y);
    }
    if x.created {
      var j :| j < n && CreatedAt(events, j, t, x);
      assert j < n + 1 && CreatedAt(events, j, t, y);
    } else if y.created {
      assert n < n + 1 && CreatedAt(events, n, t, y);
    }
  }

  lemma SameDraft(x: Thread, y: Thread)
    requires y.call == x.call && y.spec == x.spec
    ensures Draft(y) == Draft(x)
  {
  }

  lemma TraceBegins(events: seq<Event>, n: nat, t: nat)
    requires n < |events| && events[n].Begin?
    requires t in Run(INITIAL, events[..n + 1]).threads && t !in Run(INITIAL, events[..n]).threads
    ensures Traced(events, n + 1, t, Run(INITIAL, events[..n + 1]).threads[t])
  {
    hide Run, Authoritative, Refusal, Granted;
    RunStep(events, n);
    var y := Run(INITIAL, events[..n + 1]).threads[t];
    assert n < n + 1 && BeganAt(events, n, t, y);
  }

  lemma {:induction false} ThreadsAreTraced(events: seq<Event>, n: nat, t: nat)
    requires n <= |events| && t in Run(INITIAL, events[..n]).threads
    ensures Traced(events, n, t, Run(INITIAL, events[..n]).threads[t])
  {
    hide Traced, Alters, Step;
    assert events[..0] == [];
    RunStep(events, n - 1);
    var w, e := Run(INITIAL, events[..n - 1]), events[n - 1];
    if t in w.threads {
      ThreadsAreTraced(events, n - 1, t);
      if e.Advance? { TracedAdvance(w, e, t); } else { OthersAlterNothing(w, e, t); }
      TraceGrows(events, n - 1, t, w.threads[t], Step(w, e).threads[t]);
    } else {
      OnlyBeginAdds(w, e, t);
      TraceBegins(events, n - 1, t);
    }
  }

  lemma OthersAlterNothing(w: World, e: Event, t: nat)
    requires !e.Advance? && t in w.threads
    ensures t in Step(w, e).threads && Alters(w, e, t, w.threads[t], Step(w, e).threads[t])
    ensures Step(w, e).effects == w.effects
  {
    hide Apply, Admitted, Alters;
    AltersReflexive(w, e, t);
  }

  lemma OnlyBeginAdds(w: World, e: Event, t: nat)
    requires t in Step(w, e).threads && t !in w.threads
    ensures e.Begin?
  {
    hide Apply, Admitted, Proceed, Alters;
    if e.Advance? { TracedAdvance(w, e, t); }
  }

  /** A dispatcher runs for a thread that acts, and a call is handed over by one that emits remotely. */
  predicate Reaching(x: Thread, f: Effect) {
    if f.result.Some? then x.at.Acting? else x.at.Emitting? && !x.dispatching
  }

  /** The event that caused effect m, and the state of its thread then. */
  lemma {:induction false} EffectAppears(events: seq<Event>, n: nat, m: nat) returns (k: nat)
    requires n <= |events| && m < |Run(INITIAL, events[..n]).effects|
    ensures k < n && |Run(INITIAL, events[..k]).effects| == m
    ensures Run(INITIAL, events[..k + 1]).effects == Run(INITIAL, events[..n]).effects[..m + 1]
    ensures var w, f := Run(INITIAL, events[..k]), Run(INITIAL, events[..n]).effects[m];
      && f.thread in w.threads && w.threads[f.thread].call == f.call
      && Reaching(w.threads[f.thread], f)
  {
    hide Step;
    assert events[..0] == [];
    RunStep(events, n - 1);
    var w, e := Run(INITIAL, events[..n - 1]), events[n - 1];
    EffectStep(w, e);
    if m < |w.effects| {
      k := EffectAppears(events, n - 1, m);
    } else {
      k := n - 1;
    }
  }

  lemma EffectStep(w: World, e: Event)
    ensures Step(w, e).effects == w.effects
      || exists f ::
           && Step(w, e).effects == w.effects + [f] && f.thread in w.threads && w.threads[f.thread].call == f.call
           && Reaching(w.threads[f.thread], f)
  {
    hide Apply, Admitted, Proceed, Alters;
    if e.Advance? && e.thread in w.threads {
      ProceedActs(w, e.thread, e.answers);
      if Step(w, e).effects != w.effects {
        var call := w.threads[e.thread].call;
        var r :| Proceed(w, e.thread, e.answers).effects == w.effects + [Effect(e.thread, call, r)]
                 && (r.Some? <==> w.threads[e.thread].at.Acting?)
                 && (w.threads[e.thread].at.Emitting? ==> !w.threads[e.thread].dispatching);
        var f := Effect(e.thread, call, r);
        assert Step(w, e).effects == w.effects + [f] && f.thread in w.threads && w.threads[f.thread].call == f.call;
      }
    }
  }

  /** Whatever others do to the ledger: before any effect, its thread was admitted for that very call, which
      was in the log with authority, and its confirmation was granted by an answer given to it. */
  lemma EffectsAreAuthorised(events: seq<Event>, m: nat) returns (i: int, j: int, k: nat, x: Thread)
    requires m < |Run(INITIAL, events).effects|
    ensures var f := Run(INITIAL, events).effects[m];
      && i < k && j < k < |events| && x.call == f.call
      && BeganAt(events, i, f.thread, x) && GrantedAt(events, j, f.thread, x)
      && (if f.result.Some? then x.dispatching && x.spec.local else !x.dispatching)
      && |Run(INITIAL, events[..k]).effects| == m
      && Run(INITIAL, events[..k + 1]).effects == Run(INITIAL, events).effects[..m + 1]
  {
    hide Run, BeganAt, GrantedAt, CreatedAt;
    assert events[..|events|] == events;
    k := EffectAppears(events, |events|, m);
    var f := Run(INITIAL, events).effects[m];
    x := Run(INITIAL, events[..k]).threads[f.thread];
    ThreadsAreTraced(events, k, f.thread);
    i :| i < k && BeganAt(events, i, f.thread, x);
    j :| j < k && GrantedAt(events, j, f.thread, x);
  }

  /** And with harmless clients, its own `Prepare` had made the commitment. */
  lemma EffectsFollowPrepare(events: seq<Event>, m: nat) returns (j: int, k: nat, x: Thread)
    requires forall i :: 0 <= i < |events| ==> Disciplined(events[i])
    requires m < |Run(INITIAL, events).effects|
    ensures var f := Run(INITIAL, events).effects[m];
      j < k < |events| && x.call == f.call && CreatedAt(events, j, f.thread, x)
      && |Run(INITIAL, events[..k]).effects| == m
  {
    hide Run, BeganAt, GrantedAt, CreatedAt, Disciplined, Safe;
    assert events[..|events|] == events;
    k := EffectAppears(events, |events|, m);
    var f := Run(INITIAL, events).effects[m];
    x := Run(INITIAL, events[..k]).threads[f.thread];
    InitialIsSafe();
    RunKeeps(INITIAL, events[..k]);
    FitsAt(Run(INITIAL, events[..k]), f.thread);
    ThreadsAreTraced(events, k, f.thread);
    j :| j < k && CreatedAt(events, j, f.thread, x);
  }

  // ---- A refused call never happens --------------------------------------------------------

  /** Thread t made the commitment for call k and is over, and k has had no effect. */
  ghost predicate GaveUp(w: World, t: nat, k: string) {
    && t in w.threads && w.threads[t].created && Over(w.threads[t].at) && w.threads[t].call.id == k
    && forall i :: 0 <= i < |w.effects| ==> w.effects[i].call.id != k
  }

  lemma OverStays(w: World, e: Event, t: nat)
    requires t in w.threads && Over(w.threads[t].at)
    ensures t in Step(w, e).threads && Over(Step(w, e).threads[t].at)
    ensures Step(w, e).threads[t].created == w.threads[t].created && Step(w, e).threads[t].call == w.threads[t].call
  {
    hide Apply, Admitted, Proceed, Alters;
    if e.Advance? && e.thread in w.threads {
      ProceedActs(w, e.thread, e.answers);
      if e.thread == t { OverProceeds(w, t, e.answers); }
    }
  }

  lemma OverProceeds(w: World, t: nat, a: Answers)
    requires t in w.threads && Over(w.threads[t].at)
    ensures t in Proceed(w, t, a).threads && Over(Proceed(w, t, a).threads[t].at)
    ensures Proceed(w, t, a).threads[t].created == w.threads[t].created
    ensures Proceed(w, t, a).threads[t].call == w.threads[t].call
  {
    hide Claim, Commit, Ask, Refuse, Line, Cross, Act, Close, Store;
  }

  lemma OneOwner(w: World, t: nat, u: nat)
    requires Safe(w) && t in w.threads && u in w.threads && w.threads[t].created && w.threads[u].created
    requires w.threads[t].call.id == w.threads[u].call.id
    ensures t == u
  {
    hide Safe, Id, Crossed;
    FitsAt(w, t);
    FitsAt(w, u);
  }

  lemma GaveUpStays(w: World, e: Event, t: nat, k: string)
    requires Safe(w) && Disciplined(e) && GaveUp(w, t, k)
    ensures GaveUp(Step(w, e), t, k)
  {
    hide Safe, Step, Disciplined;
    var b := Step(w, e);
    StepKeeps(w, e);
    OverStays(w, e, t);
    EffectStep(w, e);
    if b.effects != w.effects {
      var f :| && b.effects == w.effects + [f] && f.thread in w.threads && w.threads[f.thread].call == f.call
               && Reaching(w.threads[f.thread], f);
      EffectAt(b, |w.effects|);
      if f.call.id == k { OneOwner(b, t, f.thread); }
    }
  }

  lemma EffectAt(w: World, i: nat)
    requires Safe(w) && i < |w.effects|
    ensures EffectFits(w, w.effects[i])
  {
    hide Sound, Named, Owned, Fitting, Stored, Exclusive, EffectFits;
  }

  lemma {:induction false} GaveUpForGood(w: World, events: seq<Event>, t: nat, k: string)
    requires Safe(w) && GaveUp(w, t, k) && forall i :: 0 <= i < |events| ==> Disciplined(events[i])
    ensures GaveUp(Run(w, events), t, k)
    decreases |events|
  {
    hide Safe, Step, Disciplined, GaveUp;
    if events != [] {
      GaveUpStays(w, events[0], t, k);
      StepKeeps(w, events[0]);
      GaveUpForGood(Step(w, events[0]), events[1..], t, k);
    }
  }

  /** Once confirmation of a call is refused to the thread that committed it, its commitment is ended and the
      call has no effect, then or ever. */
  lemma RefusedNeverActs(w: World, t: nat, a: Answers, events: seq<Event>, i: nat)
    requires Safe(w) && t in w.threads && w.threads[t].at.Refusing? && w.threads[t].created
    requires forall i :: 0 <= i < |events| ==> Disciplined(events[i])
    ensures var k := w.threads[t].call.id;
      var b := Refuse(w, t, a.reason);
      && Step(w, Advance(t, a)) == b && Terminal(b.book, Id(k))
      && (i < |Run(b, events).effects| ==> Run(b, events).effects[i].call.id != k)
  {
    hide Sound, Named, Fitting, Stored, Exclusive, Id, Apply, Crossed, Terminal, Disciplined, EffectFits, Run;
    var k, b := w.threads[t].call.id, Refuse(w, t, a.reason);
    CommittedAlready(w, t);
    CancelEnds(w.book, Id(k), a.reason);
    RefuseKeeps(w, t, a.reason);
    forall j | 0 <= j < |w.effects| ensures w.effects[j].call.id != k {
      EffectAt(w, j);
      EffectIsFirst(w, t, w.effects[j]);
    }
    GaveUpForGood(b, events, t, k);
  }

  lemma CommittedAlready(w: World, t: nat)
    requires Safe(w) && t in w.threads && w.threads[t].created
    ensures Id(w.threads[t].call.id) in w.book.commitments
  {
    hide Sound, Named, Stored, Exclusive, Effective, Id, Crossed;
    FitsAt(w, t);
  }

  /** Only a `Dispatch` acts, stores and leaves. */
  predicate Shape(x: Thread) {
    !x.dispatching ==> !x.at.Acting? && !x.at.Completing? && !x.at.Storing? && !x.at.Leaving?
  }

  ghost predicate Shaped(w: World) { forall t :: t in w.threads ==> Shape(w.threads[t]) }

  lemma MoveExcludes(a: World, b: World, t: nat, y: Thread)
    requires Exclusive(a) && Shaped(a) && t in a.threads && b.threads == a.threads[t := y]
    requires y.call == a.threads[t].call && y.dispatching == a.threads[t].dispatching && Shape(y)
    requires FlightFits(a, b, t)
    ensures Exclusive(b) && Shaped(b)
  {
    hide Exclusive, Shape;
    ExclusionStays(a, b, t);
  }

  lemma EndsExclude(w: World, t: nat)
    requires Exclusive(w) && Shaped(w) && t in w.threads
    ensures w.threads[t].at.Entered? ==> Exclusive(Claim(w, t)) && Shaped(Claim(w, t))
    ensures w.threads[t].at.Leaving? ==>
      var b := Leave(w, t, w.threads[t].at.outcome); Exclusive(b) && Shaped(b)
  {
    hide Exclusive;
    var x := w.threads[t];
    assert Shape(x);
    hide Shaped;
    if x.at.Entered? { MoveExcludes(w, Claim(w, t), t, Claim(w, t).threads[t]); }
    if x.at.Leaving? {
      var b := Leave(w, t, x.at.outcome);
      MoveExcludes(w, b, t, b.threads[t]);
    }
  }

  lemma QuietExcludes(w: World, b: World, t: nat, y: Thread)
    requires Exclusive(w) && Shaped(w) && t in w.threads && b.threads == w.threads[t := y] && b.inFlight == w.inFlight
    requires y.call == w.threads[t].call && y.dispatching == w.threads[t].dispatching && Shape(y)
    requires !w.threads[t].at.Entered? && !w.threads[t].at.Done?
    ensures Exclusive(b) && Shaped(b)
  {
    hide Exclusive, Shaped, Shape;
    MoveExcludes(w, b, t, y);
  }

  lemma EarlyExcludes(w: World, t: nat, a: Answers)
    requires Exclusive(w) && Shaped(w) && t in w.threads
    requires w.threads[t].at.Preparing? || w.threads[t].at.Confirming?
    ensures Exclusive(Proceed(w, t, a)) && Shaped(Proceed(w, t, a))
  {
    hide Apply, Refusal, Granted, Draft, Exclusive, Shaped, Id, Refuse, Line;
    var b := Proceed(w, t, a);
    QuietExcludes(w, b, t, b.threads[t]);
  }

  lemma MiddleExcludes(w: World, t: nat, a: Answers)
    requires Exclusive(w) && Shaped(w) && t in w.threads
    requires w.threads[t].at.Refusing? || w.threads[t].at.Queueing?
    ensures Exclusive(Proceed(w, t, a)) && Shaped(Proceed(w, t, a))
  {
    hide Apply, TransitionError, Exclusive, Shaped, Id, Ask, Commit;
    var b := Proceed(w, t, a);
    QuietExcludes(w, b, t, b.threads[t]);
  }

  lemma LateExcludes(w: World, t: nat, a: Answers)
    requires Exclusive(w) && Shaped(w) && t in w.threads && Cleared(w.threads[t].at)
    ensures Exclusive(Proceed(w, t, a)) && Shaped(Proceed(w, t, a))
  {
    hide Apply, TransitionError, Exclusive, Id;
    assert Shape(w.threads[t]);
    hide Shaped;
    var b := Proceed(w, t, a);
    QuietExcludes(w, b, t, b.threads[t]);
  }

  lemma ProceedExcludes(w: World, t: nat, a: Answers)
    requires Exclusive(w) && Shaped(w) && t in w.threads
    ensures Exclusive(Proceed(w, t, a)) && Shaped(Proceed(w, t, a))
  {
    hide Exclusive, Shaped, Claim, Commit, Ask, Refuse, Line, Cross, Act, Close, Store, Leave;
    var at := w.threads[t].at;
    if at.Entered? || at.Leaving? {
      EndsExclude(w, t);
    } else if at.Preparing? || at.Confirming? {
      EarlyExcludes(w, t, a);
    } else if at.Refusing? || at.Queueing? {
      MiddleExcludes(w, t, a);
    } else if Cleared(at) {
      LateExcludes(w, t, a);
    }
  }

  lemma StepExcludes(w: World, e: Event)
    requires Exclusive(w) && Shaped(w)
    ensures Exclusive(Step(w, e)) && Shaped(Step(w, e))
  {
    hide Apply, Proceed, Admitted;
    if e.Advance? && e.thread in w.threads { ProceedExcludes(w, e.thread, e.answers); }
  }

  lemma {:induction false} RunExcludes(w: World, events: seq<Event>)
    requires Exclusive(w) && Shaped(w)
    ensures Exclusive(Run(w, events))
    decreases |events|
  {
    hide Step, Exclusive, Shaped;
    if events != [] {
      StepExcludes(w, events[0]);
      RunExcludes(Step(w, events[0]), events[1..]);
    }
  }

  /** At most one `Dispatch` is at work on a call at any moment of any run, whatever others do to the
      ledger. */
  lemma OneDispatchAtATime(events: seq<Event>, t: nat, u: nat)
    ensures var w := Run(INITIAL, events);
      (&& t in w.threads && u in w.threads && Claimed(w.threads[t]) && Claimed(w.threads[u])
       && w.threads[t].call.id == w.threads[u].call.id) ==> t == u
  {
    hide Run;
    RunExcludes(INITIAL, events);
  }

  lemma {:induction false} RunJoins(w: World, first: seq<Event>, rest: seq<Event>)
    ensures Run(w, first + rest) == Run(Run(w, first), rest)
    decreases |first|
  {
    hide Step;
    if first == [] {
      assert first + rest == rest;
    } else {
      assert (first + rest)[1..] == first[1..] + rest;
      RunJoins(Step(w, first[0]), first[1..], rest);
    }
  }

  /** A stored result is the result of that call's one effect and names that call and tool; it never
      changes, and every `Dispatch` of that call that succeeds, then or later, returns it. */
  lemma StoredResultIsFinal(first: seq<Event>, rest: seq<Event>, k: string, t: nat)
    requires forall i :: 0 <= i < |first| ==> Disciplined(first[i])
    requires forall i :: 0 <= i < |rest| ==> Disciplined(rest[i])
    requires k in Run(INITIAL, first).results
    ensures var past, now := Run(INITIAL, first), Run(INITIAL, first + rest);
      && k in now.results && now.results[k] == past.results[k]
      && past.results[k].callID == k
      && (exists e :: e in now.effects && e.call.id == k && e.call.name == past.results[k].name
                      && e.result == Some(past.results[k]))
      && ((&& t in now.threads && now.threads[t].call.id == k && now.threads[t].at.Done?
           && now.threads[t].at.outcome.Returned?) ==> now.threads[t].at.outcome.result == past.results[k])
  {
    hide Sound, Named, Exclusive, Run, Disciplined, Crossed, Id, Effective;
    InitialIsSafe();
    RunKeeps(INITIAL, first);
    RunJoins(INITIAL, first, rest);
    var past, now := Run(INITIAL, first), Run(INITIAL, first + rest);
    RunKeeps(past, rest);
    assert Effect(now.owner[k], now.threads[now.owner[k]].call, Some(now.results[k])) in now.effects;
    if t in now.threads { FitsAt(now, t); }
  }

  lemma RunSnoc(w: World, events: seq<Event>, e: Event)
    ensures Run(w, events + [e]) == Step(Run(w, events), e)
  {
    hide Step;
    RunJoins(w, events, [e]);
    var v := Run(w, events);
    assert Run(v, [e]) == Run(Step(v, e), []);
  }

  function Foreign(id: string, callID: string): Event {
    Elsewhere(Prepare(Commitment(id, Kind.ToolCall, [], callID, 0, "", "", Never, Prepared, 0, "")))
  }

  lemma NotBlank(s: string)
    requires |s| > 0 && 'a' <= s[0] <= 'z' && 'A' <= s[|s| - 1] <= 'z'
    ensures Text.TrimSpace(s) != ""
  {
    assert Text.SpaceHead(s) == 0;
    assert Text.TrimLeft(s) == s;
    assert Text.SpaceTail(s) == 0;
  }

  lemma ThreeSteps(w: World, es: seq<Event>)
    requires |es| == 3
    ensures Run(w, es) == Step(Step(Step(w, es[0]), es[1]), es[2])
  {
    hide Step;
    RunSnoc(w, es[..2], es[2]);
    RunSnoc(w, es[..1], es[1]);
    RunSnoc(w, es[..0], es[0]);
    assert es == es[..2] + [es[2]];
    assert es[..2] == es[..1] + [es[1]];
    assert es[..1] == es[..0] + [es[0]];
  }

  /** A client's tool that needs no confirmation, and the call k of it. */
  const SPEC := Spec(Never, false, false, false)
  const GO := Answers(None, false, "", Result("", "", ""))

  function CallOf(k: string): Call { Call(k, "tool", "") }

  function Waiting(k: string): Thread { Thread(false, CallOf(k), SPEC, Confirming, false, false) }

  function AllClear(k: string): Thread { Waiting(k).(at := Queueing, granted := true) }

  ghost predicate Otherwise(events: seq<Event>, c: Commitment) {
    forall i :: 0 <= i < |events| ==> Disciplined(events[i]) || events[i] == Elsewhere(Prepare(c))
  }

  /** Two threads ask for a call that is committed under another name. */
  lemma CallTaken(k: string, c: Commitment) returns (events: seq<Event>)
    requires k != ""
    ensures var w := Run(INITIAL, events);
      && w.effects == [] && w.book.callIDs == map[k := "s"] && w.book.commitments.Keys == {"s"}
      && w.threads == map[0 := Waiting(k).(at := Preparing), 1 := Waiting(k).(at := Preparing)]
    ensures Otherwise(events, c)
  {
    hide Text.TrimSpace, Authoritative;
    NotBlank("s");
    var call, items := CallOf(k), [Item(CallOf(k), false)];
    Alone(call);
    events := [Foreign("s", k), Begin(0, false, call, Some(SPEC), items), Begin(1, false, call, Some(SPEC), items)];
    ThreeSteps(INITIAL, events);
  }

  lemma CarriesOn(w: World, t: nat, k: string)
    requires k != "" && w.book.callIDs == map[k := "s"] && w.book.commitments.Keys == {"s"}
    requires t in w.threads && w.threads[t] == Waiting(k).(at := Preparing) && Text.TrimSpace(Id(k)) != ""
    ensures Commit(w, t) == Move(w, t, Confirming)
  {
    hide Text.TrimSpace;
    assert |Id(k)| > 1;
  }

  /** Both carry on; then the name dispatch would have used is taken. */
  lemma NameTaken(k: string, c: Commitment) returns (events: seq<Event>)
    requires k != "" && c.id == Id(k) && c.callID != k && Refusal(EMPTY, c).None?
    ensures var w := Run(INITIAL, events);
      && w.effects == [] && w.threads == map[0 := Waiting(k), 1 := Waiting(k)]
      && Id(k) in w.book.commitments && w.book.commitments[Id(k)].stage.Prepared?
    ensures Otherwise(events, c)
  {
    hide Text.TrimSpace, Run, Commit, Disciplined;
    var opening := CallTaken(k, c);
    var w := Run(INITIAL, opening);
    var rest := [Advance(0, GO), Advance(1, GO), Elsewhere(Prepare(c))];
    events := opening + rest;
    RunJoins(INITIAL, opening, rest);
    ThreeSteps(w, rest);
    CarriesOn(w, 0, k);
    CarriesOn(Move(w, 0, Confirming), 1, k);
    assert |Id(k)| > 1;
    OwnStepsAreDisciplined();
  }

  lemma OwnStepsAreDisciplined()
    ensures forall t, a :: Disciplined(Advance(t, a))
  {
  }

  lemma BothQueued(k: string, c: Commitment) returns (events: seq<Event>)
    requires k != "" && c.id == Id(k) && c.callID != k && Refusal(EMPTY, c).None?
    ensures var w := Run(INITIAL, events);
      && w.effects == [] && w.threads == map[0 := AllClear(k).(at := Point.Emitting), 1 := AllClear(k)]
      && Id(k) in w.book.commitments && w.book.commitments[Id(k)].stage.Queued?
    ensures Otherwise(events, c)
  {
    hide Run, Id, Disciplined, Refusal;
    var opening := NameTaken(k, c);
    var rest := [Advance(0, GO), Advance(1, GO), Advance(0, GO)];
    events := opening + rest;
    RunJoins(INITIAL, opening, rest);
    ThreeSteps(Run(INITIAL, opening), rest);
    OwnStepsAreDisciplined();
  }

  lemma Alone(call: Call)
    ensures Authoritative([Item(call, false)], call)
  {
    assert [Item(call, false)][0].call == call;
  }

  lemma BothEmitted(k: string, c: Commitment) returns (events: seq<Event>)
    requires k != "" && c.id == Id(k) && c.callID != k && Refusal(EMPTY, c).None?
    ensures Run(INITIAL, events).effects == [Effect(0, CallOf(k), None), Effect(1, CallOf(k), None)]
    ensures Otherwise(events, c)
  {
    hide Run, Id, Disciplined, Refusal;
    var opening := BothQueued(k, c);
    var rest := [Advance(1, GO), Advance(0, GO), Advance(1, GO)];
    events := opening + rest;
    RunJoins(INITIAL, opening, rest);
    ThreeSteps(Run(INITIAL, opening), rest);
    OwnStepsAreDisciplined();
  }

  /** The discipline is exact. `authorize` carries on when the call is already committed under another
      name; so for every commitment that is not harmless there is a run, disciplined but for preparing
      it, in which two threads both find it to emit and one call has two effects. */
  lemma HarmfulCommitmentTwoEffects(c: Commitment) returns (events: seq<Event>, k: string)
    requires !Harmless(c)
    ensures Otherwise(events, c) && c.id == Id(k)
    ensures Run(INITIAL, events).effects == [Effect(0, CallOf(k), None), Effect(1, CallOf(k), None)]
  {
    hide Run, Disciplined, Refusal;
    k := c.id[7..];
    assert c.id == Id(k);
    events := BothEmitted(k, c);
  }

  lemma SafeIsSound(w: World)
    requires Safe(w)
    ensures Sound(w.book)
  {
    hide Sound, Named, Owned, Fitting, Effective, Stored, Exclusive;
  }

  /** The dispatch path itself, one critical section or outside call at a time. */
  class Tools {
    const ledger: Ledger
    var results: map<string, Result>
    var inFlight: set<string>
    var threads: map<nat, Thread>
    ghost var effects: seq<Effect>
    ghost var owner: map<string, nat>

    ghost function Value(): World
      reads this, ledger
    {
      World(ledger.Value(), results, inFlight, threads, effects, owner)
    }

    /** The protocol's invariant holds of this object and of the ledger it shares. */
    ghost predicate Valid()
      reads this, ledger
    {
      Safe(Value())
    }

    constructor (l: Ledger)
      requires l.Value() == EMPTY
      ensures ledger == l && Value() == INITIAL && Valid()
    {
      ledger, results, inFlight, threads, effects, owner := l, map[], {}, map[], [], map[];
      new;
      InitialIsSafe();
    }

    method MoveTo(t: nat, at: Point)
      requires t in threads
      modifies this`threads
      ensures threads == old(threads)[t := old(threads)[t].(at := at)]
    {
      threads := threads[t := threads[t].(at := at)];
    }

    method Begin(t: nat, dispatching: bool, call: Call, declared: Option<Spec>, items: seq<Item>)
      requires Valid() && t !in threads
      modifies this`threads
      ensures Valid() && Value() == Start(old(Value()), t, dispatching, call, declared, items)
    {
      hide Safe;
      StartKeeps(Value(), t, dispatching, call, declared, items);
      if declared.None? || declared.value.normalizes { return; }
      if !dispatching && declared.value.local { return; }
      var authoritative := CheckAuthority(items, call);
      if !authoritative { return; }
      threads := threads[t :=
        Thread(dispatching, call, declared.value, if dispatching then Entered else Preparing, false, false)];
    }

    method Claims(t: nat)
      requires t in threads
      modifies this`threads, this`inFlight
      ensures Value() == Claim(old(Value()), t)
    {
      var k := threads[t].call.id;
      if k in results {
        MoveTo(t, Done(Returned(results[k])));
      } else if k in inFlight {
        MoveTo(t, Done(Failed));
      } else {
        inFlight := inFlight + {k};
        MoveTo(t, Preparing);
      }
    }

    method Commits(t: nat)
      requires t in threads && ledger.Valid()
      modifies this`threads, this`owner, ledger
      ensures ledger.Valid() && Value() == Commit(old(Value()), t)
    {
      hide Sound, Follows, Apply, Refusal;
      var x := threads[t];
      var err := ledger.Prepare(Draft(x));
      if err.Some? && !err.value.DuplicateCall? {
        MoveTo(t, Fail(x));
      } else if err.Some? {
        MoveTo(t, Confirming);
      } else {
        owner := owner[x.call.id := t];
        threads := threads[t := x.(at := Confirming, created := true)];
      }
    }

    method Asks(t: nat, a: Answers)
      requires t in threads
      modifies this`threads
      ensures Value() == Ask(old(Value()), t, a)
    {
      var x := threads[t];
      var granted := x.spec.confirm.Never?;
      if x.spec.confirm.Policy? && a.policy == Some(true) { granted := true; }
      if !granted { granted := a.confirmed; }
      if granted {
        threads := threads[t := x.(at := Queueing, granted := true)];
      } else {
        MoveTo(t, Refusing);
      }
    }

    method Refuses(t: nat, reason: string)
      requires t in threads && ledger.Valid()
      modifies this`threads, ledger
      ensures ledger.Valid() && Value() == Refuse(old(Value()), t, reason)
    {
      hide Sound, Follows, Apply;
      var _, _ := ledger.Cancel(Id(threads[t].call.id), reason);
      MoveTo(t, Fail(threads[t]));
    }

    method Queues(t: nat)
      requires t in threads && ledger.Valid()
      modifies this`threads, ledger
      ensures ledger.Valid() && Value() == Line(old(Value()), t)
    {
      hide Sound, Follows, Apply, TransitionError;
      var x := threads[t];
      var err := ledger.Queue(Id(x.call.id));
      if err.Some? && !err.value.InvalidTransition? {
        MoveTo(t, Fail(x));
      } else if x.dispatching && !x.spec.local {
        MoveTo(t, Fail(x));
      } else {
        MoveTo(t, Point.Emitting);
      }
    }

    method Emits(t: nat)
      requires t in threads && ledger.Valid()
      modifies this`threads, this`effects, ledger
      ensures ledger.Valid() && Value() == Cross(old(Value()), t)
    {
      hide Sound, Follows, Apply, TransitionError;
      var x := threads[t];
      var err := ledger.Emit(Id(x.call.id));
      if err.Some? {
        MoveTo(t, Fail(x));
      } else if x.dispatching {
        MoveTo(t, Acting);
      } else {
        effects := effects + [Effect(t, x.call, None)];
        MoveTo(t, Done(Sent));
      }
    }

    method Completes(t: nat, r: Result)
      requires t in threads && ledger.Valid()
      modifies this`threads, ledger
      ensures ledger.Valid() && Value() == Close(old(Value()), t, r)
    {
      hide Sound, Follows, Apply;
      var x := threads[t];
      var _ := ledger.Complete(Id(x.call.id), 0);
      if r.callID != x.call.id || r.name != x.call.name {
        MoveTo(t, Leaving(Failed));
      } else {
        MoveTo(t, Storing(r));
      }
    }

    /** One section of the code of thread t. */
    method Proceeds(t: nat, a: Answers)
      requires Valid() && t in threads
      modifies this, ledger
      ensures Valid() && Value() == Proceed(old(Value()), t, a) && Remembers(old(Value()), Value())
    {
      hide Safe, Sound, Follows, Claim, Commit, Ask, Refuse, Line, Cross, Close;
      ProceedKeeps(Value(), t, a);
      SafeIsSound(Value());
      match threads[t].at
      case Entered => Claims(t);
      case Preparing => Commits(t);
      case Confirming => Asks(t, a);
      case Refusing => Refuses(t, a.reason);
      case Queueing => Queues(t);
      case Emitting => Emits(t);
      case Acting =>
        effects := effects + [Effect(t, threads[t].call, Some(a.result))];
        MoveTo(t, Completing(a.result));
      case Completing(r) => Completes(t, r);
      case Storing(r) =>
        results := results[threads[t].call.id := r];
        MoveTo(t, Leaving(Returned(r)));
      case Leaving(o) =>
        inFlight := inFlight - {threads[t].call.id};
        MoveTo(t, Done(o));
      case Done(_) =>
    }

    /** `Tools.Complete`: closes a client-executed commitment. */
    method Complete(callID: string)
      requires Valid()
      modifies ledger
      ensures Valid() && Value() == Step(old(Value()), Finish(callID)) && Remembers(old(Value()), Value())
    {
      hide Safe, Sound, Follows, Apply;
      StepKeeps(Value(), Finish(callID));
      SafeIsSound(Value());
      var _ := ledger.Complete(Id(callID), 0);
    }

    /** Whatever else is done to the ledger, short of preparing a harmful commitment. */
    method Other(op: Op)
      requires Valid() && Disciplined(Elsewhere(op))
      modifies ledger
      ensures Valid() && Value() == Step(old(Value()), Elsewhere(op)) && Remembers(old(Value()), Value())
    {
      hide Safe, Sound, Follows, Apply, Refusal, TransitionError, Owed, Disciplined;
      StepKeeps(Value(), Elsewhere(op));
      SafeIsSound(Value());
      match op
      case Prepare(c) => var _ := ledger.Prepare(c);
      case Queue(id) => var _ := ledger.Queue(id);
      case Emit(id) => var _ := ledger.Emit(id);
      case Complete(id, ms) => var _ := ledger.Complete(id, ms);
      case Cancel(id, reason) => var _, _ := ledger.Cancel(id, reason);
      case Invalidate(id, revision) => var _ := ledger.Invalidate(id, revision);
      case Resolve(id) => var _ := ledger.ResolveObligation(id);
      case Truncate(id, ms) => var _ := ledger.Truncated(id, ms);
    }
  }
}
