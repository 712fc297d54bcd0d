/** What one undisturbed `Dispatch` or `EmitRemote` comes to, from beginning to end. */
module ToolRuns {
  import opened Prelude
  import opened ToolDispatch
  import L = Ledgers
  import Text = AnnotationFilter

  /** Thread t goes on alone for n sections, given these answers. */
  function Onward(t: nat, a: Answers, n: nat): seq<Event> {
    if n == 0 then [] else [Advance(t, a)] + Onward(t, a, n - 1)
  }

  lemma RunOnward(w: World, t: nat, a: Answers, n: nat)
    requires t in w.threads && n > 0
    ensures Run(w, Onward(t, a, n)) == Run(Proceed(w, t, a), Onward(t, a, n - 1))
  {
    hide Proceed;
    assert Onward(t, a, n)[1..] == Onward(t, a, n - 1);
  }

  lemma RunOne(w: World, e: Event, es: seq<Event>)
    ensures Run(w, [e] + es) == Run(Step(w, e), es)
  {
    hide Step;
    assert ([e] + es)[1..] == es;
  }

  /** The log holds the call, and no derived copy of it. */
  predicate Attested(items: seq<Item>, call: Call) { Item(call, false) in items && Item(call, true) !in items }

  lemma AttestedHasAuthority(items: seq<Item>, call: Call)
    ensures Authoritative(items, call) <==> Attested(items, call)
  {
    if Item(call, false) in items {
      var i :| 0 <= i < |items| && items[i] == Item(call, false);
    }
    if Item(call, true) in items {
      var j :| 0 <= j < |items| && items[j] == Item(call, true);
    }
    forall i | 0 <= i < |items| && items[i].call == call
      ensures items[i] == Item(call, items[i].derived) && items[i] in items {}
  }

  /** Nobody has committed, stored or begun the call. */
  predicate Untouched(w: World, call: Call) {
    && Id(call.id) !in w.book.commitments && call.id !in w.book.callIDs
    && call.id !in w.results && call.id !in w.inFlight
  }

  lemma {:induction false} TrimKeepsHead(s: string)
    requires s != "" && s[0] == 'a'
    ensures Text.TrimRight(s) != ""
    decreases |s|
  {
    var n := Text.SpaceTail(s);
    if n > 0 {
      assert n < |s|;
      TrimKeepsHead(s[..|s| - n]);
    }
  }

  lemma IdIsNotBlank(k: string)
    ensures Text.TrimSpace(Id(k)) != ""
  {
    var s := Id(k);
    assert s[0] == 'a';
    assert Text.SpaceHead(s) == 0;
    TrimKeepsHead(s);
  }

  /** The commitment of a call, as `authorize` prepares it. */
  function CommitmentOf(call: Call, spec: Spec): L.Commitment {
    L.Commitment(Id(call.id), if spec.computer then L.ComputerAction else L.Kind.ToolCall, [], call.id, 0, "", "",
                 spec.confirm, L.Prepared, 0, "")
  }

  /** The ledger but for the commitment c, which it now has. */
  ghost predicate Gained(a: L.Book, b: L.Book, c: L.Commitment) {
    b.commitments == a.commitments[c.id := c] && b.obligations == a.obligations && c.id !in a.commitments
  }

  lemma Prepares(b: L.Book, call: Call, spec: Spec)
    requires Id(call.id) !in b.commitments && call.id !in b.callIDs && !spec.confirm.Unreadable?
    ensures var c := CommitmentOf(call, spec); L.Refusal(b, c).None? && Gained(b, L.Apply(b, L.Prepare(c)), c)
  {
    hide Text.TrimSpace, Id;
    IdIsNotBlank(call.id);
  }

  lemma Ledgered(a: L.Book, b: L.Book, c: L.Commitment)
    requires Gained(a, b, c)
    ensures c.stage == L.Prepared ==>
      L.TransitionError(b, c.id, L.Queued).None? && Gained(a, L.Apply(b, L.Queue(c.id)), c.(stage := L.Queued))
    ensures c.stage == L.Queued ==>
      L.TransitionError(b, c.id, L.Emitting).None? && Gained(a, L.Apply(b, L.Emit(c.id)), c.(stage := L.Emitting))
    ensures c.stage == L.Emitting ==> Gained(a, L.Apply(b, L.Complete(c.id, 0)), c.(stage := L.Played, playedMS := 0))
    ensures c.stage == L.Prepared ==> forall reason ::
      Gained(a, L.Apply(b, L.Op.Cancel(c.id, reason)), c.(stage := L.Cancelled, cancelReason := reason))
  {
  }

  /** One call on its own: the world it finds, its thread, and whether it dispatches. */
  datatype Job = Job(w: World, t: nat, dispatching: bool, call: Call, spec: Spec)

  /** The world the job found, but for its own thread, its commitment and its mark in `inFlight`. */
  ghost predicate Stands(j: Job, b: World, at: Point, stage: Option<L.Stage>, reason: string) {
    && j.t in b.threads && b.threads == j.w.threads[j.t := b.threads[j.t]]
    && (var x := b.threads[j.t];
        x.dispatching == j.dispatching && x.call == j.call && x.spec == j.spec && x.at == at)
    && (if stage.None? then b.book == j.w.book
        else Gained(j.w.book, b.book, CommitmentOf(j.call, j.spec).(stage := stage.value, cancelReason := reason)))
    && b.inFlight == j.w.inFlight + (if j.dispatching && !at.Entered? && !at.Done? then {j.call.id} else {})
  }

  /** A job that may begin: declared, nothing to normalise, in the log with authority, and untouched. */
  ghost predicate Ready(j: Job, items: seq<Item>) {
    && j.t !in j.w.threads && Untouched(j.w, j.call) && Attested(items, j.call)
    && !j.spec.normalizes && !j.spec.confirm.Unreadable? && (j.dispatching || !j.spec.local)
  }

  /** What grants a call: its declaration asks for nothing, the policy it names agrees, or the confirmer does. */
  predicate Grants(spec: Spec, a: Answers) {
    match spec.confirm
    case Never => true
    case Policy => a.policy == Some(true) || a.confirmed
    case _ => a.confirmed
  }

  lemma Begins(j: Job, items: seq<Item>)
    requires Ready(j, items)
    ensures var b := Step(j.w, Begin(j.t, j.dispatching, j.call, Some(j.spec), items));
      && Stands(j, b, if j.dispatching then Entered else Preparing, None, "")
      && b.effects == j.w.effects && b.results == j.w.results
  {
    hide Authoritative;
    AttestedHasAuthority(items, j.call);
  }

  lemma Claims(j: Job, b: World)
    requires Untouched(j.w, j.call) && j.dispatching && Stands(j, b, Entered, None, "") && b.results == j.w.results
    ensures var d := Claim(b, j.t);
      Stands(j, d, Preparing, None, "") && d.effects == b.effects && d.results == b.results
  {
    hide Id;
  }

  lemma Commits(j: Job, b: World)
    requires Untouched(j.w, j.call) && !j.spec.confirm.Unreadable? && Stands(j, b, Preparing, None, "")
    ensures var d := Commit(b, j.t);
      Stands(j, d, Confirming, Some(L.Prepared), "") && d.effects == b.effects && d.results == b.results
  {
    hide Id, Gained, L.Apply, L.Refusal;
    Prepares(b.book, j.call, j.spec);
    assert Draft(b.threads[j.t]) == CommitmentOf(j.call, j.spec);
  }

  lemma Asks(j: Job, b: World, a: Answers)
    requires Stands(j, b, Confirming, Some(L.Prepared), "")
    ensures var d := Ask(b, j.t, a);
      && Stands(j, d, if Grants(j.spec, a) then Queueing else Refusing, Some(L.Prepared), "")
      && d.effects == b.effects && d.results == b.results
  {
    hide Id, Gained;
  }

  lemma Lines(j: Job, b: World)
    requires Stands(j, b, Queueing, Some(L.Prepared), "")
    ensures var d := Line(b, j.t);
      && Stands(j, d, if j.dispatching && !j.spec.local then Leaving(Failed) else Point.Emitting, Some(L.Queued), "")
      && d.effects == b.effects && d.results == b.results
  {
    hide Id, Gained, L.Apply, L.TransitionError;
    Ledgered(j.w.book, b.book, CommitmentOf(j.call, j.spec));
  }

  lemma Crosses(j: Job, b: World)
    requires Stands(j, b, Point.Emitting, Some(L.Queued), "")
    ensures var d := Cross(b, j.t);
      && Stands(j, d, if j.dispatching then Acting else Done(Sent), Some(L.Stage.Emitting), "")
      && d.effects == (if j.dispatching then b.effects else b.effects + [Effect(j.t, j.call, None)])
      && d.results == b.results
  {
    hide Id, Gained, L.Apply, L.TransitionError;
    Ledgered(j.w.book, b.book, CommitmentOf(j.call, j.spec).(stage := L.Queued));
  }

  lemma Acts(j: Job, b: World, r: Result)
    requires Stands(j, b, Acting, Some(L.Stage.Emitting), "") && j.dispatching
    ensures var d := Act(b, j.t, r);
      && Stands(j, d, Completing(r), Some(L.Stage.Emitting), "")
      && d.effects == b.effects + [Effect(j.t, j.call, Some(r))] && d.results == b.results
  {
    hide Id, Gained;
  }

  predicate Fits(call: Call, r: Result) { r.callID == call.id && r.name == call.name }

  lemma Closes(j: Job, b: World, r: Result)
    requires Stands(j, b, Completing(r), Some(L.Stage.Emitting), "") && j.dispatching
    ensures var d := Close(b, j.t, r);
      && Stands(j, d, if Fits(j.call, r) then Storing(r) else Leaving(Failed), Some(L.Played), "")
      && d.effects == b.effects && d.results == b.results
  {
    hide Id, Gained, L.Apply;
    Ledgered(j.w.book, b.book, CommitmentOf(j.call, j.spec).(stage := L.Stage.Emitting));
  }

  lemma Stores(j: Job, b: World, r: Result)
    requires Stands(j, b, Storing(r), Some(L.Played), "") && j.dispatching
    ensures var d := Store(b, j.t, r);
      && Stands(j, d, Leaving(Returned(r)), Some(L.Played), "")
      && d.effects == b.effects && d.results == b.results[j.call.id := r]
  {
    hide Id, Gained;
  }

  lemma Leaves(j: Job, b: World, o: Outcome, stage: L.Stage, reason: string)
    requires Untouched(j.w, j.call) && j.dispatching && Stands(j, b, Leaving(o), Some(stage), reason)
    ensures var d := Leave(b, j.t, o);
      Stands(j, d, Done(o), Some(stage), reason) && d.effects == b.effects && d.results == b.results
  {
    hide Id, Gained;
  }

  lemma Refuses(j: Job, b: World, reason: string)
    requires Stands(j, b, Refusing, Some(L.Prepared), "")
    ensures var d := Refuse(b, j.t, reason);
      && Stands(j, d, if j.dispatching then Leaving(Failed) else Done(Failed), Some(L.Cancelled), reason)
      && d.effects == b.effects && d.results == b.results
  {
    hide Id, Gained, L.Apply;
    Ledgered(j.w.book, b.book, CommitmentOf(j.call, j.spec));
  }

  /** The whole of one call, left alone: it begins, and goes on for n sections. */
  function Alone(j: Job, items: seq<Item>, a: Answers, n: nat): World {
    Run(j.w, [Begin(j.t, j.dispatching, j.call, Some(j.spec), items)] + Onward(j.t, a, n))
  }

  lemma AloneBegins(j: Job, items: seq<Item>, a: Answers, n: nat)
    ensures Alone(j, items, a, n) ==
      Run(Step(j.w, Begin(j.t, j.dispatching, j.call, Some(j.spec), items)), Onward(j.t, a, n))
  {
    hide Step, Run, Onward;
    RunOne(j.w, Begin(j.t, j.dispatching, j.call, Some(j.spec), items), Onward(j.t, a, n));
  }

  /** From admission to the answer about confirmation. */
  lemma Reaches(j: Job, items: seq<Item>, a: Answers, n: nat) returns (b: World)
    requires Ready(j, items)
    ensures Stands(j, b, if Grants(j.spec, a) then Queueing else Refusing, Some(L.Prepared), "")
    ensures b.effects == j.w.effects && b.results == j.w.results
    ensures Alone(j, items, a, n + if j.dispatching then 3 else 2) == Run(b, Onward(j.t, a, n))
  {
    hide Step, Run, Onward, Stands, Alone, Grants, Untouched, Attested, Claim, Commit, Ask;
    var k := n + if j.dispatching then 3 else 2;
    AloneBegins(j, items, a, k);
    Begins(j, items);
    b := Step(j.w, Begin(j.t, j.dispatching, j.call, Some(j.spec), items));
    if j.dispatching {
      Claims(j, b);
      b := Moves(j, b, a, k, Entered, None, "");
    }
    Commits(j, b);
    b := Moves(j, b, a, n + 2, Preparing, None, "");
    Asks(j, b, a);
    b := Moves(j, b, a, n + 1, Confirming, Some(L.Prepared), "");
  }

  lemma Moves(j: Job, b: World, a: Answers, n: nat, at: Point, stage: Option<L.Stage>, reason: string)
    returns (d: World)
    requires Stands(j, b, at, stage, reason) && n > 0
    ensures d == Proceed(b, j.t, a) && j.t in b.threads && b.threads[j.t].at == at
    ensures Run(b, Onward(j.t, a, n)) == Run(d, Onward(j.t, a, n - 1))
  {
    hide Proceed, Run, Onward, Gained;
    d := Proceed(b, j.t, a);
    RunOnward(b, j.t, a, n);
  }

  lemma AtRest(w: World, t: nat, a: Answers)
    ensures Run(w, Onward(t, a, 0)) == w
  {
  }

  /** From there to the one effect. */
  lemma ReachesEffect(j: Job, items: seq<Item>, a: Answers, n: nat) returns (b: World)
    requires Ready(j, items) && j.dispatching && j.spec.local && Grants(j.spec, a) && n >= 3
    ensures Stands(j, b, Completing(a.result), Some(L.Stage.Emitting), "")
    ensures b.effects == j.w.effects + [Effect(j.t, j.call, Some(a.result))] && b.results == j.w.results
    ensures Alone(j, items, a, n + 3) == Run(b, Onward(j.t, a, n - 3))
  {
    hide Step, Run, Onward, Alone, Grants, Attested, Line, Cross, Act, Gained, Untouched, Stands;
    b := Reaches(j, items, a, n);
    Lines(j, b);
    b := Moves(j, b, a, n, Queueing, Some(L.Prepared), "");
    Crosses(j, b);
    b := Moves(j, b, a, n - 1, Point.Emitting, Some(L.Queued), "");
    Acts(j, b, a.result);
    b := Moves(j, b, a, n - 2, Acting, Some(L.Stage.Emitting), "");
  }

  lemma StandsDone(j: Job, b: World, o: Outcome, stage: L.Stage, reason: string)
    requires Stands(j, b, Done(o), Some(stage), reason)
    ensures b.inFlight == j.w.inFlight
  {
    hide Gained;
  }

  /** `Dispatch` works: a local call that nobody has touched, that is declared and in the log, and whose
      answer grants it, has exactly one effect, its dispatcher's; it completes its commitment, and leaves
      `inFlight` as it was. A result that names the call is stored and returned; any other is neither. */
  lemma DispatchActs(j: Job, items: seq<Item>, a: Answers)
    requires Ready(j, items) && j.dispatching && j.spec.local && Grants(j.spec, a)
    ensures var b := Alone(j, items, a, if Fits(j.call, a.result) then 9 else 8);
      && Stands(j, b, Done(if Fits(j.call, a.result) then Returned(a.result) else Failed), Some(L.Played), "")
      && b.effects == j.w.effects + [Effect(j.t, j.call, Some(a.result))]
      && b.results == (if Fits(j.call, a.result) then j.w.results[j.call.id := a.result] else j.w.results)
      && b.inFlight == j.w.inFlight
  {
    hide Step, Run, Onward, Alone, Grants, Attested, Close, Store, Leave, Gained, Fits, Untouched, Stands;
    var r, n := a.result, if Fits(j.call, a.result) then 6 else 5;
    var b := ReachesEffect(j, items, a, n);
    Closes(j, b, r);
    b := Moves(j, b, a, n - 3, Completing(r), Some(L.Stage.Emitting), "");
    if Fits(j.call, r) {
      Stores(j, b, r);
      b := Moves(j, b, a, 2, Storing(r), Some(L.Played), "");
    }
    var o := if Fits(j.call, r) then Returned(r) else Failed;
    Leaves(j, b, o, L.Played, "");
    b := Moves(j, b, a, 1, Leaving(o), Some(L.Played), "");
    StandsDone(j, b, o, L.Played, "");
    AtRest(b, j.t, a);
  }

  /** `EmitRemote` works: the call is handed over once, with its commitment crossed, and nothing stored. */
  lemma EmitRemoteActs(j: Job, items: seq<Item>, a: Answers)
    requires Ready(j, items) && !j.dispatching && Grants(j.spec, a)
    ensures var b := Alone(j, items, a, 4);
      && Stands(j, b, Done(Sent), Some(L.Stage.Emitting), "")
      && b.effects == j.w.effects + [Effect(j.t, j.call, None)]
      && b.results == j.w.results && b.inFlight == j.w.inFlight
  {
    hide Step, Run, Onward, Alone, Grants, Attested, Line, Cross, Gained, Untouched;
    var b := Reaches(j, items, a, 2);
    Lines(j, b);
    b := Moves(j, b, a, 2, Queueing, Some(L.Prepared), "");
    Crosses(j, b);
    b := Moves(j, b, a, 1, Point.Emitting, Some(L.Queued), "");
    AtRest(b, j.t, a);
  }

  /** A call that nothing grants has no effect: its commitment is cancelled for the reason given, and nothing
      is stored. */
  lemma UngrantedDoesNothing(j: Job, items: seq<Item>, a: Answers)
    requires Ready(j, items) && !Grants(j.spec, a)
    ensures var b := Alone(j, items, a, if j.dispatching then 5 else 3);
      && Stands(j, b, Done(Failed), Some(L.Cancelled), a.reason)
      && b.effects == j.w.effects && b.results == j.w.results && b.inFlight == j.w.inFlight
  {
    hide Step, Run, Onward, Alone, Grants, Attested, Refuse, Leave, Gained, Untouched;
    var n := if j.dispatching then 2 else 1;
    var b := Reaches(j, items, a, n);
    Refuses(j, b, a.reason);
    b := Moves(j, b, a, n, Refusing, Some(L.Prepared), "");
    if j.dispatching {
      Leaves(j, b, Failed, L.Cancelled, a.reason);
      b := Moves(j, b, a, 1, Leaving(Failed), Some(L.Cancelled), a.reason);
    }
    AtRest(b, j.t, a);
  }

  /** A granted call of a tool without a dispatcher cannot be dispatched here: it stays queued. */
  lemma NoDispatcherDoesNothing(j: Job, items: seq<Item>, a: Answers)
    requires Ready(j, items) && j.dispatching && !j.spec.local && Grants(j.spec, a)
    ensures var b := Alone(j, items, a, 5);
      && Stands(j, b, Done(Failed), Some(L.Queued), "")
      && b.effects == j.w.effects && b.results == j.w.results && b.inFlight == j.w.inFlight
  {
    hide Step, Run, Onward, Alone, Grants, Attested, Line, Leave, Gained, Untouched;
    var b := Reaches(j, items, a, 2);
    Lines(j, b);
    b := Moves(j, b, a, 2, Queueing, Some(L.Prepared), "");
    Leaves(j, b, Failed, L.Queued, "");
    b := Moves(j, b, a, 1, Leaving(Failed), Some(L.Queued), "");
    AtRest(b, j.t, a);
  }

  /** A call that was answered before is answered the same again, and one that is being dispatched is refused;
      neither does anything else. */
  lemma AgainOnlyAnswers(j: Job, items: seq<Item>, a: Answers)
    requires j.t !in j.w.threads && Attested(items, j.call) && j.dispatching && !j.spec.normalizes
    requires j.call.id in j.w.results || j.call.id in j.w.inFlight
    ensures var b := Alone(j, items, a, 1);
      && j.t in b.threads && b == j.w.(threads := j.w.threads[j.t := b.threads[j.t]])
      && b.threads[j.t].at ==
           Done(if j.call.id in j.w.results then Returned(j.w.results[j.call.id]) else Failed)
  {
    hide Authoritative, Run, Onward, Alone;
    AttestedHasAuthority(items, j.call);
    AloneBegins(j, items, a, 1);
    var b := Step(j.w, Begin(j.t, j.dispatching, j.call, Some(j.spec), items));
    RunOnward(b, j.t, a, 1);
    AtRest(Proceed(b, j.t, a), j.t, a);
  }

  /** Nothing starts for a call that is not in the log, or only derived there, or of a tool that is undeclared,
      normalising, or local where it should be the client's. */
  lemma UnfitNeverBegins(w: World, t: nat, dispatching: bool, call: Call, declared: Option<Spec>, items: seq<Item>)
    requires !Attested(items, call) || declared.None? || declared.value.normalizes
      || (!dispatching && declared.value.local)
    ensures Step(w, Begin(t, dispatching, call, declared, items)) == w
  {
    hide Authoritative;
    AttestedHasAuthority(items, call);
  }
}
