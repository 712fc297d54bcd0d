/** The irreversibility ledger: what has been decided, what has crossed the boundary into the world,
    and what repair is owed.

    Every method of `Ledger` is one critical section, so a sequence of operations is an interleaving
    of all the ledger's clients. */
module Ledgers {
  import opened Prelude
  import Text = AnnotationFilter

  datatype Kind = Speech | Words | ToolCall | ComputerAction | OtherKind

  /** How a declared confirmation requirement reads; `Unreadable` is refused. */
  datatype Confirm = Never | Policy | Always | Unreadable

  datatype Stage = Prepared | Queued | Emitting | Played | Cancelled {
    predicate Terminal() { Played? || Cancelled? }

    predicate Crossed() { Emitting? || Played? }

    predicate Open() { !Terminal() && !Crossed() }
  }

  datatype Commitment = Commitment(
    id: string, kind: Kind, items: seq<string>, callID: string, revision: nat, phase: string,
    authority: string, confirm: Confirm, stage: Stage, playedMS: nat, cancelReason: string)

  datatype Obligation = Obligation(
    commitmentID: string, items: seq<string>, playedMS: nat, byRevision: nat, resolved: bool)

  datatype Error = MissingID | UnknownKind | BadConfirm | DuplicateCommitment | DuplicateCall(previous: string)
                 | UnknownCommitment | AlreadyCrossed | InvalidTransition

  datatype Book = Book(
    commitments: map<string, Commitment>, order: seq<string>, callIDs: map<string, string>,
    obligations: seq<Obligation>)

  datatype Op =
    | Prepare(c: Commitment)
    | Queue(id: string)
    | Emit(id: string)
    | Complete(id: string, ms: nat)
    | Cancel(id: string, reason: string)
    | Invalidate(id: string, revision: nat)
    | Resolve(id: string)
    | Truncate(id: string, ms: nat)

  const EMPTY := Book(map[], [], map[], [])

  // ---- The operations ----------------------------------------------------------------------

  predicate Crossed(b: Book, id: string) { id in b.commitments && b.commitments[id].stage.Crossed() }

  predicate Terminal(b: Book, id: string) { id in b.commitments && b.commitments[id].stage.Terminal() }

  function Refusal(b: Book, c: Commitment): Option<Error> {
    if Text.TrimSpace(c.id) == "" then Some(MissingID)
    else if c.kind.OtherKind? then Some(UnknownKind)
    else if c.confirm.Unreadable? then Some(BadConfirm)
    else if c.id in b.commitments then Some(DuplicateCommitment)
    else if c.callID != "" && c.callID in b.callIDs then Some(DuplicateCall(b.callIDs[c.callID]))
    else None
  }

  function Enter(b: Book, c: Commitment): Book {
    b.(commitments := b.commitments[c.id := c.(stage := Prepared)], order := b.order + [c.id],
       callIDs := if c.callID == "" then b.callIDs else b.callIDs[c.callID := c.id])
  }

  /** The stages from which a commitment may move to `next`, besides `next` itself. */
  predicate Leads(from: Stage, next: Stage) {
    if next.Queued? then from.Prepared? else from.Prepared? || from.Queued?
  }

  function TransitionError(b: Book, id: string, next: Stage): Option<Error> {
    if id !in b.commitments then Some(UnknownCommitment)
    else
      var s := b.commitments[id].stage;
      if s == next || Leads(s, next) then None
      else if s.Crossed() then Some(AlreadyCrossed) else Some(InvalidTransition)
  }

  function SetStage(b: Book, id: string, s: Stage): Book
    requires id in b.commitments
  {
    b.(commitments := b.commitments[id := b.commitments[id].(stage := s)])
  }

  function CompleteError(b: Book, id: string): Option<Error> {
    if id !in b.commitments then Some(UnknownCommitment)
    else if b.commitments[id].stage.Terminal() then Some(InvalidTransition) else None
  }

  function Stop(c: Commitment, reason: string): Commitment {
    if c.stage.Terminal() then c
    else c.(stage := if c.stage.Crossed() then Played else Cancelled, cancelReason := reason)
  }

  predicate Owes(o: Obligation, id: string) { o.commitmentID == id && !o.resolved }

  predicate Owed(b: Book, id: string) { exists i :: 0 <= i < |b.obligations| && Owes(b.obligations[i], id) }

  predicate Invalidates(b: Book, id: string) { Crossed(b, id) && !Owed(b, id) }

  function NewObligation(c: Commitment, revision: nat): Obligation {
    Obligation(c.id, c.items, c.playedMS, revision, false)
  }

  /** Every open obligation on id, resolved. */
  function Discharge(os: seq<Obligation>, id: string): seq<Obligation> {
    seq(|os|, i requires 0 <= i < |os| => if Owes(os[i], id) then os[i].(resolved := true) else os[i])
  }

  function Reheard(os: seq<Obligation>, id: string, ms: nat): seq<Obligation> {
    seq(|os|, i requires 0 <= i < |os| => if Owes(os[i], id) then os[i].(playedMS := ms) else os[i])
  }

  function Apply(b: Book, op: Op): Book {
    match op
    case Prepare(c) => if Refusal(b, c).None? then Enter(b, c) else b
    case Queue(id) => if TransitionError(b, id, Queued).None? then SetStage(b, id, Queued) else b
    case Emit(id) => if TransitionError(b, id, Emitting).None? then SetStage(b, id, Emitting) else b
    case Complete(id, ms) =>
      if CompleteError(b, id).Some? then b
      else b.(commitments := b.commitments[id := b.commitments[id].(stage := Played, playedMS := ms)])
    case Cancel(id, reason) =>
      if id !in b.commitments then b
      else b.(commitments := b.commitments[id := Stop(b.commitments[id], reason)])
    case Invalidate(id, revision) =>
      if Invalidates(b, id) then
        b.(obligations := b.obligations + [NewObligation(b.commitments[id], revision)])
      else b
    case Resolve(id) => b.(obligations := Discharge(b.obligations, id))
    case Truncate(id, ms) =>
      if Crossed(b, id) then
        b.(commitments := b.commitments[id := b.commitments[id].(playedMS := ms)],
           obligations := Reheard(b.obligations, id, ms))
      else b
  }

  function Run(b: Book, ops: seq<Op>): Book
    decreases |ops|
  {
    if ops == [] then b else Run(Apply(b, ops[0]), ops[1..])
  }

  // ---- What every operation keeps ----------------------------------------------------------

  /** Each entry is filed under its own name, once, in order of arrival. */
  ghost predicate Filed(b: Book) {
    && (forall id :: id in b.commitments <==> id in b.order)
    && (forall i, j :: 0 <= i < j < |b.order| ==> b.order[i] != b.order[j])
    && (forall id :: id in b.commitments ==>
          b.commitments[id].id == id && Text.TrimSpace(id) != ""
          && !b.commitments[id].kind.OtherKind? && !b.commitments[id].confirm.Unreadable?)
  }

  /** Call identities and the commitments that carry them correspond one to one. */
  ghost predicate Keyed(b: Book) {
    && (forall k :: k in b.callIDs ==>
          k != "" && b.callIDs[k] in b.commitments && b.commitments[b.callIDs[k]].callID == k)
    && (forall id :: id in b.commitments && b.commitments[id].callID != "" ==>
          b.commitments[id].callID in b.callIDs && b.callIDs[b.commitments[id].callID] == id)
  }

  /** At most one open obligation for a commitment, and only for one that crossed. */
  ghost predicate Owing(b: Book) {
    && (forall i :: 0 <= i < |b.obligations| ==> Crossed(b, b.obligations[i].commitmentID))
    && (forall i, j :: 0 <= i < j < |b.obligations| && !b.obligations[i].resolved && !b.obligations[j].resolved
          ==> b.obligations[i].commitmentID != b.obligations[j].commitmentID)
  }

  ghost predicate Sound(b: Book) { Filed(b) && Keyed(b) && Owing(b) }

  lemma EnterKeeps(b: Book, c: Commitment)
    requires Sound(b) && Refusal(b, c).None?
    ensures Sound(Enter(b, c))
  {
    hide Text.TrimSpace, Filed, Keyed, Owing;
    EnterFiles(b, c);
    EnterKeys(b, c);
    EnterOwes(b, c);
  }

  lemma EnterFiles(b: Book, c: Commitment)
    requires Filed(b) && Refusal(b, c).None?
    ensures Filed(Enter(b, c))
  {
    hide Text.TrimSpace;
    var d := Enter(b, c);
    assert forall id :: id in d.order <==> id in b.order || id == c.id;
  }

  lemma EnterKeys(b: Book, c: Commitment)
    requires Keyed(b) && Refusal(b, c).None?
    ensures Keyed(Enter(b, c))
  {
    hide Text.TrimSpace;
    var d := Enter(b, c);
    forall k | k in d.callIDs
      ensures k != "" && d.callIDs[k] in d.commitments && d.commitments[d.callIDs[k]].callID == k
    {
      if k in b.callIDs {
        assert d.callIDs[k] == b.callIDs[k] != c.id;
      }
    }
    forall id | id in d.commitments && d.commitments[id].callID != ""
      ensures d.commitments[id].callID in d.callIDs && d.callIDs[d.commitments[id].callID] == id
    {
      if id != c.id {
        assert d.commitments[id] == b.commitments[id];
        assert d.commitments[id].callID in b.callIDs;
      }
    }
  }

  lemma EnterOwes(b: Book, c: Commitment)
    requires Owing(b) && Refusal(b, c).None?
    ensures Owing(Enter(b, c))
  {
    hide Text.TrimSpace;
    assert forall i :: 0 <= i < |b.obligations| ==> Crossed(b, b.obligations[i].commitmentID);
  }

  /** An entry changes without changing who it is. */
  predicate Same(c: Commitment, d: Commitment) {
    d.(stage := c.stage, playedMS := c.playedMS, cancelReason := c.cancelReason) == c
  }

  lemma UpdateKeeps(b: Book, id: string, d: Commitment)
    requires Sound(b) && id in b.commitments && Same(b.commitments[id], d)
    requires b.commitments[id].stage.Crossed() ==> d.stage.Crossed()
    ensures Sound(b.(commitments := b.commitments[id := d]))
  {
    hide Text.TrimSpace;
    var e := b.(commitments := b.commitments[id := d]);
    assert d.id == id && d.callID == b.commitments[id].callID;
    assert forall i :: 0 <= i < |e.obligations| ==> Crossed(b, e.obligations[i].commitmentID);
  }

  lemma ObligationsKeep(b: Book, os: seq<Obligation>)
    requires Sound(b) && |os| == |b.obligations|
    requires forall i :: 0 <= i < |os| ==>
      os[i].commitmentID == b.obligations[i].commitmentID && (b.obligations[i].resolved ==> os[i].resolved)
    ensures Sound(b.(obligations := os))
  {
    hide Text.TrimSpace;
    assert forall i :: 0 <= i < |os| ==> Crossed(b, b.obligations[i].commitmentID);
  }

  lemma InvalidateKeeps(b: Book, id: string, revision: nat)
    requires Sound(b) && Invalidates(b, id)
    ensures Sound(Apply(b, Invalidate(id, revision)))
  {
    hide Text.TrimSpace;
    var d := Apply(b, Invalidate(id, revision));
    assert forall i :: 0 <= i < |b.obligations| ==> Crossed(b, b.obligations[i].commitmentID);
    assert forall i :: 0 <= i < |b.obligations| ==> !Owes(b.obligations[i], id);
  }

  lemma ApplyKeeps(b: Book, op: Op)
    requires Sound(b)
    ensures Sound(Apply(b, op))
  {
    hide Filed, Keyed, Owing, Refusal, Owed;
    match op
    case Prepare(c) => if Refusal(b, c).None? { EnterKeeps(b, c); }
    case Queue(id) =>
      if TransitionError(b, id, Queued).None? { UpdateKeeps(b, id, b.commitments[id].(stage := Queued)); }
    case Emit(id) =>
      if TransitionError(b, id, Emitting).None? { UpdateKeeps(b, id, b.commitments[id].(stage := Emitting)); }
    case Complete(id, ms) =>
      if CompleteError(b, id).None? { UpdateKeeps(b, id, b.commitments[id].(stage := Played, playedMS := ms)); }
    case Cancel(id, reason) => if id in b.commitments { UpdateKeeps(b, id, Stop(b.commitments[id], reason)); }
    case Invalidate(id, revision) => if Invalidates(b, id) { InvalidateKeeps(b, id, revision); }
    case Resolve(id) => ObligationsKeep(b, Discharge(b.obligations, id));
    case Truncate(id, ms) =>
      if Crossed(b, id) {
        UpdateKeeps(b, id, b.commitments[id].(playedMS := ms));
        ObligationsKeep(b.(commitments := b.commitments[id := b.commitments[id].(playedMS := ms)]),
                        Reheard(b.obligations, id, ms));
      }
  }

  // ---- What no operation undoes ------------------------------------------------------------

  /** How one entry may change over time. */
  ghost predicate Advances(c: Commitment, d: Commitment) {
    && Same(c, d)
    && (c.stage.Crossed() ==> d.stage.Crossed())
    && (c.stage.Terminal() ==> d.stage == c.stage && d.cancelReason == c.cancelReason)
    && (c.stage.Cancelled? ==> d == c)
    && (c.stage.Queued? ==> !d.stage.Prepared?)
  }

  ghost predicate EntriesAdvance(a: Book, b: Book) {
    forall id :: id in a.commitments ==> id in b.commitments && Advances(a.commitments[id], b.commitments[id])
  }

  ghost predicate IndexGrows(a: Book, b: Book) {
    && |a.order| <= |b.order| && b.order[..|a.order|] == a.order
    && (forall k :: k in a.callIDs ==> k in b.callIDs && b.callIDs[k] == a.callIDs[k])
  }

  ghost predicate DebtsSettle(a: Book, b: Book) {
    && |a.obligations| <= |b.obligations|
    && (forall i :: 0 <= i < |a.obligations| ==>
          && b.obligations[i].commitmentID == a.obligations[i].commitmentID
          && b.obligations[i].items == a.obligations[i].items
          && b.obligations[i].byRevision == a.obligations[i].byRevision
          && (a.obligations[i].resolved ==> b.obligations[i] == a.obligations[i]))
  }

  ghost predicate Follows(a: Book, b: Book) { EntriesAdvance(a, b) && IndexGrows(a, b) && DebtsSettle(a, b) }

  lemma FollowsTransitive(a: Book, b: Book, c: Book)
    requires Follows(a, b) && Follows(b, c)
    ensures Follows(a, c)
  {
    forall id | id in a.commitments ensures id in c.commitments && Advances(a.commitments[id], c.commitments[id]) {
      assert Advances(a.commitments[id], b.commitments[id]) && Advances(b.commitments[id], c.commitments[id]);
    }
    assert c.order[..|a.order|] == c.order[..|b.order|][..|a.order|];
  }

  lemma EnterFollows(b: Book, c: Commitment)
    requires Refusal(b, c).None?
    ensures Follows(b, Enter(b, c))
  {
    hide Text.TrimSpace;
  }

  lemma UpdateFollows(b: Book, id: string, d: Commitment)
    requires id in b.commitments && Advances(b.commitments[id], d)
    ensures Follows(b, b.(commitments := b.commitments[id := d]))
  {
  }

  lemma ApplyFollows(b: Book, op: Op)
    requires Sound(b)
    ensures Follows(b, Apply(b, op))
  {
    hide Text.TrimSpace, Sound, Refusal, Owed, EntriesAdvance, IndexGrows;
    FollowsReflexive(b);
    match op
    case Prepare(c) => if Refusal(b, c).None? { EnterFollows(b, c); }
    case Queue(id) =>
      if TransitionError(b, id, Queued).None? { UpdateFollows(b, id, b.commitments[id].(stage := Queued)); }
    case Emit(id) =>
      if TransitionError(b, id, Emitting).None? { UpdateFollows(b, id, b.commitments[id].(stage := Emitting)); }
    case Complete(id, ms) =>
      if CompleteError(b, id).None? { UpdateFollows(b, id, b.commitments[id].(stage := Played, playedMS := ms)); }
    case Cancel(id, reason) => if id in b.commitments { UpdateFollows(b, id, Stop(b.commitments[id], reason)); }
    case Invalidate(id, revision) => ObligationsFollow(b, Apply(b, op).obligations);
    case Resolve(id) => ObligationsFollow(b, Apply(b, op).obligations);
    case Truncate(id, ms) =>
      if Crossed(b, id) {
        var t := b.(commitments := b.commitments[id := b.commitments[id].(playedMS := ms)]);
        UpdateFollows(b, id, t.commitments[id]);
        ObligationsFollow(t, Reheard(b.obligations, id, ms));
        FollowsTransitive(b, t, Apply(b, op));
      }
  }

  lemma ObligationsFollow(b: Book, os: seq<Obligation>)
    requires DebtsSettle(b, b.(obligations := os))
    ensures Follows(b, b.(obligations := os))
  {
  }

  // ---- What one operation touches ----------------------------------------------------------

  /** The commitment an operation is about. */
  function Subject(op: Op): string {
    match op
    case Prepare(c) => c.id
    case Queue(id) => id
    case Emit(id) => id
    case Complete(id, _) => id
    case Cancel(id, _) => id
    case Invalidate(id, _) => id
    case Resolve(id) => id
    case Truncate(id, _) => id
  }

  /** From a to b, nothing of any commitment but id has changed: neither its entry nor what is owed for it. */
  ghost predicate OthersAlone(a: Book, b: Book, id: string) {
    && (forall k :: k != id ==> (k in b.commitments <==> k in a.commitments))
    && (forall k :: k != id && k in a.commitments ==> b.commitments[k] == a.commitments[k])
    && |a.obligations| <= |b.obligations|
    && (forall i :: 0 <= i < |a.obligations| && a.obligations[i].commitmentID != id ==>
          b.obligations[i] == a.obligations[i])
    && (forall i :: |a.obligations| <= i < |b.obligations| ==> b.obligations[i].commitmentID == id)
    && (b.order == a.order || b.order == a.order + [id])
    && (forall k :: k in b.callIDs && k !in a.callIDs ==> b.callIDs[k] == id)
    && (forall k :: k in a.callIDs ==> k in b.callIDs && b.callIDs[k] == a.callIDs[k])
  }

  /** No operation touches any commitment but its own. */
  lemma OthersUntouched(b: Book, op: Op)
    requires Sound(b)
    ensures OthersAlone(b, Apply(b, op), Subject(op))
  {
    hide Refusal, TransitionError, Stop, Sound, Enter, Invalidates, NewObligation, Discharge, Reheard;
    if op.Prepare? {
      PrepareAlone(b, op.c);
    } else if op.Invalidate? || op.Resolve? || op.Truncate? {
      RepairsAlone(b, op);
    }
  }

  lemma PrepareAlone(b: Book, c: Commitment)
    ensures OthersAlone(b, Apply(b, Prepare(c)), c.id)
  {
    hide Refusal;
    if Refusal(b, c).None? { PreparedIsNew(b, c); }
  }

  lemma RepairsAlone(b: Book, op: Op)
    requires Sound(b) && (op.Invalidate? || op.Resolve? || op.Truncate?)
    ensures OthersAlone(b, Apply(b, op), Subject(op))
  {
    hide Owed, Keyed, Owing, Text.TrimSpace;
  }

  lemma PreparedIsNew(b: Book, c: Commitment)
    requires Refusal(b, c).None?
    ensures c.id !in b.commitments && (c.callID != "" ==> c.callID !in b.callIDs)
  {
    hide Text.TrimSpace;
  }

  /** Which stages each step may be taken from, and what each error means. */
  lemma StepsFrom(b: Book, id: string, next: Stage)
    requires next.Queued? || next.Emitting?
    ensures var err := TransitionError(b, id, next);
      && (err == Some(UnknownCommitment) <==> id !in b.commitments)
      && (id in b.commitments ==>
            var stage := b.commitments[id].stage;
            && (err.None? <==> stage in (if next.Queued? then {Prepared, Queued} else {Prepared, Queued, Emitting}))
            && (err == Some(AlreadyCrossed) <==> err.Some? && stage in {Emitting, Played})
            && (err == Some(InvalidTransition) <==> stage == Cancelled)
            && (CompleteError(b, id).None? <==> stage in {Prepared, Queued, Emitting}))
  {
  }

  /** What an operation does to its own commitment: the three fields that ever change, and when. */
  lemma OwnEntryChanges(b: Book, op: Op)
    requires Subject(op) in b.commitments
    ensures Subject(op) in Apply(b, op).commitments
    ensures var c, d := b.commitments[Subject(op)], Apply(b, op).commitments[Subject(op)];
      && Same(c, d)
      && d.stage == (if op.Queue? && c.stage == Prepared then Queued
                     else if op.Emit? && c.stage in {Prepared, Queued} then Emitting
                     else if op.Complete? && c.stage in {Prepared, Queued, Emitting} then Played
                     else if op.Cancel? && c.stage in {Prepared, Queued} then Cancelled
                     else if op.Cancel? && c.stage == Emitting then Played
                     else c.stage)
      && d.playedMS == (if op.Complete? && c.stage in {Prepared, Queued, Emitting} then op.ms
                        else if op.Truncate? && c.stage in {Emitting, Played} then op.ms else c.playedMS)
      && d.cancelReason == (if op.Cancel? && c.stage in {Prepared, Queued, Emitting} then op.reason
                            else c.cancelReason)
  {
    hide Text.TrimSpace;
  }

  /** What an operation does to what is owed. Resolving touches nothing but the flag, and only of open
      repairs of its own commitment; a truncation touches only their figure; nothing else touches any. */
  lemma OwnRepairsChange(b: Book, op: Op, i: nat)
    requires i < |b.obligations|
    ensures |b.obligations| <= |Apply(b, op).obligations|
    ensures var o, q := b.obligations[i], Apply(b, op).obligations[i];
      var own := o.commitmentID == Subject(op);
      && q == o.(resolved := q.resolved, playedMS := q.playedMS)
      && q.resolved == (o.resolved || (op.Resolve? && own))
      && q.playedMS == (if op.Truncate? && own && !o.resolved && Crossed(b, op.id) then op.ms else o.playedMS)
  {
    hide Refusal, TransitionError, Owed, Stop;
  }

  /** A repair is raised by an invalidation alone, when its commitment crossed and owes none already. */
  lemma RepairIsRaised(b: Book, op: Op)
    ensures var os, qs := b.obligations, Apply(b, op).obligations;
      && |qs| == |os| + (if op.Invalidate? && Crossed(b, op.id)
                            && forall i :: 0 <= i < |os| && os[i].commitmentID == op.id ==> os[i].resolved
                         then 1 else 0)
      && (|qs| > |os| ==>
            var c := b.commitments[Subject(op)];
            qs[|os|] == Obligation(c.id, c.items, c.playedMS, op.revision, false))
  {
    hide Refusal, TransitionError, Stop;
    if op.Invalidate? {
      assert forall i :: 0 <= i < |b.obligations| ==>
        (Owes(b.obligations[i], op.id) <==> b.obligations[i].commitmentID == op.id && !b.obligations[i].resolved);
    }
  }

  /** Over any sequence of operations the book stays sound, nothing that crossed comes back, and
      nothing that ended changes. */
  lemma {:induction false} RunKeeps(b: Book, ops: seq<Op>)
    requires Sound(b)
    ensures Sound(Run(b, ops)) && Follows(b, Run(b, ops))
    decreases |ops|
  {
    hide Sound, EntriesAdvance, IndexGrows, DebtsSettle, Apply;
    if ops == [] {
      FollowsReflexive(b);
    } else {
      ApplyKeeps(b, ops[0]);
      ApplyFollows(b, ops[0]);
      RunKeeps(Apply(b, ops[0]), ops[1..]);
      FollowsTransitive(b, Apply(b, ops[0]), Run(b, ops));
    }
  }

  lemma FollowsReflexive(b: Book)
    ensures Follows(b, b)
  {
  }

  lemma {:induction false} RunJoins(b: Book, first: seq<Op>, rest: seq<Op>)
    ensures Run(b, first + rest) == Run(Run(b, first), rest)
    decreases |first|
  {
    if first == [] {
      assert first + rest == rest;
    } else {
      assert (first + rest)[1..] == first[1..] + rest;
      RunJoins(Apply(b, first[0]), first[1..], rest);
    }
  }

  lemma EmitCrosses(b: Book, id: string)
    ensures TransitionError(b, id, Emitting).None? ==> Crossed(Apply(b, Emit(id)), id)
  {
  }

  lemma CancelEnds(b: Book, id: string, reason: string)
    requires id in b.commitments
    ensures Terminal(Apply(b, Cancel(id, reason)), id)
  {
  }

  lemma EndedStays(a: Book, b: Book, id: string)
    requires Follows(a, b) && Terminal(a, id)
    ensures Terminal(b, id)
  {
    hide IndexGrows, DebtsSettle;
    assert Advances(a.commitments[id], b.commitments[id]);
  }

  /** The figure a completion reports is the figure a repair raised next owes. */
  lemma RepairUsesCompletedFigure(b: Book, id: string, ms: nat, revision: nat)
    requires Sound(b) && CompleteError(b, id).None? && !Owed(b, id)
    ensures var d := Apply(Apply(b, Complete(id, ms)), Invalidate(id, revision));
      && |d.obligations| == |b.obligations| + 1
      && d.obligations[|b.obligations|] == Obligation(id, b.commitments[id].items, ms, revision, false)
  {
    hide Text.TrimSpace;
    assert forall i :: 0 <= i < |b.obligations| ==> !Owes(b.obligations[i], id);
  }

  lemma EmptyIsSound()
    ensures Sound(EMPTY)
  {
  }

  /** The commit boundary over a whole history, stated without the invariants: what was crossed by any
      earlier moment is crossed now, what had ended then is what it was, and something now cancelled
      had crossed at no earlier moment. */
  lemma HistoryIsIrreversible(first: seq<Op>, rest: seq<Op>, id: string)
    ensures var past, now := Run(EMPTY, first), Run(EMPTY, first + rest);
      && (Crossed(past, id) ==> Crossed(now, id))
      && (Terminal(past, id) ==> id in now.commitments && now.commitments[id].stage == past.commitments[id].stage)
      && (id in now.commitments && now.commitments[id].stage.Cancelled? ==> !Crossed(past, id))
  {
    hide Sound, Apply, Run;
    EmptyIsSound();
    RunKeeps(EMPTY, first);
    RunJoins(EMPTY, first, rest);
    RunKeeps(Run(EMPTY, first), rest);
  }

  /** Two commitments never share a call identity, whatever was done to the ledger. */
  lemma CallsAreUnique(ops: seq<Op>, left: string, right: string)
    ensures var b := Run(EMPTY, ops);
      (&& left in b.commitments && right in b.commitments
       && b.commitments[left].callID == b.commitments[right].callID != "") ==> left == right
  {
    hide Apply, Run, Text.TrimSpace;
    EmptyIsSound();
    RunKeeps(EMPTY, ops);
  }

  /** The repair owed is the one the client last reported: once a truncation is accepted, every open
      obligation for the commitment, and any raised next, carries the reported figure. */
  lemma RepairUsesHeardFigure(b: Book, id: string, ms: nat, revision: nat)
    requires Sound(b) && Crossed(b, id)
    ensures var d := Apply(Apply(b, Truncate(id, ms)), Invalidate(id, revision));
      && Owed(d, id)
      && forall i :: 0 <= i < |d.obligations| && Owes(d.obligations[i], id) ==> d.obligations[i].playedMS == ms
  {
    hide Text.TrimSpace;
    var t := Apply(b, Truncate(id, ms));
    var d := Apply(t, Invalidate(id, revision));
    if Invalidates(t, id) {
      assert Owes(d.obligations[|t.obligations|], id);
    }
  }

  // ---- Reading the ledger ------------------------------------------------------------------

  ghost function Listed(b: Book): seq<Commitment>
    requires Filed(b)
  {
    seq(|b.order|, i requires 0 <= i < |b.order| => b.commitments[b.order[i]])
  }

  predicate IsCrossed(c: Commitment) { c.stage.Crossed() }

  predicate IsOpen(c: Commitment) { c.stage.Open() }

  predicate IsCancelled(c: Commitment) { c.stage.Cancelled? }

  predicate IsUnfinished(c: Commitment) { !c.stage.Terminal() }

  lemma {:induction false} ThreeWays(cs: seq<Commitment>)
    ensures multiset(Filter(cs, IsCrossed)) + multiset(Filter(cs, IsOpen)) + multiset(Filter(cs, IsCancelled))
         == multiset(cs)
  {
    hide Filter, Stage.Crossed, Stage.Open, Stage.Terminal;
    if cs != [] {
      ThreeWays(cs[1..]);
      HeadCounts(cs, IsCrossed);
      HeadCounts(cs, IsOpen);
      HeadCounts(cs, IsCancelled);
      OneWay(cs[0]);
      assert cs == [cs[0]] + cs[1..];
    } else {
      FilterNothing(IsCrossed);
      FilterNothing(IsOpen);
      FilterNothing(IsCancelled);
    }
  }

  lemma OneWay(c: Commitment)
    ensures (IsCrossed(c) && !IsOpen(c) && !IsCancelled(c)) || (!IsCrossed(c) && IsOpen(c) && !IsCancelled(c))
         || (!IsCrossed(c) && !IsOpen(c) && IsCancelled(c))
  {
  }

  lemma HeadCounts(cs: seq<Commitment>, keep: Commitment -> bool)
    requires cs != []
    ensures multiset(Filter(cs, keep))
         == multiset(Filter(cs[1..], keep)) + if keep(cs[0]) then multiset{cs[0]} else multiset{}
  {
    hide Filter;
    FilterHead(cs, keep);
  }

  /** `Crossed(nil)`, `Cancellable(nil)` and the cancelled commitments are the whole ledger, and no
      commitment is in two of them. */
  lemma BoundaryPartitions(b: Book)
    requires Sound(b)
    ensures multiset(Filter(Listed(b), IsCrossed)) + multiset(Filter(Listed(b), IsOpen))
         + multiset(Filter(Listed(b), IsCancelled)) == multiset(Listed(b))
    ensures forall c :: c in multiset(Listed(b)) ==> multiset(Listed(b))[c] == 1
  {
    hide Text.TrimSpace, Keyed, Owing, Filter;
    ThreeWays(Listed(b));
    var cs := Listed(b);
    forall i, j | 0 <= i < j < |cs| ensures cs[i] != cs[j] {
      assert b.order[i] != b.order[j];
      assert b.order[i] in b.commitments && b.order[j] in b.commitments;
    }
    DistinctOnce(cs);
  }

  lemma {:induction false} DistinctOnce(cs: seq<Commitment>)
    requires forall i, j :: 0 <= i < j < |cs| ==> cs[i] != cs[j]
    ensures forall c :: c in multiset(cs) ==> multiset(cs)[c] == 1
  {
    if cs != [] {
      DistinctOnce(cs[..|cs| - 1]);
      assert cs == cs[..|cs| - 1] + [cs[|cs| - 1]];
    }
  }

  lemma {:induction false} FilterAgrees(cs: seq<Commitment>)
    requires forall c :: c in cs ==> !c.stage.Emitting?
    ensures Filter(cs, IsOpen) == Filter(cs, IsUnfinished)
  {
    hide Filter;
    if cs != [] {
      FilterAgrees(cs[1..]);
      FilterHead(cs, IsOpen);
      FilterHead(cs, IsUnfinished);
    } else {
      FilterNothing(IsOpen);
      FilterNothing(IsUnfinished);
    }
  }

  /** `Outstanding` is documented to return everything not yet terminal; it returns what is still
      cancellable. The two agree exactly when nothing is in the middle of being emitted. */
  lemma OutstandingIsUnfinished(b: Book)
    requires Sound(b)
    ensures Filter(Listed(b), IsOpen) == Filter(Listed(b), IsUnfinished)
       <==> forall id :: id in b.commitments ==> !b.commitments[id].stage.Emitting?
  {
    hide Text.TrimSpace, Filter, Keyed, Owing;
    var cs := Listed(b);
    if forall id :: id in b.commitments ==> !b.commitments[id].stage.Emitting? {
      FilterAgrees(cs);
    } else {
      var id :| id in b.commitments && b.commitments[id].stage.Emitting?;
      var i :| 0 <= i < |b.order| && b.order[i] == id;
      assert cs[i] in Filter(cs, IsUnfinished);
      assert cs[i] !in Filter(cs, IsOpen);
    }
  }

  predicate Wanted(pick: Option<Commitment -> bool>, c: Commitment) { pick.Some? ==> pick.value(c) }

  /** What `Crossed` and `Cancellable` return for a predicate: the matching entries, in order of arrival. */
  ghost function Chosen(b: Book, crossed: bool, pick: Option<Commitment -> bool>): seq<Commitment>
    requires Filed(b)
  {
    Filter(Listed(b), (c: Commitment) => (if crossed then c.stage.Crossed() else c.stage.Open()) && Wanted(pick, c))
  }

  class Ledger {
    var commitments: map<string, Commitment>
    var order: seq<string>
    var callIDs: map<string, string>
    var obligations: seq<Obligation>

    function Value(): Book
      reads this
    {
      Book(commitments, order, callIDs, obligations)
    }

    ghost predicate Valid()
      reads this
    {
      Sound(Value())
    }

    constructor ()
      ensures Valid() && Value() == EMPTY
    {
      commitments, order, callIDs, obligations := map[], [], map[], [];
    }

    /** Records a decided output, or says why not. */
    method Prepare(c: Commitment) returns (err: Option<Error>)
      requires Valid()
      modifies this
      ensures Valid() && Follows(old(Value()), Value()) && OthersAlone(old(Value()), Value(), c.id)
      ensures Value() == Apply(old(Value()), Op.Prepare(c))
      ensures err == Refusal(old(Value()), c)
      ensures err.None? ==> commitments == old(commitments)[c.id := c.(stage := Prepared)] && c.id !in old(commitments)
      ensures err.Some? ==> Value() == old(Value())
    {
      hide Sound, Follows, OthersAlone, Text.TrimSpace;
      ApplyKeeps(Value(), Op.Prepare(c));
      ApplyFollows(Value(), Op.Prepare(c));
      OthersUntouched(Value(), Op.Prepare(c));
      if Text.TrimSpace(c.id) == "" { return Some(MissingID); }
      if c.kind.OtherKind? { return Some(UnknownKind); }
      if c.confirm.Unreadable? { return Some(BadConfirm); }
      if c.id in commitments { return Some(DuplicateCommitment); }
      if c.callID != "" {
        if c.callID in callIDs { return Some(DuplicateCall(callIDs[c.callID])); }
        callIDs := callIDs[c.callID := c.id];
      }
      commitments := commitments[c.id := c.(stage := Prepared)];
      order := order + [c.id];
      return None;
    }

    /** One lifecycle step shared by `Queue` and `Emit`. */
    method Transition(id: string, next: Stage) returns (err: Option<Error>)
      requires Valid() && (next.Queued? || next.Emitting?)
      modifies this`commitments
      ensures Valid() && Follows(old(Value()), Value()) && OthersAlone(old(Value()), Value(), id)
      ensures Value() == Apply(old(Value()), if next.Queued? then Op.Queue(id) else Op.Emit(id))
      ensures err == TransitionError(old(Value()), id, next)
      ensures err.None? ==> id in commitments && commitments[id].stage == next
      ensures err.Some? ==> Value() == old(Value())
    {
      hide Sound, Follows, OthersAlone;
      ghost var op := if next.Queued? then Op.Queue(id) else Op.Emit(id);
      ApplyKeeps(Value(), op);
      ApplyFollows(Value(), op);
      OthersUntouched(Value(), op);
      if id !in commitments { return Some(UnknownCommitment); }
      var c := commitments[id];
      if c.stage == next {
        assert SetStage(Value(), id, next) == Value();
        return None;
      }
      if !Leads(c.stage, next) {
        if c.stage.Crossed() { return Some(AlreadyCrossed); }
        return Some(InvalidTransition);
      }
      commitments := commitments[id := c.(stage := next)];
      return None;
    }

    method Queue(id: string) returns (err: Option<Error>)
      requires Valid()
      modifies this`commitments
      ensures Valid() && Follows(old(Value()), Value()) && OthersAlone(old(Value()), Value(), id)
      ensures Value() == Apply(old(Value()), Op.Queue(id))
      ensures err == TransitionError(old(Value()), id, Queued)
    {
      err := Transition(id, Queued);
    }

    /** After a successful `Emit` the commitment has crossed, for good. */
    method Emit(id: string) returns (err: Option<Error>)
      requires Valid()
      modifies this`commitments
      ensures Valid() && Follows(old(Value()), Value()) && OthersAlone(old(Value()), Value(), id)
      ensures Value() == Apply(old(Value()), Op.Emit(id))
      ensures err == TransitionError(old(Value()), id, Emitting)
      ensures err.None? ==> Crossed(Value(), id) && !Terminal(old(Value()), id)
    {
      err := Transition(id, Emitting);
    }

    method Complete(id: string, ms: nat) returns (err: Option<Error>)
      requires Valid()
      modifies this`commitments
      ensures Valid() && Follows(old(Value()), Value()) && OthersAlone(old(Value()), Value(), id)
      ensures Value() == Apply(old(Value()), Op.Complete(id, ms))
      ensures err == CompleteError(old(Value()), id)
    {
      hide Sound, Follows, OthersAlone;
      ApplyKeeps(Value(), Op.Complete(id, ms));
      ApplyFollows(Value(), Op.Complete(id, ms));
      OthersUntouched(Value(), Op.Complete(id, ms));
      if id !in commitments { return Some(UnknownCommitment); }
      if commitments[id].stage.Terminal() { return Some(InvalidTransition); }
      commitments := commitments[id := commitments[id].(stage := Played, playedMS := ms)];
      return None;
    }

    /** Stops a commitment; without an error, `crossed` says that it had reached the world, and its
        absence that nothing of it ever did. */
    method Cancel(id: string, reason: string) returns (crossed: bool, err: Option<Error>)
      requires Valid()
      modifies this`commitments
      ensures Valid() && Follows(old(Value()), Value()) && OthersAlone(old(Value()), Value(), id)
      ensures Value() == Apply(old(Value()), Op.Cancel(id, reason))
      ensures err == if id in old(commitments) then None else Some(UnknownCommitment)
      ensures crossed == Crossed(old(Value()), id)
      ensures err.None? ==> id in commitments && commitments[id].stage == if crossed then Played else Cancelled
    {
      hide Sound, Follows, OthersAlone;
      ApplyKeeps(Value(), Op.Cancel(id, reason));
      ApplyFollows(Value(), Op.Cancel(id, reason));
      OthersUntouched(Value(), Op.Cancel(id, reason));
      if id !in commitments { return false, Some(UnknownCommitment); }
      var c := commitments[id];
      assert c.stage.Terminal() ==> commitments[id := Stop(c, reason)] == commitments;
      if c.stage.Cancelled? { return false, None; }
      if c.stage.Played? { return true, None; }
      crossed := c.stage.Crossed();
      commitments := commitments[id := c.(stage := if crossed then Played else Cancelled, cancelReason := reason)];
      return crossed, None;
    }

    /** Raises a repair for content that reached the world, unless one is already owed. */
    method Invalidate(id: string, revision: nat) returns (raised: Option<Obligation>)
      requires Valid()
      modifies this`obligations
      ensures Valid() && Follows(old(Value()), Value()) && OthersAlone(old(Value()), Value(), id)
      ensures Value() == Apply(old(Value()), Op.Invalidate(id, revision))
      ensures raised.Some? <==> Crossed(old(Value()), id) && !Owed(old(Value()), id)
      ensures raised.Some? ==> obligations == old(obligations) + [raised.value]
      ensures raised.Some? ==> raised.value.commitmentID == id && raised.value.playedMS == commitments[id].playedMS
    {
      hide Keyed, Owing, Follows, OthersAlone, Text.TrimSpace;
      ApplyKeeps(Value(), Op.Invalidate(id, revision));
      ApplyFollows(Value(), Op.Invalidate(id, revision));
      OthersUntouched(Value(), Op.Invalidate(id, revision));
      if id !in commitments || !commitments[id].stage.Crossed() { return None; }
      for i := 0 to |obligations|
        invariant forall j :: 0 <= j < i ==> !Owes(obligations[j], id)
      {
        if obligations[i].commitmentID == id && !obligations[i].resolved {
          assert Owes(obligations[i], id);
          return None;
        }
      }
      var c := commitments[id];
      raised := Some(Obligation(id, c.items, c.playedMS, revision, false));
      obligations := obligations + [raised.value];
    }

    /** Marks the first open repair discharged, which is every open repair of that commitment. */
    method ResolveObligation(id: string) returns (found: bool)
      requires Valid()
      modifies this`obligations
      ensures Valid() && Follows(old(Value()), Value()) && OthersAlone(old(Value()), Value(), id)
      ensures Value() == Apply(old(Value()), Op.Resolve(id))
      ensures found <==> Owed(old(Value()), id)
      ensures !Owed(Value(), id)
    {
      hide Filed, Keyed, Follows, OthersAlone, Crossed;
      ApplyKeeps(Value(), Op.Resolve(id));
      ApplyFollows(Value(), Op.Resolve(id));
      OthersUntouched(Value(), Op.Resolve(id));
      ghost var os := obligations;
      for i := 0 to |obligations|
        invariant obligations == os
        invariant forall j :: 0 <= j < i ==> !Owes(os[j], id)
      {
        if obligations[i].commitmentID == id && !obligations[i].resolved {
          assert Owes(os[i], id);
          obligations := obligations[i := obligations[i].(resolved := true)];
          assert obligations == Discharge(os, id);
          return true;
        }
      }
      assert obligations == Discharge(os, id);
      return false;
    }

    /** Records how much the client says was heard. */
    method Truncated(id: string, ms: nat) returns (accepted: bool)
      requires Valid()
      modifies this`commitments, this`obligations
      ensures Valid() && Follows(old(Value()), Value()) && OthersAlone(old(Value()), Value(), id)
      ensures Value() == Apply(old(Value()), Op.Truncate(id, ms))
      ensures accepted <==> Crossed(old(Value()), id)
    {
      hide Sound, Follows, OthersAlone;
      ApplyKeeps(Value(), Op.Truncate(id, ms));
      ApplyFollows(Value(), Op.Truncate(id, ms));
      OthersUntouched(Value(), Op.Truncate(id, ms));
      if id !in commitments || !commitments[id].stage.Crossed() { return false; }
      commitments := commitments[id := commitments[id].(playedMS := ms)];
      ghost var os, updated := obligations, commitments;
      for i := 0 to |obligations|
        invariant commitments == updated && |obligations| == |os|
        invariant forall j :: 0 <= j < |os| ==> obligations[j] == if j < i then Reheard(os, id, ms)[j] else os[j]
      {
        if obligations[i].commitmentID == id && !obligations[i].resolved {
          obligations := obligations[i := obligations[i].(playedMS := ms)];
        }
      }
      assert obligations == Reheard(os, id, ms);
      return true;
    }

    method Obligations() returns (outstanding: seq<Obligation>)
      ensures outstanding == Filter(obligations, (o: Obligation) => !o.resolved)
    {
      hide Filter;
      outstanding := [];
      FilterNothing((o: Obligation) => !o.resolved);
      for i := 0 to |obligations|
        invariant outstanding == Filter(obligations[..i], (o: Obligation) => !o.resolved)
      {
        FilterSnoc(obligations[..i], obligations[i], (o: Obligation) => !o.resolved);
        assert obligations[..i + 1] == obligations[..i] + [obligations[i]];
        if !obligations[i].resolved { outstanding := outstanding + [obligations[i]]; }
      }
      assert obligations[..|obligations|] == obligations;
    }

    /** The scan shared by `Crossed` and `Cancellable`. */
    method Choose(crossed: bool, pick: Option<Commitment -> bool>) returns (result: seq<Commitment>)
      requires Valid()
      ensures result == Chosen(Value(), crossed, pick)
    {
      hide Filter, Keyed, Owing, Text.TrimSpace;
      result := [];
      ghost var cs := Listed(Value());
      ghost var keep := (c: Commitment) => (if crossed then c.stage.Crossed() else c.stage.Open()) && Wanted(pick, c);
      FilterNothing(keep);
      for i := 0 to |order|
        invariant result == Filter(cs[..i], keep)
      {
        var c := commitments[order[i]];
        FilterSnoc(cs[..i], c, keep);
        assert cs[..i + 1] == cs[..i] + [c];
        if (if crossed then c.stage.Crossed() else !(c.stage.Terminal() || c.stage.Crossed())) && Wanted(pick, c) {
          result := result + [c];
        }
      }
      assert cs[..|order|] == cs;
    }
  }
}
