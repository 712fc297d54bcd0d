/** How the log becomes the turns a provider is shown: neighbouring user observations are one turn, and
    within a turn an observation that a later one replaced is not shown. */
module ProviderRuns {
  import opened Prelude
  import opened Trajectory

  datatype Turn = Turn(items: seq<Item>, user: bool)

  /** An assistant turn is shown as what was heard of it; `heard` gives that text by item. */
  function Shown(x: Item, heard: map<string, string>): Item {
    if x.kind.Assistant? && x.id in heard then x.(content := heard[x.id]) else x
  }

  // ---- The turns ---------------------------------------------------------------------------

  /** One turn covers items[from..to]: a stretch of user observations, or one item of any other kind. */
  predicate Covers(items: seq<Item>, from: int, stop: int) {
    && 0 <= from < stop <= |items|
    && ((forall i :: from <= i < stop ==> FromUser(items[i])) || (stop == from + 1 && !FromUser(items[from])))
  }

  /** Two neighbouring user observations are never in different turns. */
  predicate Seam(items: seq<Item>, p: int) {
    0 < p < |items| ==> !(FromUser(items[p - 1]) && FromUser(items[p]))
  }

  /** Cuts split items[..n] into turns, in order, each user stretch as long as it can be. */
  ghost predicate Splits(items: seq<Item>, cuts: seq<nat>, n: nat) {
    && n <= |items| && |cuts| > 0 && cuts[0] == 0 && cuts[|cuts| - 1] == n
    && (forall k :: 0 <= k < |cuts| - 1 ==> Covers(items, cuts[k], cuts[k + 1]))
    && (forall k :: 0 <= k < |cuts| - 1 ==> Seam(items, cuts[k]))
  }

  lemma NotShorter(items: seq<Item>, a: seq<nat>, b: seq<nat>, k: nat)
    requires Splits(items, a, |items|) && Splits(items, b, |items|) && 0 < k < |a| && k < |b| && a[k - 1] == b[k - 1]
    ensures a[k] >= b[k]
  {
    assert Covers(items, a[k - 1], a[k]);
    assert Covers(items, b[k - 1], b[k]);
    assert k < |a| - 1 ==> Seam(items, a[k]);
  }

  /** There is only one way to split a log. */
  lemma {:induction false} SplitIsUnique(items: seq<Item>, a: seq<nat>, b: seq<nat>, k: nat)
    requires Splits(items, a, |items|) && Splits(items, b, |items|) && k < |a|
    ensures k < |b| && a[k] == b[k]
  {
    if k > 0 {
      SplitIsUnique(items, a, b, k - 1);
      assert Covers(items, a[k - 1], a[k]);
      NotShorter(items, a, b, k);
      NotShorter(items, b, a, k);
    }
  }

  // ---- Within one turn ---------------------------------------------------------------------

  /** Item l of the turn replaces item j of the same turn. */
  predicate Replaces(items: seq<Item>, from: nat, stop: nat, l: int, j: int) {
    from <= l < stop <= |items| && from <= j && Resolve(items[..l], items[l]) == Some(j)
  }

  /** One of the turn's items before l replaces item j. */
  ghost predicate HiddenBy(items: seq<Item>, from: nat, stop: nat, n: int, j: int) {
    exists l :: l < n && Replaces(items, from, stop, l, j)
  }

  ghost predicate Hidden(items: seq<Item>, from: nat, stop: nat, j: int) { HiddenBy(items, from, stop, stop, j) }

  predicate Consumes(items: seq<Item>, from: nat, l: int)
    requires 0 <= l < |items|
  {
    var r := Resolve(items[..l], items[l]);
    r.Some? && r.value >= from
  }

  /** A visible replacement whose target is not shown loses its marker: the provider is not told to
      replace what it never saw. */
  function Displayed(items: seq<Item>, from: nat, l: int): Item
    requires 0 <= l < |items|
  {
    if Consumes(items, from, l) then items[l].(event := Some(items[l].event.value.(supersedes := 0))) else items[l]
  }

  ghost function Visible(items: seq<Item>, from: nat, stop: nat, n: nat): seq<Item>
    requires from <= n <= stop <= |items|
  {
    if n == from then []
    else Visible(items, from, stop, n - 1)
         + if Hidden(items, from, stop, n - 1) then [] else [Displayed(items, from, n - 1)]
  }

  lemma LastIsVisible(items: seq<Item>, from: nat, stop: nat)
    requires from < stop <= |items|
    ensures !Hidden(items, from, stop, stop - 1) && Visible(items, from, stop, stop) != []
  {
  }

  lemma IsLater(items: seq<Item>, from: nat, stop: nat, l: int, j: int)
    requires Replaces(items, from, stop, l, j)
    ensures from <= j < l < stop <= |items|
  {
  }

  /** Every hidden observation leads, through replacements within the turn, to a visible one. */
  lemma {:induction false} HiddenLeadsToVisible(items: seq<Item>, from: nat, stop: nat, j: nat) returns (path: seq<nat>)
    requires from <= j < stop <= |items|
    ensures |path| > 0 && path[0] == j
    ensures forall k :: 0 <= k < |path| - 1 ==>
      Replaces(items, from, stop, path[k + 1], path[k]) && path[k] < path[k + 1]
    ensures from <= path[|path| - 1] < stop && !Hidden(items, from, stop, path[|path| - 1])
    ensures |path| > 1 <==> Hidden(items, from, stop, j)
    decreases stop - j
  {
    hide Replaces;
    if Hidden(items, from, stop, j) {
      var l :| l < stop && Replaces(items, from, stop, l, j);
      IsLater(items, from, stop, l, j);
      var rest := HiddenLeadsToVisible(items, from, stop, l);
      path := [j] + rest;
      forall k | 0 <= k < |path| - 1
        ensures Replaces(items, from, stop, path[k + 1], path[k]) && path[k] < path[k + 1]
      {
        if k > 0 { assert Replaces(items, from, stop, rest[k], rest[k - 1]) && rest[k - 1] < rest[k]; }
      }
    } else {
      path := [j];
    }
  }

  /** What is shown of a turn is in the log's order, each item once, and exactly the unhidden ones. */
  lemma {:induction false} VisibleAre(items: seq<Item>, from: nat, stop: nat, n: nat) returns (at: seq<nat>)
    requires from <= n <= stop <= |items|
    ensures |at| == |Visible(items, from, stop, n)|
    ensures forall i :: 0 <= i < |at| ==>
      from <= at[i] < n && Visible(items, from, stop, n)[i] == Displayed(items, from, at[i])
    ensures forall i, k :: 0 <= i < k < |at| ==> at[i] < at[k]
    ensures forall j :: from <= j < n ==> (j in at <==> !Hidden(items, from, stop, j))
  {
    hide Hidden, Displayed;
    if n == from {
      at := [];
    } else {
      var rest := VisibleAre(items, from, stop, n - 1);
      at := if Hidden(items, from, stop, n - 1) then rest else rest + [n - 1];
    }
  }

  /** Finds what each observation of the run replaces in the run. */
  method MarkReplacements(items: seq<Item>, start: nat, end: nat) returns (superseded: seq<bool>, consumed: seq<bool>)
    requires start < end <= |items|
    ensures |superseded| == |consumed| == end - start
    ensures forall j :: 0 <= j < end - start ==> (superseded[j] <==> Hidden(items, start, end, start + j))
    ensures forall k :: 0 <= k < end - start ==> (consumed[k] <==> Consumes(items, start, start + k))
  {
    hide Resolve, HiddenBy;
    var gone := new bool[end - start](_ => false);
    var used := new bool[end - start](_ => false);
    HiddenByNobody(items, start, end);
    for l := 0 to end - start
      invariant forall j :: 0 <= j < end - start ==> (gone[j] <==> HiddenBy(items, start, end, start + l, start + j))
      invariant forall k :: 0 <= k < end - start ==> (used[k] <==> k < l && Consumes(items, start, start + k))
    {
      var later := start + l;
      var earlier := Resolve(items[..later], items[later]);
      HiddenStep(items, start, end, later);
      if earlier.Some? && start <= earlier.value < end {
        gone[earlier.value - start] := true;
        used[l] := true;
      }
    }
    return gone[..], used[..];
  }

  method CurrentUserObservations(items: seq<Item>, start: nat, end: nat) returns (projected: seq<Item>)
    requires start < end <= |items|
    ensures projected == Visible(items, start, end, end) && projected != []
  {
    hide Resolve, Hidden, Consumes;
    var run := items[start..end];
    LastIsVisible(items, start, end);
    if |run| < 2 {
      Alone(items, start);
      return run;
    }
    var superseded, consumed := MarkReplacements(items, start, end);
    projected := [];
    for index := 0 to |run|
      invariant projected == Visible(items, start, end, start + index)
    {
      if !superseded[index] {
        var item := run[index];
        if consumed[index] {
          Marked(items, start, start + index);
          item := item.(event := Some(item.event.value.(supersedes := 0)));
        }
        projected := projected + [item];
      }
    }
  }

  lemma HiddenByNobody(items: seq<Item>, from: nat, stop: nat)
    ensures forall j :: !HiddenBy(items, from, stop, from, j)
  {
  }

  lemma HiddenStep(items: seq<Item>, from: nat, stop: nat, l: nat)
    requires from <= l < stop <= |items|
    ensures forall j :: from <= j < stop ==>
      (HiddenBy(items, from, stop, l + 1, j) <==>
        HiddenBy(items, from, stop, l, j) || Resolve(items[..l], items[l]) == Some(j))
  {
    hide Resolve;
    forall j | from <= j < stop
      ensures HiddenBy(items, from, stop, l + 1, j) <==>
        HiddenBy(items, from, stop, l, j) || Resolve(items[..l], items[l]) == Some(j)
    {
      assert Replaces(items, from, stop, l, j) <==> Resolve(items[..l], items[l]) == Some(j);
    }
  }

  lemma Marked(items: seq<Item>, from: nat, l: nat)
    requires l < |items| && Consumes(items, from, l)
    ensures items[l].event.Some?
  {
  }

  lemma Alone(items: seq<Item>, start: nat)
    requires start < |items|
    ensures Visible(items, start, start + 1, start + 1) == [items[start]]
  {
    LastIsVisible(items, start, start + 1);
    assert Visible(items, start, start + 1, start) == [];
  }

  /** What a turn covering items[from..stop] shows. */
  ghost predicate Shows(items: seq<Item>, heard: map<string, string>, from: nat, stop: nat, turn: Turn) {
    && Covers(items, from, stop) && turn.user == FromUser(items[from]) && turn.items != []
    && turn.items == if turn.user then Visible(items, from, stop, stop) else [Shown(items[from], heard)]
  }

  /** The log is split at the cuts, and each turn shows its part. */
  ghost predicate ShowsAll(items: seq<Item>, heard: map<string, string>, cuts: seq<nat>, turns: seq<Turn>) {
    && Splits(items, cuts, |items|) && |turns| == |cuts| - 1
    && forall k :: 0 <= k < |turns| ==> Shows(items, heard, cuts[k], cuts[k + 1], turns[k])
  }

  /** A turn before its replaced observations are taken out. */
  predicate Collects(items: seq<Item>, heard: map<string, string>, from: nat, stop: nat, turn: Turn) {
    && Covers(items, from, stop) && turn.user == FromUser(items[from]) && |turn.items| == stop - from
    && (!turn.user ==> turn.items == [Shown(items[from], heard)])
  }

  /** The whole projection: the log is split once, in order, into maximal user turns and single items;
      no turn is empty, and a user turn shows exactly its observations that nothing in it replaced. */
  method Project(items: seq<Item>, heard: map<string, string>) returns (turns: seq<Turn>)
    ensures exists cuts :: ShowsAll(items, heard, cuts, turns)
  {
    hide Shows, Collects, Splits, FromUser;
    turns := [];
    var starts: seq<nat> := [];
    NoTurns(items);
    for i := 0 to |items|
      invariant |turns| == |starts| && (|turns| == 0 ==> i == 0) && Splits(items, starts + [i], i)
      invariant forall k :: 0 <= k < |turns| ==> Collects(items, heard, starts[k], (starts + [i])[k + 1], turns[k])
    {
      var item := Shown(items[i], heard);
      var user := FromUser(items[i]);
      var last := |turns| - 1;
      if last >= 0 { LastTurn(items, heard, starts[last], i, turns[last]); }
      if user && last >= 0 && turns[last].user {
        GrowTurn(items, heard, starts, i, turns[last]);
        turns := turns[last := turns[last].(items := turns[last].items + [item])];
      } else {
        NewTurn(items, heard, starts, i, last >= 0 && turns[last].user);
        starts := starts + [i];
        turns := turns + [Turn([item], user)];
      }
    }
    ghost var cuts := starts + [|items|];
    for k := 0 to |turns|
      invariant |turns| == |starts|
      invariant forall j :: k <= j < |turns| ==> Collects(items, heard, starts[j], cuts[j + 1], turns[j])
      invariant forall j :: 0 <= j < k ==> Shows(items, heard, starts[j], cuts[j + 1], turns[j])
    {
      LastTurn(items, heard, starts[k], cuts[k + 1], turns[k]);
      if turns[k].user {
        var current := CurrentUserObservations(items, starts[k], starts[k] + |turns[k].items|);
        ShowsCurrent(items, heard, starts[k], cuts[k + 1], turns[k], current);
        turns := turns[k := turns[k].(items := current)];
      }
    }
    assert ShowsAll(items, heard, cuts, turns);
  }

  lemma NoTurns(items: seq<Item>)
    ensures Splits(items, [] + [0], 0)
  {
  }

  lemma LastTurn(items: seq<Item>, heard: map<string, string>, from: nat, stop: nat, turn: Turn)
    requires Collects(items, heard, from, stop, turn)
    ensures from < stop <= |items| && turn.user == FromUser(items[from]) && from + |turn.items| == stop
    ensures turn.user == FromUser(items[stop - 1])
    ensures !turn.user ==> Shows(items, heard, from, stop, turn)
  {
    hide FromUser;
  }

  lemma ShowsCurrent(items: seq<Item>, heard: map<string, string>, from: nat, stop: nat, turn: Turn, current: seq<Item>)
    requires Collects(items, heard, from, stop, turn) && turn.user
    requires current == Visible(items, from, stop, stop) && current != []
    ensures Shows(items, heard, from, stop, turn.(items := current))
  {
    hide FromUser, Visible;
  }

  lemma GrowTurn(items: seq<Item>, heard: map<string, string>, starts: seq<nat>, i: nat, turn: Turn)
    requires i < |items| && |starts| > 0 && Splits(items, starts + [i], i) && FromUser(items[i])
    requires Collects(items, heard, starts[|starts| - 1], i, turn) && turn.user
    ensures Splits(items, starts + [i + 1], i + 1)
    ensures Collects(items, heard, starts[|starts| - 1], i + 1, turn.(items := turn.items + [Shown(items[i], heard)]))
  {
    hide FromUser;
    var a, b := starts + [i], starts + [i + 1];
    forall k | 0 <= k < |b| - 1 ensures Covers(items, b[k], b[k + 1]) && Seam(items, b[k]) {
      assert Covers(items, a[k], a[k + 1]) && Seam(items, a[k]);
    }
  }

  lemma NewTurn(items: seq<Item>, heard: map<string, string>, starts: seq<nat>, i: nat, after: bool)
    requires i < |items| && Splits(items, starts + [i], i) && after == (i > 0 && FromUser(items[i - 1]))
    requires !(FromUser(items[i]) && after)
    ensures Splits(items, starts + [i] + [i + 1], i + 1)
    ensures Collects(items, heard, i, i + 1, Turn([Shown(items[i], heard)], FromUser(items[i])))
  {
    hide FromUser;
    var a, b := starts + [i], starts + [i] + [i + 1];
    forall k | 0 <= k < |b| - 1 ensures Covers(items, b[k], b[k + 1]) && Seam(items, b[k]) {
      if k < |starts| { assert Covers(items, a[k], a[k + 1]) && Seam(items, a[k]); }
    }
  }
}
