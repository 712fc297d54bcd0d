/** Validation of an architecture catalog: identities, revision lineage, and the three-state
    depth-first search for lineage cycles, for every order in which the definitions are read. */
module Lineage {

  const CATALOG_VERSION := 1

  datatype Ref = Ref(id: string, revision: int)

  /** One architecture revision. `wellFormed` stands for the checks a definition passes on its own,
      other than having a positive revision. */
  datatype Definition = Definition(ref: Ref, derivedFrom: seq<Ref>, wellFormed: bool)

  datatype Fault = BadVersion | Empty | BadDefinition | Duplicate | MissingParent | BrokenLineage | LineageCycle

  datatype Verdict = Accepted | Rejected(fault: Fault)

  type Graph = map<Ref, seq<Ref>>

  // ---- What validation decides -------------------------------------------------------------

  ghost predicate Path(g: Graph, p: seq<Ref>) {
    && p != []
    && forall i :: 0 <= i < |p| - 1 ==> Derives(g, p[i], p[i + 1])
  }

  predicate Derives(g: Graph, child: Ref, parent: Ref) { child in g && parent in g[child] }

  ghost predicate CycleOf(g: Graph, p: seq<Ref>) { Path(g, p) && |p| > 1 && p[0] == p[|p| - 1] }

  ghost predicate Cyclic(g: Graph) { exists p :: CycleOf(g, p) }

  predicate Closed(g: Graph, r: Ref) requires r in g { forall q :: q in g[r] ==> q in g }

  predicate Continues(g: Graph, r: Ref)
    requires r in g
  {
    r.revision > 1 ==> exists q :: q in g[r] && q.id == r.id && q.revision < r.revision
  }

  function GraphOf(defs: seq<Definition>): Graph {
    if defs == [] then map[]
    else GraphOf(defs[..|defs| - 1])[defs[|defs| - 1].ref := defs[|defs| - 1].derivedFrom]
  }

  predicate Proper(d: Definition) { d.wellFormed && d.ref.revision > 0 }

  ghost predicate Acceptable(version: int, defs: seq<Definition>) {
    var g := GraphOf(defs);
    && version == CATALOG_VERSION && defs != []
    && (forall i :: 0 <= i < |defs| ==> Proper(defs[i]))
    && (forall i, j :: 0 <= i < j < |defs| ==> defs[i].ref != defs[j].ref)
    && (forall r :: r in g ==> Closed(g, r) && Continues(g, r))
    && !Cyclic(g)
  }

  /** What each reported fault means. */
  ghost predicate Explains(f: Fault, version: int, defs: seq<Definition>) {
    var g := GraphOf(defs);
    match f
    case BadVersion => version != CATALOG_VERSION
    case Empty => defs == []
    case BadDefinition => exists i :: 0 <= i < |defs| && !Proper(defs[i])
    case Duplicate => exists i, j :: 0 <= i < j < |defs| && defs[i].ref == defs[j].ref
    case MissingParent => exists r :: r in g && !Closed(g, r)
    case BrokenLineage => exists r :: r in g && !Continues(g, r)
    case LineageCycle => Cyclic(g)
  }

  // ---- The search --------------------------------------------------------------------------

  /** Every finished ref comes after all its parents. */
  ghost predicate Finished(g: Graph, order: seq<Ref>) {
    forall i :: 0 <= i < |order| ==> order[i] in g && forall q :: q in g[order[i]] ==> q in order[..i]
  }

  lemma FinishOne(g: Graph, order: seq<Ref>, ref: Ref)
    requires Finished(g, order) && ref in g && forall q :: q in g[ref] ==> q in order
    ensures Finished(g, order + [ref])
  {
    var next := order + [ref];
    forall i, q | 0 <= i < |next| && q in g[next[i]] ensures q in next[..i] {
      assert next[..i] == if i < |order| then order[..i] else order;
    }
  }

  lemma {:induction false} PathDescends(g: Graph, order: seq<Ref>, i: nat, p: seq<Ref>, k: nat)
    requires Finished(g, order) && i < |order| && Path(g, p) && p[0] == order[i] && 1 <= k < |p|
    ensures p[k] in order[..i]
  {
    assert Derives(g, p[k - 1], p[k]);
    if k > 1 {
      PathDescends(g, order, i, p, k - 1);
      var j :| 0 <= j < i && order[j] == p[k - 1];
      assert p[k] in order[..j];
    }
  }

  lemma {:induction false} NoCycleThrough(g: Graph, order: seq<Ref>, i: nat, p: seq<Ref>)
    requires Finished(g, order) && i < |order| && p != [] && p[0] == order[i]
    ensures !CycleOf(g, p)
  {
    if CycleOf(g, p) {
      PathDescends(g, order, i, p, |p| - 1);
      var j :| 0 <= j < i && order[j] == p[0];
      NoCycleThrough(g, order, j, p);
    }
  }

  lemma FinishedIsAcyclic(g: Graph, order: seq<Ref>)
    requires Finished(g, order) && forall r :: r in g ==> r in order
    ensures !Cyclic(g)
  {
    forall p ensures !CycleOf(g, p) {
      if CycleOf(g, p) {
        assert Derives(g, p[0], p[1]);
        var i :| 0 <= i < |order| && order[i] == p[0];
        NoCycleThrough(g, order, i, p);
      }
    }
  }

  ghost function Elements(s: seq<Ref>): set<Ref> { set r | r in s }

  class Search {
    const g: Graph
    var visiting: set<Ref>
    var visited: set<Ref>
    ghost var order: seq<Ref>

    /** `stack` is the chain of refs being visited, each derived from the one before it. */
    ghost predicate Valid(stack: seq<Ref>) reads this {
      && (forall r :: r in g ==> Closed(g, r))
      && visiting == Elements(stack) && visiting <= g.Keys
      && (stack == [] || Path(g, stack))
      && visited == Elements(order) && visited !! visiting
      && Finished(g, order)
    }

    constructor (graph: Graph)
      requires forall r :: r in graph ==> Closed(graph, r)
      ensures Valid([]) && g == graph
    {
      g, visiting, visited, order := graph, {}, {}, [];
    }

    method Visit(ref: Ref, ghost stack: seq<Ref>) returns (cycle: bool)
      requires Valid(stack) && ref in g
      requires stack != [] ==> Derives(g, stack[|stack| - 1], ref)
      modifies this
      ensures cycle ==> Cyclic(g)
      ensures !cycle ==> Valid(stack) && ref in visited && old(visited) <= visited && visiting == old(visiting)
      decreases g.Keys - visiting
    {
      if ref in visiting {
        FoundCycle(g, stack, ref);
        return true;
      }
      if ref in visited { return false; }
      visiting := visiting + {ref};
      ghost var deeper := stack + [ref];
      for i := 0 to |g[ref]|
        invariant Valid(deeper) && visiting == old(visiting) + {ref} && old(visited) <= visited
        invariant forall j :: 0 <= j < i ==> g[ref][j] in visited
      {
        assert g[ref][i] in g[ref] && Closed(g, ref);
        var found := Visit(g[ref][i], deeper);
        if found { return true; }
      }
      FinishOne(g, order, ref);
      visiting := visiting - {ref};
      visited := visited + {ref};
      order := order + [ref];
      return false;
    }
  }

  lemma FoundCycle(g: Graph, stack: seq<Ref>, ref: Ref)
    requires ref in stack && Path(g, stack) && Derives(g, stack[|stack| - 1], ref)
    ensures Cyclic(g)
  {
    var m :| 0 <= m < |stack| && stack[m] == ref;
    var p := stack[m..] + [ref];
    forall i | 0 <= i < |p| - 1 ensures Derives(g, p[i], p[i + 1]) {
      assert p[i] == stack[m + i];
      assert i < |p| - 2 ==> p[i + 1] == stack[m + i + 1] && Derives(g, stack[m + i], stack[m + i + 1]);
    }
    assert CycleOf(g, p);
  }

  // ---- Validation --------------------------------------------------------------------------

  /** The search over the whole catalog, starting from the refs in any order. */
  method FindCycle(g: Graph) returns (cycle: bool)
    requires forall r :: r in g ==> Closed(g, r)
    ensures cycle <==> Cyclic(g)
  {
    var search := new Search(g);
    var unread := g.Keys;
    while unread != {}
      invariant search.Valid([]) && fresh(search) && search.g == g && unread <= g.Keys
      invariant forall r :: r in g && r !in unread ==> r in search.visited
      decreases unread
    {
      var ref :| ref in unread;
      unread := unread - {ref};
      var found := search.Visit(ref, []);
      if found { return true; }
    }
    FinishedIsAcyclic(g, search.order);
    return false;
  }

  /** Every definition read so far is proper and new. */
  method CollectDefinitions(defs: seq<Definition>) returns (fault: Verdict, g: Graph)
    ensures fault.Accepted? <==>
              && (forall i :: 0 <= i < |defs| ==> Proper(defs[i]))
              && (forall i, j :: 0 <= i < j < |defs| ==> defs[i].ref != defs[j].ref)
    ensures fault.Accepted? ==> g == GraphOf(defs)
    ensures fault.Rejected? ==>
      fault.fault in {BadDefinition, Duplicate} && Explains(fault.fault, CATALOG_VERSION, defs)
  {
    g := map[];
    for n := 0 to |defs|
      invariant g == GraphOf(defs[..n]) && g.Keys == set i | 0 <= i < n :: defs[i].ref
      invariant forall i :: 0 <= i < n ==> Proper(defs[i])
      invariant forall i, j :: 0 <= i < j < n ==> defs[i].ref != defs[j].ref
    {
      if !Proper(defs[n]) { return Rejected(BadDefinition), g; }
      if defs[n].ref in g { return Rejected(Duplicate), g; }
      assert defs[..n + 1][..n] == defs[..n];
      g := g[defs[n].ref := defs[n].derivedFrom];
    }
    assert defs[..|defs|] == defs;
    return Accepted, g;
  }

  method CheckLineage(g: Graph) returns (fault: Verdict)
    ensures fault.Accepted? <==> forall r :: r in g ==> Closed(g, r) && Continues(g, r)
    ensures fault == Rejected(MissingParent) ==> exists r :: r in g && !Closed(g, r)
    ensures fault == Rejected(BrokenLineage) ==> exists r :: r in g && !Continues(g, r)
    ensures fault.Rejected? ==> fault.fault in {MissingParent, BrokenLineage}
  {
    var unread := g.Keys;
    while unread != {}
      invariant unread <= g.Keys
      invariant forall r :: r in g && r !in unread ==> Closed(g, r) && Continues(g, r)
      decreases unread
    {
      var ref :| ref in unread;
      unread := unread - {ref};
      if !Closed(g, ref) { return Rejected(MissingParent); }
      if !Continues(g, ref) { return Rejected(BrokenLineage); }
    }
    return Accepted;
  }

  /** A catalog is accepted exactly when it meets every rule; in particular a cycle is reported only
      when one exists, and never missed. */
  method Validate(version: int, defs: seq<Definition>) returns (verdict: Verdict)
    ensures verdict.Accepted? <==> Acceptable(version, defs)
    ensures verdict.Rejected? ==> Explains(verdict.fault, version, defs)
  {
    if version != CATALOG_VERSION { return Rejected(BadVersion); }
    if defs == [] { return Rejected(Empty); }
    var g;
    verdict, g := CollectDefinitions(defs);
    if verdict.Rejected? { return; }
    verdict := CheckLineage(g);
    if verdict.Rejected? { return; }
    var cycle := FindCycle(g);
    if cycle { verdict := Rejected(LineageCycle); }
  }

  lemma {:induction false} GraphRefs(defs: seq<Definition>, r: Ref)
    requires r in GraphOf(defs)
    ensures exists i :: 0 <= i < |defs| && defs[i].ref == r
  {
    if r != defs[|defs| - 1].ref {
      GraphRefs(defs[..|defs| - 1], r);
      var i :| 0 <= i < |defs| - 1 && defs[..|defs| - 1][i].ref == r;
      assert defs[i].ref == r;
    }
  }

  /** A line of revisions of one architecture, strictly older at each step, down to revision 1. */
  ghost predicate Ancestry(g: Graph, p: seq<Ref>) {
    && Path(g, p) && p[|p| - 1] == Ref(p[0].id, 1)
    && forall i :: 0 <= i < |p| - 1 ==> p[i + 1].id == p[i].id && p[i + 1].revision < p[i].revision
  }

  /** In an accepted catalog every revision of an id descends from its revision 1, which is present. */
  lemma {:induction false} RevisionOneExists(version: int, defs: seq<Definition>, r: Ref) returns (p: seq<Ref>)
    requires Acceptable(version, defs) && r in GraphOf(defs)
    ensures p != [] && p[0] == r && Ancestry(GraphOf(defs), p) && Ref(r.id, 1) in GraphOf(defs)
    decreases r.revision
  {
    var g := GraphOf(defs);
    GraphRefs(defs, r);
    if r.revision == 1 {
      p := [r];
    } else {
      assert Continues(g, r) && Closed(g, r);
      var q: Ref :| q in g[r] && q.id == r.id && q.revision < r.revision;
      GraphRefs(defs, q);
      var rest := RevisionOneExists(version, defs, q);
      p := [r] + rest;
      forall i | 0 <= i < |p| - 1
        ensures Derives(g, p[i], p[i + 1]) && p[i + 1].id == p[i].id && p[i + 1].revision < p[i].revision
      {
        assert i > 0 ==> p[i] == rest[i - 1] && p[i + 1] == rest[i] && Derives(g, rest[i - 1], rest[i]);
      }
    }
  }
}
