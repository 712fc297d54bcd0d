/** Structural graph-port types and their printed form, which path evidence stores in their place. */
module TypeExpr {

  /** A concrete type has a name and arguments; a type variable has only `variable` set. */
  datatype Type = Type(name: string, arguments: seq<Type>, variable: string)

  predicate Letter(c: char) { 'A' <= c <= 'Z' || 'a' <= c <= 'z' }

  predicate Word(c: char) { Letter(c) || '0' <= c <= '9' || c == '_' }

  predicate NameChar(c: char) { Word(c) || c == '.' || c == '-' }

  predicate ValidName(s: string) {
    s != "" && Letter(s[0]) && forall i :: 0 <= i < |s| ==> NameChar(s[i])
  }

  predicate ValidVariable(s: string) {
    s != "" && 'A' <= s[0] <= 'Z' && forall i :: 0 <= i < |s| ==> Word(s[i])
  }

  /** The checks of type validation: well formed, and every variable declared. */
  predicate Valid(t: Type, generics: set<string>) {
    if t.variable != "" then
      t.name == "" && t.arguments == [] && ValidVariable(t.variable) && t.variable in generics
    else
      ValidName(t.name) && forall a :: a in t.arguments ==> Valid(a, generics)
  }

  function Render(t: Type): string
    decreases t, 1
  {
    if t.variable != "" then "$" + t.variable
    else if t.arguments == [] then t.name
    else t.name + "<" + Join(t.arguments) + ">"
  }

  function Join(ts: seq<Type>): string
    decreases ts, 0
  {
    if ts == [] then ""
    else if |ts| == 1 then Render(ts[0])
    else Render(ts[0]) + ", " + Join(ts[1..])
  }

  predicate Equal(a: Type, b: Type) {
    && a.name == b.name && a.variable == b.variable && |a.arguments| == |b.arguments|
    && forall i :: 0 <= i < |a.arguments| ==> Equal(a.arguments[i], b.arguments[i])
  }

  predicate ContainsVariable(t: Type) {
    t.variable != "" || exists a :: a in t.arguments && ContainsVariable(a)
  }

  // ---- Unique readability ------------------------------------------------------------------

  /** What may follow a printed type: nothing, or a separator or closer of an argument list. */
  predicate Closes(x: string) { x == "" || x[0] == ',' || x[0] == '>' }

  predicate Ends(x: string) { x == "" || !NameChar(x[0]) }

  ghost predicate Token(u: string) { forall i :: 0 <= i < |u| ==> NameChar(u[i]) }

  lemma NotShorter(u: string, v: string, x: string, y: string)
    requires Token(v) && Ends(x) && u + x == v + y
    ensures |u| >= |v|
  {
    var w := u + x;
    assert forall i :: 0 <= i < |v| ==> w[i] == v[i];
    assert |x| > 0 ==> w[|u|] == x[0];
  }

  /** Where a name ends is visible in the text. */
  lemma TokenUnique(u: string, v: string, x: string, y: string)
    requires Token(u) && Token(v) && Ends(x) && Ends(y) && u + x == v + y
    ensures u == v && x == y
  {
    NotShorter(u, v, x, y);
    NotShorter(v, u, y, x);
    assert u == (u + x)[..|u|] && v == (v + y)[..|v|];
    assert x == (u + x)[|u|..] && y == (v + y)[|v|..];
  }

  /** What follows the name of a type printed before x, and what follows the first of a list. */
  ghost function AfterName(ts: seq<Type>, x: string): string {
    if ts == [] then x else "<" + ListThen(ts, x)
  }

  ghost function ListThen(ts: seq<Type>, x: string): string { Join(ts) + (">" + x) }

  ghost function AfterFirst(ts: seq<Type>, x: string): string
    requires ts != []
  {
    if |ts| == 1 then ">" + x else ", " + ListThen(ts[1..], x)
  }

  lemma ReadVariable(t: Type, x: string, g: set<string>)
    requires Valid(t, g) && t.variable != ""
    ensures Render(t) + x == "$" + (t.variable + x) && Token(t.variable)
    ensures t == Type("", [], t.variable)
  {
  }

  lemma ReadName(t: Type, x: string, g: set<string>)
    requires Valid(t, g) && t.variable == ""
    ensures Render(t) + x == t.name + AfterName(t.arguments, x)
    ensures t.name != "" && Letter(t.name[0]) && Token(t.name)
  {
  }

  lemma ReadFirst(ts: seq<Type>, x: string)
    requires ts != []
    ensures ListThen(ts, x) == Render(ts[0]) + AfterFirst(ts, x) && Closes(AfterFirst(ts, x))
  {
    hide Render;
    if |ts| > 1 {
      JoinMore(ts);
      var first, rest, tail := Render(ts[0]), Join(ts[1..]), ">" + x;
      Regroup(first, ", ", rest, tail);
    }
  }

  lemma JoinMore(ts: seq<Type>)
    requires |ts| > 1
    ensures Join(ts) == Render(ts[0]) + ", " + Join(ts[1..])
  {
    hide Render;
  }

  lemma Regroup(a: string, b: string, c: string, d: string)
    ensures (a + b + c) + d == a + (b + (c + d))
  {
  }

  /** A printed type can be read back in only one way, whatever closes it. */
  lemma {:induction false} UniqueReading(a: Type, b: Type, x: string, y: string, g: set<string>, h: set<string>)
    requires Valid(a, g) && Valid(b, h) && Closes(x) && Closes(y)
    requires Render(a) + x == Render(b) + y
    ensures a == b && x == y
    decreases a, 1
  {
    hide Render, Join, Token, ListThen;
    SameSort(a, b, x, y, g, h);
    if a.variable != "" {
      ReadVariable(a, x, g);
      ReadVariable(b, y, h);
      assert a.variable + x == ("$" + (a.variable + x))[1..];
      assert b.variable + y == ("$" + (b.variable + y))[1..];
      TokenUnique(a.variable, b.variable, x, y);
    } else {
      ReadName(a, x, g);
      ReadName(b, y, h);
      var s, t := AfterName(a.arguments, x), AfterName(b.arguments, y);
      TokenUnique(a.name, b.name, s, t);
      if a.arguments != [] {
        assert ListThen(a.arguments, x) == s[1..];
        assert ListThen(b.arguments, y) == t[1..];
        UniqueList(a.arguments, b.arguments, x, y, g, h);
      }
    }
  }

  /** A dollar sign tells a variable from a name. */
  lemma SameSort(a: Type, b: Type, x: string, y: string, g: set<string>, h: set<string>)
    requires Valid(a, g) && Valid(b, h) && Render(a) + x == Render(b) + y
    ensures (a.variable != "") == (b.variable != "")
  {
    assert Render(a)[0] == (Render(a) + x)[0] == (Render(b) + y)[0] == Render(b)[0];
  }

  lemma {:induction false} UniqueList(a: seq<Type>, b: seq<Type>, x: string, y: string, g: set<string>, h: set<string>)
    requires a != [] && b != []
    requires (forall t :: t in a ==> Valid(t, g)) && (forall t :: t in b ==> Valid(t, h))
    requires ListThen(a, x) == ListThen(b, y)
    ensures a == b && x == y
    decreases a, 0
  {
    hide Render, Join, ListThen, Valid;
    ReadFirst(a, x);
    ReadFirst(b, y);
    var s, t := AfterFirst(a, x), AfterFirst(b, y);
    UniqueReading(a[0], b[0], s, t, g, h);
    assert a == [a[0]] + a[1..] && b == [b[0]] + b[1..];
    if |a| == 1 {
      assert s[1..] == x;
      assert |b| == 1 && t[1..] == y;
    } else {
      assert s[2..] == ListThen(a[1..], x);
      assert |b| > 1 && t[2..] == ListThen(b[1..], y);
      UniqueList(a[1..], b[1..], x, y, g, h);
    }
  }

  lemma {:induction false} EqualIsStructural(a: Type, b: Type)
    ensures Equal(a, b) <==> a == b
    decreases a
  {
    forall i | 0 <= i < |a.arguments| && i < |b.arguments|
      ensures Equal(a.arguments[i], b.arguments[i]) <==> a.arguments[i] == b.arguments[i]
    {
      EqualIsStructural(a.arguments[i], b.arguments[i]);
    }
  }

  /** Two valid types print the same exactly when they are structurally equal, even when they were
      validated against different generics. */
  lemma RenderIsInjective(a: Type, b: Type, g: set<string>, h: set<string>)
    requires Valid(a, g) && Valid(b, h)
    ensures Render(a) == Render(b) <==> Equal(a, b)
  {
    EqualIsStructural(a, b);
    if Render(a) == Render(b) {
      assert Render(a) + "" == Render(b) + "";
      UniqueReading(a, b, "", "", g, h);
    }
  }

  /** Validity is what makes the printed form an identity: an unvalidated name can imitate a list. */
  lemma InvalidTypesCollide()
    ensures exists a, b :: !Equal(a, b) && Render(a) == Render(b)
  {
    var p, q, pq := Type("A", [], ""), Type("B", [], ""), Type("A, B", [], "");
    var a, b := Type("F", [p, q], ""), Type("F", [pq], "");
    assert [p, q][1..] == [q];
    assert Render(p) == "A" && Render(q) == "B" && Render(pq) == "A, B";
    assert Join([q]) == "B" && Join([pq]) == "A, B";
    assert Join([p, q]) == "A" + ", " + "B";
    assert |a.arguments| != |b.arguments|;
    assert !Equal(a, b) && Render(a) == Render(b);
  }

  /** A valid type still needs inference exactly when a dollar sign shows in its printed form. */
  lemma {:induction false} VariableShows(t: Type, g: set<string>)
    requires Valid(t, g)
    ensures ContainsVariable(t) <==> '$' in Render(t)
    decreases t, 1
  {
    if t.variable != "" {
      assert Render(t)[0] == '$';
    } else {
      assert '$' !in t.name;
      VariableShowsInList(t.arguments, g);
    }
  }

  lemma {:induction false} VariableShowsInList(ts: seq<Type>, g: set<string>)
    requires forall t :: t in ts ==> Valid(t, g)
    ensures (exists t :: t in ts && ContainsVariable(t)) <==> '$' in Join(ts)
    decreases ts, 0
  {
    if ts != [] {
      VariableShows(ts[0], g);
      VariableShowsInList(ts[1..], g);
      assert ts == [ts[0]] + ts[1..];
      assert '$' !in ", ";
      if |ts| > 1 {
        assert '$' in Join(ts) <==> '$' in Render(ts[0]) || '$' in Join(ts[1..]);
      }
    }
  }
}
