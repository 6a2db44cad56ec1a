/** Composite.java: leaves and composites behind one `Component` interface; a
    composite keeps an ordered child list and its `operation` prints itself and then,
    recursively, every child in list order. */
module Composite {
  import opened JavaLang

  /** `Object.toString` prints the class name, '@' and the identity hash code. The hash
      is chosen by the runtime, so each node carries it as an abstract `hash`. */
  function CallLine(className: string, hash: string): string
  {
    className + "@" + hash + " call"
  }

  class Leaf {
    const hash: string

    constructor (hash: string)
      ensures this.hash == hash
    {
      this.hash := hash;
    }

    function Line(): string
    {
      CallLine("com.pattern.structural.Leaf", hash)
    }

    /** `Leaf.operation`: exactly one line, naming this leaf. */
    method Operation(out: Console)
      modifies out
      ensures out.lines == old(out.lines) + [Line()]
    {
      out.PrintLn(Line());
    }
  }

  /** A `Component` reference. Equality is reference identity, as `ArrayList.remove`
      sees it, since neither class overrides `equals`. */
  datatype Component = LeafRef(leaf: Leaf) | CompositeRef(composite: CompositeC)

  /** Ranks that strictly decrease from a ranked composite to each composite child.
      A composite with a rank cannot reach itself, so its `operation` terminates. */
  ghost predicate Ranked(rank: map<CompositeC, nat>)
    reads rank.Keys
  {
    forall c, i | c in rank && 0 <= i < |c.componentList| :: Below(c.componentList[i], rank, rank[c])
  }

  /** `x` is a leaf, or a ranked composite of rank below `bound`. */
  ghost predicate Below(x: Component, rank: map<CompositeC, nat>, bound: nat)
  {
    x.LeafRef? || (x.composite in rank && rank[x.composite] < bound)
  }

  /** `x` is a leaf or a ranked composite. */
  ghost predicate Traceable(x: Component, rank: map<CompositeC, nat>)
  {
    x.LeafRef? || x.composite in rank
  }

  ghost function Measure(x: Component, rank: map<CompositeC, nat>): nat
  {
    if x.CompositeRef? && x.composite in rank then rank[x.composite] + 1 else 0
  }

  /** The lines `operation` prints for `x`: its own line, then the output of each
      child in list order (a pre-order traversal). */
  ghost function Trace(x: Component, rank: map<CompositeC, nat>): seq<string>
    requires Ranked(rank) && Traceable(x, rank)
    reads rank.Keys
    decreases Measure(x, rank), 0, 0
  {
    match x
    case LeafRef(l) => [l.Line()]
    case CompositeRef(c) => [c.Line()] + ListTrace(c.componentList, rank, rank[c])
  }

  /** The output of the components of `cs`, one after the other. */
  ghost function ListTrace(cs: seq<Component>, rank: map<CompositeC, nat>, bound: nat): seq<string>
    requires Ranked(rank) && forall i | 0 <= i < |cs| :: Below(cs[i], rank, bound)
    reads rank.Keys
    decreases bound, 1, |cs|
  {
    if cs == [] then []
    else
      var last := cs[|cs| - 1];
      assert Below(last, rank, bound);
      ListTrace(cs[..|cs| - 1], rank, bound) + Trace(last, rank)
  }

  class CompositeC {
    const hash: string
    var componentList: seq<Component>

    constructor (hash: string)
      ensures this.hash == hash && componentList == []
    {
      this.hash := hash;
      componentList := [];
    }

    function Line(): string
    {
      CallLine("com.pattern.structural.CompositeC", hash)
    }

    /** `add`: append at the end. */
    method Add(component: Component)
      modifies this
      ensures componentList == old(componentList) + [component]
    {
      componentList := componentList + [component];
    }

    /** `remove`: delete the first occurrence, if there is one. */
    method Remove(component: Component)
      modifies this
      ensures componentList == RemoveFirst(old(componentList), component)
    {
      componentList := RemoveFirst(componentList, component);
    }

    /** `operation`: print this composite's line, then run every child's `operation`
        in list order. The ghost `rank` is the termination argument. */
    method Operation(out: Console, ghost rank: map<CompositeC, nat>)
      requires Ranked(rank) && this in rank
      modifies out
      ensures out.lines == old(out.lines) + Trace(CompositeRef(this), rank)
      decreases rank[this] + 1, 0
    {
      out.PrintLn(Line());
      ghost var cs, bound := componentList, rank[this];
      var i := 0;
      while i < |componentList|
        invariant 0 <= i <= |cs|
        invariant forall j | 0 <= j < |cs| :: Below(cs[j], rank, bound)
        invariant out.lines == old(out.lines) + [Line()] + ListTrace(cs[..i], rank, bound)
        decreases |cs| - i
      {
        ListTraceStep(cs, i, rank, bound);
        RunOperation(componentList[i], out, rank);
        i := i + 1;
      }
      assert cs[..i] == cs;
    }
  }

  /** `component.operation()` through the `Component` interface: the call dispatches
      to the leaf's or the composite's own `operation`. */
  method RunOperation(x: Component, out: Console, ghost rank: map<CompositeC, nat>)
    requires Ranked(rank) && Traceable(x, rank)
    modifies out
    ensures out.lines == old(out.lines) + Trace(x, rank)
    decreases Measure(x, rank), 1
  {
    match x
    case LeafRef(l) => l.Operation(out);
    case CompositeRef(c) => c.Operation(out, rank);
  }

  /** One more child traced: the output of the first `i + 1` children is that of the
      first `i` followed by that of child `i`. */
  lemma ListTraceStep(cs: seq<Component>, i: nat, rank: map<CompositeC, nat>, bound: nat)
    requires Ranked(rank) && i < |cs| && forall j | 0 <= j < |cs| :: Below(cs[j], rank, bound)
    ensures Traceable(cs[i], rank)
    ensures ListTrace(cs[..i + 1], rank, bound) == ListTrace(cs[..i], rank, bound) + Trace(cs[i], rank)
  {
    assert cs[..i + 1][..i] == cs[..i];
    assert Below(cs[i], rank, bound);
  }

  /** The index of the first element of `s` equal to `x`, or `|s|` when there is none. */
  function IndexOf<T(==)>(s: seq<T>, x: T): (k: nat)
    ensures k <= |s| && (k < |s| ==> s[k] == x)
    decreases |s|
  {
    if s == [] then 0 else if s[0] == x then 0 else 1 + IndexOf(s[1..], x)
  }

  /** No element before `IndexOf(s, x)` equals `x`. */
  lemma {:induction false} IndexOfIsFirst<T>(s: seq<T>, x: T, j: nat)
    requires j < IndexOf(s, x)
    ensures s[j] != x
    decreases |s|
  {
    if j > 0 {
      IndexOfIsFirst(s[1..], x, j - 1);
    }
  }

  /** `IndexOf` finds `x` exactly when `x` occurs in `s`. */
  lemma IndexOfFinds<T>(s: seq<T>, x: T)
    ensures IndexOf(s, x) < |s| <==> x in s
  {
    if x in s && IndexOf(s, x) == |s| {
      var j :| 0 <= j < |s| && s[j] == x;
      IndexOfIsFirst(s, x, j);
    }
  }

  /** `ArrayList.remove(Object)`: drop the first element equal to `x`, if there is one. */
  function RemoveFirst<T(==)>(s: seq<T>, x: T): seq<T>
    decreases |s|
  {
    if s == [] then []
    else if s[0] == x then s[1..]
    else [s[0]] + RemoveFirst(s[1..], x)
  }

  /** Removing leaves a list without `x` unchanged, and otherwise cuts out exactly the
      first occurrence of `x`, keeping everything before and after it in order. */
  lemma {:induction false} RemoveFirstSpec<T>(s: seq<T>, x: T)
    ensures IndexOf(s, x) == |s| ==> RemoveFirst(s, x) == s
    ensures IndexOf(s, x) < |s| ==> RemoveFirst(s, x) == s[..IndexOf(s, x)] + s[IndexOf(s, x) + 1..]
    decreases |s|
  {
    if s != [] {
      if s[0] == x {
        assert s[..0] + s[1..] == s[1..];
      } else {
        RemoveFirstSpec(s[1..], x);
        ConsStep(s, RemoveFirst(s[1..], x), IndexOf(s[1..], x));
      }
    }
  }

  /** Putting the head back in front of the tail's removal result. */
  lemma ConsStep<T>(s: seq<T>, rt: seq<T>, k: nat)
    requires 0 < |s| && k < |s|
    requires k == |s| - 1 ==> rt == s[1..]
    requires k < |s| - 1 ==> rt == s[1..][..k] + s[1..][k + 1..]
    ensures k == |s| - 1 ==> [s[0]] + rt == s
    ensures k < |s| - 1 ==> [s[0]] + rt == s[..k + 1] + s[k + 2..]
  {
    if k < |s| - 1 {
      assert s[..k + 1] == [s[0]] + s[1..][..k];
      assert s[k + 2..] == s[1..][k + 1..];
    } else {
      assert s == [s[0]] + s[1..];
    }
  }

  /** Cutting out position `k` takes exactly one copy of `s[k]` out of the multiset. */
  lemma CutMultiset<T>(s: seq<T>, k: nat, r: seq<T>)
    requires k < |s| && r == s[..k] + s[k + 1..]
    ensures multiset(r) + multiset{s[k]} == multiset(s)
  {
    assert s == s[..k] + [s[k]] + s[k + 1..];
  }

  /** Removing a present element takes out exactly one copy of it and keeps every
      other element. */
  lemma RemoveFirstMultiset<T>(s: seq<T>, x: T)
    ensures x in s ==> multiset(RemoveFirst(s, x)) + multiset{x} == multiset(s)
  {
    if x in s {
      IndexOfFinds(s, x);
      RemoveFirstSpec(s, x);
      CutMultiset(s, IndexOf(s, x), RemoveFirst(s, x));
    }
  }

  /** The output of a concatenated list is the output of its parts. */
  lemma {:induction false} ListTraceAppend(a: seq<Component>, b: seq<Component>, rank: map<CompositeC, nat>, bound: nat)
    requires Ranked(rank)
    requires forall i | 0 <= i < |a| :: Below(a[i], rank, bound)
    requires forall i | 0 <= i < |b| :: Below(b[i], rank, bound)
    ensures forall i | 0 <= i < |a + b| :: Below((a + b)[i], rank, bound)
    ensures ListTrace(a + b, rank, bound) == ListTrace(a, rank, bound) + ListTrace(b, rank, bound)
    decreases |b|
  {
    assert forall i | 0 <= i < |a + b| :: (a + b)[i] == if i < |a| then a[i] else b[i - |a|];
    if b != [] {
      var b' := b[..|b| - 1];
      assert (a + b)[..|a + b| - 1] == a + b';
      ListTraceAppend(a, b', rank, bound);
    } else {
      assert a + b == a;
    }
  }

  /** The ranked composites of rank below `b`. */
  ghost function LowerPart(rank: map<CompositeC, nat>, b: nat): (low: map<CompositeC, nat>)
    ensures forall d | d in low :: d in rank && low[d] == rank[d] < b
    ensures forall d | d in rank && rank[d] < b :: d in low
  {
    map d | d in rank && rank[d] < b :: rank[d]
  }

  /** The output of a component ranked below `b` depends only on the composites ranked
      below `b`: it is the same under `rank` and under `LowerPart(rank, b)`. */
  lemma {:induction false} TraceLower(x: Component, rank: map<CompositeC, nat>, b: nat)
    requires Ranked(rank) && Below(x, rank, b)
    ensures Ranked(LowerPart(rank, b)) && Traceable(x, LowerPart(rank, b))
    ensures Trace(x, rank) == Trace(x, LowerPart(rank, b))
    decreases Measure(x, rank), 0
  {
    var low := LowerPart(rank, b);
    LowerPartRanked(rank, b);
    if x.CompositeRef? {
      var d := x.composite;
      assert forall i | 0 <= i < |d.componentList| :: Below(d.componentList[i], rank, rank[d]);
      ListTraceLower(d.componentList, rank, rank[d], b);
    }
  }

  lemma {:induction false} ListTraceLower(cs: seq<Component>, rank: map<CompositeC, nat>, bound: nat, b: nat)
    requires Ranked(rank) && bound <= b
    requires forall i | 0 <= i < |cs| :: Below(cs[i], rank, bound)
    ensures Ranked(LowerPart(rank, b))
    ensures forall i | 0 <= i < |cs| :: Below(cs[i], LowerPart(rank, b), bound)
    ensures ListTrace(cs, rank, bound) == ListTrace(cs, LowerPart(rank, b), bound)
    decreases bound, 1, |cs|
  {
    LowerPartRanked(rank, b);
    if cs != [] {
      var last := cs[|cs| - 1];
      assert Below(last, rank, bound);
      ListTraceLower(cs[..|cs| - 1], rank, bound, b);
      TraceLower(last, rank, b);
    }
  }

  lemma LowerPartRanked(rank: map<CompositeC, nat>, b: nat)
    requires Ranked(rank)
    ensures Ranked(LowerPart(rank, b))
  {
    var low := LowerPart(rank, b);
    forall d, i | d in low && 0 <= i < |d.componentList|
      ensures Below(d.componentList[i], low, low[d])
    {
      assert Below(d.componentList[i], rank, rank[d]);
    }
  }

  /** `add(component)` on a ranked composite, with `component` ranked below it: the
      composite now prints what it printed before, followed by the output of `component`. */
  method AddThenTrace(c: CompositeC, component: Component, ghost rank: map<CompositeC, nat>)
    requires Ranked(rank) && c in rank && Below(component, rank, rank[c])
    modifies c
    ensures c.componentList == old(c.componentList) + [component]
    ensures Ranked(rank)
    ensures Trace(CompositeRef(c), rank) == old(Trace(CompositeRef(c), rank)) + Trace(component, rank)
  {
    ghost var before, low := c.componentList, LowerPart(rank, rank[c]);
    CompositeTraceLower(c, rank);
    ghost var t := ListTrace(before, low, rank[c]);
    c.Add(component);
    assert Ranked(rank) by {
      forall d, i | d in rank && 0 <= i < |d.componentList|
        ensures Below(d.componentList[i], rank, rank[d])
      {
        if d == c && i == |before| {
        } else {
          assert d.componentList[i] == old(d.componentList[i]);
        }
      }
    }
    AddedTrace(c, rank, before, component);
  }

  /** A composite's output, with its children's output taken under `LowerPart`. */
  lemma CompositeTraceLower(c: CompositeC, rank: map<CompositeC, nat>)
    requires Ranked(rank) && c in rank
    ensures Ranked(LowerPart(rank, rank[c])) && c !in LowerPart(rank, rank[c])
    ensures forall i | 0 <= i < |c.componentList| :: Below(c.componentList[i], LowerPart(rank, rank[c]), rank[c])
    ensures Trace(CompositeRef(c), rank) == [c.Line()] + ListTrace(c.componentList, LowerPart(rank, rank[c]), rank[c])
  {
    assert forall i | 0 <= i < |c.componentList| :: Below(c.componentList[i], rank, rank[c]);
    ListTraceLower(c.componentList, rank, rank[c], rank[c]);
  }

  /** The output of a composite whose last child is `component`. */
  lemma AddedTrace(c: CompositeC, rank: map<CompositeC, nat>, before: seq<Component>, component: Component)
    requires Ranked(rank) && c in rank && c.componentList == before + [component]
    requires Below(component, rank, rank[c])
    ensures Ranked(LowerPart(rank, rank[c]))
    ensures forall i | 0 <= i < |before| :: Below(before[i], LowerPart(rank, rank[c]), rank[c])
    ensures Trace(CompositeRef(c), rank)
         == [c.Line()] + ListTrace(before, LowerPart(rank, rank[c]), rank[c]) + Trace(component, rank)
  {
    var low := LowerPart(rank, rank[c]);
    CompositeTraceLower(c, rank);
    assert c.componentList[|before|] == component;
    assert forall i | 0 <= i < |before| :: before[i] == c.componentList[i];
    assert c.componentList[..|c.componentList| - 1] == before;
    TraceLower(component, rank, rank[c]);
  }

  /** Every traced component prints its own line first. */
  lemma TraceStartsWithOwnLine(x: Component, rank: map<CompositeC, nat>)
    requires Ranked(rank) && Traceable(x, rank)
    ensures |Trace(x, rank)| > 0
    ensures Trace(x, rank)[0] == (if x.LeafRef? then x.leaf.Line() else x.composite.Line())
  {
  }

  /** A chain of composites, each holding the next as a child. */
  ghost predicate IsPath(p: seq<CompositeC>)
    reads set i | 0 <= i < |p| :: p[i]
  {
    forall i | 0 <= i < |p| - 1 :: CompositeRef(p[i + 1]) in p[i].componentList
  }

  /** Ranks fall by at least one along every chain that starts at a ranked composite,
      so no such chain returns to where it started. */
  lemma {:induction false} RankFallsAlongPath(p: seq<CompositeC>, rank: map<CompositeC, nat>)
    requires Ranked(rank) && |p| > 0 && p[0] in rank && IsPath(p)
    ensures p[|p| - 1] in rank && rank[p[|p| - 1]] + |p| - 1 <= rank[p[0]]
    ensures |p| > 1 ==> p[|p| - 1] != p[0]
    decreases |p|
  {
    if |p| > 1 {
      var q := p[..|p| - 1];
      assert IsPath(q) by {
        forall i | 0 <= i < |q| - 1 ensures CompositeRef(q[i + 1]) in q[i].componentList {
          assert q[i] == p[i] && q[i + 1] == p[i + 1];
        }
      }
      RankFallsAlongPath(q, rank);
      var c, d := p[|p| - 2], p[|p| - 1];
      assert CompositeRef(d) in c.componentList;
      var j :| 0 <= j < |c.componentList| && c.componentList[j] == CompositeRef(d);
      assert Below(c.componentList[j], rank, rank[c]);
    }
  }

  /** A composite that holds itself, as `compositeC2.add(compositeC2)` makes one, has
      no rank: `operation` on it would never return. */
  lemma SelfHoldingHasNoRank(c: CompositeC, rank: map<CompositeC, nat>)
    requires Ranked(rank) && CompositeRef(c) in c.componentList
    ensures c !in rank
  {
    if c in rank {
      RankFallsAlongPath([c, c], rank);
    }
  }

  /** The object graph of `Composite.main`: `compositeC1` holds only `leaf1`, while
      `compositeC2` holds itself and three leaves. `compositeC1.operation()` never
      reaches `compositeC2`, so it prints two lines and returns. */
  method MainScenario(out: Console, hashes: seq<string>) returns (compositeC1: CompositeC, compositeC2: CompositeC)
    requires |hashes| == 6
    modifies out
    ensures |compositeC1.componentList| == 1 && compositeC1.componentList[0].LeafRef?
    ensures CompositeRef(compositeC2) in compositeC2.componentList
    ensures out.lines == old(out.lines) + [
      CallLine("com.pattern.structural.CompositeC", hashes[0]),
      CallLine("com.pattern.structural.Leaf", hashes[1])]
  {
    compositeC1 := new CompositeC(hashes[0]);
    var leaf1 := new Leaf(hashes[1]);
    compositeC2 := new CompositeC(hashes[2]);
    compositeC1.Add(LeafRef(leaf1));
    compositeC2.Add(CompositeRef(compositeC2));
    var leaf2 := new Leaf(hashes[3]);
    var leaf3 := new Leaf(hashes[4]);
    var leaf4 := new Leaf(hashes[5]);
    compositeC2.Add(LeafRef(leaf2));
    compositeC2.Add(LeafRef(leaf3));
    compositeC2.Add(LeafRef(leaf4));
    ghost var rank := map[compositeC1 := 0];
    assert compositeC1.componentList == [LeafRef(leaf1)];
    assert Ranked(rank);
    compositeC1.Operation(out, rank);
    assert compositeC1.componentList[..0] == [];
    assert ListTrace(compositeC1.componentList, rank, 0)
        == ListTrace([], rank, 0) + Trace(LeafRef(leaf1), rank);
  }
}
