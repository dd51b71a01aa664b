/** The dependency walk (internal/runner/dag.go). */
module Dag {
  import opened Config

  // ---------------------------------------------------------------- the walk

  /** The two variables the recursive closure updates, and the first unknown name it met. */
  datatype Walk = Walk(visited: set<string>, order: seq<string>, unknown: Option<string>)

  function Visit(g: seq<Target>, name: string, w: Walk): (r: Walk)
    ensures w.visited <= r.visited
    decreases Names(g) - w.visited, 0
  {
    if name in w.visited then w
    else
      var w1 := w.(visited := w.visited + {name});
      match TargetByName(g, name)
      case None => w1.(unknown := Some(name))
      case Some(t) =>
        assert t.name in Names(g);
        var w2 := VisitAll(g, t.deps, w1);
        if w2.unknown.Some? then w2 else w2.(order := w2.order + [name])
  }

  function VisitAll(g: seq<Target>, deps: seq<string>, w: Walk): (r: Walk)
    ensures w.visited <= r.visited
    decreases Names(g) - w.visited, |deps| + 1
  {
    if deps == [] then w
    else
      var w1 := Visit(g, deps[0], w);
      if w1.unknown.Some? then w1
      else
        assert Names(g) - w1.visited <= Names(g) - w.visited;
        VisitAll(g, deps[1..], w1)
  }

  const Start := Walk({}, [], None)

  /** The result of the walk from `name`: an error naming the unknown dependency, or the order. */
  datatype OrderResult = Unknown(name: string) | Order(names: seq<string>)

  function OrderOf(g: seq<Target>, name: string): (r: OrderResult) {
    var w := Visit(g, name, Start);
    match w.unknown
    case Some(u) => Unknown(u)
    case None => Order(w.order)
  }

  /** The closure of the source with the variables it captures. */
  class Walker {
    const g: seq<Target>
    var visited: set<string>
    var order: seq<string>

    constructor (g: seq<Target>)
      ensures this.g == g && visited == {} && order == []
    {
      this.g := g;
      visited, order := {}, [];
    }

    ghost function Value(unknown: Option<string>): Walk
      reads this
    {
      Walk(visited, order, unknown)
    }

    method VisitName(name: string) returns (unknown: Option<string>)
      modifies this
      ensures Value(unknown) == Visit(g, name, old(Value(None)))
      decreases Names(g) - visited
    {
      if name in visited {
        return None;
      }
      visited := visited + {name};
      var found := TargetByName(g, name);
      if found.None? {
        return Some(name);
      }
      var deps := found.value.deps;
      assert name in Names(g);
      ghost var w1 := Value(None);
      var i := 0;
      while i < |deps|
        invariant 0 <= i <= |deps|
        invariant w1.visited <= visited
        invariant VisitAll(g, deps, w1) == VisitAll(g, deps[i..], Value(None))
      {
        assert deps[i..][0] == deps[i] && deps[i..][1..] == deps[i + 1..];
        unknown := VisitName(deps[i]);
        if unknown.Some? {
          return;
        }
        i := i + 1;
      }
      order := order + [name];
      unknown := None;
    }
  }

  method TopoOrder(g: seq<Target>, targetName: string) returns (r: OrderResult)
    ensures r == OrderOf(g, targetName)
  {
    var walker := new Walker(g);
    var unknown := walker.VisitName(targetName);
    if unknown.Some? {
      return Unknown(unknown.value);
    }
    return Order(walker.order);
  }

  // ------------------------------------------------------------ reachability

  ghost predicate Edge(g: seq<Target>, a: string, b: string) {
    var t := TargetByName(g, a);
    t.Some? && b in t.value.deps
  }

  /** A path follows dependency edges; its source is p[0] and its end the last element. */
  ghost predicate IsPath(g: seq<Target>, p: seq<string>) {
    |p| > 0 && forall i :: 0 <= i < |p| - 1 ==> Edge(g, p[i], p[i + 1])
  }

  ghost predicate PathBetween(g: seq<Target>, a: string, b: string, p: seq<string>) {
    IsPath(g, p) && p[0] == a && p[|p| - 1] == b
  }

  ghost predicate Reaches(g: seq<Target>, a: string, b: string) {
    exists p :: PathBetween(g, a, b, p)
  }

  /** No target that `t` reaches can come back to itself through one of its dependencies; cycles elsewhere are
      allowed. */
  ghost predicate AcyclicFrom(g: seq<Target>, t: string) {
    forall a, b :: Reaches(g, t, a) && Edge(g, a, b) ==> !Reaches(g, b, a)
  }

  lemma {:induction false} ReachesSelf(g: seq<Target>, a: string)
    ensures Reaches(g, a, a)
  {
    assert PathBetween(g, a, a, [a]);
  }

  lemma {:induction false} ReachesStep(g: seq<Target>, a: string, b: string, c: string)
    requires Reaches(g, a, b) && Edge(g, b, c)
    ensures Reaches(g, a, c)
  {
    var p :| PathBetween(g, a, b, p);
    assert PathBetween(g, a, c, p + [c]);
  }

  lemma {:induction false} ReachesTransitive(g: seq<Target>, a: string, b: string, c: string)
    requires Reaches(g, a, b) && Reaches(g, b, c)
    ensures Reaches(g, a, c)
  {
    var p :| PathBetween(g, a, b, p);
    var q :| PathBetween(g, b, c, q);
    assert PathBetween(g, a, c, p + q[1..]);
  }

  /** A set that contains the source and is closed under edges contains what is reachable. */
  lemma {:induction false} ClosedContains(g: seq<Target>, closed: set<string>, p: seq<string>)
    requires IsPath(g, p) && p[0] in closed
    requires forall a, b :: a in closed && Edge(g, a, b) ==> b in closed
    ensures p[|p| - 1] in closed
    decreases |p|
  {
    if |p| > 1 {
      assert Edge(g, p[0], p[1]);
      assert IsPath(g, p[1..]) by {
        forall i | 0 <= i < |p[1..]| - 1 ensures Edge(g, p[1..][i], p[1..][i + 1]) {
          assert Edge(g, p[i + 1], p[i + 2]);
        }
      }
      ClosedContains(g, closed, p[1..]);
    }
  }

  // ------------------------------------------------ what every walk maintains

  ghost predicate Before(order: seq<string>, a: string, b: string) {
    exists i, j :: 0 <= i < j < |order| && order[i] == a && order[j] == b
  }

  ghost predicate NoDuplicates(order: seq<string>) {
    forall i, j :: 0 <= i < j < |order| ==> order[i] != order[j]
  }

  /** Names whose visit has begun and not ended: the recursion stack. */
  ghost function OnStack(w: Walk): set<string> {
    set x | x in w.visited && x !in w.order
  }

  ghost predicate EdgeSettled(g: seq<Target>, w: Walk, n: string, d: string) {
    d in w.visited && (Before(w.order, d, n) || Reaches(g, d, n))
  }

  ghost predicate Settled(g: seq<Target>, w: Walk) {
    && w.unknown.None?
    && NoDuplicates(w.order)
    && (forall n :: n in w.order ==> n in w.visited && TargetByName(g, n).Some?)
    && (forall n, d :: n in w.order && Edge(g, n, d) ==> EdgeSettled(g, w, n, d))
  }

  ghost predicate Grown(g: seq<Target>, w: Walk, r: Walk, from: set<string>) {
    && Settled(g, r)
    && w.order <= r.order
    && OnStack(r) == OnStack(w)
    && from <= r.visited
    && (forall n :: n in r.order && n !in w.order ==> exists f :: f in from && Reaches(g, f, n))
  }

  ghost predicate Failed(g: seq<Target>, r: Walk, from: set<string>) {
    && r.unknown.Some?
    && TargetByName(g, r.unknown.value).None?
    && exists f :: f in from && Reaches(g, f, r.unknown.value)
  }

  function Elements(s: seq<string>): set<string> {
    set x | x in s
  }

  lemma {:induction false} VisitGrows(g: seq<Target>, name: string, w: Walk)
    requires Settled(g, w)
    requires forall x :: x in OnStack(w) ==> Reaches(g, x, name)
    ensures var r := Visit(g, name, w);
            if r.unknown.Some? then Failed(g, r, {name}) else Grown(g, w, r, {name})
    decreases Names(g) - w.visited, 0
  {
    ReachesSelf(g, name);
    if name !in w.visited {
      var w1 := w.(visited := w.visited + {name});
      var found := TargetByName(g, name);
      if found.Some? {
        var deps := found.value.deps;
        assert name in Names(g);
        assert OnStack(w1) == OnStack(w) + {name};
        forall x, d | x in OnStack(w1) && d in deps ensures Reaches(g, x, d) {
          assert Edge(g, name, d);
          ReachesStep(g, x, name, d);
        }
        forall n, d | n in w1.order && Edge(g, n, d) ensures EdgeSettled(g, w1, n, d) {
          assert EdgeSettled(g, w, n, d);
        }
        VisitAllGrows(g, deps, w1);
        var w2 := VisitAll(g, deps, w1);
        if w2.unknown.Some? {
          var d :| d in Elements(deps) && Reaches(g, d, w2.unknown.value);
          assert Edge(g, name, d);
          ReachesStep(g, name, name, d);
          ReachesTransitive(g, name, d, w2.unknown.value);
        } else {
          FinishVisit(g, name, w, w2, deps);
        }
      }
    }
  }

  lemma {:induction false} FinishVisit(g: seq<Target>, name: string, w: Walk, w2: Walk, deps: seq<string>)
    requires Settled(g, w) && name !in w.visited
    requires TargetByName(g, name).Some? && TargetByName(g, name).value.deps == deps
    requires forall x :: x in OnStack(w) ==> Reaches(g, x, name)
    requires Grown(g, w.(visited := w.visited + {name}), w2, Elements(deps))
    ensures Grown(g, w, w2.(order := w2.order + [name]), {name})
  {
    var w1 := w.(visited := w.visited + {name});
    var r := w2.(order := w2.order + [name]);
    assert name in OnStack(w1);
    assert OnStack(r) == OnStack(w2) - {name} == OnStack(w) by {
      assert OnStack(w1) == OnStack(w) + {name};
    }
    ReachesSelf(g, name);
    forall n, d | n in r.order && Edge(g, n, d) ensures EdgeSettled(g, r, n, d) {
      if n == name {
        assert d in Elements(deps);
        if d in w2.order {
          var i :| 0 <= i < |w2.order| && w2.order[i] == d;
          assert r.order[i] == d && r.order[|w2.order|] == name;
        } else {
          assert d in OnStack(w1);
        }
      } else {
        assert EdgeSettled(g, w2, n, d);
        if Before(w2.order, d, n) {
          var i, j :| 0 <= i < j < |w2.order| && w2.order[i] == d && w2.order[j] == n;
          assert r.order[i] == d && r.order[j] == n;
        }
      }
    }
    forall n | n in r.order && n !in w.order ensures Reaches(g, name, n) {
      if n != name {
        var f :| f in Elements(deps) && Reaches(g, f, n);
        assert Edge(g, name, f);
        ReachesStep(g, name, name, f);
        ReachesTransitive(g, name, f, n);
      }
    }
  }

  lemma {:induction false} VisitAllGrows(g: seq<Target>, deps: seq<string>, w: Walk)
    requires Settled(g, w)
    requires forall x, d :: x in OnStack(w) && d in deps ==> Reaches(g, x, d)
    ensures var r := VisitAll(g, deps, w);
            if r.unknown.Some? then Failed(g, r, Elements(deps)) else Grown(g, w, r, Elements(deps))
    decreases Names(g) - w.visited, |deps| + 1
  {
    if deps != [] {
      VisitGrows(g, deps[0], w);
      var w1 := Visit(g, deps[0], w);
      assert deps[0] in Elements(deps);
      if w1.unknown.None? {
        assert Names(g) - w1.visited <= Names(g) - w.visited;
        VisitAllGrows(g, deps[1..], w1);
        assert Elements(deps) == {deps[0]} + Elements(deps[1..]);
      }
    }
  }

  // ------------------------------------------------------ the walk's theorems

  lemma {:induction false} WalkFromStart(g: seq<Target>, t: string)
    ensures OrderOf(g, t).Unknown? ==> TargetByName(g, OrderOf(g, t).name).None? && Reaches(g, t, OrderOf(g, t).name)
    ensures OrderOf(g, t).Order? ==>
              var w := Visit(g, t, Start);
              Grown(g, Start, w, {t}) && w.order == OrderOf(g, t).names && w.visited == Elements(w.order)
  {
    VisitGrows(g, t, Start);
    var w := Visit(g, t, Start);
    if w.unknown.None? {
      assert OnStack(w) == OnStack(Start) == {};
      assert forall x :: x in w.visited ==> x in w.order by {
        forall x | x in w.visited ensures x in w.order {
          assert x !in OnStack(w);
        }
      }
    }
  }

  /** The order holds exactly the reachable names, when there is one. */
  lemma {:induction false} OrderIsReachable(g: seq<Target>, t: string, n: string)
    requires OrderOf(g, t).Order?
    ensures n in OrderOf(g, t).names <==> Reaches(g, t, n)
  {
    WalkFromStart(g, t);
    var w := Visit(g, t, Start);
    if Reaches(g, t, n) {
      var p :| PathBetween(g, t, n, p);
      forall a, b | a in w.visited && Edge(g, a, b) ensures b in w.visited {
        assert EdgeSettled(g, w, a, b);
      }
      ClosedContains(g, w.visited, p);
    }
  }

  /** On any graph, cyclic or not: the walk fails exactly when an undefined name is reachable. */
  lemma {:induction false} TopoOrderFailsExactly(g: seq<Target>, t: string)
    ensures OrderOf(g, t).Unknown? <==> exists u :: Reaches(g, t, u) && TargetByName(g, u).None?
  {
    WalkFromStart(g, t);
    if OrderOf(g, t).Order? {
      forall u | Reaches(g, t, u) ensures TargetByName(g, u).Some? {
        OrderIsReachable(g, t, u);
      }
    }
  }

  /** On any graph: each reachable target once, the requested one last, and a dependency
      after its dependent only when it can come back to it. */
  lemma {:induction false} TopoOrderSound(g: seq<Target>, t: string)
    requires OrderOf(g, t).Order?
    ensures var order := OrderOf(g, t).names;
            && NoDuplicates(order)
            && order != [] && order[|order| - 1] == t
            && (forall n :: n in order <==> Reaches(g, t, n))
            && (forall n, d :: n in order && Edge(g, n, d) && !Reaches(g, d, n) ==> Before(order, d, n))
  {
    WalkFromStart(g, t);
    var w := Visit(g, t, Start);
    forall n ensures n in w.order <==> Reaches(g, t, n) {
      OrderIsReachable(g, t, n);
    }
    forall n, d | n in w.order && Edge(g, n, d) && !Reaches(g, d, n) ensures Before(w.order, d, n) {
      assert EdgeSettled(g, w, n, d);
    }
    assert t !in Start.visited;
  }

  // ------------------------------------------------------ the order among siblings

  /** Visiting the dependencies is visiting the first i, then the others. */
  lemma {:induction false} VisitAllSplit(g: seq<Target>, deps: seq<string>, w: Walk, i: nat)
    requires i <= |deps| && w.unknown.None?
    ensures var m := VisitAll(g, deps[..i], w);
            VisitAll(g, deps, w) == if m.unknown.Some? then m else VisitAll(g, deps[i..], m)
    decreases i
  {
    if i > 0 {
      var w1 := Visit(g, deps[0], w);
      assert deps[..i][0] == deps[0] && deps[..i][1..] == deps[1..][..i - 1];
      assert deps[1..][i - 1..] == deps[i..];
      if w1.unknown.None? {
        VisitAllSplit(g, deps[1..], w1, i - 1);
      }
    }
  }

  /** The walk of the requested target after its first i dependencies: only that target is on the stack. */
  lemma {:induction false} FirstDeps(g: seq<Target>, t: string, i: nat)
    requires TargetByName(g, t).Some? && i <= |TargetByName(g, t).value.deps|
    ensures var deps := TargetByName(g, t).value.deps;
            var w1 := Start.(visited := {t});
            var m := VisitAll(g, deps[..i], w1);
            var r := VisitAll(g, deps[i..], m);
            if m.unknown.Some? then Failed(g, m, Elements(deps[..i])) && OrderOf(g, t) == Unknown(m.unknown.value)
            else && Grown(g, w1, m, Elements(deps[..i])) && OnStack(m) == {t}
                 && OrderOf(g, t) == (if r.unknown.Some? then Unknown(r.unknown.value) else Order(r.order + [t]))
                 && (r.unknown.None? ==> m.order <= r.order)
  {
    var deps := TargetByName(g, t).value.deps;
    var w1 := Start.(visited := {t});
    assert OnStack(w1) == {t};
    forall d | d in deps ensures Reaches(g, t, d) {
      ReachesSelf(g, t);
      assert Edge(g, t, d);
      ReachesStep(g, t, t, d);
    }
    assert Start.visited + {t} == {t};
    VisitAllSplit(g, deps, w1, i);
    VisitAllGrows(g, deps[..i], w1);
    var m := VisitAll(g, deps[..i], w1);
    if m.unknown.None? {
      VisitAllGrows(g, deps[i..], m);
    }
  }

  /** On any graph: a dependency of the requested target comes before every name that neither it nor an earlier
      dependency reaches. */
  lemma {:induction false} SiblingsInOrder(g: seq<Target>, t: string, i: nat, n: string)
    requires OrderOf(g, t).Order? && n in OrderOf(g, t).names
    requires TargetByName(g, t).Some? && i < |TargetByName(g, t).value.deps|
    requires forall k :: 0 <= k <= i ==> !Reaches(g, TargetByName(g, t).value.deps[k], n)
    ensures var d := TargetByName(g, t).value.deps[i];
            d == t || Before(OrderOf(g, t).names, d, n)
  {
    var deps := TargetByName(g, t).value.deps;
    FirstDeps(g, t, i + 1);
    var m := VisitAll(g, deps[..i + 1], Start.(visited := {t}));
    var order := OrderOf(g, t).names;
    var d := deps[..i + 1][i];
    assert d in m.visited && n !in m.order;
    if d != t {
      assert d !in OnStack(m);
      var a :| 0 <= a < |m.order| && m.order[a] == d;
      var b :| 0 <= b < |order| && order[b] == n;
      assert order[..|m.order|] == m.order;
      assert order[a] == d;
    }
  }

  /** On any graph: the undefined name reported is one below the first dependency of the requested target that has
      one below it. */
  lemma {:induction false} FirstUnknown(g: seq<Target>, t: string, i: nat, x: string)
    requires TargetByName(g, t).Some? && i < |TargetByName(g, t).value.deps|
    requires forall k, u :: 0 <= k < i && Reaches(g, TargetByName(g, t).value.deps[k], u) ==> TargetByName(g, u).Some?
    requires Reaches(g, TargetByName(g, t).value.deps[i], x) && TargetByName(g, x).None?
    ensures OrderOf(g, t).Unknown? && Reaches(g, TargetByName(g, t).value.deps[i], OrderOf(g, t).name)
  {
    var deps := TargetByName(g, t).value.deps;
    var d := deps[i];
    assert Edge(g, t, d);
    ReachesSelf(g, t);
    ReachesStep(g, t, t, d);
    ReachesTransitive(g, t, d, x);
    TopoOrderFailsExactly(g, t);
    WalkFromStart(g, t);
    var u := OrderOf(g, t).name;
    FirstDeps(g, t, i + 1);
    var m := VisitAll(g, deps[..i + 1], Start.(visited := {t}));
    if m.unknown.Some? {
      var f :| f in Elements(deps[..i + 1]) && Reaches(g, f, u);
      var k :| 0 <= k <= i && deps[k] == f;
    } else if Reaches(g, d, t) {
      ReachesTransitive(g, d, t, u);
    } else {
      BelowIsDefined(g, m, t, d, x);
    }
  }

  lemma {:induction false} BelowIsDefined(g: seq<Target>, m: Walk, t: string, d: string, x: string)
    requires Settled(g, m) && OnStack(m) == {t} && d in m.visited && !Reaches(g, d, t) && Reaches(g, d, x)
    ensures TargetByName(g, x).Some?
  {
    var below := set y | y in m.visited && Reaches(g, d, y);
    ReachesSelf(g, d);
    forall a, b | a in below && Edge(g, a, b) ensures b in below {
      assert a !in OnStack(m);
      assert EdgeSettled(g, m, a, b);
      ReachesStep(g, d, a, b);
    }
    var p :| PathBetween(g, d, x, p);
    ClosedContains(g, below, p);
    assert x !in OnStack(m);
  }

  // ------------------------------------------------------ cycles

  /** Every dependency edge inside the order points backwards. */
  ghost predicate Topological(g: seq<Target>, order: seq<string>) {
    forall n, d :: n in order && Edge(g, n, d) ==> Before(order, d, n)
  }

  /** The walk yields a topological order exactly when no cycle is reachable. */
  lemma {:induction false} TopologicalExactly(g: seq<Target>, t: string)
    requires OrderOf(g, t).Order?
    ensures Topological(g, OrderOf(g, t).names) <==> AcyclicFrom(g, t)
  {
    TopoOrderSound(g, t);
    var order := OrderOf(g, t).names;
    if Topological(g, order) {
      forall n, d | Reaches(g, t, n) && Edge(g, n, d) ensures !Reaches(g, d, n) {
        assert Before(order, d, n);
        forall p ensures !PathBetween(g, d, n, p) {
          if PathBetween(g, d, n, p) {
            PathDescends(g, order, p, d, n);
          }
        }
      }
    }
  }

  /** Along a path of a topological order positions go down. */
  lemma {:induction false} PathDescends(g: seq<Target>, order: seq<string>, p: seq<string>, d: string, n: string)
    requires Topological(g, order) && NoDuplicates(order) && PathBetween(g, d, n, p)
    ensures !Before(order, d, n)
  {
    if Before(order, d, n) {
      var i, j :| 0 <= i < j < |order| && order[i] == d && order[j] == n;
      PositionBound(g, order, p, i);
    }
  }

  lemma {:induction false} PositionBound(g: seq<Target>, order: seq<string>, p: seq<string>, i: nat)
    requires Topological(g, order) && NoDuplicates(order) && IsPath(g, p)
    requires i < |order| && order[i] == p[0]
    ensures exists k :: 0 <= k <= i && order[k] == p[|p| - 1]
    decreases |p|
  {
    if |p| > 1 {
      assert Edge(g, p[0], p[1]);
      assert Before(order, p[1], p[0]);
      var a, b :| 0 <= a < b < |order| && order[a] == p[1] && order[b] == p[0];
      assert b == i;
      assert IsPath(g, p[1..]) by {
        forall k | 0 <= k < |p[1..]| - 1 ensures Edge(g, p[1..][k], p[1..][k + 1]) {
          assert Edge(g, p[k + 1], p[k + 2]);
        }
      }
      PositionBound(g, order, p[1..], a);
    }
  }
}
