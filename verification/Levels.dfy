/** Grouping the walk's order (internal/runner/dag.go). */
module Levels {
  // Targets of one level may run concurrently.

  import opened Config
  import opened Dag

  /** Last entry wins for a repeated name, unlike TargetByName, which takes the first. */
  function Edges(g: seq<Target>): (m: map<string, seq<string>>) {
    if g == [] then map[]
    else
      var last := g[|g| - 1];
      Edges(g[..|g| - 1])[last.name := last.deps]
  }

  method AllEdges(g: seq<Target>) returns (out: map<string, seq<string>>)
    ensures out == Edges(g)
  {
    out := map[];
    for i := 0 to |g|
      invariant out == Edges(g[..i])
    {
      out := out[g[i].name := g[i].deps];
      assert g[..i + 1][..i] == g[..i];
    }
    assert g[..|g|] == g;
  }

  function DepsIn(edges: map<string, seq<string>>, n: string): seq<string> {
    if n in edges then edges[n] else []
  }

  /** Reading a missing key of the level map gives 0. */
  function LevelAt(levelOf: map<string, nat>, d: string): nat {
    if d in levelOf then levelOf[d] else 0
  }

  function MaxDepLevel(deps: seq<string>, members: set<string>, levelOf: map<string, nat>): (m: int)
    ensures m >= -1
  {
    if deps == [] then -1
    else
      var d := deps[|deps| - 1];
      var m := MaxDepLevel(deps[..|deps| - 1], members, levelOf);
      if d in members && LevelAt(levelOf, d) > m then LevelAt(levelOf, d) else m
  }

  lemma {:induction false} MaxDepLevelMeans(deps: seq<string>, members: set<string>, levelOf: map<string, nat>)
    ensures var m := MaxDepLevel(deps, members, levelOf);
      && (forall d :: d in deps && d in members ==> LevelAt(levelOf, d) <= m)
      && (m >= 0 ==> exists d :: d in deps && d in members && LevelAt(levelOf, d) == m)
  {
    if deps != [] {
      var rest, d := deps[..|deps| - 1], deps[|deps| - 1];
      MaxDepLevelMeans(rest, members, levelOf);
      assert forall x :: x in deps <==> x in rest || x == d;
    }
  }

  function LevelMap(order: seq<string>, members: set<string>, edges: map<string, seq<string>>): map<string, nat> {
    if order == [] then map[]
    else
      var n := order[|order| - 1];
      var levelOf := LevelMap(order[..|order| - 1], members, edges);
      levelOf[n := MaxDepLevel(DepsIn(edges, n), members, levelOf) + 1]
  }

  lemma {:induction false} LevelMapKeys(order: seq<string>, members: set<string>, edges: map<string, seq<string>>)
    ensures forall n :: n in LevelMap(order, members, edges) <==> n in order
  {
    if order != [] {
      var rest, n := order[..|order| - 1], order[|order| - 1];
      LevelMapKeys(rest, members, edges);
      assert forall x :: x in order <==> x in rest || x == n;
    }
  }

  function MaxLevel(order: seq<string>, levelOf: map<string, nat>): nat {
    if order == [] then 0
    else
      var m := MaxLevel(order[..|order| - 1], levelOf);
      var l := LevelAt(levelOf, order[|order| - 1]);
      if l > m then l else m
  }

  lemma {:induction false} MaxLevelMeans(order: seq<string>, levelOf: map<string, nat>)
    ensures var m := MaxLevel(order, levelOf);
      && (forall n :: n in order ==> LevelAt(levelOf, n) <= m)
      && (m == 0 || exists n :: n in order && LevelAt(levelOf, n) == m)
  {
    if order != [] {
      var rest, n := order[..|order| - 1], order[|order| - 1];
      MaxLevelMeans(rest, levelOf);
      assert forall x :: x in order <==> x in rest || x == n;
    }
  }

  /** The names of one level, in walk order. */
  function AtLevel(order: seq<string>, levelOf: map<string, nat>, k: nat): seq<string> {
    if order == [] then []
    else
      var n := order[|order| - 1];
      var r := AtLevel(order[..|order| - 1], levelOf, k);
      if LevelAt(levelOf, n) == k then r + [n] else r
  }

  lemma {:induction false} AtLevelMeans(order: seq<string>, levelOf: map<string, nat>, k: nat)
    ensures forall n :: n in AtLevel(order, levelOf, k) <==> n in order && LevelAt(levelOf, n) == k
    ensures NoDuplicates(order) ==> NoDuplicates(AtLevel(order, levelOf, k))
  {
    if order != [] {
      var rest, n := order[..|order| - 1], order[|order| - 1];
      AtLevelMeans(rest, levelOf, k);
      assert forall x :: x in order <==> x in rest || x == n;
      assert NoDuplicates(order) ==> n !in rest;
    }
  }

  /** Names of one level stay in the order of the walk. */
  lemma {:induction false} AtLevelKeepsOrder(order: seq<string>, levelOf: map<string, nat>, k: nat, i: nat, j: nat)
    requires i < j < |AtLevel(order, levelOf, k)|
    ensures Before(order, AtLevel(order, levelOf, k)[i], AtLevel(order, levelOf, k)[j])
  {
    var rest, n := order[..|order| - 1], order[|order| - 1];
    var r := AtLevel(rest, levelOf, k);
    if j < |r| {
      AtLevelKeepsOrder(rest, levelOf, k, i, j);
      var a, b :| 0 <= a < b < |rest| && rest[a] == r[i] && rest[b] == r[j];
      assert order[a] == r[i] && order[b] == r[j];
    } else {
      AtLevelMeans(rest, levelOf, k);
      assert r[i] in rest;
      var a :| 0 <= a < |rest| && rest[a] == r[i];
      assert order[a] == r[i] && order[|order| - 1] == n;
    }
  }

  /** A name of the order lies in the group of its level and in no other. */
  lemma {:induction false} InLevel(order: seq<string>, levelOf: map<string, nat>, n: string)
    ensures forall k :: 0 <= k <= MaxLevel(order, levelOf) ==>
      (n in Grouped(order, levelOf)[k] <==> n in order && LevelAt(levelOf, n) == k)
    ensures n in order ==> LevelAt(levelOf, n) <= MaxLevel(order, levelOf)
  {
    MaxLevelMeans(order, levelOf);
    forall k | 0 <= k <= MaxLevel(order, levelOf)
      ensures n in Grouped(order, levelOf)[k] <==> n in order && LevelAt(levelOf, n) == k
    {
      AtLevelMeans(order, levelOf, k);
    }
  }

  datatype LevelResult = UnknownDep(name: string) | Leveled(levels: seq<seq<string>>)

  function LevelMapOf(g: seq<Target>, order: seq<string>): (r: map<string, nat>) {
    LevelMap(order, Elements(order), Edges(g))
  }

  function LevelsOf(g: seq<Target>, t: string): (r: LevelResult) {
    match OrderOf(g, t)
    case Unknown(u) => UnknownDep(u)
    case Order(order) =>
      var levelOf := LevelMapOf(g, order);
      Leveled(Grouped(order, levelOf))
  }

  function Grouped(order: seq<string>, levelOf: map<string, nat>): (levels: seq<seq<string>>) {
    seq(MaxLevel(order, levelOf) + 1, (k: nat) => AtLevel(order, levelOf, k))
  }

  /** The targets of one level are listed as the walk lists them. */
  lemma {:induction false} LevelsKeepOrder(g: seq<Target>, t: string, k: nat, i: nat, j: nat)
    requires LevelsOf(g, t).Leveled? && k < |LevelsOf(g, t).levels| && i < j < |LevelsOf(g, t).levels[k]|
    ensures Before(OrderOf(g, t).names, LevelsOf(g, t).levels[k][i], LevelsOf(g, t).levels[k][j])
  {
    var order := OrderOf(g, t).names;
    AtLevelKeepsOrder(order, LevelMapOf(g, order), k, i, j);
  }

  method LevelOrder(g: seq<Target>, t: string) returns (r: LevelResult)
    ensures r == LevelsOf(g, t)
  {
    var walked := TopoOrder(g, t);
    if walked.Unknown? {
      return UnknownDep(walked.name);
    }
    var order := walked.names;
    var edges := AllEdges(g);
    var levelOf := AssignLevels(order, edges);
    LevelMapKeys(order, Elements(order), edges);
    var levels := GroupByLevel(order, levelOf);
    return Leveled(levels);
  }

  method AssignLevels(order: seq<string>, edges: map<string, seq<string>>) returns (levelOf: map<string, nat>)
    ensures levelOf == LevelMap(order, Elements(order), edges)
  {
    var members := set n | n in order;
    levelOf := map[];
    for i := 0 to |order|
      invariant levelOf == LevelMap(order[..i], members, edges)
    {
      var maxDepLevel := HighestDep(DepsIn(edges, order[i]), members, levelOf);
      assert order[..i + 1][..i] == order[..i];
      levelOf := levelOf[order[i] := maxDepLevel + 1];
    }
    assert order[..|order|] == order;
  }

  /** The inner loop: dependencies outside the order do not count. */
  method HighestDep(deps: seq<string>, members: set<string>, levelOf: map<string, nat>) returns (maxDepLevel: int)
    ensures maxDepLevel == MaxDepLevel(deps, members, levelOf)
  {
    maxDepLevel := -1;
    for j := 0 to |deps|
      invariant maxDepLevel == MaxDepLevel(deps[..j], members, levelOf)
    {
      assert deps[..j + 1][..j] == deps[..j];
      if deps[j] in members && LevelAt(levelOf, deps[j]) > maxDepLevel {
        maxDepLevel := LevelAt(levelOf, deps[j]);
      }
    }
    assert deps[..|deps|] == deps;
  }

  method GroupByLevel(order: seq<string>, levelOf: map<string, nat>) returns (levels: seq<seq<string>>)
    requires forall i :: 0 <= i < |order| ==> order[i] in levelOf
    ensures levels == Grouped(order, levelOf)
  {
    var maxLevel := HighestLevel(order, levelOf);
    levels := seq(maxLevel + 1, _ => []);
    for i := 0 to |order|
      invariant |levels| == maxLevel + 1
      invariant forall k :: 0 <= k < |levels| ==> levels[k] == AtLevel(order[..i], levelOf, k)
    {
      assert order[..i + 1][..i] == order[..i];
      var l := levelOf[order[i]];
      levels := levels[l := levels[l] + [order[i]]];
    }
    assert order[..|order|] == order;
  }

  method HighestLevel(order: seq<string>, levelOf: map<string, nat>) returns (maxLevel: nat)
    requires forall i :: 0 <= i < |order| ==> order[i] in levelOf
    ensures maxLevel == MaxLevel(order, levelOf)
    ensures forall i :: 0 <= i < |order| ==> levelOf[order[i]] <= maxLevel
  {
    maxLevel := 0;
    for i := 0 to |order|
      invariant maxLevel == MaxLevel(order[..i], levelOf)
      invariant forall k :: 0 <= k < i ==> levelOf[order[k]] <= maxLevel
    {
      assert order[..i + 1][..i] == order[..i];
      if levelOf[order[i]] > maxLevel {
        maxLevel := levelOf[order[i]];
      }
    }
    assert order[..|order|] == order;
  }

  // -------------------------------------------------------------- the theorems

  lemma {:induction false} EdgesHasNames(g: seq<Target>)
    ensures Edges(g).Keys == Names(g)
  {
    if g != [] {
      EdgesHasNames(g[..|g| - 1]);
      assert g == g[..|g| - 1] + [g[|g| - 1]];
    }
  }

  /** With distinct names the first match and the last match are the same target. */
  lemma {:induction false} EdgesAgree(g: seq<Target>, n: string)
    requires DistinctNames(g) && TargetByName(g, n).Some?
    ensures DepsIn(Edges(g), n) == TargetByName(g, n).value.deps
    decreases |g|
  {
    var rest, last := g[..|g| - 1], g[|g| - 1];
    var t := TargetByName(g, n).value;
    EdgesHasNames(g);
    if last.name == n {
      assert t == last;
    } else {
      assert t in rest by { assert g == rest + [last]; }
      assert TargetByName(rest, n).Some?;
      var u := TargetByName(rest, n).value;
      assert u == t;
      EdgesAgree(rest, n);
      EdgesHasNames(rest);
    }
  }

  /** Earlier levels are not changed by later names. */
  lemma {:induction false} LevelMapPrefix(order: seq<string>, i: nat, members: set<string>,
                                          edges: map<string, seq<string>>, n: string)
    requires NoDuplicates(order) && i <= |order| && n in order[..i]
    ensures LevelAt(LevelMap(order[..i], members, edges), n) == LevelAt(LevelMap(order, members, edges), n)
    decreases |order|
  {
    if i == |order| {
      assert order[..i] == order;
    } else {
      var rest := order[..|order| - 1];
      assert order[..i] == rest[..i];
      LevelMapPrefix(rest, i, members, edges, n);
      assert order[|order| - 1] != n;
    }
  }

  lemma {:induction false} MaxDepLevelMonotone(deps: seq<string>, members: set<string>, m1: map<string, nat>,
                                               m2: map<string, nat>)
    requires forall d :: d in deps && d in members ==> LevelAt(m1, d) <= LevelAt(m2, d)
    ensures MaxDepLevel(deps, members, m1) <= MaxDepLevel(deps, members, m2)
  {
    if deps != [] {
      MaxDepLevelMonotone(deps[..|deps| - 1], members, m1, m2);
    }
  }

  ghost predicate Suited(g: seq<Target>, t: string) {
    DistinctNames(g) && AcyclicFrom(g, t) && OrderOf(g, t).Order?
  }

  lemma {:induction false} DepsBefore(g: seq<Target>, t: string, i: nat, d: string)
    requires Suited(g, t) && i < |OrderOf(g, t).names| && Edge(g, OrderOf(g, t).names[i], d)
    ensures d in OrderOf(g, t).names[..i]
  {
    TopoOrderSound(g, t);
    var order := OrderOf(g, t).names;
    assert Before(order, d, order[i]);
    var a, b :| 0 <= a < b < |order| && order[a] == d && order[b] == order[i];
    assert order[..i][a] == d;
  }

  /** On a suited graph a level is one above the highest dependency's. */
  lemma {:induction false} LevelEquation(g: seq<Target>, t: string, n: string)
    requires Suited(g, t) && n in OrderOf(g, t).names
    ensures var order := OrderOf(g, t).names;
            var levelOf := LevelMapOf(g, order);
            && TargetByName(g, n).Some?
            && LevelAt(levelOf, n) == MaxDepLevel(TargetByName(g, n).value.deps, Elements(order), levelOf) + 1
  {
    var order := OrderOf(g, t).names;
    assert NoDuplicates(order) && TargetByName(g, n).Some? by {
      TopoOrderSound(g, t);
      WalkFromStart(g, t);
    }
    var i :| 0 <= i < |order| && order[i] == n;
    var members, edges := Elements(order), Edges(g);
    var here, all := LevelMap(order[..i], members, edges), LevelMap(order, members, edges);
    var deps := TargetByName(g, n).value.deps;
    forall d | d in deps && d in members ensures LevelAt(here, d) == LevelAt(all, d) {
      assert Edge(g, n, d);
      DepsBefore(g, t, i, d);
      LevelMapPrefix(order, i, members, edges, d);
    }
    MaxDepLevelMonotone(deps, members, here, all);
    MaxDepLevelMonotone(deps, members, all, here);
    LevelStep(g, order, i, deps);
  }

  lemma {:induction false} LevelStep(g: seq<Target>, order: seq<string>, i: nat, deps: seq<string>)
    requires DistinctNames(g) && NoDuplicates(order) && i < |order|
    requires TargetByName(g, order[i]).Some? && TargetByName(g, order[i]).value.deps == deps
    ensures var members := Elements(order);
            LevelAt(LevelMapOf(g, order), order[i]) ==
            MaxDepLevel(deps, members, LevelMap(order[..i], members, Edges(g))) + 1
  {
    EdgesAgree(g, order[i]);
    assert order[..i + 1][..i] == order[..i];
    LevelMapPrefix(order, i + 1, Elements(order), Edges(g), order[i]);
  }

  lemma {:induction false} EdgeGoesDown(g: seq<Target>, t: string, n: string, d: string)
    requires Suited(g, t) && n in OrderOf(g, t).names && Edge(g, n, d)
    ensures var order := OrderOf(g, t).names;
            d in order && LevelAt(LevelMapOf(g, order), d) < LevelAt(LevelMapOf(g, order), n)
  {
    LevelEquation(g, t, n);
    MaxDepLevelMeans(TargetByName(g, n).value.deps, Elements(OrderOf(g, t).names), LevelMapOf(g, OrderOf(g, t).names));
    OrderIsReachable(g, t, n);
    ReachesStep(g, t, n, d);
    OrderIsReachable(g, t, d);
  }

  lemma {:induction false} ChainGoesDown(g: seq<Target>, t: string, p: seq<string>)
    requires Suited(g, t) && IsPath(g, p) && p[0] in OrderOf(g, t).names
    ensures var order := OrderOf(g, t).names;
            var levelOf := LevelMapOf(g, order);
            p[|p| - 1] in order && LevelAt(levelOf, p[|p| - 1]) + |p| - 1 <= LevelAt(levelOf, p[0])
    decreases |p|
  {
    if |p| > 1 {
      assert Edge(g, p[0], p[1]);
      EdgeGoesDown(g, t, p[0], p[1]);
      assert IsPath(g, p[1..]) by {
        forall k | 0 <= k < |p[1..]| - 1 ensures Edge(g, p[1..][k], p[1..][k + 1]) {
          assert Edge(g, p[k + 1], p[k + 2]);
        }
      }
      ChainGoesDown(g, t, p[1..]);
    }
  }

  lemma {:induction false} LongestChain(g: seq<Target>, t: string, n: string) returns (p: seq<string>)
    requires Suited(g, t) && n in OrderOf(g, t).names
    ensures IsPath(g, p) && p[0] == n && |p| == LevelAt(LevelMapOf(g, OrderOf(g, t).names), n) + 1
    decreases LevelAt(LevelMapOf(g, OrderOf(g, t).names), n)
  {
    var order := OrderOf(g, t).names;
    var levelOf := LevelMapOf(g, order);
    LevelEquation(g, t, n);
    if LevelAt(levelOf, n) == 0 {
      p := [n];
    } else {
      var deps := TargetByName(g, n).value.deps;
      MaxDepLevelMeans(deps, Elements(order), levelOf);
      var d :| d in deps && d in Elements(order) && LevelAt(levelOf, d) == LevelAt(levelOf, n) - 1;
      assert Edge(g, n, d);
      var q := LongestChain(g, t, d);
      p := [n] + q;
      forall k | 0 <= k < |p| - 1 ensures Edge(g, p[k], p[k + 1]) {
        if k > 0 {
          assert Edge(g, q[k - 1], q[k]);
        }
      }
    }
  }

  /** The level of a reachable target is the length of its longest dependency chain. */
  lemma {:induction false} LevelIsLongestChain(g: seq<Target>, t: string, n: string, k: nat)
    requires Suited(g, t) && n in OrderOf(g, t).names
    ensures k == LevelAt(LevelMapOf(g, OrderOf(g, t).names), n) <==>
            && (exists p :: IsPath(g, p) && p[0] == n && |p| == k + 1)
            && (forall p :: IsPath(g, p) && p[0] == n ==> |p| <= k + 1)
  {
    var longest := LongestChain(g, t, n);
    forall p | IsPath(g, p) && p[0] == n ensures |p| <= |longest| {
      ChainGoesDown(g, t, p);
    }
  }

  ghost predicate BelowIn(levels: seq<seq<string>>, k: nat, d: string) {
    exists l :: 0 <= l < k && l < |levels| && d in levels[l]
  }

  ghost predicate DependsOnOneOf(g: seq<Target>, n: string, level: seq<string>) {
    exists d :: d in level && Edge(g, n, d)
  }

  /** What the parallel runner relies on: the levels partition the reachable targets,
      dependencies lie strictly lower, no level is empty or deeper than needed,
      and the requested target is alone on top. */
  ghost predicate Layered(g: seq<Target>, t: string, levels: seq<seq<string>>) {
    && (forall n :: Reaches(g, t, n) <==> BelowIn(levels, |levels|, n))
    && (forall k, l, n :: 0 <= k < |levels| && 0 <= l < |levels| && n in levels[k] && n in levels[l] ==> k == l)
    && (forall k :: 0 <= k < |levels| ==> NoDuplicates(levels[k]) && levels[k] != [])
    && (forall k, n, d :: 0 <= k < |levels| && n in levels[k] && Edge(g, n, d) ==> BelowIn(levels, k, d))
    && (forall k, n :: 0 < k < |levels| && n in levels[k] ==> DependsOnOneOf(g, n, levels[k - 1]))
    && |levels| > 0 && levels[|levels| - 1] == [t]
  }

  lemma {:induction false} NoEmptyLevel(g: seq<Target>, t: string, k: nat)
    requires Suited(g, t) && k <= MaxLevel(OrderOf(g, t).names, LevelMapOf(g, OrderOf(g, t).names))
    ensures var order := OrderOf(g, t).names;
            exists n :: n in order && LevelAt(LevelMapOf(g, order), n) == k
    decreases MaxLevel(OrderOf(g, t).names, LevelMapOf(g, OrderOf(g, t).names)) - k
  {
    var order := OrderOf(g, t).names;
    var levelOf := LevelMapOf(g, order);
    TopoOrderSound(g, t);
    assert t in order;
    if k < MaxLevel(order, levelOf) {
      NoEmptyLevel(g, t, k + 1);
      var n :| n in order && LevelAt(levelOf, n) == k + 1;
      LevelEquation(g, t, n);
      MaxDepLevelMeans(TargetByName(g, n).value.deps, Elements(order), levelOf);
      var d :| d in TargetByName(g, n).value.deps && d in Elements(order) && LevelAt(levelOf, d) == k;
    } else {
      MaxLevelMeans(order, levelOf);
      assert MaxLevel(order, levelOf) == 0 ==> LevelAt(levelOf, t) == 0;
    }
  }

  lemma {:induction false} RequestedIsTop(g: seq<Target>, t: string, n: string)
    requires Suited(g, t) && n in OrderOf(g, t).names && n != t
    ensures var levelOf := LevelMapOf(g, OrderOf(g, t).names);
            LevelAt(levelOf, n) < LevelAt(levelOf, t)
  {
    TopoOrderSound(g, t);
    var p :| PathBetween(g, t, n, p);
    ChainGoesDown(g, t, p);
  }

  /** No level is above the requested target's. */
  lemma {:induction false} RequestedIsHighest(g: seq<Target>, t: string, n: string)
    requires Suited(g, t) && n in OrderOf(g, t).names
    requires LevelAt(LevelMapOf(g, OrderOf(g, t).names), n) ==
      MaxLevel(OrderOf(g, t).names, LevelMapOf(g, OrderOf(g, t).names))
    ensures n == t
  {
    TopoOrderSound(g, t);
    InLevel(OrderOf(g, t).names, LevelMapOf(g, OrderOf(g, t).names), t);
    assert n != t ==>
      LevelAt(LevelMapOf(g, OrderOf(g, t).names), n) < LevelAt(LevelMapOf(g, OrderOf(g, t).names), t) by {
      if n != t {
        RequestedIsTop(g, t, n);
      }
    }
  }

  lemma {:induction false} SingletonLevel(order: seq<string>, levelOf: map<string, nat>, k: nat, t: string)
    requires NoDuplicates(order) && t in order && LevelAt(levelOf, t) == k
    requires forall n :: n in order && LevelAt(levelOf, n) == k ==> n == t
    ensures AtLevel(order, levelOf, k) == [t]
  {
    AtLevelMeans(order, levelOf, k);
    assert t in AtLevel(order, levelOf, k);
    OnlyElement(AtLevel(order, levelOf, k), t);
  }

  lemma {:induction false} LastLevel(g: seq<Target>, t: string)
    requires Suited(g, t)
    ensures var levels := LevelsOf(g, t).levels;
            levels != [] && levels[|levels| - 1] == [t]
  {
    var order := OrderOf(g, t).names;
    var levelOf := LevelMapOf(g, order);
    var top := MaxLevel(order, levelOf);
    forall n | n in order && LevelAt(levelOf, n) == top ensures n == t {
      RequestedIsHighest(g, t, n);
    }
    NoEmptyLevel(g, t, top);
    TopoOrderSound(g, t);
    SingletonLevel(order, levelOf, top, t);
  }

  lemma {:induction false} OnlyElement(s: seq<string>, t: string)
    requires NoDuplicates(s) && s != [] && forall x :: x in s ==> x == t
    ensures s == [t]
  {
    assert |s| > 1 ==> s[0] != s[1];
    forall i | 0 <= i < |s| ensures s[i] == t {
      assert s[i] in s;
    }
  }

  lemma {:induction false} GroupedPartition(order: seq<string>, levelOf: map<string, nat>)
    requires NoDuplicates(order)
    ensures var levels := Grouped(order, levelOf);
            && (forall n :: n in order <==> BelowIn(levels, |levels|, n))
            && (forall k, l, n :: 0 <= k < |levels| && 0 <= l < |levels| && n in levels[k] && n in levels[l] ==> k == l)
            && (forall k :: 0 <= k < |levels| ==> NoDuplicates(levels[k]))
  {
    var levels := Grouped(order, levelOf);
    forall n ensures n in order <==> BelowIn(levels, |levels|, n) {
      InLevel(order, levelOf, n);
      if n in order {
        assert n in levels[LevelAt(levelOf, n)];
      }
    }
    forall k, l, n | 0 <= k < |levels| && 0 <= l < |levels| && n in levels[k] && n in levels[l] ensures k == l {
      InLevel(order, levelOf, n);
    }
    forall k | 0 <= k < |levels| ensures NoDuplicates(levels[k]) {
      AtLevelMeans(order, levelOf, k);
    }
  }

  lemma {:induction false} LevelsDescend(g: seq<Target>, t: string, k: nat, n: string, d: string)
    requires Suited(g, t) && k < |LevelsOf(g, t).levels| && n in LevelsOf(g, t).levels[k] && Edge(g, n, d)
    ensures BelowIn(LevelsOf(g, t).levels, k, d)
  {
    var order := OrderOf(g, t).names;
    var levelOf := LevelMapOf(g, order);
    InLevel(order, levelOf, n);
    InLevel(order, levelOf, d);
    EdgeGoesDown(g, t, n, d);
    assert d in LevelsOf(g, t).levels[LevelAt(levelOf, d)];
  }

  lemma {:induction false} LevelsTight(g: seq<Target>, t: string, k: nat, n: string)
    requires Suited(g, t) && 0 < k < |LevelsOf(g, t).levels| && n in LevelsOf(g, t).levels[k]
    ensures DependsOnOneOf(g, n, LevelsOf(g, t).levels[k - 1])
  {
    var order := OrderOf(g, t).names;
    var levelOf := LevelMapOf(g, order);
    InLevel(order, levelOf, n);
    LevelEquation(g, t, n);
    MaxDepLevelMeans(TargetByName(g, n).value.deps, Elements(order), levelOf);
    var d :| d in TargetByName(g, n).value.deps && d in Elements(order) && LevelAt(levelOf, d) == k - 1;
    InLevel(order, levelOf, d);
    assert d in LevelsOf(g, t).levels[k - 1] && Edge(g, n, d);
  }

  lemma {:induction false} LevelsFilled(g: seq<Target>, t: string, k: nat)
    requires Suited(g, t) && k < |LevelsOf(g, t).levels|
    ensures LevelsOf(g, t).levels[k] != []
  {
    var order := OrderOf(g, t).names;
    NoEmptyLevel(g, t, k);
    var n :| n in order && LevelAt(LevelMapOf(g, order), n) == k;
    InLevel(order, LevelMapOf(g, order), n);
    assert n in LevelsOf(g, t).levels[k];
  }

  /** Every dependency of a target of a level is in a level strictly below. */
  ghost predicate Descending(g: seq<Target>, levels: seq<seq<string>>) {
    forall k, n, d :: 0 <= k < |levels| && n in levels[k] && Edge(g, n, d) ==> BelowIn(levels, k, d)
  }

  /** Where edges go down, paths do not go up. */
  lemma {:induction false} PathSinks(g: seq<Target>, levels: seq<seq<string>>, p: seq<string>, k: nat)
    requires Descending(g, levels) && IsPath(g, p) && k < |levels| && p[0] in levels[k]
    ensures exists j :: 0 <= j <= k && p[|p| - 1] in levels[j]
    decreases |p|
  {
    if |p| > 1 {
      assert Edge(g, p[0], p[1]) && BelowIn(levels, k, p[1]);
      var j :| 0 <= j < k && j < |levels| && p[1] in levels[j];
      var rest := p[1..];
      forall i | 0 <= i < |rest| - 1 ensures Edge(g, rest[i], rest[i + 1]) {
        assert Edge(g, p[i + 1], p[i + 2]);
      }
      PathSinks(g, levels, rest, j);
    }
  }

  /** Where edges go down between levels that share no name, none lies on a cycle. */
  lemma {:induction false} DescendingHasNoCycle(g: seq<Target>, levels: seq<seq<string>>, k: nat, n: string, d: string)
    requires Descending(g, levels) && k < |levels| && n in levels[k] && Edge(g, n, d)
    requires forall l :: 0 <= l < |levels| && n in levels[l] ==> l == k
    ensures !Reaches(g, d, n)
  {
    if Reaches(g, d, n) {
      var p :| PathBetween(g, d, n, p);
      assert BelowIn(levels, k, d);
      var j :| 0 <= j < k && j < |levels| && d in levels[j];
      PathSinks(g, levels, p, j);
    }
  }

  /** "Level k depends only on levels below k" holds on a graph with distinct names exactly when no reachable edge
      lies on a cycle. */
  lemma {:induction false} LevelsDescendExactly(g: seq<Target>, t: string)
    requires DistinctNames(g) && LevelsOf(g, t).Leveled?
    ensures Descending(g, LevelsOf(g, t).levels) <==> AcyclicFrom(g, t)
  {
    var levels := LevelsOf(g, t).levels;
    if AcyclicFrom(g, t) {
      forall k, n, d | 0 <= k < |levels| && n in levels[k] && Edge(g, n, d) ensures BelowIn(levels, k, d) {
        LevelsDescend(g, t, k, n, d);
      }
    }
    if Descending(g, levels) {
      TopoOrderSound(g, t);
      GroupedPartition(OrderOf(g, t).names, LevelMapOf(g, OrderOf(g, t).names));
      forall n, d | Reaches(g, t, n) && Edge(g, n, d) ensures !Reaches(g, d, n) {
        assert BelowIn(levels, |levels|, n);
        var k :| 0 <= k < |levels| && n in levels[k];
        DescendingHasNoCycle(g, levels, k, n, d);
      }
    }
  }

  /** LevelOrder on a graph with distinct names and no reachable cycle. */
  lemma {:induction false} LevelOrderSound(g: seq<Target>, t: string)
    requires Suited(g, t)
    ensures LevelsOf(g, t).Leveled? && Layered(g, t, LevelsOf(g, t).levels)
  {
    var levels := LevelsOf(g, t).levels;
    TopoOrderSound(g, t);
    GroupedPartition(OrderOf(g, t).names, LevelMapOf(g, OrderOf(g, t).names));
    forall k | 0 <= k < |levels| ensures levels[k] != [] {
      LevelsFilled(g, t, k);
    }
    forall k, n, d | 0 <= k < |levels| && n in levels[k] && Edge(g, n, d) ensures BelowIn(levels, k, d) {
      LevelsDescend(g, t, k, n, d);
    }
    forall k, n | 0 < k < |levels| && n in levels[k] ensures DependsOnOneOf(g, n, levels[k - 1]) {
      LevelsTight(g, t, k, n);
    }
    LastLevel(g, t);
  }
}
