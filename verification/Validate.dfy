/** Names, dependencies, workflows and daemons are checked (internal/config/validate.go). */
module Validate {
  import opened Config
  import opened Dag
  import opened Levels

  datatype Problem =
    | DuplicateTarget(name: string)
    | UnknownDependency(target: string, dep: string)
    | DuplicateDaemon(target: string, name: string)
    | DaemonIsTarget(name: string)
    | UnknownInWorkflow(target: string, name: string)

  ghost predicate DepsKnown(g: seq<Target>) {
    forall t, d :: t in g && d in t.deps ==> TargetByName(g, d).Some?
  }

  ghost predicate Valid(g: seq<Target>) {
    DistinctNames(g) && DepsKnown(g)
  }

  /** A name occurs twice among the first n targets. */
  ghost predicate Twice(g: seq<Target>, n: nat, name: string) {
    exists i, j :: 0 <= i < j < n <= |g| && g[i].name == g[j].name == name
  }

  ghost predicate IsDuplicate(g: seq<Target>, e: Problem) {
    e.DuplicateTarget? && Twice(g, |g|, e.name)
  }

  /** One of the dependencies is not defined. */
  ghost predicate UnknownAmong(g: seq<Target>, name: string, deps: seq<string>, e: Problem) {
    e.UnknownDependency? && TargetByName(g, e.dep).None? && e.target == name && e.dep in deps
  }

  ghost predicate IsUnknownIn(g: seq<Target>, part: seq<Target>, e: Problem) {
    exists t :: t in part && UnknownAmong(g, t.name, t.deps, e)
  }

  ghost predicate IsUnknownDep(g: seq<Target>, e: Problem) {
    IsUnknownIn(g, g, e)
  }

  method CheckTargets(g: seq<Target>) returns (errs: seq<Problem>)
    ensures errs == [] <==> Valid(g)
    ensures forall e :: e in errs <==> IsDuplicate(g, e) || IsUnknownDep(g, e)
  {
    var duplicates := CheckDuplicates(g);
    var unknowns := CheckDeps(g);
    errs := duplicates + unknowns;
  }

  method CheckDuplicates(g: seq<Target>) returns (errs: seq<Problem>)
    ensures errs == [] <==> DistinctNames(g)
    ensures forall e :: e in errs <==> IsDuplicate(g, e)
  {
    errs := [];
    var seen: set<string> := {};
    for i := 0 to |g|
      invariant forall n :: n in seen <==> exists k :: 0 <= k < i && g[k].name == n
      invariant forall e :: e in errs <==> e.DuplicateTarget? && Twice(g, i, e.name)
    {
      OneMoreName(g, i);
      if g[i].name in seen {
        errs := errs + [DuplicateTarget(g[i].name)];
      } else {
        seen := seen + {g[i].name};
      }
    }
    NoneTwice(g, errs);
  }

  lemma {:induction false} OneMoreName(g: seq<Target>, i: nat)
    requires i < |g|
    ensures forall n :: Twice(g, i + 1, n) <==>
      Twice(g, i, n) || (n == g[i].name && exists k :: 0 <= k < i && g[k].name == n)
  {
    forall n | Twice(g, i, n) ensures Twice(g, i + 1, n) {
      var a, b :| 0 <= a < b < i && g[a].name == g[b].name == n;
      assert 0 <= a < b < i + 1 && g[a].name == g[b].name == n;
    }
  }

  lemma {:induction false} NoneTwice(g: seq<Target>, errs: seq<Problem>)
    requires forall e :: e in errs <==> IsDuplicate(g, e)
    ensures errs == [] <==> DistinctNames(g)
  {
    if errs != [] {
      assert IsDuplicate(g, errs[0]);
    }
    if i, j :| 0 <= i < j < |g| && g[i].name == g[j].name {
      assert IsDuplicate(g, DuplicateTarget(g[i].name));
    }
  }

  method CheckDeps(g: seq<Target>) returns (errs: seq<Problem>)
    ensures errs == [] <==> DepsKnown(g)
    ensures forall e :: e in errs <==> IsUnknownDep(g, e)
  {
    errs := [];
    for i := 0 to |g|
      invariant forall e :: e in errs <==> IsUnknownIn(g, g[..i], e)
    {
      var t := g[i];
      for j := 0 to |t.deps|
        invariant forall e :: e in errs <==> IsUnknownIn(g, g[..i], e) || UnknownAmong(g, t.name, t.deps[..j], e)
      {
        assert t.deps[..j + 1] == t.deps[..j] + [t.deps[j]];
        if TargetByName(g, t.deps[j]).None? {
          errs := errs + [UnknownDependency(t.name, t.deps[j])];
        }
      }
      assert t.deps[..|t.deps|] == t.deps;
      assert forall x :: x in g[..i + 1] <==> x in g[..i] || x == t;
    }
    assert g[..|g|] == g;
    NoneUnknown(g, errs);
  }

  lemma {:induction false} NoneUnknown(g: seq<Target>, errs: seq<Problem>)
    requires forall e :: e in errs <==> IsUnknownDep(g, e)
    ensures errs == [] <==> DepsKnown(g)
  {
    if errs != [] {
      assert IsUnknownDep(g, errs[0]);
    }
    if t, d :| t in g && d in t.deps && TargetByName(g, d).None? {
      assert UnknownAmong(g, t.name, t.deps, UnknownDependency(t.name, d));
      assert IsUnknownDep(g, UnknownDependency(t.name, d));
    }
  }

  // ------------------------------------------------------------- workflows and daemons

  ghost predicate DistinctDaemons(ds: seq<Daemon>) {
    forall i, j :: 0 <= i < j < |ds| ==> ds[i].name != ds[j].name
  }

  ghost predicate HasDaemon(ds: seq<Daemon>, n: string) {
    exists d :: d in ds && d.name == n
  }

  /** The daemons of a target have names of their own, and its workflow names targets and its own daemons only. */
  ghost predicate DaemonsOk(g: seq<Target>, t: Target) {
    && DistinctDaemons(t.daemons)
    && (forall d :: d in t.daemons ==> TargetByName(g, d.name).None?)
    && (forall n :: n in t.workflow ==> TargetByName(g, n).Some? || HasDaemon(t.daemons, n))
  }

  ghost predicate DaemonsValid(g: seq<Target>) {
    forall t :: t in g ==> DaemonsOk(g, t)
  }

  /** A name occurs twice among the first n daemons. */
  ghost predicate DaemonTwice(ds: seq<Daemon>, n: nat, name: string) {
    exists i, j :: 0 <= i < j < n <= |ds| && ds[i].name == ds[j].name == name
  }

  /** What is wrong with the names of the first n daemons of a target. */
  ghost predicate IsDaemonProblem(g: seq<Target>, t: Target, n: nat, e: Problem) {
    || (e.DuplicateDaemon? && e.target == t.name && DaemonTwice(t.daemons, n, e.name))
    || (e.DaemonIsTarget? && TargetByName(g, e.name).Some?
        && exists k :: 0 <= k < n <= |t.daemons| && t.daemons[k].name == e.name)
  }

  /** A name of the workflow that is neither a target nor one of the names. */
  ghost predicate IsWorkflowProblem(g: seq<Target>, t: Target, names: set<string>, workflow: seq<string>, e: Problem) {
    && e.UnknownInWorkflow? && e.target == t.name
    && e.name in workflow && TargetByName(g, e.name).None? && e.name !in names
  }

  ghost function DaemonNames(t: Target): set<string> {
    set d | d in t.daemons :: d.name
  }

  ghost predicate IsProblemOf(g: seq<Target>, t: Target, e: Problem) {
    IsDaemonProblem(g, t, |t.daemons|, e) || IsWorkflowProblem(g, t, DaemonNames(t), t.workflow, e)
  }

  /** A problem of one of the first n targets. */
  ghost predicate IsProblemIn(g: seq<Target>, n: nat, e: Problem) {
    exists k :: 0 <= k < n <= |g| && IsProblemOf(g, g[k], e)
  }

  method CheckDaemonNames(g: seq<Target>, t: Target) returns (errs: seq<Problem>, names: set<string>)
    ensures forall e :: e in errs <==> IsDaemonProblem(g, t, |t.daemons|, e)
    ensures names == DaemonNames(t)
  {
    errs, names := [], {};
    var ds := t.daemons;
    for i := 0 to |ds|
      invariant forall n :: n in names <==> exists k :: 0 <= k < i && ds[k].name == n
      invariant forall e :: e in errs <==> IsDaemonProblem(g, t, i, e)
    {
      OneMoreDaemon(ds, i);
      if ds[i].name in names {
        errs := errs + [DuplicateDaemon(t.name, ds[i].name)];
      } else {
        names := names + {ds[i].name};
      }
      if TargetByName(g, ds[i].name).Some? {
        errs := errs + [DaemonIsTarget(ds[i].name)];
      }
    }
    forall n ensures n in names <==> n in DaemonNames(t) {
      if n in DaemonNames(t) {
        var d :| d in ds && d.name == n;
        var k :| 0 <= k < |ds| && ds[k] == d;
      }
    }
  }

  lemma {:induction false} OneMoreDaemon(ds: seq<Daemon>, i: nat)
    requires i < |ds|
    ensures forall n :: DaemonTwice(ds, i + 1, n) <==>
      DaemonTwice(ds, i, n) || (n == ds[i].name && exists k :: 0 <= k < i && ds[k].name == n)
  {
    forall n | DaemonTwice(ds, i, n) ensures DaemonTwice(ds, i + 1, n) {
      var a, b :| 0 <= a < b < i && ds[a].name == ds[b].name == n;
      assert 0 <= a < b < i + 1 && ds[a].name == ds[b].name == n;
    }
  }

  method CheckWorkflow(g: seq<Target>, t: Target, names: set<string>) returns (errs: seq<Problem>)
    ensures forall e :: e in errs <==> IsWorkflowProblem(g, t, names, t.workflow, e)
  {
    errs := [];
    for i := 0 to |t.workflow|
      invariant forall e :: e in errs <==> IsWorkflowProblem(g, t, names, t.workflow[..i], e)
    {
      assert t.workflow[..i + 1] == t.workflow[..i] + [t.workflow[i]];
      if TargetByName(g, t.workflow[i]).None? && t.workflow[i] !in names {
        errs := errs + [UnknownInWorkflow(t.name, t.workflow[i])];
      }
    }
    assert t.workflow[..|t.workflow|] == t.workflow;
  }

  method CheckDaemons(g: seq<Target>) returns (errs: seq<Problem>)
    ensures errs == [] <==> DaemonsValid(g)
    ensures forall e :: e in errs <==> IsProblemIn(g, |g|, e)
  {
    errs := [];
    for i := 0 to |g|
      invariant forall e :: e in errs <==> IsProblemIn(g, i, e)
    {
      var bad, names := CheckDaemonNames(g, g[i]);
      var unknown := CheckWorkflow(g, g[i], names);
      errs := errs + bad + unknown;
      assert forall e :: e in bad + unknown <==> IsProblemOf(g, g[i], e);
    }
    NoProblem(g, errs);
  }

  lemma {:induction false} NoProblem(g: seq<Target>, errs: seq<Problem>)
    requires forall e :: e in errs <==> IsProblemIn(g, |g|, e)
    ensures errs == [] <==> DaemonsValid(g)
  {
    if errs != [] {
      assert IsProblemIn(g, |g|, errs[0]);
      var k :| 0 <= k < |g| && IsProblemOf(g, g[k], errs[0]);
      NoProblemOf(g, g[k]);
    }
    if k :| 0 <= k < |g| && !DaemonsOk(g, g[k]) {
      NoProblemOf(g, g[k]);
      var e :| IsProblemOf(g, g[k], e);
      assert IsProblemIn(g, |g|, e);
    }
  }

  lemma {:induction false} NoProblemOf(g: seq<Target>, t: Target)
    ensures DaemonsOk(g, t) <==> forall e :: !IsProblemOf(g, t, e)
  {
    var ds := t.daemons;
    if i, j :| 0 <= i < j < |ds| && ds[i].name == ds[j].name {
      assert IsProblemOf(g, t, DuplicateDaemon(t.name, ds[i].name));
    }
    if k :| 0 <= k < |ds| && TargetByName(g, ds[k].name).Some? {
      assert IsProblemOf(g, t, DaemonIsTarget(ds[k].name));
    }
    if n :| n in t.workflow && TargetByName(g, n).None? && !HasDaemon(ds, n) {
      assert IsProblemOf(g, t, UnknownInWorkflow(t.name, n));
    }
    if DaemonsOk(g, t) {
      forall e ensures !IsProblemOf(g, t, e) {
      }
    }
  }

  lemma {:induction false} PathStaysDefined(g: seq<Target>, p: seq<string>)
    requires DepsKnown(g) && IsPath(g, p) && TargetByName(g, p[0]).Some?
    ensures TargetByName(g, p[|p| - 1]).Some?
    decreases |p|
  {
    if |p| > 1 {
      assert Edge(g, p[0], p[1]);
      assert IsPath(g, p[1..]) by {
        forall k | 0 <= k < |p[1..]| - 1 ensures Edge(g, p[1..][k], p[1..][k + 1]) {
          assert Edge(g, p[k + 1], p[k + 2]);
        }
      }
      PathStaysDefined(g, p[1..]);
    }
  }

  /** On a validated configuration the walk from a defined target never fails; if moreover
      no reachable edge lies on a cycle, which the validator does not check, the levels are sound. */
  lemma {:induction false} ValidatedNeverUnknown(g: seq<Target>, t: string)
    requires Valid(g) && TargetByName(g, t).Some?
    ensures OrderOf(g, t).Order?
    ensures AcyclicFrom(g, t) ==> Suited(g, t)
  {
    forall u | Reaches(g, t, u) ensures TargetByName(g, u).Some? {
      var p :| PathBetween(g, t, u, p);
      PathStaysDefined(g, p);
    }
    TopoOrderFailsExactly(g, t);
  }

  /** Two targets that depend on each other are walked in this order. */
  lemma {:induction false} TwoCycleOrder(a: Target, b: Target)
    requires a.name == "a" && a.deps == ["b"] && b.name == "b" && b.deps == ["a"]
    ensures OrderOf([a, b], "a") == Order(["b", "a"])
  {
    var g := [a, b];
    assert TargetByName(g, "a") == Some(a);
    assert TargetByName(g[1..], "b") == Some(b);
    var w1 := Start.(visited := {"a"});
    var w2 := w1.(visited := {"a", "b"});
    assert w1.visited + {"b"} == w2.visited;
    assert VisitAll(g, ["a"], w2) == w2 by {
      assert Visit(g, "a", w2) == w2;
    }
    assert VisitAll(g, ["b"], w1) == w2.(order := ["b"]) by {
      assert Visit(g, "b", w1) == w2.(order := ["b"]);
    }
    assert Start.visited + {"a"} == w1.visited;
    assert Visit(g, "a", Start) == w2.(order := ["b", "a"]);
  }

  /** The validator accepts a cyclic graph, and the walk then lists a dependency after its dependent. */
  lemma {:induction false} CyclePassesValidation()
    ensures exists g, t :: Valid(g) && OrderOf(g, t).Order? && !Topological(g, OrderOf(g, t).names)
  {
    var a, b := BlankTarget("a", false).(deps := ["b"]), BlankTarget("b", false).(deps := ["a"]);
    var g := [a, b];
    TwoCycleOrder(a, b);
    assert TargetByName(g, "a") == Some(a);
    assert TargetByName(g[1..], "b") == Some(b);
    assert Valid(g);
    assert Edge(g, "b", "a") && "b" in ["b", "a"];
    assert !Before(["b", "a"], "a", "b");
    assert !Topological(g, OrderOf(g, "a").names);
  }
}
