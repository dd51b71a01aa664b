/** Loading a Bakefile with its imports (internal/dsl/parser.go). */
module Imports {
  import opened Config

  /** The files by absolute path (None for one that does not parse or compile), the absolute path an import
      of a file stands for, and the verdict of validation. */
  datatype Disk = Disk(files: map<string, Option<File>>, resolve: (string, string) -> string, valid: File -> bool)

  datatype LoadError = Cycle(path: string) | Unreadable(path: string) | Invalid(path: string)

  datatype LoadResult = Loaded(cfg: File) | Failed(error: LoadError)

  predicate Readable(d: Disk, path: string) {
    path in d.files && d.files[path].Some?
  }

  function FileAt(d: Disk, path: string): File
    requires Readable(d, path)
  {
    d.files[path].value
  }

  function Imported(d: Disk, path: string): (kids: seq<string>)
    requires Readable(d, path)
    ensures |kids| == |FileAt(d, path).imports|
  {
    var imports := FileAt(d, path).imports;
    seq(|imports|, i requires 0 <= i < |imports| => d.resolve(path, imports[i]))
  }

  /** A merged configuration does not keep the list of imports. */
  function Append(a: File, b: File): File {
    File(a.dotenv + b.dotenv, [], a.profiles + b.profiles, a.targets + b.targets, a.suites + b.suites)
  }

  function Checked(d: Disk, path: string, cfg: File): LoadResult {
    if d.valid(cfg) then Loaded(cfg) else Failed(Invalid(path))
  }

  /** Each call marks one more file as being on the path from the root, so the depth is bounded. */
  function Load(d: Disk, path: string, visited: set<string>): LoadResult
    decreases |d.files.Keys - visited|, 0
  {
    if path in visited then Failed(Cycle(path))
    else if !Readable(d, path) then Failed(Unreadable(path))
    else
      Shrinks(d, path, visited);
      match LoadAll(d, Imported(d, path), visited + {path}, FileAt(d, path).(imports := []))
      case Failed(e) => Failed(e)
      case Loaded(merged) => Checked(d, path, merged)
  }

  /** Appends the imports, in order, to what is merged so far. */
  function LoadAll(d: Disk, imports: seq<string>, visited: set<string>, merged: File): LoadResult
    decreases |d.files.Keys - visited|, |imports| + 1
  {
    if imports == [] then Loaded(merged)
    else
      match Load(d, imports[0], visited)
      case Failed(e) => Failed(e)
      case Loaded(cfg) => LoadAll(d, imports[1..], visited, Append(merged, cfg))
  }

  lemma {:induction false} Shrinks(d: Disk, path: string, visited: set<string>)
    requires path in d.files && path !in visited
    ensures |d.files.Keys - (visited + {path})| < |d.files.Keys - visited|
  {
    var rest := d.files.Keys - visited;
    assert d.files.Keys - (visited + {path}) == rest - {path};
    assert path in rest;
  }

  class Loader {
    const disk: Disk
    var visited: set<string>

    constructor (d: Disk)
      ensures disk == d && visited == {}
    {
      disk, visited := d, {};
    }

    method LoadWithImports(path: string) returns (r: LoadResult)
      modifies this
      ensures r == Load(disk, path, old(visited))
      ensures visited == old(visited)
      decreases |disk.files.Keys - visited|
    {
      if path in visited {
        return Failed(Cycle(path));
      }
      ghost var before := visited;
      visited := visited + {path};
      assert visited - {path} == before;
      if !Readable(disk, path) {
        visited := visited - {path};
        return Failed(Unreadable(path));
      }
      Shrinks(disk, path, before);
      var imports := Imported(disk, path);
      var merged := FileAt(disk, path).(imports := []);
      var i := 0;
      while i < |imports|
        invariant 0 <= i <= |imports|
        invariant visited == before + {path}
        invariant LoadAll(disk, imports, visited, FileAt(disk, path).(imports := [])) ==
          LoadAll(disk, imports[i..], visited, merged)
      {
        var imp := LoadWithImports(imports[i]);
        assert imports[i..][1..] == imports[i + 1..];
        if imp.Failed? {
          visited := visited - {path};
          return imp;
        }
        merged := Append(merged, imp.cfg);
        i := i + 1;
      }
      visited := visited - {path};
      return Checked(disk, path, merged);
    }
  }

  // ----------------------------------------------------------------- the import tree

  datatype Tree = Node(path: string, kids: seq<Tree>)

  /** A finite tree that follows the imports of every file in it. */
  ghost predicate Unfolds(d: Disk, t: Tree) {
    && Readable(d, t.path)
    && |t.kids| == |Imported(d, t.path)|
    && forall i :: 0 <= i < |t.kids| ==> t.kids[i].path == Imported(d, t.path)[i] && Unfolds(d, t.kids[i])
  }

  function PreOrder(t: Tree): seq<string> {
    [t.path] + PreOrderAll(t.kids)
  }

  function PreOrderAll(ts: seq<Tree>): seq<string> {
    if ts == [] then [] else PreOrderAll(ts[..|ts| - 1]) + PreOrder(ts[|ts| - 1])
  }

  /** The contents of the listed files, one after the other. */
  function Concat(d: Disk, paths: seq<string>): File {
    if paths == [] then File([], [], [], [], [])
    else
      var p := paths[|paths| - 1];
      Append(Concat(d, paths[..|paths| - 1]), if Readable(d, p) then FileAt(d, p) else File([], [], [], [], []))
  }

  /** Every file of the tree validates together with everything below it. */
  ghost predicate AllValid(d: Disk, t: Tree) {
    d.valid(Concat(d, PreOrder(t))) && forall k :: k in t.kids ==> AllValid(d, k)
  }

  lemma {:induction false} ConcatSplits(d: Disk, a: seq<string>, b: seq<string>)
    ensures Concat(d, a + b) == Append(Concat(d, a), Concat(d, b))
  {
    if b == [] {
      assert a + b == a;
      ConcatForgets(d, a);
    } else {
      var init := b[..|b| - 1];
      assert (a + b)[..|a + b| - 1] == a + init;
      ConcatSplits(d, a, init);
    }
  }

  lemma {:induction false} ConcatForgets(d: Disk, a: seq<string>)
    ensures Concat(d, a).imports == [] && Append(Concat(d, a), Concat(d, [])) == Concat(d, a)
  {
  }

  lemma {:induction false} ConcatOne(d: Disk, p: string)
    requires Readable(d, p)
    ensures Concat(d, [p]) == FileAt(d, p).(imports := [])
  {
    assert [p][..0] == [];
  }

  // ------------------------------------------------------------------- loading is exact

  predicate Apart(t: Tree, visited: set<string>) {
    forall p :: p in PreOrder(t) ==> p !in visited
  }

  /** A load that succeeds has an import tree, validated at every node, and returns its files in pre-order. */
  lemma {:induction false} LoadedHasTree(d: Disk, path: string, visited: set<string>) returns (t: Tree)
    requires Load(d, path, visited).Loaded?
    ensures t.path == path && Unfolds(d, t) && AllValid(d, t)
    ensures Load(d, path, visited).cfg == Concat(d, PreOrder(t))
    decreases |d.files.Keys - visited|, 0
  {
    Shrinks(d, path, visited);
    var own := FileAt(d, path).(imports := []);
    var kids := AllLoadedHaveTrees(d, Imported(d, path), visited + {path}, own);
    t := Node(path, kids);
    ConcatOne(d, path);
    ConcatSplits(d, [path], PreOrderAll(kids));
  }

  /** One validated import tree for each path. */
  ghost predicate Trees(d: Disk, ts: seq<Tree>, paths: seq<string>) {
    && |ts| == |paths|
    && forall i :: 0 <= i < |ts| ==> ts[i].path == paths[i] && Unfolds(d, ts[i]) && AllValid(d, ts[i])
  }

  lemma {:induction false} TreesFront(d: Disk, t: Tree, ts: seq<Tree>, paths: seq<string>)
    requires paths != [] && t.path == paths[0] && Unfolds(d, t) && AllValid(d, t) && Trees(d, ts, paths[1..])
    ensures Trees(d, [t] + ts, paths)
  {
  }

  lemma {:induction false} ConcatFront(d: Disk, merged: File, t: Tree, ts: seq<Tree>)
    requires merged.imports == []
    ensures Append(Append(merged, Concat(d, PreOrder(t))), Concat(d, PreOrderAll(ts))) ==
      Append(merged, Concat(d, PreOrderAll([t] + ts)))
  {
    PreOrderFront(t, ts);
    ConcatSplits(d, PreOrder(t), PreOrderAll(ts));
    AppendAssociates(merged, Concat(d, PreOrder(t)), Concat(d, PreOrderAll(ts)));
  }

  lemma {:induction false} AppendAssociates(a: File, b: File, c: File)
    ensures Append(Append(a, b), c) == Append(a, Append(b, c))
  {
  }

  lemma {:induction false} AllLoadedHaveTrees(d: Disk, imports: seq<string>, visited: set<string>, merged: File)
    returns (ts: seq<Tree>)
    requires LoadAll(d, imports, visited, merged).Loaded? && merged.imports == []
    ensures Trees(d, ts, imports)
    ensures LoadAll(d, imports, visited, merged).cfg == Append(merged, Concat(d, PreOrderAll(ts)))
    decreases |d.files.Keys - visited|, |imports| + 1
  {
    if imports == [] {
      ts := [];
    } else {
      var t := LoadedHasTree(d, imports[0], visited);
      var rest := AllLoadedHaveTrees(d, imports[1..], visited, Append(merged, Load(d, imports[0], visited).cfg));
      ts := [t] + rest;
      TreesFront(d, t, rest, imports);
      ConcatFront(d, merged, t, rest);
    }
  }

  lemma {:induction false} PreOrderFront(t: Tree, ts: seq<Tree>)
    ensures PreOrderAll([t] + ts) == PreOrder(t) + PreOrderAll(ts)
  {
    if ts == [] {
      assert [t] + ts == [t] && [t][..0] == [];
    } else {
      var init, last := ts[..|ts| - 1], ts[|ts| - 1];
      assert ([t] + ts)[..|ts|] == [t] + init && ([t] + ts)[|ts|] == last;
      PreOrderFront(t, init);
      assert PreOrder(t) + PreOrderAll(init) + PreOrder(last) == PreOrder(t) + (PreOrderAll(init) + PreOrder(last));
    }
  }

  /** Where a tree of validated files avoids what is already on the path, loading succeeds with its contents. */
  lemma {:induction false} TreeLoads(d: Disk, t: Tree, visited: set<string>)
    requires Unfolds(d, t) && AllValid(d, t) && Apart(t, visited)
    ensures Load(d, t.path, visited) == Loaded(Concat(d, PreOrder(t)))
    decreases t
  {
    assert PreOrder(t)[0] == t.path;
    Shrinks(d, t.path, visited);
    forall k | k in t.kids ensures Apart(k, visited + {t.path}) {
      NeverBelowItself(d, t, k);
      KidIsListed(t.kids, k);
    }
    AllTreesLoad(d, t.kids, Imported(d, t.path), visited + {t.path}, FileAt(d, t.path).(imports := []));
    ConcatOne(d, t.path);
    ConcatSplits(d, [t.path], PreOrderAll(t.kids));
  }

  lemma {:induction false} AllTreesLoad(d: Disk, ts: seq<Tree>, paths: seq<string>, visited: set<string>, merged: File)
    requires Trees(d, ts, paths) && merged.imports == [] && forall k :: k in ts ==> Apart(k, visited)
    ensures LoadAll(d, paths, visited, merged) == Loaded(Append(merged, Concat(d, PreOrderAll(ts))))
    decreases ts
  {
    if ts != [] {
      TreeLoads(d, ts[0], visited);
      assert Trees(d, ts[1..], paths[1..]);
      AllTreesLoad(d, ts[1..], paths[1..], visited, Append(merged, Concat(d, PreOrder(ts[0]))));
      ConcatFront(d, merged, ts[0], ts[1..]);
      assert [ts[0]] + ts[1..] == ts;
    }
  }

  lemma {:induction false} KidIsListed(ts: seq<Tree>, k: Tree)
    requires k in ts
    ensures forall p :: p in PreOrder(k) ==> p in PreOrderAll(ts)
  {
    if ts[|ts| - 1] != k {
      KidIsListed(ts[..|ts| - 1], k);
    }
  }

  lemma {:induction false} ListedBelow(ts: seq<Tree>, p: string)
    requires p in PreOrderAll(ts)
    ensures exists k :: k in ts && p in PreOrder(k)
  {
    if p !in PreOrder(ts[|ts| - 1]) {
      ListedBelow(ts[..|ts| - 1], p);
    }
  }

  /** A file has one import tree. */
  lemma {:induction false} TreeIsUnique(d: Disk, a: Tree, b: Tree)
    requires Unfolds(d, a) && Unfolds(d, b) && a.path == b.path
    ensures a == b
  {
    forall i | 0 <= i < |a.kids| ensures a.kids[i] == b.kids[i] {
      TreeIsUnique(d, a.kids[i], b.kids[i]);
    }
    assert a.kids == b.kids;
  }

  function Size(t: Tree): (n: nat)
    ensures n > 0
  {
    1 + SizeAll(t.kids)
  }

  function SizeAll(ts: seq<Tree>): nat {
    if ts == [] then 0 else Size(ts[0]) + SizeAll(ts[1..])
  }

  lemma {:induction false} KidIsSmaller(ts: seq<Tree>, k: Tree)
    requires k in ts
    ensures Size(k) <= SizeAll(ts)
  {
    if ts[0] != k {
      KidIsSmaller(ts[1..], k);
    }
  }

  /** The subtree at a path listed in a tree. */
  lemma {:induction false} SubtreeAt(d: Disk, t: Tree, p: string) returns (u: Tree)
    requires Unfolds(d, t) && p in PreOrder(t)
    ensures Unfolds(d, u) && u.path == p && Size(u) <= Size(t) && (AllValid(d, t) ==> AllValid(d, u))
    decreases t
  {
    if p == t.path {
      u := t;
    } else {
      ListedBelow(t.kids, p);
      var k :| k in t.kids && p in PreOrder(k);
      u := SubtreeAt(d, k, p);
      KidIsSmaller(t.kids, k);
    }
  }

  /** A finite import tree has no file below itself: it would contain a copy of itself. */
  lemma {:induction false} NeverBelowItself(d: Disk, t: Tree, k: Tree)
    requires Unfolds(d, t) && k in t.kids
    ensures t.path !in PreOrder(k)
  {
    if t.path in PreOrder(k) {
      var u := SubtreeAt(d, k, t.path);
      TreeIsUnique(d, u, t);
      KidIsSmaller(t.kids, k);
      assert false;
    }
  }

  /** Loading succeeds exactly when the imports unfold to a finite tree that validates at every file, and then
      returns the contents of that tree in pre-order: the file first, then each import in order. */
  lemma {:induction false} LoadsExactly(d: Disk, path: string, cfg: File)
    ensures Load(d, path, {}) == Loaded(cfg) <==>
      exists t: Tree :: t.path == path && Unfolds(d, t) && AllValid(d, t) && cfg == Concat(d, PreOrder(t))
  {
    if Load(d, path, {}) == Loaded(cfg) {
      var t := LoadedHasTree(d, path, {});
      assert t.path == path && Unfolds(d, t) && AllValid(d, t) && cfg == Concat(d, PreOrder(t));
    }
    if t: Tree :| t.path == path && Unfolds(d, t) && AllValid(d, t) && cfg == Concat(d, PreOrder(t)) {
      TreeLoads(d, t, {});
    }
  }

  // ------------------------------------------------------------------------- cycles

  ghost predicate Imports(d: Disk, a: string, b: string) {
    Readable(d, a) && b in Imported(d, a)
  }

  /** Each file imports the next. */
  ghost predicate Chain(d: Disk, p: seq<string>) {
    p != [] && forall i :: 0 <= i < |p| - 1 ==> Imports(d, p[i], p[i + 1])
  }

  ghost predicate Repeats(p: seq<string>) {
    exists i, j :: 0 <= i < j < |p| && p[i] == p[j]
  }

  /** Some import chain from the file comes back to a file it has already met. */
  ghost predicate CycleReachable(d: Disk, path: string) {
    exists p :: Chain(d, p) && p[0] == path && Repeats(p)
  }

  lemma {:induction false} ChainStaysInTree(d: Disk, t: Tree, p: seq<string>)
    requires Unfolds(d, t) && Chain(d, p) && p[0] == t.path
    ensures !Repeats(p) && forall i :: 0 <= i < |p| ==> p[i] in PreOrder(t)
    decreases |p|
  {
    if |p| > 1 {
      assert Imports(d, p[0], p[1]);
      var i :| 0 <= i < |Imported(d, t.path)| && Imported(d, t.path)[i] == p[1];
      var k := t.kids[i];
      assert Chain(d, p[1..]) by {
        forall j | 0 <= j < |p[1..]| - 1 ensures Imports(d, p[1..][j], p[1..][j + 1]) {
          assert Imports(d, p[j + 1], p[j + 2]);
        }
      }
      ChainStaysInTree(d, k, p[1..]);
      NeverBelowItself(d, t, k);
      KidIsListed(t.kids, k);
      forall a, b | 0 <= a < b < |p| ensures p[a] != p[b] {
        assert p[1..][b - 1] == p[b];
        if a > 0 {
          assert p[1..][a - 1] == p[a];
        }
      }
      forall j | 0 < j < |p| ensures p[j] in PreOrder(t) {
        assert p[1..][j - 1] == p[j];
      }
    }
  }

  lemma {:induction false} CycleErrorIsReal(d: Disk, path: string, visited: set<string>) returns (p: seq<string>)
    requires Load(d, path, visited).Failed? && Load(d, path, visited).error.Cycle?
    ensures Chain(d, p) && p[0] == path && p[|p| - 1] == Load(d, path, visited).error.path
    ensures p[|p| - 1] in visited || p[|p| - 1] in p[..|p| - 1]
    decreases |d.files.Keys - visited|, 0
  {
    if path in visited {
      p := [path];
    } else {
      Shrinks(d, path, visited);
      var own := FileAt(d, path).(imports := []);
      var q := CycleErrorBelow(d, Imported(d, path), visited + {path}, own);
      p := [path] + q;
      forall i | 0 <= i < |p| - 1 ensures Imports(d, p[i], p[i + 1]) {
        if i > 0 {
          assert Imports(d, q[i - 1], q[i]);
        }
      }
      assert p[..|p| - 1] == [path] + q[..|q| - 1];
    }
  }

  lemma {:induction false} CycleErrorBelow(d: Disk, imports: seq<string>, visited: set<string>, merged: File)
    returns (p: seq<string>)
    requires LoadAll(d, imports, visited, merged).Failed? && LoadAll(d, imports, visited, merged).error.Cycle?
    ensures Chain(d, p) && p[0] in imports && p[|p| - 1] == LoadAll(d, imports, visited, merged).error.path
    ensures p[|p| - 1] in visited || p[|p| - 1] in p[..|p| - 1]
    decreases |d.files.Keys - visited|, |imports| + 1
  {
    match Load(d, imports[0], visited)
    case Failed(_) => p := CycleErrorIsReal(d, imports[0], visited);
    case Loaded(cfg) => p := CycleErrorBelow(d, imports[1..], visited, Append(merged, cfg));
  }

  /** A cycle is reported only where one is reachable, and a load that succeeds reaches none. */
  lemma {:induction false} CyclesExactly(d: Disk, path: string)
    ensures var r := Load(d, path, {});
      && (r.Failed? && r.error.Cycle? ==> CycleReachable(d, path))
      && (r.Loaded? ==> !CycleReachable(d, path))
  {
    var r := Load(d, path, {});
    if r.Failed? && r.error.Cycle? {
      var p := CycleErrorIsReal(d, path, {});
      var i :| 0 <= i < |p| - 1 && p[..|p| - 1][i] == p[|p| - 1];
      assert p[i] == p[|p| - 1];
      assert Repeats(p);
    }
    if r.Loaded? {
      var t := LoadedHasTree(d, path, {});
      forall p | Chain(d, p) && p[0] == path ensures !Repeats(p) {
        ChainStaysInTree(d, t, p);
      }
    }
  }

  /** The files a load reads: those at the end of an import chain. */
  ghost predicate IsRead(d: Disk, path: string, p: string) {
    exists q :: Chain(d, q) && q[0] == path && q[|q| - 1] == p
  }

  /** Cycles apart, nothing is wrong with what a file imports: all of it is readable, and every file among it that has
      a finite import tree validates together with everything below it. */
  ghost predicate Benign(d: Disk, path: string) {
    && (forall p :: IsRead(d, path, p) ==> Readable(d, p))
    && (forall t: Tree :: Unfolds(d, t) && IsRead(d, path, t.path) ==> d.valid(Concat(d, PreOrder(t))))
  }

  lemma {:induction false} ReadFromImport(d: Disk, path: string, b: string, p: string)
    requires Imports(d, path, b) && IsRead(d, b, p)
    ensures IsRead(d, path, p)
  {
    var q :| Chain(d, q) && q[0] == b && q[|q| - 1] == p;
    var r := [path] + q;
    forall i | 0 <= i < |r| - 1 ensures Imports(d, r[i], r[i + 1]) {
      if i > 0 {
        assert Imports(d, q[i - 1], q[i]);
      }
    }
    assert Chain(d, r) && r[0] == path && r[|r| - 1] == p;
  }

  lemma {:induction false} BenignBelow(d: Disk, path: string, b: string)
    requires Benign(d, path) && Imports(d, path, b)
    ensures Benign(d, b)
  {
    forall p | IsRead(d, b, p) ensures IsRead(d, path, p) {
      ReadFromImport(d, path, b, p);
    }
  }

  lemma {:induction false} ReadsItself(d: Disk, path: string)
    ensures IsRead(d, path, path)
  {
    assert Chain(d, [path]);
  }

  lemma {:induction false} OnlyCyclesFail(d: Disk, path: string, visited: set<string>)
    requires Benign(d, path)
    ensures Load(d, path, visited).Failed? ==> Load(d, path, visited).error.Cycle?
    decreases |d.files.Keys - visited|, 0
  {
    ReadsItself(d, path);
    if path !in visited {
      Shrinks(d, path, visited);
      forall b | b in Imported(d, path) ensures Benign(d, b) {
        assert Imports(d, path, b);
        BenignBelow(d, path, b);
      }
      var own := FileAt(d, path).(imports := []);
      OnlyCyclesFailBelow(d, Imported(d, path), visited + {path}, own);
      if LoadAll(d, Imported(d, path), visited + {path}, own).Loaded? {
        var kids := AllLoadedHaveTrees(d, Imported(d, path), visited + {path}, own);
        var t := Node(path, kids);
        ConcatOne(d, path);
        ConcatSplits(d, [path], PreOrderAll(kids));
        assert Unfolds(d, t);
      }
    }
  }

  lemma {:induction false} OnlyCyclesFailBelow(d: Disk, imports: seq<string>, visited: set<string>, merged: File)
    requires forall p :: p in imports ==> Benign(d, p)
    ensures var r := LoadAll(d, imports, visited, merged); r.Failed? ==> r.error.Cycle?
    decreases |d.files.Keys - visited|, |imports| + 1
  {
    if imports != [] {
      OnlyCyclesFail(d, imports[0], visited);
      var r := Load(d, imports[0], visited);
      if r.Loaded? {
        OnlyCyclesFailBelow(d, imports[1..], visited, Append(merged, r.cfg));
      }
    }
  }

  lemma {:induction false} LoadedIsBenign(d: Disk, path: string)
    requires Load(d, path, {}).Loaded?
    ensures Benign(d, path)
  {
    var t := LoadedHasTree(d, path, {});
    forall p | IsRead(d, path, p) ensures exists u: Tree :: u.path == p && Unfolds(d, u) && AllValid(d, u) {
      var q :| Chain(d, q) && q[0] == path && q[|q| - 1] == p;
      ChainStaysInTree(d, t, q);
      var u := SubtreeAt(d, t, p);
    }
    forall v: Tree | Unfolds(d, v) && IsRead(d, path, v.path) ensures d.valid(Concat(d, PreOrder(v))) {
      var u: Tree :| u.path == v.path && Unfolds(d, u) && AllValid(d, u);
      TreeIsUnique(d, u, v);
    }
  }

  /** On every disk and under every validation: loading fails exactly when an import cycle is reachable, a file that is
      read cannot be, or one does not validate with what it imports. */
  lemma {:induction false} FailsExactly(d: Disk, path: string)
    ensures Load(d, path, {}).Failed? <==> CycleReachable(d, path) || !Benign(d, path)
  {
    CyclesExactly(d, path);
    if Load(d, path, {}).Loaded? {
      LoadedIsBenign(d, path);
    } else if Benign(d, path) {
      OnlyCyclesFail(d, path, {});
    }
  }

  // ------------------------------------------------------------------ the order of the contents

  /** One list after the other. */
  function Flat<T>(lists: seq<seq<T>>): seq<T> {
    if lists == [] then [] else lists[0] + Flat(lists[1..])
  }

  function DotenvOf(f: File): seq<string> {
    f.dotenv
  }

  function ProfilesOf(f: File): seq<Profile> {
    f.profiles
  }

  function TargetsOf(f: File): seq<Target> {
    f.targets
  }

  function SuitesOf(f: File): seq<Suite> {
    f.suites
  }

  /** The list of each of these files, as each is loaded on its own. */
  function LoadedLists<T>(d: Disk, paths: seq<string>, list: File -> seq<T>): seq<seq<T>> {
    seq(|paths|, i requires 0 <= i < |paths| =>
      var r := Load(d, paths[i], {}); if r.Loaded? then list(r.cfg) else [])
  }

  /** In a merged file the list of the first comes before the list of the second. */
  ghost predicate Merges<T(!new)>(list: File -> seq<T>) {
    && (forall a: File, b: File :: list(Append(a, b)) == list(a) + list(b))
    && list(File([], [], [], [], [])) == []
  }

  lemma {:induction false} ListsMerge()
    ensures Merges(DotenvOf) && Merges(ProfilesOf) && Merges(TargetsOf) && Merges(SuitesOf)
  {
  }

  lemma {:induction false} FlatAppend<T>(lists: seq<seq<T>>, last: seq<T>)
    ensures Flat(lists + [last]) == Flat(lists) + last
  {
    if lists == [] {
      assert [last][1..] == [];
    } else {
      assert (lists + [last])[1..] == lists[1..] + [last];
      FlatAppend(lists[1..], last);
    }
  }

  /** The list of each tree. */
  function TreeLists<T>(d: Disk, ts: seq<Tree>, list: File -> seq<T>): (lists: seq<seq<T>>)
    ensures |lists| == |ts|
  {
    seq(|ts|, i requires 0 <= i < |ts| => list(Concat(d, PreOrder(ts[i]))))
  }

  /** A list over several trees: the lists of the trees, in order. */
  lemma {:induction false} ListOfTrees<T(!new)>(d: Disk, ts: seq<Tree>, list: File -> seq<T>)
    requires Merges(list)
    ensures list(Concat(d, PreOrderAll(ts))) == Flat(TreeLists(d, ts, list))
    decreases |ts|
  {
    if ts != [] {
      var init, last := ts[..|ts| - 1], ts[|ts| - 1];
      ListOfTrees(d, init, list);
      ConcatSplits(d, PreOrderAll(init), PreOrder(last));
      assert TreeLists(d, ts, list) == TreeLists(d, init, list) + [list(Concat(d, PreOrder(last)))];
      FlatAppend(TreeLists(d, init, list), list(Concat(d, PreOrder(last))));
    }
  }

  /** Each import of a file that loads, loads on its own, to the contents of its tree. */
  lemma {:induction false} ImportsLoad(d: Disk, t: Tree, i: nat)
    requires Unfolds(d, t) && AllValid(d, t) && i < |t.kids|
    ensures Load(d, Imported(d, t.path)[i], {}) == Loaded(Concat(d, PreOrder(t.kids[i])))
  {
    TreeLoads(d, t.kids[i], {});
  }

  lemma {:induction false} ImportsLoadTrees<T>(d: Disk, t: Tree, list: File -> seq<T>)
    requires Unfolds(d, t) && AllValid(d, t)
    ensures LoadedLists(d, Imported(d, t.path), list) == TreeLists(d, t.kids, list)
  {
    forall i | 0 <= i < |t.kids|
      ensures LoadedLists(d, Imported(d, t.path), list)[i] == TreeLists(d, t.kids, list)[i]
    {
      ImportsLoad(d, t, i);
    }
  }

  lemma {:induction false} ListInOrder<T(!new)>(d: Disk, path: string, list: File -> seq<T>)
    requires Merges(list) && Load(d, path, {}).Loaded?
    ensures list(Load(d, path, {}).cfg) ==
      list(FileAt(d, path).(imports := [])) + Flat(LoadedLists(d, Imported(d, path), list))
  {
    var t := LoadedHasTree(d, path, {});
    ConcatOne(d, path);
    ConcatSplits(d, [path], PreOrderAll(t.kids));
    ListOfTrees(d, t.kids, list);
    ImportsLoadTrees(d, t, list);
  }

  /** The order of the merge: every import of a file that loads, loads on its own; and each list of the configuration,
      that of the dotenv files, profiles, targets and suites, is the file's own list followed by the loaded list of
      each import, in the order of the import lines. So the first target of a file stays the first of all. */
  lemma {:induction false} LoadedInOrder(d: Disk, path: string)
    requires Load(d, path, {}).Loaded?
    ensures var cfg := Load(d, path, {}).cfg; var own := FileAt(d, path); var kids := Imported(d, path);
      && (forall i :: 0 <= i < |kids| ==> Load(d, kids[i], {}).Loaded?)
      && cfg.dotenv == own.dotenv + Flat(LoadedLists(d, kids, DotenvOf))
      && cfg.profiles == own.profiles + Flat(LoadedLists(d, kids, ProfilesOf))
      && cfg.targets == own.targets + Flat(LoadedLists(d, kids, TargetsOf))
      && cfg.suites == own.suites + Flat(LoadedLists(d, kids, SuitesOf))
      && (own.targets != [] ==> cfg.targets[0] == own.targets[0])
  {
    ListsMerge();
    ListInOrder(d, path, DotenvOf);
    ListInOrder(d, path, ProfilesOf);
    ListInOrder(d, path, TargetsOf);
    ListInOrder(d, path, SuitesOf);
    var t := LoadedHasTree(d, path, {});
    forall i | 0 <= i < |Imported(d, path)| ensures Load(d, Imported(d, path)[i], {}).Loaded? {
      ImportsLoad(d, t, i);
    }
  }

  // ------------------------------------------------------------------- errors name their file

  /** An error that is no cycle is about a file that was reached: one that cannot be read, or one whose tree does not
      validate. */
  lemma {:induction false} ErrorIsReal(d: Disk, path: string, visited: set<string>)
    requires Load(d, path, visited).Failed? && !Load(d, path, visited).error.Cycle?
    ensures var e := Load(d, path, visited).error;
      && IsRead(d, path, e.path)
      && (e.Unreadable? ==> !Readable(d, e.path))
      && (e.Invalid? ==> exists t: Tree :: Unfolds(d, t) && t.path == e.path && !d.valid(Concat(d, PreOrder(t))))
    decreases |d.files.Keys - visited|, 0
  {
    ReadsItself(d, path);
    if Readable(d, path) {
      Shrinks(d, path, visited);
      var own := FileAt(d, path).(imports := []);
      var kids := Imported(d, path);
      if LoadAll(d, kids, visited + {path}, own).Failed? {
        var b := ErrorBelow(d, kids, visited + {path}, own);
        assert Imports(d, path, b);
        ReadFromImport(d, path, b, Load(d, path, visited).error.path);
      } else {
        var ts := AllLoadedHaveTrees(d, kids, visited + {path}, own);
        var t := Node(path, ts);
        ConcatOne(d, path);
        ConcatSplits(d, [path], PreOrderAll(ts));
        assert Unfolds(d, t);
      }
    }
  }

  lemma {:induction false} ErrorBelow(d: Disk, imports: seq<string>, visited: set<string>, merged: File)
    returns (b: string)
    requires LoadAll(d, imports, visited, merged).Failed? && !LoadAll(d, imports, visited, merged).error.Cycle?
    ensures var e := LoadAll(d, imports, visited, merged).error;
      && b in imports && IsRead(d, b, e.path)
      && (e.Unreadable? ==> !Readable(d, e.path))
      && (e.Invalid? ==> exists t: Tree :: Unfolds(d, t) && t.path == e.path && !d.valid(Concat(d, PreOrder(t))))
    decreases |d.files.Keys - visited|, |imports| + 1
  {
    match Load(d, imports[0], visited)
    case Failed(_) =>
      ErrorIsReal(d, imports[0], visited);
      b := imports[0];
    case Loaded(cfg) => b := ErrorBelow(d, imports[1..], visited, Append(merged, cfg));
  }

  // ------------------------------------------------------------------ the watched files

  /** The Bakefile and one path for each import the loaded configuration lists (cmd/baked/main.go). */
  function WatchPaths(d: Disk, path: string, cfg: File): seq<string> {
    [path] + seq(|cfg.imports|, i requires 0 <= i < |cfg.imports| => d.resolve(path, cfg.imports[i]))
  }

  method CollectWatchPaths(d: Disk, path: string, cfg: File) returns (paths: seq<string>)
    ensures paths == WatchPaths(d, path, cfg)
  {
    paths := [path];
    for i := 0 to |cfg.imports|
      invariant paths == [path] + seq(i, j requires 0 <= j < i => d.resolve(path, cfg.imports[j]))
    {
      paths := paths + [d.resolve(path, cfg.imports[i])];
    }
  }

  lemma {:induction false} LoadedForgetsImports(d: Disk, path: string)
    requires Load(d, path, {}).Loaded?
    ensures Load(d, path, {}).cfg.imports == []
  {
    var t := LoadedHasTree(d, path, {});
    ConcatForgets(d, PreOrder(t));
  }

  /** The documentation says the daemon watches the Bakefile and its imports. Exactly: of a file that loads, every
      file that was read is watched if and only if the file imports nothing, because the loaded configuration lists
      no imports. */
  lemma {:induction false} WatchedExactly(d: Disk, path: string)
    requires Load(d, path, {}).Loaded?
    ensures (forall p :: IsRead(d, path, p) ==> p in WatchPaths(d, path, Load(d, path, {}).cfg)) <==>
      FileAt(d, path).imports == []
  {
    LoadedForgetsImports(d, path);
    assert WatchPaths(d, path, Load(d, path, {}).cfg) == [path];
    if FileAt(d, path).imports == [] {
      forall p | IsRead(d, path, p) ensures p == path {
        var q :| Chain(d, q) && q[0] == path && q[|q| - 1] == p;
        assert |q| > 1 ==> Imports(d, q[0], q[1]);
      }
    } else {
      var p := Imported(d, path)[0];
      var q := [path, p];
      assert Chain(d, q) && IsRead(d, path, p);
      if p == path {
        assert q[0] == q[1] && Repeats(q) && CycleReachable(d, path);
        CyclesExactly(d, path);
      }
    }
  }

  /** A Bakefile with one import, which defines the only target. */
  function TwoFiles(target: Target): Disk {
    Disk(map["/r/Bakefile" := Some(File([], ["lib"], [], [], [])), "/r/lib" := Some(File([], [], [], [target], []))],
         (from, to) => "/r/" + to, cfg => true)
  }

  lemma {:induction false} LoadOne(d: Disk, path: string, visited: set<string>, merged: File)
    requires Load(d, path, visited).Loaded?
    ensures LoadAll(d, [path], visited, merged) == Loaded(Append(merged, Load(d, path, visited).cfg))
  {
    var cfg := Load(d, path, visited).cfg;
    assert [path][1..] == [];
    assert LoadAll(d, [], visited, Append(merged, cfg)) == Loaded(Append(merged, cfg));
  }

  /** It loads with the target of its import, and the import is not watched. */
  lemma {:induction false} ImportNotWatched(target: Target)
    ensures var d := TwoFiles(target);
      && Load(d, "/r/Bakefile", {}) == Loaded(File([], [], [], [target], []))
      && IsRead(d, "/r/Bakefile", "/r/lib")
      && "/r/lib" !in WatchPaths(d, "/r/Bakefile", Load(d, "/r/Bakefile", {}).cfg)
  {
    var d := TwoFiles(target);
    var root, lib := "/r/Bakefile", "/r/lib";
    var only := File([], [], [], [target], []);
    assert root[3] != lib[3];
    assert Readable(d, root) && Readable(d, lib) && FileAt(d, lib) == only;
    assert FileAt(d, root).imports == ["lib"] && "/r/" + "lib" == lib;
    assert Imported(d, root)[0] == lib && Imported(d, root) == [lib] && Imported(d, lib) == [];
    assert LoadAll(d, [], {root} + {lib}, only) == Loaded(only);
    assert Load(d, lib, {root}) == Loaded(only);
    var blank := File([], [], [], [], []);
    assert Append(blank, only) == only;
    LoadOne(d, lib, {root}, blank);
    assert {} + {root} == {root};
    assert Chain(d, [root, lib]) && IsRead(d, root, lib);
  }

  // ------------------------------------------------------------------------ duplicates

  ghost predicate RejectsDuplicates(d: Disk) {
    forall cfg :: d.valid(cfg) ==> DistinctNames(cfg.targets)
  }

  lemma {:induction false} ConcatTwice(d: Disk, paths: seq<string>, i: nat, j: nat)
    requires i < j < |paths| && paths[i] == paths[j] && Readable(d, paths[i]) && FileAt(d, paths[i]).targets != []
    ensures !DistinctNames(Concat(d, paths).targets)
  {
    var u := FileAt(d, paths[i]).targets[0];
    var a := paths[..j];
    assert paths == a + paths[j..] && paths[j..] == [paths[j]] + paths[j + 1..];
    assert a == paths[..i] + ([paths[i]] + paths[i + 1..j]);
    ConcatSplits(d, a, paths[j..]);
    ConcatSplits(d, [paths[j]], paths[j + 1..]);
    ConcatSplits(d, paths[..i], [paths[i]] + paths[i + 1..j]);
    ConcatSplits(d, [paths[i]], paths[i + 1..j]);
    ConcatOne(d, paths[i]);
    var x, y := |Concat(d, paths[..i]).targets|, |Concat(d, a).targets|;
    assert Concat(d, paths).targets[x] == u && Concat(d, paths).targets[y] == u;
  }

  /** A file with a target cannot be imported along two paths: its targets would be there twice. */
  lemma {:induction false} NoDiamonds(d: Disk, t: Tree, i: nat, j: nat)
    requires RejectsDuplicates(d) && Unfolds(d, t)
    requires i < j < |PreOrder(t)| && PreOrder(t)[i] == PreOrder(t)[j]
    requires Readable(d, PreOrder(t)[i]) && FileAt(d, PreOrder(t)[i]).targets != []
    ensures Load(d, t.path, {}).Failed?
  {
    if Load(d, t.path, {}).Loaded? {
      var u := LoadedHasTree(d, t.path, {});
      TreeIsUnique(d, t, u);
      ConcatTwice(d, PreOrder(t), i, j);
    }
  }
}
