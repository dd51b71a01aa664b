/** The daemon table (internal/baked/hotreload.go). */
module HotReload {
  // It lists the daemons of the target `up`. A hot reload brings it in line with a new configuration; the commands `up`
  // and `down` (internal/baked/run.go) and the health check (internal/baked/health.go) act on the same table.

  import opened Config

  /** A table entry: the recorded process or container, and the definition it was started from.
      The source stores only the former; the latter is history. */
  datatype Entry = Entry(process: nat, origin: Daemon)

  /** The table, the processes that run, and the next process number. */
  datatype State = State(table: map<string, Entry>, alive: set<nat>, next: nat)

  /** Nothing runs and nothing is recorded. */
  const NOTHING := State(map[], {}, 0)

  // ------------------------------------------------------------------ comparing daemons

  /** Loops over the steps and their arguments; looks at nothing but the image and the argument lists. */
  predicate DaemonEqual(a: Daemon, b: Daemon) {
    && a.image == b.image
    && |a.steps| == |b.steps|
    && forall i :: 0 <= i < |a.steps| ==> SameArgv(a.steps[i].argv, b.steps[i].argv)
  }

  predicate SameArgv(a: seq<string>, b: seq<string>) {
    |a| == |b| && forall j :: 0 <= j < |a| ==> a[j] == b[j]
  }

  method CompareDaemons(a: Daemon, b: Daemon) returns (same: bool)
    ensures same == DaemonEqual(a, b)
  {
    if a.image != b.image {
      return false;
    }
    if |a.steps| != |b.steps| {
      return false;
    }
    for i := 0 to |a.steps|
      invariant forall k :: 0 <= k < i ==> SameArgv(a.steps[k].argv, b.steps[k].argv)
    {
      if |a.steps[i].argv| != |b.steps[i].argv| {
        return false;
      }
      for j := 0 to |a.steps[i].argv|
        invariant forall k :: 0 <= k < j ==> a.steps[i].argv[k] == b.steps[i].argv[k]
      {
        if a.steps[i].argv[j] != b.steps[i].argv[j] {
          assert !SameArgv(a.steps[i].argv, b.steps[i].argv);
          return false;
        }
      }
    }
    return true;
  }

  /** What the comparison sees of a daemon. */
  function Signature(d: Daemon): (string, seq<seq<string>>) {
    (d.image, seq(|d.steps|, i requires 0 <= i < |d.steps| => d.steps[i].argv))
  }

  /** Two daemons compare equal exactly when image and argument lists agree, so the comparison is an equivalence,
      and a change of anything else (env, cwd, runner, unsafe, networks, volumes) goes unnoticed. */
  lemma {:induction false} ComparesSignatures(a: Daemon, b: Daemon)
    ensures DaemonEqual(a, b) <==> Signature(a) == Signature(b)
  {
    var s, t := Signature(a).1, Signature(b).1;
    if DaemonEqual(a, b) {
      forall i | 0 <= i < |s| ensures s[i] == t[i] {
        assert SameArgv(a.steps[i].argv, b.steps[i].argv);
      }
    }
    if s == t {
      forall i | 0 <= i < |s| ensures SameArgv(a.steps[i].argv, b.steps[i].argv) {
        assert s[i] == t[i];
      }
    }
  }

  lemma {:induction false} EqualIsTransitive(a: Daemon, b: Daemon, c: Daemon)
    requires DaemonEqual(a, b) && DaemonEqual(b, c)
    ensures DaemonEqual(a, c)
  {
    ComparesSignatures(a, b);
    ComparesSignatures(b, c);
    ComparesSignatures(a, c);
  }

  // ----------------------------------------------------------------------- the diff

  function UpDaemons(cfg: File): seq<Daemon> {
    match TargetByName(cfg.targets, "up")
    case None => []
    case Some(t) => t.daemons
  }

  ghost predicate Distinct(ds: seq<Daemon>) {
    forall i, j :: 0 <= i < j < |ds| ==> ds[i].name != ds[j].name
  }

  ghost predicate Defines(ds: seq<Daemon>, d: Daemon) {
    d in ds
  }

  ghost predicate Named(ds: seq<Daemon>, n: string) {
    exists d :: Defines(ds, d) && d.name == n
  }

  /** The last daemon of each name. */
  function ByName(ds: seq<Daemon>): map<string, Daemon> {
    if ds == [] then map[] else ByName(ds[..|ds| - 1])[ds[|ds| - 1].name := ds[|ds| - 1]]
  }

  /** The daemons, in order, that `names` does not know. */
  function Unknown(ds: seq<Daemon>, names: map<string, Daemon>): seq<Daemon> {
    if ds == [] then []
    else
      var d := ds[|ds| - 1];
      Unknown(ds[..|ds| - 1], names) + (if d.name in names then [] else [d])
  }

  /** The daemons, in order, that `names` knows under a definition that differs. */
  function Altered(ds: seq<Daemon>, names: map<string, Daemon>): seq<Daemon> {
    if ds == [] then []
    else
      var d := ds[|ds| - 1];
      Altered(ds[..|ds| - 1], names) + (if d.name in names && !DaemonEqual(names[d.name], d) then [d] else [])
  }

  method IndexByName(ds: seq<Daemon>) returns (m: map<string, Daemon>)
    ensures m == ByName(ds)
  {
    m := map[];
    for i := 0 to |ds|
      invariant m == ByName(ds[..i])
    {
      assert ds[..i + 1][..i] == ds[..i];
      m := m[ds[i].name := ds[i]];
    }
    assert ds[..|ds|] == ds;
  }

  method DaemonDiff(old_: File, new_: File) returns (added: seq<Daemon>, removed: seq<Daemon>, changed: seq<Daemon>)
    ensures var was, now := UpDaemons(old_), UpDaemons(new_);
      && added == Unknown(now, ByName(was))
      && removed == Unknown(was, ByName(now))
      && changed == Altered(now, ByName(was))
  {
    var was, now := UpDaemons(old_), UpDaemons(new_);
    var oldMap := IndexByName(was);
    var newMap := IndexByName(now);
    added, changed := NewAndChanged(now, oldMap);
    removed := Gone(was, newMap);
  }

  method NewAndChanged(now: seq<Daemon>, oldMap: map<string, Daemon>) returns (added: seq<Daemon>, changed: seq<Daemon>)
    ensures added == Unknown(now, oldMap) && changed == Altered(now, oldMap)
  {
    added, changed := [], [];
    for i := 0 to |now|
      invariant added == Unknown(now[..i], oldMap)
      invariant changed == Altered(now[..i], oldMap)
    {
      assert now[..i + 1][..i] == now[..i];
      var d := now[i];
      if d.name !in oldMap {
        added := added + [d];
      } else {
        var same := CompareDaemons(oldMap[d.name], d);
        if !same {
          changed := changed + [d];
        }
      }
    }
    assert now[..|now|] == now;
  }

  method Gone(was: seq<Daemon>, newMap: map<string, Daemon>) returns (removed: seq<Daemon>)
    ensures removed == Unknown(was, newMap)
  {
    removed := [];
    for i := 0 to |was|
      invariant removed == Unknown(was[..i], newMap)
    {
      assert was[..i + 1][..i] == was[..i];
      if was[i].name !in newMap {
        removed := removed + [was[i]];
      }
    }
    assert was[..|was|] == was;
  }

  lemma {:induction false} ByNameKnows(ds: seq<Daemon>, n: string)
    ensures n in ByName(ds) <==> Named(ds, n)
    ensures n in ByName(ds) ==> Defines(ds, ByName(ds)[n]) && ByName(ds)[n].name == n
  {
    if ds != [] {
      var init, last := ds[..|ds| - 1], ds[|ds| - 1];
      ByNameKnows(init, n);
      assert Defines(ds, last);
      if Named(init, n) {
        var d :| Defines(init, d) && d.name == n;
        assert Defines(ds, d);
      }
      if Named(ds, n) && last.name != n {
        var d :| Defines(ds, d) && d.name == n;
        assert Defines(init, d);
      }
    }
  }

  lemma {:induction false} UnknownHolds(ds: seq<Daemon>, m: map<string, Daemon>, d: Daemon)
    ensures d in Unknown(ds, m) <==> d in ds && d.name !in m
  {
    if ds != [] {
      UnknownHolds(ds[..|ds| - 1], m, d);
    }
  }

  lemma {:induction false} AlteredHolds(ds: seq<Daemon>, m: map<string, Daemon>, d: Daemon)
    ensures d in Altered(ds, m) <==> d in ds && d.name in m && !DaemonEqual(m[d.name], d)
  {
    if ds != [] {
      AlteredHolds(ds[..|ds| - 1], m, d);
    }
  }

  lemma {:induction false} UnknownDistinct(ds: seq<Daemon>, m: map<string, Daemon>)
    requires Distinct(ds)
    ensures Distinct(Unknown(ds, m))
  {
    if ds != [] {
      var init := ds[..|ds| - 1];
      UnknownDistinct(init, m);
      forall d | d in Unknown(init, m) ensures d.name != ds[|ds| - 1].name {
        UnknownHolds(init, m, d);
      }
    }
  }

  lemma {:induction false} AlteredDistinct(ds: seq<Daemon>, m: map<string, Daemon>)
    requires Distinct(ds)
    ensures Distinct(Altered(ds, m))
  {
    if ds != [] {
      var init := ds[..|ds| - 1];
      AlteredDistinct(init, m);
      forall d | d in Altered(init, m) ensures d.name != ds[|ds| - 1].name {
        AlteredHolds(init, m, d);
      }
    }
  }

  lemma {:induction false} SameName(ds: seq<Daemon>, a: Daemon, b: Daemon)
    requires Distinct(ds) && a in ds && b in ds && a.name == b.name
    ensures a == b
  {
  }

  // --------------------------------------------------------------- the table operations

  /** What the outside world answers: whether the dotenv files load for `up`; whether a stop call for a process
      returns without error and whether the process ends, which it can do although the call returns an error;
      whether a probe reports a process as running, which it can do wrongly in both directions; whether a daemon
      starts; whether an entry can be written or removed; whether a workflow target runs without error. */
  datatype World = World(
    dotenvOk: bool,
    signals: nat -> bool,
    ends: nat -> bool,
    answers: nat -> bool,
    starts: Daemon -> bool,
    records: Daemon -> bool,
    removes: string -> bool,
    runs: string -> bool)

  predicate InContainer(d: Daemon) {
    d.image != "" && !d.unsafe
  }

  /** A daemon without steps never starts, nor does one without a command; on the host a runner will do. */
  predicate Startable(d: Daemon) {
    d.steps != [] && (d.steps[0].argv != [] || (d.steps[0].runner != "" && !InContainer(d)))
  }

  predicate Starts(w: World, d: Daemon) {
    Startable(d) && w.starts(d)
  }

  /** A start that ends up in the table. */
  predicate Lands(w: World, d: Daemon) {
    Starts(w, d) && w.records(d)
  }

  function Halted(s: State, p: nat, w: World): State {
    if w.ends(p) then s.(alive := s.alive - {p}) else s
  }

  function Dropped(s: State, n: string, w: World): State {
    if w.removes(n) then s.(table := s.table - {n}) else s
  }

  /** Stop errors are ignored: the entry goes either way, if it can be removed. */
  function Stopped(s: State, n: string, w: World): State {
    if n in s.table then Dropped(Halted(s, s.table[n].process, w), n, w) else s
  }

  /** A process whose entry cannot be written goes on running. */
  function Started(s: State, d: Daemon, w: World): State {
    if !Starts(w, d) then s
    else if w.records(d) then
      s.(table := s.table[d.name := Entry(s.next, d)], alive := s.alive + {s.next}, next := s.next + 1)
    else s.(alive := s.alive + {s.next}, next := s.next + 1)
  }

  function StopAll(s: State, ds: seq<Daemon>, w: World): State {
    if ds == [] then s else Stopped(StopAll(s, ds[..|ds| - 1], w), ds[|ds| - 1].name, w)
  }

  function RestartAll(s: State, ds: seq<Daemon>, w: World): State {
    if ds == [] then s
    else
      var d := ds[|ds| - 1];
      Started(Stopped(RestartAll(s, ds[..|ds| - 1], w), d.name, w), d, w)
  }

  function StartAll(s: State, ds: seq<Daemon>, w: World): State {
    if ds == [] then s else Started(StartAll(s, ds[..|ds| - 1], w), ds[|ds| - 1], w)
  }

  function Reloaded(s: State, was: seq<Daemon>, now: seq<Daemon>, w: World): State {
    var t := StopAll(s, Unknown(was, ByName(now)), w);
    var u := RestartAll(t, Altered(now, ByName(was)), w);
    StartAll(u, Unknown(now, ByName(was)), w)
  }

  /** `down` without a name: every entry that can be removed goes, stop errors are ignored. */
  function AllDown(s: State, w: World): State {
    var procs := set n | n in s.table :: s.table[n].process;
    s.(table := map n | n in s.table && !w.removes(n) :: s.table[n],
       alive := s.alive - (set p | p in procs && w.ends(p)))
  }

  /** `down` of one daemon: if the stop call fails the entry stays, whether or not the process ended. */
  function OneDown(s: State, n: string, w: World): State {
    if n !in s.table then s
    else if w.signals(s.table[n].process) then Stopped(s, n, w)
    else Halted(s, s.table[n].process, w)
  }

  /** The health check goes by the probe. */
  function Checked(s: State, w: World): State {
    s.(table := map n | n in s.table && (w.answers(s.table[n].process) || !w.removes(n)) :: s.table[n])
  }

  function FirstNamed(ds: seq<Daemon>, n: string): (d: Option<Daemon>)
    ensures d.Some? ==> d.value in ds && d.value.name == n
  {
    if ds == [] then None else if ds[0].name == n then Some(ds[0]) else FirstNamed(ds[1..], n)
  }

  /** The daemons `up` starts, in order: it stops at the first target that fails, daemon that does not start or
      cannot be recorded, or name that is neither. A name of a target is always taken for the target. */
  function Brought(cfg: File, workflow: seq<string>, w: World): seq<Daemon> {
    if workflow == [] then []
    else if TargetByName(cfg.targets, workflow[0]).Some? then
      (if w.runs(workflow[0]) then Brought(cfg, workflow[1..], w) else [])
    else
      match FirstNamed(UpDaemons(cfg), workflow[0])
      case None => []
      case Some(d) => if !Starts(w, d) then [] else if !w.records(d) then [d] else [d] + Brought(cfg, workflow[1..], w)
  }

  /** What one name of a workflow asks for works. */
  predicate Works(cfg: File, n: string, w: World) {
    if TargetByName(cfg.targets, n).Some? then w.runs(n)
    else
      match FirstNamed(UpDaemons(cfg), n)
      case None => false
      case Some(d) => Lands(w, d)
  }

  function Workflow(cfg: File): seq<string> {
    match TargetByName(cfg.targets, "up")
    case None => []
    case Some(t) => t.workflow
  }

  function Upped(s: State, cfg: File, w: World): State {
    if w.dotenvOk then StartAll(s, Brought(cfg, Workflow(cfg), w), w) else s
  }

  // ---------------------------------------------------------- what the operations keep

  /** Every entry was started from a definition that compares equal to the configured daemon of its name. */
  ghost predicate Consistent(s: State, ds: seq<Daemon>) {
    forall n :: n in s.table ==> n in ByName(ds) && DaemonEqual(s.table[n].origin, ByName(ds)[n])
  }

  ghost predicate Recorded(s: State, p: nat) {
    exists n :: n in s.table && s.table[n].process == p
  }

  /** No process runs unseen. */
  ghost predicate NothingLeaked(s: State) {
    forall p :: p in s.alive ==> Recorded(s, p)
  }

  /** Process numbers are below the next one, and no two entries share one. */
  ghost predicate Numbered(s: State) {
    && (forall p :: p in s.alive ==> p < s.next)
    && (forall n :: n in s.table ==> s.table[n].process < s.next)
    && (forall n, m :: n in s.table && m in s.table && s.table[n].process == s.table[m].process ==> n == m)
  }

  /** The table has an entry of that name whose process runs. */
  predicate Occupied(s: State, n: string) {
    n in s.table && s.table[n].process in s.alive
  }

  /** The entry of a name, and whether its process runs, are as before. */
  predicate Spared(s: State, t: State, n: string) {
    && (n in t.table <==> n in s.table)
    && (n in s.table ==> t.table[n] == s.table[n] && (s.table[n].process in t.alive <==> s.table[n].process in s.alive))
  }

  /** A running process whose entry goes ends. */
  predicate StopFits(s: State, n: string, w: World) {
    Occupied(s, n) && w.removes(n) ==> w.ends(s.table[n].process)
  }

  /** What starts is recorded, and not under a name that is taken. */
  predicate StartFits(s: State, d: Daemon, w: World) {
    Starts(w, d) ==> w.records(d) && !Occupied(s, d.name)
  }

  /** A running process ends, or keeps its entry because that cannot be removed and the new process does not start; what
      starts is recorded. */
  predicate RestartFits(s: State, d: Daemon, w: World) {
    && (Occupied(s, d.name) && !w.ends(s.table[d.name].process) ==> !w.removes(d.name) && !Starts(w, d))
    && (Starts(w, d) ==> w.records(d))
  }

  /** A stop leaks a process exactly when it removes the entry of one that goes on running. */
  lemma {:induction false} StoppedKeeps(s: State, n: string, w: World)
    requires Numbered(s)
    ensures var t := Stopped(s, n, w);
      && Numbered(t) && t.next == s.next
      && (NothingLeaked(t) <==> NothingLeaked(s) && StopFits(s, n, w))
      && (Occupied(t, n) <==> Occupied(s, n) && !w.removes(n) && !w.ends(s.table[n].process))
      && (forall m :: m != n ==> Spared(s, t, m))
  {
    var t := Stopped(s, n, w);
    forall p | p in t.alive && Recorded(s, p) && !(n in s.table && p == s.table[n].process) ensures Recorded(t, p) {
      var m :| m in s.table && s.table[m].process == p;
      assert m in t.table && t.table[m].process == p;
    }
    forall p | Recorded(t, p) ensures Recorded(s, p) {
      var m :| m in t.table && t.table[m].process == p;
      assert m in s.table && s.table[m].process == p;
    }
    forall p | p in s.alive && p !in t.alive ensures Recorded(s, p) {
      assert n in s.table && s.table[n].process == p;
    }
    if Occupied(s, n) && !w.ends(s.table[n].process) {
      var p := s.table[n].process;
      if w.removes(n) {
        assert !Recorded(t, p);
      } else {
        assert n in t.table && t.table[n].process == p;
      }
    }
  }

  /** A start leaks a process exactly when it replaces the entry of one that runs, or its own entry cannot be
      written. */
  lemma {:induction false} StartedKeeps(s: State, d: Daemon, w: World)
    requires Numbered(s)
    ensures var t := Started(s, d, w);
      && Numbered(t) && t.next >= s.next
      && (NothingLeaked(t) <==> NothingLeaked(s) && StartFits(s, d, w))
      && (Occupied(t, d.name) <==> Occupied(s, d.name) || Lands(w, d))
      && (forall m :: m != d.name || !Lands(w, d) ==> Spared(s, t, m))
  {
    StartedSpares(s, d, w);
    StartedLeaks(s, d, w);
  }

  lemma {:induction false} StartedSpares(s: State, d: Daemon, w: World)
    requires Numbered(s)
    ensures var t := Started(s, d, w);
      && Numbered(t) && t.next >= s.next
      && (Occupied(t, d.name) <==> Occupied(s, d.name) || Lands(w, d))
      && (forall m :: m != d.name || !Lands(w, d) ==> Spared(s, t, m))
  {
    StartedNumbered(s, d, w);
    forall m | m != d.name || !Lands(w, d) ensures Spared(s, Started(s, d, w), m) {
      StartedSparesOne(s, d, w, m);
    }
  }

  lemma {:induction false} StartedNumbered(s: State, d: Daemon, w: World)
    requires Numbered(s)
    ensures Numbered(Started(s, d, w)) && Started(s, d, w).next >= s.next
  {
  }

  lemma {:induction false} StartedSparesOne(s: State, d: Daemon, w: World, m: string)
    requires Numbered(s) && (m != d.name || !Lands(w, d))
    ensures Spared(s, Started(s, d, w), m)
  {
  }

  lemma {:induction false} StartedLeaks(s: State, d: Daemon, w: World)
    requires Numbered(s)
    ensures NothingLeaked(Started(s, d, w)) <==> NothingLeaked(s) && StartFits(s, d, w)
  {
    var t := Started(s, d, w);
    if NothingLeaked(s) && StartFits(s, d, w) {
      forall p | p in t.alive ensures Recorded(t, p) {
        if p in s.alive {
          var m :| m in s.table && s.table[m].process == p;
          assert m in t.table && t.table[m].process == p;
        } else {
          assert t.table[d.name].process == p;
        }
      }
    }
    if NothingLeaked(t) {
      LeakStays(s, d, w);
    }
  }

  lemma {:induction false} LeakStays(s: State, d: Daemon, w: World)
    requires Numbered(s) && NothingLeaked(Started(s, d, w))
    ensures NothingLeaked(s) && StartFits(s, d, w)
  {
    var t := Started(s, d, w);
    forall p | p in s.alive ensures Recorded(s, p) {
      var m :| m in t.table && t.table[m].process == p;
      assert m in s.table && s.table[m].process == p;
    }
    if Starts(w, d) {
      assert s.next in t.alive && Recorded(t, s.next);
      assert Occupied(s, d.name) ==> Recorded(t, s.table[d.name].process);
    }
  }

  lemma {:induction false} NamedSplits(ds: seq<Daemon>, n: string)
    requires ds != []
    ensures Named(ds, n) <==> Named(ds[..|ds| - 1], n) || ds[|ds| - 1].name == n
  {
    var init, last := ds[..|ds| - 1], ds[|ds| - 1];
    if last.name == n {
      assert Defines(ds, last);
    } else if Named(init, n) {
      var d :| Defines(init, d) && d.name == n;
      assert Defines(ds, d);
    }
  }

  lemma {:induction false} LastIsNew(ds: seq<Daemon>)
    requires ds != [] && Distinct(ds)
    ensures Distinct(ds[..|ds| - 1]) && !Named(ds[..|ds| - 1], ds[|ds| - 1].name)
    ensures forall d :: d in ds <==> d in ds[..|ds| - 1] || d == ds[|ds| - 1]
  {
    var init := ds[..|ds| - 1];
    assert ds == init + [ds[|ds| - 1]];
    forall d | Defines(init, d) ensures d.name != ds[|ds| - 1].name {
    }
  }

  lemma {:induction false} SparedTwice(s: State, t: State, u: State, n: string)
    requires Spared(s, t, n) && Spared(t, u, n)
    ensures Spared(s, u, n)
  {
  }

  // The three loops of a reload: what they leak, and what they spare.

  lemma {:induction false} StopAllKeeps(s: State, ds: seq<Daemon>, w: World)
    requires Numbered(s) && Distinct(ds)
    ensures var t := StopAll(s, ds, w);
      && Numbered(t) && t.next == s.next
      && (NothingLeaked(t) <==> NothingLeaked(s) && forall d :: d in ds ==> StopFits(s, d.name, w))
      && (forall n :: !Named(ds, n) ==> Spared(s, t, n))
  {
    if ds != [] {
      var init, d := ds[..|ds| - 1], ds[|ds| - 1];
      LastIsNew(ds);
      StopAllKeeps(s, init, w);
      StoppedKeeps(StopAll(s, init, w), d.name, w);
      forall n | !Named(ds, n) ensures Spared(s, StopAll(s, ds, w), n) {
        NamedSplits(ds, n);
        SparedTwice(s, StopAll(s, init, w), StopAll(s, ds, w), n);
      }
    }
  }

  lemma {:induction false} RestartedKeeps(s: State, d: Daemon, w: World)
    requires Numbered(s)
    ensures var t := Started(Stopped(s, d.name, w), d, w);
      && Numbered(t) && t.next >= s.next
      && (NothingLeaked(t) <==> NothingLeaked(s) && RestartFits(s, d, w))
      && (forall m :: m != d.name ==> Spared(s, t, m))
  {
    var a := Stopped(s, d.name, w);
    StoppedKeeps(s, d.name, w);
    StartedKeeps(a, d, w);
    forall m | m != d.name ensures Spared(s, Started(a, d, w), m) {
      SparedTwice(s, a, Started(a, d, w), m);
    }
  }

  lemma {:induction false} RestartAllKeeps(s: State, ds: seq<Daemon>, w: World)
    requires Numbered(s) && Distinct(ds)
    ensures var t := RestartAll(s, ds, w);
      && Numbered(t) && t.next >= s.next
      && (NothingLeaked(t) <==> NothingLeaked(s) && forall d :: d in ds ==> RestartFits(s, d, w))
      && (forall n :: !Named(ds, n) ==> Spared(s, t, n))
  {
    if ds != [] {
      var init, d := ds[..|ds| - 1], ds[|ds| - 1];
      LastIsNew(ds);
      RestartAllKeeps(s, init, w);
      assert Spared(s, RestartAll(s, init, w), d.name);
      FitsAlike(s, RestartAll(s, init, w), d, w);
      assert (forall e :: e in ds ==> RestartFits(s, e, w)) <==>
        (forall e :: e in init ==> RestartFits(s, e, w)) && RestartFits(s, d, w);
      RestartedKeeps(RestartAll(s, init, w), d, w);
      forall n | !Named(ds, n) ensures Spared(s, RestartAll(s, ds, w), n) {
        NamedSplits(ds, n);
        SparedTwice(s, RestartAll(s, init, w), RestartAll(s, ds, w), n);
      }
    }
  }

  lemma {:induction false} StartAllKeeps(s: State, ds: seq<Daemon>, w: World)
    requires Numbered(s) && Distinct(ds)
    ensures var t := StartAll(s, ds, w);
      && Numbered(t) && t.next >= s.next
      && (NothingLeaked(t) <==> NothingLeaked(s) && forall d :: d in ds ==> StartFits(s, d, w))
      && (forall n :: !Named(ds, n) ==> Spared(s, t, n))
  {
    if ds != [] {
      var init, d := ds[..|ds| - 1], ds[|ds| - 1];
      LastIsNew(ds);
      StartAllKeeps(s, init, w);
      assert Spared(s, StartAll(s, init, w), d.name);
      FitsAlike(s, StartAll(s, init, w), d, w);
      assert (forall e :: e in ds ==> StartFits(s, e, w)) <==>
        (forall e :: e in init ==> StartFits(s, e, w)) && StartFits(s, d, w);
      StartedKeeps(StartAll(s, init, w), d, w);
      forall n | !Named(ds, n) ensures Spared(s, StartAll(s, ds, w), n) {
        NamedSplits(ds, n);
        SparedTwice(s, StartAll(s, init, w), StartAll(s, ds, w), n);
      }
    }
  }

  // What they leave under a name they touch.

  /** The entry of d's name is a new process of d. */
  predicate Renewed(s: State, t: State, d: Daemon) {
    d.name in t.table && t.table[d.name].origin == d && t.table[d.name].process >= s.next
  }

  /** The entry of a name is as before; its process may have ended. */
  predicate Stays(s: State, t: State, n: string) {
    (n in t.table <==> n in s.table) && (n in s.table ==> t.table[n] == s.table[n])
  }

  lemma {:induction false} StopAllAt(s: State, ds: seq<Daemon>, w: World, d: Daemon)
    requires Distinct(ds) && d in ds
    ensures var t := StopAll(s, ds, w); if w.removes(d.name) then d.name !in t.table else Stays(s, t, d.name)
    ensures StopAll(s, ds, w).next == s.next
  {
    LastIsNew(ds);
    var init, last := ds[..|ds| - 1], ds[|ds| - 1];
    if d in init {
      StopAllAt(s, init, w, d);
    } else {
      StopAllElsewhere(s, init, w, d.name);
    }
  }

  lemma {:induction false} StopAllElsewhere(s: State, ds: seq<Daemon>, w: World, n: string)
    requires !Named(ds, n)
    ensures Stays(s, StopAll(s, ds, w), n) && StopAll(s, ds, w).next == s.next
  {
    if ds != [] {
      NamedSplits(ds, n);
      StopAllElsewhere(s, ds[..|ds| - 1], w, n);
    }
  }

  /** A restart that lands renews the entry; one that does not loses it if it can be removed. */
  lemma {:induction false} RestartAllAt(s: State, ds: seq<Daemon>, w: World, d: Daemon)
    requires Distinct(ds) && d in ds
    ensures var t := RestartAll(s, ds, w);
      && t.next >= s.next
      && if Lands(w, d) then Renewed(s, t, d) else if w.removes(d.name) then d.name !in t.table else Stays(s, t, d.name)
  {
    LastIsNew(ds);
    var init, last := ds[..|ds| - 1], ds[|ds| - 1];
    if d in init {
      RestartAllAt(s, init, w, d);
      assert d.name != last.name by {
        assert Defines(init, d);
      }
      RestartElsewhere(RestartAll(s, init, w), last, w, d.name);
    } else {
      RestartAllElsewhere(s, init, w, d.name);
      RestartHere(RestartAll(s, init, w), last, w);
    }
  }

  lemma {:induction false} RestartHere(s: State, d: Daemon, w: World)
    ensures var t := Started(Stopped(s, d.name, w), d, w);
      && t.next >= s.next
      && if Lands(w, d) then Renewed(s, t, d) else if w.removes(d.name) then d.name !in t.table else Stays(s, t, d.name)
  {
  }

  lemma {:induction false} RestartElsewhere(s: State, d: Daemon, w: World, n: string)
    requires n != d.name
    ensures var t := Started(Stopped(s, d.name, w), d, w); Stays(s, t, n) && t.next >= s.next
  {
  }

  lemma {:induction false} RestartAllElsewhere(s: State, ds: seq<Daemon>, w: World, n: string)
    requires !Named(ds, n)
    ensures Stays(s, RestartAll(s, ds, w), n) && RestartAll(s, ds, w).next >= s.next
  {
    if ds != [] {
      NamedSplits(ds, n);
      RestartAllElsewhere(s, ds[..|ds| - 1], w, n);
    }
  }

  lemma {:induction false} StartAllAt(s: State, ds: seq<Daemon>, w: World, d: Daemon)
    requires Distinct(ds) && d in ds
    ensures var t := StartAll(s, ds, w);
      t.next >= s.next && if Lands(w, d) then Renewed(s, t, d) else Stays(s, t, d.name)
  {
    LastIsNew(ds);
    var init, last := ds[..|ds| - 1], ds[|ds| - 1];
    if d in init {
      StartAllAt(s, init, w, d);
      assert d.name != last.name by {
        assert Defines(init, d);
      }
    } else {
      StartAllElsewhere(s, init, w, d.name);
    }
  }

  lemma {:induction false} StartAllElsewhere(s: State, ds: seq<Daemon>, w: World, n: string)
    requires !Named(ds, n)
    ensures Stays(s, StartAll(s, ds, w), n) && StartAll(s, ds, w).next >= s.next
  {
    if ds != [] {
      NamedSplits(ds, n);
      StartAllElsewhere(s, ds[..|ds| - 1], w, n);
    }
  }

  // A round of starts of an `up`, whose workflow may name a daemon twice.

  /** The started daemons come from names that have no running entry, each once. */
  ghost predicate Fits(s: State, ds: seq<Daemon>) {
    Distinct(ds) && forall d :: d in ds ==> !Occupied(s, d.name)
  }

  /** Whatever of the list starts is also recorded. */
  ghost predicate AllRecorded(ds: seq<Daemon>, w: World) {
    forall d :: d in ds && Starts(w, d) ==> w.records(d)
  }

  lemma {:induction false} AllRecordedSplits(ds: seq<Daemon>, w: World)
    requires ds != []
    ensures var init, last := ds[..|ds| - 1], ds[|ds| - 1];
      AllRecorded(ds, w) <==> AllRecorded(init, w) && (Starts(w, last) ==> w.records(last))
  {
    assert ds == ds[..|ds| - 1] + [ds[|ds| - 1]];
  }

  /** A round of starts leaks nothing exactly when each daemon is recorded, and started once and under a free name. */
  lemma {:induction false} StartAllLeaks(s: State, ds: seq<Daemon>, w: World)
    requires Numbered(s) && NothingLeaked(s) && forall d :: d in ds ==> Starts(w, d)
    ensures Numbered(StartAll(s, ds, w))
    ensures NothingLeaked(StartAll(s, ds, w)) <==> Fits(s, ds) && AllRecorded(ds, w)
  {
    if ds != [] {
      var init, last := ds[..|ds| - 1], ds[|ds| - 1];
      StartAllLeaks(s, init, w);
      StartedKeeps(StartAll(s, init, w), last, w);
      AllRecordedSplits(ds, w);
      FitsSplits(s, ds);
      if AllRecorded(init, w) {
        StartAllOccupies(s, init, w, last.name);
      }
    }
  }

  lemma {:induction false} FitsSplits(s: State, ds: seq<Daemon>)
    requires ds != []
    ensures var init, last := ds[..|ds| - 1], ds[|ds| - 1];
      Fits(s, ds) <==> Fits(s, init) && !Occupied(s, last.name) && !Named(init, last.name)
  {
    var init, last := ds[..|ds| - 1], ds[|ds| - 1];
    forall k | 0 <= k < |init| && !Named(init, last.name) ensures ds[k].name != last.name {
      assert Defines(init, init[k]);
    }
  }

  lemma {:induction false} StartAllOccupies(s: State, ds: seq<Daemon>, w: World, n: string)
    requires Numbered(s) && AllRecorded(ds, w) && forall d :: d in ds ==> Starts(w, d)
    ensures Numbered(StartAll(s, ds, w))
    ensures Occupied(StartAll(s, ds, w), n) <==> Occupied(s, n) || Named(ds, n)
  {
    if ds != [] {
      var init, last := ds[..|ds| - 1], ds[|ds| - 1];
      AllRecordedSplits(ds, w);
      StartAllOccupies(s, init, w, n);
      StartedKeeps(StartAll(s, init, w), last, w);
      NamedSplits(ds, n);
      if n != last.name {
        assert Spared(StartAll(s, init, w), StartAll(s, ds, w), n);
      }
    }
  }

  lemma {:induction false} StartAllKept(s: State, ds: seq<Daemon>, w: World)
    requires Numbered(s)
    ensures Numbered(StartAll(s, ds, w))
  {
    if ds != [] {
      StartAllKept(s, ds[..|ds| - 1], w);
      StartedKeeps(StartAll(s, ds[..|ds| - 1], w), ds[|ds| - 1], w);
    }
  }

  // ------------------------------------------------------------------ the reload

  lemma {:induction false} DiffNames(was: seq<Daemon>, now: seq<Daemon>, n: string)
    requires Distinct(was) && Distinct(now)
    ensures Named(Unknown(was, ByName(now)), n) <==> n in ByName(was) && n !in ByName(now)
    ensures Named(Unknown(now, ByName(was)), n) <==> n in ByName(now) && n !in ByName(was)
    ensures Named(Altered(now, ByName(was)), n) <==>
      n in ByName(now) && n in ByName(was) && !DaemonEqual(ByName(was)[n], ByName(now)[n])
  {
    UnknownNames(was, ByName(now), n);
    UnknownNames(now, ByName(was), n);
    AlteredNames(now, ByName(was), n);
  }

  lemma {:induction false} UnknownNames(ds: seq<Daemon>, m: map<string, Daemon>, n: string)
    ensures Named(Unknown(ds, m), n) <==> n in ByName(ds) && n !in m
  {
    ByNameKnows(ds, n);
    if n in ByName(ds) && n !in m {
      UnknownHolds(ds, m, ByName(ds)[n]);
      assert Defines(Unknown(ds, m), ByName(ds)[n]);
    }
    if Named(Unknown(ds, m), n) {
      var d :| Defines(Unknown(ds, m), d) && d.name == n;
      UnknownHolds(ds, m, d);
      assert Defines(ds, d);
    }
  }

  lemma {:induction false} AlteredNames(ds: seq<Daemon>, m: map<string, Daemon>, n: string)
    requires Distinct(ds)
    ensures Named(Altered(ds, m), n) <==> n in ByName(ds) && n in m && !DaemonEqual(m[n], ByName(ds)[n])
  {
    ByNameKnows(ds, n);
    if n in ByName(ds) && n in m && !DaemonEqual(m[n], ByName(ds)[n]) {
      AlteredHolds(ds, m, ByName(ds)[n]);
      assert Defines(Altered(ds, m), ByName(ds)[n]);
    }
    if Named(Altered(ds, m), n) {
      var d :| Defines(Altered(ds, m), d) && d.name == n;
      AlteredHolds(ds, m, d);
      assert Defines(ds, d);
      SameName(ds, d, ByName(ds)[n]);
    }
  }

  /** What a reload leaves under a name. Unchanged and foreign names are spared; a new or changed daemon that lands has
      a new process; other entries go, those that cannot be removed stay. */
  predicate Settled(s: State, t: State, was: seq<Daemon>, now: seq<Daemon>, w: World, n: string) {
    var old_, new_ := ByName(was), ByName(now);
    if n in new_ && !(n in old_ && DaemonEqual(old_[n], new_[n])) then
      if Lands(w, new_[n]) then Renewed(s, t, new_[n])
      else if n in old_ && w.removes(n) then n !in t.table
      else Stays(s, t, n)
    else if n in old_ && n !in new_ then (if w.removes(n) then n !in t.table else Stays(s, t, n))
    else Spared(s, t, n)
  }

  lemma {:induction false} ReloadedAt(s: State, was: seq<Daemon>, now: seq<Daemon>, w: World, n: string)
    requires Numbered(s) && Distinct(was) && Distinct(now)
    ensures Settled(s, Reloaded(s, was, now, w), was, now, w, n)
  {
    var old_, new_ := ByName(was), ByName(now);
    DiffNames(was, now, n);
    if n in new_ && n !in old_ {
      AddedAt(s, was, now, w, n);
    } else if n in new_ && n in old_ && !DaemonEqual(old_[n], new_[n]) {
      ChangedAt(s, was, now, w, n);
    } else if n in old_ && n !in new_ {
      RemovedAt(s, was, now, w, n);
    } else {
      UntouchedAt(s, was, now, w, n);
    }
  }

  lemma {:induction false} AddedAt(s: State, was: seq<Daemon>, now: seq<Daemon>, w: World, n: string)
    requires Distinct(was) && Distinct(now) && n in ByName(now) && n !in ByName(was)
    ensures var t := Reloaded(s, was, now, w); var d := ByName(now)[n];
      d.name == n && if Lands(w, d) then Renewed(s, t, d) else Stays(s, t, n)
  {
    var removed, changed, added := Unknown(was, ByName(now)), Altered(now, ByName(was)), Unknown(now, ByName(was));
    var a := StopAll(s, removed, w);
    DiffNames(was, now, n);
    ByNameKnows(now, n);
    UnknownHolds(now, ByName(was), ByName(now)[n]);
    UnknownDistinct(now, ByName(was));
    StopAllElsewhere(s, removed, w, n);
    RestartAllElsewhere(a, changed, w, n);
    StartAllAt(RestartAll(a, changed, w), added, w, ByName(now)[n]);
  }

  lemma {:induction false} ChangedAt(s: State, was: seq<Daemon>, now: seq<Daemon>, w: World, n: string)
    requires Distinct(was) && Distinct(now) && n in ByName(now) && n in ByName(was)
    requires !DaemonEqual(ByName(was)[n], ByName(now)[n])
    ensures var t := Reloaded(s, was, now, w); var d := ByName(now)[n];
      && d.name == n
      && if Lands(w, d) then Renewed(s, t, d) else if w.removes(n) then n !in t.table else Stays(s, t, n)
  {
    var removed, changed, added := Unknown(was, ByName(now)), Altered(now, ByName(was)), Unknown(now, ByName(was));
    var a := StopAll(s, removed, w);
    DiffNames(was, now, n);
    ByNameKnows(now, n);
    AlteredHolds(now, ByName(was), ByName(now)[n]);
    AlteredDistinct(now, ByName(was));
    StopAllElsewhere(s, removed, w, n);
    RestartAllAt(a, changed, w, ByName(now)[n]);
    StartAllElsewhere(RestartAll(a, changed, w), added, w, n);
  }

  lemma {:induction false} RemovedAt(s: State, was: seq<Daemon>, now: seq<Daemon>, w: World, n: string)
    requires Distinct(was) && Distinct(now) && n in ByName(was) && n !in ByName(now)
    ensures var t := Reloaded(s, was, now, w); if w.removes(n) then n !in t.table else Stays(s, t, n)
  {
    var removed, changed, added := Unknown(was, ByName(now)), Altered(now, ByName(was)), Unknown(now, ByName(was));
    var a := StopAll(s, removed, w);
    DiffNames(was, now, n);
    ByNameKnows(was, n);
    UnknownHolds(was, ByName(now), ByName(was)[n]);
    UnknownDistinct(was, ByName(now));
    StopAllAt(s, removed, w, ByName(was)[n]);
    RestartAllElsewhere(a, changed, w, n);
    StartAllElsewhere(RestartAll(a, changed, w), added, w, n);
  }

  lemma {:induction false} UntouchedAt(s: State, was: seq<Daemon>, now: seq<Daemon>, w: World, n: string)
    requires Numbered(s) && Distinct(was) && Distinct(now)
    requires var old_, new_ := ByName(was), ByName(now);
      if n in new_ then n in old_ && DaemonEqual(old_[n], new_[n]) else n !in old_
    ensures Spared(s, Reloaded(s, was, now, w), n)
  {
    var removed, changed, added := Unknown(was, ByName(now)), Altered(now, ByName(was)), Unknown(now, ByName(was));
    var a := StopAll(s, removed, w);
    var b := RestartAll(a, changed, w);
    DiffNames(was, now, n);
    UnknownDistinct(was, ByName(now));
    AlteredDistinct(now, ByName(was));
    UnknownDistinct(now, ByName(was));
    StopAllKeeps(s, removed, w);
    RestartAllKeeps(a, changed, w);
    StartAllKeeps(b, added, w);
    SparedTwice(s, a, b, n);
    SparedTwice(s, b, StartAll(b, added, w), n);
  }

  /** An added daemon starts under a name the table does not have, so no entry is overwritten. */
  lemma {:induction false} NothingOverwritten(s: State, was: seq<Daemon>, now: seq<Daemon>, w: World)
    requires Consistent(s, was) && Distinct(was) && Distinct(now)
    ensures var b := RestartAll(StopAll(s, Unknown(was, ByName(now)), w), Altered(now, ByName(was)), w);
      forall d :: d in Unknown(now, ByName(was)) ==> d.name !in b.table
  {
    var a := StopAll(s, Unknown(was, ByName(now)), w);
    forall d | d in Unknown(now, ByName(was))
      ensures d.name !in RestartAll(a, Altered(now, ByName(was)), w).table
    {
      UnknownHolds(now, ByName(was), d);
      DiffNames(was, now, d.name);
      StopAllElsewhere(s, Unknown(was, ByName(now)), w, d.name);
      RestartAllElsewhere(a, Altered(now, ByName(was)), w, d.name);
    }
  }

  /** A reload that leaves no process without an entry: what is removed fits as a stop, what changed as a restart, what
      is new as a start. */
  ghost predicate ReloadFits(s: State, was: seq<Daemon>, now: seq<Daemon>, w: World) {
    && (forall d :: d in Unknown(was, ByName(now)) ==> StopFits(s, d.name, w))
    && (forall d :: d in Altered(now, ByName(was)) ==> RestartFits(s, d, w))
    && (forall d :: d in Unknown(now, ByName(was)) ==> StartFits(s, d, w))
  }

  lemma {:induction false} ReloadLeaks(s: State, was: seq<Daemon>, now: seq<Daemon>, w: World)
    requires Numbered(s) && Distinct(was) && Distinct(now)
    ensures Numbered(Reloaded(s, was, now, w))
    ensures NothingLeaked(Reloaded(s, was, now, w)) <==> NothingLeaked(s) && ReloadFits(s, was, now, w)
  {
    var removed, changed, added := Unknown(was, ByName(now)), Altered(now, ByName(was)), Unknown(now, ByName(was));
    var a := StopAll(s, removed, w);
    var b := RestartAll(a, changed, w);
    UnknownDistinct(was, ByName(now));
    AlteredDistinct(now, ByName(was));
    UnknownDistinct(now, ByName(was));
    StopAllKeeps(s, removed, w);
    RestartAllKeeps(a, changed, w);
    StartAllKeeps(b, added, w);
    forall d | d in changed ensures RestartFits(a, d, w) <==> RestartFits(s, d, w) {
      assert Defines(changed, d);
      DiffNames(was, now, d.name);
      FitsAlike(s, a, d, w);
    }
    forall d | d in added ensures StartFits(b, d, w) <==> StartFits(s, d, w) {
      assert Defines(added, d);
      DiffNames(was, now, d.name);
      SparedTwice(s, a, b, d.name);
      FitsAlike(s, b, d, w);
    }
  }

  lemma {:induction false} FitsAlike(s: State, t: State, d: Daemon, w: World)
    requires Spared(s, t, d.name)
    ensures RestartFits(t, d, w) <==> RestartFits(s, d, w)
    ensures StartFits(t, d, w) <==> StartFits(s, d, w)
  {
  }

  /** The entries a reload is to replace are replaced or can be removed. */
  ghost predicate ReloadWrites(s: State, was: seq<Daemon>, now: seq<Daemon>, w: World) {
    forall n :: n in s.table && n in ByName(was) ==>
      if n !in ByName(now) then w.removes(n)
      else DaemonEqual(ByName(was)[n], ByName(now)[n]) || Lands(w, ByName(now)[n]) || w.removes(n)
  }

  lemma {:induction false} ReloadFollows(s: State, was: seq<Daemon>, now: seq<Daemon>, w: World)
    requires Numbered(s) && Consistent(s, was) && Distinct(was) && Distinct(now)
    ensures Consistent(Reloaded(s, was, now, w), now) <==> ReloadWrites(s, was, now, w)
  {
    var t := Reloaded(s, was, now, w);
    var old_, new_ := ByName(was), ByName(now);
    if ReloadWrites(s, was, now, w) {
      forall n | n in t.table ensures n in new_ && DaemonEqual(t.table[n].origin, new_[n]) {
        ReloadedAt(s, was, now, w, n);
        FollowsAt(s, was, now, w, n);
      }
    }
    if Consistent(t, now) {
      forall n | n in s.table && n in old_
        ensures if n !in new_ then w.removes(n) else DaemonEqual(old_[n], new_[n]) || Lands(w, new_[n]) || w.removes(n)
      {
        ReloadedAt(s, was, now, w, n);
        StaleAt(s, was, now, w, n);
      }
    }
  }

  lemma {:induction false} FollowsAt(s: State, was: seq<Daemon>, now: seq<Daemon>, w: World, n: string)
    requires Consistent(s, was) && ReloadWrites(s, was, now, w)
    requires var t := Reloaded(s, was, now, w); n in t.table && Settled(s, t, was, now, w, n)
    ensures var t := Reloaded(s, was, now, w); n in ByName(now) && DaemonEqual(t.table[n].origin, ByName(now)[n])
  {
    if n in ByName(now) {
      ByNameKnows(now, n);
      ComparesSignatures(ByName(now)[n], ByName(now)[n]);
      if n in s.table && DaemonEqual(ByName(was)[n], ByName(now)[n]) {
        EqualIsTransitive(s.table[n].origin, ByName(was)[n], ByName(now)[n]);
      }
    }
  }

  lemma {:induction false} StaleAt(s: State, was: seq<Daemon>, now: seq<Daemon>, w: World, n: string)
    requires Consistent(s, was) && n in s.table && Settled(s, Reloaded(s, was, now, w), was, now, w, n)
    requires Consistent(Reloaded(s, was, now, w), now)
    ensures n in ByName(was)
    ensures if n !in ByName(now) then w.removes(n)
            else DaemonEqual(ByName(was)[n], ByName(now)[n]) || Lands(w, ByName(now)[n]) || w.removes(n)
  {
    if n in ByName(now) && !w.removes(n) && !Lands(w, ByName(now)[n]) && !DaemonEqual(ByName(was)[n], ByName(now)[n]) {
      ComparesSignatures(s.table[n].origin, ByName(was)[n]);
      ComparesSignatures(s.table[n].origin, ByName(now)[n]);
      ComparesSignatures(ByName(was)[n], ByName(now)[n]);
      assert false;
    }
  }

  /** Reconciliation. Unchanged daemons keep entry and running process, whatever else fails. The table agrees with the
      new configuration if and only if every entry that is to go or to be replaced can be removed or is replaced. A
      process is left running without an entry if and only if there was one before or some stop, restart or start does
      not fit. */
  lemma {:induction false} ReloadReconciles(s: State, was: seq<Daemon>, now: seq<Daemon>, w: World)
    requires Numbered(s) && Distinct(was) && Distinct(now)
    ensures var t := Reloaded(s, was, now, w);
      && Numbered(t)
      && (NothingLeaked(t) <==> NothingLeaked(s) && ReloadFits(s, was, now, w))
      && (Consistent(s, was) ==> (Consistent(t, now) <==> ReloadWrites(s, was, now, w)))
      && (forall n :: n in ByName(was) && n in ByName(now) && DaemonEqual(ByName(was)[n], ByName(now)[n]) ==>
            Spared(s, t, n))
  {
    ReloadLeaks(s, was, now, w);
    if Consistent(s, was) {
      ReloadFollows(s, was, now, w);
    }
    forall n | n in ByName(was) && n in ByName(now) && DaemonEqual(ByName(was)[n], ByName(now)[n])
      ensures Spared(s, Reloaded(s, was, now, w), n)
    {
      UntouchedAt(s, was, now, w, n);
    }
  }

  /** The documented restart of changed daemons, exactly: an entry that stays configured is kept if and only if
      image and argument lists are unchanged, or the new process does not land and the entry cannot be removed. A
      change of env, cwd or runner alone is not applied. */
  lemma {:induction false} RestartedExactly(s: State, was: seq<Daemon>, now: seq<Daemon>, w: World, n: string)
    requires Numbered(s) && Consistent(s, was) && Distinct(was) && Distinct(now)
    requires n in s.table && n in ByName(now)
    ensures var t := Reloaded(s, was, now, w);
      n in t.table && t.table[n] == s.table[n] <==>
        || Signature(ByName(was)[n]) == Signature(ByName(now)[n])
        || (!Lands(w, ByName(now)[n]) && !w.removes(n))
  {
    ReloadedAt(s, was, now, w, n);
    ComparesSignatures(ByName(was)[n], ByName(now)[n]);
    ByNameKnows(now, n);
  }

  /** A new or changed daemon that starts and is recorded is in the table afterwards, under its new definition. */
  lemma {:induction false} ReloadStarts(s: State, was: seq<Daemon>, now: seq<Daemon>, w: World, d: Daemon)
    requires Numbered(s) && Distinct(was) && Distinct(now) && d in now && Lands(w, d)
    requires d.name in ByName(was) ==> !DaemonEqual(ByName(was)[d.name], d)
    ensures Renewed(s, Reloaded(s, was, now, w), d)
  {
    assert Defines(now, d);
    ByNameKnows(now, d.name);
    SameName(now, d, ByName(now)[d.name]);
    ReloadedAt(s, was, now, w, d.name);
  }

  // ------------------------------------------------------------------- the health check

  /** The documentation says the health check removes dead entries. Exactly: it removes only those if and only if the
      probe finds every process that runs, or its entry cannot be removed; it removes all of them if and only if the
      probe finds no other process and they can be removed. */
  lemma {:induction false} CheckedExactly(s: State, w: World)
    ensures var t := Checked(s, w);
      && ((forall n :: n in s.table && n !in t.table ==> s.table[n].process !in s.alive) <==>
            forall n :: n in s.table && s.table[n].process in s.alive ==>
              w.answers(s.table[n].process) || !w.removes(n))
      && ((forall n :: n in t.table ==> t.table[n].process in s.alive) <==>
            forall n :: n in s.table && s.table[n].process !in s.alive ==>
              !w.answers(s.table[n].process) && w.removes(n))
  {
    var t := Checked(s, w);
    forall n | n in s.table ensures n in t.table <==> w.answers(s.table[n].process) || !w.removes(n) {
    }
  }

  lemma {:induction false} StartAllSnoc(s: State, ds: seq<Daemon>, d: Daemon, w: World)
    ensures StartAll(s, ds + [d], w) == Started(StartAll(s, ds, w), d, w)
  {
    assert (ds + [d])[..|ds|] == ds;
  }

  lemma {:induction false} BroughtUnfolds(cfg: File, workflow: seq<string>, i: nat, w: World, done: seq<Daemon>)
    requires i < |workflow|
    ensures var rest := Brought(cfg, workflow[i + 1..], w);
      var d := FirstNamed(UpDaemons(cfg), workflow[i]);
      done + Brought(cfg, workflow[i..], w) ==
        if TargetByName(cfg.targets, workflow[i]).Some? then (if w.runs(workflow[i]) then done + rest else done)
        else if d.None? || !Starts(w, d.value) then done
        else if !w.records(d.value) then done + [d.value]
        else done + [d.value] + rest
  {
    assert workflow[i..][1..] == workflow[i + 1..];
  }

  // ------------------------------------------------------------------- the object

  /** .bake/state.json and the processes behind it. */
  class DaemonTable {
    var daemons: map<string, Entry>
    var alive: set<nat>
    var next: nat

    function View(): State
      reads this
    {
      State(daemons, alive, next)
    }

    constructor ()
      ensures View() == NOTHING
    {
      daemons, alive, next := map[], {}, 0;
    }

    /** The stop call. Whether it returns without error and whether the process ends are two answers. */
    method Stop(p: nat, w: World) returns (ok: bool)
      modifies this`alive
      ensures ok == w.signals(p)
      ensures View() == Halted(old(View()), p, w)
    {
      ok := w.signals(p);
      if w.ends(p) {
        alive := alive - {p};
      }
    }

    /** Removes an entry; without effect if that cannot be written. */
    method RemoveEntry(n: string, w: World) returns (ok: bool)
      modifies this`daemons
      ensures ok == w.removes(n)
      ensures View() == Dropped(old(View()), n, w)
    {
      ok := w.removes(n);
      if ok {
        daemons := daemons - {n};
      }
    }

    method StopAndRemove(n: string, w: World)
      modifies this
      ensures View() == Stopped(old(View()), n, w)
    {
      if n in daemons {
        var _ := Stop(daemons[n].process, w);
        var _ := RemoveEntry(n, w);
      }
    }

    method StartAndRecord(d: Daemon, w: World) returns (ok: bool)
      modifies this
      ensures ok == Lands(w, d)
      ensures View() == Started(old(View()), d, w)
    {
      if !Starts(w, d) {
        return false;
      }
      var p := next;
      alive, next := alive + {p}, next + 1;
      if !w.records(d) {
        return false;
      }
      daemons := daemons[d.name := Entry(p, d)];
      ok := true;
    }

    method ApplyDaemonDiff(added: seq<Daemon>, removed: seq<Daemon>, changed: seq<Daemon>, w: World)
      modifies this
      ensures View() == StartAll(RestartAll(StopAll(old(View()), removed, w), changed, w), added, w)
    {
      ghost var s := View();
      for i := 0 to |removed|
        invariant View() == StopAll(s, removed[..i], w)
      {
        assert removed[..i + 1][..i] == removed[..i];
        StopAndRemove(removed[i].name, w);
      }
      assert removed[..|removed|] == removed;
      ghost var a := View();
      for i := 0 to |changed|
        invariant View() == RestartAll(a, changed[..i], w)
      {
        assert changed[..i + 1][..i] == changed[..i];
        StopAndRemove(changed[i].name, w);
        var _ := StartAndRecord(changed[i], w);
      }
      assert changed[..|changed|] == changed;
      ghost var b := View();
      for i := 0 to |added|
        invariant View() == StartAll(b, added[..i], w)
      {
        assert added[..i + 1][..i] == added[..i];
        var _ := StartAndRecord(added[i], w);
      }
      assert added[..|added|] == added;
    }

    /** The reload closure of the daemon (cmd/baked/main.go): diff, then apply what differs. */
    method Reload(old_: File, new_: File, w: World)
      modifies this
      ensures View() == Reloaded(old(View()), UpDaemons(old_), UpDaemons(new_), w)
    {
      var added, removed, changed := DaemonDiff(old_, new_);
      if |added| + |removed| + |changed| > 0 {
        ApplyDaemonDiff(added, removed, changed, w);
      }
    }

    /** `down` without a name, in whatever order the table is walked. */
    method StopEverything(w: World)
      modifies this`daemons, this`alive
      ensures View() == AllDown(old(View()), w)
    {
      var state := daemons;
      var rest := state.Keys;
      ghost var procs: set<nat> := {};
      while rest != {}
        invariant rest <= state.Keys && next == old(next)
        invariant daemons == map n | n in state && (n in rest || !w.removes(n)) :: state[n]
        invariant procs == set n | n in state && n !in rest :: state[n].process
        invariant alive == old(alive) - (set p | p in procs && w.ends(p))
        decreases |rest|
      {
        var n :| n in rest;
        procs := procs + {state[n].process};
        var _ := Stop(state[n].process, w);
        var _ := RemoveEntry(n, w);
        rest := rest - {n};
      }
    }

    /** `down`; with a name it succeeds exactly when the entry is there, the stop call works and the entry goes. */
    method RunDown(n: string, w: World) returns (ok: bool)
      modifies this
      ensures View() == if n == "" then AllDown(old(View()), w) else OneDown(old(View()), n, w)
      ensures ok == (n == "" || (n in old(daemons) && w.signals(old(daemons)[n].process) && w.removes(n)))
    {
      if n == "" {
        StopEverything(w);
        return true;
      }
      if n !in daemons {
        return false;
      }
      ok := Stop(daemons[n].process, w);
      if ok {
        ok := RemoveEntry(n, w);
      }
    }

    /** `up`; it succeeds exactly when there is a workflow, the dotenv files load and every name of it works. */
    method RunUp(cfg: File, w: World) returns (ok: bool)
      modifies this
      ensures View() == Upped(old(View()), cfg, w)
      ensures ok <==> Workflow(cfg) != [] && w.dotenvOk && forall n :: n in Workflow(cfg) ==> Works(cfg, n, w)
    {
      var workflow := Workflow(cfg);
      if workflow == [] || !w.dotenvOk {
        return false;
      }
      ghost var s := View();
      ghost var done: seq<Daemon> := [];
      ghost var all := Brought(cfg, workflow, w);
      for i := 0 to |workflow|
        invariant View() == StartAll(s, done, w)
        invariant all == done + Brought(cfg, workflow[i..], w)
        invariant forall k :: 0 <= k < i ==> Works(cfg, workflow[k], w)
      {
        BroughtUnfolds(cfg, workflow, i, w, done);
        var name := workflow[i];
        assert name in workflow;
        if TargetByName(cfg.targets, name).Some? {
          if !w.runs(name) {
            return false;
          }
        } else {
          var d := FirstNamed(UpDaemons(cfg), name);
          if d.None? {
            return false;
          }
          var started := StartAndRecord(d.value, w);
          if Starts(w, d.value) {
            StartAllSnoc(s, done, d.value, w);
            done := done + [d.value];
          }
          if !started {
            return false;
          }
        }
      }
      assert done + [] == done;
      ok := true;
    }

    /** The health check: removes the entries whose process the probe does not find, in whatever order the table is
        walked. */
    method Check(w: World)
      modifies this`daemons
      ensures View() == Checked(old(View()), w)
    {
      var state := daemons;
      var rest := state.Keys;
      while rest != {}
        invariant rest <= state.Keys
        invariant daemons ==
          map n | n in state && (n in rest || w.answers(state[n].process) || !w.removes(n)) :: state[n]
        decreases |rest|
      {
        var n :| n in rest;
        if !w.answers(state[n].process) {
          var _ := RemoveEntry(n, w);
        }
        rest := rest - {n};
      }
    }
  }
}
