/** Sequences of daemon operations (internal/baked). */
module DaemonHistory {
  // Reloads, `up`, `down`, health checks and processes that end, in any order: when the table agrees with the
  // configuration, and when a process runs without an entry.

  import opened Config
  import V = Validate
  import opened HotReload

  // ---------------------------------------------------------------- any sequence of steps

  /** The table and the configuration the daemon last loaded. */
  datatype System = System(s: State, cfg: File)

  datatype Step =
    | Reload(cfg: File, w: World)
    | Up(w: World)
    | DownAll(w: World)
    | DownOne(name: string, w: World)
    | Health(w: World)
    | Dies(p: nat)

  function Next(y: System, a: Step): System {
    match a
    case Reload(cfg, w) => System(Reloaded(y.s, UpDaemons(y.cfg), UpDaemons(cfg), w), cfg)
    case Up(w) => y.(s := Upped(y.s, y.cfg, w))
    case DownAll(w) => y.(s := AllDown(y.s, w))
    case DownOne(n, w) => y.(s := OneDown(y.s, n, w))
    case Health(w) => y.(s := Checked(y.s, w))
    case Dies(p) => y.(s := y.s.(alive := y.s.alive - {p}))
  }

  function After(y: System, steps: seq<Step>): System {
    if steps == [] then y else Next(After(y, steps[..|steps| - 1]), steps[|steps| - 1])
  }

  /** Every reloaded configuration has passed the daemon checks of validation. */
  ghost predicate Validated(steps: seq<Step>) {
    forall a :: a in steps && a.Reload? ==> V.DaemonsValid(a.cfg.targets)
  }

  lemma {:induction false} ValidatedIsDistinct(cfg: File)
    requires V.DaemonsValid(cfg.targets)
    ensures Distinct(UpDaemons(cfg))
  {
    var up := TargetByName(cfg.targets, "up");
    if up.Some? {
      assert V.DaemonsOk(cfg.targets, up.value);
    }
  }

  ghost predicate Ready(y: System) {
    Numbered(y.s) && Distinct(UpDaemons(y.cfg))
  }

  ghost predicate Follows(y: System) {
    Consistent(y.s, UpDaemons(y.cfg))
  }

  /** `up` starts each daemon once and none that has a running entry, and records all it starts. */
  ghost predicate UpFits(y: System, w: World) {
    var ds := Brought(y.cfg, Workflow(y.cfg), w);
    w.dotenvOk ==> Fits(y.s, ds) && AllRecorded(ds, w)
  }

  /** A step that leaves no process without an entry. */
  ghost predicate StepFits(y: System, a: Step) {
    match a
    case Reload(cfg, w) => ReloadFits(y.s, UpDaemons(y.cfg), UpDaemons(cfg), w)
    case Up(w) => UpFits(y, w)
    case DownAll(w) => forall n :: n in y.s.table ==> StopFits(y.s, n, w)
    case DownOne(n, w) => n in y.s.table && w.signals(y.s.table[n].process) ==> StopFits(y.s, n, w)
    case Health(w) => forall n :: Occupied(y.s, n) && w.removes(n) ==> w.answers(y.s.table[n].process)
    case Dies(_) => true
  }

  /** A step after which the table agrees with the configuration. */
  ghost predicate StepWrites(y: System, a: Step) {
    a.Reload? ==> ReloadWrites(y.s, UpDaemons(y.cfg), UpDaemons(a.cfg), a.w)
  }

  lemma {:induction false} BroughtAreConfigured(cfg: File, workflow: seq<string>, w: World)
    ensures forall d :: d in Brought(cfg, workflow, w) ==> d in UpDaemons(cfg) && Starts(w, d)
  {
    if workflow != [] {
      BroughtAreConfigured(cfg, workflow[1..], w);
    }
  }

  lemma {:induction false} StartAllConsistent(s: State, ds: seq<Daemon>, w: World, up: seq<Daemon>)
    requires Consistent(s, up) && Distinct(up) && forall d :: d in ds ==> d in up
    ensures Consistent(StartAll(s, ds, w), up)
  {
    if ds != [] {
      var d := ds[|ds| - 1];
      StartAllConsistent(s, ds[..|ds| - 1], w, up);
      assert Defines(up, d);
      ByNameKnows(up, d.name);
      SameName(up, d, ByName(up)[d.name]);
      ComparesSignatures(d, d);
    }
  }

  lemma {:induction false} UpKeeps(y: System, w: World)
    requires Ready(y)
    ensures Ready(Next(y, Up(w))) && (Follows(y) ==> Follows(Next(y, Up(w))))
    ensures NothingLeaked(y.s) ==> (NothingLeaked(Next(y, Up(w)).s) <==> UpFits(y, w))
  {
    if w.dotenvOk {
      var ds := Brought(y.cfg, Workflow(y.cfg), w);
      BroughtAreConfigured(y.cfg, Workflow(y.cfg), w);
      if Follows(y) {
        StartAllConsistent(y.s, ds, w, UpDaemons(y.cfg));
      }
      StartAllKept(y.s, ds, w);
      if NothingLeaked(y.s) {
        StartAllLeaks(y.s, ds, w);
      }
    }
  }

  /** What only takes entries out leaks nothing exactly when each process it leaves running has an entry. */
  lemma {:induction false} TakenOut(s: State, t: State)
    requires Numbered(s) && t.next == s.next && t.alive <= s.alive
    requires forall n :: n in t.table ==> n in s.table && t.table[n] == s.table[n]
    ensures Numbered(t)
    ensures NothingLeaked(s) ==>
      (NothingLeaked(t) <==> forall n :: n in s.table && n !in t.table ==> s.table[n].process !in t.alive)
  {
    if NothingLeaked(s) && forall n :: n in s.table && n !in t.table ==> s.table[n].process !in t.alive {
      forall p | p in t.alive ensures Recorded(t, p) {
        var n :| n in s.table && s.table[n].process == p;
        assert n in t.table && t.table[n].process == p;
      }
    }
    forall n | n in s.table && Recorded(t, s.table[n].process) ensures n in t.table {
      var m :| m in t.table && t.table[m].process == s.table[n].process;
      assert m in s.table;
    }
  }

  /** `down`, the health check and a process that ends. */
  lemma {:induction false} DownKeeps(y: System, a: Step)
    requires Ready(y) && (a.DownAll? || a.DownOne? || a.Health? || a.Dies?)
    ensures Ready(Next(y, a)) && (Follows(y) ==> Follows(Next(y, a)))
    ensures NothingLeaked(y.s) ==> (NothingLeaked(Next(y, a).s) <==> StepFits(y, a))
  {
    var s, t := y.s, Next(y, a).s;
    TakenOut(s, t);
    match a
    case DownAll(w) => AllDownAt(s, w);
    case DownOne(n, w) =>
    case Health(w) =>
      forall n | n in s.table ensures n !in t.table <==> !w.answers(s.table[n].process) && w.removes(n) {
      }
    case Dies(_) =>
  }

  lemma {:induction false} AllDownAt(s: State, w: World)
    requires Numbered(s)
    ensures var t := AllDown(s, w);
      forall n :: n in s.table ==>
        && (n !in t.table <==> w.removes(n))
        && (s.table[n].process in t.alive <==> s.table[n].process in s.alive && !w.ends(s.table[n].process))
  {
  }

  lemma {:induction false} StepKeeps(y: System, a: Step)
    requires Ready(y) && Validated([a])
    ensures Ready(Next(y, a))
    ensures Follows(y) ==> (Follows(Next(y, a)) <==> StepWrites(y, a))
    ensures NothingLeaked(y.s) ==> (NothingLeaked(Next(y, a).s) <==> StepFits(y, a))
  {
    match a
    case Reload(cfg, w) =>
      assert a in [a];
      ValidatedIsDistinct(cfg);
      ReloadReconciles(y.s, UpDaemons(y.cfg), UpDaemons(cfg), w);
    case Up(w) => UpKeeps(y, w);
    case _ => DownKeeps(y, a);
  }

  lemma {:induction false} StaysReady(y: System, steps: seq<Step>)
    requires Ready(y) && Validated(steps)
    ensures Ready(After(y, steps))
  {
    if steps != [] {
      StaysReady(y, steps[..|steps| - 1]);
      StepKeeps(After(y, steps[..|steps| - 1]), steps[|steps| - 1]);
    }
  }

  /** Every reload writes what it has to. */
  ghost predicate AllWrite(y: System, steps: seq<Step>) {
    steps == [] ||
    (AllWrite(y, steps[..|steps| - 1]) && StepWrites(After(y, steps[..|steps| - 1]), steps[|steps| - 1]))
  }

  /** The table agrees with the configuration, now and at every earlier time. */
  ghost predicate AlwaysFollows(y: System, steps: seq<Step>) {
    Follows(After(y, steps)) && (steps == [] || AlwaysFollows(y, steps[..|steps| - 1]))
  }

  /** Over any sequence of reloads, ups, downs, health checks and deaths the table always agrees with the
      configuration if and only if every reload can remove the entries that are to go, or replaces them. */
  lemma {:induction false} TableFollowsConfig(y: System, steps: seq<Step>)
    requires Ready(y) && Follows(y) && Validated(steps)
    ensures AlwaysFollows(y, steps) <==> AllWrite(y, steps)
  {
    if steps != [] {
      var init := steps[..|steps| - 1];
      TableFollowsConfig(y, init);
      StaysReady(y, init);
      assert AlwaysFollows(y, init) ==> Follows(After(y, init));
      StepKeeps(After(y, init), steps[|steps| - 1]);
    }
  }

  /** Every step fits the state it is taken in. */
  ghost predicate AllFit(y: System, steps: seq<Step>) {
    steps == [] ||
    (AllFit(y, steps[..|steps| - 1]) && StepFits(After(y, steps[..|steps| - 1]), steps[|steps| - 1]))
  }

  /** Nothing is leaked now or at any earlier time. */
  ghost predicate NeverLeaks(y: System, steps: seq<Step>) {
    NothingLeaked(After(y, steps).s) && (steps == [] || NeverLeaks(y, steps[..|steps| - 1]))
  }

  /** Over any such sequence, whether or not the table agrees with the configuration, no process ever escapes the
      table if and only if every step fits. */
  lemma {:induction false} LeaksExactly(y: System, steps: seq<Step>)
    requires Ready(y) && Validated(steps) && NothingLeaked(y.s)
    ensures NeverLeaks(y, steps) <==> AllFit(y, steps)
  {
    if steps != [] {
      var init := steps[..|steps| - 1];
      LeaksExactly(y, init);
      StaysReady(y, init);
      assert NeverLeaks(y, init) ==> NothingLeaked(After(y, init).s);
      StepKeeps(After(y, init), steps[|steps| - 1]);
    }
  }

  /** A second `up` while a daemon runs replaces its entry and leaves the first process running unseen. */
  lemma {:induction false} SecondUpLeaks(y: System, w: World, d: Daemon)
    requires Ready(y) && NothingLeaked(y.s) && w.dotenvOk
    requires d in Brought(y.cfg, Workflow(y.cfg), w) && Occupied(y.s, d.name)
    ensures !NothingLeaked(Next(y, Up(w)).s)
  {
    UpKeeps(y, w);
  }

  // ---------------------------------------------------------------------- short histories

  /** A daemon with one variable in its environment: on the host, or in a container if there is an image. */
  function Server(image: string, value: string): Daemon {
    Daemon("db", [Step("", ["serve"])], map["MODE" := value], "", image, false, [], [])
  }

  /** The only target is `up`: its workflow is that daemon. */
  function UpFile(d: Daemon): File {
    File([], [], [], [BlankTarget("up", false).(workflow := ["db"], daemons := [d])], [])
  }

  /** Everything works, and the probe always says the same. */
  function Calm(answer: bool): World {
    World(true, p => true, p => true, p => answer, d => true, d => true, n => true, n => true)
  }

  /** The daemon has been started and recorded. */
  function Once(d: Daemon): System {
    System(State(map["db" := Entry(0, d)], {0}, 1), UpFile(d))
  }

  lemma {:induction false} ServerIsBrought(image: string, value: string, w: World)
    requires w.dotenvOk && forall d :: w.starts(d) && w.records(d)
    ensures UpDaemons(UpFile(Server(image, value))) == [Server(image, value)]
    ensures Brought(UpFile(Server(image, value)), Workflow(UpFile(Server(image, value))), w) == [Server(image, value)]
  {
    var d := Server(image, value);
    var cfg := UpFile(d);
    assert cfg.targets[0].name == "up" && cfg.targets[1..] == [];
    assert TargetByName(cfg.targets, "up") == Some(cfg.targets[0]);
    assert "db" != "up" && TargetByName(cfg.targets, "db") == None;
    assert UpDaemons(cfg) == [d] && FirstNamed([d], "db") == Some(d);
    assert Workflow(cfg) == ["db"] && ["db"][1..] == [];
    assert Brought(cfg, [], w) == [];
    assert Starts(w, d);
  }

  lemma {:induction false} ServerIsUp(s: State, image: string, value: string, w: World)
    requires w.dotenvOk && forall d :: w.starts(d) && w.records(d)
    ensures Upped(s, UpFile(Server(image, value)), w) == Started(s, Server(image, value), w)
  {
    ServerIsBrought(image, value, w);
    assert [Server(image, value)][..0] == [];
    assert StartAll(s, [], w) == s;
  }

  lemma {:induction false} UpOnce(image: string, value: string)
    ensures var d := Server(image, value); After(System(NOTHING, UpFile(d)), [Up(Calm(true))]) == Once(d)
  {
    var d, w := Server(image, value), Calm(true);
    ServerIsUp(NOTHING, image, value, w);
    assert Starts(w, d);
    assert [Up(w)][..0] == [];
    assert After(System(NOTHING, UpFile(d)), []) == System(NOTHING, UpFile(d));
  }

  lemma {:induction false} AfterTwo(y: System, a: Step, b: Step)
    ensures After(y, [a, b]) == Next(After(y, [a]), b)
  {
    assert [a, b][..1] == [a];
  }

  /** From a daemon that manages nothing: `up` twice leaves two processes running and one entry. */
  lemma {:induction false} UpTwiceLeaks(image: string, value: string)
    ensures var d := Server(image, value);
      var y := After(System(NOTHING, UpFile(d)), [Up(Calm(true)), Up(Calm(true))]);
      y.s == State(map["db" := Entry(1, d)], {0, 1}, 2) && !NothingLeaked(y.s)
  {
    var d, w := Server(image, value), Calm(true);
    UpOnce(image, value);
    AfterTwo(System(NOTHING, UpFile(d)), Up(w), Up(w));
    ServerIsUp(Once(d).s, image, value, w);
    assert Starts(w, d);
    var t := State(map["db" := Entry(1, d)], {0, 1}, 2);
    assert Started(Once(d).s, d, w) == t;
    assert !Recorded(t, 0);
  }

  /** `up`, then a health check whose probe fails, as it does where containers are not those of the docker command: the
      container runs and the table is empty. */
  lemma {:induction false} HealthForgets(image: string, value: string)
    ensures var d := Server(image, value);
      var y := After(System(NOTHING, UpFile(d)), [Up(Calm(true)), Health(Calm(false))]);
      y.s == State(map[], {0}, 1) && !NothingLeaked(y.s)
  {
    var d := Server(image, value);
    UpOnce(image, value);
    AfterTwo(System(NOTHING, UpFile(d)), Up(Calm(true)), Health(Calm(false)));
    assert Checked(Once(d).s, Calm(false)) == State(map[], {0}, 1);
    assert !Recorded(State(map[], {0}, 1), 0);
  }

  /** `up`, then `down` of the daemon, whose process gets the signal and goes on: it runs and the table is empty. */
  lemma {:induction false} DownForgets(value: string)
    ensures var d := Server("", value);
      var y := After(System(NOTHING, UpFile(d)), [Up(Calm(true)), DownOne("db", Calm(true).(ends := p => false))]);
      y.s == State(map[], {0}, 1) && !NothingLeaked(y.s)
  {
    var d, w := Server("", value), Calm(true).(ends := p => false);
    UpOnce("", value);
    AfterTwo(System(NOTHING, UpFile(d)), Up(Calm(true)), DownOne("db", w));
    assert Once(d).s.table - {"db"} == map[];
    assert OneDown(Once(d).s, "db", w) == State(map[], {0}, 1);
    assert !Recorded(State(map[], {0}, 1), 0);
  }

  /** `up`, then `down` of the daemon in a container, whose forced removal takes effect and still returns an error:
      nothing runs and the entry stays. */
  lemma {:induction false} FailedDownKeepsEntry(image: string, value: string)
    ensures var d := Server(image, value);
      var y := After(System(NOTHING, UpFile(d)), [Up(Calm(true)), DownOne("db", Calm(true).(signals := p => false))]);
      y.s == State(map["db" := Entry(0, d)], {}, 1)
  {
    var d, w := Server(image, value), Calm(true).(signals := p => false);
    UpOnce(image, value);
    AfterTwo(System(NOTHING, UpFile(d)), Up(Calm(true)), DownOne("db", w));
    assert Once(d).s.alive - {0} == {};
  }

  /** `up`, the process ends, and a health check whose probe still answers, as it does for a child that nobody waited
      for: the dead entry stays. */
  lemma {:induction false} DeadEntryStays(value: string)
    ensures var d := Server("", value);
      var y := After(System(NOTHING, UpFile(d)), [Up(Calm(true)), Dies(0), Health(Calm(true))]);
      y.s == State(map["db" := Entry(0, d)], {}, 1)
  {
    var d := Server("", value);
    var y := System(NOTHING, UpFile(d));
    UpOnce("", value);
    AfterTwo(y, Up(Calm(true)), Dies(0));
    assert [Up(Calm(true)), Dies(0), Health(Calm(true))][..2] == [Up(Calm(true)), Dies(0)];
    var s := State(map["db" := Entry(0, d)], {}, 1);
    assert Once(d).s.(alive := Once(d).s.alive - {0}) == s;
    assert Checked(s, Calm(true)) == s;
  }

  /** From a daemon that manages nothing: `up`, then a reload of a file whose only change is a variable in the daemon's
      environment. The process that runs is still the first one, started with the old value. */
  lemma {:induction false} NewValueIsNotApplied(image: string, old_: string, new_: string)
    ensures var d, e := Server(image, old_), Server(image, new_);
      var y := After(System(NOTHING, UpFile(d)), [Up(Calm(true)), Reload(UpFile(e), Calm(true))]);
      y.cfg == UpFile(e) && y.s == Once(d).s
  {
    var d, e, w := Server(image, old_), Server(image, new_), Calm(true);
    UpOnce(image, old_);
    AfterTwo(System(NOTHING, UpFile(d)), Up(w), Reload(UpFile(e), w));
    ServerIsBrought(image, old_, w);
    ServerIsBrought(image, new_, w);
    NothingDiffers(Once(d).s, d, e, w);
  }

  lemma {:induction false} NothingDiffers(s: State, d: Daemon, e: Daemon, w: World)
    requires d.name == e.name && DaemonEqual(d, e)
    ensures Reloaded(s, [d], [e], w) == s
  {
    assert [d][..0] == [] && [e][..0] == [];
    assert ByName([]) == map[] && ByName([d]) == map[d.name := d] && ByName([e]) == map[e.name := e];
    assert Unknown([], ByName([e])) == [] && Unknown([], ByName([d])) == [] && Altered([], ByName([d])) == [];
    assert Unknown([d], ByName([e])) == [] && Altered([e], ByName([d])) == [] && Unknown([e], ByName([d])) == [];
  }
}
