/** Compiling the parsed Bakefile to the configuration, clause by clause (internal/dsl/parser.go). */
module Compile {
  import C = Config
  import opened Ast
  import opened StableBuckets

  // ---------------------------------------------------- clause by clause, as functions

  function StepOf(s: Step): C.Step {
    match s
    case Exec(argv) => C.Step("", argv)
    case Cmd(tokens) => C.Step("", tokens)
    case Shell(runner, script) => C.Step(runner, ["-c", script])
  }

  function StepsOf(steps: seq<Step>): (r: seq<C.Step>)
    ensures |r| == |steps|
    ensures forall i :: 0 <= i < |steps| ==> r[i] == StepOf(steps[i])
  {
    seq(|steps|, i requires 0 <= i < |steps| => StepOf(steps[i]))
  }

  function WithPair(env: map<string, string>, pair: EnvPair): map<string, string> {
    env[pair.key := pair.value]
  }

  /** Later pairs win. */
  function WithPairs(env: map<string, string>, pairs: seq<EnvPair>): map<string, string> {
    Fold(WithPair, env, pairs)
  }

  function WithPresetEntry(p: C.Preset, e: PresetEntry): C.Preset {
    match e
    case PresetArgv(argv) => p.(argv := p.argv + argv)
    case PresetEnv(pairs) => p.(env := WithPairs(p.env, pairs))
    case PresetDesc(text) => p.(desc := text)
    case PresetSteps(steps) => p.(steps := p.steps + StepsOf(steps))
  }

  function WithPresetEntries(p: C.Preset, es: seq<PresetEntry>): C.Preset {
    Fold(WithPresetEntry, p, es)
  }

  function PresetOf(name: string, es: seq<PresetEntry>): C.Preset {
    WithPresetEntries(C.Preset(name, "", [], [], map[]), es)
  }

  datatype Flow = Flow(names: seq<string>, schedule: C.Option<C.Schedule>)

  function WithWorkflowEntry(f: Flow, e: WorkflowEntry): Flow {
    match e
    case Item(name) => f.(names := f.names + [name])
    case Cron(spec) => f.(schedule := C.Some(C.Schedule(spec, "")))
    case Interval(spec) => f.(schedule := C.Some(C.Schedule("", spec)))
  }

  function WithWorkflow(f: Flow, es: seq<WorkflowEntry>): Flow {
    Fold(WithWorkflowEntry, f, es)
  }

  function WithDaemonEntry(d: C.Daemon, e: BodyEntry): C.Daemon {
    match e
    case Steps(steps) => d.(steps := d.steps + StepsOf(steps))
    case OneStep(step) => d.(steps := d.steps + [StepOf(step)])
    case Env(pairs) => d.(env := WithPairs(d.env, pairs))
    case Cwd(path) => d.(cwd := path)
    case ImageIdent(image) => d.(image := image)
    case ImageString(image) => d.(image := image)
    case Unsafe => d.(unsafe := true)
    case Net(name) => d.(networks := d.networks + [name])
    case Vol(name, hostPath) => d.(volumes := d.volumes + [C.VolumeRef(name, hostPath)])
    case _ => d
  }

  function WithDaemonBody(d: C.Daemon, es: seq<BodyEntry>): C.Daemon {
    Fold(WithDaemonEntry, d, es)
  }

  function DaemonOf(name: string, body: seq<BodyEntry>): C.Daemon {
    WithDaemonBody(C.Daemon(name, [], map[], "", "", false, [], []), body)
  }

  function WithEntry(t: C.Target, e: BodyEntry): C.Target {
    match e
    case Private => t.(private := true)
    case Deps(names) => t.(deps := names)
    case Steps(steps) => t.(steps := t.steps + StepsOf(steps))
    case OneStep(step) => t.(steps := t.steps + [StepOf(step)])
    case Env(pairs) => t.(env := WithPairs(t.env, pairs))
    case Args(name, typ, short, default) => t.(args := t.args + [C.ArgDecl(name, typ, short, default, false)])
    case Cwd(path) => t.(cwd := path)
    case Desc(text) => t.(desc := text)
    case Tags(tags) => t.(tags := tags)
    case Passthrough(slot, slotName) =>
      t.(passthrough := t.passthrough + [C.PassthroughSlot(slot, slotName)],
         passthroughStep := if t.passthroughStep == 0 then slot else t.passthroughStep)
    case Inputs(paths) => t.(inputs := t.inputs + paths)
    case Outputs(paths) => t.(outputs := t.outputs + paths)
    case WhenEnv(variable) => t.(whenEnv := variable)
    case WhenCmd(argv) => t.(whenCmd := t.whenCmd + argv)
    case PresetBlock(name, entries) => t.(presets := t.presets + [PresetOf(name, entries)])
    case Pool(name) => t.(pool := name)
    case Mutex(name) => t.(mutex := name)
    case ImageIdent(image) => t.(image := image)
    case ImageString(image) => t.(image := image)
    case Unsafe => t.(unsafe := true)
    case Net(name) => t.(networks := t.networks + [name])
    case Vol(name, hostPath) => t.(volumes := t.volumes + [C.VolumeRef(name, hostPath)])
    case Workflow(items) =>
      var f := WithWorkflow(Flow(t.workflow, t.schedule), items);
      t.(workflow := f.names, schedule := f.schedule)
    case DaemonBlock(name, body) => t.(daemons := t.daemons + [DaemonOf(name, body)])
  }

  function WithBody(t: C.Target, es: seq<BodyEntry>): C.Target {
    Fold(WithEntry, t, es)
  }

  function TargetOf(name: string, form: TargetForm, filePrivate: bool): C.Target {
    var t := C.BlankTarget(name, filePrivate);
    match form
    case Braced(body) => WithBody(t, body)
    case SingleLine(tokens) => if tokens == [] then t else t.(steps := [C.Step("", tokens)])
  }

  function WithProfileEntry(p: C.Profile, e: ProfileEntry): C.Profile {
    match e
    case ProfileDotenv(paths) => p.(dotenv := p.dotenv + paths)
    case ProfileEnv(pairs) => p.(env := WithPairs(p.env, pairs))
  }

  function WithProfileEntries(p: C.Profile, es: seq<ProfileEntry>): C.Profile {
    Fold(WithProfileEntry, p, es)
  }

  function ProfileOf(name: string, es: seq<ProfileEntry>): C.Profile {
    WithProfileEntries(C.Profile(name, [], map[]), es)
  }

  /** Empty references are dropped. */
  function RefsOf(members: seq<SuiteEntry>): seq<string> {
    if members == [] then []
    else
      var raw := Raw(members[|members| - 1]);
      RefsOf(members[..|members| - 1]) + if raw == "" then [] else [raw]
  }

  datatype Partial = Partial(file: C.File, filePrivate: bool)

  /** A file-level `private` marks the targets that come after it. */
  function WithFileEntry(p: Partial, e: FileEntry): Partial {
    var f := p.file;
    match e
    case Import(path) => p.(file := f.(imports := f.imports + [path]))
    case PrivateMarker => p.(filePrivate := true)
    case ProfileBlock(name, settings) => p.(file := f.(profiles := f.profiles + [ProfileOf(name, settings)]))
    case TargetBlock(name, form) => p.(file := f.(targets := f.targets + [TargetOf(name, form, p.filePrivate)]))
    case SuiteBlock(name, members) => p.(file := f.(suites := f.suites + [C.Suite(name, RefsOf(members))]))
  }

  function WithFileEntries(p: Partial, es: seq<FileEntry>): Partial {
    Fold(WithFileEntry, p, es)
  }

  function FileOf(ast: Bakefile): C.File {
    WithFileEntries(Partial(C.File(ast.dotenv, [], [], [], []), false), ast.entries).file
  }

  // ------------------------------------------------------- the loops of the compiler

  method CompileTarget(name: string, form: TargetForm, filePrivate: bool) returns (t: C.Target)
    ensures t == TargetOf(name, form, filePrivate)
  {
    t := C.BlankTarget(name, filePrivate);
    match form {
      case Braced(body) =>
        for i := 0 to |body|
          invariant t == WithBody(C.BlankTarget(name, filePrivate), body[..i])
        {
          assert body[..i + 1][..i] == body[..i];
          t := CompileEntry(t, body[i]);
        }
        assert body[..|body|] == body;
      case SingleLine(tokens) =>
        if tokens != [] {
          t := t.(steps := t.steps + [C.Step("", tokens)]);
        }
    }
  }

  predicate IsNested(e: BodyEntry) {
    e.Steps? || e.OneStep? || e.Env? || e.PresetBlock? || e.Workflow? || e.DaemonBlock?
  }

  predicate IsAppended(e: BodyEntry) {
    e.Args? || e.Passthrough? || e.Inputs? || e.Outputs? || e.WhenCmd? || e.Net? || e.Vol?
  }

  /** One clause, with the loops over its own parts. */
  method CompileEntry(t: C.Target, e: BodyEntry) returns (r: C.Target)
    ensures r == WithEntry(t, e)
  {
    if IsNested(e) {
      r := CompileNested(t, e);
    } else if IsAppended(e) {
      r := CompileAppended(t, e);
    } else {
      r := CompileField(t, e);
    }
  }

  /** Clauses with parts of their own. */
  method CompileNested(t: C.Target, e: BodyEntry) returns (r: C.Target)
    requires IsNested(e)
    ensures r == WithEntry(t, e)
  {
    match e {
      case Steps(steps) =>
        var all := CompileSteps(t.steps, steps);
        r := t.(steps := all);
      case OneStep(step) =>
        var compiled := CompileStep(step);
        r := t.(steps := t.steps + [compiled]);
      case Env(pairs) =>
        var env := CompilePairs(t.env, pairs);
        r := t.(env := env);
      case PresetBlock(name, entries) =>
        var p := CompilePreset(name, entries);
        r := t.(presets := t.presets + [p]);
      case Workflow(items) =>
        var names, schedule := CompileWorkflow(t.workflow, t.schedule, items);
        r := t.(workflow := names, schedule := schedule);
      case DaemonBlock(name, body) =>
        var compiled := CompileDaemon(name, body);
        r := t.(daemons := t.daemons + [compiled]);
    }
  }

  /** Clauses that add to a list; the first passthrough slot is kept on the side. */
  method CompileAppended(t: C.Target, e: BodyEntry) returns (r: C.Target)
    requires IsAppended(e)
    ensures r == WithEntry(t, e)
  {
    match e {
      case Args(name, typ, short, default) => r := t.(args := t.args + [C.ArgDecl(name, typ, short, default, false)]);
      case Passthrough(slot, slotName) =>
        r := t.(passthrough := t.passthrough + [C.PassthroughSlot(slot, slotName)]);
        if r.passthroughStep == 0 {
          r := r.(passthroughStep := slot);
        }
      case Inputs(paths) =>
        var all := AppendEach(t.inputs, paths);
        r := t.(inputs := all);
      case Outputs(paths) =>
        var all := AppendEach(t.outputs, paths);
        r := t.(outputs := all);
      case WhenCmd(argv) =>
        var all := AppendEach(t.whenCmd, argv);
        r := t.(whenCmd := all);
      case Net(name) => r := t.(networks := t.networks + [name]);
      case Vol(name, hostPath) => r := t.(volumes := t.volumes + [C.VolumeRef(name, hostPath)]);
    }
  }

  /** Clauses that set a field. */
  method CompileField(t: C.Target, e: BodyEntry) returns (r: C.Target)
    requires !IsNested(e) && !IsAppended(e)
    ensures r == WithEntry(t, e)
  {
    match e {
      case Private => r := t.(private := true);
      case Deps(names) => r := t.(deps := names);
      case Cwd(path) => r := t.(cwd := path);
      case Desc(text) => r := t.(desc := text);
      case Tags(tags) => r := t.(tags := tags);
      case WhenEnv(variable) => r := t.(whenEnv := variable);
      case Pool(name) => r := t.(pool := name);
      case Mutex(name) => r := t.(mutex := name);
      case ImageIdent(image) => r := t.(image := image);
      case ImageString(image) => r := t.(image := image);
      case Unsafe => r := t.(unsafe := true);
    }
  }

  method CompileStep(s: Step) returns (r: C.Step)
    ensures r == StepOf(s)
  {
    if s.Exec? {
      var argv := AppendEach([], s.argv);
      return C.Step("", argv);
    }
    if s.Cmd? && s.tokens != [] {
      return C.Step("", s.tokens);
    }
    if s.Shell? {
      return C.Step(s.runner, ["-c", s.script]);
    }
    return C.Step("", []);
  }

  method CompileSteps(before: seq<C.Step>, steps: seq<Step>) returns (after: seq<C.Step>)
    ensures after == before + StepsOf(steps)
  {
    after := before;
    for j := 0 to |steps|
      invariant after == before + StepsOf(steps)[..j]
    {
      var step := CompileStep(steps[j]);
      after := after + [step];
    }
  }

  method AppendEach(before: seq<string>, more: seq<string>) returns (after: seq<string>)
    ensures after == before + more
  {
    after := before;
    for j := 0 to |more|
      invariant after == before + more[..j]
    {
      after := after + [more[j]];
    }
  }

  method CompilePairs(before: map<string, string>, pairs: seq<EnvPair>) returns (after: map<string, string>)
    ensures after == WithPairs(before, pairs)
  {
    after := before;
    for j := 0 to |pairs|
      invariant after == WithPairs(before, pairs[..j])
    {
      assert pairs[..j + 1][..j] == pairs[..j];
      after := after[pairs[j].key := pairs[j].value];
    }
    assert pairs[..|pairs|] == pairs;
  }

  method CompilePreset(name: string, entries: seq<PresetEntry>) returns (p: C.Preset)
    ensures p == PresetOf(name, entries)
  {
    p := C.Preset(name, "", [], [], map[]);
    ghost var blank := p;
    for i := 0 to |entries|
      invariant p == WithPresetEntries(blank, entries[..i])
    {
      assert entries[..i + 1][..i] == entries[..i];
      match entries[i] {
        case PresetArgv(argv) =>
          var all := AppendEach(p.argv, argv);
          p := p.(argv := all);
        case PresetEnv(pairs) =>
          var env := CompilePairs(p.env, pairs);
          p := p.(env := env);
        case PresetDesc(text) => p := p.(desc := text);
        case PresetSteps(steps) =>
          var all := CompileSteps(p.steps, steps);
          p := p.(steps := all);
      }
    }
    assert entries[..|entries|] == entries;
  }

  /** Names are appended; a schedule replaces the one before. */
  method CompileWorkflow(before: seq<string>, last: C.Option<C.Schedule>, items: seq<WorkflowEntry>)
    returns (names: seq<string>, schedule: C.Option<C.Schedule>)
    ensures Flow(names, schedule) == WithWorkflow(Flow(before, last), items)
  {
    names, schedule := before, last;
    for i := 0 to |items|
      invariant Flow(names, schedule) == WithWorkflow(Flow(before, last), items[..i])
    {
      assert items[..i + 1][..i] == items[..i];
      match items[i] {
        case Item(name) => names := names + [name];
        case Cron(spec) => schedule := C.Some(C.Schedule(spec, ""));
        case Interval(spec) => schedule := C.Some(C.Schedule("", spec));
      }
    }
    assert items[..|items|] == items;
  }

  method CompileDaemon(name: string, body: seq<BodyEntry>) returns (d: C.Daemon)
    ensures d == DaemonOf(name, body)
  {
    d := C.Daemon(name, [], map[], "", "", false, [], []);
    ghost var blank := d;
    for i := 0 to |body|
      invariant d == WithDaemonBody(blank, body[..i])
    {
      assert body[..i + 1][..i] == body[..i];
      d := CompileDaemonEntry(d, body[i]);
    }
    assert body[..|body|] == body;
  }

  /** Clauses that do not concern daemons are ignored. */
  method CompileDaemonEntry(d: C.Daemon, e: BodyEntry) returns (r: C.Daemon)
    ensures r == WithDaemonEntry(d, e)
  {
    if e.Steps? || e.OneStep? || e.Env? {
      r := CompileDaemonParts(d, e);
    } else if e.Cwd? {
      r := d.(cwd := e.path);
    } else if e.ImageIdent? || e.ImageString? {
      r := d.(image := e.image);
    } else if e.Unsafe? {
      r := d.(unsafe := true);
    } else if e.Net? {
      r := d.(networks := d.networks + [e.name]);
    } else if e.Vol? {
      r := d.(volumes := d.volumes + [C.VolumeRef(e.name, e.hostPath)]);
    } else {
      r := d;
    }
  }

  method CompileDaemonParts(d: C.Daemon, e: BodyEntry) returns (r: C.Daemon)
    requires e.Steps? || e.OneStep? || e.Env?
    ensures r == WithDaemonEntry(d, e)
  {
    match e {
      case Steps(steps) =>
        var all := CompileSteps(d.steps, steps);
        r := d.(steps := all);
      case OneStep(step) =>
        var compiled := CompileStep(step);
        r := d.(steps := d.steps + [compiled]);
      case Env(pairs) =>
        var env := CompilePairs(d.env, pairs);
        r := d.(env := env);
    }
  }

  method CompileProfile(name: string, settings: seq<ProfileEntry>) returns (p: C.Profile)
    ensures p == ProfileOf(name, settings)
  {
    p := C.Profile(name, [], map[]);
    ghost var blank := p;
    for i := 0 to |settings|
      invariant p == WithProfileEntries(blank, settings[..i])
    {
      assert settings[..i + 1][..i] == settings[..i];
      match settings[i] {
        case ProfileDotenv(paths) =>
          var all := AppendEach(p.dotenv, paths);
          p := p.(dotenv := all);
        case ProfileEnv(pairs) =>
          var env := CompilePairs(p.env, pairs);
          p := p.(env := env);
      }
    }
    assert settings[..|settings|] == settings;
  }

  method CompileSuite(members: seq<SuiteEntry>) returns (refs: seq<string>)
    ensures refs == RefsOf(members)
  {
    refs := [];
    for i := 0 to |members|
      invariant refs == RefsOf(members[..i])
    {
      assert members[..i + 1][..i] == members[..i];
      var raw := Raw(members[i]);
      if raw != "" {
        refs := refs + [raw];
      }
    }
    assert members[..|members|] == members;
  }

  method CompileFile(ast: Bakefile) returns (f: C.File)
    ensures f == FileOf(ast)
  {
    f := C.File(ast.dotenv, [], [], [], []);
    ghost var blank := Partial(f, false);
    var filePrivate := false;
    for i := 0 to |ast.entries|
      invariant Partial(f, filePrivate) == WithFileEntries(blank, ast.entries[..i])
    {
      var es := ast.entries;
      assert es[..i + 1][..i] == es[..i];
      match es[i] {
        case Import(path) => f := f.(imports := f.imports + [path]);
        case PrivateMarker => filePrivate := true;
        case ProfileBlock(name, settings) =>
          var p := CompileProfile(name, settings);
          f := f.(profiles := f.profiles + [p]);
        case TargetBlock(name, form) =>
          var t := CompileTarget(name, form, filePrivate);
          f := f.(targets := f.targets + [t]);
        case SuiteBlock(name, members) =>
          var refs := CompileSuite(members);
          f := f.(suites := f.suites + [C.Suite(name, refs)]);
      }
    }
    assert ast.entries[..|ast.entries|] == ast.entries;
  }
}
