/** The compiled configuration: what the compiler produces and the runner, the
    daemon and the loaders read. Source positions are not part of this model. */
module Config {

  datatype Option<+T> = None | Some(value: T)

  datatype Step = Step(runner: string, argv: seq<string>)

  datatype ArgDecl = ArgDecl(name: string, typ: string, short: string, default: string, required: bool)

  datatype PassthroughSlot = PassthroughSlot(step: nat, name: string)

  datatype Preset = Preset(name: string, desc: string, steps: seq<Step>, argv: seq<string>, env: map<string, string>)

  datatype VolumeRef = VolumeRef(name: string, hostPath: string)

  datatype Schedule = Schedule(cron: string, interval: string)

  datatype Daemon = Daemon(name: string, steps: seq<Step>, env: map<string, string>, cwd: string, image: string,
                           unsafe: bool, networks: seq<string>, volumes: seq<VolumeRef>)

  datatype Target = Target(
    name: string,
    deps: seq<string>,
    steps: seq<Step>,
    env: map<string, string>,
    args: seq<ArgDecl>,
    cwd: string,
    desc: string,
    private: bool,
    tags: seq<string>,
    passthroughStep: nat,
    passthrough: seq<PassthroughSlot>,
    inputs: seq<string>,
    outputs: seq<string>,
    whenEnv: string,
    whenCmd: seq<string>,
    presets: seq<Preset>,
    pool: string,
    mutex: string,
    image: string,
    unsafe: bool,
    networks: seq<string>,
    volumes: seq<VolumeRef>,
    workflow: seq<string>,
    schedule: Option<Schedule>,
    daemons: seq<Daemon>)

  /** A target of which nothing is said but its name and whether it is private. */
  function BlankTarget(name: string, private: bool): Target {
    Target(name, [], [], map[], [], "", "", private, [], 0, [], [], [], "", [], [], "", "", "", false, [], [], [],
           None, [])
  }

  datatype Profile = Profile(name: string, dotenv: seq<string>, env: map<string, string>)

  datatype Suite = Suite(name: string, targets: seq<string>)

  datatype File = File(dotenv: seq<string>, imports: seq<string>, profiles: seq<Profile>,
                       targets: seq<Target>, suites: seq<Suite>)

  /** First match, as the source's linear scan. */
  function TargetByName(targets: seq<Target>, name: string): (t: Option<Target>)
    ensures t.Some? ==> t.value in targets && t.value.name == name
    ensures t.None? ==> forall u :: u in targets ==> u.name != name
  {
    if targets == [] then None
    else if targets[0].name == name then Some(targets[0])
    else TargetByName(targets[1..], name)
  }

  /** Of several targets of one name the first is taken. */
  lemma {:induction false} FirstIsTaken(targets: seq<Target>, i: nat)
    requires i < |targets| && forall j :: 0 <= j < i ==> targets[j].name != targets[i].name
    ensures TargetByName(targets, targets[i].name) == Some(targets[i])
  {
    if i > 0 {
      FirstIsTaken(targets[1..], i - 1);
    }
  }

  ghost predicate DistinctNames(targets: seq<Target>) {
    forall i, j :: 0 <= i < j < |targets| ==> targets[i].name != targets[j].name
  }

  function Names(targets: seq<Target>): (names: set<string>) {
    set t | t in targets :: t.name
  }
}
