/** The parsed Bakefile, one constructor per alternative of the grammar
    (internal/dsl/ast.go). An absent optional string is "". Positions and the
    quoted/unquoted distinction of argv elements are not part of this model. */
module Ast {

  datatype Step = Exec(argv: seq<string>) | Cmd(tokens: seq<string>) | Shell(runner: string, script: string)

  datatype EnvPair = EnvPair(key: string, value: string)

  datatype WorkflowEntry = Item(name: string) | Cron(spec: string) | Interval(spec: string)

  datatype PresetEntry =
    | PresetArgv(argv: seq<string>)
    | PresetEnv(pairs: seq<EnvPair>)
    | PresetDesc(text: string)
    | PresetSteps(steps: seq<Step>)

  datatype BodyEntry =
    | Deps(names: seq<string>)
    | Steps(steps: seq<Step>)
    | OneStep(step: Step)
    | Env(pairs: seq<EnvPair>)
    | Args(name: string, typ: string, short: string, default: string)
    | Cwd(path: string)
    | Desc(text: string)
    | Tags(tags: seq<string>)
    | Passthrough(slot: nat, slotName: string)
    | Inputs(paths: seq<string>)
    | Outputs(paths: seq<string>)
    | WhenEnv(variable: string)
    | WhenCmd(argv: seq<string>)
    | Private
    | PresetBlock(name: string, entries: seq<PresetEntry>)
    | Pool(name: string)
    | Mutex(name: string)
    | ImageIdent(image: string)
    | ImageString(image: string)
    | Unsafe
    | Net(name: string)
    | Vol(name: string, hostPath: string)
    | Workflow(items: seq<WorkflowEntry>)
    | DaemonBlock(name: string, body: seq<BodyEntry>)

  datatype TargetForm = Braced(body: seq<BodyEntry>) | SingleLine(tokens: seq<string>)

  datatype ProfileEntry = ProfileDotenv(paths: seq<string>) | ProfileEnv(pairs: seq<EnvPair>)

  datatype SuiteEntry = Bare(ident: string) | Quoted(text: string)

  datatype FileEntry =
    | Import(path: string)
    | PrivateMarker
    | SuiteBlock(name: string, members: seq<SuiteEntry>)
    | ProfileBlock(name: string, settings: seq<ProfileEntry>)
    | TargetBlock(name: string, form: TargetForm)

  /** A target in the single-line form, with a command. */
  predicate OnOneLine(e: FileEntry) {
    e.TargetBlock? && e.form.SingleLine? && e.form.tokens != []
  }

  datatype Bakefile = Bakefile(dotenv: seq<string>, entries: seq<FileEntry>)

  function Count(s: string, c: char): nat {
    if s == "" then 0 else (if s[0] == c then 1 else 0) + Count(s[1..], c)
  }

  /** strings.Replace(s, a, b, 1). */
  function ReplaceFirst(s: string, a: char, b: char): string {
    if s == "" then ""
    else if s[0] == a then [b] + s[1..]
    else [s[0]] + ReplaceFirst(s[1..], a, b)
  }

  /** "target" or "target preset": an identifier with exactly one dot names a preset. */
  function Raw(e: SuiteEntry): string {
    match e
    case Quoted(text) => text
    case Bare(v) => if Count(v, '.') == 1 then ReplaceFirst(v, '.', ' ') else v
  }
}
