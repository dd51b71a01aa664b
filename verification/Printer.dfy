/** The formatter (internal/dsl/format.go), as the pieces it writes. */
module Printer {
  import opened Ast
  import opened Decimal
  import opened Lexer
  import opened Layout
  import opened OrderEntries
  import opened Sorting
  import opened StableBuckets
  import Q = Quoted

  // ------------------------------------------------------------------ small parts

  /** Words separated by single spaces. */
  function Words(ws: seq<string>, before: string, after: string): seq<Piece> {
    if ws == [] then []
    else if |ws| == 1 then [Piece(before, Word(ws[0]), after)]
    else [Piece(before, Word(ws[0]), " ")] + Words(ws[1..], "", after)
  }

  function Keyword(before: string, w: string): Piece {
    Piece(before, Word(w), " ")
  }

  function QuotedPiece(before: string, s: string, after: string): Piece {
    Piece(before, Str(Q.Quote(s)), after)
  }

  function Mark(before: string, c: char, after: string): Piece {
    Piece(before, Punct(c), after)
  }

  /** Quoted elements separated by commas, and the closing bracket. */
  function Elements(es: seq<string>, after: string): seq<Piece> {
    if es == [] then [Mark("", ']', after)]
    else if |es| == 1 then [QuotedPiece("", es[0], ""), Mark("", ']', after)]
    else [QuotedPiece("", es[0], ""), Mark("", ',', " ")] + Elements(es[1..], after)
  }

  function Bracketed(es: seq<string>, after: string): seq<Piece> {
    [Mark("", '[', "")] + Elements(es, after)
  }

  function CommaWords(names: seq<string>, after: string): seq<Piece> {
    if names == [] then [Piece("", Gap, after)]
    else if |names| == 1 then [Piece("", Word(names[0]), after)]
    else [Piece("", Word(names[0]), ""), Mark("", ',', " ")] + CommaWords(names[1..], after)
  }

  function QuotedWords(paths: seq<string>, after: string): seq<Piece> {
    if paths == [] then []
    else if |paths| == 1 then [QuotedPiece("", paths[0], after)]
    else [QuotedPiece("", paths[0], " ")] + QuotedWords(paths[1..], after)
  }

  function Header(before: string, word: string, name: string): seq<Piece> {
    [Keyword(before, word), Keyword("", name), Mark("", '{', "\n")]
  }

  // ------------------------------------------------------------------ steps and env

  predicate ForcesQuotes(c: char) {
    || c == ' ' || c == '\t' || c == '"' || c == ',' || c == '='
    || c == '[' || c == ']' || c == '{' || c == '}' || c == '*' || c == '?'
  }

  predicate NeedsQuoting(s: string) {
    s == "" || s[0] == '-' || exists i :: 0 <= i < |s| && ForcesQuotes(s[i])
  }

  function ValuePiece(v: string): Piece {
    if NeedsQuoting(v) then QuotedPiece("", v, "") else Piece("", Word(v), "")
  }

  function PairPieces(pairs: seq<EnvPair>): seq<Piece> {
    if pairs == [] then []
    else [Keyword(" ", pairs[0].key), ValuePiece(pairs[0].value)] + PairPieces(pairs[1..])
  }

  function EnvPieces(pairs: seq<EnvPair>, indent: string): seq<Piece> {
    [Keyword(indent, "env"), Mark("", '{', "")] + (PairPieces(pairs) + [Mark(" ", '}', "\n")])
  }

  /** Of a cmd step without words only the whitespace around it is written. */
  function StepPieces(s: Step, before: string, after: string): seq<Piece> {
    match s
    case Exec(argv) => [Keyword(before, "exec")] + Bracketed(argv, after)
    case Cmd(tokens) => if tokens == [] then [Piece(before, Gap, after)] else Words(["cmd"] + tokens, before, after)
    case Shell(runner, script) => [Keyword(before, "shell"), Keyword("", runner), QuotedPiece("", script, after)]
  }

  function StepList(steps: seq<Step>, before: string): seq<Piece> {
    if steps == [] then [] else StepPieces(steps[0], before, "") + StepList(steps[1..], before)
  }

  /** A single step goes on the line of its block, several go on lines of their own. */
  function StepsPieces(steps: seq<Step>, indent: string): seq<Piece> {
    var inner := if |steps| == 1 then " " else "\n" + indent + "  ";
    var outer := if |steps| <= 1 then " " else "\n" + indent;
    [Keyword(indent, "steps"), Mark("", '{', "")] + (StepList(steps, inner) + [Mark(outer, '}', "\n")])
  }

  // ----------------------------------------------------------------------- clauses

  function PresetEntryPieces(e: PresetEntry, indent: string): seq<Piece> {
    match e
    case PresetDesc(text) => [Keyword(indent, "desc"), QuotedPiece("", text, "\n")]
    case PresetSteps(steps) => if steps == [] then [] else StepsPieces(steps, indent)
    case PresetArgv(argv) => [Keyword(indent, "argv")] + Bracketed(argv, "\n")
    case PresetEnv(pairs) => if pairs == [] then [] else EnvPieces(pairs, indent)
  }

  function PresetEntryList(es: seq<PresetEntry>, indent: string): seq<Piece> {
    if es == [] then [] else PresetEntryPieces(es[0], indent) + PresetEntryList(es[1..], indent)
  }

  function WorkflowPieces(e: WorkflowEntry): seq<Piece> {
    match e
    case Item(name) => [Piece(" ", Word(name), "")]
    case Cron(spec) => [Keyword(" ", "schedule"), Keyword("", "cron"), QuotedPiece("", spec, "")]
    case Interval(spec) => [Keyword(" ", "schedule"), Keyword("", "interval"), QuotedPiece("", spec, "")]
  }

  function WorkflowList(es: seq<WorkflowEntry>): seq<Piece> {
    if es == [] then [] else WorkflowPieces(es[0]) + WorkflowList(es[1..])
  }

  function ArgWords(name: string, typ: string, short: string, default: string): seq<string> {
    ["args", name, typ] + (if short == "" then [] else [short]) + (if default == "" then [] else [default])
  }

  function PassthroughPieces(slot: nat, slotName: string, indent: string): seq<Piece> {
    var head := [Keyword(indent, "passthrough"), Keyword("", "step"), Mark("", '=', " ")];
    if slotName == "" then head + [Piece("", Num(Text(slot)), "\n")]
    else head + [Piece("", Num(Text(slot)), " "), Keyword("", "name"), QuotedPiece("", slotName, "\n")]
  }

  /** Every clause but a daemon block. */
  function ClausePieces(e: BodyEntry, indent: string): seq<Piece> {
    match e
    case Desc(text) => [Keyword(indent, "desc"), QuotedPiece("", text, "\n")]
    case Deps(names) => [Keyword(indent, "deps")] + CommaWords(names, "\n")
    case WhenEnv(variable) => Words(["when", "env", variable], indent, "\n")
    case WhenCmd(argv) => [Keyword(indent, "when"), Keyword("", "cmd")] + Bracketed(argv, "\n")
    case Inputs(paths) => [Keyword(indent, "inputs")] + Bracketed(paths, "\n")
    case Outputs(paths) => [Keyword(indent, "outputs")] + Bracketed(paths, "\n")
    case Args(name, typ, short, default) => Words(ArgWords(name, typ, short, default), indent, "\n")
    case Env(pairs) => EnvPieces(pairs, indent)
    case Cwd(path) => Words(["cwd", path], indent, "\n")
    case Tags(tags) => Words(["tags"] + tags, indent, "\n")
    case Private => Words(["private"], indent, "\n")
    case Passthrough(slot, slotName) => PassthroughPieces(slot, slotName, indent)
    case PresetBlock(name, entries) =>
      Header(indent, "preset", name) + (PresetEntryList(entries, indent + "  ") + [Mark(indent, '}', "\n")])
    case Pool(name) => Words(["pool", name], indent, "\n")
    case Mutex(name) => Words(["mutex", name], indent, "\n")
    case ImageIdent(image) => Words(["image", image], indent, "\n")
    case ImageString(image) => [Keyword(indent, "image"), QuotedPiece("", image, "\n")]
    case Unsafe => Words(["unsafe"], indent, "\n")
    case Net(name) => Words(["net", name], indent, "\n")
    case Vol(name, hostPath) =>
      if hostPath == "" then Words(["vol", name], indent, "\n")
      else [Keyword(indent, "vol"), Keyword("", name), QuotedPiece("", hostPath, "\n")]
    case Steps(steps) => StepsPieces(steps, indent)
    case OneStep(step) => StepPieces(step, indent, "\n")
    case Workflow(items) =>
      [Keyword(indent, "workflow"), Mark("", '{', "")] + (WorkflowList(items) + [Mark(" ", '}', "\n")])
    case DaemonBlock(_, _) => []
  }

  function ClauseList(es: seq<BodyEntry>, indent: string): seq<Piece> {
    if es == [] then [] else ClausePieces(es[0], indent) + ClauseList(es[1..], indent)
  }

  /** The clauses a daemon body is written with; `net` and `vol` are not among them. */
  predicate InDaemon(e: BodyEntry) {
    e.Steps? || e.OneStep? || e.Env? || e.Cwd? || e.ImageIdent? || e.ImageString? || e.Unsafe?
  }

  function DaemonClauses(es: seq<BodyEntry>): seq<BodyEntry> {
    if es == [] then [] else (if InDaemon(es[0]) then [es[0]] else []) + DaemonClauses(es[1..])
  }

  function EntryPieces(e: BodyEntry, indent: string): seq<Piece> {
    match e
    case DaemonBlock(name, body) =>
      Header(indent, "daemon", name) +
        (ClauseList(DaemonClauses(Ordered(body)), indent + "  ") + [Mark(indent, '}', "\n")])
    case _ => ClausePieces(e, indent)
  }

  function EntryList(es: seq<BodyEntry>, indent: string): seq<Piece> {
    if es == [] then [] else EntryPieces(es[0], indent) + EntryList(es[1..], indent)
  }

  /** The canonical order, by the words the clauses are written with. */
  const CANONICAL: seq<string> :=
    ["desc", "deps", "when", "when", "inputs", "outputs", "args", "env", "cwd", "tags", "private", "passthrough",
     "pool", "mutex", "image", "unsafe", "net", "vol", "steps", "workflow", "daemon", "preset"]

  /** A clause is written with the word of its place; a bare step goes where step blocks go, and of the two guards the
      variable comes first. */
  lemma {:induction false} PlacedByKeyword(e: BodyEntry, indent: string)
    ensures |CANONICAL| == KINDS
    ensures !e.OneStep? ==>
      EntryPieces(e, indent) != [] && EntryPieces(e, indent)[0].tok == Word(CANONICAL[Kind(e)])
    ensures e.OneStep? ==> CANONICAL[Kind(e)] == "steps"
    ensures e.WhenEnv? ==> Kind(e) < Kind(WhenCmd([]))
  {
    if Kind(e) < 10 {
      PlacedEarly(e, indent);
    } else if !e.OneStep? {
      PlacedLate(e, indent);
    }
  }

  lemma {:induction false} PlacedEarly(e: BodyEntry, indent: string)
    requires Kind(e) < 10
    ensures |CANONICAL| == KINDS && EntryPieces(e, indent) != []
    ensures EntryPieces(e, indent)[0].tok == Word(CANONICAL[Kind(e)])
  {
  }

  lemma {:induction false} PlacedLate(e: BodyEntry, indent: string)
    requires Kind(e) >= 10 && !e.OneStep?
    ensures |CANONICAL| == KINDS && EntryPieces(e, indent) != []
    ensures EntryPieces(e, indent)[0].tok == Word(CANONICAL[Kind(e)])
  {
  }

  /** Begins with the indentation and ends the line. */
  predicate OnOwnLines(ps: seq<Piece>, indent: string) {
    ps != [] && ps[0].before == indent && ps[|ps| - 1].after == "\n"
  }

  lemma {:induction false} WordsOnLine(ws: seq<string>, indent: string)
    requires ws != []
    ensures OnOwnLines(Words(ws, indent, "\n"), indent)
  {
    if |ws| > 1 {
      WordsOnLine(ws[1..], "");
    }
  }

  lemma {:induction false} ElementsEnd(es: seq<string>, after: string)
    ensures Elements(es, after) != [] && Elements(es, after)[|Elements(es, after)| - 1].after == after
  {
    if |es| > 1 {
      ElementsEnd(es[1..], after);
    }
  }

  lemma {:induction false} CommaWordsEnd(names: seq<string>, after: string)
    ensures CommaWords(names, after) != [] && CommaWords(names, after)[|CommaWords(names, after)| - 1].after == after
  {
    if |names| > 1 {
      CommaWordsEnd(names[1..], after);
    }
  }

  /** Every clause begins a line of its own, indented, and ends its last line. */
  lemma {:induction false} ClauseOnOwnLines(e: BodyEntry, indent: string)
    ensures OnOwnLines(EntryPieces(e, indent), indent)
  {
    match e {
      case Deps(names) => CommaWordsEnd(names, "\n");
      case WhenEnv(variable) => WordsOnLine(["when", "env", variable], indent);
      case WhenCmd(argv) => ElementsEnd(argv, "\n");
      case Inputs(paths) => ElementsEnd(paths, "\n");
      case Outputs(paths) => ElementsEnd(paths, "\n");
      case Args(name, typ, short, default) => WordsOnLine(ArgWords(name, typ, short, default), indent);
      case Tags(tags) => WordsOnLine(["tags"] + tags, indent);
      case OneStep(step) => StepOnOwnLine(step, indent);
      case _ => OtherOnOwnLines(e, indent);
    }
  }

  lemma {:induction false} StepOnOwnLine(s: Step, indent: string)
    ensures OnOwnLines(StepPieces(s, indent, "\n"), indent)
  {
    match s {
      case Exec(argv) => ElementsEnd(argv, "\n");
      case Cmd(tokens) => WordsOnLine(["cmd"] + tokens, indent);
      case Shell(_, _) =>
    }
  }

  lemma {:induction false} OtherOnOwnLines(e: BodyEntry, indent: string)
    requires !e.Deps? && !e.WhenEnv? && !e.WhenCmd? && !e.Inputs? && !e.Outputs? && !e.Args? && !e.Tags? && !e.OneStep?
    ensures OnOwnLines(EntryPieces(e, indent), indent)
  {
    match e {
      case Cwd(path) => WordsOnLine(["cwd", path], indent);
      case Pool(name) => WordsOnLine(["pool", name], indent);
      case Mutex(name) => WordsOnLine(["mutex", name], indent);
      case ImageIdent(image) => WordsOnLine(["image", image], indent);
      case Net(name) => WordsOnLine(["net", name], indent);
      case Vol(name, _) => WordsOnLine(["vol", name], indent);
      case _ =>
    }
  }

  // ------------------------------------------------------------------------ blocks

  function MemberText(m: SuiteEntry): string {
    match m
    case Bare(v) => v
    case Quoted(_) => ReplaceFirst(Raw(m), ' ', '.')
  }

  function MemberPieces(ms: seq<SuiteEntry>): seq<Piece> {
    if ms == [] then [] else [Piece("  ", Word(MemberText(ms[0])), "\n")] + MemberPieces(ms[1..])
  }

  function SettingPieces(e: ProfileEntry): seq<Piece> {
    match e
    case ProfileDotenv(paths) => if paths == [] then [] else [Keyword("  ", "dotenv")] + QuotedWords(paths, "\n")
    case ProfileEnv(pairs) => if pairs == [] then [] else EnvPieces(pairs, "  ")
  }

  function SettingList(es: seq<ProfileEntry>): seq<Piece> {
    if es == [] then [] else SettingPieces(es[0]) + SettingList(es[1..])
  }

  function TargetPieces(name: string, form: TargetForm, before: string): seq<Piece> {
    if form.SingleLine? && form.tokens != [] then Words(["target", name, "cmd"] + form.tokens, before, "\n")
    else
      var body := if form.Braced? then form.body else [];
      Header(before, "target", name) + (EntryList(Ordered(body), "  ") + [Mark("", '}', "\n")])
  }

  /** A block, after an empty line unless it is the first. */
  function BlockPieces(e: FileEntry, before: string): seq<Piece> {
    match e
    case Import(path) => [Keyword(before, "import"), QuotedPiece("", path, "\n")]
    case PrivateMarker => Words(["private"], before, "\n")
    case SuiteBlock(name, members) =>
      Header(before, "suite", name) + (MemberPieces(SortBy(Raw, members)) + [Mark("", '}', "\n")])
    case ProfileBlock(name, settings) =>
      Header(before, "profile", name) + (SettingList(settings) + [Mark("", '}', "\n")])
    case TargetBlock(name, form) => TargetPieces(name, form, before)
  }

  function BlockList(es: seq<FileEntry>, before: string): seq<Piece> {
    if es == [] then [] else BlockPieces(es[0], before) + BlockList(es[1..], "\n")
  }

  // ------------------------------------------------------------------------- files

  function BlockKind(e: FileEntry): nat {
    match e
    case Import(_) => 0
    case PrivateMarker => 1
    case SuiteBlock(_, _) => 2
    case ProfileBlock(_, _) => 3
    case TargetBlock(_, _) => 4
  }

  function NameOf(e: FileEntry): string {
    if e.SuiteBlock? || e.ProfileBlock? || e.TargetBlock? then e.name else ""
  }

  function MarkerOf(es: seq<FileEntry>): seq<FileEntry> {
    if PrivateMarker in es then [PrivateMarker] else []
  }

  function ByName(es: seq<FileEntry>, k: nat): seq<FileEntry> {
    SortBy(NameOf, OfKind(BlockKind, es, k))
  }

  /** The blocks in the order they are written: imports, one private marker, then suites, profiles and targets by
      name. */
  function Arranged(es: seq<FileEntry>): seq<FileEntry> {
    OfKind(BlockKind, es, 0) + MarkerOf(es) + ByName(es, 2) + ByName(es, 3) + ByName(es, 4)
  }

  function FilePieces(ast: Bakefile): seq<Piece> {
    (if ast.dotenv == [] then [] else Words(["dotenv"] + ast.dotenv, "", "\n\n")) + BlockList(Arranged(ast.entries), "")
  }

  function Format(ast: Bakefile): string {
    Render(FilePieces(ast))
  }
}
