/** The documented grammar (internal/dsl/ast.go) as a recursive descent over tokens. A list of identifiers takes every
    identifier that follows, keywords included. Each function returns what it took and the tokens it left, and takes at
    least one token where the grammar asks for one. */
module Parser {
  import opened Config
  import opened Decimal
  import opened Lexer
  import A = Ast
  import Q = Quoted

  datatype Parsed<T> = Parsed(value: T, rest: seq<Token>)

  // ------------------------------------------------------------------ single tokens

  function TakeWord(ts: seq<Token>): (r: Option<Parsed<string>>)
    ensures r.Some? ==> |r.value.rest| < |ts|
  {
    if ts != [] && ts[0].Word? then Some(Parsed(ts[0].text, ts[1..])) else None
  }

  function TakeString(ts: seq<Token>): (r: Option<Parsed<string>>)
    ensures r.Some? ==> |r.value.rest| < |ts|
  {
    if ts != [] && ts[0].Str? then Some(Parsed(Q.Captured(ts[0].raw), ts[1..])) else None
  }

  function TakeValue(ts: seq<Token>): (r: Option<Parsed<string>>)
    ensures r.Some? ==> |r.value.rest| < |ts|
  {
    if ts != [] && ts[0].Str? then TakeString(ts) else TakeWord(ts)
  }

  predicate AtMark(ts: seq<Token>, c: char) {
    ts != [] && ts[0] == Punct(c)
  }

  predicate AtWord(ts: seq<Token>, w: string) {
    ts != [] && ts[0] == Word(w)
  }

  // -------------------------------------------------------------------------- lists

  /** Every identifier from here on. */
  function TakeWords(ts: seq<Token>): (r: Parsed<seq<string>>)
    ensures |r.rest| <= |ts|
  {
    if ts == [] || !ts[0].Word? then Parsed([], ts)
    else
      var more := TakeWords(ts[1..]);
      Parsed([ts[0].text] + more.value, more.rest)
  }

  function TakeValues(ts: seq<Token>): (r: Parsed<seq<string>>)
    ensures |r.rest| <= |ts|
  {
    match TakeValue(ts)
    case None => Parsed([], ts)
    case Some(v) =>
      var more := TakeValues(v.rest);
      Parsed([v.value] + more.value, more.rest)
  }

  /** Identifiers separated by commas. */
  function TakeNames(ts: seq<Token>): (r: Option<Parsed<seq<string>>>)
    ensures r.Some? ==> |r.value.rest| < |ts|
  {
    match TakeWord(ts)
    case None => None
    case Some(n) =>
      if !AtMark(n.rest, ',') then Some(Parsed([n.value], n.rest))
      else
        match TakeNames(n.rest[1..])
        case None => Some(Parsed([n.value], n.rest))
        case Some(more) => Some(Parsed([n.value] + more.value, more.rest))
  }

  /** Elements separated by commas, up to the closing bracket. */
  function TakeElements(ts: seq<Token>): (r: Option<Parsed<seq<string>>>)
    ensures r.Some? ==> |r.value.rest| < |ts|
  {
    match TakeValue(ts)
    case None => None
    case Some(v) =>
      if AtMark(v.rest, ']') then Some(Parsed([v.value], v.rest[1..]))
      else if !AtMark(v.rest, ',') then None
      else
        match TakeElements(v.rest[1..])
        case None => None
        case Some(more) => Some(Parsed([v.value] + more.value, more.rest))
  }

  function TakeBracketed(ts: seq<Token>): (r: Option<Parsed<seq<string>>>)
    ensures r.Some? ==> |r.value.rest| < |ts|
  {
    if !AtMark(ts, '[') then None
    else if AtMark(ts[1..], ']') then Some(Parsed([], ts[2..]))
    else TakeElements(ts[1..])
  }

  /** Pairs up to the closing brace. */
  function TakePairs(ts: seq<Token>): (r: Option<Parsed<seq<A.EnvPair>>>)
    ensures r.Some? ==> |r.value.rest| < |ts|
  {
    if AtMark(ts, '}') then Some(Parsed([], ts[1..]))
    else
      match TakeWord(ts)
      case None => None
      case Some(k) =>
        match TakeValue(k.rest)
        case None => None
        case Some(v) =>
          match TakePairs(v.rest)
          case None => None
          case Some(more) => Some(Parsed([A.EnvPair(k.value, v.value)] + more.value, more.rest))
  }

  // ----------------------------------------------------------------------- keywords

  datatype Keyword =
    | KDesc | KDeps | KWhen | KInputs | KOutputs | KArgs | KEnv | KCwd | KTags | KPrivate | KPassthrough | KPreset
    | KPool | KMutex | KImage | KUnsafe | KNet | KVol | KSteps | KExec | KCmd | KShell | KWorkflow | KDaemon | KNone

  function KeywordOf(w: string): Keyword {
    if w == "desc" then KDesc
    else if w == "deps" then KDeps
    else if w == "when" then KWhen
    else if w == "inputs" then KInputs
    else if w == "outputs" then KOutputs
    else if w == "args" then KArgs
    else if w == "env" then KEnv
    else if w == "cwd" then KCwd
    else if w == "tags" then KTags
    else if w == "private" then KPrivate
    else if w == "passthrough" then KPassthrough
    else if w == "preset" then KPreset
    else if w == "pool" then KPool
    else if w == "mutex" then KMutex
    else if w == "image" then KImage
    else if w == "unsafe" then KUnsafe
    else if w == "net" then KNet
    else if w == "vol" then KVol
    else if w == "steps" then KSteps
    else if w == "exec" then KExec
    else if w == "cmd" then KCmd
    else if w == "shell" then KShell
    else if w == "workflow" then KWorkflow
    else if w == "daemon" then KDaemon
    else KNone
  }

  lemma {:induction false} TextsAreKeywords()
    ensures KeywordOf("desc") == KDesc
    ensures KeywordOf("deps") == KDeps
    ensures KeywordOf("when") == KWhen
  {
    assert KeywordOf("desc") == KDesc by {
      assert "desc"[0] == 'd' && "desc"[1] == 'e' && "desc"[2] == 's';
    }
    assert KeywordOf("deps") == KDeps by {
      assert "deps"[0] == 'd' && "deps"[1] == 'e' && "deps"[2] == 'p';
    }
    assert KeywordOf("when") == KWhen by {
      assert "when"[0] == 'w' && "when"[1] == 'h' && "when"[2] == 'e';
    }
  }

  lemma {:induction false} PathsAreKeywords()
    ensures KeywordOf("inputs") == KInputs
    ensures KeywordOf("outputs") == KOutputs
    ensures KeywordOf("args") == KArgs
  {
    assert KeywordOf("inputs") == KInputs by {
      assert "inputs"[0] == 'i' && "inputs"[1] == 'n' && "inputs"[2] == 'p';
    }
    assert KeywordOf("outputs") == KOutputs by {
      assert "outputs"[0] == 'o' && "outputs"[1] == 'u' && "outputs"[2] == 't';
    }
    assert KeywordOf("args") == KArgs by {
      assert "args"[0] == 'a' && "args"[1] == 'r' && "args"[2] == 'g';
    }
  }

  lemma {:induction false} SettingsAreKeywords()
    ensures KeywordOf("env") == KEnv
    ensures KeywordOf("cwd") == KCwd
    ensures KeywordOf("tags") == KTags
  {
    assert KeywordOf("env") == KEnv by {
      assert "env"[0] == 'e' && "env"[1] == 'n' && "env"[2] == 'v';
    }
    assert KeywordOf("cwd") == KCwd by {
      assert "cwd"[0] == 'c' && "cwd"[1] == 'w' && "cwd"[2] == 'd';
    }
    assert KeywordOf("tags") == KTags by {
      assert "tags"[0] == 't' && "tags"[1] == 'a' && "tags"[2] == 'g';
    }
  }

  lemma {:induction false} MarksAreKeywords()
    ensures KeywordOf("private") == KPrivate
    ensures KeywordOf("passthrough") == KPassthrough
    ensures KeywordOf("preset") == KPreset
  {
    assert KeywordOf("private") == KPrivate by {
      assert "private"[0] == 'p' && "private"[1] == 'r' && "private"[2] == 'i';
    }
    assert KeywordOf("passthrough") == KPassthrough by {
      assert "passthrough"[0] == 'p' && "passthrough"[1] == 'a' && "passthrough"[2] == 's';
    }
    assert KeywordOf("preset") == KPreset by {
      assert "preset"[0] == 'p' && "preset"[1] == 'r' && "preset"[2] == 'e';
    }
  }

  lemma {:induction false} LocksAreKeywords()
    ensures KeywordOf("pool") == KPool
    ensures KeywordOf("mutex") == KMutex
    ensures KeywordOf("image") == KImage
  {
    assert KeywordOf("pool") == KPool by {
      assert "pool"[0] == 'p' && "pool"[1] == 'o' && "pool"[2] == 'o';
    }
    assert KeywordOf("mutex") == KMutex by {
      assert "mutex"[0] == 'm' && "mutex"[1] == 'u' && "mutex"[2] == 't';
    }
    assert KeywordOf("image") == KImage by {
      assert "image"[0] == 'i' && "image"[1] == 'm' && "image"[2] == 'a';
    }
  }

  lemma {:induction false} MountsAreKeywords()
    ensures KeywordOf("unsafe") == KUnsafe
    ensures KeywordOf("net") == KNet
    ensures KeywordOf("vol") == KVol
  {
    assert KeywordOf("unsafe") == KUnsafe by {
      assert "unsafe"[0] == 'u' && "unsafe"[1] == 'n' && "unsafe"[2] == 's';
    }
    assert KeywordOf("net") == KNet by {
      assert "net"[0] == 'n' && "net"[1] == 'e' && "net"[2] == 't';
    }
    assert KeywordOf("vol") == KVol by {
      assert "vol"[0] == 'v' && "vol"[1] == 'o' && "vol"[2] == 'l';
    }
  }

  lemma {:induction false} StepsAreKeywords()
    ensures KeywordOf("steps") == KSteps
    ensures KeywordOf("exec") == KExec
    ensures KeywordOf("cmd") == KCmd
  {
    assert KeywordOf("steps") == KSteps by {
      assert "steps"[0] == 's' && "steps"[1] == 't' && "steps"[2] == 'e';
    }
    assert KeywordOf("exec") == KExec by {
      assert "exec"[0] == 'e' && "exec"[1] == 'x' && "exec"[2] == 'e';
    }
    assert KeywordOf("cmd") == KCmd by {
      assert "cmd"[0] == 'c' && "cmd"[1] == 'm' && "cmd"[2] == 'd';
    }
  }

  lemma {:induction false} BlocksAreKeywords()
    ensures KeywordOf("shell") == KShell
    ensures KeywordOf("workflow") == KWorkflow
    ensures KeywordOf("daemon") == KDaemon
  {
    assert KeywordOf("shell") == KShell by {
      assert "shell"[0] == 's' && "shell"[1] == 'h' && "shell"[2] == 'e';
    }
    assert KeywordOf("workflow") == KWorkflow by {
      assert "workflow"[0] == 'w' && "workflow"[1] == 'o' && "workflow"[2] == 'r';
    }
    assert KeywordOf("daemon") == KDaemon by {
      assert "daemon"[0] == 'd' && "daemon"[1] == 'a' && "daemon"[2] == 'e';
    }
  }

  // ------------------------------------------------------------------------- steps

  /** After the keyword of a step. */
  function TakeStep(k: Keyword, ts: seq<Token>): (r: Option<Parsed<A.Step>>)
    ensures r.Some? ==> |r.value.rest| <= |ts|
  {
    match k
    case KExec =>
      (match TakeBracketed(ts)
       case None => None
       case Some(es) => Some(Parsed(A.Exec(es.value), es.rest)))
    case KCmd =>
      var ws := TakeWords(ts);
      Some(Parsed(A.Cmd(ws.value), ws.rest))
    case KShell =>
      (match TakeWord(ts)
       case None => None
       case Some(w) =>
         match TakeString(w.rest)
         case None => None
         case Some(q) => Some(Parsed(A.Shell(w.value, q.value), q.rest)))
    case _ => None
  }

  /** Steps up to the closing brace. */
  function TakeSteps(ts: seq<Token>): (r: Option<Parsed<seq<A.Step>>>)
    ensures r.Some? ==> |r.value.rest| < |ts|
    decreases |ts|
  {
    if AtMark(ts, '}') then Some(Parsed([], ts[1..]))
    else
      match TakeWord(ts)
      case None => None
      case Some(w) =>
        match TakeStep(KeywordOf(w.value), w.rest)
        case None => None
        case Some(s) =>
          match TakeSteps(s.rest)
          case None => None
          case Some(more) => Some(Parsed([s.value] + more.value, more.rest))
  }

  function TakeStepsBlock(ts: seq<Token>): (r: Option<Parsed<seq<A.Step>>>)
    ensures r.Some? ==> |r.value.rest| < |ts|
  {
    if AtMark(ts, '{') then TakeSteps(ts[1..]) else None
  }

  function TakeEnvBlock(ts: seq<Token>): (r: Option<Parsed<seq<A.EnvPair>>>)
    ensures r.Some? ==> |r.value.rest| < |ts|
  {
    if AtMark(ts, '{') then TakePairs(ts[1..]) else None
  }

  // ------------------------------------------------------------- presets and workflows

  /** One entry of a preset, after the word it starts with: `argv`, or a keyword that also begins a clause. */
  function TakePresetEntry(w: string, ts: seq<Token>): (r: Option<Parsed<A.PresetEntry>>)
    ensures r.Some? ==> |r.value.rest| <= |ts|
  {
    if w == "argv" then TakePresetArgv(ts) else TakePresetClause(KeywordOf(w), ts)
  }

  function TakePresetArgv(ts: seq<Token>): (r: Option<Parsed<A.PresetEntry>>)
    ensures r.Some? ==> |r.value.rest| <= |ts|
  {
    match TakeBracketed(ts)
    case None => None
    case Some(es) => Some(Parsed(A.PresetArgv(es.value), es.rest))
  }

  function TakePresetClause(k: Keyword, ts: seq<Token>): (r: Option<Parsed<A.PresetEntry>>)
    ensures r.Some? ==> |r.value.rest| <= |ts|
  {
    match k
    case KEnv =>
      (match TakeEnvBlock(ts)
       case None => None
       case Some(ps) => Some(Parsed(A.PresetEnv(ps.value), ps.rest)))
    case KDesc =>
      (match TakeString(ts)
       case None => None
       case Some(q) => Some(Parsed(A.PresetDesc(q.value), q.rest)))
    case KSteps =>
      (match TakeStepsBlock(ts)
       case None => None
       case Some(ss) => Some(Parsed(A.PresetSteps(ss.value), ss.rest)))
    case _ => None
  }

  function TakePresetEntries(ts: seq<Token>): (r: Option<Parsed<seq<A.PresetEntry>>>)
    ensures r.Some? ==> |r.value.rest| < |ts|
    decreases |ts|
  {
    if AtMark(ts, '}') then Some(Parsed([], ts[1..]))
    else
      match TakeWord(ts)
      case None => None
      case Some(w) =>
        match TakePresetEntry(w.value, w.rest)
        case None => None
        case Some(e) =>
          match TakePresetEntries(e.rest)
          case None => None
          case Some(more) => Some(Parsed([e.value] + more.value, more.rest))
  }

  /** A schedule needs both its words and a string; otherwise `schedule` is a name like any other. */
  function TakeWorkflowEntry(ts: seq<Token>): (r: Option<Parsed<A.WorkflowEntry>>)
    ensures r.Some? ==> |r.value.rest| < |ts|
  {
    if |ts| >= 3 && ts[0] == Word("schedule") && ts[1] == Word("cron") && ts[2].Str? then
      Some(Parsed(A.Cron(Q.Captured(ts[2].raw)), ts[3..]))
    else if |ts| >= 3 && ts[0] == Word("schedule") && ts[1] == Word("interval") && ts[2].Str? then
      Some(Parsed(A.Interval(Q.Captured(ts[2].raw)), ts[3..]))
    else
      match TakeWord(ts)
      case None => None
      case Some(w) => Some(Parsed(A.Item(w.value), w.rest))
  }

  function TakeWorkflow(ts: seq<Token>): (r: Option<Parsed<seq<A.WorkflowEntry>>>)
    ensures r.Some? ==> |r.value.rest| < |ts|
  {
    if AtMark(ts, '}') then Some(Parsed([], ts[1..]))
    else
      match TakeWorkflowEntry(ts)
      case None => None
      case Some(e) =>
        match TakeWorkflow(e.rest)
        case None => None
        case Some(more) => Some(Parsed([e.value] + more.value, more.rest))
  }

  // ----------------------------------------------------------------------- clauses

  function Named(r: Option<Parsed<string>>, make: string -> A.BodyEntry): (q: Option<Parsed<A.BodyEntry>>)
    ensures q.Some? ==> r.Some? && q.value.rest == r.value.rest
  {
    match r
    case None => None
    case Some(w) => Some(Parsed(make(w.value), w.rest))
  }

  function Listed(r: Option<Parsed<seq<string>>>, make: seq<string> -> A.BodyEntry): (q: Option<Parsed<A.BodyEntry>>)
    ensures q.Some? ==> r.Some? && q.value.rest == r.value.rest
  {
    match r
    case None => None
    case Some(ws) => Some(Parsed(make(ws.value), ws.rest))
  }

  function TakeWhen(ts: seq<Token>): (r: Option<Parsed<A.BodyEntry>>)
    ensures r.Some? ==> |r.value.rest| <= |ts|
  {
    if AtWord(ts, "env") then Named(TakeWord(ts[1..]), v => A.WhenEnv(v))
    else if AtWord(ts, "cmd") then Listed(TakeBracketed(ts[1..]), es => A.WhenCmd(es))
    else None
  }

  /** A name and a type, then up to two more identifiers. */
  function TakeArgs(ts: seq<Token>): (r: Option<Parsed<A.BodyEntry>>)
    ensures r.Some? ==> |r.value.rest| <= |ts|
  {
    if |ts| < 2 || !ts[0].Word? || !ts[1].Word? then None
    else if |ts| < 3 || !ts[2].Word? then Some(Parsed(A.Args(ts[0].text, ts[1].text, "", ""), ts[2..]))
    else if |ts| < 4 || !ts[3].Word? then Some(Parsed(A.Args(ts[0].text, ts[1].text, ts[2].text, ""), ts[3..]))
    else Some(Parsed(A.Args(ts[0].text, ts[1].text, ts[2].text, ts[3].text), ts[4..]))
  }

  function TakePassthrough(ts: seq<Token>): (r: Option<Parsed<A.BodyEntry>>)
    ensures r.Some? ==> |r.value.rest| <= |ts|
  {
    if |ts| < 3 || ts[0] != Word("step") || ts[1] != Punct('=') || !ts[2].Num? || !AllDigits(ts[2].digits) then None
    else
      var slot := Value(ts[2].digits);
      if |ts| >= 5 && ts[3] == Word("name") && ts[4].Str? then
        Some(Parsed(A.Passthrough(slot, Q.Captured(ts[4].raw)), ts[5..]))
      else Some(Parsed(A.Passthrough(slot, ""), ts[3..]))
  }

  function TakePreset(ts: seq<Token>): (r: Option<Parsed<A.BodyEntry>>)
    ensures r.Some? ==> |r.value.rest| <= |ts|
  {
    match TakeWord(ts)
    case None => None
    case Some(n) =>
      if !AtMark(n.rest, '{') || AtMark(n.rest[1..], '}') then None
      else
        match TakePresetEntries(n.rest[1..])
        case None => None
        case Some(es) => Some(Parsed(A.PresetBlock(n.value, es.value), es.rest))
  }

  function TakeImage(ts: seq<Token>): (r: Option<Parsed<A.BodyEntry>>)
    ensures r.Some? ==> |r.value.rest| <= |ts|
  {
    if ts != [] && ts[0].Word? then Named(TakeWord(ts), i => A.ImageIdent(i))
    else Named(TakeString(ts), i => A.ImageString(i))
  }

  function TakeVol(ts: seq<Token>): (r: Option<Parsed<A.BodyEntry>>)
    ensures r.Some? ==> |r.value.rest| <= |ts|
  {
    match TakeWord(ts)
    case None => None
    case Some(n) =>
      match TakeString(n.rest)
      case None => Some(Parsed(A.Vol(n.value, ""), n.rest))
      case Some(q) => Some(Parsed(A.Vol(n.value, q.value), q.rest))
  }

  function TakeWorkflowBlock(ts: seq<Token>): (r: Option<Parsed<A.BodyEntry>>)
    ensures r.Some? ==> |r.value.rest| <= |ts|
  {
    if !AtMark(ts, '{') then None
    else
      match TakeWorkflow(ts[1..])
      case None => None
      case Some(es) => Some(Parsed(A.Workflow(es.value), es.rest))
  }

  function TakeEnv(ts: seq<Token>): (r: Option<Parsed<A.BodyEntry>>)
    ensures r.Some? ==> |r.value.rest| <= |ts|
  {
    match TakeEnvBlock(ts)
    case None => None
    case Some(ps) => Some(Parsed(A.Env(ps.value), ps.rest))
  }

  function TakeStepsClause(ts: seq<Token>): (r: Option<Parsed<A.BodyEntry>>)
    ensures r.Some? ==> |r.value.rest| <= |ts|
  {
    match TakeStepsBlock(ts)
    case None => None
    case Some(ss) => Some(Parsed(A.Steps(ss.value), ss.rest))
  }

  /** A clause that is no daemon block, after its keyword. */
  function TakeClause(k: Keyword, ts: seq<Token>): (r: Option<Parsed<A.BodyEntry>>)
    ensures r.Some? ==> |r.value.rest| <= |ts|
  {
    match k
    case KDesc => Named(TakeString(ts), t => A.Desc(t))
    case KDeps => Listed(TakeNames(ts), ns => A.Deps(ns))
    case KWhen => TakeWhen(ts)
    case KInputs => Listed(TakeBracketed(ts), es => A.Inputs(es))
    case KOutputs => Listed(TakeBracketed(ts), es => A.Outputs(es))
    case KArgs => TakeArgs(ts)
    case KEnv => TakeEnv(ts)
    case KCwd => Named(TakeWord(ts), p => A.Cwd(p))
    case KTags => Listed(Some(TakeWords(ts)), ws => A.Tags(ws))
    case KPrivate => Some(Parsed(A.Private, ts))
    case KPassthrough => TakePassthrough(ts)
    case KPreset => TakePreset(ts)
    case KPool => Named(TakeWord(ts), n => A.Pool(n))
    case KMutex => Named(TakeWord(ts), n => A.Mutex(n))
    case KImage => TakeImage(ts)
    case KUnsafe => Some(Parsed(A.Unsafe, ts))
    case KNet => Named(TakeWord(ts), n => A.Net(n))
    case KVol => TakeVol(ts)
    case KSteps => TakeStepsClause(ts)
    case KExec => TakeBareStep(k, ts)
    case KCmd => TakeBareStep(k, ts)
    case KShell => TakeBareStep(k, ts)
    case KWorkflow => TakeWorkflowBlock(ts)
    case KDaemon => None
    case KNone => None
  }

  function TakeBareStep(k: Keyword, ts: seq<Token>): (r: Option<Parsed<A.BodyEntry>>)
    ensures r.Some? ==> |r.value.rest| <= |ts|
  {
    match TakeStep(k, ts)
    case None => None
    case Some(s) => Some(Parsed(A.OneStep(s.value), s.rest))
  }

  // ------------------------------------------------------------------------ bodies

  function TakeEntry(ts: seq<Token>): (r: Option<Parsed<A.BodyEntry>>)
    ensures r.Some? ==> |r.value.rest| < |ts|
    decreases |ts|, 0
  {
    match TakeWord(ts)
    case None => None
    case Some(w) =>
      if KeywordOf(w.value) == KDaemon then TakeDaemon(w.rest) else TakeClause(KeywordOf(w.value), w.rest)
  }

  function TakeDaemon(ts: seq<Token>): (r: Option<Parsed<A.BodyEntry>>)
    ensures r.Some? ==> |r.value.rest| <= |ts|
    decreases |ts|, 2
  {
    match TakeWord(ts)
    case None => None
    case Some(n) =>
      if !AtMark(n.rest, '{') then None
      else
        match TakeBody(n.rest[1..])
        case None => None
        case Some(b) => Some(Parsed(A.DaemonBlock(n.value, b.value), b.rest))
  }

  /** Entries up to the closing brace. */
  function TakeBody(ts: seq<Token>): (r: Option<Parsed<seq<A.BodyEntry>>>)
    ensures r.Some? ==> |r.value.rest| < |ts|
    decreases |ts|, 1
  {
    if AtMark(ts, '}') then Some(Parsed([], ts[1..]))
    else
      match TakeEntry(ts)
      case None => None
      case Some(e) =>
        match TakeBody(e.rest)
        case None => None
        case Some(more) => Some(Parsed([e.value] + more.value, more.rest))
  }

  // ------------------------------------------------------------------------- files

  function TakeMembers(ts: seq<Token>): (r: Option<Parsed<seq<A.SuiteEntry>>>)
    ensures r.Some? ==> |r.value.rest| < |ts|
  {
    if AtMark(ts, '}') then Some(Parsed([], ts[1..]))
    else if ts == [] || !(ts[0].Word? || ts[0].Str?) then None
    else
      var m := if ts[0].Word? then A.Bare(ts[0].text) else A.Quoted(Q.Captured(ts[0].raw));
      match TakeMembers(ts[1..])
      case None => None
      case Some(more) => Some(Parsed([m] + more.value, more.rest))
  }

  function TakeSettings(ts: seq<Token>): (r: Option<Parsed<seq<A.ProfileEntry>>>)
    ensures r.Some? ==> |r.value.rest| < |ts|
    decreases |ts|
  {
    if AtMark(ts, '}') then Some(Parsed([], ts[1..]))
    else
      match TakeSetting(ts)
      case None => None
      case Some(e) =>
        match TakeSettings(e.rest)
        case None => None
        case Some(more) => Some(Parsed([e.value] + more.value, more.rest))
  }

  function TakeSetting(ts: seq<Token>): (r: Option<Parsed<A.ProfileEntry>>)
    ensures r.Some? ==> |r.value.rest| < |ts|
  {
    if AtWord(ts, "dotenv") then
      var ps := TakeValues(ts[1..]);
      Some(Parsed(A.ProfileDotenv(ps.value), ps.rest))
    else if AtWord(ts, "env") then
      match TakeEnvBlock(ts[1..])
      case None => None
      case Some(ps) => Some(Parsed(A.ProfileEnv(ps.value), ps.rest))
    else None
  }

  function TakeTarget(ts: seq<Token>): (r: Option<Parsed<A.FileEntry>>)
    ensures r.Some? ==> |r.value.rest| <= |ts|
  {
    match TakeWord(ts)
    case None => None
    case Some(n) =>
      if AtMark(n.rest, '{') then
        match TakeBody(n.rest[1..])
        case None => None
        case Some(b) => Some(Parsed(A.TargetBlock(n.value, A.Braced(b.value)), b.rest))
      else if AtWord(n.rest, "cmd") then
        var ws := TakeWords(n.rest[1..]);
        Some(Parsed(A.TargetBlock(n.value, A.SingleLine(ws.value)), ws.rest))
      else None
  }

  function TakeSuite(ts: seq<Token>): (r: Option<Parsed<A.FileEntry>>)
    ensures r.Some? ==> |r.value.rest| <= |ts|
  {
    match TakeWord(ts)
    case None => None
    case Some(n) =>
      if !AtMark(n.rest, '{') then None
      else
        match TakeMembers(n.rest[1..])
        case None => None
        case Some(ms) => Some(Parsed(A.SuiteBlock(n.value, ms.value), ms.rest))
  }

  function TakeProfile(ts: seq<Token>): (r: Option<Parsed<A.FileEntry>>)
    ensures r.Some? ==> |r.value.rest| <= |ts|
  {
    match TakeWord(ts)
    case None => None
    case Some(n) =>
      if !AtMark(n.rest, '{') then None
      else
        match TakeSettings(n.rest[1..])
        case None => None
        case Some(es) => Some(Parsed(A.ProfileBlock(n.value, es.value), es.rest))
  }

  function TakeBlock(ts: seq<Token>): (r: Option<Parsed<A.FileEntry>>)
    ensures r.Some? ==> |r.value.rest| < |ts|
  {
    if AtWord(ts, "import") then
      match TakeString(ts[1..])
      case None => None
      case Some(q) => Some(Parsed(A.Import(q.value), q.rest))
    else if AtWord(ts, "suite") then TakeSuite(ts[1..])
    else if AtWord(ts, "target") then TakeTarget(ts[1..])
    else if AtWord(ts, "profile") then TakeProfile(ts[1..])
    else if AtWord(ts, "private") then Some(Parsed(A.PrivateMarker, ts[1..]))
    else None
  }

  function TakeBlocks(ts: seq<Token>): Option<seq<A.FileEntry>>
    decreases |ts|
  {
    if ts == [] then Some([])
    else
      match TakeBlock(ts)
      case None => None
      case Some(e) =>
        match TakeBlocks(e.rest)
        case None => None
        case Some(more) => Some([e.value] + more)
  }

  /** A whole file: nothing may be left over. */
  function ParseTokens(ts: seq<Token>): Option<A.Bakefile> {
    var dotenv := if AtWord(ts, "dotenv") then TakeWords(ts[1..]) else Parsed([], ts);
    match TakeBlocks(dotenv.rest)
    case None => None
    case Some(es) => Some(A.Bakefile(dotenv.value, es))
  }

  function Parse(text: string): Option<A.Bakefile> {
    match Lex(text)
    case None => None
    case Some(ts) => ParseTokens(ts)
  }
}
