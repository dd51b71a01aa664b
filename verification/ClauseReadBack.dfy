/** Every clause of the unambiguous fragment is parsed back from what the formatter writes. A clause is found by its
    keyword and taken whole, whatever clause or closing brace follows; a clause that ends in an open list of
    identifiers asks for the closing brace. */
module ClauseReadBack {
  import opened Config
  import opened Decimal
  import opened Lexer
  import opened Layout
  import opened Parser
  import opened ReadBack
  import P = Printer
  import A = Ast
  import Q = Quoted

  // ------------------------------------------------------------------- the fragment

  ghost predicate GoodStrings(es: seq<string>) {
    forall e :: e in es ==> !Q.EndsInBackslash(e)
  }

  ghost predicate GoodWords(ws: seq<string>) {
    forall w :: w in ws ==> IsWord(w)
  }

  /** Clauses that end in a list of identifiers of open length. */
  predicate IsGreedy(e: A.BodyEntry) {
    e.Tags? || (e.Args? && e.default == "") || (e.OneStep? && e.step.Cmd?)
  }

  /** What a parsed clause satisfies, and what the printed form needs: quoted text does not end in a backslash, an
      unquoted env value is an identifier, a default needs a short name before it, a preset has something to write. */
  ghost predicate GoodClause(e: A.BodyEntry) {
    match e
    case Desc(text) => !Q.EndsInBackslash(text)
    case Deps(names) => names != [] && GoodWords(names)
    case WhenEnv(variable) => IsWord(variable)
    case WhenCmd(argv) => GoodStrings(argv)
    case Inputs(paths) => GoodStrings(paths)
    case Outputs(paths) => GoodStrings(paths)
    case Args(name, typ, short, default) =>
      IsWord(name) && IsWord(typ) && (short != "" ==> IsWord(short))
        && (default != "" ==> short != "" && IsWord(default))
    case Env(pairs) => GoodPairs(pairs)
    case Cwd(path) => IsWord(path)
    case Tags(tags) => GoodWords(tags)
    case Private => true
    case Passthrough(_, slotName) => !Q.EndsInBackslash(slotName)
    case PresetBlock(name, entries) =>
      IsWord(name) && Written(entries) != [] && forall p :: p in entries ==> GoodPresetEntry(p)
    case Pool(name) => IsWord(name)
    case Mutex(name) => IsWord(name)
    case ImageIdent(image) => IsWord(image)
    case ImageString(image) => !Q.EndsInBackslash(image)
    case Unsafe => true
    case Net(name) => IsWord(name)
    case Vol(name, hostPath) => IsWord(name) && !Q.EndsInBackslash(hostPath)
    case Steps(steps) => GoodSteps(steps)
    case OneStep(step) => GoodStep(step)
    case Workflow(items) => forall i :: i in items ==> GoodWorkflowEntry(i)
    case DaemonBlock(name, _) => IsWord(name)
  }

  /** What parsing returns: presets without the entries that are not written. */
  function NormClause(e: A.BodyEntry): A.BodyEntry {
    if e.PresetBlock? then A.PresetBlock(e.name, Written(e.entries)) else e
  }

  // ----------------------------------------------------------------------- keywords

  function ClauseWord(e: A.BodyEntry): string {
    match e
    case Desc(_) => "desc"
    case Deps(_) => "deps"
    case WhenEnv(_) => "when"
    case WhenCmd(_) => "when"
    case Inputs(_) => "inputs"
    case Outputs(_) => "outputs"
    case Args(_, _, _, _) => "args"
    case Env(_) => "env"
    case Cwd(_) => "cwd"
    case Tags(_) => "tags"
    case Private => "private"
    case Passthrough(_, _) => "passthrough"
    case PresetBlock(_, _) => "preset"
    case Pool(_) => "pool"
    case Mutex(_) => "mutex"
    case ImageIdent(_) => "image"
    case ImageString(_) => "image"
    case Unsafe => "unsafe"
    case Net(_) => "net"
    case Vol(_, _) => "vol"
    case Steps(_) => "steps"
    case OneStep(step) => StepKeyword(step)
    case Workflow(_) => "workflow"
    case DaemonBlock(_, _) => "daemon"
  }

  function ClauseKeyword(e: A.BodyEntry): Keyword {
    match e
    case Desc(_) => KDesc
    case Deps(_) => KDeps
    case WhenEnv(_) => KWhen
    case WhenCmd(_) => KWhen
    case Inputs(_) => KInputs
    case Outputs(_) => KOutputs
    case Args(_, _, _, _) => KArgs
    case Env(_) => KEnv
    case Cwd(_) => KCwd
    case Tags(_) => KTags
    case Private => KPrivate
    case Passthrough(_, _) => KPassthrough
    case PresetBlock(_, _) => KPreset
    case Pool(_) => KPool
    case Mutex(_) => KMutex
    case ImageIdent(_) => KImage
    case ImageString(_) => KImage
    case Unsafe => KUnsafe
    case Net(_) => KNet
    case Vol(_, _) => KVol
    case Steps(_) => KSteps
    case OneStep(step) => KeywordFor(step)
    case Workflow(_) => KWorkflow
    case DaemonBlock(_, _) => KDaemon
  }

  lemma {:induction false} ClauseKeywordIs(e: A.BodyEntry)
    ensures KeywordOf(ClauseWord(e)) == ClauseKeyword(e)
  {
    if e.Desc? || e.Deps? || e.WhenEnv? || e.WhenCmd? {
      TextsAreKeywords();
    } else if e.OneStep? {
      StepKeywordIs(e.step);
    } else if e.Inputs? || e.Outputs? || e.Args? {
      PathsAreKeywords();
    } else if e.Env? || e.Cwd? || e.Tags? {
      SettingsAreKeywords();
    } else if e.Private? || e.Passthrough? || e.PresetBlock? {
      MarksAreKeywords();
    } else if e.Pool? || e.Mutex? || e.ImageIdent? || e.ImageString? {
      LocksAreKeywords();
    } else if e.Unsafe? || e.Net? || e.Vol? {
      MountsAreKeywords();
    } else if e.Steps? {
      StepsAreKeywords();
    } else {
      BlocksAreKeywords();
    }
  }

  // ------------------------------------------------------------------ clause by clause

  /** What stands behind a clause: the closing brace or the keyword of the next one. */
  ghost predicate Follows(rest: seq<Token>) {
    rest != [] && (rest[0] == Punct('}') || (rest[0].Word? && rest[0] != Word("name")))
  }

  ghost predicate EndsAt(e: A.BodyEntry, rest: seq<Token>) {
    Follows(rest) && (IsGreedy(e) ==> rest[0] == Punct('}'))
  }

  /** What must be shown of a clause: after its keyword it is taken whole, and nothing else is. */
  ghost predicate Taken(e: A.BodyEntry, indent: string, more: seq<Token>, rest: seq<Token>) {
    && Toks(P.ClausePieces(e, indent)) + rest == [Word(ClauseWord(e))] + more
    && TakeClause(ClauseKeyword(e), more) == Some(Parsed(NormClause(e), rest))
  }

  lemma {:induction false} TwoWords(a: string, b: string, indent: string, rest: seq<Token>)
    ensures Toks(P.Words([a, b], indent, "\n")) + rest == [Word(a)] + ([Word(b)] + rest)
  {
    WordsUnfold([a, b], indent, "\n", rest);
    assert [a, b][1..] == [b];
    WordsUnfold([b], "", "\n", rest);
    assert Toks(P.Words([b][1..], "", "\n")) + rest == rest;
  }

  lemma {:induction false} NameClauseTaken(e: A.BodyEntry, name: string, indent: string, rest: seq<Token>)
    returns (more: seq<Token>)
    requires e == A.Cwd(name) || e == A.Pool(name) || e == A.Mutex(name) || e == A.ImageIdent(name) || e == A.Net(name)
    ensures Taken(e, indent, more, rest)
  {
    TwoWords(ClauseWord(e), name, indent, rest);
    WordTaken(name, rest);
    more := [Word(name)] + rest;
  }

  lemma {:induction false} TextClauseTaken(e: A.BodyEntry, indent: string, rest: seq<Token>) returns (more: seq<Token>)
    requires e.Desc? || e.ImageString?
    ensures Taken(e, indent, more, rest)
  {
    var text := if e.Desc? then e.text else e.image;
    TokensOfTwo(P.Keyword(indent, ClauseWord(e)), P.QuotedPiece("", text, "\n"), rest);
    StringTaken(text, rest);
    more := [Str(Q.Quote(text))] + rest;
  }

  lemma {:induction false} FlagClauseTaken(e: A.BodyEntry, indent: string, rest: seq<Token>) returns (more: seq<Token>)
    requires e.Private? || e.Unsafe?
    ensures Taken(e, indent, more, rest)
  {
    TokensOfOne(Piece(indent, Word(ClauseWord(e)), "\n"), rest);
    more := rest;
  }

  lemma {:induction false} PathClauseTaken(e: A.BodyEntry, indent: string, rest: seq<Token>) returns (more: seq<Token>)
    requires e.Inputs? || e.Outputs?
    ensures Taken(e, indent, more, rest)
  {
    var tail := P.Bracketed(e.paths, "\n");
    TokensJoin([P.Keyword(indent, ClauseWord(e))], tail, rest);
    TokensOfOne(P.Keyword(indent, ClauseWord(e)), Toks(tail) + rest);
    BracketedRead(e.paths, "\n", rest);
    more := Toks(tail) + rest;
  }

  lemma {:induction false} DepsTaken(e: A.BodyEntry, indent: string, rest: seq<Token>) returns (more: seq<Token>)
    requires e.Deps? && e.names != [] && Follows(rest)
    ensures Taken(e, indent, more, rest)
  {
    var tail := P.CommaWords(e.names, "\n");
    TokensJoin([P.Keyword(indent, "deps")], tail, rest);
    TokensOfOne(P.Keyword(indent, "deps"), Toks(tail) + rest);
    NamesRead(e.names, "\n", rest);
    more := Toks(tail) + rest;
  }

  lemma {:induction false} WhenEnvTaken(variable: string, indent: string, rest: seq<Token>) returns (more: seq<Token>)
    ensures Taken(A.WhenEnv(variable), indent, more, rest)
  {
    WordsUnfold(["when", "env", variable], indent, "\n", rest);
    assert ["when", "env", variable][1..] == ["env", variable];
    TwoWords("env", variable, "", rest);
    WordTaken(variable, rest);
    more := [Word("env")] + ([Word(variable)] + rest);
    assert more[1..] == [Word(variable)] + rest;
  }

  lemma {:induction false} WhenCmdTaken(argv: seq<string>, indent: string, rest: seq<Token>) returns (more: seq<Token>)
    ensures Taken(A.WhenCmd(argv), indent, more, rest)
  {
    var tail := P.Bracketed(argv, "\n");
    TokensJoin([P.Keyword(indent, "when"), P.Keyword("", "cmd")], tail, rest);
    TokensOfTwo(P.Keyword(indent, "when"), P.Keyword("", "cmd"), Toks(tail) + rest);
    BracketedRead(argv, "\n", rest);
    more := [Word("cmd")] + (Toks(tail) + rest);
    GuardTaken(argv, Toks(tail) + rest, rest);
  }

  lemma {:induction false} GuardTaken(argv: seq<string>, inner: seq<Token>, rest: seq<Token>)
    requires TakeBracketed(inner) == Some(Parsed(argv, rest))
    ensures TakeClause(KWhen, [Word("cmd")] + inner) == Some(Parsed(A.WhenCmd(argv), rest))
  {
    assert "env"[0] != "cmd"[0];
    assert ([Word("cmd")] + inner)[1..] == inner;
  }

  lemma {:induction false} TagsTaken(e: A.BodyEntry, indent: string, rest: seq<Token>) returns (more: seq<Token>)
    requires e.Tags? && EndsAt(e, rest)
    ensures Taken(e, indent, more, rest)
  {
    WordsUnfold(["tags"] + e.tags, indent, "\n", rest);
    assert (["tags"] + e.tags)[1..] == e.tags;
    WordsRead(e.tags, "", "\n", rest);
    more := Toks(P.Words(e.tags, "", "\n")) + rest;
  }

  lemma {:induction false} ArgsTaken(e: A.BodyEntry, indent: string, rest: seq<Token>) returns (more: seq<Token>)
    requires e.Args? && GoodClause(e) && EndsAt(e, rest)
    ensures Taken(e, indent, more, rest)
  {
    var ws := P.ArgWords(e.name, e.typ, e.short, e.default);
    WordsUnfold(ws, indent, "\n", rest);
    more := Toks(P.Words(ws[1..], "", "\n")) + rest;
    WordsUnfold(ws[1..], "", "\n", rest);
    WordsUnfold(ws[1..][1..], "", "\n", rest);
    var tail := Toks(P.Words(ws[3..], "", "\n")) + rest;
    assert ws[1..][1..][1..] == ws[3..];
    assert more == [Word(e.name)] + ([Word(e.typ)] + tail);
    ArgsTail(e, tail, rest);
  }

  lemma {:induction false} ArgsTail(e: A.BodyEntry, tail: seq<Token>, rest: seq<Token>)
    requires e.Args? && GoodClause(e) && EndsAt(e, rest)
    requires tail == Toks(P.Words(P.ArgWords(e.name, e.typ, e.short, e.default)[3..], "", "\n")) + rest
    ensures TakeArgs([Word(e.name)] + ([Word(e.typ)] + tail)) == Some(Parsed(e, rest))
  {
    var ws := P.ArgWords(e.name, e.typ, e.short, e.default)[3..];
    if e.short == "" {
      assert ws == [];
      assert tail == rest;
      TwoArgs(e.name, e.typ, rest);
    } else if e.default == "" {
      assert ws == [e.short];
      TokensOfOne(Piece("", Word(e.short), "\n"), rest);
      ThreeArgs(e.name, e.typ, e.short, rest);
    } else {
      assert ws == [e.short, e.default];
      TwoWords(e.short, e.default, "", rest);
      FourArgs(e.name, e.typ, e.short, e.default, rest);
    }
  }

  lemma {:induction false} TwoArgs(name: string, typ: string, rest: seq<Token>)
    requires EndsWords(rest)
    ensures TakeArgs([Word(name)] + ([Word(typ)] + rest)) == Some(Parsed(A.Args(name, typ, "", ""), rest))
  {
    assert ([Word(name)] + ([Word(typ)] + rest))[2..] == rest;
  }

  lemma {:induction false} ThreeArgs(name: string, typ: string, short: string, rest: seq<Token>)
    requires EndsWords(rest)
    ensures TakeArgs([Word(name)] + ([Word(typ)] + ([Word(short)] + rest))) ==
      Some(Parsed(A.Args(name, typ, short, ""), rest))
  {
    assert ([Word(name)] + ([Word(typ)] + ([Word(short)] + rest)))[3..] == rest;
  }

  lemma {:induction false} FourArgs(name: string, typ: string, short: string, default: string, rest: seq<Token>)
    ensures TakeArgs([Word(name)] + ([Word(typ)] + ([Word(short)] + ([Word(default)] + rest))))
         == Some(Parsed(A.Args(name, typ, short, default), rest))
  {
    assert ([Word(name)] + ([Word(typ)] + ([Word(short)] + ([Word(default)] + rest))))[4..] == rest;
  }

  /** The three tokens every passthrough clause begins with. */
  function SlotHead(indent: string): seq<Piece> {
    [P.Keyword(indent, "passthrough"), P.Keyword("", "step"), P.Mark("", '=', " ")]
  }

  lemma {:induction false} SlotHeadRead(indent: string, last: seq<Piece>, rest: seq<Token>)
    ensures Toks(SlotHead(indent) + last) + rest
         == [Word("passthrough")] + ([Word("step")] + ([Punct('=')] + (Toks(last) + rest)))
  {
    TokensJoin(SlotHead(indent), last, rest);
    TokensOfThree(P.Keyword(indent, "passthrough"), P.Keyword("", "step"), P.Mark("", '=', " "), Toks(last) + rest);
  }

  lemma {:induction false} UnnamedTaken(slot: nat, indent: string, rest: seq<Token>) returns (more: seq<Token>)
    requires Follows(rest)
    ensures Taken(A.Passthrough(slot, ""), indent, more, rest)
  {
    var last := [Piece("", Num(Text(slot)), "\n")];
    SlotHeadRead(indent, last, rest);
    TokensOfOne(Piece("", Num(Text(slot)), "\n"), rest);
    SlotTaken(slot, rest);
    more := [Word("step")] + ([Punct('=')] + ([Num(Text(slot))] + rest));
  }

  lemma {:induction false} NamedWritten(slot: nat, name: string, indent: string, rest: seq<Token>)
    returns (more: seq<Token>)
    requires name != ""
    ensures more ==
      [Word("step")] + ([Punct('=')] + ([Num(Text(slot))] + ([Word("name")] + ([Str(Q.Quote(name))] + rest))))
    ensures Toks(P.ClausePieces(A.Passthrough(slot, name), indent)) + rest == [Word("passthrough")] + more
  {
    var last := [Piece("", Num(Text(slot)), " "), P.Keyword("", "name"), P.QuotedPiece("", name, "\n")];
    SlotHeadRead(indent, last, rest);
    TokensOfThree(Piece("", Num(Text(slot)), " "), P.Keyword("", "name"), P.QuotedPiece("", name, "\n"), rest);
    more := [Word("step")] + ([Punct('=')] + ([Num(Text(slot))] + ([Word("name")] + ([Str(Q.Quote(name))] + rest))));
  }

  lemma {:induction false} NamedTaken(slot: nat, name: string, indent: string, rest: seq<Token>)
    returns (more: seq<Token>)
    requires name != ""
    ensures Taken(A.Passthrough(slot, name), indent, more, rest)
  {
    NamedSlotTaken(slot, name, rest);
    more := NamedWritten(slot, name, indent, rest);
    assert TakeClause(KPassthrough, more) == TakePassthrough(more);
  }

  lemma {:induction false} PassthroughTaken(e: A.BodyEntry, indent: string, rest: seq<Token>) returns (more: seq<Token>)
    requires e.Passthrough? && Follows(rest)
    ensures Taken(e, indent, more, rest)
  {
    if e.slotName == "" {
      more := UnnamedTaken(e.slot, indent, rest);
    } else {
      more := NamedTaken(e.slot, e.slotName, indent, rest);
    }
  }

  lemma {:induction false} FirstThree(a: Token, b: Token, c: Token, rest: seq<Token>)
    ensures var ts := [a] + ([b] + ([c] + rest));
      |ts| == 3 + |rest| && ts[0] == a && ts[1] == b && ts[2] == c && ts[3..] == rest
      && (rest != [] ==> ts[3] == rest[0])
  {
  }

  lemma {:induction false} FirstFive(a: Token, b: Token, c: Token, d: Token, e: Token, rest: seq<Token>)
    ensures var ts := [a] + ([b] + ([c] + ([d] + ([e] + rest))));
      |ts| == 5 + |rest| && ts[0] == a && ts[1] == b && ts[2] == c && ts[3] == d && ts[4] == e && ts[5..] == rest
  {
    FirstThree(a, b, c, [d] + ([e] + rest));
  }

  lemma {:induction false} SlotTaken(slot: nat, rest: seq<Token>)
    requires Follows(rest)
    ensures TakePassthrough([Word("step")] + ([Punct('=')] + ([Num(Text(slot))] + rest))) ==
      Some(Parsed(A.Passthrough(slot, ""), rest))
  {
    PrintedIsRead(slot, "");
    FirstThree(Word("step"), Punct('='), Num(Text(slot)), rest);
  }

  lemma {:induction false} NamedSlotTaken(slot: nat, name: string, rest: seq<Token>)
    ensures TakePassthrough([Word("step")] +
      ([Punct('=')] + ([Num(Text(slot))] + ([Word("name")] + ([Str(Q.Quote(name))] + rest)))))
         == Some(Parsed(A.Passthrough(slot, name), rest))
  {
    PrintedIsRead(slot, "");
    Q.CaptureGivesBack(name);
    FirstFive(Word("step"), Punct('='), Num(Text(slot)), Word("name"), Str(Q.Quote(name)), rest);
  }

  lemma {:induction false} VolTaken(e: A.BodyEntry, indent: string, rest: seq<Token>) returns (more: seq<Token>)
    requires e.Vol? && Follows(rest)
    ensures Taken(e, indent, more, rest)
  {
    if e.hostPath == "" {
      TwoWords("vol", e.name, indent, rest);
      WordTaken(e.name, rest);
      more := [Word(e.name)] + rest;
    } else {
      TokensOfThree(P.Keyword(indent, "vol"), P.Keyword("", e.name), P.QuotedPiece("", e.hostPath, "\n"), rest);
      WordTaken(e.name, [Str(Q.Quote(e.hostPath))] + rest);
      StringTaken(e.hostPath, rest);
      more := [Word(e.name)] + ([Str(Q.Quote(e.hostPath))] + rest);
    }
  }

  lemma {:induction false} PresetTaken(e: A.BodyEntry, indent: string, rest: seq<Token>) returns (more: seq<Token>)
    requires e.PresetBlock? && Written(e.entries) != [] && forall p :: p in e.entries ==> GoodPresetEntry(p)
    ensures Taken(e, indent, more, rest)
  {
    more := PresetRead(e.name, e.entries, indent, rest);
    ClauseIs(e, P.Header(indent, "preset", e.name) +
      (P.PresetEntryList(e.entries, indent + "  ") + [P.Mark(indent, '}', "\n")]), indent);
    PresetClauseTaken(e, more, rest);
  }

  lemma {:induction false} PresetClauseTaken(e: A.BodyEntry, more: seq<Token>, rest: seq<Token>)
    requires e.PresetBlock? && TakePreset(more) == Some(Parsed(A.PresetBlock(e.name, Written(e.entries)), rest))
    ensures ClauseWord(e) == "preset" && TakeClause(ClauseKeyword(e), more) == Some(Parsed(NormClause(e), rest))
  {
    PresetChosen(more);
  }

  lemma {:induction false} PresetChosen(ts: seq<Token>)
    ensures TakeClause(KPreset, ts) == TakePreset(ts)
  {
  }

  lemma {:induction false} PresetRead(name: string, es: seq<A.PresetEntry>, indent: string, rest: seq<Token>)
    returns (more: seq<Token>)
    requires Written(es) != [] && forall p :: p in es ==> GoodPresetEntry(p)
    ensures Toks(P.Header(indent, "preset", name) +
      (P.PresetEntryList(es, indent + "  ") + [P.Mark(indent, '}', "\n")])) + rest
         == [Word("preset")] + more
    ensures TakePreset(more) == Some(Parsed(A.PresetBlock(name, Written(es)), rest))
  {
    var close := P.Mark(indent, '}', "\n");
    var tail := P.PresetEntryList(es, indent + "  ") + [close];
    TokensJoin(P.Header(indent, "preset", name), tail, rest);
    TokensOfThree(P.Keyword(indent, "preset"), P.Keyword("", name), P.Mark("", '{', "\n"), Toks(tail) + rest);
    more := [Word(name)] + ([Punct('{')] + (Toks(tail) + rest));
    PresetStarts(es, indent + "  ", close, rest);
    PresetEntriesRead(es, indent + "  ", close, rest);
    PresetBlockTaken(name, Toks(tail) + rest, Written(es), rest);
  }

  lemma {:induction false} PresetBlockTaken(name: string, inner: seq<Token>, es: seq<A.PresetEntry>, rest: seq<Token>)
    requires !AtMark(inner, '}') && TakePresetEntries(inner) == Some(Parsed(es, rest))
    ensures TakePreset([Word(name)] + ([Punct('{')] + inner)) == Some(Parsed(A.PresetBlock(name, es), rest))
  {
    WordTaken(name, [Punct('{')] + inner);
    MarkSeen('{', inner);
  }

  lemma {:induction false} WorkflowTaken(e: A.BodyEntry, indent: string, rest: seq<Token>) returns (more: seq<Token>)
    requires e.Workflow? && forall i :: i in e.items ==> GoodWorkflowEntry(i)
    ensures Taken(e, indent, more, rest)
  {
    var close := P.Mark(" ", '}', "\n");
    var tail := P.WorkflowList(e.items) + [close];
    TokensJoin([P.Keyword(indent, "workflow"), P.Mark("", '{', "")], tail, rest);
    TokensOfTwo(P.Keyword(indent, "workflow"), P.Mark("", '{', ""), Toks(tail) + rest);
    WorkflowRead(e.items, close, rest);
    MarkSeen('{', Toks(tail) + rest);
    more := [Punct('{')] + (Toks(tail) + rest);
  }

  lemma {:induction false} StepsTaken(e: A.BodyEntry, indent: string, rest: seq<Token>) returns (more: seq<Token>)
    requires e.Steps? && GoodSteps(e.steps)
    ensures Taken(e, indent, more, rest)
  {
    more := StepsRead(e.steps, indent, rest);
    ClauseIs(e, P.StepsPieces(e.steps, indent), indent);
    StepsClauseTaken(e, more, rest);
  }

  lemma {:induction false} StepsClauseTaken(e: A.BodyEntry, more: seq<Token>, rest: seq<Token>)
    requires e.Steps? && TakeStepsBlock(more) == Some(Parsed(e.steps, rest))
    ensures ClauseWord(e) == "steps" && TakeClause(ClauseKeyword(e), more) == Some(Parsed(NormClause(e), rest))
  {
  }

  lemma {:induction false} ClauseIs(e: A.BodyEntry, ps: seq<Piece>, indent: string)
    requires e.Steps? ==> ps == P.StepsPieces(e.steps, indent)
    requires e.PresetBlock? ==>
      ps == P.Header(indent, "preset", e.name) +
        (P.PresetEntryList(e.entries, indent + "  ") + [P.Mark(indent, '}', "\n")])
    requires e.Steps? || e.PresetBlock?
    ensures P.ClausePieces(e, indent) == ps
  {
  }

  lemma {:induction false} OneStepTaken(s: A.Step, indent: string, rest: seq<Token>) returns (more: seq<Token>)
    requires GoodStep(s) && EndsAt(A.OneStep(s), rest)
    ensures Taken(A.OneStep(s), indent, more, rest)
  {
    more := StepTaken(s, indent, "\n", rest);
    BareStepTaken(s, more, rest);
  }

  lemma {:induction false} BareStepTaken(s: A.Step, more: seq<Token>, rest: seq<Token>)
    requires TakeStep(KeywordFor(s), more) == Some(Parsed(s, rest))
    ensures TakeClause(KeywordFor(s), more) == Some(Parsed(A.OneStep(s), rest))
  {
  }

  lemma {:induction false} ClauseTaken(e: A.BodyEntry, indent: string, rest: seq<Token>) returns (more: seq<Token>)
    requires GoodClause(e) && EndsAt(e, rest) && !e.DaemonBlock?
    ensures Taken(e, indent, more, rest)
  {
    if e.Cwd? || e.Pool? || e.Mutex? || e.ImageIdent? || e.Net? {
      var name := if e.Cwd? then e.path else if e.ImageIdent? then e.image else e.name;
      more := NameClauseTaken(e, name, indent, rest);
    } else if e.Desc? || e.ImageString? {
      more := TextClauseTaken(e, indent, rest);
    } else if e.Private? || e.Unsafe? {
      more := FlagClauseTaken(e, indent, rest);
    } else if e.Inputs? || e.Outputs? {
      more := PathClauseTaken(e, indent, rest);
    } else if e.Deps? {
      more := DepsTaken(e, indent, rest);
    } else if e.WhenEnv? {
      more := WhenEnvTaken(e.variable, indent, rest);
    } else if e.WhenCmd? {
      more := WhenCmdTaken(e.argv, indent, rest);
    } else if e.Tags? {
      more := TagsTaken(e, indent, rest);
    } else if e.Args? {
      more := ArgsTaken(e, indent, rest);
    } else if e.Passthrough? {
      more := PassthroughTaken(e, indent, rest);
    } else if e.Vol? {
      more := VolTaken(e, indent, rest);
    } else if e.PresetBlock? {
      more := PresetTaken(e, indent, rest);
    } else if e.Workflow? {
      more := WorkflowTaken(e, indent, rest);
    } else if e.Env? {
      more := EnvRead(e.pairs, indent, rest);
    } else if e.Steps? {
      more := StepsTaken(e, indent, rest);
    } else {
      more := OneStepTaken(e.step, indent, rest);
    }
  }

  /** A clause of the fragment is parsed back, whatever clause or brace follows. */
  lemma {:induction false} ClauseRead(e: A.BodyEntry, indent: string, rest: seq<Token>)
    requires GoodClause(e) && EndsAt(e, rest) && !e.DaemonBlock?
    ensures var ts := Toks(P.ClausePieces(e, indent)) + rest;
      ts != [] && ts[0] == Word(ClauseWord(e)) && TakeEntry(ts) == Some(Parsed(NormClause(e), rest))
  {
    var more := ClauseTaken(e, indent, rest);
    ClauseKeywordIs(e);
    WordTaken(ClauseWord(e), more);
    assert ClauseKeyword(e) != KDaemon by {
      if e.OneStep? {
        assert KeywordFor(e.step) != KDaemon;
      }
    }
  }
}
