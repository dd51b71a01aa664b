/** Parsing the tokens the formatter writes: each part of a clause comes back. Lists of identifiers need a token that
    is no identifier behind them, lists in brackets and blocks in braces end at their own closing mark, and what
    follows a part is left for the next one. */
module ReadBack {
  import opened Config
  import opened Decimal
  import opened Lexer
  import opened Layout
  import opened Parser
  import P = Printer
  import A = Ast
  import Q = Quoted

  // ------------------------------------------------------------------ token by token

  lemma {:induction false} TokensOfTwo(a: Piece, b: Piece, rest: seq<Token>)
    ensures Toks([a, b]) + rest == [a.tok] + ([b.tok] + rest)
  {
    assert [a, b] == [a] + [b];
    TokensJoin([a], [b], rest);
    TokensOfOne(a, Toks([b]) + rest);
    TokensOfOne(b, rest);
  }

  lemma {:induction false} TokensOfOne(a: Piece, rest: seq<Token>)
    ensures Toks([a]) + rest == [a.tok] + rest
  {
    assert [a][1..] == [];
  }

  lemma {:induction false} TokensOfThree(a: Piece, b: Piece, c: Piece, rest: seq<Token>)
    ensures Toks([a, b, c]) + rest == [a.tok] + ([b.tok] + ([c.tok] + rest))
  {
    assert [a, b, c] == [a] + [b, c];
    TokensJoin([a], [b, c], rest);
    TokensOfOne(a, Toks([b, c]) + rest);
    TokensOfTwo(b, c, rest);
  }

  lemma {:induction false} TokensJoin(a: seq<Piece>, b: seq<Piece>, rest: seq<Token>)
    ensures Toks(a + b) + rest == Toks(a) + (Toks(b) + rest)
  {
    ToksSplit(a, b);
  }

  lemma {:induction false} WordTaken(w: string, rest: seq<Token>)
    ensures TakeWord([Word(w)] + rest) == Some(Parsed(w, rest))
    ensures TakeValue([Word(w)] + rest) == Some(Parsed(w, rest))
  {
    assert ([Word(w)] + rest)[1..] == rest;
  }

  lemma {:induction false} StringTaken(s: string, rest: seq<Token>)
    ensures TakeString([Str(Q.Quote(s))] + rest) == Some(Parsed(s, rest))
    ensures TakeValue([Str(Q.Quote(s))] + rest) == Some(Parsed(s, rest))
  {
    assert ([Str(Q.Quote(s))] + rest)[1..] == rest;
    Q.CaptureGivesBack(s);
  }

  lemma {:induction false} MarkSeen(c: char, rest: seq<Token>)
    ensures AtMark([Punct(c)] + rest, c)
    ensures ([Punct(c)] + rest)[1..] == rest
    ensures forall d :: d != c ==> !AtMark([Punct(c)] + rest, d)
  {
  }

  lemma {:induction false} NoMark(t: Token, rest: seq<Token>)
    requires !t.Punct?
    ensures forall c :: !AtMark([t] + rest, c)
  {
  }

  // -------------------------------------------------------------------------- lists

  /** The next token is no identifier. */
  predicate EndsWords(rest: seq<Token>) {
    rest == [] || !rest[0].Word?
  }

  lemma {:induction false} WordsRead(ws: seq<string>, before: string, after: string, rest: seq<Token>)
    requires EndsWords(rest)
    ensures TakeWords(Toks(P.Words(ws, before, after)) + rest) == Parsed(ws, rest)
  {
    if ws == [] {
      assert Toks(P.Words(ws, before, after)) + rest == rest;
    } else {
      WordsUnfold(ws, before, after, rest);
      var more := Toks(P.Words(ws[1..], "", after)) + rest;
      WordsRead(ws[1..], "", after, rest);
      assert ([Word(ws[0])] + more)[1..] == more;
      assert [ws[0]] + ws[1..] == ws;
    }
  }

  lemma {:induction false} WordsUnfold(ws: seq<string>, before: string, after: string, rest: seq<Token>)
    requires ws != []
    ensures Toks(P.Words(ws, before, after)) + rest == [Word(ws[0])] + (Toks(P.Words(ws[1..], "", after)) + rest)
  {
    if |ws| == 1 {
      TokensOfOne(Piece(before, Word(ws[0]), after), rest);
      assert Toks(P.Words(ws[1..], "", after)) + rest == rest;
    } else {
      var p := Piece(before, Word(ws[0]), " ");
      TokensJoin([p], P.Words(ws[1..], "", after), rest);
      TokensOfOne(p, Toks(P.Words(ws[1..], "", after)) + rest);
    }
  }

  lemma {:induction false} ElementsRead(es: seq<string>, after: string, rest: seq<Token>)
    requires es != []
    ensures TakeElements(Toks(P.Elements(es, after)) + rest) == Some(Parsed(es, rest))
  {
    if |es| == 1 {
      assert es == [es[0]];
      OneElementRead(es[0], after, rest);
    } else {
      ElementsUnfold(es, after, rest);
      ElementsRead(es[1..], after, rest);
      OneMoreElement(es[0], Toks(P.Elements(es[1..], after)) + rest, es[1..], rest);
      assert [es[0]] + es[1..] == es;
    }
  }

  lemma {:induction false} ElementsUnfold(es: seq<string>, after: string, rest: seq<Token>)
    requires |es| > 1
    ensures Toks(P.Elements(es, after)) + rest
         == [Str(Q.Quote(es[0]))] + ([Punct(',')] + (Toks(P.Elements(es[1..], after)) + rest))
  {
    var tail := P.Elements(es[1..], after);
    TokensJoin([P.QuotedPiece("", es[0], ""), P.Mark("", ',', " ")], tail, rest);
    TokensOfTwo(P.QuotedPiece("", es[0], ""), P.Mark("", ',', " "), Toks(tail) + rest);
  }

  lemma {:induction false} LastElement(e: string, rest: seq<Token>)
    ensures TakeElements([Str(Q.Quote(e))] + ([Punct(']')] + rest)) == Some(Parsed([e], rest))
  {
    StringTaken(e, [Punct(']')] + rest);
    MarkSeen(']', rest);
  }

  lemma {:induction false} OneElementRead(e: string, after: string, rest: seq<Token>)
    ensures TakeElements(Toks(P.Elements([e], after)) + rest) == Some(Parsed([e], rest))
  {
    TokensOfTwo(P.QuotedPiece("", e, ""), P.Mark("", ']', after), rest);
    LastElement(e, rest);
  }

  lemma {:induction false} OneMoreElement(e: string, more: seq<Token>, es: seq<string>, rest: seq<Token>)
    requires TakeElements(more) == Some(Parsed(es, rest))
    ensures TakeElements([Str(Q.Quote(e))] + ([Punct(',')] + more)) == Some(Parsed([e] + es, rest))
  {
    StringTaken(e, [Punct(',')] + more);
    MarkSeen(',', more);
  }

  lemma {:induction false} ElementsStart(es: seq<string>, after: string, rest: seq<Token>)
    requires es != []
    ensures !AtMark(Toks(P.Elements(es, after)) + rest, ']')
  {
    if |es| == 1 {
      TokensOfTwo(P.QuotedPiece("", es[0], ""), P.Mark("", ']', after), rest);
    } else {
      TokensJoin([P.QuotedPiece("", es[0], ""), P.Mark("", ',', " ")], P.Elements(es[1..], after), rest);
      TokensOfTwo(P.QuotedPiece("", es[0], ""), P.Mark("", ',', " "), Toks(P.Elements(es[1..], after)) + rest);
    }
  }

  lemma {:induction false} BracketedRead(es: seq<string>, after: string, rest: seq<Token>)
    ensures TakeBracketed(Toks(P.Bracketed(es, after)) + rest) == Some(Parsed(es, rest))
  {
    var inner := Toks(P.Elements(es, after)) + rest;
    TokensJoin([P.Mark("", '[', "")], P.Elements(es, after), rest);
    TokensOfOne(P.Mark("", '[', ""), inner);
    MarkSeen('[', inner);
    if es == [] {
      TokensOfOne(P.Mark("", ']', after), rest);
      MarkSeen(']', rest);
      assert ([Punct('[')] + inner)[2..] == inner[1..];
    } else {
      ElementsStart(es, after, rest);
      ElementsRead(es, after, rest);
    }
  }

  lemma {:induction false} NamesRead(names: seq<string>, after: string, rest: seq<Token>)
    requires names != [] && !AtMark(rest, ',')
    ensures TakeNames(Toks(P.CommaWords(names, after)) + rest) == Some(Parsed(names, rest))
  {
    if |names| == 1 {
      TokensOfOne(Piece("", Word(names[0]), after), rest);
      WordTaken(names[0], rest);
      assert names == [names[0]];
    } else {
      NamesUnfold(names, after, rest);
      NamesRead(names[1..], after, rest);
      OneMoreName(names[0], Toks(P.CommaWords(names[1..], after)) + rest, names[1..], rest);
      assert [names[0]] + names[1..] == names;
    }
  }

  lemma {:induction false} NamesUnfold(names: seq<string>, after: string, rest: seq<Token>)
    requires |names| > 1
    ensures Toks(P.CommaWords(names, after)) + rest
         == [Word(names[0])] + ([Punct(',')] + (Toks(P.CommaWords(names[1..], after)) + rest))
  {
    var tail := P.CommaWords(names[1..], after);
    TokensJoin([Piece("", Word(names[0]), ""), P.Mark("", ',', " ")], tail, rest);
    TokensOfTwo(Piece("", Word(names[0]), ""), P.Mark("", ',', " "), Toks(tail) + rest);
  }

  lemma {:induction false} OneMoreName(name: string, more: seq<Token>, names: seq<string>, rest: seq<Token>)
    requires TakeNames(more) == Some(Parsed(names, rest))
    ensures TakeNames([Word(name)] + ([Punct(',')] + more)) == Some(Parsed([name] + names, rest))
  {
    WordTaken(name, [Punct(',')] + more);
    MarkSeen(',', more);
  }

  lemma {:induction false} QuotedWordsRead(paths: seq<string>, after: string, rest: seq<Token>)
    requires rest != [] && !rest[0].Word? && !rest[0].Str?
    ensures TakeValues(Toks(P.QuotedWords(paths, after)) + rest) == Parsed(paths, rest)
  {
    if paths == [] {
      assert Toks(P.QuotedWords(paths, after)) + rest == rest;
    } else if |paths| == 1 {
      TokensOfOne(P.QuotedPiece("", paths[0], after), rest);
      StringTaken(paths[0], rest);
      assert TakeValues(rest) == Parsed([], rest);
      assert [paths[0]] + [] == paths;
    } else {
      var tail := P.QuotedWords(paths[1..], after);
      TokensJoin([P.QuotedPiece("", paths[0], " ")], tail, rest);
      TokensOfOne(P.QuotedPiece("", paths[0], " "), Toks(tail) + rest);
      StringTaken(paths[0], Toks(tail) + rest);
      QuotedWordsRead(paths[1..], after, rest);
      assert [paths[0]] + paths[1..] == paths;
    }
  }

  // ---------------------------------------------------------------------------- env

  lemma {:induction false} ValueTaken(v: string, rest: seq<Token>)
    ensures TakeValue([P.ValuePiece(v).tok] + rest) == Some(Parsed(v, rest))
  {
    StringTaken(v, rest);
    WordTaken(v, rest);
  }

  lemma {:induction false} PairsRead(pairs: seq<A.EnvPair>, close: Piece, rest: seq<Token>)
    requires close.tok == Punct('}')
    ensures TakePairs(Toks(P.PairPieces(pairs) + [close]) + rest) == Some(Parsed(pairs, rest))
  {
    if pairs == [] {
      assert P.PairPieces(pairs) + [close] == [close];
      TokensOfOne(close, rest);
      MarkSeen('}', rest);
    } else {
      var k, v := P.Keyword(" ", pairs[0].key), P.ValuePiece(pairs[0].value);
      var tail := P.PairPieces(pairs[1..]) + [close];
      assert P.PairPieces(pairs) + [close] == [k, v] + tail;
      TokensJoin([k, v], tail, rest);
      TokensOfTwo(k, v, Toks(tail) + rest);
      NoMark(k.tok, [v.tok] + (Toks(tail) + rest));
      WordTaken(pairs[0].key, [v.tok] + (Toks(tail) + rest));
      ValueTaken(pairs[0].value, Toks(tail) + rest);
      PairsRead(pairs[1..], close, rest);
      assert [A.EnvPair(pairs[0].key, pairs[0].value)] + pairs[1..] == pairs;
    }
  }

  /** An env block, seen from behind its keyword. */
  lemma {:induction false} EnvRead(pairs: seq<A.EnvPair>, indent: string, rest: seq<Token>) returns (more: seq<Token>)
    ensures Toks(P.EnvPieces(pairs, indent)) + rest == [Word("env")] + more
    ensures TakeEnvBlock(more) == Some(Parsed(pairs, rest))
  {
    var tail := P.PairPieces(pairs) + [P.Mark(" ", '}', "\n")];
    TokensJoin([P.Keyword(indent, "env"), P.Mark("", '{', "")], tail, rest);
    TokensOfTwo(P.Keyword(indent, "env"), P.Mark("", '{', ""), Toks(tail) + rest);
    PairsRead(pairs, P.Mark(" ", '}', "\n"), rest);
    MarkSeen('{', Toks(tail) + rest);
    more := [Punct('{')] + (Toks(tail) + rest);
  }

  // -------------------------------------------------------------------------- steps

  /** The keyword of a step and what follows it. */
  function StepKeyword(s: A.Step): string {
    match s
    case Exec(_) => "exec"
    case Cmd(_) => "cmd"
    case Shell(_, _) => "shell"
  }

  ghost predicate GoodStep(s: A.Step) {
    match s
    case Exec(argv) => forall e :: e in argv ==> !Q.EndsInBackslash(e)
    case Cmd(tokens) => tokens != [] && forall t :: t in tokens ==> IsWord(t)
    case Shell(runner, script) => IsWord(runner) && !Q.EndsInBackslash(script)
  }

  function KeywordFor(s: A.Step): Keyword {
    match s
    case Exec(_) => KExec
    case Cmd(_) => KCmd
    case Shell(_, _) => KShell
  }

  lemma {:induction false} StepKeywordIs(s: A.Step)
    ensures KeywordOf(StepKeyword(s)) == KeywordFor(s)
  {
    StepsAreKeywords();
    BlocksAreKeywords();
  }

  /** A step, seen from behind its keyword; the words of a `cmd` step must end there. */
  lemma {:induction false} ExecTaken(argv: seq<string>, before: string, after: string, rest: seq<Token>)
    returns (more: seq<Token>)
    ensures Toks(P.StepPieces(A.Exec(argv), before, after)) + rest == [Word("exec")] + more
    ensures TakeStep(KExec, more) == Some(Parsed(A.Exec(argv), rest))
  {
    more := Toks(P.Bracketed(argv, after)) + rest;
    TokensJoin([P.Keyword(before, "exec")], P.Bracketed(argv, after), rest);
    TokensOfOne(P.Keyword(before, "exec"), more);
    BracketedRead(argv, after, rest);
  }

  lemma {:induction false} CmdTaken(tokens: seq<string>, before: string, after: string, rest: seq<Token>)
    returns (more: seq<Token>)
    requires GoodStep(A.Cmd(tokens)) && EndsWords(rest)
    ensures Toks(P.StepPieces(A.Cmd(tokens), before, after)) + rest == [Word("cmd")] + more
    ensures TakeStep(KCmd, more) == Some(Parsed(A.Cmd(tokens), rest))
  {
    WordsUnfold(["cmd"] + tokens, before, after, rest);
    assert (["cmd"] + tokens)[0] == "cmd" && (["cmd"] + tokens)[1..] == tokens;
    WordsRead(tokens, "", after, rest);
    more := Toks(P.Words(tokens, "", after)) + rest;
  }

  lemma {:induction false} ShellTaken(runner: string, script: string, before: string, after: string, rest: seq<Token>)
    returns (more: seq<Token>)
    ensures Toks(P.StepPieces(A.Shell(runner, script), before, after)) + rest == [Word("shell")] + more
    ensures TakeStep(KShell, more) == Some(Parsed(A.Shell(runner, script), rest))
  {
    TokensOfThree(P.Keyword(before, "shell"), P.Keyword("", runner), P.QuotedPiece("", script, after), rest);
    WordTaken(runner, [Str(Q.Quote(script))] + rest);
    StringTaken(script, rest);
    more := [Word(runner)] + ([Str(Q.Quote(script))] + rest);
  }

  lemma {:induction false} StepTaken(s: A.Step, before: string, after: string, rest: seq<Token>)
    returns (more: seq<Token>)
    requires GoodStep(s) && (s.Cmd? ==> EndsWords(rest))
    ensures Toks(P.StepPieces(s, before, after)) + rest == [Word(StepKeyword(s))] + more
    ensures TakeStep(KeywordFor(s), more) == Some(Parsed(s, rest))
  {
    match s
    case Exec(argv) => more := ExecTaken(argv, before, after, rest);
    case Cmd(tokens) => more := CmdTaken(tokens, before, after, rest);
    case Shell(runner, script) => more := ShellTaken(runner, script, before, after, rest);
  }

  lemma {:induction false} StepRead(s: A.Step, before: string, after: string, rest: seq<Token>)
    returns (more: seq<Token>)
    requires GoodStep(s) && (s.Cmd? ==> EndsWords(rest))
    ensures Toks(P.StepPieces(s, before, after)) + rest == [Word(StepKeyword(s))] + more
    ensures TakeStep(KeywordOf(StepKeyword(s)), more) == Some(Parsed(s, rest))
  {
    more := StepTaken(s, before, after, rest);
    StepKeywordIs(s);
  }

  /** Only the last of several steps may be a `cmd`: its words would take in the keyword of the next. */
  ghost predicate GoodSteps(steps: seq<A.Step>) {
    && (forall i :: 0 <= i < |steps| ==> GoodStep(steps[i]))
    && (forall i :: 0 <= i < |steps| - 1 ==> !steps[i].Cmd?)
  }

  lemma {:induction false} StepListRead(steps: seq<A.Step>, before: string, close: Piece, rest: seq<Token>)
    requires GoodSteps(steps) && close.tok == Punct('}')
    ensures TakeSteps(Toks(P.StepList(steps, before) + [close]) + rest) == Some(Parsed(steps, rest))
  {
    if steps == [] {
      assert P.StepList(steps, before) + [close] == [close];
      TokensOfOne(close, rest);
      MarkSeen('}', rest);
    } else {
      var tail := P.StepList(steps[1..], before) + [close];
      assert P.StepList(steps, before) + [close] == P.StepPieces(steps[0], before, "") + tail;
      TokensJoin(P.StepPieces(steps[0], before, ""), tail, rest);
      if |steps| == 1 {
        assert tail == [close];
        TokensOfOne(close, rest);
      }
      var more := StepRead(steps[0], before, "", Toks(tail) + rest);
      assert GoodSteps(steps[1..]);
      StepListRead(steps[1..], before, close, rest);
      OneStepMore(StepKeyword(steps[0]), more, steps[0], Toks(tail) + rest, steps[1..], rest);
      assert [steps[0]] + steps[1..] == steps;
    }
  }

  lemma {:induction false} OneStepMore(w: string, more: seq<Token>, s: A.Step, next: seq<Token>, ss: seq<A.Step>,
                                       rest: seq<Token>)
    requires TakeStep(KeywordOf(w), more) == Some(Parsed(s, next))
    requires TakeSteps(next) == Some(Parsed(ss, rest))
    ensures TakeSteps([Word(w)] + more) == Some(Parsed([s] + ss, rest))
  {
    NoMark(Word(w), more);
    WordTaken(w, more);
  }

  lemma {:induction false} StepsRead(steps: seq<A.Step>, indent: string, rest: seq<Token>) returns (more: seq<Token>)
    requires GoodSteps(steps)
    ensures Toks(P.StepsPieces(steps, indent)) + rest == [Word("steps")] + more
    ensures TakeStepsBlock(more) == Some(Parsed(steps, rest))
  {
    var inner := if |steps| == 1 then " " else "\n" + indent + "  ";
    var outer := if |steps| <= 1 then " " else "\n" + indent;
    var tail := P.StepList(steps, inner) + [P.Mark(outer, '}', "\n")];
    TokensJoin([P.Keyword(indent, "steps"), P.Mark("", '{', "")], tail, rest);
    TokensOfTwo(P.Keyword(indent, "steps"), P.Mark("", '{', ""), Toks(tail) + rest);
    StepListRead(steps, inner, P.Mark(outer, '}', "\n"), rest);
    MarkSeen('{', Toks(tail) + rest);
    more := [Punct('{')] + (Toks(tail) + rest);
  }

  // ---------------------------------------------------------- presets and workflows

  ghost predicate GoodPairs(pairs: seq<A.EnvPair>) {
    forall p :: p in pairs ==>
      IsWord(p.key) && (if P.NeedsQuoting(p.value) then !Q.EndsInBackslash(p.value) else IsWord(p.value))
  }

  ghost predicate GoodPresetEntry(e: A.PresetEntry) {
    match e
    case PresetArgv(argv) => forall x :: x in argv ==> !Q.EndsInBackslash(x)
    case PresetEnv(pairs) => GoodPairs(pairs)
    case PresetDesc(text) => !Q.EndsInBackslash(text)
    case PresetSteps(steps) => GoodSteps(steps)
  }

  predicate IsWritten(e: A.PresetEntry) {
    !(e.PresetSteps? && e.steps == []) && !(e.PresetEnv? && e.pairs == [])
  }

  function PresetKeyword(e: A.PresetEntry): string {
    match e
    case PresetArgv(_) => "argv"
    case PresetEnv(_) => "env"
    case PresetDesc(_) => "desc"
    case PresetSteps(_) => "steps"
  }

  function PresetKeywordFor(e: A.PresetEntry): Keyword {
    match e
    case PresetArgv(_) => KNone
    case PresetEnv(_) => KEnv
    case PresetDesc(_) => KDesc
    case PresetSteps(_) => KSteps
  }

  lemma {:induction false} PresetKeywordIs(e: A.PresetEntry)
    ensures PresetKeyword(e) == "argv" <==> e.PresetArgv?
    ensures !e.PresetArgv? ==> KeywordOf(PresetKeyword(e)) == PresetKeywordFor(e)
  {
    match e
    case PresetArgv(_) =>
    case PresetEnv(_) =>
      SettingsAreKeywords();
      assert |"env"| != |"argv"|;
    case PresetDesc(_) =>
      TextsAreKeywords();
      assert "desc"[0] != "argv"[0];
    case PresetSteps(_) =>
      StepsAreKeywords();
      assert |"steps"| != |"argv"|;
  }

  lemma {:induction false} PresetEntryTaken(e: A.PresetEntry, indent: string, rest: seq<Token>)
    returns (more: seq<Token>)
    requires GoodPresetEntry(e) && IsWritten(e)
    ensures Toks(P.PresetEntryPieces(e, indent)) + rest == [Word(PresetKeyword(e))] + more
    ensures (if e.PresetArgv? then TakePresetArgv(more) else TakePresetClause(PresetKeywordFor(e), more)) ==
      Some(Parsed(e, rest))
  {
    match e
    case PresetArgv(argv) =>
      TokensJoin([P.Keyword(indent, "argv")], P.Bracketed(argv, "\n"), rest);
      TokensOfOne(P.Keyword(indent, "argv"), Toks(P.Bracketed(argv, "\n")) + rest);
      BracketedRead(argv, "\n", rest);
      more := Toks(P.Bracketed(argv, "\n")) + rest;
    case PresetEnv(pairs) => more := EnvRead(pairs, indent, rest);
    case PresetDesc(text) =>
      TokensOfTwo(P.Keyword(indent, "desc"), P.QuotedPiece("", text, "\n"), rest);
      StringTaken(text, rest);
      more := [Str(Q.Quote(text))] + rest;
    case PresetSteps(steps) => more := StepsRead(steps, indent, rest);
  }

  lemma {:induction false} PresetEntryRead(e: A.PresetEntry, indent: string, rest: seq<Token>)
    returns (more: seq<Token>)
    requires GoodPresetEntry(e) && IsWritten(e)
    ensures Toks(P.PresetEntryPieces(e, indent)) + rest == [Word(PresetKeyword(e))] + more
    ensures TakePresetEntry(PresetKeyword(e), more) == Some(Parsed(e, rest))
  {
    more := PresetEntryTaken(e, indent, rest);
    PresetKeywordIs(e);
  }

  /** The entries of a preset that are written. */
  function Written(es: seq<A.PresetEntry>): seq<A.PresetEntry> {
    if es == [] then [] else (if IsWritten(es[0]) then [es[0]] else []) + Written(es[1..])
  }

  lemma {:induction false} PresetEntriesRead(es: seq<A.PresetEntry>, indent: string, close: Piece, rest: seq<Token>)
    requires (forall e :: e in es ==> GoodPresetEntry(e)) && close.tok == Punct('}')
    ensures TakePresetEntries(Toks(P.PresetEntryList(es, indent) + [close]) + rest) == Some(Parsed(Written(es), rest))
  {
    if es == [] {
      assert P.PresetEntryList(es, indent) + [close] == [close];
      TokensOfOne(close, rest);
      MarkSeen('}', rest);
    } else {
      var tail := P.PresetEntryList(es[1..], indent) + [close];
      assert P.PresetEntryList(es, indent) + [close] == P.PresetEntryPieces(es[0], indent) + tail;
      PresetEntriesRead(es[1..], indent, close, rest);
      if IsWritten(es[0]) {
        TokensJoin(P.PresetEntryPieces(es[0], indent), tail, rest);
        var more := PresetEntryRead(es[0], indent, Toks(tail) + rest);
        NoMark(Word(PresetKeyword(es[0])), more);
        WordTaken(PresetKeyword(es[0]), more);
      } else {
        assert P.PresetEntryPieces(es[0], indent) + tail == tail;
        assert [] + Written(es[1..]) == Written(es[1..]);
      }
    }
  }

  lemma {:induction false} PresetStarts(es: seq<A.PresetEntry>, indent: string, close: Piece, rest: seq<Token>)
    requires (forall e :: e in es ==> GoodPresetEntry(e)) && Written(es) != []
    ensures !AtMark(Toks(P.PresetEntryList(es, indent) + [close]) + rest, '}')
  {
    var tail := P.PresetEntryList(es[1..], indent) + [close];
    assert P.PresetEntryList(es, indent) + [close] == P.PresetEntryPieces(es[0], indent) + tail;
    if IsWritten(es[0]) {
      TokensJoin(P.PresetEntryPieces(es[0], indent), tail, rest);
      var more := PresetEntryRead(es[0], indent, Toks(tail) + rest);
      NoMark(Word(PresetKeyword(es[0])), more);
    } else {
      assert P.PresetEntryPieces(es[0], indent) + tail == tail;
      PresetStarts(es[1..], indent, close, rest);
    }
  }

  ghost predicate GoodWorkflowEntry(e: A.WorkflowEntry) {
    match e
    case Item(name) => IsWord(name) && name != "schedule"
    case Cron(spec) => !Q.EndsInBackslash(spec)
    case Interval(spec) => !Q.EndsInBackslash(spec)
  }

  lemma {:induction false} WorkflowEntryRead(e: A.WorkflowEntry, rest: seq<Token>)
    requires GoodWorkflowEntry(e)
    ensures var ts := Toks(P.WorkflowPieces(e)) + rest;
      TakeWorkflowEntry(ts) == Some(Parsed(e, rest)) && !AtMark(ts, '}')
  {
    match e
    case Item(name) =>
      TokensOfOne(Piece(" ", Word(name), ""), rest);
      WordTaken(name, rest);
    case Cron(spec) =>
      TokensOfThree(P.Keyword(" ", "schedule"), P.Keyword("", "cron"), P.QuotedPiece("", spec, ""), rest);
      ThirdIsString(Word("schedule"), Word("cron"), spec, rest);
    case Interval(spec) =>
      TokensOfThree(P.Keyword(" ", "schedule"), P.Keyword("", "interval"), P.QuotedPiece("", spec, ""), rest);
      ThirdIsString(Word("schedule"), Word("interval"), spec, rest);
      assert |"interval"| != |"cron"|;
  }

  lemma {:induction false} ThirdIsString(a: Token, b: Token, spec: string, rest: seq<Token>)
    ensures var ts := [a] + ([b] + ([Str(Q.Quote(spec))] + rest));
      ts[0] == a && ts[1] == b && ts[2] == Str(Q.Quote(spec)) && ts[3..] == rest && Q.Captured(Q.Quote(spec)) == spec
  {
    Q.CaptureGivesBack(spec);
  }

  lemma {:induction false} WorkflowRead(es: seq<A.WorkflowEntry>, close: Piece, rest: seq<Token>)
    requires (forall e :: e in es ==> GoodWorkflowEntry(e)) && close.tok == Punct('}')
    ensures TakeWorkflow(Toks(P.WorkflowList(es) + [close]) + rest) == Some(Parsed(es, rest))
  {
    if es == [] {
      assert P.WorkflowList(es) + [close] == [close];
      TokensOfOne(close, rest);
      MarkSeen('}', rest);
    } else {
      var tail := P.WorkflowList(es[1..]) + [close];
      assert P.WorkflowList(es) + [close] == P.WorkflowPieces(es[0]) + tail;
      TokensJoin(P.WorkflowPieces(es[0]), tail, rest);
      WorkflowEntryRead(es[0], Toks(tail) + rest);
      WorkflowRead(es[1..], close, rest);
      assert [es[0]] + es[1..] == es;
    }
  }
}
