/** Clauses of the fragment are written well spaced: every token is one the lexer produces, whitespace stands around
    it, and a clause ends in a line break or a closing mark, so that no two tokens can run together when clauses are
    written one after the other. Daemon blocks, whose bodies are clauses again, follow in BodyReadBack. */
module ClauseSpacing {
  import opened Decimal
  import opened Lexer
  import opened Layout
  import opened ReadBack
  import opened ClauseReadBack
  import opened Spacing
  import P = Printer
  import A = Ast
  import Q = Quoted

  ghost predicate WellWritten(ps: seq<Piece>) {
    Loose(ps) && Closed(ps)
  }

  lemma {:induction false} LowerWords()
    ensures forall w ::
      w in ["desc", "deps", "when", "inputs", "outputs", "args", "env", "cwd", "tags", "private"] ==> IsWord(w)
    ensures forall w ::
      w in ["passthrough", "step", "name", "pool", "mutex", "image", "unsafe", "net", "vol", "cmd"] ==> IsWord(w)
  {
    forall w | w in ["desc", "deps", "when", "inputs", "outputs", "args", "env", "cwd", "tags", "private"]
      ensures IsWord(w)
    {
      LowerIsWord(w);
    }
    forall w | w in ["passthrough", "step", "name", "pool", "mutex", "image", "unsafe", "net", "vol", "cmd"]
      ensures IsWord(w)
    {
      LowerIsWord(w);
    }
  }

  lemma {:induction false} TwoWordsWritten(a: string, b: string, indent: string)
    requires IsWord(a) && IsWord(b) && AllSpaces(indent)
    ensures WellWritten(P.Words([a, b], indent, "\n"))
  {
    WordsLoose([a, b], indent, "\n");
  }

  /** A keyword and a name. */
  lemma {:induction false} NameClauseWritten(e: A.BodyEntry, name: string, indent: string)
    requires IsWord(name) && AllSpaces(indent)
    requires e == A.Cwd(name) || e == A.Pool(name) || e == A.Mutex(name) || e == A.ImageIdent(name) || e == A.Net(name)
    ensures WellWritten(P.ClausePieces(e, indent))
  {
    LowerWords();
    TwoWordsWritten(ClauseWord(e), name, indent);
  }

  lemma {:induction false} FlagClauseWritten(e: A.BodyEntry, indent: string)
    requires AllSpaces(indent) && (e.Private? || e.Unsafe?)
    ensures WellWritten(P.ClausePieces(e, indent))
  {
    LowerWords();
    WordsLoose([ClauseWord(e)], indent, "\n");
  }

  lemma {:induction false} WhenEnvWritten(e: A.BodyEntry, indent: string)
    requires e.WhenEnv? && IsWord(e.variable) && AllSpaces(indent)
    ensures WellWritten(P.ClausePieces(e, indent))
  {
    LowerWords();
    WordsLoose(["when", "env", e.variable], indent, "\n");
  }

  lemma {:induction false} ListClauseWritten(e: A.BodyEntry, indent: string)
    requires GoodClause(e) && AllSpaces(indent)
    requires e.Tags? || e.Args?
    ensures WellWritten(P.ClausePieces(e, indent))
  {
    LowerWords();
    var ws := if e.Tags? then ["tags"] + e.tags else P.ArgWords(e.name, e.typ, e.short, e.default);
    assert GoodWords(ws);
    WordsLoose(ws, indent, "\n");
  }

  lemma {:induction false} DepsWritten(e: A.BodyEntry, indent: string)
    requires GoodClause(e) && AllSpaces(indent) && e.Deps?
    ensures WellWritten(P.ClausePieces(e, indent))
  {
    LowerWords();
    LooseOne(P.Keyword(indent, "deps"));
    CommaWordsLoose(e.names, "\n");
    LooseJoin([P.Keyword(indent, "deps")], P.CommaWords(e.names, "\n"));
  }

  lemma {:induction false} TextClauseWritten(e: A.BodyEntry, indent: string)
    requires GoodClause(e) && AllSpaces(indent)
    requires e.Desc? || e.ImageString?
    ensures WellWritten(P.ClausePieces(e, indent))
  {
    LowerWords();
    var word, text := if e.Desc? then "desc" else "image", if e.Desc? then e.text else e.image;
    QuotedIsClean("", text, "\n");
    LooseTwo(P.Keyword(indent, word), P.QuotedPiece("", text, "\n"));
  }

  lemma {:induction false} PathClauseWritten(e: A.BodyEntry, indent: string)
    requires GoodClause(e) && AllSpaces(indent)
    requires e.Inputs? || e.Outputs? || e.WhenCmd?
    ensures WellWritten(P.ClausePieces(e, indent))
  {
    LowerWords();
    if e.WhenCmd? {
      LooseTwo(P.Keyword(indent, "when"), P.Keyword("", "cmd"));
      BracketedLoose(e.argv, "\n");
      LooseJoin([P.Keyword(indent, "when"), P.Keyword("", "cmd")], P.Bracketed(e.argv, "\n"));
    } else {
      var word := if e.Inputs? then "inputs" else "outputs";
      LooseOne(P.Keyword(indent, word));
      BracketedLoose(e.paths, "\n");
      LooseJoin([P.Keyword(indent, word)], P.Bracketed(e.paths, "\n"));
    }
  }

  lemma {:induction false} PassthroughWritten(slot: nat, slotName: string, indent: string)
    requires AllSpaces(indent) && !Q.EndsInBackslash(slotName)
    ensures WellWritten(P.PassthroughPieces(slot, slotName, indent))
  {
    LowerWords();
    var head := [P.Keyword(indent, "passthrough"), P.Keyword("", "step"), P.Mark("", '=', " ")];
    LooseThree(P.Keyword(indent, "passthrough"), P.Keyword("", "step"), P.Mark("", '=', " "));
    if slotName == "" {
      LooseOne(Piece("", Num(Text(slot)), "\n"));
      LooseJoin(head, [Piece("", Num(Text(slot)), "\n")]);
    } else {
      QuotedIsClean("", slotName, "\n");
      var tail := [Piece("", Num(Text(slot)), " "), P.Keyword("", "name"), P.QuotedPiece("", slotName, "\n")];
      LooseThree(Piece("", Num(Text(slot)), " "), P.Keyword("", "name"), P.QuotedPiece("", slotName, "\n"));
      LooseJoin(head, tail);
    }
  }

  lemma {:induction false} VolWritten(e: A.BodyEntry, indent: string)
    requires GoodClause(e) && AllSpaces(indent) && e.Vol?
    ensures WellWritten(P.ClausePieces(e, indent))
  {
    LowerWords();
    if e.hostPath == "" {
      assert GoodWords(["vol", e.name]);
      WordsLoose(["vol", e.name], indent, "\n");
    } else {
      QuotedIsClean("", e.hostPath, "\n");
      LooseThree(P.Keyword(indent, "vol"), P.Keyword("", e.name), P.QuotedPiece("", e.hostPath, "\n"));
    }
  }

  lemma {:induction false} BlockClauseWritten(e: A.BodyEntry, indent: string)
    requires GoodClause(e) && AllSpaces(indent)
    requires e.PresetBlock? || e.Workflow? || e.Env? || e.Steps? || e.OneStep?
    ensures WellWritten(P.ClausePieces(e, indent))
  {
    if e.PresetBlock? {
      PresetLoose(e.name, e.entries, indent);
    } else if e.Workflow? {
      WorkflowLoose(e.items, P.Mark(" ", '}', "\n"));
      LowerIsWord("workflow");
      BlockLoose("workflow", indent, P.WorkflowList(e.items) + [P.Mark(" ", '}', "\n")]);
    } else if e.Env? {
      EnvLoose(e.pairs, indent);
    } else if e.Steps? {
      StepsLoose(e.steps, indent);
    } else {
      StepLoose(e.step, indent, "\n");
    }
  }

  lemma {:induction false} ClauseWritten(e: A.BodyEntry, indent: string)
    requires GoodClause(e) && AllSpaces(indent) && !e.DaemonBlock?
    ensures WellWritten(P.ClausePieces(e, indent))
  {
    if e.Cwd? || e.Pool? || e.Mutex? || e.ImageIdent? || e.Net? {
      NameClauseWritten(e, if e.Cwd? then e.path else if e.ImageIdent? then e.image else e.name, indent);
    } else if e.Private? || e.Unsafe? {
      FlagClauseWritten(e, indent);
    } else if e.WhenEnv? {
      WhenEnvWritten(e, indent);
    } else if e.Tags? || e.Args? {
      ListClauseWritten(e, indent);
    } else if e.Deps? {
      DepsWritten(e, indent);
    } else if e.Desc? || e.ImageString? {
      TextClauseWritten(e, indent);
    } else if e.Inputs? || e.Outputs? || e.WhenCmd? {
      PathClauseWritten(e, indent);
    } else if e.Passthrough? {
      PassthroughWritten(e.slot, e.slotName, indent);
    } else if e.Vol? {
      VolWritten(e, indent);
    } else {
      BlockClauseWritten(e, indent);
    }
  }
}
