/** A file of the fragment is written well spaced, so lexing and parsing give its canonical form back. Blocks end in a
    line break and have an empty line between them; the pieces of a file are the dotenv line and the blocks in the
    order the formatter arranges them. */
module FileSpacing {
  import opened Config
  import opened Lexer
  import opened Layout
  import opened Parser
  import opened OrderEntries
  import opened ReadBack
  import opened ClauseReadBack
  import opened Spacing
  import opened ClauseSpacing
  import opened BodyReadBack
  import opened FileReadBack
  import S = Sorting
  import P = Printer
  import A = Ast
  import Q = Quoted

  lemma {:induction false} MembersWritten(ms: seq<A.SuiteEntry>, close: Piece)
    requires GoodMembers(ms) && CleanPiece(close) && !Open(close)
    ensures WellWritten(P.MemberPieces(ms) + [close])
  {
    LooseOne(close);
    if ms == [] {
      assert P.MemberPieces(ms) + [close] == [close];
    } else {
      var p := Piece("  ", Word(P.MemberText(ms[0])), "\n");
      LooseOne(p);
      MembersWritten(ms[1..], close);
      LooseJoin([p], P.MemberPieces(ms[1..]) + [close]);
      assert P.MemberPieces(ms) + [close] == [p] + (P.MemberPieces(ms[1..]) + [close]);
    }
  }

  lemma {:induction false} SettingWritten(e: A.ProfileEntry)
    requires GoodSetting(e)
    ensures WellWritten(P.SettingPieces(e))
  {
    match e
    case ProfileDotenv(paths) =>
      LowerIsWord("dotenv");
      LooseOne(P.Keyword("  ", "dotenv"));
      QuotedWordsLoose(paths, "\n");
      LooseJoin([P.Keyword("  ", "dotenv")], P.QuotedWords(paths, "\n"));
    case ProfileEnv(pairs) => EnvLoose(pairs, "  ");
  }

  lemma {:induction false} SettingsWritten(es: seq<A.ProfileEntry>, close: Piece)
    requires (forall i :: 0 <= i < |es| ==> GoodSetting(es[i])) && CleanPiece(close) && !Open(close)
    ensures WellWritten(P.SettingList(es) + [close])
  {
    LooseOne(close);
    if es == [] {
      assert P.SettingList(es) + [close] == [close];
    } else {
      SettingWritten(es[0]);
      SettingsWritten(es[1..], close);
      LooseJoin(P.SettingPieces(es[0]), P.SettingList(es[1..]) + [close]);
      assert P.SettingList(es) + [close] == P.SettingPieces(es[0]) + (P.SettingList(es[1..]) + [close]);
    }
  }

  lemma {:induction false} TargetWritten(name: string, form: A.TargetForm, before: string)
    requires GoodBlock(A.TargetBlock(name, form)) && AllSpaces(before)
    ensures WellWritten(P.TargetPieces(name, form, before))
  {
    if A.OnOneLine(A.TargetBlock(name, form)) {
      LineWritten(name, form.tokens, before);
    } else {
      BracesWritten(name, Ordered(BodyOf(form)), before);
    }
  }

  lemma {:induction false} LineWritten(name: string, tokens: seq<string>, before: string)
    requires IsWord(name) && GoodWords(tokens) && AllSpaces(before)
    ensures WellWritten(P.Words(["target", name, "cmd"] + tokens, before, "\n"))
  {
    LowerIsWord("target");
    LowerIsWord("cmd");
    assert GoodWords(["target", name, "cmd"]);
    WordsLoose(["target", name, "cmd"] + tokens, before, "\n");
  }

  lemma {:induction false} BracesWritten(name: string, body: seq<A.BodyEntry>, before: string)
    requires IsWord(name) && GoodEntries(body) && AllSpaces(before)
    ensures WellWritten(P.Header(before, "target", name) + (P.EntryList(body, "  ") + [P.Mark("", '}', "\n")]))
  {
    var close := P.Mark("", '}', "\n");
    LowerIsWord("target");
    EntriesWritten(body, "  ", close);
    HeaderLoose("target", name, before, P.EntryList(body, "  ") + [close]);
  }

  lemma {:induction false} BlockWritten(e: A.FileEntry, before: string)
    requires GoodBlock(e) && AllSpaces(before)
    ensures WellWritten(P.BlockPieces(e, before))
  {
    var close := P.Mark("", '}', "\n");
    match e
    case Import(path) =>
      LowerIsWord("import");
      QuotedIsClean("", path, "\n");
      LooseTwo(P.Keyword(before, "import"), P.QuotedPiece("", path, "\n"));
    case PrivateMarker =>
      LowerIsWord("private");
      WordsLoose(["private"], before, "\n");
    case SuiteBlock(name, members) =>
      LowerIsWord("suite");
      MembersWritten(S.SortBy(A.Raw, members), close);
      HeaderLoose("suite", name, before, P.MemberPieces(S.SortBy(A.Raw, members)) + [close]);
    case ProfileBlock(name, settings) =>
      LowerIsWord("profile");
      SettingsWritten(settings, close);
      HeaderLoose("profile", name, before, P.SettingList(settings) + [close]);
    case TargetBlock(name, form) => TargetWritten(name, form, before);
  }

  lemma {:induction false} BlocksWritten(es: seq<A.FileEntry>, before: string)
    requires (forall i :: 0 <= i < |es| ==> GoodBlock(es[i])) && AllSpaces(before)
    ensures WellWritten(P.BlockList(es, before))
  {
    if es != [] {
      BlockWritten(es[0], before);
      BlocksWritten(es[1..], "\n");
      LooseJoin(P.BlockPieces(es[0], before), P.BlockList(es[1..], "\n"));
    }
  }

  lemma {:induction false} DotenvWritten(files: seq<string>)
    requires GoodWords(files)
    ensures WellWritten(P.Words(["dotenv"] + files, "", "\n\n"))
  {
    LowerIsWord("dotenv");
    assert GoodWords(["dotenv"] + files);
    WordsLoose(["dotenv"] + files, "", "\n\n");
  }

  /** The formatted text of a file lexes to exactly the tokens that were written. */
  lemma {:induction false} FormattedLexes(ast: A.Bakefile)
    requires GoodWords(ast.dotenv) && forall e :: e in P.Arranged(ast.entries) ==> GoodBlock(e)
    ensures Lex(P.Format(ast)) == Some(Toks(P.FilePieces(ast)))
  {
    var blocks := P.BlockList(P.Arranged(ast.entries), "");
    BlocksWritten(P.Arranged(ast.entries), "");
    if ast.dotenv == [] {
      assert P.FilePieces(ast) == blocks;
    } else {
      DotenvWritten(ast.dotenv);
      LooseJoin(P.Words(["dotenv"] + ast.dotenv, "", "\n\n"), blocks);
    }
    LooseAndClosed(P.FilePieces(ast));
    SpacedLexes(P.FilePieces(ast));
  }

  /** Parsing what the formatter writes gives the canonical form of the file. */
  lemma {:induction false} FormatParses(ast: A.Bakefile)
    requires GoodFile(ast)
    ensures Parse(P.Format(ast)) == Some(Normal(ast))
  {
    FormattedLexes(ast);
    FileTokensParse(ast);
  }
}
