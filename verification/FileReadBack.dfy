/** Whole files: written well spaced and parsed back, block by block. What comes back is the canonical form: blocks in
    the order they are written, clauses in kind order, presets and profiles without the entries that are not written,
    suite members as identifiers. */
module FileReadBack {
  import opened Config
  import opened Lexer
  import opened Layout
  import opened Parser
  import opened OrderEntries
  import opened ReadBack
  import opened ClauseReadBack
  import opened Spacing
  import opened ClauseSpacing
  import opened BodyReadBack
  import S = Sorting
  import P = Printer
  import A = Ast
  import Q = Quoted

  // ------------------------------------------------------------------- the fragment

  ghost predicate GoodMembers(ms: seq<A.SuiteEntry>) {
    forall m :: m in ms ==> IsWord(P.MemberText(m))
  }

  ghost predicate GoodSetting(e: A.ProfileEntry) {
    match e
    case ProfileDotenv(paths) => GoodStrings(paths)
    case ProfileEnv(pairs) => GoodPairs(pairs)
  }

  predicate IsSet(e: A.ProfileEntry) {
    match e
    case ProfileDotenv(paths) => paths != []
    case ProfileEnv(pairs) => pairs != []
  }

  /** A dotenv line takes in every identifier and string that follows, so it must come last. */
  ghost predicate GoodSettings(es: seq<A.ProfileEntry>) {
    && (forall i :: 0 <= i < |es| ==> GoodSetting(es[i]))
    && (forall i, j :: 0 <= i < j < |es| && es[i].ProfileDotenv? && IsSet(es[i]) ==> !IsSet(es[j]))
  }

  function BodyOf(form: A.TargetForm): seq<A.BodyEntry> {
    if form.Braced? then form.body else []
  }

  ghost predicate GoodBlock(e: A.FileEntry) {
    match e
    case Import(path) => !Q.EndsInBackslash(path)
    case PrivateMarker => true
    case SuiteBlock(name, members) => IsWord(name) && GoodMembers(S.SortBy(A.Raw, members))
    case ProfileBlock(name, settings) => IsWord(name) && GoodSettings(settings)
    case TargetBlock(name, form) =>
      IsWord(name) && (if A.OnOneLine(e) then GoodWords(form.tokens) else GoodEntries(Ordered(BodyOf(form))))
  }

  /** Blocks as they are written; a single-line target takes in what follows, so it must come last. */
  ghost predicate GoodBlocks(es: seq<A.FileEntry>) {
    && (forall i :: 0 <= i < |es| ==> GoodBlock(es[i]))
    && (forall i :: 0 <= i < |es| - 1 ==> !A.OnOneLine(es[i]))
  }

  /** The leading dotenv line takes in every identifier that follows, so nothing may. */
  ghost predicate GoodFile(ast: A.Bakefile) {
    && GoodWords(ast.dotenv)
    && (ast.dotenv != [] ==> ast.entries == [])
    && GoodBlocks(P.Arranged(ast.entries))
  }

  // ------------------------------------------------------------------ what comes back

  function NormMembers(ms: seq<A.SuiteEntry>): seq<A.SuiteEntry> {
    if ms == [] then [] else [A.Bare(P.MemberText(ms[0]))] + NormMembers(ms[1..])
  }

  function NormSettings(es: seq<A.ProfileEntry>): seq<A.ProfileEntry> {
    if es == [] then [] else (if IsSet(es[0]) then [es[0]] else []) + NormSettings(es[1..])
  }

  function NormBlock(e: A.FileEntry): A.FileEntry {
    match e
    case Import(_) => e
    case PrivateMarker => e
    case SuiteBlock(name, members) => A.SuiteBlock(name, NormMembers(S.SortBy(A.Raw, members)))
    case ProfileBlock(name, settings) => A.ProfileBlock(name, NormSettings(settings))
    case TargetBlock(name, form) => if A.OnOneLine(e) then e
      else A.TargetBlock(name, A.Braced(NormEntries(Ordered(BodyOf(form)))))
  }

  function NormBlocks(es: seq<A.FileEntry>): seq<A.FileEntry> {
    if es == [] then [] else [NormBlock(es[0])] + NormBlocks(es[1..])
  }

  /** The canonical form: what parsing the formatted text returns. */
  function Normal(ast: A.Bakefile): A.Bakefile {
    A.Bakefile(ast.dotenv, NormBlocks(P.Arranged(ast.entries)))
  }

  // ------------------------------------------------------------------ suites, profiles

  lemma {:induction false} MembersRead(ms: seq<A.SuiteEntry>, close: Piece, rest: seq<Token>)
    requires close.tok == Punct('}')
    ensures TakeMembers(Toks(P.MemberPieces(ms) + [close]) + rest) == Some(Parsed(NormMembers(ms), rest))
  {
    if ms == [] {
      assert P.MemberPieces(ms) + [close] == [close];
      TokensOfOne(close, rest);
      MarkSeen('}', rest);
    } else {
      var p := Piece("  ", Word(P.MemberText(ms[0])), "\n");
      var tail := P.MemberPieces(ms[1..]) + [close];
      assert P.MemberPieces(ms) + [close] == [p] + tail;
      TokensJoin([p], tail, rest);
      TokensOfOne(p, Toks(tail) + rest);
      MembersRead(ms[1..], close, rest);
      assert ([p.tok] + (Toks(tail) + rest))[1..] == Toks(tail) + rest;
    }
  }

  lemma {:induction false} EnvIsNotDotenv()
    ensures "env" != "dotenv"
  {
  }

  lemma {:induction false} DotenvRead(paths: seq<string>, rest: seq<Token>)
    requires paths != [] && rest != [] && !rest[0].Word? && !rest[0].Str?
    ensures var ts := Toks(P.SettingPieces(A.ProfileDotenv(paths))) + rest;
      ts != [] && ts[0].Word? && TakeSetting(ts) == Some(Parsed(A.ProfileDotenv(paths), rest))
  {
    TokensJoin([P.Keyword("  ", "dotenv")], P.QuotedWords(paths, "\n"), rest);
    TokensOfOne(P.Keyword("  ", "dotenv"), Toks(P.QuotedWords(paths, "\n")) + rest);
    QuotedWordsRead(paths, "\n", rest);
    var more := Toks(P.QuotedWords(paths, "\n")) + rest;
    assert ([Word("dotenv")] + more)[1..] == more;
  }

  lemma {:induction false} EnvSettingRead(pairs: seq<A.EnvPair>, rest: seq<Token>)
    requires pairs != []
    ensures var ts := Toks(P.SettingPieces(A.ProfileEnv(pairs))) + rest;
      ts != [] && ts[0].Word? && TakeSetting(ts) == Some(Parsed(A.ProfileEnv(pairs), rest))
  {
    var more := EnvRead(pairs, "  ", rest);
    EnvIsNotDotenv();
    assert ([Word("env")] + more)[1..] == more;
  }

  lemma {:induction false} SettingsRead(es: seq<A.ProfileEntry>, close: Piece, rest: seq<Token>)
    requires GoodSettings(es) && close.tok == Punct('}')
    ensures var ts := Toks(P.SettingList(es) + [close]) + rest;
      && TakeSettings(ts) == Some(Parsed(NormSettings(es), rest))
      && ((forall i :: 0 <= i < |es| ==> !IsSet(es[i])) ==> ts == [Punct('}')] + rest)
  {
    if es == [] {
      assert P.SettingList(es) + [close] == [close];
      TokensOfOne(close, rest);
      MarkSeen('}', rest);
    } else {
      var tail := P.SettingList(es[1..]) + [close];
      assert P.SettingList(es) + [close] == P.SettingPieces(es[0]) + tail;
      assert GoodSettings(es[1..]);
      SettingsRead(es[1..], close, rest);
      if IsSet(es[0]) {
        TokensJoin(P.SettingPieces(es[0]), tail, rest);
        SettingRead(es[0], es[1..], Toks(tail) + rest, rest);
        var next := Toks(tail) + rest;
        OneMoreSetting(Toks(P.SettingPieces(es[0])) + next, es[0], next, NormSettings(es[1..]), rest);
      } else {
        assert P.SettingPieces(es[0]) + tail == tail;
        assert [] + NormSettings(es[1..]) == NormSettings(es[1..]);
      }
    }
  }

  lemma {:induction false} SettingRead(e: A.ProfileEntry, es: seq<A.ProfileEntry>, next: seq<Token>, rest: seq<Token>)
    requires IsSet(e) && (e.ProfileDotenv? ==> next == [Punct('}')] + rest)
    ensures var ts := Toks(P.SettingPieces(e)) + next;
      ts != [] && ts[0].Word? && TakeSetting(ts) == Some(Parsed(e, next))
  {
    match e
    case ProfileDotenv(paths) => DotenvRead(paths, next);
    case ProfileEnv(pairs) => EnvSettingRead(pairs, next);
  }

  lemma {:induction false} OneMoreSetting(ts: seq<Token>, e: A.ProfileEntry, next: seq<Token>, es: seq<A.ProfileEntry>,
                                          rest: seq<Token>)
    requires ts != [] && ts[0].Word? && TakeSetting(ts) == Some(Parsed(e, next))
    requires TakeSettings(next) == Some(Parsed(es, rest))
    ensures TakeSettings(ts) == Some(Parsed([e] + es, rest))
  {
  }

  // -------------------------------------------------------------------------- blocks

  function BlockWord(e: A.FileEntry): string {
    match e
    case Import(_) => "import"
    case PrivateMarker => "private"
    case SuiteBlock(_, _) => "suite"
    case ProfileBlock(_, _) => "profile"
    case TargetBlock(_, _) => "target"
  }

  /** Behind the word a block starts with. */
  function TakeBlockOf(e: A.FileEntry, ts: seq<Token>): Option<Parsed<A.FileEntry>> {
    match e
    case Import(_) =>
      (match TakeString(ts)
       case None => None
       case Some(q) => Some(Parsed(A.Import(q.value), q.rest)))
    case PrivateMarker => Some(Parsed(A.PrivateMarker, ts))
    case SuiteBlock(_, _) => TakeSuite(ts)
    case ProfileBlock(_, _) => TakeProfile(ts)
    case TargetBlock(_, _) => TakeTarget(ts)
  }

  lemma {:induction false} BlockWordsDiffer()
    ensures "import" != "suite" && "import" != "target" && "import" != "profile" && "import" != "private"
    ensures "suite" != "target" && "suite" != "profile" && "suite" != "private"
    ensures "target" != "profile" && "target" != "private" && "profile" != "private"
    ensures "import" != "dotenv" && "suite" != "dotenv" && "target" != "dotenv" && "profile" != "dotenv"
      && "private" != "dotenv"
  {
    assert "import"[0] != "target"[0] && "import"[0] != "dotenv"[0] && "target"[0] != "dotenv"[0];
    assert "profile"[2] != "private"[2];
  }

  lemma {:induction false} BlockFound(e: A.FileEntry, more: seq<Token>)
    ensures TakeBlock([Word(BlockWord(e))] + more) == TakeBlockOf(e, more)
    ensures !AtWord([Word(BlockWord(e))] + more, "dotenv")
  {
    BlockWordsDiffer();
    assert ([Word(BlockWord(e))] + more)[1..] == more;
  }

  lemma {:induction false} ImportTaken(path: string, before: string, rest: seq<Token>) returns (more: seq<Token>)
    ensures Toks(P.BlockPieces(A.Import(path), before)) + rest == [Word("import")] + more
    ensures TakeBlockOf(A.Import(path), more) == Some(Parsed(A.Import(path), rest))
  {
    TokensOfTwo(P.Keyword(before, "import"), P.QuotedPiece("", path, "\n"), rest);
    StringTaken(path, rest);
    more := [Str(Q.Quote(path))] + rest;
  }

  /** A header, then what is inside the braces. */
  lemma {:induction false} HeaderTokens(word: string, name: string, before: string, tail: seq<Piece>, rest: seq<Token>)
    ensures Toks(P.Header(before, word, name) + tail) + rest ==
      [Word(word)] + ([Word(name)] + ([Punct('{')] + (Toks(tail) + rest)))
    ensures TakeWord([Word(name)] + ([Punct('{')] + (Toks(tail) + rest))) ==
      Some(Parsed(name, [Punct('{')] + (Toks(tail) + rest)))
    ensures AtMark([Punct('{')] + (Toks(tail) + rest), '{')
    ensures ([Punct('{')] + (Toks(tail) + rest))[1..] == Toks(tail) + rest
  {
    TokensJoin(P.Header(before, word, name), tail, rest);
    TokensOfThree(P.Keyword(before, word), P.Keyword("", name), P.Mark("", '{', "\n"), Toks(tail) + rest);
    WordTaken(name, [Punct('{')] + (Toks(tail) + rest));
    MarkSeen('{', Toks(tail) + rest);
  }

  lemma {:induction false} SuiteTaken(name: string, ms: seq<A.SuiteEntry>, before: string, rest: seq<Token>)
    returns (more: seq<Token>)
    ensures Toks(P.BlockPieces(A.SuiteBlock(name, ms), before)) + rest == [Word("suite")] + more
    ensures TakeSuite(more) == Some(Parsed(NormBlock(A.SuiteBlock(name, ms)), rest))
  {
    var tail := P.MemberPieces(S.SortBy(A.Raw, ms)) + [P.Mark("", '}', "\n")];
    HeaderTokens("suite", name, before, tail, rest);
    MembersRead(S.SortBy(A.Raw, ms), P.Mark("", '}', "\n"), rest);
    more := [Word(name)] + ([Punct('{')] + (Toks(tail) + rest));
  }

  lemma {:induction false} ProfileTaken(name: string, es: seq<A.ProfileEntry>, before: string, rest: seq<Token>)
    returns (more: seq<Token>)
    requires GoodSettings(es)
    ensures Toks(P.BlockPieces(A.ProfileBlock(name, es), before)) + rest == [Word("profile")] + more
    ensures TakeProfile(more) == Some(Parsed(NormBlock(A.ProfileBlock(name, es)), rest))
  {
    var tail := P.SettingList(es) + [P.Mark("", '}', "\n")];
    HeaderTokens("profile", name, before, tail, rest);
    SettingsRead(es, P.Mark("", '}', "\n"), rest);
    more := [Word(name)] + ([Punct('{')] + (Toks(tail) + rest));
  }

  lemma {:induction false} TargetTaken(name: string, form: A.TargetForm, before: string, rest: seq<Token>)
    returns (more: seq<Token>)
    requires GoodBlock(A.TargetBlock(name, form)) && (A.OnOneLine(A.TargetBlock(name, form)) ==> rest == [])
    ensures Toks(P.TargetPieces(name, form, before)) + rest == [Word("target")] + more
    ensures TakeTarget(more) == Some(Parsed(NormBlock(A.TargetBlock(name, form)), rest))
  {
    if A.OnOneLine(A.TargetBlock(name, form)) {
      more := LineTaken(name, form.tokens, before, rest);
    } else {
      var body := Ordered(BodyOf(form));
      var tail := P.EntryList(body, "  ") + [P.Mark("", '}', "\n")];
      HeaderTokens("target", name, before, tail, rest);
      EntriesRead(body, "  ", P.Mark("", '}', "\n"), rest);
      more := [Word(name)] + ([Punct('{')] + (Toks(tail) + rest));
    }
  }

  lemma {:induction false} LineTaken(name: string, tokens: seq<string>, before: string, rest: seq<Token>)
    returns (more: seq<Token>)
    requires EndsWords(rest)
    ensures Toks(P.Words(["target", name, "cmd"] + tokens, before, "\n")) + rest == [Word("target")] + more
    ensures TakeTarget(more) == Some(Parsed(A.TargetBlock(name, A.SingleLine(tokens)), rest))
  {
    LineUnfold(name, tokens, before, rest);
    WordsRead(tokens, "", "\n", rest);
    var tail := Toks(P.Words(tokens, "", "\n")) + rest;
    more := [Word(name)] + ([Word("cmd")] + tail);
    CommandTaken(name, tokens, tail, rest);
  }

  lemma {:induction false} CommandTaken(name: string, tokens: seq<string>, tail: seq<Token>, rest: seq<Token>)
    requires TakeWords(tail) == Parsed(tokens, rest)
    ensures TakeTarget([Word(name)] + ([Word("cmd")] + tail)) ==
      Some(Parsed(A.TargetBlock(name, A.SingleLine(tokens)), rest))
  {
    WordTaken(name, [Word("cmd")] + tail);
    NoMark(Word("cmd"), tail);
    assert ([Word("cmd")] + tail)[1..] == tail;
  }

  lemma {:induction false} LineUnfold(name: string, tokens: seq<string>, before: string, rest: seq<Token>)
    ensures Toks(P.Words(["target", name, "cmd"] + tokens, before, "\n")) + rest ==
      [Word("target")] + ([Word(name)] + ([Word("cmd")] + (Toks(P.Words(tokens, "", "\n")) + rest)))
  {
    var ws := ["target", name, "cmd"] + tokens;
    WordsUnfold(ws, before, "\n", rest);
    assert ws[1..] == [name, "cmd"] + tokens;
    WordsUnfold(ws[1..], "", "\n", rest);
    assert ws[1..][1..] == ["cmd"] + tokens;
    WordsUnfold(ws[1..][1..], "", "\n", rest);
    assert ws[1..][1..][1..] == tokens;
  }

  lemma {:induction false} BlockRead(e: A.FileEntry, before: string, rest: seq<Token>)
    requires GoodBlock(e) && (A.OnOneLine(e) ==> rest == [])
    ensures var ts := Toks(P.BlockPieces(e, before)) + rest;
      ts != [] && !AtWord(ts, "dotenv") && TakeBlock(ts) == Some(Parsed(NormBlock(e), rest))
  {
    var more: seq<Token>;
    match e
    case Import(path) =>
      more := ImportTaken(path, before, rest);
      BlockFound(e, more);
    case PrivateMarker =>
      TokensOfOne(Piece(before, Word("private"), "\n"), rest);
      BlockFound(e, rest);
    case SuiteBlock(name, members) =>
      more := SuiteTaken(name, members, before, rest);
      BlockFound(e, more);
    case ProfileBlock(name, settings) =>
      more := ProfileTaken(name, settings, before, rest);
      BlockFound(e, more);
    case TargetBlock(name, form) =>
      more := TargetTaken(name, form, before, rest);
      BlockFound(e, more);
  }

  lemma {:induction false} BlocksRead(es: seq<A.FileEntry>, before: string)
    requires GoodBlocks(es)
    ensures var ts := Toks(P.BlockList(es, before)); TakeBlocks(ts) == Some(NormBlocks(es)) && !AtWord(ts, "dotenv")
    ensures es == [] <==> Toks(P.BlockList(es, before)) == []
  {
    if es != [] {
      var tail := P.BlockList(es[1..], "\n");
      ToksSplit(P.BlockPieces(es[0], before), tail);
      assert GoodBlocks(es[1..]);
      BlocksRead(es[1..], "\n");
      BlockRead(es[0], before, Toks(tail));
    }
  }

  lemma {:induction false} FileTokensParse(ast: A.Bakefile)
    requires GoodFile(ast)
    ensures ParseTokens(Toks(P.FilePieces(ast))) == Some(Normal(ast))
  {
    var blocks := P.BlockList(P.Arranged(ast.entries), "");
    BlocksRead(P.Arranged(ast.entries), "");
    if ast.dotenv == [] {
      assert P.FilePieces(ast) == blocks;
    } else {
      assert P.Arranged(ast.entries) == [];
      assert P.FilePieces(ast) == P.Words(["dotenv"] + ast.dotenv, "", "\n\n");
      WordsUnfold(["dotenv"] + ast.dotenv, "", "\n\n", []);
      assert (["dotenv"] + ast.dotenv)[1..] == ast.dotenv;
      WordsRead(ast.dotenv, "", "\n\n", []);
      var tail := Toks(P.Words(ast.dotenv, "", "\n\n")) + [];
      assert Toks(P.FilePieces(ast)) + [] == Toks(P.FilePieces(ast));
      assert ([Word("dotenv")] + tail)[1..] == tail;
    }
  }
}
