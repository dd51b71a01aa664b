/** Why the round trip is stated on a fragment: an open list of identifiers takes in the keyword behind it. */
module Ambiguities {
  import opened Config
  import opened Lexer
  import opened Layout
  import opened Parser
  import opened ReadBack
  import opened ClauseReadBack
  import opened FileReadBack
  import opened FileSpacing
  import P = Printer
  import A = Ast

  /** Written words followed by any identifier are read back as a longer list. */
  lemma {:induction false} OpenListSwallows(ws: seq<string>, before: string, after: string, rest: seq<Token>)
    requires rest != [] && rest[0].Word?
    ensures var r := TakeWords(Toks(P.Words(ws, before, after)) + rest);
      |r.value| > |ws| && r.value[..|ws|] == ws && r.value[|ws|] == rest[0].text
  {
    if ws == [] {
      assert Toks(P.Words(ws, before, after)) + rest == rest;
    } else {
      WordsUnfold(ws, before, after, rest);
      var more := Toks(P.Words(ws[1..], "", after)) + rest;
      OpenListSwallows(ws[1..], "", after, rest);
      assert ([Word(ws[0])] + more)[1..] == more;
      assert ws == [ws[0]] + ws[1..];
    }
  }

  /** A tags clause that another clause follows comes back with that clause's keyword as a tag. */
  lemma {:induction false} TagsSwallow(tags: seq<string>, indent: string, e: A.BodyEntry, rest: seq<Token>)
    requires rest != [] && rest[0] == Word(ClauseWord(e))
    ensures var r := TakeEntry(Toks(P.ClausePieces(A.Tags(tags), indent)) + rest);
      r.Some? && r.value.value.Tags? && |r.value.value.tags| > |tags| && r.value.value.tags[|tags|] == ClauseWord(e)
  {
    var more := Toks(P.Words(tags, "", "\n")) + rest;
    TagsUnfold(tags, indent, rest);
    OpenListSwallows(tags, "", "\n", rest);
    TagsFound(more);
  }

  lemma {:induction false} TagsUnfold(tags: seq<string>, indent: string, rest: seq<Token>)
    ensures Toks(P.ClausePieces(A.Tags(tags), indent)) + rest == [Word("tags")] + (Toks(P.Words(tags, "", "\n")) + rest)
  {
    WordsUnfold(["tags"] + tags, indent, "\n", rest);
    assert (["tags"] + tags)[1..] == tags;
  }

  lemma {:induction false} TagsFound(more: seq<Token>)
    ensures TakeEntry([Word("tags")] + more) == Some(Parsed(A.Tags(TakeWords(more).value), TakeWords(more).rest))
  {
    SettingsAreKeywords();
    WordTaken("tags", more);
  }

  lemma {:induction false} FourWords(a: string, b: string, c: string, d: string, indent: string, rest: seq<Token>)
    ensures Toks(P.Words([a, b, c, d], indent, "\n")) + rest ==
      [Word(a)] + ([Word(b)] + ([Word(c)] + ([Word(d)] + rest)))
  {
    WordsUnfold([a, b, c, d], indent, "\n", rest);
    assert [a, b, c, d][1..] == [b, c, d];
    WordsUnfold([b, c, d], "", "\n", rest);
    assert [b, c, d][1..] == [c, d];
    TwoWords(c, d, "", rest);
  }

  /** An argument with a default but no short name comes back with the default as its short name. */
  lemma {:induction false} DefaultBecomesShort(name: string, typ: string, default: string, indent: string,
                                               rest: seq<Token>)
    requires default != "" && EndsWords(rest)
    ensures TakeEntry(Toks(P.Words(P.ArgWords(name, typ, "", default), indent, "\n")) + rest)
         == Some(Parsed(A.Args(name, typ, default, ""), rest))
  {
    assert P.ArgWords(name, typ, "", default) == ["args", name, typ, default];
    FourWords("args", name, typ, default, indent, rest);
    ThreeArgs(name, typ, default, rest);
    ArgsFound([Word(name)] + ([Word(typ)] + ([Word(default)] + rest)));
  }

  lemma {:induction false} ArgsFound(more: seq<Token>)
    ensures TakeEntry([Word("args")] + more) == TakeArgs(more)
  {
    PathsAreKeywords();
    WordTaken("args", more);
  }

  lemma {:induction false} BlocksBeginWithWord(es: seq<A.FileEntry>, before: string)
    requires es != [] && GoodBlock(es[0])
    ensures Toks(P.BlockList(es, before)) != [] && Toks(P.BlockList(es, before))[0].Word?
  {
    ToksSplit(P.BlockPieces(es[0], before), P.BlockList(es[1..], "\n"));
    var e := es[0];
    if e.TargetBlock? && A.OnOneLine(e) {
      WordsUnfold(["target", e.name, "cmd"] + e.form.tokens, before, "\n", []);
    }
    assert P.BlockPieces(e, before) != [] && P.BlockPieces(e, before)[0].tok.Word?;
  }

  /** The tokens of a written file with a dotenv line. */
  lemma {:induction false} DotenvTokens(ast: A.Bakefile)
    requires ast.dotenv != []
    ensures Toks(P.FilePieces(ast)) ==
      [Word("dotenv")] + (Toks(P.Words(ast.dotenv, "", "\n\n")) + Toks(P.BlockList(P.Arranged(ast.entries), "")))
  {
    var blocks := P.BlockList(P.Arranged(ast.entries), "");
    ToksSplit(P.Words(["dotenv"] + ast.dotenv, "", "\n\n"), blocks);
    WordsUnfold(["dotenv"] + ast.dotenv, "", "\n\n", Toks(blocks));
    assert (["dotenv"] + ast.dotenv)[1..] == ast.dotenv;
  }

  lemma {:induction false} DotenvParsed(tail: seq<Token>)
    ensures var ws := TakeWords(tail);
      ParseTokens([Word("dotenv")] + tail) ==
        match TakeBlocks(ws.rest) case None => None case Some(es) => Some(A.Bakefile(ws.value, es))
  {
    assert ([Word("dotenv")] + tail)[1..] == tail;
  }

  /** A dotenv line with blocks behind it takes in the keyword of the first block. */
  lemma {:induction false} DotenvSwallows(ast: A.Bakefile)
    requires ast.dotenv != [] && P.Arranged(ast.entries) != [] && GoodBlocks(P.Arranged(ast.entries))
    ensures ParseTokens(Toks(P.FilePieces(ast))) != Some(Normal(ast))
  {
    var blocks := Toks(P.BlockList(P.Arranged(ast.entries), ""));
    DotenvTokens(ast);
    DotenvParsed(Toks(P.Words(ast.dotenv, "", "\n\n")) + blocks);
    BlocksBeginWithWord(P.Arranged(ast.entries), "");
    OpenListSwallows(ast.dotenv, "", "\n\n", blocks);
  }

  lemma {:induction false} DotenvAlone(ast: A.Bakefile)
    requires GoodWords(ast.dotenv) && ast.dotenv != [] && P.Arranged(ast.entries) == []
    ensures ParseTokens(Toks(P.FilePieces(ast))) == Some(Normal(ast))
  {
    DotenvTokens(ast);
    WordsRead(ast.dotenv, "", "\n\n", []);
    DotenvParsed(Toks(P.Words(ast.dotenv, "", "\n\n")) + []);
    BlocksRead([], "");
  }

  /** The leading dotenv line, exactly: when every block is written and read back on its own, the file comes back
      if and only if it has no dotenv line or nothing behind it. */
  lemma {:induction false} DotenvExactly(ast: A.Bakefile)
    requires GoodWords(ast.dotenv) && GoodBlocks(P.Arranged(ast.entries))
    ensures Parse(P.Format(ast)) == Some(Normal(ast)) <==> ast.dotenv == [] || P.Arranged(ast.entries) == []
  {
    FormattedLexes(ast);
    if ast.dotenv == [] {
      BlocksRead(P.Arranged(ast.entries), "");
      assert P.FilePieces(ast) == P.BlockList(P.Arranged(ast.entries), "");
    } else if P.Arranged(ast.entries) == [] {
      DotenvAlone(ast);
    } else {
      DotenvSwallows(ast);
    }
  }
}
