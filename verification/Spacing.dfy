/** What the formatter writes for the fragment is well spaced, so the lexer finds exactly the written tokens. Parts of a
    clause may end in an open word; it is closed by what the formatter writes next, punctuation or a piece that
    begins with whitespace. */
module Spacing {
  import opened Decimal
  import opened Lexer
  import opened Layout
  import opened ReadBack
  import opened ClauseReadBack
  import P = Printer
  import A = Ast
  import Q = Quoted

  // ------------------------------------------------------------------- building blocks

  ghost predicate CleanPiece(p: Piece) {
    Clean(p.tok) && AllSpaces(p.before) && AllSpaces(p.after)
  }

  predicate Separates(p: Piece) {
    p.tok.Punct? || p.before != []
  }

  /** Well spaced, except that the last piece may still be open. */
  ghost predicate Loose(ps: seq<Piece>) {
    && (forall i :: 0 <= i < |ps| ==> CleanPiece(ps[i]))
    && (forall i :: 0 <= i < |ps| - 1 && Open(ps[i]) ==> Separates(ps[i + 1]))
  }

  predicate Closed(ps: seq<Piece>) {
    ps == [] || !Open(ps[|ps| - 1])
  }

  lemma {:induction false} LooseAndClosed(ps: seq<Piece>)
    requires Loose(ps) && Closed(ps)
    ensures Spaced(ps)
  {
    forall i | 0 <= i < |ps| ensures Clean(ps[i].tok) && AllSpaces(ps[i].before) && AllSpaces(ps[i].after) {
      assert CleanPiece(ps[i]);
    }
  }

  lemma {:induction false} LooseJoin(a: seq<Piece>, b: seq<Piece>)
    requires Loose(a) && Loose(b) && (Closed(a) || (b != [] && Separates(b[0])))
    ensures Loose(a + b)
    ensures b != [] ==> (Closed(a + b) <==> Closed(b))
    ensures a != [] ==> (a + b)[0] == a[0]
    ensures Closed(a) && Closed(b) ==> Closed(a + b)
  {
  }

  lemma {:induction false} LooseOne(p: Piece)
    requires CleanPiece(p)
    ensures Loose([p]) && Closed([p]) == !Open(p)
  {
  }

  lemma {:induction false} LooseTwo(p: Piece, q: Piece)
    requires CleanPiece(p) && CleanPiece(q) && (Open(p) ==> Separates(q))
    ensures Loose([p, q]) && Closed([p, q]) == !Open(q)
  {
  }

  lemma {:induction false} LooseThree(p: Piece, q: Piece, r: Piece)
    requires CleanPiece(p) && CleanPiece(q) && CleanPiece(r) && !Open(p) && !Open(q)
    ensures Loose([p, q, r]) && Closed([p, q, r]) == !Open(r)
  {
  }

  lemma {:induction false} QuotedIsClean(before: string, s: string, after: string)
    requires AllSpaces(before) && AllSpaces(after) && !Q.EndsInBackslash(s)
    ensures CleanPiece(P.QuotedPiece(before, s, after)) && !Open(P.QuotedPiece(before, s, after))
  {
    Q.CaptureGivesBack(s);
  }

  // ------------------------------------------------------------------------ keywords

  /** A lower-case word is an identifier. */
  predicate IsLower(w: string) {
    w != [] && forall i :: 0 <= i < |w| ==> 'a' <= w[i] <= 'z'
  }

  lemma {:induction false} LowerIsWord(w: string)
    requires IsLower(w)
    ensures IsWord(w)
  {
  }

  // --------------------------------------------------------------------------- lists

  lemma {:induction false} WordsLoose(ws: seq<string>, before: string, after: string)
    requires GoodWords(ws) && AllSpaces(before) && AllSpaces(after)
    ensures Loose(P.Words(ws, before, after)) && (after != [] ==> Closed(P.Words(ws, before, after)))
    ensures ws != [] ==> P.Words(ws, before, after) != [] && P.Words(ws, before, after)[0].before == before
  {
    if |ws| == 1 {
      LooseOne(Piece(before, Word(ws[0]), after));
    } else if ws != [] {
      LooseOne(Piece(before, Word(ws[0]), " "));
      WordsLoose(ws[1..], "", after);
      LooseJoin([Piece(before, Word(ws[0]), " ")], P.Words(ws[1..], "", after));
    }
  }

  lemma {:induction false} ElementsLoose(es: seq<string>, after: string)
    requires GoodStrings(es) && AllSpaces(after)
    ensures Loose(P.Elements(es, after)) && Closed(P.Elements(es, after))
  {
    if es == [] {
      LooseOne(P.Mark("", ']', after));
    } else {
      QuotedIsClean("", es[0], "");
      if |es| == 1 {
        LooseTwo(P.QuotedPiece("", es[0], ""), P.Mark("", ']', after));
      } else {
        LooseTwo(P.QuotedPiece("", es[0], ""), P.Mark("", ',', " "));
        ElementsLoose(es[1..], after);
        LooseJoin([P.QuotedPiece("", es[0], ""), P.Mark("", ',', " ")], P.Elements(es[1..], after));
      }
    }
  }

  lemma {:induction false} BracketedLoose(es: seq<string>, after: string)
    requires GoodStrings(es) && AllSpaces(after)
    ensures Loose(P.Bracketed(es, after)) && Closed(P.Bracketed(es, after))
  {
    LooseOne(P.Mark("", '[', ""));
    ElementsLoose(es, after);
    LooseJoin([P.Mark("", '[', "")], P.Elements(es, after));
  }

  lemma {:induction false} CommaWordsLoose(names: seq<string>, after: string)
    requires names != [] && GoodWords(names) && AllSpaces(after) && after != []
    ensures Loose(P.CommaWords(names, after)) && Closed(P.CommaWords(names, after))
  {
    if |names| == 1 {
      LooseOne(Piece("", Word(names[0]), after));
    } else {
      LooseTwo(Piece("", Word(names[0]), ""), P.Mark("", ',', " "));
      CommaWordsLoose(names[1..], after);
      LooseJoin([Piece("", Word(names[0]), ""), P.Mark("", ',', " ")], P.CommaWords(names[1..], after));
    }
  }

  lemma {:induction false} QuotedWordsLoose(paths: seq<string>, after: string)
    requires GoodStrings(paths) && AllSpaces(after)
    ensures Loose(P.QuotedWords(paths, after)) && Closed(P.QuotedWords(paths, after))
  {
    if paths != [] {
      QuotedIsClean("", paths[0], after);
      QuotedIsClean("", paths[0], " ");
      if |paths| == 1 {
        LooseOne(P.QuotedPiece("", paths[0], after));
      } else {
        LooseOne(P.QuotedPiece("", paths[0], " "));
        QuotedWordsLoose(paths[1..], after);
        LooseJoin([P.QuotedPiece("", paths[0], " ")], P.QuotedWords(paths[1..], after));
      }
    }
  }

  lemma {:induction false} PairsLoose(pairs: seq<A.EnvPair>, close: Piece)
    requires GoodPairs(pairs) && CleanPiece(close) && close.tok.Punct?
    ensures Loose(P.PairPieces(pairs) + [close]) && Closed(P.PairPieces(pairs) + [close])
    ensures Separates((P.PairPieces(pairs) + [close])[0])
  {
    LooseOne(close);
    if pairs == [] {
      assert P.PairPieces(pairs) + [close] == [close];
    } else {
      var k, v := P.Keyword(" ", pairs[0].key), P.ValuePiece(pairs[0].value);
      var tail := P.PairPieces(pairs[1..]) + [close];
      if P.NeedsQuoting(pairs[0].value) {
        QuotedIsClean("", pairs[0].value, "");
      }
      LooseTwo(k, v);
      PairsLoose(pairs[1..], close);
      LooseJoin([k, v], tail);
      assert P.PairPieces(pairs) + [close] == [k, v] + tail;
    }
  }

  /** Keyword, opening mark, content and closing mark. */
  lemma {:induction false} BlockLoose(word: string, indent: string, inner: seq<Piece>)
    requires IsWord(word) && AllSpaces(indent) && Loose(inner) && Closed(inner)
    ensures Loose([P.Keyword(indent, word), P.Mark("", '{', "")] + inner)
    ensures Closed([P.Keyword(indent, word), P.Mark("", '{', "")] + inner)
  {
    LooseTwo(P.Keyword(indent, word), P.Mark("", '{', ""));
    LooseJoin([P.Keyword(indent, word), P.Mark("", '{', "")], inner);
  }

  lemma {:induction false} HeaderLoose(word: string, name: string, before: string, inner: seq<Piece>)
    requires IsWord(word) && IsWord(name) && AllSpaces(before) && Loose(inner) && Closed(inner)
    ensures Loose(P.Header(before, word, name) + inner) && Closed(P.Header(before, word, name) + inner)
  {
    LooseThree(P.Keyword(before, word), P.Keyword("", name), P.Mark("", '{', "\n"));
    LooseJoin(P.Header(before, word, name), inner);
  }

  lemma {:induction false} EnvLoose(pairs: seq<A.EnvPair>, indent: string)
    requires GoodPairs(pairs) && AllSpaces(indent)
    ensures Loose(P.EnvPieces(pairs, indent)) && Closed(P.EnvPieces(pairs, indent))
  {
    PairsLoose(pairs, P.Mark(" ", '}', "\n"));
    LowerIsWord("env");
    BlockLoose("env", indent, P.PairPieces(pairs) + [P.Mark(" ", '}', "\n")]);
  }

  // --------------------------------------------------------------------------- steps

  lemma {:induction false} StepLoose(s: A.Step, before: string, after: string)
    requires GoodStep(s) && AllSpaces(before) && AllSpaces(after)
    ensures Loose(P.StepPieces(s, before, after))
    ensures !s.Cmd? || after != [] ==> Closed(P.StepPieces(s, before, after))
  {
    LowerIsWord("exec");
    LowerIsWord("cmd");
    LowerIsWord("shell");
    match s
    case Exec(argv) =>
      LooseOne(P.Keyword(before, "exec"));
      BracketedLoose(argv, after);
      LooseJoin([P.Keyword(before, "exec")], P.Bracketed(argv, after));
    case Cmd(tokens) =>
      WordsLoose(["cmd"] + tokens, before, after);
    case Shell(runner, script) =>
      QuotedIsClean("", script, after);
      LooseThree(P.Keyword(before, "shell"), P.Keyword("", runner), P.QuotedPiece("", script, after));
  }

  lemma {:induction false} StepListLoose(steps: seq<A.Step>, before: string, close: Piece)
    requires GoodSteps(steps) && AllSpaces(before) && CleanPiece(close) && close.tok.Punct?
    ensures Loose(P.StepList(steps, before) + [close]) && Closed(P.StepList(steps, before) + [close])
  {
    LooseOne(close);
    if steps == [] {
      assert P.StepList(steps, before) + [close] == [close];
    } else {
      var head, tail := P.StepPieces(steps[0], before, ""), P.StepList(steps[1..], before) + [close];
      StepLoose(steps[0], before, "");
      StepListLoose(steps[1..], before, close);
      if |steps| == 1 {
        assert tail == [close];
      }
      LooseJoin(head, tail);
      assert P.StepList(steps, before) + [close] == head + tail;
    }
  }

  lemma {:induction false} StepsLoose(steps: seq<A.Step>, indent: string)
    requires GoodSteps(steps) && AllSpaces(indent)
    ensures Loose(P.StepsPieces(steps, indent)) && Closed(P.StepsPieces(steps, indent))
  {
    var inner := if |steps| == 1 then " " else "\n" + indent + "  ";
    var outer := if |steps| <= 1 then " " else "\n" + indent;
    StepListLoose(steps, inner, P.Mark(outer, '}', "\n"));
    LowerIsWord("steps");
    BlockLoose("steps", indent, P.StepList(steps, inner) + [P.Mark(outer, '}', "\n")]);
  }

  // ------------------------------------------------------------- presets and workflows

  lemma {:induction false} PresetEntryLoose(e: A.PresetEntry, indent: string)
    requires GoodPresetEntry(e) && AllSpaces(indent)
    ensures Loose(P.PresetEntryPieces(e, indent)) && Closed(P.PresetEntryPieces(e, indent))
  {
    LowerIsWord("desc");
    LowerIsWord("argv");
    match e
    case PresetDesc(text) =>
      QuotedIsClean("", text, "\n");
      LooseTwo(P.Keyword(indent, "desc"), P.QuotedPiece("", text, "\n"));
    case PresetSteps(steps) => StepsLoose(steps, indent);
    case PresetArgv(argv) =>
      LooseOne(P.Keyword(indent, "argv"));
      BracketedLoose(argv, "\n");
      LooseJoin([P.Keyword(indent, "argv")], P.Bracketed(argv, "\n"));
    case PresetEnv(pairs) => EnvLoose(pairs, indent);
  }

  lemma {:induction false} PresetEntriesLoose(es: seq<A.PresetEntry>, indent: string)
    requires (forall e :: e in es ==> GoodPresetEntry(e)) && AllSpaces(indent)
    ensures Loose(P.PresetEntryList(es, indent)) && Closed(P.PresetEntryList(es, indent))
  {
    if es != [] {
      PresetEntryLoose(es[0], indent);
      PresetEntriesLoose(es[1..], indent);
      LooseJoin(P.PresetEntryPieces(es[0], indent), P.PresetEntryList(es[1..], indent));
    }
  }

  lemma {:induction false} PresetLoose(name: string, es: seq<A.PresetEntry>, indent: string)
    requires IsWord(name) && (forall e :: e in es ==> GoodPresetEntry(e)) && AllSpaces(indent)
    ensures var ps := P.Header(indent, "preset", name) +
      (P.PresetEntryList(es, indent + "  ") + [P.Mark(indent, '}', "\n")]);
      Loose(ps) && Closed(ps)
  {
    PresetEntriesLoose(es, indent + "  ");
    LooseOne(P.Mark(indent, '}', "\n"));
    LooseJoin(P.PresetEntryList(es, indent + "  "), [P.Mark(indent, '}', "\n")]);
    LowerIsWord("preset");
    HeaderLoose("preset", name, indent, P.PresetEntryList(es, indent + "  ") + [P.Mark(indent, '}', "\n")]);
  }

  lemma {:induction false} WorkflowEntryLoose(e: A.WorkflowEntry)
    requires GoodWorkflowEntry(e)
    ensures Loose(P.WorkflowPieces(e)) && P.WorkflowPieces(e) != [] && Separates(P.WorkflowPieces(e)[0])
  {
    LowerIsWord("schedule");
    LowerIsWord("cron");
    LowerIsWord("interval");
    match e
    case Item(name) => LooseOne(Piece(" ", Word(name), ""));
    case Cron(spec) =>
      QuotedIsClean("", spec, "");
      LooseThree(P.Keyword(" ", "schedule"), P.Keyword("", "cron"), P.QuotedPiece("", spec, ""));
    case Interval(spec) =>
      QuotedIsClean("", spec, "");
      LooseThree(P.Keyword(" ", "schedule"), P.Keyword("", "interval"), P.QuotedPiece("", spec, ""));
  }

  lemma {:induction false} WorkflowLoose(es: seq<A.WorkflowEntry>, close: Piece)
    requires (forall e :: e in es ==> GoodWorkflowEntry(e)) && CleanPiece(close) && close.tok.Punct?
    ensures Loose(P.WorkflowList(es) + [close]) && Closed(P.WorkflowList(es) + [close])
    ensures Separates((P.WorkflowList(es) + [close])[0])
  {
    LooseOne(close);
    if es == [] {
      assert P.WorkflowList(es) + [close] == [close];
    } else {
      var tail := P.WorkflowList(es[1..]) + [close];
      WorkflowEntryLoose(es[0]);
      WorkflowLoose(es[1..], close);
      LooseJoin(P.WorkflowPieces(es[0]), tail);
      assert P.WorkflowList(es) + [close] == P.WorkflowPieces(es[0]) + tail;
    }
  }
}
