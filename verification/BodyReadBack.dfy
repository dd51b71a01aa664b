/** Bodies of targets and daemons: written well spaced and parsed back. A body is its clauses one after the other and
    a closing brace; a daemon inside a target is a header and a body of its own, without the clauses that are not
    written for daemons. */
module BodyReadBack {
  import opened Config
  import opened Lexer
  import opened Layout
  import opened Parser
  import opened OrderEntries
  import opened ReadBack
  import opened ClauseReadBack
  import opened Spacing
  import opened ClauseSpacing
  import P = Printer
  import A = Ast

  // ------------------------------------------------------------------- the fragment

  /** Clauses as they are written, none of them a daemon: an open list of identifiers only in last place. */
  ghost predicate GoodClauses(es: seq<A.BodyEntry>) {
    && (forall i :: 0 <= i < |es| ==> GoodClause(es[i]) && !es[i].DaemonBlock?)
    && (forall i :: 0 <= i < |es| - 1 ==> !IsGreedy(es[i]))
  }

  function DaemonBody(e: A.BodyEntry): seq<A.BodyEntry>
    requires e.DaemonBlock?
  {
    P.DaemonClauses(Ordered(e.body))
  }

  ghost predicate GoodEntry(e: A.BodyEntry) {
    GoodClause(e) && (e.DaemonBlock? ==> GoodClauses(DaemonBody(e)))
  }

  ghost predicate GoodEntries(es: seq<A.BodyEntry>) {
    && (forall i :: 0 <= i < |es| ==> GoodEntry(es[i]))
    && (forall i :: 0 <= i < |es| - 1 ==> !IsGreedy(es[i]))
  }

  function NormClauses(es: seq<A.BodyEntry>): seq<A.BodyEntry> {
    if es == [] then [] else [NormClause(es[0])] + NormClauses(es[1..])
  }

  /** What parsing returns for an entry: presets and daemon bodies as they were written. */
  function NormEntry(e: A.BodyEntry): A.BodyEntry {
    if e.DaemonBlock? then A.DaemonBlock(e.name, NormClauses(DaemonBody(e))) else NormClause(e)
  }

  function NormEntries(es: seq<A.BodyEntry>): seq<A.BodyEntry> {
    if es == [] then [] else [NormEntry(es[0])] + NormEntries(es[1..])
  }

  // ------------------------------------------------------------------- parsed back

  /** No clause begins with the word `name`, which could be taken for the name of a passthrough slot. */
  lemma {:induction false} NoClauseIsName(e: A.BodyEntry)
    ensures ClauseWord(e) != "name"
  {
    ClauseKeywordIs(e);
    NameIsNoKeyword();
    if e.OneStep? {
      StepKeywordIs(e.step);
    }
  }

  lemma {:induction false} NameIsNoKeyword()
    ensures KeywordOf("name") == KNone
  {
    assert "name"[0] == 'n' && "name"[1] == 'a' && "name"[2] == 'm';
  }

  /** Where a list of entries and its closing brace begin. */
  ghost predicate Begins(es: seq<A.BodyEntry>, ts: seq<Token>) {
    ts != [] && ts[0] == (if es == [] then Punct('}') else Word(ClauseWord(es[0])))
  }

  lemma {:induction false} BeginsFollows(e: A.BodyEntry, es: seq<A.BodyEntry>, ts: seq<Token>)
    requires Begins(es, ts) && (IsGreedy(e) ==> es == [])
    ensures EndsAt(e, ts)
  {
    if es != [] {
      NoClauseIsName(es[0]);
    }
  }

  lemma {:induction false} ClausesRead(es: seq<A.BodyEntry>, indent: string, close: Piece, rest: seq<Token>)
    requires GoodClauses(es) && close.tok == Punct('}')
    ensures var ts := Toks(P.ClauseList(es, indent) + [close]) + rest;
      Begins(es, ts) && TakeBody(ts) == Some(Parsed(NormClauses(es), rest))
  {
    if es == [] {
      assert P.ClauseList(es, indent) + [close] == [close];
      TokensOfOne(close, rest);
      MarkSeen('}', rest);
    } else {
      var tail := P.ClauseList(es[1..], indent) + [close];
      assert P.ClauseList(es, indent) + [close] == P.ClausePieces(es[0], indent) + tail;
      TokensJoin(P.ClausePieces(es[0], indent), tail, rest);
      assert GoodClauses(es[1..]);
      ClausesRead(es[1..], indent, close, rest);
      BeginsFollows(es[0], es[1..], Toks(tail) + rest);
      ClauseRead(es[0], indent, Toks(tail) + rest);
      var next := Toks(tail) + rest;
      OneMoreEntry(Toks(P.ClausePieces(es[0], indent)) + next, NormClause(es[0]), next, NormClauses(es[1..]), rest);
    }
  }

  lemma {:induction false} OneMoreEntry(ts: seq<Token>, e: A.BodyEntry, next: seq<Token>, es: seq<A.BodyEntry>,
                                        rest: seq<Token>)
    requires ts != [] && ts[0].Word? && TakeEntry(ts) == Some(Parsed(e, next))
    requires TakeBody(next) == Some(Parsed(es, rest))
    ensures TakeBody(ts) == Some(Parsed([e] + es, rest))
  {
  }

  lemma {:induction false} DaemonRead(e: A.BodyEntry, indent: string, rest: seq<Token>)
    requires e.DaemonBlock? && GoodEntry(e)
    ensures var ts := Toks(P.EntryPieces(e, indent)) + rest;
      ts != [] && ts[0] == Word("daemon") && TakeEntry(ts) == Some(Parsed(NormEntry(e), rest))
  {
    var close := P.Mark(indent, '}', "\n");
    var tail := P.ClauseList(DaemonBody(e), indent + "  ") + [close];
    TokensJoin(P.Header(indent, "daemon", e.name), tail, rest);
    TokensOfThree(P.Keyword(indent, "daemon"), P.Keyword("", e.name), P.Mark("", '{', "\n"), Toks(tail) + rest);
    ClausesRead(DaemonBody(e), indent + "  ", close, rest);
    DaemonBlockTaken(e.name, Toks(tail) + rest, NormClauses(DaemonBody(e)), rest);
  }

  lemma {:induction false} DaemonBlockTaken(name: string, inner: seq<Token>, body: seq<A.BodyEntry>, rest: seq<Token>)
    requires TakeBody(inner) == Some(Parsed(body, rest))
    ensures TakeEntry([Word("daemon")] + ([Word(name)] + ([Punct('{')] + inner))) ==
      Some(Parsed(A.DaemonBlock(name, body), rest))
  {
    BlocksAreKeywords();
    WordTaken("daemon", [Word(name)] + ([Punct('{')] + inner));
    WordTaken(name, [Punct('{')] + inner);
    MarkSeen('{', inner);
  }

  lemma {:induction false} EntryRead(e: A.BodyEntry, indent: string, rest: seq<Token>)
    requires GoodEntry(e) && EndsAt(e, rest)
    ensures var ts := Toks(P.EntryPieces(e, indent)) + rest;
      ts != [] && ts[0] == Word(ClauseWord(e)) && TakeEntry(ts) == Some(Parsed(NormEntry(e), rest))
  {
    if e.DaemonBlock? {
      DaemonRead(e, indent, rest);
    } else {
      ClauseRead(e, indent, rest);
    }
  }

  lemma {:induction false} EntriesRead(es: seq<A.BodyEntry>, indent: string, close: Piece, rest: seq<Token>)
    requires GoodEntries(es) && close.tok == Punct('}')
    ensures var ts := Toks(P.EntryList(es, indent) + [close]) + rest;
      Begins(es, ts) && TakeBody(ts) == Some(Parsed(NormEntries(es), rest))
  {
    if es == [] {
      assert P.EntryList(es, indent) + [close] == [close];
      TokensOfOne(close, rest);
      MarkSeen('}', rest);
    } else {
      var tail := P.EntryList(es[1..], indent) + [close];
      assert P.EntryList(es, indent) + [close] == P.EntryPieces(es[0], indent) + tail;
      TokensJoin(P.EntryPieces(es[0], indent), tail, rest);
      assert GoodEntries(es[1..]);
      EntriesRead(es[1..], indent, close, rest);
      BeginsFollows(es[0], es[1..], Toks(tail) + rest);
      EntryRead(es[0], indent, Toks(tail) + rest);
      var next := Toks(tail) + rest;
      OneMoreEntry(Toks(P.EntryPieces(es[0], indent)) + next, NormEntry(es[0]), next, NormEntries(es[1..]), rest);
    }
  }

  // ------------------------------------------------------------------- well spaced

  lemma {:induction false} ClausesWritten(es: seq<A.BodyEntry>, indent: string, close: Piece)
    requires GoodClauses(es) && AllSpaces(indent) && CleanPiece(close) && !Open(close)
    ensures WellWritten(P.ClauseList(es, indent) + [close])
  {
    if es == [] {
      LooseOne(close);
      assert P.ClauseList(es, indent) + [close] == [close];
    } else {
      assert GoodClauses(es[1..]);
      ClauseWritten(es[0], indent);
      ClausesWritten(es[1..], indent, close);
      LooseJoin(P.ClausePieces(es[0], indent), P.ClauseList(es[1..], indent) + [close]);
      assert P.ClauseList(es, indent) + [close] ==
        P.ClausePieces(es[0], indent) + (P.ClauseList(es[1..], indent) + [close]);
    }
  }

  lemma {:induction false} DaemonWritten(name: string, body: seq<A.BodyEntry>, indent: string)
    requires IsWord(name) && GoodClauses(body) && AllSpaces(indent)
    ensures WellWritten(P.Header(indent, "daemon", name) +
      (P.ClauseList(body, indent + "  ") + [P.Mark(indent, '}', "\n")]))
  {
    var close := P.Mark(indent, '}', "\n");
    ClausesWritten(body, indent + "  ", close);
    LowerIsWord("daemon");
    HeaderLoose("daemon", name, indent, P.ClauseList(body, indent + "  ") + [close]);
  }

  lemma {:induction false} EntryWritten(e: A.BodyEntry, indent: string)
    requires GoodEntry(e) && AllSpaces(indent)
    ensures WellWritten(P.EntryPieces(e, indent))
  {
    if e.DaemonBlock? {
      DaemonWritten(e.name, DaemonBody(e), indent);
    } else {
      ClauseWritten(e, indent);
    }
  }

  lemma {:induction false} EntriesWritten(es: seq<A.BodyEntry>, indent: string, close: Piece)
    requires GoodEntries(es) && AllSpaces(indent) && CleanPiece(close) && !Open(close)
    ensures WellWritten(P.EntryList(es, indent) + [close])
  {
    if es == [] {
      LooseOne(close);
      assert P.EntryList(es, indent) + [close] == [close];
    } else {
      assert GoodEntries(es[1..]);
      EntryWritten(es[0], indent);
      EntriesWritten(es[1..], indent, close);
      LooseJoin(P.EntryPieces(es[0], indent), P.EntryList(es[1..], indent) + [close]);
      assert P.EntryList(es, indent) + [close] ==
        P.EntryPieces(es[0], indent) + (P.EntryList(es[1..], indent) + [close]);
    }
  }
}
