/** Text as a sequence of pieces, each a token with the whitespace around it, and the condition under which
    the lexer finds exactly these tokens again: an open word or number needs whitespace, punctuation or a piece that
    begins with whitespace behind it, and a string must not end in a backslash. */
module Layout {
  import opened Config
  import opened Decimal
  import opened Quoted
  import opened Lexer

  datatype Piece = Piece(before: string, tok: Token, after: string)

  function TokenText(tok: Token): string {
    match tok
    case Word(w) => w
    case Str(r) => r
    case Num(d) => d
    case Punct(c) => [c]
    case Gap => []
  }

  function PieceText(p: Piece): string {
    p.before + TokenText(p.tok) + p.after
  }

  function Render(ps: seq<Piece>): string {
    if ps == [] then [] else PieceText(ps[0]) + Render(ps[1..])
  }

  function Toks(ps: seq<Piece>): seq<Token> {
    if ps == [] then [] else [ps[0].tok] + Toks(ps[1..])
  }

  lemma {:induction false} ToksSplit(a: seq<Piece>, b: seq<Piece>)
    ensures Toks(a + b) == Toks(a) + Toks(b)
  {
    if a == [] {
      assert a + b == b;
    } else {
      assert (a + b)[1..] == a[1..] + b;
      ToksSplit(a[1..], b);
    }
  }

  // --------------------------------------------------------------- what lexes back

  predicate IsWord(w: string) {
    && w != [] && StartsWord(w[0])
    && forall i :: 0 < i < |w| ==> ContinuesWord(w[i])
  }

  predicate AllSpaces(s: string) {
    forall i :: 0 <= i < |s| ==> IsSpace(s[i])
  }

  /** A token the lexer can produce from its own text; a string must not end in a backslash. */
  ghost predicate Clean(tok: Token) {
    match tok
    case Word(w) => IsWord(w)
    case Str(r) => r == Quote(Captured(r)) && !EndsInBackslash(Captured(r))
    case Num(d) => d != [] && AllDigits(d)
    case Punct(c) => IsPunct(c)
    case Gap => false
  }

  predicate Open(p: Piece) {
    (p.tok.Word? || p.tok.Num?) && p.after == []
  }

  /** Clean tokens between whitespace; a word or number that no whitespace follows stands before punctuation or
      a piece that begins with whitespace. */
  ghost predicate Spaced(ps: seq<Piece>) {
    && (forall i :: 0 <= i < |ps| ==> Clean(ps[i].tok) && AllSpaces(ps[i].before) && AllSpaces(ps[i].after))
    && (forall i :: 0 <= i < |ps| && Open(ps[i]) ==> i + 1 < |ps| && (ps[i + 1].tok.Punct? || ps[i + 1].before != []))
  }

  // --------------------------------------------------------------------- lexing it

  lemma {:induction false} LexSpaces(s: string, rest: string)
    requires AllSpaces(s)
    ensures Lex(s + rest) == Lex(rest)
  {
    if s == [] {
      assert s + rest == rest;
    } else {
      assert (s + rest)[1..] == s[1..] + rest;
      LexSpaces(s[1..], rest);
    }
  }

  lemma {:induction false} WordTailStops(w: string, rest: string)
    requires forall i :: 0 <= i < |w| ==> ContinuesWord(w[i])
    requires rest != [] ==> !ContinuesWord(rest[0])
    ensures WordTail(w + rest) == w
  {
    if w == [] {
      assert w + rest == rest;
    } else {
      assert (w + rest)[1..] == w[1..] + rest;
      WordTailStops(w[1..], rest);
    }
  }

  lemma {:induction false} LexWord(w: string, rest: string)
    requires IsWord(w) && (rest != [] ==> !ContinuesWord(rest[0]))
    ensures Lex(w + rest) == Cons(Word(w), Lex(rest))
  {
    var t := w + rest;
    WordTailStops(w[1..], rest);
    assert t[1..] == w[1..] + rest;
    assert [t[0]] + WordTail(t[1..]) == w;
    assert t[|w|..] == rest;
  }

  lemma {:induction false} LexNum(d: string, rest: string)
    requires d != [] && AllDigits(d) && (rest != [] ==> !IsDigit(rest[0]))
    ensures Lex(d + rest) == Cons(Num(d), Lex(rest))
  {
    PrefixStopsAt(d, rest);
    assert (d + rest)[|d|..] == rest;
  }

  lemma {:induction false} LexQuoted(s: string, rest: string)
    requires !EndsInBackslash(s)
    ensures Lex(Quote(s) + rest) == Cons(Str(Quote(s)), Lex(rest))
  {
    var t := Quote(s) + rest;
    QuotedRoundTrip(s, rest);
    assert t[0] == '"' && t[|Quote(s)|..] == rest && t[..|Quote(s)|] == Quote(s);
  }

  lemma {:induction false} LexPunct(c: char, rest: string)
    requires IsPunct(c)
    ensures Lex([c] + rest) == Cons(Punct(c), Lex(rest))
  {
    assert ([c] + rest)[1..] == rest;
  }

  predicate Delimited(tok: Token, rest: string) {
    tok.Word? || tok.Num? ==> rest == [] || !ContinuesWord(rest[0])
  }

  lemma {:induction false} LexToken(tok: Token, rest: string)
    requires Clean(tok) && Delimited(tok, rest)
    ensures Lex(TokenText(tok) + rest) == Cons(tok, Lex(rest))
  {
    match tok
    case Word(w) => LexWord(w, rest);
    case Str(r) => LexQuoted(Captured(r), rest);
    case Num(d) => LexNum(d, rest);
    case Punct(c) => LexPunct(c, rest);
  }

  lemma {:induction false} LexPiece(p: Piece, rest: string)
    requires Clean(p.tok) && AllSpaces(p.before) && AllSpaces(p.after) && Delimited(p.tok, p.after + rest)
    ensures Lex(PieceText(p) + rest) == Cons(p.tok, Lex(rest))
  {
    assert PieceText(p) + rest == p.before + (TokenText(p.tok) + (p.after + rest));
    LexSpaces(p.before, TokenText(p.tok) + (p.after + rest));
    LexToken(p.tok, p.after + rest);
    LexSpaces(p.after, rest);
  }

  lemma {:induction false} SpacedDelimits(ps: seq<Piece>)
    requires Spaced(ps) && ps != []
    ensures Delimited(ps[0].tok, ps[0].after + Render(ps[1..]))
  {
    if ps[0].after == [] && (ps[0].tok.Word? || ps[0].tok.Num?) {
      assert Open(ps[0]);
      var q := ps[1];
      assert Render(ps[1..]) == PieceText(q) + Render(ps[1..][1..]);
      if q.before == [] {
        assert q.tok.Punct?;
      } else {
        assert IsSpace(q.before[0]);
      }
    } else if ps[0].after != [] {
      assert IsSpace(ps[0].after[0]);
    }
  }

  /** Well spaced text lexes to exactly its tokens. */
  lemma {:induction false} SpacedLexes(ps: seq<Piece>)
    requires Spaced(ps)
    ensures Lex(Render(ps)) == Some(Toks(ps))
  {
    if ps != [] {
      SpacedDelimits(ps);
      LexPiece(ps[0], Render(ps[1..]));
      SpacedLexes(ps[1..]);
    }
  }
}
