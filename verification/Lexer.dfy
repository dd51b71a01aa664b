/** The lexer's token rules (internal/dsl/lexer.go) and text that is laid out so that it lexes back. */
module Lexer {
  import opened Config
  import opened Decimal
  import opened Quoted

  /** Comments and whitespace are elided. A string token keeps its quotes until it is captured. A gap is
      no token at all: the lexer never returns one, and the formatter writes one where it writes whitespace alone. */
  datatype Token = Word(text: string) | Str(raw: string) | Num(digits: string) | Punct(c: char) | Gap

  predicate IsLetter(c: char) {
    'a' <= c <= 'z' || 'A' <= c <= 'Z'
  }

  predicate StartsWord(c: char) {
    IsLetter(c) || c == '_' || c == '.' || c == '/'
  }

  predicate ContinuesWord(c: char) {
    StartsWord(c) || IsDigit(c) || c == '-'
  }

  predicate IsPunct(c: char) {
    c == '[' || c == ']' || c == '{' || c == '}' || c == ',' || c == '='
  }

  predicate IsSpace(c: char) {
    c == ' ' || c == '\t' || c == '\n' || c == '\r'
  }

  /** What can follow the first character of an identifier. */
  function WordTail(t: string): (w: string)
    ensures |w| <= |t|
  {
    if t == [] || !ContinuesWord(t[0]) then [] else [t[0]] + WordTail(t[1..])
  }

  /** The text after a comment: from the end of its line on. */
  function AfterComment(t: string): (r: string)
    ensures |r| <= |t|
  {
    if t == [] || t[0] == '\n' then t else AfterComment(t[1..])
  }

  /** A comment ends before the first line end, or with the text. */
  lemma {:induction false} CommentEnds(comment: string, rest: string)
    requires '\n' !in comment && (rest == [] || rest[0] == '\n')
    ensures AfterComment(comment + rest) == rest
  {
    if comment == [] {
      assert comment + rest == rest;
    } else {
      assert (comment + rest)[1..] == comment[1..] + rest;
      CommentEnds(comment[1..], rest);
    }
  }

  function Cons(tok: Token, rest: Option<seq<Token>>): Option<seq<Token>> {
    match rest
    case None => None
    case Some(ts) => Some([tok] + ts)
  }

  /** The rules in their order, at each position. */
  function Lex(t: string): Option<seq<Token>>
    decreases |t|
  {
    if t == [] then Some([])
    else if t[0] == '#' then Lex(AfterComment(t[1..]))
    else if t[0] == '"' then LexString(t)
    else if IsDigit(t[0]) then
      var d := DigitPrefix(t);
      Cons(Num(d), Lex(t[|d|..]))
    else if StartsWord(t[0]) then
      var w := [t[0]] + WordTail(t[1..]);
      Cons(Word(w), Lex(t[|w|..]))
    else if IsPunct(t[0]) then Cons(Punct(t[0]), Lex(t[1..]))
    else if IsSpace(t[0]) then Lex(t[1..])
    else None
  }

  /** A comment leaves no token: what follows its line is read as if it were not there. */
  lemma {:induction false} CommentsAreElided(comment: string, rest: string)
    requires '\n' !in comment
    ensures Lex("#" + comment + "\n" + rest) == Lex(rest)
    ensures Lex("#" + comment) == Some([])
  {
    CommentEnds(comment, "\n" + rest);
    CommentEnds(comment, "");
    assert ("#" + comment + "\n" + rest)[1..] == comment + ("\n" + rest);
    assert ("\n" + rest)[1..] == rest;
    assert ("#" + comment)[1..] == comment + "";
  }

  function LexString(t: string): Option<seq<Token>>
    requires t != [] && t[0] == '"'
    decreases |t|, 0
  {
    match StringToken(t)
    case None => None
    case Some(n) =>
      ClosesIfQuote(t[1..]);
      Cons(Str(t[..n]), Lex(t[n..]))
  }
}
