/** Quoted strings: printed, lexed and captured back. */
module Quoted {
  // The formatter prints them (internal/dsl/format.go), the String rule of the lexer finds their end
  // (internal/dsl/lexer.go), and capturing takes the quotes off again (internal/dsl/ast.go).

  import opened Config

  // ------------------------------------------------------------------------ printing

  function Escape(s: string): string {
    if s == [] then []
    else Escape(s[..|s| - 1]) + (if s[|s| - 1] == '"' then ['\\', '"'] else [s[|s| - 1]])
  }

  function Quote(s: string): string {
    ['"'] + Escape(s) + ['"']
  }

  method WriteQuoted(s: string) returns (out: string)
    ensures out == Quote(s)
  {
    out := ['"'];
    for i := 0 to |s|
      invariant out == ['"'] + Escape(s[..i])
    {
      assert s[..i + 1][..i] == s[..i];
      if s[i] == '"' {
        out := out + ['\\', '"'];
      } else {
        out := out + [s[i]];
      }
    }
    assert s[..|s|] == s;
    out := out + ['"'];
  }

  lemma {:induction false} EscapeFront(c: char, s: string)
    ensures Escape([c] + s) == (if c == '"' then ['\\', '"'] else [c]) + Escape(s)
  {
    if s == [] {
      assert [c] + s == [c] && [c][..0] == [];
    } else {
      assert ([c] + s)[..|s|] == [c] + s[..|s| - 1];
      EscapeFront(c, s[..|s| - 1]);
    }
  }

  lemma {:induction false} EscapeUnfolds(s: string)
    requires s != []
    ensures Escape(s) == (if s[0] == '"' then ['\\', '"'] else [s[0]]) + Escape(s[1..])
  {
    EscapeFront(s[0], s[1..]);
    assert s == [s[0]] + s[1..];
  }

  // ----------------------------------------------------------------------- capturing

  /** Drops the backslash of every backslash and quote pair, reading from the left. */
  function Unescape(s: string): string {
    if s == [] then []
    else if |s| > 1 && s[0] == '\\' && s[1] == '"' then ['"'] + Unescape(s[2..])
    else [s[0]] + Unescape(s[1..])
  }

  predicate IsQuoted(tok: string) {
    |tok| >= 2 && tok[0] == '"' && tok[|tok| - 1] == '"'
  }

  function Captured(tok: string): string {
    if IsQuoted(tok) then Unescape(tok[1..|tok| - 1]) else tok
  }

  method Capture(tok: string) returns (value: string, quoted: bool)
    ensures value == Captured(tok) && quoted == IsQuoted(tok)
  {
    quoted := |tok| >= 2 && tok[0] == '"' && tok[|tok| - 1] == '"';
    if !quoted {
      return tok, quoted;
    }
    value := Unquote(tok[1..|tok| - 1]);
  }

  method Unquote(inner: string) returns (b: string)
    ensures b == Unescape(inner)
  {
    b := [];
    var i := 0;
    while i < |inner|
      invariant 0 <= i <= |inner|
      invariant Unescape(inner) == b + Unescape(inner[i..])
    {
      UnescapeUnfolds(inner, i, b);
      if inner[i] == '\\' && i + 1 < |inner| && inner[i + 1] == '"' {
        b := b + ['"'];
        i := i + 2;
      } else {
        b := b + [inner[i]];
        i := i + 1;
      }
    }
  }

  lemma {:induction false} UnescapeUnfolds(s: string, i: nat, b: string)
    requires i < |s|
    ensures b + Unescape(s[i..]) ==
      if s[i] == '\\' && i + 1 < |s| && s[i + 1] == '"' then b + ['"'] + Unescape(s[i + 2..])
      else b + [s[i]] + Unescape(s[i + 1..])
  {
    assert s[i..][1..] == s[i + 1..];
    if i + 1 < |s| {
      assert s[i..][2..] == s[i + 2..];
    }
  }

  lemma {:induction false} UnescapeEscape(s: string)
    ensures Unescape(Escape(s)) == s
  {
    if s != [] {
      EscapeUnfolds(s);
      UnescapeEscape(s[1..]);
      var e := Escape(s);
      if s[0] == '"' {
        assert e[2..] == Escape(s[1..]);
      } else {
        assert e[1..] == Escape(s[1..]);
        if s[0] == '\\' && |s| > 1 {
          EscapeUnfolds(s[1..]);
        }
      }
    }
  }

  /** Capturing a printed string gives it back, whatever it holds. */
  lemma {:induction false} CaptureGivesBack(s: string)
    ensures Captured(Quote(s)) == s
  {
    UnescapeEscape(s);
    assert Quote(s)[1..|Quote(s)| - 1] == Escape(s);
  }

  // -------------------------------------------------------------------- the String rule

  /** The rest of the rule after the opening quote, with the alternatives of each repetition and the repetition
      itself tried in the order a backtracking matcher tries them; the length of the match. */
  function Closing(t: string): Option<nat> {
    var pair := if |t| > 1 && t[0] == '\\' && t[1] == '"' then Closing(t[2..]) else None;
    if pair.Some? then Some(pair.value + 2)
    else
      var one := if t != [] && t[0] != '"' then Closing(t[1..]) else None;
      if one.Some? then Some(one.value + 1)
      else if t != [] && t[0] == '"' then Some(1)
      else None
  }

  /** The length of the string token a text starts with. */
  function StringToken(t: string): Option<nat> {
    if t == [] || t[0] != '"' then None
    else
      match Closing(t[1..])
      case None => None
      case Some(n) => Some(n + 1)
  }

  /** A closing quote is found exactly when there is a quote, backtracking into an escape if it is the last one. */
  lemma {:induction false} ClosesIfQuote(t: string)
    ensures Closing(t).Some? <==> '"' in t
    ensures Closing(t).Some? ==> 0 < Closing(t).value <= |t| && t[Closing(t).value - 1] == '"'
  {
    if t != [] {
      ClosesIfQuote(t[1..]);
      if |t| > 1 {
        ClosesIfQuote(t[2..]);
      }
    }
  }

  ghost predicate EndsInBackslash(s: string) {
    s != [] && s[|s| - 1] == '\\'
  }

  lemma {:induction false} ClosesAfterEscape(s: string, rest: string)
    ensures Closing(Escape(s) + ['"'] + rest) == Some(|Escape(s)| + 1) <==> !EndsInBackslash(s) || '"' !in rest
  {
    var t := Escape(s) + ['"'] + rest;
    if s == [] {
      assert t == ['"'] + rest;
    } else {
      EscapeUnfolds(s);
      ClosesAfterEscape(s[1..], rest);
      var u := Escape(s[1..]) + ['"'] + rest;
      ClosesIfQuote(u);
      assert u[|Escape(s[1..])|] == '"';
      if s[0] == '"' {
        assert t == ['\\', '"'] + u;
        ClosesPastPair(u);
      } else if |s| == 1 {
        assert t == [s[0]] + (['"'] + rest);
        ClosesAfterLast(s[0], rest);
      } else {
        EscapeUnfolds(s[1..]);
        assert t == [s[0]] + u && u[0] != '"';
        ClosesPastOne(s[0], u);
      }
    }
  }

  lemma {:induction false} ClosesPastPair(u: string)
    requires Closing(u).Some?
    ensures Closing(['\\', '"'] + u) == Some(Closing(u).value + 2)
  {
    assert (['\\', '"'] + u)[2..] == u;
  }

  lemma {:induction false} ClosesPastOne(c: char, u: string)
    requires c != '"' && u != [] && u[0] != '"' && Closing(u).Some?
    ensures Closing([c] + u) == Some(Closing(u).value + 1)
  {
    assert ([c] + u)[1..] == u;
  }

  /** The character before the closing quote: a backslash there pairs with it if another quote can close instead. */
  lemma {:induction false} ClosesAfterLast(c: char, rest: string)
    requires c != '"'
    ensures Closing([c] + (['"'] + rest)) == Some(2) <==> c != '\\' || '"' !in rest
  {
    var t := [c] + (['"'] + rest);
    assert t[1..] == ['"'] + rest && t[2..] == rest;
    assert (['"'] + rest)[1..] == rest;
    ClosesIfQuote(rest);
    assert Closing(['"'] + rest) == Some(1);
  }

  /** Print, then lex: the String rule matches exactly the printed token if and only if the string does not end in
      a backslash or no quote follows anywhere in the text; then the captured value is the string. */
  lemma {:induction false} QuotedRoundTrip(s: string, rest: string)
    ensures StringToken(Quote(s) + rest) == Some(|Quote(s)|) <==> !EndsInBackslash(s) || '"' !in rest
    ensures Captured((Quote(s) + rest)[..|Quote(s)|]) == s
  {
    ClosesAfterEscape(s, rest);
    assert (Quote(s) + rest)[1..] == Escape(s) + ['"'] + rest;
    assert (Quote(s) + rest)[..|Quote(s)|] == Quote(s);
    CaptureGivesBack(s);
  }
}
