/** Joining an argument vector into a shell line (internal/runner/runner.go). */
module ShellQuote {
  // It is read back by the token recognition of the Shell Command Language of POSIX.1-2017: sections 2.2.1 (backslash),
  // 2.2.2 (single quotes) and 2.3 (tokens). Where a character asks for more than that (an operator, an expansion,
  // double quotes, a comment), the reading has no plain result.

  import opened Config

  // ------------------------------------------------------------------------ quoting

  predicate TriggersQuoting(c: char) {
    c == ' ' || c == '\'' || c == '"' || c == '\\'
  }

  predicate NeedsQuotes(s: string) {
    exists i :: 0 <= i < |s| && TriggersQuoting(s[i])
  }

  function EscapeSingleQuoted(s: string): string {
    if s == [] then []
    else (if s[0] == '\'' then ['\'', '\\', '\'', '\''] else [s[0]]) + EscapeSingleQuoted(s[1..])
  }

  function QuoteForShell(s: string): string {
    if NeedsQuotes(s) then ['\''] + EscapeSingleQuoted(s) + ['\''] else s
  }

  function JoinArgv(argv: seq<string>): string {
    if argv == [] then []
    else if |argv| == 1 then QuoteForShell(argv[0])
    else QuoteForShell(argv[0]) + [' '] + JoinArgv(argv[1..])
  }

  method Escape(s: string) returns (b: string)
    ensures b == EscapeSingleQuoted(s)
  {
    b := [];
    for i := 0 to |s|
      invariant EscapeSingleQuoted(s) == b + EscapeSingleQuoted(s[i..])
    {
      assert s[i..][1..] == s[i + 1..];
      if s[i] == '\'' {
        b := b + ['\'', '\\', '\'', '\''];
      } else {
        b := b + [s[i]];
      }
    }
  }

  method Quote(s: string) returns (b: string)
    ensures b == QuoteForShell(s)
  {
    for i := 0 to |s|
      invariant forall k :: 0 <= k < i ==> !TriggersQuoting(s[k])
    {
      if TriggersQuoting(s[i]) {
        var inner := Escape(s);
        return ['\''] + inner + ['\''];
      }
    }
    return s;
  }

  /** The joined elements, each after the first preceded by a space. */
  function Spaced(argv: seq<string>): string {
    if argv == [] then []
    else if |argv| == 1 then QuoteForShell(argv[0])
    else Spaced(argv[..|argv| - 1]) + [' '] + QuoteForShell(argv[|argv| - 1])
  }

  lemma {:induction false} SpacedIsJoined(argv: seq<string>)
    ensures Spaced(argv) == JoinArgv(argv)
  {
    if |argv| > 1 {
      var init, last := argv[..|argv| - 1], argv[|argv| - 1];
      SpacedIsJoined(init);
      JoinBack(init, last);
      assert init + [last] == argv;
    }
  }

  lemma {:induction false} JoinBack(argv: seq<string>, e: string)
    requires argv != []
    ensures JoinArgv(argv + [e]) == JoinArgv(argv) + [' '] + QuoteForShell(e)
  {
    assert (argv + [e])[1..] == argv[1..] + [e];
    if |argv| > 1 {
      JoinBack(argv[1..], e);
    } else {
      assert argv[1..] + [e] == [e];
    }
  }

  method Join(argv: seq<string>) returns (b: string)
    ensures b == JoinArgv(argv)
  {
    b := [];
    for i := 0 to |argv|
      invariant b == Spaced(argv[..i])
    {
      assert argv[..i + 1][..i] == argv[..i];
      if i > 0 {
        b := b + [' '];
      }
      var q := Quote(argv[i]);
      b := b + q;
    }
    assert argv[..|argv|] == argv;
    SpacedIsJoined(argv);
  }

  // ------------------------------------------------------------------------ reading

  predicate IsBlank(c: char) {
    c == ' ' || c == '\t'
  }

  /** Operators, newline, expansions and patterns, double quotes. */
  predicate IsSpecial(c: char) {
    || c == '|' || c == '&' || c == ';' || c == '<' || c == '>' || c == '(' || c == ')' || c == '\n'
    || c == '$' || c == '`' || c == '"' || c == '*' || c == '?' || c == '['
  }

  /** A comment or a tilde expansion, at the start of a word. */
  predicate IsSpecialFirst(c: char) {
    c == '#' || c == '~'
  }

  function IndexOfQuote(s: string): (i: Option<nat>)
    ensures i.Some? ==> i.value < |s| && s[i.value] == '\'' && '\'' !in s[..i.value]
    ensures i.None? ==> '\'' !in s
  {
    if s == [] then None
    else if s[0] == '\'' then Some(0)
    else
      match IndexOfQuote(s[1..])
      case None => None
      case Some(i) => Some(i + 1)
  }

  function Front(word: Option<string>, tokens: Option<seq<string>>): Option<seq<string>> {
    match tokens
    case None => None
    case Some(ts) => if word.Some? then Some([word.value] + ts) else tokens
  }

  function Grow(word: Option<string>, more: string): Option<string> {
    Some((if word.Some? then word.value else []) + more)
  }

  /** Reads on, with the word read so far if one has begun. */
  function Scan(s: string, word: Option<string>): Option<seq<string>>
    decreases |s|
  {
    if s == [] then Front(word, Some([]))
    else if IsBlank(s[0]) then Front(word, Scan(s[1..], None))
    else if s[0] == '\'' then
      match IndexOfQuote(s[1..])
      case None => None
      case Some(k) => Scan(s[k + 2..], Grow(word, s[1..k + 1]))
    else if s[0] == '\\' then
      if |s| == 1 then None
      else if s[1] == '\n' then Scan(s[2..], word)
      else Scan(s[2..], Grow(word, [s[1]]))
    else if IsSpecial(s[0]) || (word.None? && IsSpecialFirst(s[0])) then None
    else Scan(s[1..], Grow(word, [s[0]]))
  }

  function Tokens(line: string): Option<seq<string>> {
    Scan(line, None)
  }

  lemma {:induction false} GrowTwice(word: Option<string>, a: string, b: string)
    ensures Grow(Grow(word, a), b) == Grow(word, a + b)
    ensures Grow(None, a) == Some(a)
  {
    var w := if word.Some? then word.value else [];
    assert (w + a) + b == w + (a + b);
    assert [] + a == a;
  }

  /** One unquoted character that is no blank and asks for nothing. */
  lemma {:induction false} ScanPlain(c: char, r: string, word: Option<string>)
    requires !TriggersQuoting(c) && !IsBlank(c)
    ensures Scan([c] + r, word) ==
      if IsSpecial(c) || (word.None? && IsSpecialFirst(c)) then None else Scan(r, Grow(word, [c]))
  {
    assert ([c] + r)[1..] == r;
  }

  lemma {:induction false} ScanBlank(c: char, r: string, word: Option<string>)
    requires IsBlank(c)
    ensures Scan([c] + r, word) == Front(word, Scan(r, None))
  {
    assert ([c] + r)[1..] == r;
  }

  // ------------------------------------------------------------- quoted elements come back

  lemma {:induction false} QuotedReadsBack(e: string, word: Option<string>, rest: string)
    ensures Scan(['\''] + EscapeSingleQuoted(e) + ['\''] + rest, word) == Scan(rest, Grow(word, e))
    decreases |e|
  {
    match IndexOfQuote(e)
    case None => LastSegmentReadsBack(e, word, rest);
    case Some(k) =>
      var a, b := e[..k], e[k + 1..];
      var t := ['\''] + EscapeSingleQuoted(b) + ['\''] + rest;
      assert e == a + (['\''] + b);
      FirstSegment(a, b, rest);
      SegmentReadsBack(a, word, t);
      QuotedReadsBack(b, Grow(Grow(word, a), ['\'']), rest);
      GrowThrice(word, a, b);
  }

  lemma {:induction false} FirstSegment(a: string, b: string, rest: string)
    requires '\'' !in a
    ensures ['\''] + EscapeSingleQuoted(a + (['\''] + b)) + ['\''] + rest ==
      ['\''] + a + ['\'', '\\', '\''] + (['\''] + EscapeSingleQuoted(b) + ['\''] + rest)
  {
    EscapeAtQuote(a, b);
  }

  lemma {:induction false} GrowThrice(word: Option<string>, a: string, b: string)
    ensures Grow(Grow(Grow(word, a), ['\'']), b) == Grow(word, a + (['\''] + b))
  {
    GrowTwice(word, a, ['\'']);
    GrowTwice(word, a + ['\''], b);
    assert (a + ['\'']) + b == a + (['\''] + b);
  }

  lemma {:induction false} LastSegmentReadsBack(e: string, word: Option<string>, rest: string)
    requires '\'' !in e
    ensures Scan(['\''] + EscapeSingleQuoted(e) + ['\''] + rest, word) == Scan(rest, Grow(word, e))
  {
    var s := ['\''] + e + ['\''] + rest;
    EscapeIsPlain(e);
    FirstQuote(e, rest);
    assert s[1..] == e + ['\''] + rest;
    assert s[|e| + 2..] == rest && s[1..|e| + 1] == e;
  }

  lemma {:induction false} EscapeAtQuote(a: string, b: string)
    requires '\'' !in a
    ensures EscapeSingleQuoted(a + (['\''] + b)) == a + ['\'', '\\', '\'', '\''] + EscapeSingleQuoted(b)
  {
    EscapeSplits(a, ['\''] + b);
    EscapeIsPlain(a);
    assert (['\''] + b)[1..] == b;
  }

  lemma {:induction false} SegmentReadsBack(a: string, word: Option<string>, t: string)
    requires '\'' !in a
    ensures Scan(['\''] + a + ['\'', '\\', '\''] + t, word) == Scan(t, Grow(Grow(word, a), ['\'']))
  {
    var s := ['\''] + a + ['\'', '\\', '\''] + t;
    var u := ['\\', '\''] + t;
    FirstQuote(a, u);
    assert s[1..] == a + ['\''] + u;
    assert s[|a| + 2..] == u && s[1..|a| + 1] == a;
    assert u[2..] == t;
  }

  lemma {:induction false} FirstQuote(a: string, rest: string)
    requires '\'' !in a
    ensures IndexOfQuote(a + ['\''] + rest) == Some(|a|)
  {
    if a == [] {
      assert a + ['\''] + rest == ['\''] + rest;
    } else {
      assert (a + ['\''] + rest)[1..] == a[1..] + ['\''] + rest;
      FirstQuote(a[1..], rest);
    }
  }

  lemma {:induction false} EscapeIsPlain(a: string)
    requires '\'' !in a
    ensures EscapeSingleQuoted(a) == a
  {
    if a != [] {
      EscapeIsPlain(a[1..]);
    }
  }

  lemma {:induction false} EscapeSplits(a: string, b: string)
    ensures EscapeSingleQuoted(a + b) == EscapeSingleQuoted(a) + EscapeSingleQuoted(b)
  {
    if a == [] {
      assert a + b == b;
    } else {
      assert (a + b)[1..] == a[1..] + b;
      EscapeSplits(a[1..], b);
    }
  }

  // --------------------------------------------------------------- plain elements come back

  /** An element that is safe without quotes. */
  ghost predicate Plain(e: string) {
    && e != []
    && !IsSpecialFirst(e[0])
    && forall i :: 0 <= i < |e| ==> !IsSpecial(e[i]) && !IsBlank(e[i])
  }

  lemma {:induction false} PlainReadsBack(e: string, word: Option<string>, rest: string)
    requires !NeedsQuotes(e) && (word.None? ==> e == [] || !IsSpecialFirst(e[0]))
    requires forall i :: 0 <= i < |e| ==> !IsSpecial(e[i]) && !IsBlank(e[i])
    ensures Scan(e + rest, word) == Scan(rest, if e == [] then word else Grow(word, e))
  {
    if e == [] {
      assert e + rest == rest;
    } else {
      assert e + rest == [e[0]] + (e[1..] + rest);
      UnquotedTail(e);
      ScanPlain(e[0], e[1..] + rest, word);
      PlainReadsBack(e[1..], Grow(word, [e[0]]), rest);
      GrowTwice(word, [e[0]], e[1..]);
      assert [e[0]] + e[1..] == e;
    }
  }

  lemma {:induction false} UnquotedTail(e: string)
    requires !NeedsQuotes(e) && e != []
    ensures !TriggersQuoting(e[0]) && !NeedsQuotes(e[1..])
  {
    forall i | 0 <= i < |e[1..]| ensures !TriggersQuoting(e[1..][i]) {
      assert e[1..][i] == e[i + 1];
    }
  }

  ghost predicate Preserved(e: string) {
    NeedsQuotes(e) || Plain(e)
  }

  lemma {:induction false} ElementReadsBack(e: string, rest: string)
    requires Preserved(e)
    ensures Scan(QuoteForShell(e) + rest, None) == Scan(rest, Some(e))
  {
    GrowTwice(None, e, []);
    if NeedsQuotes(e) {
      QuotedReadsBack(e, None, rest);
    } else {
      PlainReadsBack(e, None, rest);
    }
  }

  lemma {:induction false} JoinedReadsBack(argv: seq<string>)
    requires forall e :: e in argv ==> Preserved(e)
    ensures Tokens(JoinArgv(argv)) == Some(argv)
  {
    if |argv| == 1 {
      ElementReadsBack(argv[0], []);
      assert QuoteForShell(argv[0]) + [] == QuoteForShell(argv[0]);
      assert [argv[0]] + [] == argv;
    } else if argv != [] {
      var rest := [' '] + JoinArgv(argv[1..]);
      assert JoinArgv(argv) == QuoteForShell(argv[0]) + rest;
      ElementReadsBack(argv[0], rest);
      ScanBlank(' ', JoinArgv(argv[1..]), Some(argv[0]));
      JoinedReadsBack(argv[1..]);
      assert Tokens(JoinArgv(argv)) == Front(Some(argv[0]), Some(argv[1..]));
      assert [argv[0]] + argv[1..] == argv;
    }
  }

  // ------------------------------------------------------------------ nothing else does

  /** A token made of unquoted characters only. */
  ghost predicate Bare(t: string) {
    t != [] && '\t' !in t
  }

  /** The tokens of a line: some bare ones, then those of the text after it. */
  ghost predicate BareThen(tokens: seq<string>, k: nat, later: seq<string>) {
    k <= |tokens| && tokens[k..] == later && forall i :: 0 <= i < k ==> Bare(tokens[i])
  }

  ghost predicate NoSpecial(e: string) {
    forall i :: 0 <= i < |e| ==> !IsSpecial(e[i])
  }

  predicate EndsElement(rest: string) {
    rest == [] || rest[0] == ' '
  }

  function AfterSpace(rest: string): string {
    if rest == [] then [] else rest[1..]
  }

  ghost predicate BareWord(word: Option<string>) {
    word.Some? ==> Bare(word.value)
  }

  /** The reading of a text whose unquoted beginning `e` ends at `rest`. */
  ghost predicate ReadsBare(e: string, word: Option<string>, rest: string, k: nat) {
    && Scan(AfterSpace(rest), None).Some?
    && Scan(e + rest, word).Some?
    && BareThen(Scan(e + rest, word).value, k, Scan(AfterSpace(rest), None).value)
  }

  lemma {:induction false} BareEnds(word: Option<string>, rest: string) returns (k: nat)
    requires EndsElement(rest) && BareWord(word) && Scan(rest, word).Some?
    ensures ReadsBare([], word, rest, k)
  {
    assert [] + rest == rest;
    k := if word.Some? then 1 else 0;
    if rest != [] {
      assert rest == [' '] + rest[1..];
      ScanBlank(' ', rest[1..], word);
    }
  }

  lemma {:induction false} BareBlank(c: char, e: string, word: Option<string>, rest: string, j: nat) returns (k: nat)
    requires IsBlank(c) && BareWord(word) && Scan([c] + (e + rest), word).Some?
    requires ReadsBare(e, None, rest, j)
    ensures ReadsBare([c] + e, word, rest, k)
  {
    assert [c] + e + rest == [c] + (e + rest);
    ScanBlank(c, e + rest, word);
    k := if word.Some? then j + 1 else j;
  }

  lemma {:induction false} BarePlain(c: char, e: string, word: Option<string>, rest: string, k: nat)
    requires !TriggersQuoting(c) && !IsBlank(c) && Scan([c] + (e + rest), word).Some?
    requires ReadsBare(e, Grow(word, [c]), rest, k)
    ensures ReadsBare([c] + e, word, rest, k)
  {
    assert [c] + e + rest == [c] + (e + rest);
    ScanPlain(c, e + rest, word);
  }

  lemma {:induction false} UnquotedTokens(e: string, word: Option<string>, rest: string) returns (k: nat)
    requires !NeedsQuotes(e) && EndsElement(rest) && BareWord(word)
    requires Scan(e + rest, word).Some?
    ensures NoSpecial(e) && (word.None? && e != [] ==> !IsSpecialFirst(e[0]))
    ensures ReadsBare(e, word, rest, k)
  {
    if e == [] {
      assert e + rest == rest;
      k := BareEnds(word, rest);
    } else {
      var c, more := e[0], e[1..];
      assert e + rest == [c] + (more + rest);
      assert [c] + more == e;
      UnquotedTail(e);
      NotSpecial(c, more + rest, word);
      if IsBlank(c) {
        ScanBlank(c, more + rest, word);
        var j := UnquotedTokens(more, None, rest);
        k := BareBlank(c, more, word, rest, j);
      } else {
        ScanPlain(c, more + rest, word);
        k := UnquotedTokens(more, Grow(word, [c]), rest);
        BarePlain(c, more, word, rest, k);
      }
      SpecialFront(e);
    }
  }

  lemma {:induction false} NotSpecial(c: char, r: string, word: Option<string>)
    requires !TriggersQuoting(c) && Scan([c] + r, word).Some?
    ensures !IsSpecial(c) && (word.None? ==> !IsSpecialFirst(c))
  {
    if !IsBlank(c) {
      ScanPlain(c, r, word);
    }
  }

  lemma {:induction false} SpecialFront(e: string)
    requires e != [] && !IsSpecial(e[0]) && NoSpecial(e[1..])
    ensures NoSpecial(e)
  {
    assert forall i :: 0 < i < |e| ==> e[i] == e[1..][i - 1];
  }

  /** Every token of a joined line is an element that was quoted, or bare; every element that was not quoted holds
      no special character. */
  lemma {:induction false} JoinedTokens(argv: seq<string>)
    requires Tokens(JoinArgv(argv)).Some?
    ensures forall t :: t in Tokens(JoinArgv(argv)).value ==> NeedsQuotes(t) || Bare(t)
    ensures forall e :: e in argv && !NeedsQuotes(e) ==> NoSpecial(e) && (e != [] ==> !IsSpecialFirst(e[0]))
  {
    if argv != [] {
      var e := argv[0];
      var rest := if |argv| == 1 then [] else [' '] + JoinArgv(argv[1..]);
      assert JoinArgv(argv) == QuoteForShell(e) + rest;
      assert AfterSpace(rest) == if |argv| == 1 then [] else JoinArgv(argv[1..]);
      if NeedsQuotes(e) {
        ElementReadsBack(e, rest);
      } else {
        var k := UnquotedTokens(e, None, rest);
        var tokens := Tokens(JoinArgv(argv)).value;
        assert tokens == tokens[..k] + tokens[k..];
      }
      if |argv| > 1 {
        JoinedTokens(argv[1..]);
      }
    }
  }

  /** The round trip, exactly: the shell reads the joined line back as the argument vector if and only if every
      element either triggers quoting, whatever else it contains, or is non-empty and holds no character the shell
      treats specially. */
  lemma {:induction false} RoundTripExactly(argv: seq<string>)
    ensures Tokens(JoinArgv(argv)) == Some(argv) <==> forall e :: e in argv ==> Preserved(e)
  {
    if forall e :: e in argv ==> Preserved(e) {
      JoinedReadsBack(argv);
    }
    if Tokens(JoinArgv(argv)) == Some(argv) {
      JoinedTokens(argv);
      forall e | e in argv ensures Preserved(e) {
        assert NeedsQuotes(e) || Bare(e);
        if !NeedsQuotes(e) {
          forall i | 0 <= i < |e| ensures !IsBlank(e[i]) {
            assert !TriggersQuoting(e[i]);
          }
        }
      }
    }
  }
}
