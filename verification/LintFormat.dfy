/** A fix run writes what it changed (internal/lint/lint.go). */
module LintFormat {
  // When some finding is fixable the fixed file is formatted and written. On the unambiguous fragment the text that is
  // written means what the file meant, under the condition of the formatter.

  import opened Ast
  import opened Compile
  import opened StableBuckets
  import opened OrderEntries
  import opened Layout
  import opened ReadBack
  import opened ClauseReadBack
  import opened BodyReadBack
  import opened FileReadBack
  import opened FormatMeaning
  import opened Sorting
  import opened RoundTrip
  import opened Lint
  import P = Printer
  import Parser
  import Q = Quoted

  // --------------------------------------------------------------- what a fix may change

  predicate StepFixes(a: Step, b: Step) {
    b == a || (a.Cmd? && b == Exec(a.tokens))
  }

  ghost predicate Fixes(a: BodyEntry, b: BodyEntry) {
    match a
    case Steps(steps) => b.Steps? && Pairwise(StepFixes, steps, b.steps)
    case OneStep(step) => b.OneStep? && StepFixes(step, b.step)
    case _ => b == a
  }

  ghost predicate FormFixes(a: TargetForm, b: TargetForm) {
    match a
    case SingleLine(tokens) => b == if tokens == [] then a else Braced([Steps([Exec(tokens)])])
    case Braced(es) => b.Braced? && Pairwise(Fixes, es, b.body)
  }

  ghost predicate BlockFixes(a: FileEntry, b: FileEntry) {
    if a.TargetBlock? then b.TargetBlock? && b.name == a.name && FormFixes(a.form, b.form) else b == a
  }

  lemma {:induction false} EntryIsFixed(e: BodyEntry, name: string, keys: set<(string, nat)>, idx: nat)
    ensures Fixes(e, FixedEntry(e, name, keys, idx))
  {
  }

  lemma {:induction false} FileIsFixed(ast: Bakefile, keys: set<(string, nat)>)
    ensures Pairwise(BlockFixes, ast.entries, Fixed(ast, keys).entries)
  {
    forall i | 0 <= i < |ast.entries| ensures BlockFixes(ast.entries[i], Fixed(ast, keys).entries[i]) {
      var e := ast.entries[i];
      if e.TargetBlock? && e.form.Braced? {
        var es := e.form.body;
        forall j | 0 <= j < |es| ensures Fixes(es[j], FixedBody(es, e.name, keys)[j]) {
          EntryIsFixed(es[j], e.name, keys, Offset(es, j));
        }
      }
    }
  }

  // ------------------------------------------------------------ the fragment is not left

  lemma {:induction false} WordIsPlain(w: string)
    requires IsWord(w)
    ensures !Q.EndsInBackslash(w)
  {
  }

  lemma {:induction false} WordsArePlain(ws: seq<string>)
    requires GoodWords(ws)
    ensures GoodStep(Exec(ws))
  {
    forall w | w in ws ensures !Q.EndsInBackslash(w) {
      WordIsPlain(w);
    }
  }

  lemma {:induction false} StepStaysGood(a: Step, b: Step)
    requires StepFixes(a, b) && GoodStep(a)
    ensures GoodStep(b) && (b.Cmd? ==> a.Cmd?)
  {
    if a.Cmd? {
      WordsArePlain(a.tokens);
    }
  }

  lemma {:induction false} EntryStaysGood(a: BodyEntry, b: BodyEntry)
    requires Fixes(a, b) && GoodEntry(a)
    ensures GoodEntry(b) && (IsGreedy(b) ==> IsGreedy(a))
  {
    if a.Steps? {
      forall i | 0 <= i < |a.steps| ensures GoodStep(b.steps[i]) && (b.steps[i].Cmd? ==> a.steps[i].Cmd?) {
        StepStaysGood(a.steps[i], b.steps[i]);
      }
    } else if a.OneStep? {
      StepStaysGood(a.step, b.step);
    }
  }

  lemma {:induction false} EntriesStayGood(a: seq<BodyEntry>, b: seq<BodyEntry>)
    requires Pairwise(Fixes, a, b) && GoodEntries(a)
    ensures GoodEntries(b)
  {
    forall i | 0 <= i < |a| ensures GoodEntry(b[i]) && (IsGreedy(b[i]) ==> IsGreedy(a[i])) {
      EntryStaysGood(a[i], b[i]);
    }
  }

  lemma {:induction false} FixesKeepsKind()
    ensures KeepsKind(Fixes, Kind)
  {
  }

  lemma {:induction false} OneClauseOrdered(e: BodyEntry)
    ensures Ordered([e]) == [e]
  {
    OrderedIsStableSort([e]);
    var out := Ordered([e]);
    assert multiset(out) == multiset{e};
    assert |out| == |multiset(out)| == 1;
    assert out[0] in multiset(out);
  }

  lemma {:induction false} LineStaysGood(tokens: seq<string>)
    requires GoodWords(tokens)
    ensures GoodEntries(Ordered([Steps([Exec(tokens)])]))
  {
    WordsArePlain(tokens);
    OneClauseOrdered(Steps([Exec(tokens)]));
  }

  lemma {:induction false} BodyStaysGood(a: seq<BodyEntry>, b: seq<BodyEntry>)
    requires Pairwise(Fixes, a, b) && GoodEntries(Ordered(a))
    ensures GoodEntries(Ordered(b))
  {
    FixesKeepsKind();
    GroupedPairwise(Fixes, Kind, KINDS, a, b, 0);
    EntriesStayGood(Ordered(a), Ordered(b));
  }

  lemma {:induction false} BlockStaysGood(e: FileEntry, f: FileEntry)
    requires BlockFixes(e, f) && GoodBlock(e)
    ensures GoodBlock(f) && (OnOneLine(f) ==> OnOneLine(e))
  {
    if OnOneLine(e) {
      LineStaysGood(e.form.tokens);
      assert BodyOf(f.form) == [Steps([Exec(e.form.tokens)])];
    } else if e.TargetBlock? && e.form.Braced? {
      BodyStaysGood(e.form.body, f.form.body);
      assert BodyOf(e.form) == e.form.body && BodyOf(f.form) == f.form.body;
    }
  }

  lemma {:induction false} ArrangedFixes(es: seq<FileEntry>, fs: seq<FileEntry>)
    requires Pairwise(BlockFixes, es, fs)
    ensures Pairwise(BlockFixes, P.Arranged(es), P.Arranged(fs))
    ensures PrivateMarker in es <==> PrivateMarker in fs
  {
    assert KeepsKind(BlockFixes, P.BlockKind);
    SectionFixes(es, fs, 2);
    SectionFixes(es, fs, 3);
    SectionFixes(es, fs, 4);
    OfKindPairwise(BlockFixes, P.BlockKind, es, fs, 0);
    MarkerStays(es, fs);
    var a, b := OfKind(P.BlockKind, es, 0) + P.MarkerOf(es), OfKind(P.BlockKind, fs, 0) + P.MarkerOf(fs);
    PairwiseJoins(BlockFixes, a, b, P.ByName(es, 2), P.ByName(fs, 2));
    PairwiseJoins(BlockFixes, a + P.ByName(es, 2), b + P.ByName(fs, 2), P.ByName(es, 3), P.ByName(fs, 3));
    PairwiseJoins(BlockFixes, a + P.ByName(es, 2) + P.ByName(es, 3), b + P.ByName(fs, 2) + P.ByName(fs, 3),
                  P.ByName(es, 4), P.ByName(fs, 4));
  }

  lemma {:induction false} SectionFixes(es: seq<FileEntry>, fs: seq<FileEntry>, k: nat)
    requires Pairwise(BlockFixes, es, fs)
    ensures Pairwise(BlockFixes, P.ByName(es, k), P.ByName(fs, k))
  {
    assert KeepsKind(BlockFixes, P.BlockKind);
    OfKindPairwise(BlockFixes, P.BlockKind, es, fs, k);
    SortPairwise(BlockFixes, P.NameOf, OfKind(P.BlockKind, es, k), OfKind(P.BlockKind, fs, k));
  }

  lemma {:induction false} MarkerStays(es: seq<FileEntry>, fs: seq<FileEntry>)
    requires Pairwise(BlockFixes, es, fs)
    ensures PrivateMarker in es <==> PrivateMarker in fs
  {
    forall i | 0 <= i < |es| ensures es[i] == PrivateMarker <==> fs[i] == PrivateMarker {
      assert BlockFixes(es[i], fs[i]);
    }
  }

  /** A fix does not lead out of the fragment. */
  lemma {:induction false} StaysGood(ast: Bakefile, keys: set<(string, nat)>)
    requires GoodFile(ast)
    ensures GoodFile(Fixed(ast, keys))
  {
    var fixed := Fixed(ast, keys);
    FileIsFixed(ast, keys);
    ArrangedFixes(ast.entries, fixed.entries);
    var a, b := P.Arranged(ast.entries), P.Arranged(fixed.entries);
    forall i | 0 <= i < |a| ensures GoodBlock(b[i]) && (OnOneLine(b[i]) ==> OnOneLine(a[i])) {
      BlockStaysGood(a[i], b[i]);
    }
  }

  // --------------------------------------------------- nor do the conditions of the formatter

  lemma {:induction false} FormStays(a: TargetForm, b: TargetForm)
    requires FormFixes(a, b)
    ensures SaysPrivate(a) <==> SaysPrivate(b)
    ensures FormKept(a) <==> FormKept(b)
  {
    if a.Braced? {
      forall i | 0 <= i < |a.body|
        ensures (a.body[i] == Private <==> b.body[i] == Private) && (EntryKept(a.body[i]) <==> EntryKept(b.body[i]))
      {
        assert Fixes(a.body[i], b.body[i]);
      }
      assert BodyOf(a) == a.body && BodyOf(b) == b.body;
    } else if a.tokens != [] {
      assert BodyOf(a) == [] && BodyOf(b) == [Steps([Exec(a.tokens)])];
    }
  }

  lemma {:induction false} ConditionsStay(es: seq<FileEntry>, fs: seq<FileEntry>)
    requires Pairwise(BlockFixes, es, fs)
    ensures PrivateKept(es) <==> PrivateKept(fs)
    ensures BlocksKept(es) <==> BlocksKept(fs)
  {
    MarkerStays(es, fs);
    forall i | 0 <= i < |es|
      ensures BlockKept(es[i]) <==> BlockKept(fs[i])
      ensures es[i].TargetBlock? <==> fs[i].TargetBlock?
      ensures es[i].TargetBlock? ==> (SaysPrivate(es[i].form) <==> SaysPrivate(fs[i].form))
      ensures PrivateMarker in es[..i] <==> PrivateMarker in fs[..i]
    {
      assert BlockFixes(es[i], fs[i]);
      if es[i].TargetBlock? {
        FormStays(es[i].form, fs[i].form);
      }
      MarkerStays(es[..i], fs[..i]);
    }
    assert BlocksKept(es) <==> forall i :: 0 <= i < |es| ==> BlockKept(es[i]);
    assert BlocksKept(fs) <==> forall i :: 0 <= i < |fs| ==> BlockKept(fs[i]);
  }

  /** Fix, format, parse and compile: for every file of the fragment and whatever the findings, the text a fix run
      writes parses, and compiles to the configuration of the original file, sorted by name, if and only if the text
      of the original would. */
  lemma {:induction false} FixThenFormat(ast: Bakefile, findings: seq<Finding>)
    requires GoodFile(ast)
    ensures var text := P.Format(FixRun(ast, findings));
      && Parser.Parse(text).Some?
      && (FileOf(Parser.Parse(text).value) == SortedConfig(FileOf(ast)) <==>
            PrivateKept(ast.entries) && BlocksKept(ast.entries))
  {
    if AnyFixable(findings) {
      StaysGood(ast, Keys(findings));
      FileIsFixed(ast, Keys(findings));
      ConditionsStay(ast.entries, Fixed(ast, Keys(findings)).entries);
      FixPreservesCompile(ast, findings);
    }
    FormatPreservesMeaning(FixRun(ast, findings));
  }
}
