/** A lint rule and its fix (internal/lint/lint.go). */
module Lint {
  // The rule that finds what is fixed is prefer-exec (internal/lint/prefer_exec.go); the other three are here for what
  // they report, which decides whether the fixes are applied at all.
  // The tokens after `cmd` become the argv of `exec`.

  import C = Config
  import opened Ast
  import opened Compile
  import opened StableBuckets

  /** The step `stepIndex` (counted over the whole target) of `target` should be an exec. */
  datatype Finding = Finding(ruleID: string, fixable: bool, target: string, stepIndex: nat)

  // ------------------------------------------------------------- the rule, on values

  predicate IsCmd(s: Step) {
    s.Cmd? && s.tokens != []
  }

  /** The steps of a clause that takes part in the counting. */
  function StepsIn(e: BodyEntry): seq<Step> {
    if e.Steps? then e.steps else if e.OneStep? then [e.step] else []
  }

  /** The number of steps before clause `i`. */
  function Offset(es: seq<BodyEntry>, i: nat): nat
    requires i <= |es|
  {
    if i == 0 then 0 else Offset(es, i - 1) + |StepsIn(es[i - 1])|
  }

  /** Step `j` of clause `i` of the body is a cmd step. */
  ghost predicate FlaggedAt(es: seq<BodyEntry>, i: nat, j: nat) {
    i < |es| && j < |StepsIn(es[i])| && IsCmd(StepsIn(es[i])[j])
  }

  /** What the rule must report for a target. */
  ghost predicate Flagged(form: TargetForm, k: nat) {
    match form
    case SingleLine(tokens) => tokens != [] && k == 0
    case Braced(es) => exists i, j :: FlaggedAt(es, i, j) && k == Offset(es, i) + j
  }

  function FindingFor(target: string, k: nat): Finding {
    Finding("prefer-exec", true, target, k)
  }

  method PreferExec(ast: Bakefile) returns (out: seq<Finding>)
    ensures forall f :: f in out <==>
      exists e, k :: e in ast.entries && e.TargetBlock? && Flagged(e.form, k) && f == FindingFor(e.name, k)
  {
    out := [];
    for i := 0 to |ast.entries|
      invariant forall f :: f in out <==>
                            exists e, k :: e in ast.entries[..i] && e.TargetBlock? && Flagged(e.form, k)
                              && f == FindingFor(e.name, k)
    {
      var e := ast.entries[i];
      assert ast.entries[..i + 1] == ast.entries[..i] + [e];
      if e.TargetBlock? {
        var found := PreferExecTarget(e.name, e.form);
        out := out + found;
      }
    }
    assert ast.entries[..|ast.entries|] == ast.entries;
  }

  method PreferExecTarget(name: string, form: TargetForm) returns (out: seq<Finding>)
    ensures forall f :: f in out <==> exists k :: Flagged(form, k) && f == FindingFor(name, k)
  {
    out := [];
    match form {
      case SingleLine(tokens) =>
        if tokens != [] {
          assert Flagged(form, 0);
          out := [FindingFor(name, 0)];
        }
      case Braced(es) =>
        out := PreferExecBody(name, es);
        forall f ensures f in out <==> exists k :: Flagged(form, k) && f == FindingFor(name, k) {
          if k :| Flagged(form, k) && f == FindingFor(name, k) {
            var a, b :| FlaggedAt(es, a, b) && k == Offset(es, a) + b;
            assert FoundAt(es, name, f, a, b);
          }
          if f in out {
            var a: nat, b: nat :| FoundAt(es, name, f, a, b);
            assert Flagged(form, Offset(es, a) + b);
          }
        }
    }
  }

  method PreferExecBody(name: string, es: seq<BodyEntry>) returns (out: seq<Finding>)
    ensures forall f :: f in out <==> exists a: nat, b: nat :: FoundAt(es, name, f, a, b)
  {
    out := [];
    var stepIdx := 0;
    for i := 0 to |es|
      invariant stepIdx == Offset(es, i)
      invariant forall f :: f in out <==> exists a: nat, b: nat :: a < i && FoundAt(es, name, f, a, b)
    {
      var steps := StepsIn(es[i]);
      ghost var before := out;
      for j := 0 to |steps|
        invariant stepIdx == Offset(es, i) + j
        invariant forall f :: f in out <==> f in before || exists b: nat :: b < j && FoundAt(es, name, f, i, b)
      {
        if IsCmd(steps[j]) {
          assert FoundAt(es, name, FindingFor(name, stepIdx), i, j);
          out := out + [FindingFor(name, stepIdx)];
        }
        stepIdx := stepIdx + 1;
      }
    }
  }

  ghost predicate FoundAt(es: seq<BodyEntry>, name: string, f: Finding, a: nat, b: nat) {
    FlaggedAt(es, a, b) && f == FindingFor(name, Offset(es, a) + b)
  }

  // -------------------------------------------------------------- the fix, on values

  /** Which steps the findings ask to convert. */
  ghost function Keys(findings: seq<Finding>): set<(string, nat)> {
    set f | f in findings && f.ruleID == "prefer-exec" && f.fixable && f.target != "" :: (f.target, f.stepIndex)
  }

  function FixedStep(s: Step, wanted: bool): Step {
    if IsCmd(s) && wanted then Exec(s.tokens) else s
  }

  function FixedSteps(steps: seq<Step>, name: string, keys: set<(string, nat)>, idx: nat): (r: seq<Step>)
    ensures |r| == |steps|
    ensures forall i :: 0 <= i < |steps| ==> r[i] == FixedStep(steps[i], (name, idx + i) in keys)
  {
    seq(|steps|, i requires 0 <= i < |steps| => FixedStep(steps[i], (name, idx + i) in keys))
  }

  function FixedEntry(e: BodyEntry, name: string, keys: set<(string, nat)>, idx: nat): (r: BodyEntry)
    ensures StepsIn(r) == FixedSteps(StepsIn(e), name, keys, idx)
  {
    if e.Steps? then Steps(FixedSteps(e.steps, name, keys, idx))
    else if e.OneStep? then OneStep(FixedStep(e.step, (name, idx) in keys))
    else e
  }

  function FixedBody(es: seq<BodyEntry>, name: string, keys: set<(string, nat)>): (r: seq<BodyEntry>)
    ensures |r| == |es|
    ensures forall i {:trigger r[i]} :: 0 <= i < |es| ==> r[i] == FixedEntry(es[i], name, keys, Offset(es, i))
  {
    seq(|es|, i requires 0 <= i < |es| => FixedEntry(es[i], name, keys, Offset(es, i)))
  }

  /** A single-line target is converted whether or not a finding names it. */
  function FixedForm(form: TargetForm, name: string, keys: set<(string, nat)>): TargetForm {
    match form
    case SingleLine(tokens) => if tokens == [] then form else Braced([Steps([Exec(tokens)])])
    case Braced(es) => Braced(FixedBody(es, name, keys))
  }

  function FixedFileEntry(e: FileEntry, keys: set<(string, nat)>): FileEntry {
    match e
    case TargetBlock(name, form) => TargetBlock(name, FixedForm(form, name, keys))
    case _ => e
  }

  function Fixed(ast: Bakefile, keys: set<(string, nat)>): (r: Bakefile)
    ensures |r.entries| == |ast.entries|
    ensures forall i :: 0 <= i < |ast.entries| ==> r.entries[i] == FixedFileEntry(ast.entries[i], keys)
  {
    ast.(entries := seq(|ast.entries|, i requires 0 <= i < |ast.entries| => FixedFileEntry(ast.entries[i], keys)))
  }

  // ---------------------------------------------------------- the loops of the fixer

  method FixSteps(steps: seq<Step>, name: string, keys: set<(string, nat)>, idx: nat)
    returns (out: seq<Step>, stepIdx: nat)
    ensures out == FixedSteps(steps, name, keys, idx)
    ensures stepIdx == idx + |steps|
  {
    out := steps;
    stepIdx := idx;
    for i := 0 to |steps|
      invariant stepIdx == idx + i && |out| == |steps|
      invariant forall j :: 0 <= j < i ==> out[j] == FixedStep(steps[j], (name, idx + j) in keys)
      invariant forall j :: i <= j < |steps| ==> out[j] == steps[j]
    {
      var s := out[i];
      if s.Cmd? && s.tokens != [] && (name, stepIdx) in keys {
        out := out[i := Exec(s.tokens)];
      }
      stepIdx := stepIdx + 1;
    }
  }

  method FixBody(es: seq<BodyEntry>, name: string, keys: set<(string, nat)>) returns (out: seq<BodyEntry>)
    ensures out == FixedBody(es, name, keys)
  {
    out := es;
    var stepIdx := 0;
    for i := 0 to |es|
      invariant stepIdx == Offset(es, i) && |out| == |es|
      invariant forall j {:trigger out[j]} :: 0 <= j < i ==> out[j] == FixedEntry(es[j], name, keys, Offset(es, j))
      invariant forall j {:trigger out[j]} :: i <= j < |es| ==> out[j] == es[j]
    {
      var e := es[i];
      if e.Steps? {
        var fixed, next := FixSteps(e.steps, name, keys, stepIdx);
        out, stepIdx := out[i := Steps(fixed)], next;
      } else if e.OneStep? {
        if e.step.Cmd? && e.step.tokens != [] && (name, stepIdx) in keys {
          out := out[i := OneStep(Exec(e.step.tokens))];
        }
        stepIdx := stepIdx + 1;
      }
    }
  }

  /** The entries of the file, updated in place. */
  method ApplyFixes(entries: array<FileEntry>, findings: seq<Finding>)
    modifies entries
    ensures forall i :: 0 <= i < entries.Length ==> entries[i] == FixedFileEntry(old(entries[i]), Keys(findings))
  {
    var keys: set<(string, nat)> := {};
    for i := 0 to |findings|
      invariant keys == Keys(findings[..i])
    {
      var f := findings[i];
      assert findings[..i + 1] == findings[..i] + [f];
      if f.ruleID == "prefer-exec" && f.fixable && f.target != "" {
        keys := keys + {(f.target, f.stepIndex)};
      }
    }
    assert findings[..|findings|] == findings;
    for i := 0 to entries.Length
      invariant forall j :: 0 <= j < i ==> entries[j] == FixedFileEntry(old(entries[j]), keys)
      invariant forall j :: i <= j < entries.Length ==> entries[j] == old(entries[j])
    {
      if entries[i].TargetBlock? {
        var name := entries[i].name;
        match entries[i].form {
          case SingleLine(tokens) =>
            if tokens != [] {
              entries[i] := TargetBlock(name, Braced([Steps([Exec(tokens)])]));
            }
          case Braced(es) =>
            var fixed := FixBody(es, name, keys);
            entries[i] := TargetBlock(name, Braced(fixed));
        }
      }
    }
  }

  // ------------------------------------------------------------------- the theorems

  lemma {:induction false} FixedStepsCompile(steps: seq<Step>, name: string, keys: set<(string, nat)>, idx: nat)
    ensures StepsOf(FixedSteps(steps, name, keys, idx)) == StepsOf(steps)
  {
  }

  lemma {:induction false} FixedEntryCompiles(t: C.Target, e: BodyEntry, name: string, keys: set<(string, nat)>,
                                              idx: nat)
    ensures WithEntry(t, FixedEntry(e, name, keys, idx)) == WithEntry(t, e)
  {
    if e.Steps? {
      FixedStepsCompile(e.steps, name, keys, idx);
    }
  }

  lemma {:induction false} PrefixStep(t: C.Target, es: seq<BodyEntry>, i: nat)
    requires 0 < i <= |es|
    ensures WithBody(t, es[..i]) == WithEntry(WithBody(t, es[..i - 1]), es[i - 1])
  {
    assert es[..i][..i - 1] == es[..i - 1];
  }

  lemma {:induction false} FixedPrefixCompiles(t: C.Target, es: seq<BodyEntry>, name: string, keys: set<(string, nat)>,
                                               i: nat)
    requires i <= |es|
    ensures WithBody(t, FixedBody(es, name, keys)[..i]) == WithBody(t, es[..i])
  {
    var fixed := FixedBody(es, name, keys);
    if i > 0 {
      FixedPrefixCompiles(t, es, name, keys, i - 1);
      PrefixStep(t, fixed, i);
      PrefixStep(t, es, i);
      FixedEntryCompiles(WithBody(t, es[..i - 1]), es[i - 1], name, keys, Offset(es, i - 1));
    }
  }

  lemma {:induction false} SingleLineCompiles(t: C.Target, tokens: seq<string>)
    requires t.steps == []
    ensures WithBody(t, [Steps([Exec(tokens)])]) == t.(steps := [C.Step("", tokens)])
  {
    var es := [Steps([Exec(tokens)])];
    assert es[..0] == [];
    assert StepsOf([Exec(tokens)]) == [C.Step("", tokens)];
    assert Fold(WithEntry, t, es[..0]) == t;
  }

  lemma {:induction false} BracedCompiles(t: C.Target, es: seq<BodyEntry>, name: string, keys: set<(string, nat)>)
    ensures WithBody(t, FixedBody(es, name, keys)) == WithBody(t, es)
  {
    FixedPrefixCompiles(t, es, name, keys, |es|);
    assert FixedBody(es, name, keys)[..|es|] == FixedBody(es, name, keys) && es[..|es|] == es;
  }

  /** Whatever the findings, a fixed target compiles to what the original compiles to. */
  lemma {:induction false} FixedFormCompiles(name: string, form: TargetForm, keys: set<(string, nat)>,
                                             filePrivate: bool)
    ensures TargetOf(name, FixedForm(form, name, keys), filePrivate) == TargetOf(name, form, filePrivate)
  {
    var t := C.BlankTarget(name, filePrivate);
    match form
    case SingleLine(tokens) => SingleLineCompiles(t, tokens);
    case Braced(es) => BracedCompiles(t, es, name, keys);
  }

  lemma {:induction false} FixedPrefixFile(p: Partial, ast: Bakefile, keys: set<(string, nat)>, i: nat)
    requires i <= |ast.entries|
    ensures WithFileEntries(p, Fixed(ast, keys).entries[..i]) == WithFileEntries(p, ast.entries[..i])
  {
    if i > 0 {
      var es, fixed := ast.entries, Fixed(ast, keys).entries;
      FixedPrefixFile(p, ast, keys, i - 1);
      assert fixed[..i][..i - 1] == fixed[..i - 1] && es[..i][..i - 1] == es[..i - 1];
      if es[i - 1].TargetBlock? {
        FixedFormCompiles(es[i - 1].name, es[i - 1].form, keys, WithFileEntries(p, es[..i - 1]).filePrivate);
      }
    }
  }

  /** The whole file, for every set of findings: Compile does not see the fix. */
  lemma {:induction false} FixPreservesCompile(ast: Bakefile, findings: seq<Finding>)
    ensures FileOf(Fixed(ast, Keys(findings))) == FileOf(ast)
  {
    var fixed := Fixed(ast, Keys(findings));
    FixedPrefixFile(Partial(C.File(ast.dotenv, [], [], [], []), false), ast, Keys(findings), |ast.entries|);
    assert fixed.entries[..|ast.entries|] == fixed.entries && ast.entries[..|ast.entries|] == ast.entries;
  }

  lemma {:induction false} OffsetSame(a: seq<BodyEntry>, b: seq<BodyEntry>, i: nat)
    requires i <= |a| == |b| && forall j :: 0 <= j < |a| ==> |StepsIn(a[j])| == |StepsIn(b[j])|
    ensures Offset(a, i) == Offset(b, i)
  {
    if i > 0 {
      OffsetSame(a, b, i - 1);
    }
  }

  lemma {:induction false} OffsetFixed(es: seq<BodyEntry>, name: string, keys: set<(string, nat)>, i: nat)
    requires i <= |es|
    ensures Offset(FixedBody(es, name, keys), i) == Offset(es, i)
  {
    OffsetSame(FixedBody(es, name, keys), es, i);
  }

  /** Applying the same fixes again changes nothing. */
  lemma {:induction false} FixIdempotent(ast: Bakefile, keys: set<(string, nat)>)
    ensures Fixed(Fixed(ast, keys), keys) == Fixed(ast, keys)
  {
    forall i | 0 <= i < |ast.entries|
      ensures FixedFileEntry(FixedFileEntry(ast.entries[i], keys), keys) == FixedFileEntry(ast.entries[i], keys)
    {
      if ast.entries[i].TargetBlock? {
        FixedFormIdempotent(ast.entries[i].form, ast.entries[i].name, keys);
      }
    }
  }

  lemma {:induction false} FixedFormIdempotent(form: TargetForm, name: string, keys: set<(string, nat)>)
    ensures FixedForm(FixedForm(form, name, keys), name, keys) == FixedForm(form, name, keys)
  {
    match form
    case Braced(es) =>
      var once := FixedBody(es, name, keys);
      forall i | 0 <= i < |es| ensures FixedEntry(once[i], name, keys, Offset(once, i)) == once[i] {
        OffsetFixed(es, name, keys, i);
        FixedEntryIdempotent(es[i], name, keys, Offset(es, i));
      }
      assert FixedBody(once, name, keys) == once;
    case SingleLine(tokens) =>
      if tokens != [] {
        var es := [Steps([Exec(tokens)])];
        assert FixedSteps([Exec(tokens)], name, keys, 0) == [Exec(tokens)];
        assert FixedBody(es, name, keys) == es;
      }
  }

  lemma {:induction false} FixedEntryIdempotent(e: BodyEntry, name: string, keys: set<(string, nat)>, idx: nat)
    ensures FixedEntry(FixedEntry(e, name, keys, idx), name, keys, idx) == FixedEntry(e, name, keys, idx)
  {
    if e.Steps? {
      var once := FixedSteps(e.steps, name, keys, idx);
      assert FixedSteps(once, name, keys, idx) == once;
    }
  }

  /** The findings name every cmd step of the file. */
  ghost predicate Complete(ast: Bakefile, keys: set<(string, nat)>) {
    forall i, k: nat :: 0 <= i < |ast.entries| && ast.entries[i].TargetBlock? && Flagged(ast.entries[i].form, k) ==>
                     (ast.entries[i].name, k) in keys
  }

  /** The rule's own findings are complete when every target has a name, as the grammar forces. */
  lemma {:induction false} RuleIsComplete(ast: Bakefile, findings: seq<Finding>)
    requires forall f :: f in findings <==>
      exists e, k :: e in ast.entries && e.TargetBlock? && Flagged(e.form, k) && f == FindingFor(e.name, k)
    requires forall e :: e in ast.entries && e.TargetBlock? ==> e.name != ""
    ensures Complete(ast, Keys(findings))
  {
    forall i, k: nat | 0 <= i < |ast.entries| && ast.entries[i].TargetBlock? && Flagged(ast.entries[i].form, k)
      ensures (ast.entries[i].name, k) in Keys(findings)
    {
      assert FindingFor(ast.entries[i].name, k) in findings;
    }
  }

  /** After fixing with complete findings the rule has nothing to report. */
  lemma {:induction false} NothingLeftToReport(ast: Bakefile, keys: set<(string, nat)>, i: nat, k: nat)
    requires Complete(ast, keys) && i < |ast.entries| && ast.entries[i].TargetBlock?
    ensures !Flagged(Fixed(ast, keys).entries[i].form, k)
  {
    var name, form := ast.entries[i].name, ast.entries[i].form;
    match form
    case SingleLine(tokens) =>
      assert tokens != [] ==> FixedForm(form, name, keys) == Braced([Steps([Exec(tokens)])]);
    case Braced(es) =>
      var fixed := FixedBody(es, name, keys);
      forall a: nat, b: nat ensures !FlaggedAt(fixed, a, b) {
        if a < |es| && b < |StepsIn(es[a])| {
          FlaggedMeansKeyed(es, name, keys, a, b);
        }
      }
  }

  lemma {:induction false} FlaggedMeansKeyed(es: seq<BodyEntry>, name: string, keys: set<(string, nat)>, a: nat, b: nat)
    requires a < |es| && b < |StepsIn(es[a])|
    requires forall k: nat :: Flagged(Braced(es), k) ==> (name, k) in keys
    ensures |StepsIn(FixedBody(es, name, keys)[a])| == |StepsIn(es[a])|
    ensures !IsCmd(StepsIn(FixedBody(es, name, keys)[a])[b])
  {
    if IsCmd(StepsIn(es[a])[b]) {
      assert FlaggedAt(es, a, b);
      assert Flagged(Braced(es), Offset(es, a) + b);
    }
  }

  // ------------------------------------------------------------- all rules, and the fix run

  /** A single-line target, or a step outside of a steps block. */
  predicate Unbracketed(e: FileEntry) {
    e.TargetBlock? && (match e.form
                       case SingleLine(tokens) => tokens != []
                       case Braced(es) => exists b :: b in es && b.OneStep?)
  }

  predicate Undescribed(e: FileEntry) {
    e.TargetBlock? && (e.form.Braced? ==> forall b :: b in e.form.body ==> !b.Desc?)
  }

  const BRACKETS := Finding("brackets-only", true, "", 0)
  const NODESC := Finding("require-desc", false, "", 0)

  function QuotedFinding(target: string): Finding {
    Finding("prefer-quoted-exec", true, target, 0)
  }

  /** What a run of the rules that are `on` reports. Quotes are not part of the parsed file here, so `unquoted` tells
      which targets have a list with an element written without them. */
  ghost predicate Reported(ast: Bakefile, on: set<string>, unquoted: set<string>, f: Finding) {
    || ("prefer-exec" in on &&
          exists e, k :: e in ast.entries && e.TargetBlock? && Flagged(e.form, k) && f == FindingFor(e.name, k))
    || ("brackets-only" in on && f == BRACKETS && exists e :: e in ast.entries && Unbracketed(e))
    || ("require-desc" in on && f == NODESC && exists e :: e in ast.entries && Undescribed(e))
    || ("prefer-quoted-exec" in on &&
          exists e :: e in ast.entries && InUnquoted(e, unquoted) && f == QuotedFinding(e.name))
  }

  predicate InUnquoted(e: FileEntry, unquoted: set<string>) {
    e.TargetBlock? && e.form.Braced? && e.name in unquoted
  }

  method BracketsOnly(ast: Bakefile) returns (out: seq<Finding>)
    ensures forall f :: f in out <==> f == BRACKETS && exists e :: e in ast.entries && Unbracketed(e)
  {
    out := [];
    for i := 0 to |ast.entries|
      invariant forall f :: f in out <==> f == BRACKETS && exists e :: e in ast.entries[..i] && Unbracketed(e)
    {
      assert ast.entries[..i + 1] == ast.entries[..i] + [ast.entries[i]];
      if Unbracketed(ast.entries[i]) {
        out := out + [BRACKETS];
      }
    }
    assert ast.entries[..|ast.entries|] == ast.entries;
  }

  method RequireDesc(ast: Bakefile) returns (out: seq<Finding>)
    ensures forall f :: f in out <==> f == NODESC && exists e :: e in ast.entries && Undescribed(e)
  {
    out := [];
    for i := 0 to |ast.entries|
      invariant forall f :: f in out <==> f == NODESC && exists e :: e in ast.entries[..i] && Undescribed(e)
    {
      assert ast.entries[..i + 1] == ast.entries[..i] + [ast.entries[i]];
      if Undescribed(ast.entries[i]) {
        out := out + [NODESC];
      }
    }
    assert ast.entries[..|ast.entries|] == ast.entries;
  }

  method PreferQuotedExec(ast: Bakefile, unquoted: set<string>) returns (out: seq<Finding>)
    ensures forall f :: f in out <==>
      exists e :: e in ast.entries && InUnquoted(e, unquoted) && f == QuotedFinding(e.name)
  {
    out := [];
    for i := 0 to |ast.entries|
      invariant forall f :: f in out <==>
        exists e :: e in ast.entries[..i] && InUnquoted(e, unquoted) && f == QuotedFinding(e.name)
    {
      assert ast.entries[..i + 1] == ast.entries[..i] + [ast.entries[i]];
      if InUnquoted(ast.entries[i], unquoted) {
        out := out + [QuotedFinding(ast.entries[i].name)];
      }
    }
    assert ast.entries[..|ast.entries|] == ast.entries;
  }

  /** Every rule of the registry that is on, in order. */
  method RunRules(ast: Bakefile, on: set<string>, unquoted: set<string>) returns (findings: seq<Finding>)
    ensures forall f :: f in findings <==> Reported(ast, on, unquoted, f)
  {
    var exec, brackets, desc, quoted := [], [], [], [];
    if "prefer-exec" in on {
      exec := PreferExec(ast);
    }
    if "brackets-only" in on {
      brackets := BracketsOnly(ast);
    }
    if "require-desc" in on {
      desc := RequireDesc(ast);
    }
    if "prefer-quoted-exec" in on {
      quoted := PreferQuotedExec(ast, unquoted);
    }
    findings := exec + brackets + desc + quoted;
  }

  ghost predicate AnyFixable(findings: seq<Finding>) {
    exists f :: f in findings && f.fixable
  }

  /** What a fix run makes of the parsed file: nothing at all without a fixable finding. */
  ghost function FixRun(ast: Bakefile, findings: seq<Finding>): Bakefile {
    if AnyFixable(findings) then Fixed(ast, Keys(findings)) else ast
  }

  /** The guard of the callers, then the fixes; `write` says whether the file is written. */
  method LintFix(entries: array<FileEntry>, findings: seq<Finding>) returns (write: bool)
    modifies entries
    ensures write == AnyFixable(findings)
    ensures forall dotenv :: Bakefile(dotenv, entries[..]) == FixRun(Bakefile(dotenv, old(entries[..])), findings)
  {
    write := false;
    for i := 0 to |findings|
      invariant write == exists f :: f in findings[..i] && f.fixable
    {
      assert findings[..i + 1] == findings[..i] + [findings[i]];
      write := write || findings[i].fixable;
    }
    assert findings[..|findings|] == findings;
    ghost var was := entries[..];
    if write {
      ApplyFixes(entries, findings);
      forall dotenv ensures entries[..] == Fixed(Bakefile(dotenv, was), Keys(findings)).entries {
      }
    }
  }

  // --------------------------------------------------------------------- a disabled rule

  lemma {:induction false} UnkeyedStays(e: FileEntry)
    ensures FixedFileEntry(e, {}) == e <==> !OnOneLine(e)
  {
    if e.TargetBlock? && e.form.Braced? {
      forall i | 0 <= i < |e.form.body|
        ensures FixedEntry(e.form.body[i], e.name, {}, Offset(e.form.body, i)) == e.form.body[i]
      {
        var b := e.form.body[i];
        if b.Steps? {
          assert FixedSteps(b.steps, e.name, {}, Offset(e.form.body, i)) == b.steps;
        }
      }
      assert FixedBody(e.form.body, e.name, {}) == e.form.body;
    }
  }

  /** Without a finding of prefer-exec, the fix run leaves a file alone if and only if nothing is fixable or no
      single-line target has words. */
  lemma {:induction false} UnchangedExactly(ast: Bakefile, findings: seq<Finding>)
    requires forall f :: f in findings ==> f.ruleID != "prefer-exec"
    ensures FixRun(ast, findings) == ast <==> !AnyFixable(findings) || forall e :: e in ast.entries ==> !OnOneLine(e)
  {
    assert Keys(findings) == {};
    var fixed := Fixed(ast, {});
    forall i | 0 <= i < |ast.entries| ensures fixed.entries[i] == ast.entries[i] <==> !OnOneLine(ast.entries[i]) {
      UnkeyedStays(ast.entries[i]);
    }
    if forall e :: e in ast.entries ==> !OnOneLine(e) {
      assert fixed.entries == ast.entries;
    }
  }

  /** The documentation says a disabled rule is off entirely. With prefer-exec disabled, the fix run converts exactly
      those files that have a single-line target with words and a fixable finding: one of brackets-only, which asks for
      that target to be bracketed but not for exec, or one of prefer-quoted-exec, about any target. */
  lemma {:induction false} DisabledExactly(ast: Bakefile, on: set<string>, unquoted: set<string>,
                                           findings: seq<Finding>)
    requires "prefer-exec" !in on && forall f :: f in findings <==> Reported(ast, on, unquoted, f)
    ensures FixRun(ast, findings) != ast <==>
      && (exists e :: e in ast.entries && OnOneLine(e))
      && ("brackets-only" in on
        || ("prefer-quoted-exec" in on && exists e :: e in ast.entries && InUnquoted(e, unquoted)))
  {
    UnchangedExactly(ast, findings);
    if e :| e in ast.entries && OnOneLine(e) {
      assert Unbracketed(e);
      if "brackets-only" in on {
        assert Reported(ast, on, unquoted, BRACKETS);
      } else if f :| f in ast.entries && InUnquoted(f, unquoted) && "prefer-quoted-exec" in on {
        assert Reported(ast, on, unquoted, QuotedFinding(f.name));
      }
      if f :| f in findings && f.fixable {
        assert Reported(ast, on, unquoted, f);
      }
    }
  }

  /** One such file: the only target is `target build cmd make`, and every rule but prefer-exec is on. */
  lemma {:induction false} DisabledStillConverts(findings: seq<Finding>)
    requires forall f :: f in findings <==> Reported(OneLineFile(), OTHERS, {}, f)
    ensures BRACKETS in findings && forall f :: f in findings ==> f.ruleID != "prefer-exec"
    ensures FixRun(OneLineFile(), findings).entries == [TargetBlock("build", Braced([Steps([Exec(["make"])])]))]
  {
    var e := TargetBlock("build", SingleLine(["make"]));
    assert e in OneLineFile().entries && OnOneLine(e) && Unbracketed(e);
    assert Reported(OneLineFile(), OTHERS, {}, BRACKETS);
    forall f | f in findings ensures f.ruleID != "prefer-exec" {
      assert Reported(OneLineFile(), OTHERS, {}, f);
    }
    assert FixedFileEntry(e, Keys(findings)) == TargetBlock("build", Braced([Steps([Exec(["make"])])]));
  }

  const OTHERS := {"brackets-only", "require-desc", "prefer-quoted-exec"}

  function OneLineFile(): Bakefile {
    Bakefile([], [TargetBlock("build", SingleLine(["make"]))])
  }
}
