/** What compiling daemons, presets, profiles and whole files means, field by field (internal/dsl/parser.go). */
module PartsMeaning {
  import C = Config
  import opened Ast
  import opened Compile
  import opened StableBuckets
  import opened BodyMeaning

  // ---------------------------------------------------------------------------- daemons

  /** A daemon has the steps, pairs, networks and volumes of all its clauses in order, the last working directory
      and the last image, and is unsafe if some clause says so; its other clauses do nothing. */
  lemma {:induction false} DaemonMeans(name: string, body: seq<BodyEntry>)
    ensures var d := DaemonOf(name, body);
      && d.name == name
      && d.steps == Gather(StepParts, body)
      && d.env == WithPairs(map[], Gather(PairParts, body))
      && d.cwd == LastOr("", Gather(CwdParts, body))
      && d.image == LastOr("", Gather(ImageParts, body))
      && (d.unsafe <==> Unsafe in body)
      && d.networks == Gather(NetParts, body)
      && d.volumes == Gather(VolParts, body)
  {
    var blank := C.Daemon(name, [], map[], "", "", false, [], []);
    DaemonLists(blank, body);
    DaemonFields(blank, body);
    MarksSaid(false, body);
  }

  lemma {:induction false} DaemonLists(d: C.Daemon, es: seq<BodyEntry>)
    ensures var r := WithDaemonBody(d, es);
      && r.steps == d.steps + Gather(StepParts, es)
      && r.networks == d.networks + Gather(NetParts, es)
      && r.volumes == d.volumes + Gather(VolParts, es)
      && r.env == WithPairs(d.env, Gather(PairParts, es))
  {
    if es != [] {
      var init, last := es[..|es| - 1], es[|es| - 1];
      DaemonLists(d, init);
      DaemonListStep(WithDaemonBody(d, init), last);
      DaemonPairStep(WithDaemonBody(d, init), last);
      FoldConcat(WithPair, d.env, Gather(PairParts, init), PairParts(last));
    }
  }

  lemma {:induction false} DaemonListStep(d: C.Daemon, e: BodyEntry)
    ensures var r := WithDaemonEntry(d, e);
      && r.steps == d.steps + StepParts(e)
      && r.networks == d.networks + NetParts(e)
      && r.volumes == d.volumes + VolParts(e)
  {
  }

  lemma {:induction false} DaemonPairStep(d: C.Daemon, e: BodyEntry)
    ensures WithDaemonEntry(d, e).env == WithPairs(d.env, PairParts(e))
  {
  }

  lemma {:induction false} DaemonFields(d: C.Daemon, es: seq<BodyEntry>)
    ensures var r := WithDaemonBody(d, es);
      && r.name == d.name
      && r.cwd == LastOr(d.cwd, Gather(CwdParts, es))
      && r.image == LastOr(d.image, Gather(ImageParts, es))
      && r.unsafe == LastOr(d.unsafe, Gather(UnsafeParts, es))
  {
    if es != [] {
      var init, last := es[..|es| - 1], es[|es| - 1];
      DaemonFields(d, init);
      DaemonFieldStep(WithDaemonBody(d, init), last);
      LastOfBoth(d.cwd, Gather(CwdParts, init), CwdParts(last));
      LastOfBoth(d.image, Gather(ImageParts, init), ImageParts(last));
      LastOfBoth(d.unsafe, Gather(UnsafeParts, init), UnsafeParts(last));
    }
  }

  lemma {:induction false} DaemonFieldStep(d: C.Daemon, e: BodyEntry)
    ensures var r := WithDaemonEntry(d, e);
      && r.name == d.name && r.cwd == LastOr(d.cwd, CwdParts(e)) && r.image == LastOr(d.image, ImageParts(e))
      && r.unsafe == LastOr(d.unsafe, UnsafeParts(e))
  {
  }

  // ---------------------------------------------------------------------------- presets

  function ArgvParts(e: PresetEntry): seq<string> {
    if e.PresetArgv? then e.argv else []
  }

  function PresetPairParts(e: PresetEntry): seq<EnvPair> {
    if e.PresetEnv? then e.pairs else []
  }

  function PresetDescParts(e: PresetEntry): seq<string> {
    if e.PresetDesc? then [e.text] else []
  }

  function PresetStepParts(e: PresetEntry): seq<C.Step> {
    if e.PresetSteps? then StepsOf(e.steps) else []
  }

  /** A preset has the arguments, pairs and steps of all its entries in order and the last description. */
  lemma {:induction false} PresetMeans(name: string, entries: seq<PresetEntry>)
    ensures var p := PresetOf(name, entries);
      && p.name == name
      && p.argv == Gather(ArgvParts, entries)
      && p.env == WithPairs(map[], Gather(PresetPairParts, entries))
      && p.desc == LastOr("", Gather(PresetDescParts, entries))
      && p.steps == Gather(PresetStepParts, entries)
  {
    PresetLists(C.Preset(name, "", [], [], map[]), entries);
  }

  lemma {:induction false} PresetLists(p: C.Preset, es: seq<PresetEntry>)
    ensures var r := WithPresetEntries(p, es);
      && r.name == p.name
      && r.argv == p.argv + Gather(ArgvParts, es)
      && r.env == WithPairs(p.env, Gather(PresetPairParts, es))
      && r.desc == LastOr(p.desc, Gather(PresetDescParts, es))
      && r.steps == p.steps + Gather(PresetStepParts, es)
  {
    if es != [] {
      var init, last := es[..|es| - 1], es[|es| - 1];
      PresetLists(p, init);
      PresetStep(WithPresetEntries(p, init), last);
      FoldConcat(WithPair, p.env, Gather(PresetPairParts, init), PresetPairParts(last));
      LastOfBoth(p.desc, Gather(PresetDescParts, init), PresetDescParts(last));
    }
  }

  lemma {:induction false} PresetStep(p: C.Preset, e: PresetEntry)
    ensures var r := WithPresetEntry(p, e);
      && r.name == p.name
      && r.argv == p.argv + ArgvParts(e)
      && r.env == WithPairs(p.env, PresetPairParts(e))
      && r.desc == LastOr(p.desc, PresetDescParts(e))
      && r.steps == p.steps + PresetStepParts(e)
  {
  }

  // ---------------------------------------------------------------------------- profiles

  function DotenvParts(e: ProfileEntry): seq<string> {
    if e.ProfileDotenv? then e.paths else []
  }

  function ProfilePairParts(e: ProfileEntry): seq<EnvPair> {
    if e.ProfileEnv? then e.pairs else []
  }

  lemma {:induction false} ProfileMeans(p: C.Profile, es: seq<ProfileEntry>)
    ensures var r := WithProfileEntries(p, es);
      && r.name == p.name
      && r.dotenv == p.dotenv + Gather(DotenvParts, es)
      && r.env == WithPairs(p.env, Gather(ProfilePairParts, es))
  {
    if es != [] {
      var init, last := es[..|es| - 1], es[|es| - 1];
      ProfileMeans(p, init);
      FoldConcat(WithPair, p.env, Gather(ProfilePairParts, init), ProfilePairParts(last));
    }
  }

  // ---------------------------------------------------------------------------- suites

  /** A bare member with one dot names a preset of a target ... */
  lemma {:induction false} DotNamesPreset(target: string, preset: string)
    requires '.' !in target && '.' !in preset
    ensures Raw(Bare(target + "." + preset)) == target + " " + preset
  {
    DotReplaced(target, preset);
  }

  /** ... and any other member is kept as it is. */
  lemma {:induction false} OthersStay(v: string, i: nat, j: nat)
    ensures Raw(Quoted(v)) == v
    ensures '.' !in v ==> Raw(Bare(v)) == v
    ensures i < j < |v| && v[i] == '.' && v[j] == '.' ==> Raw(Bare(v)) == v
  {
    if '.' !in v {
      NoDots(v);
    }
    if i < j < |v| && v[i] == '.' && v[j] == '.' {
      TwoDots(v, i, j);
    }
  }

  lemma {:induction false} NoDots(s: string)
    requires '.' !in s
    ensures Count(s, '.') == 0
  {
    if s != "" {
      NoDots(s[1..]);
    }
  }

  lemma {:induction false} SomeDot(s: string, i: nat)
    requires i < |s| && s[i] == '.'
    ensures Count(s, '.') >= 1
  {
    if i > 0 {
      SomeDot(s[1..], i - 1);
    }
  }

  lemma {:induction false} TwoDots(s: string, i: nat, j: nat)
    requires i < j < |s| && s[i] == '.' && s[j] == '.'
    ensures Count(s, '.') >= 2
  {
    if i > 0 {
      TwoDots(s[1..], i - 1, j - 1);
    } else {
      SomeDot(s[1..], j - 1);
    }
  }

  lemma {:induction false} DotReplaced(a: string, b: string)
    requires '.' !in a && '.' !in b
    ensures Count(a + "." + b, '.') == 1 && ReplaceFirst(a + "." + b, '.', ' ') == a + " " + b
  {
    if a == "" {
      assert a + "." + b == "." + b && ("." + b)[1..] == b && a + " " + b == " " + b;
      NoDots(b);
    } else {
      assert (a + "." + b)[1..] == a[1..] + "." + b;
      DotReplaced(a[1..], b);
      assert [a[0]] + (a[1..] + " " + b) == a + " " + b;
    }
  }

  // ---------------------------------------------------------------------------- files

  function ImportParts(e: FileEntry): seq<string> {
    if e.Import? then [e.path] else []
  }

  function ProfileParts(e: FileEntry): seq<C.Profile> {
    if e.ProfileBlock? then [ProfileOf(e.name, e.settings)] else []
  }

  function SuiteParts(e: FileEntry): seq<C.Suite> {
    if e.SuiteBlock? then [C.Suite(e.name, RefsOf(e.members))] else []
  }

  function TargetParts(e: FileEntry): seq<FileEntry> {
    if e.TargetBlock? then [e] else []
  }

  /** Imports, profiles and suites of a file are those of its blocks, in the order of the file. */
  lemma {:induction false} FileMeans(ast: Bakefile)
    ensures var f := FileOf(ast);
      && f.dotenv == ast.dotenv
      && f.imports == Gather(ImportParts, ast.entries)
      && f.profiles == Gather(ProfileParts, ast.entries)
      && f.suites == Gather(SuiteParts, ast.entries)
  {
    BlocksMean(Partial(C.File(ast.dotenv, [], [], [], []), false), ast.entries);
  }

  lemma {:induction false} BlocksMean(p: Partial, es: seq<FileEntry>)
    ensures var r := WithFileEntries(p, es);
      && r.file.dotenv == p.file.dotenv
      && r.file.imports == p.file.imports + Gather(ImportParts, es)
      && r.file.profiles == p.file.profiles + Gather(ProfileParts, es)
      && r.file.suites == p.file.suites + Gather(SuiteParts, es)
  {
    if es != [] {
      var init, last := es[..|es| - 1], es[|es| - 1];
      BlocksMean(p, init);
      BlockStep(WithFileEntries(p, init), last);
    }
  }

  lemma {:induction false} BlockStep(p: Partial, e: FileEntry)
    ensures var r := WithFileEntry(p, e);
      && r.file.dotenv == p.file.dotenv
      && r.file.imports == p.file.imports + ImportParts(e)
      && r.file.profiles == p.file.profiles + ProfileParts(e)
      && r.file.suites == p.file.suites + SuiteParts(e)
  {
  }

  lemma {:induction false} TargetsGrow(p: Partial, es: seq<FileEntry>)
    ensures var r := WithFileEntries(p, es);
      && |r.file.targets| == |p.file.targets| + |Gather(TargetParts, es)|
      && (r.filePrivate <==> p.filePrivate || PrivateMarker in es)
  {
    if es != [] {
      var init, last := es[..|es| - 1], es[|es| - 1];
      assert es == init + [last];
      TargetsGrow(p, init);
      TargetStep(WithFileEntries(p, init), last);
    }
  }

  lemma {:induction false} TargetStep(p: Partial, e: FileEntry)
    ensures var r := WithFileEntry(p, e);
      && r.file.targets ==
           p.file.targets + (if e.TargetBlock? then [TargetOf(e.name, e.form, p.filePrivate)] else [])
      && (r.filePrivate <==> p.filePrivate || e == PrivateMarker)
  {
  }

  /** Its targets are the target blocks in the order of the file, each compiled as private exactly if the file-level
      `private` stands above it. */
  lemma {:induction false} TargetsMean(ast: Bakefile, i: nat)
    requires i < |ast.entries| && ast.entries[i].TargetBlock?
    ensures var e, k := ast.entries[i], |Gather(TargetParts, ast.entries[..i])|;
      && |FileOf(ast).targets| == |Gather(TargetParts, ast.entries)|
      && k < |FileOf(ast).targets|
      && FileOf(ast).targets[k] == TargetOf(e.name, e.form, PrivateMarker in ast.entries[..i])
  {
    var blank := Partial(C.File(ast.dotenv, [], [], [], []), false);
    TargetsGrow(blank, ast.entries);
    TargetStays(blank, ast.entries, i);
  }

  lemma {:induction false} TargetStays(p: Partial, es: seq<FileEntry>, i: nat)
    requires i < |es| && es[i].TargetBlock?
    ensures var k, ts := |p.file.targets| + |Gather(TargetParts, es[..i])|, WithFileEntries(p, es).file.targets;
      k < |ts| && ts[k] == TargetOf(es[i].name, es[i].form, p.filePrivate || PrivateMarker in es[..i])
  {
    var init := es[..|es| - 1];
    TargetsGrow(p, init);
    TargetStep(WithFileEntries(p, init), es[|es| - 1]);
    if i < |init| {
      assert es[..i] == init[..i];
      TargetStays(p, init, i);
    } else {
      assert es[..i] == init;
    }
  }
}
