/** The canonical form compiles to what the original compiles to, up to the sorting by name: what is not written
    compiles to nothing, except for the mounts of a daemon. */
module FormatMeaning {
  import C = Config
  import opened Ast
  import opened Compile
  import opened StableBuckets
  import opened OrderEntries
  import opened ReadBack
  import opened ClauseReadBack
  import opened BodyReadBack
  import opened FileReadBack
  import opened Sorting
  import P = Printer

  // ----------------------------------------------------------------- folds from the front

  lemma {:induction false} FoldFront<S, T>(f: (S, T) -> S, s: S, es: seq<T>)
    requires es != []
    ensures Fold(f, s, es) == Fold(f, f(s, es[0]), es[1..])
  {
    assert es == [es[0]] + es[1..];
    FoldConcat(f, s, [es[0]], es[1..]);
    assert [es[0]][..0] == [];
  }

  // ------------------------------------------------------------------------- presets

  lemma {:induction false} WrittenCompiles(p: C.Preset, es: seq<PresetEntry>)
    ensures WithPresetEntries(p, Written(es)) == WithPresetEntries(p, es)
    decreases es
  {
    if es != [] {
      FoldFront(WithPresetEntry, p, es);
      WrittenCompiles(WithPresetEntry(p, es[0]), es[1..]);
      if IsWritten(es[0]) {
        FoldFront(WithPresetEntry, p, Written(es));
        assert Written(es)[1..] == Written(es[1..]);
      } else {
        UnwrittenIsIdle(p, es[0]);
        assert Written(es) == Written(es[1..]);
      }
    }
  }

  lemma {:induction false} UnwrittenIsIdle(p: C.Preset, e: PresetEntry)
    requires !IsWritten(e)
    ensures WithPresetEntry(p, e) == p
  {
    if e.PresetSteps? {
      assert p.steps + StepsOf(e.steps) == p.steps;
    } else {
      assert WithPairs(p.env, e.pairs) == p.env;
    }
  }

  // ------------------------------------------------------------------------- daemons

  predicate IsMount(e: BodyEntry) {
    e.Net? || e.Vol?
  }

  lemma {:induction false} DaemonClausesCompile(d: C.Daemon, es: seq<BodyEntry>)
    requires forall i :: 0 <= i < |es| ==> !IsMount(es[i])
    ensures WithDaemonBody(d, P.DaemonClauses(es)) == WithDaemonBody(d, es)
    decreases es
  {
    if es != [] {
      FoldFront(WithDaemonEntry, d, es);
      DaemonClausesCompile(WithDaemonEntry(d, es[0]), es[1..]);
      if P.InDaemon(es[0]) {
        FoldFront(WithDaemonEntry, d, P.DaemonClauses(es));
        assert P.DaemonClauses(es)[1..] == P.DaemonClauses(es[1..]);
      } else {
        assert P.DaemonClauses(es) == P.DaemonClauses(es[1..]);
      }
    }
  }

  lemma {:induction false} DaemonClausesHaveNoPresets(es: seq<BodyEntry>)
    ensures NormClauses(P.DaemonClauses(es)) == P.DaemonClauses(es)
  {
    if es != [] {
      DaemonClausesHaveNoPresets(es[1..]);
      if P.InDaemon(es[0]) {
        assert P.DaemonClauses(es)[1..] == P.DaemonClauses(es[1..]);
      } else {
        assert P.DaemonClauses(es) == P.DaemonClauses(es[1..]);
      }
    }
  }

  lemma {:induction false} OrderedHolds(es: seq<BodyEntry>, e: BodyEntry)
    ensures e in Ordered(es) <==> e in es
  {
    OrderedIsStableSort(es);
    assert e in Ordered(es) <==> e in multiset(Ordered(es));
    assert e in es <==> e in multiset(es);
  }

  /** Mounts of a daemon are not written, and nothing else of it is lost. */
  lemma {:induction false} DaemonKept(name: string, body: seq<BodyEntry>)
    requires forall i :: 0 <= i < |body| ==> !IsMount(body[i])
    ensures DaemonOf(name, NormClauses(P.DaemonClauses(Ordered(body)))) == DaemonOf(name, body)
  {
    var blank := C.Daemon(name, [], map[], "", "", false, [], []);
    DaemonClausesHaveNoPresets(Ordered(body));
    forall i | 0 <= i < |Ordered(body)| ensures !IsMount(Ordered(body)[i]) {
      OrderedHolds(body, Ordered(body)[i]);
    }
    DaemonClausesCompile(blank, Ordered(body));
    OrderingPreservesDaemon(blank, body);
  }

  lemma {:induction false} MountsCompiled(d: C.Daemon, es: seq<BodyEntry>)
    ensures |WithDaemonBody(d, es).networks| + |WithDaemonBody(d, es).volumes| ==
      |d.networks| + |d.volumes| + Mounts(es)
  {
    if es != [] {
      MountsCompiled(d, es[..|es| - 1]);
    }
  }

  function Mounts(es: seq<BodyEntry>): nat {
    if es == [] then 0 else Mounts(es[..|es| - 1]) + (if IsMount(es[|es| - 1]) then 1 else 0)
  }

  lemma {:induction false} NoMounts(es: seq<BodyEntry>)
    ensures Mounts(es) == 0 <==> forall i :: 0 <= i < |es| ==> !IsMount(es[i])
  {
    if es != [] {
      var init := es[..|es| - 1];
      NoMounts(init);
      if exists i :: 0 <= i < |init| && IsMount(init[i]) {
        var i :| 0 <= i < |init| && IsMount(init[i]);
        assert IsMount(es[i]);
      }
    }
  }

  lemma {:induction false} DaemonClausesHaveNoMounts(es: seq<BodyEntry>)
    ensures forall i :: 0 <= i < |P.DaemonClauses(es)| ==> !IsMount(P.DaemonClauses(es)[i])
  {
    if es != [] {
      DaemonClausesHaveNoMounts(es[1..]);
    }
  }

  /** Formatting keeps what a daemon compiles to exactly when the daemon has no `net` and no `vol`. */
  lemma {:induction false} DaemonKeptExactly(name: string, body: seq<BodyEntry>)
    ensures DaemonOf(name, NormClauses(P.DaemonClauses(Ordered(body)))) == DaemonOf(name, body)
      <==> forall i :: 0 <= i < |body| ==> !IsMount(body[i])
  {
    if forall i :: 0 <= i < |body| ==> !IsMount(body[i]) {
      DaemonKept(name, body);
    } else {
      var blank := C.Daemon(name, [], map[], "", "", false, [], []);
      var written := P.DaemonClauses(Ordered(body));
      DaemonClausesHaveNoPresets(Ordered(body));
      DaemonClausesHaveNoMounts(Ordered(body));
      NoMounts(written);
      NoMounts(body);
      MountsCompiled(blank, written);
      MountsCompiled(blank, body);
    }
  }

  // -------------------------------------------------------------------------- bodies

  predicate EntryKept(e: BodyEntry) {
    e.DaemonBlock? ==> forall i :: 0 <= i < |e.body| ==> !IsMount(e.body[i])
  }

  lemma {:induction false} EntryCompiles(t: C.Target, e: BodyEntry)
    requires EntryKept(e)
    ensures WithEntry(t, NormEntry(e)) == WithEntry(t, e)
  {
    if e.DaemonBlock? {
      DaemonKept(e.name, e.body);
    } else if e.PresetBlock? {
      WrittenCompiles(C.Preset(e.name, "", [], [], map[]), e.entries);
    }
  }

  lemma {:induction false} EntriesCompile(t: C.Target, es: seq<BodyEntry>)
    requires forall i :: 0 <= i < |es| ==> EntryKept(es[i])
    ensures WithBody(t, NormEntries(es)) == WithBody(t, es)
    decreases es
  {
    if es != [] {
      FoldFront(WithEntry, t, es);
      FoldFront(WithEntry, t, NormEntries(es));
      assert NormEntries(es)[1..] == NormEntries(es[1..]);
      EntryCompiles(t, es[0]);
      EntriesCompile(WithEntry(t, es[0]), es[1..]);
    }
  }

  predicate FormKept(form: TargetForm) {
    forall i :: 0 <= i < |BodyOf(form)| ==> EntryKept(BodyOf(form)[i])
  }

  lemma {:induction false} TargetCompiles(name: string, form: TargetForm, filePrivate: bool)
    requires FormKept(form)
    ensures TargetOf(name, NormBlock(TargetBlock(name, form)).form, filePrivate) == TargetOf(name, form, filePrivate)
  {
    if !OnOneLine(TargetBlock(name, form)) {
      var t := C.BlankTarget(name, filePrivate);
      var body := BodyOf(form);
      forall i | 0 <= i < |Ordered(body)| ensures EntryKept(Ordered(body)[i]) {
        OrderedHolds(body, Ordered(body)[i]);
      }
      EntriesCompile(t, Ordered(body));
      OrderingPreservesCompile(t, body);
    }
  }

  ghost predicate AllUnmounted(ds: seq<C.Daemon>) {
    forall d :: d in ds ==> d.networks == [] && d.volumes == []
  }

  lemma {:induction false} Unmounted(name: string, body: seq<BodyEntry>)
    ensures var d := DaemonOf(name, body);
      (d.networks == [] && d.volumes == []) <==> forall i :: 0 <= i < |body| ==> !IsMount(body[i])
  {
    MountsCompiled(C.Daemon(name, [], map[], "", "", false, [], []), body);
    NoMounts(body);
  }

  lemma {:induction false} EntryDaemons(t: C.Target, e: BodyEntry)
    ensures WithEntry(t, e).daemons == t.daemons + (if e.DaemonBlock? then [DaemonOf(e.name, e.body)] else [])
  {
  }

  lemma {:induction false} UnmountedBody(t: C.Target, es: seq<BodyEntry>)
    ensures AllUnmounted(WithBody(t, es).daemons) <==>
      AllUnmounted(t.daemons) && forall i :: 0 <= i < |es| ==> EntryKept(es[i])
    decreases |es|
  {
    if es != [] {
      var init, last := es[..|es| - 1], es[|es| - 1];
      UnmountedBody(t, init);
      EntryDaemons(WithBody(t, init), last);
      if last.DaemonBlock? {
        Unmounted(last.name, last.body);
      }
    }
  }

  lemma {:induction false} NormIsKept(es: seq<BodyEntry>)
    ensures forall i :: 0 <= i < |NormEntries(es)| ==> EntryKept(NormEntries(es)[i])
  {
    if es != [] {
      NormIsKept(es[1..]);
      if es[0].DaemonBlock? {
        DaemonClausesHaveNoPresets(Ordered(es[0].body));
        DaemonClausesHaveNoMounts(Ordered(es[0].body));
      }
    }
  }

  /** The canonical form of a target compiles to what the target compiles to exactly when none of its daemons has
      `net` or `vol`. */
  lemma {:induction false} TargetCompilesExactly(name: string, form: TargetForm, filePrivate: bool)
    ensures TargetOf(name, NormBlock(TargetBlock(name, form)).form, filePrivate) == TargetOf(name, form, filePrivate)
      <==> FormKept(form)
  {
    if FormKept(form) {
      TargetCompiles(name, form, filePrivate);
    } else {
      MountsAreLost(C.BlankTarget(name, filePrivate), BodyOf(form));
    }
  }

  lemma {:induction false} MountsAreLost(t: C.Target, body: seq<BodyEntry>)
    requires t.daemons == [] && exists i :: 0 <= i < |body| && !EntryKept(body[i])
    ensures WithBody(t, NormEntries(Ordered(body))) != WithBody(t, body)
  {
    UnmountedBody(t, body);
    NormIsKept(Ordered(body));
    UnmountedBody(t, NormEntries(Ordered(body)));
  }

  // ------------------------------------------------------------------ profiles, suites

  lemma {:induction false} SettingsCompile(p: C.Profile, es: seq<ProfileEntry>)
    ensures WithProfileEntries(p, NormSettings(es)) == WithProfileEntries(p, es)
    decreases es
  {
    if es != [] {
      FoldFront(WithProfileEntry, p, es);
      SettingsCompile(WithProfileEntry(p, es[0]), es[1..]);
      if IsSet(es[0]) {
        FoldFront(WithProfileEntry, p, NormSettings(es));
        assert NormSettings(es)[1..] == NormSettings(es[1..]);
      } else {
        UnsetIsIdle(p, es[0]);
        assert NormSettings(es) == NormSettings(es[1..]);
      }
    }
  }

  lemma {:induction false} UnsetIsIdle(p: C.Profile, e: ProfileEntry)
    requires !IsSet(e)
    ensures WithProfileEntry(p, e) == p
  {
    match e
    case ProfileDotenv(paths) => assert p.dotenv + paths == p.dotenv;
    case ProfileEnv(pairs) => assert WithPairs(p.env, pairs) == p.env;
  }

  /** A quoted member that is written as an identifier: a target and a preset without dots, or a target without a
      space whose dots, if any, are not exactly one. */
  predicate MemberKept(m: SuiteEntry) {
    m.Quoted? ==>
      || (Count(m.text, ' ') == 1 && Count(m.text, '.') == 0)
      || (Count(m.text, ' ') == 0 && Count(m.text, '.') != 1)
  }

  lemma {:induction false} CountReplaced(s: string, a: char, b: char, c: char)
    requires a != b
    ensures Count(s, a) == 0 ==> ReplaceFirst(s, a, b) == s
    ensures Count(s, a) > 0 ==>
      Count(ReplaceFirst(s, a, b), c) == Count(s, c) + (if c == b then 1 else 0) - (if c == a then 1 else 0)
    ensures Count(s, a) > 0 && Count(s, b) == 0 ==> ReplaceFirst(ReplaceFirst(s, a, b), b, a) == s
    ensures |ReplaceFirst(s, a, b)| == |s|
  {
    if s != "" && s[0] != a {
      CountReplaced(s[1..], a, b, c);
      var r := ReplaceFirst(s, a, b);
      assert r[0] == s[0] && r[1..] == ReplaceFirst(s[1..], a, b);
    } else if s != "" {
      var r := ReplaceFirst(s, a, b);
      assert r[1..] == s[1..];
    }
  }

  /** A member keeps its reference when written and read back exactly under that condition. */
  lemma {:induction false} MemberKeptExactly(m: SuiteEntry)
    requires Count(P.MemberText(m), ' ') == 0
    ensures Raw(Bare(P.MemberText(m))) == Raw(m) <==> MemberKept(m)
  {
    if m.Quoted? {
      var q := m.text;
      var p := P.MemberText(m);
      CountReplaced(q, ' ', '.', '.');
      CountReplaced(q, ' ', '.', ' ');
      CountReplaced(p, '.', ' ', ' ');
    }
  }
}
