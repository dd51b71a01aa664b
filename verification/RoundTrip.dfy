/** What the formatter writes compiles to what was meant. */
module RoundTrip {
  // On the unambiguous fragment, formatting, lexing and parsing give the canonical form, which compiles to the same
  // configuration up to the sorting by name.

  import C = Config
  import opened Ast
  import opened Compile
  import opened StableBuckets
  import opened OrderEntries
  import opened Layout
  import opened ReadBack
  import opened ClauseReadBack
  import opened BodyReadBack
  import opened FileReadBack
  import opened FormatMeaning
  import opened Sorting
  import L = Lexer
  import P = Printer
  import Parser
  import FileSpacing

  // ------------------------------------------------------------------ sorted configurations

  function Itself(s: string): string {
    s
  }

  function TargetName(t: C.Target): string {
    t.name
  }

  function ProfileName(p: C.Profile): string {
    p.name
  }

  function SuiteName(s: C.Suite): string {
    s.name
  }

  function SortedSuite(s: C.Suite): C.Suite {
    C.Suite(s.name, SortBy(Itself, s.targets))
  }

  /** A configuration with profiles, targets and suites by name and the members of each suite in order. */
  function SortedConfig(f: C.File): C.File {
    C.File(f.dotenv, f.imports, SortBy(ProfileName, f.profiles), SortBy(TargetName, f.targets),
           SortBy(SuiteName, Map(SortedSuite, f.suites)))
  }

  // --------------------------------------------------------- a file by kinds of blocks

  function ImportPath(e: FileEntry): string {
    if e.Import? then e.path else ""
  }

  function CompiledProfile(e: FileEntry): C.Profile {
    if e.ProfileBlock? then ProfileOf(e.name, e.settings) else C.Profile("", [], map[])
  }

  function CompiledSuite(e: FileEntry): C.Suite {
    if e.SuiteBlock? then C.Suite(e.name, RefsOf(e.members)) else C.Suite("", [])
  }

  function PrivateTarget(e: FileEntry): C.Target {
    if e.TargetBlock? then TargetOf(e.name, e.form, true) else C.BlankTarget("", true)
  }

  function PublicTarget(e: FileEntry): C.Target {
    if e.TargetBlock? then TargetOf(e.name, e.form, false) else C.BlankTarget("", false)
  }

  function CompiledTargets(es: seq<FileEntry>, filePrivate: bool): seq<C.Target> {
    if filePrivate then Map(PrivateTarget, es) else Map(PublicTarget, es)
  }

  /** The target is private whatever the file says. */
  ghost predicate SaysPrivate(form: TargetForm) {
    form.Braced? && Private in form.body
  }

  /** A file-level `private` marks nothing but what it marks from the top of the file: the targets before it,
      if there is one, are private by themselves. */
  ghost predicate PrivateKept(es: seq<FileEntry>) {
    PrivateMarker in es ==>
      forall i :: 0 <= i < |es| && es[i].TargetBlock? && PrivateMarker !in es[..i] ==> SaysPrivate(es[i].form)
  }

  function ByKind(dotenv: seq<string>, es: seq<FileEntry>): C.File {
    C.File(dotenv, Map(ImportPath, OfKind(P.BlockKind, es, 0)), Map(CompiledProfile, OfKind(P.BlockKind, es, 3)),
           CompiledTargets(OfKind(P.BlockKind, es, 4), PrivateMarker in es),
             Map(CompiledSuite, OfKind(P.BlockKind, es, 2)))
  }

  lemma {:induction false} MapSnoc<T, U>(f: T -> U, s: seq<T>, x: T)
    ensures Map(f, s + [x]) == Map(f, s) + [f(x)]
  {
  }

  lemma {:induction false} BodyPrivacy(t: C.Target, es: seq<BodyEntry>)
    ensures WithBody(t, es).private == (t.private || Private in es)
    ensures WithBody(t.(private := true), es) == WithBody(t, es).(private := true)
  {
    if es != [] {
      var init, last := es[..|es| - 1], es[|es| - 1];
      BodyPrivacy(t, init);
      assert es == init + [last];
      EntryPrivacy(WithBody(t, init), last);
    }
  }

  lemma {:induction false} EntryPrivacy(t: C.Target, e: BodyEntry)
    ensures WithEntry(t, e).private == (t.private || e == Private)
    ensures WithEntry(t.(private := true), e) == WithEntry(t, e).(private := true)
  {
  }

  /** Whether a target is private, and that the file-level marker changes nothing else. */
  lemma {:induction false} TargetPrivacy(name: string, form: TargetForm)
    ensures TargetOf(name, form, true).private && (TargetOf(name, form, false).private <==> SaysPrivate(form))
    ensures TargetOf(name, form, true) == TargetOf(name, form, false).(private := true)
  {
    if form.Braced? {
      BodyPrivacy(C.BlankTarget(name, false), form.body);
      BodyPrivacy(C.BlankTarget(name, true), form.body);
    }
  }

  lemma {:induction false} PrivateKeptPrefix(es: seq<FileEntry>)
    requires PrivateKept(es) && es != []
    ensures PrivateKept(es[..|es| - 1])
    ensures es[|es| - 1].PrivateMarker? && PrivateMarker !in es[..|es| - 1] ==>
      forall e :: e in OfKind(P.BlockKind, es[..|es| - 1], 4) ==> PrivateTarget(e) == PublicTarget(e)
  {
    var init := es[..|es| - 1];
    forall i | 0 <= i < |init| ensures es[..i] == init[..i] && es[i] == init[i] {
    }
    if es[|es| - 1].PrivateMarker? && PrivateMarker !in init {
      OfKindHolds(P.BlockKind, init, 4);
      forall e | e in OfKind(P.BlockKind, init, 4) ensures PrivateTarget(e) == PublicTarget(e) {
        var i :| 0 <= i < |init| && init[i] == e;
        assert PrivateMarker in es;
        TargetPrivacy(e.name, e.form);
      }
    }
  }

  /** What a file compiles to, kind by kind. */
  lemma {:induction false} FileByKind(dotenv: seq<string>, es: seq<FileEntry>)
    requires PrivateKept(es)
    ensures WithFileEntries(Partial(C.File(dotenv, [], [], [], []), false), es) ==
      Partial(ByKind(dotenv, es), PrivateMarker in es)
  {
    if es != [] {
      var init, last := es[..|es| - 1], es[|es| - 1];
      PrivateKeptPrefix(es);
      FileByKind(dotenv, init);
      assert es == init + [last];
      OneMoreBlock(dotenv, init, last);
    }
  }

  lemma {:induction false} KindsGrow(init: seq<FileEntry>, last: FileEntry, k: nat)
    ensures OfKind(P.BlockKind, init + [last], k)
         == if P.BlockKind(last) == k then OfKind(P.BlockKind, init, k) + [last] else OfKind(P.BlockKind, init, k)
    ensures PrivateMarker in init + [last] <==> PrivateMarker in init || last == PrivateMarker
  {
    OfKindAppend(P.BlockKind, init, last, k);
  }

  lemma {:induction false} OneMoreTarget(dotenv: seq<string>, init: seq<FileEntry>, last: FileEntry)
    requires last.TargetBlock? && (PrivateMarker in init + [last] ==> PrivateMarker in init)
    ensures WithFileEntry(Partial(ByKind(dotenv, init), PrivateMarker in init), last)
         == Partial(ByKind(dotenv, init + [last]), PrivateMarker in init + [last])
  {
    KindsGrow(init, last, 0);
    KindsGrow(init, last, 2);
    KindsGrow(init, last, 3);
    KindsGrow(init, last, 4);
    MapSnoc(PrivateTarget, OfKind(P.BlockKind, init, 4), last);
    MapSnoc(PublicTarget, OfKind(P.BlockKind, init, 4), last);
  }

  lemma {:induction false} OneMoreMarker(dotenv: seq<string>, init: seq<FileEntry>)
    requires PrivateMarker !in init ==>
      forall e :: e in OfKind(P.BlockKind, init, 4) ==> PrivateTarget(e) == PublicTarget(e)
    ensures WithFileEntry(Partial(ByKind(dotenv, init), PrivateMarker in init), PrivateMarker)
         == Partial(ByKind(dotenv, init + [PrivateMarker]), true)
    ensures PrivateMarker in init + [PrivateMarker]
  {
    KindsGrow(init, PrivateMarker, 0);
    KindsGrow(init, PrivateMarker, 2);
    KindsGrow(init, PrivateMarker, 3);
    KindsGrow(init, PrivateMarker, 4);
    var own := OfKind(P.BlockKind, init, 4);
    assert PrivateMarker !in init ==> Map(PrivateTarget, own) == Map(PublicTarget, own);
  }

  lemma {:induction false} OneMoreListed(dotenv: seq<string>, init: seq<FileEntry>, last: FileEntry)
    requires last.Import? || last.SuiteBlock? || last.ProfileBlock?
    ensures WithFileEntry(Partial(ByKind(dotenv, init), PrivateMarker in init), last)
         == Partial(ByKind(dotenv, init + [last]), PrivateMarker in init + [last])
  {
    KindsGrow(init, last, 0);
    KindsGrow(init, last, 2);
    KindsGrow(init, last, 3);
    KindsGrow(init, last, 4);
    MapSnoc(ImportPath, OfKind(P.BlockKind, init, 0), last);
    MapSnoc(CompiledSuite, OfKind(P.BlockKind, init, 2), last);
    MapSnoc(CompiledProfile, OfKind(P.BlockKind, init, 3), last);
  }

  lemma {:induction false} OneMoreBlock(dotenv: seq<string>, init: seq<FileEntry>, last: FileEntry)
    requires last.TargetBlock? && PrivateMarker in init + [last] ==> PrivateMarker in init
    requires last.PrivateMarker? && PrivateMarker !in init ==>
      forall e :: e in OfKind(P.BlockKind, init, 4) ==> PrivateTarget(e) == PublicTarget(e)
    ensures WithFileEntry(Partial(ByKind(dotenv, init), PrivateMarker in init), last)
         == Partial(ByKind(dotenv, init + [last]), PrivateMarker in init + [last])
  {
    if last.TargetBlock? {
      OneMoreTarget(dotenv, init, last);
    } else if last.PrivateMarker? {
      OneMoreMarker(dotenv, init);
    } else {
      OneMoreListed(dotenv, init, last);
    }
  }

  // ----------------------------------------------------------- the canonical form by kinds

  lemma {:induction false} NormBlocksIsMap(es: seq<FileEntry>)
    ensures NormBlocks(es) == Map(NormBlock, es)
  {
    if es != [] {
      NormBlocksIsMap(es[1..]);
    }
  }

  lemma {:induction false} NormBlockKeeps(e: FileEntry)
    ensures P.BlockKind(NormBlock(e)) == P.BlockKind(e) && P.NameOf(NormBlock(e)) == P.NameOf(e)
    ensures NormBlock(e) == PrivateMarker <==> e == PrivateMarker
  {
  }

  lemma {:induction false} OfKindMapped(es: seq<FileEntry>, k: nat)
    ensures OfKind(P.BlockKind, Map(NormBlock, es), k) == Map(NormBlock, OfKind(P.BlockKind, es, k))
  {
    if es != [] {
      var init, last := es[..|es| - 1], es[|es| - 1];
      OfKindMapped(init, k);
      assert es == init + [last];
      MapSnoc(NormBlock, init, last);
      OfKindAppend(P.BlockKind, Map(NormBlock, init), NormBlock(last), k);
      OfKindAppend(P.BlockKind, init, last, k);
      NormBlockKeeps(last);
      MapSnoc(NormBlock, OfKind(P.BlockKind, init, k), last);
    }
  }

  lemma {:induction false} SectionOfKind(es: seq<FileEntry>, k: nat, l: nat)
    ensures OfKind(P.BlockKind, P.ByName(es, k), l) == if k == l then P.ByName(es, k) else []
  {
    var s := P.ByName(es, k);
    OfKindHolds(P.BlockKind, es, k);
    forall i | 0 <= i < |s| ensures P.BlockKind(s[i]) == k {
      SortedFrom(P.NameOf, OfKind(P.BlockKind, es, k), i);
    }
    OfKindOnly(P.BlockKind, s, l, k);
  }

  lemma {:induction false} FivePartsOfKind(a: seq<FileEntry>, b: seq<FileEntry>, c: seq<FileEntry>, d: seq<FileEntry>,
                                           e: seq<FileEntry>, k: nat)
    ensures OfKind(P.BlockKind, a + b + c + d + e, k) == OfKind(P.BlockKind, a, k) + OfKind(P.BlockKind, b, k)
      + OfKind(P.BlockKind, c, k) + OfKind(P.BlockKind, d, k) + OfKind(P.BlockKind, e, k)
  {
    OfKindConcat(P.BlockKind, a + b + c + d, e, k);
    OfKindConcat(P.BlockKind, a + b + c, d, k);
    OfKindConcat(P.BlockKind, a + b, c, k);
    OfKindConcat(P.BlockKind, a, b, k);
  }

  lemma {:induction false} OneOfFive<T>(s: seq<T>)
    ensures s + [] + [] + [] + [] == s && [] + [] + s + [] + [] == s && [] + [] + [] + s + [] == s
      && [] + [] + [] + [] + s == s
  {
  }

  /** The arrangement keeps the blocks of every kind, sorted by name where they have one. */
  lemma {:induction false} ArrangedOfKind(es: seq<FileEntry>, k: nat)
    requires k == 0 || k == 2 || k == 3 || k == 4
    ensures OfKind(P.BlockKind, P.Arranged(es), k) == if k == 0 then OfKind(P.BlockKind, es, 0) else P.ByName(es, k)
  {
    FivePartsOfKind(OfKind(P.BlockKind, es, 0), P.MarkerOf(es), P.ByName(es, 2), P.ByName(es, 3), P.ByName(es, 4), k);
    OfKindTwice(P.BlockKind, es, 0, k);
    OfKindOnly(P.BlockKind, P.MarkerOf(es), k, 1);
    SectionOfKind(es, 2, k);
    SectionOfKind(es, 3, k);
    SectionOfKind(es, 4, k);
    OneOfFive(if k == 0 then OfKind(P.BlockKind, es, 0) else P.ByName(es, k));
  }

  lemma {:induction false} ArrangedMarker(es: seq<FileEntry>)
    ensures PrivateMarker in P.Arranged(es) <==> PrivateMarker in es
  {
    if PrivateMarker in P.Arranged(es) && PrivateMarker !in es {
      OfKindHolds(P.BlockKind, es, 0);
      assert PrivateMarker in P.ByName(es, 2) || PrivateMarker in P.ByName(es, 3) || PrivateMarker in P.ByName(es, 4);
      NoMarkerInSection(es, 2);
      NoMarkerInSection(es, 3);
      NoMarkerInSection(es, 4);
    }
    if PrivateMarker in es {
      assert PrivateMarker in P.MarkerOf(es);
    }
  }

  lemma {:induction false} NoMarkerInSection(es: seq<FileEntry>, k: nat)
    requires k != 1
    ensures PrivateMarker !in P.ByName(es, k)
  {
    OfKindHolds(P.BlockKind, es, k);
    forall i | 0 <= i < |P.ByName(es, k)| ensures P.ByName(es, k)[i] != PrivateMarker {
      SortedFrom(P.NameOf, OfKind(P.BlockKind, es, k), i);
    }
  }

  lemma {:induction false} MarkerComesBack(es: seq<FileEntry>)
    ensures PrivateMarker in NormBlocks(es) <==> PrivateMarker in es
  {
    NormBlocksIsMap(es);
    forall i | 0 <= i < |es| ensures NormBlocks(es)[i] == PrivateMarker <==> es[i] == PrivateMarker {
      NormBlockKeeps(es[i]);
    }
  }

  lemma {:induction false} Reassociate<T>(a: seq<T>, b: seq<T>, c: seq<T>, d: seq<T>, e: seq<T>)
    ensures a + b + c + d + e == a + b + (c + d + e)
  {
  }

  lemma {:induction false} PastTheFront(imports: seq<FileEntry>, marker: seq<FileEntry>, back: seq<FileEntry>, i: nat)
    requires forall j :: 0 <= j < |imports| ==> !imports[j].TargetBlock?
    requires marker == [PrivateMarker]
    requires i < |imports + marker + back| && (imports + marker + back)[i].TargetBlock?
    ensures |imports| < i && (imports + marker + back)[|imports|] == PrivateMarker
  {
    assert forall j :: 0 <= j < |imports| ==> (imports + marker + back)[j] == imports[j];
    assert (imports + marker + back)[|imports|] == marker[0];
  }

  lemma {:induction false} MarkerBeforeTarget(es: seq<FileEntry>, i: nat)
    requires PrivateMarker in es && i < |P.Arranged(es)| && P.Arranged(es)[i].TargetBlock?
    ensures |OfKind(P.BlockKind, es, 0)| < i && P.Arranged(es)[|OfKind(P.BlockKind, es, 0)|] == PrivateMarker
  {
    var imports := OfKind(P.BlockKind, es, 0);
    var back := P.ByName(es, 2) + P.ByName(es, 3) + P.ByName(es, 4);
    Reassociate(imports, P.MarkerOf(es), P.ByName(es, 2), P.ByName(es, 3), P.ByName(es, 4));
    OfKindHolds(P.BlockKind, es, 0);
    forall j | 0 <= j < |imports| ensures !imports[j].TargetBlock? {
      assert imports[j] in imports;
    }
    PastTheFront(imports, P.MarkerOf(es), back, i);
  }

  /** In the arrangement, and so in the canonical form, the marker comes before the targets. */
  lemma {:induction false} ArrangedKeepsPrivate(es: seq<FileEntry>)
    ensures PrivateKept(NormBlocks(P.Arranged(es)))
  {
    var all := P.Arranged(es);
    var norm := NormBlocks(all);
    NormBlocksIsMap(all);
    MarkerComesBack(all);
    ArrangedMarker(es);
    if PrivateMarker in norm {
      var m := |OfKind(P.BlockKind, es, 0)|;
      forall i | 0 <= i < |norm| && norm[i].TargetBlock? ensures PrivateMarker in norm[..i] {
        NormBlockKeeps(all[i]);
        MarkerBeforeTarget(es, i);
        NormBlockKeeps(all[m]);
        assert norm[..i][m] == PrivateMarker;
      }
    }
  }

  // -------------------------------------------------------------------------- meaning

  ghost predicate BlockKept(e: FileEntry) {
    match e
    case SuiteBlock(_, members) => forall m :: m in members ==> MemberKept(m)
    case TargetBlock(_, form) => FormKept(form)
    case _ => true
  }

  lemma {:induction false} WordHasNoSpace(w: string)
    requires forall i :: 0 <= i < |w| ==> L.ContinuesWord(w[i])
    ensures Count(w, ' ') == 0
  {
    if w != "" {
      WordHasNoSpace(w[1..]);
    }
  }

  function MemberForm(m: SuiteEntry): SuiteEntry {
    Bare(P.MemberText(m))
  }

  lemma {:induction false} NormMembersIsMap(ms: seq<SuiteEntry>)
    ensures NormMembers(ms) == Map(MemberForm, ms)
  {
    if ms != [] {
      NormMembersIsMap(ms[1..]);
    }
  }

  /** Every suite member is written as an identifier. */
  ghost predicate MembersWritten(e: FileEntry) {
    e.SuiteBlock? ==> GoodMembers(e.members)
  }

  lemma {:induction false} MemberFormKeeps(m: SuiteEntry)
    requires IsWord(P.MemberText(m))
    ensures Raw(m) != "" && Raw(MemberForm(m)) != ""
    ensures Raw(MemberForm(m)) == Raw(m) <==> MemberKept(m)
  {
    WordHasNoSpace(P.MemberText(m));
    MemberKeptExactly(m);
    CountReplaced(P.MemberText(m), '.', ' ', ' ');
    if m.Quoted? {
      CountReplaced(m.text, ' ', '.', '.');
    }
  }

  lemma {:induction false} RefsAreRaw(ms: seq<SuiteEntry>)
    requires forall i :: 0 <= i < |ms| ==> Raw(ms[i]) != ""
    ensures RefsOf(ms) == Map(Raw, ms)
  {
    if ms != [] {
      var init, last := ms[..|ms| - 1], ms[|ms| - 1];
      RefsAreRaw(init);
      MapSnoc(Raw, init, last);
      assert ms == init + [last];
    }
  }

  lemma {:induction false} SuiteCompiles(e: FileEntry)
    requires e.SuiteBlock? && MembersWritten(e)
    ensures CompiledSuite(NormBlock(e)) == SortedSuite(CompiledSuite(e)) <==> BlockKept(e)
  {
    var sorted := SortBy(Raw, e.members);
    SameElements(Raw, e.members);
    RefsSorted(e.members);
    RefsWritten(sorted);
    RefsAgree(sorted);
  }

  /** The references of a suite in order ... */
  lemma {:induction false} RefsSorted(ms: seq<SuiteEntry>)
    requires GoodMembers(ms)
    ensures SortBy(Itself, RefsOf(ms)) == Map(Raw, SortBy(Raw, ms))
  {
    forall i | 0 <= i < |ms| ensures Raw(ms[i]) != "" {
      assert ms[i] in ms;
      MemberFormKeeps(ms[i]);
    }
    RefsAreRaw(ms);
    SortMapped(Raw, Raw, Itself, ms);
  }

  /** ... and of one that was written and read back. */
  lemma {:induction false} RefsWritten(ms: seq<SuiteEntry>)
    requires GoodMembers(ms)
    ensures RefsOf(NormMembers(ms)) == Map(Raw, Map(MemberForm, ms))
  {
    NormMembersIsMap(ms);
    forall i | 0 <= i < |ms| ensures Raw(NormMembers(ms)[i]) != "" {
      assert ms[i] in ms;
      MemberFormKeeps(ms[i]);
    }
    RefsAreRaw(NormMembers(ms));
  }

  lemma {:induction false} RefsAgree(ms: seq<SuiteEntry>)
    requires GoodMembers(ms)
    ensures Map(Raw, Map(MemberForm, ms)) == Map(Raw, ms) <==> forall m :: m in ms ==> MemberKept(m)
  {
    var a, b := Map(Raw, Map(MemberForm, ms)), Map(Raw, ms);
    forall i | 0 <= i < |ms| ensures a[i] == b[i] <==> MemberKept(ms[i]) {
      assert ms[i] in ms;
      MemberFormKeeps(ms[i]);
    }
    if a == b {
      forall m | m in ms ensures MemberKept(m) {
        var i :| 0 <= i < |ms| && ms[i] == m;
        assert a[i] == b[i];
      }
    }
  }

  lemma {:induction false} ProfileCompiles(e: FileEntry)
    requires e.ProfileBlock?
    ensures CompiledProfile(NormBlock(e)) == CompiledProfile(e)
  {
    SettingsCompile(C.Profile(e.name, [], map[]), e.settings);
  }

  lemma {:induction false} TargetNameStays(t: C.Target, es: seq<BodyEntry>)
    ensures WithBody(t, es).name == t.name
  {
    if es != [] {
      TargetNameStays(t, es[..|es| - 1]);
    }
  }

  lemma {:induction false} TargetBlockCompiles(e: FileEntry)
    requires e.TargetBlock?
    ensures PrivateTarget(NormBlock(e)) == PrivateTarget(e) <==> BlockKept(e)
    ensures PublicTarget(NormBlock(e)) == PublicTarget(e) <==> BlockKept(e)
    ensures TargetName(PrivateTarget(e)) == e.name && TargetName(PublicTarget(e)) == e.name
  {
    TargetCompilesExactly(e.name, e.form, true);
    TargetCompilesExactly(e.name, e.form, false);
    NormBlockKeeps(e);
    if e.form.Braced? {
      TargetNameStays(C.BlankTarget(e.name, true), e.form.body);
      TargetNameStays(C.BlankTarget(e.name, false), e.form.body);
    }
  }

  lemma {:induction false} ProfileNameStays(p: C.Profile, es: seq<ProfileEntry>)
    ensures WithProfileEntries(p, es).name == p.name
  {
    if es != [] {
      ProfileNameStays(p, es[..|es| - 1]);
    }
  }

  function SuiteForm(e: FileEntry): C.Suite {
    SortedSuite(CompiledSuite(e))
  }

  /** One kind of blocks: sorted, written, read and compiled is compiled and sorted, exactly when each of them is
      kept. */
  lemma {:induction false} SectionCompiles<U>(f: FileEntry -> U, g: FileEntry -> U, key: U -> string,
                                              es: seq<FileEntry>, k: nat)
    requires forall e :: e in OfKind(P.BlockKind, es, k) ==> key(g(e)) == P.NameOf(e)
    ensures Map(f, Map(NormBlock, P.ByName(es, k))) == SortBy(key, Map(g, OfKind(P.BlockKind, es, k))) <==>
      forall e :: e in OfKind(P.BlockKind, es, k) ==> f(NormBlock(e)) == g(e)
  {
    var own, sorted := OfKind(P.BlockKind, es, k), P.ByName(es, k);
    SortMapped(g, P.NameOf, key, own);
    SameElements(P.NameOf, own);
    var a, b := Map(f, Map(NormBlock, sorted)), Map(g, sorted);
    forall i | 0 <= i < |sorted| ensures a[i] == f(NormBlock(sorted[i])) && b[i] == g(sorted[i]) {
    }
    if a == b {
      forall e | e in own ensures f(NormBlock(e)) == g(e) {
        var i :| 0 <= i < |sorted| && sorted[i] == e;
        assert a[i] == b[i];
      }
    } else {
      var i :| 0 <= i < |sorted| && a[i] != b[i];
      SortedFrom(P.NameOf, own, i);
    }
  }

  ghost predicate BlocksKept(es: seq<FileEntry>) {
    forall e :: e in es ==> BlockKept(e)
  }

  lemma {:induction false} ProfilesCompile(es: seq<FileEntry>)
    ensures Map(CompiledProfile, Map(NormBlock, P.ByName(es, 3))) ==
      SortBy(ProfileName, Map(CompiledProfile, OfKind(P.BlockKind, es, 3)))
  {
    OfKindHolds(P.BlockKind, es, 3);
    forall e | e in OfKind(P.BlockKind, es, 3)
      ensures CompiledProfile(NormBlock(e)) == CompiledProfile(e) && ProfileName(CompiledProfile(e)) == P.NameOf(e)
    {
      ProfileCompiles(e);
      ProfileNameStays(C.Profile(e.name, [], map[]), e.settings);
    }
    SectionCompiles(CompiledProfile, CompiledProfile, ProfileName, es, 3);
  }

  /** All blocks of one kind are kept. */
  ghost predicate KindKept(es: seq<FileEntry>, k: nat) {
    forall e :: e in OfKind(P.BlockKind, es, k) ==> BlockKept(e)
  }

  lemma {:induction false} SuitesCompile(es: seq<FileEntry>)
    requires forall e :: e in es ==> MembersWritten(e)
    ensures Map(CompiledSuite, Map(NormBlock, P.ByName(es, 2)))
         == SortBy(SuiteName, Map(SortedSuite, Map(CompiledSuite, OfKind(P.BlockKind, es, 2))))
         <==> KindKept(es, 2)
  {
    OfKindHolds(P.BlockKind, es, 2);
    forall e | e in OfKind(P.BlockKind, es, 2)
      ensures (CompiledSuite(NormBlock(e)) == SuiteForm(e) <==> BlockKept(e)) && SuiteName(SuiteForm(e)) == P.NameOf(e)
    {
      SuiteCompiles(e);
    }
    SectionCompiles(CompiledSuite, SuiteForm, SuiteName, es, 2);
    assert Map(SuiteForm, OfKind(P.BlockKind, es, 2)) ==
      Map(SortedSuite, Map(CompiledSuite, OfKind(P.BlockKind, es, 2)));
  }

  lemma {:induction false} TargetsCompile(es: seq<FileEntry>, filePrivate: bool)
    ensures CompiledTargets(Map(NormBlock, P.ByName(es, 4)), filePrivate)
         == SortBy(TargetName, CompiledTargets(OfKind(P.BlockKind, es, 4), filePrivate))
         <==> KindKept(es, 4)
  {
    OfKindHolds(P.BlockKind, es, 4);
    forall e | e in OfKind(P.BlockKind, es, 4)
      ensures (PrivateTarget(NormBlock(e)) == PrivateTarget(e) <==> BlockKept(e))
      ensures TargetName(PrivateTarget(e)) == P.NameOf(e)
      ensures (PublicTarget(NormBlock(e)) == PublicTarget(e) <==> BlockKept(e))
      ensures TargetName(PublicTarget(e)) == P.NameOf(e)
    {
      TargetBlockCompiles(e);
    }
    if filePrivate {
      SectionCompiles(PrivateTarget, PrivateTarget, TargetName, es, 4);
    } else {
      SectionCompiles(PublicTarget, PublicTarget, TargetName, es, 4);
    }
  }

  lemma {:induction false} ImportsCompile(es: seq<FileEntry>)
    ensures Map(ImportPath, Map(NormBlock, OfKind(P.BlockKind, es, 0))) == Map(ImportPath, OfKind(P.BlockKind, es, 0))
  {
    var own := OfKind(P.BlockKind, es, 0);
    OfKindHolds(P.BlockKind, es, 0);
    forall i | 0 <= i < |own| ensures NormBlock(own[i]) == own[i] {
      assert own[i] in own;
    }
  }

  /** Where a file-level `private` is kept, the canonical form compiles to the configuration of the original, sorted,
      exactly when every block is kept. */
  lemma {:induction false} CanonicalCompiles(ast: Bakefile)
    requires PrivateKept(ast.entries) && forall e :: e in ast.entries ==> MembersWritten(e)
    ensures FileOf(Normal(ast)) == SortedConfig(FileOf(ast)) <==> BlocksKept(ast.entries)
  {
    var es := ast.entries;
    var norm := NormBlocks(P.Arranged(es));
    FileByKind(ast.dotenv, es);
    ArrangedKeepsPrivate(es);
    FileByKind(ast.dotenv, norm);
    MarkerComesBack(P.Arranged(es));
    ArrangedMarker(es);
    ByKindSorted(ast.dotenv, es);
  }

  lemma {:induction false} TargetIsCompiled(p: Partial, es: seq<FileEntry>, i: nat)
    requires i < |es| && es[i].TargetBlock?
    ensures TargetOf(es[i].name, es[i].form, p.filePrivate || PrivateMarker in es[..i]) in
      WithFileEntries(p, es).file.targets
    ensures WithFileEntries(p, es).filePrivate == (p.filePrivate || PrivateMarker in es)
  {
    var init, last := es[..|es| - 1], es[|es| - 1];
    assert es == init + [last];
    if i < |init| {
      assert es[..i] == init[..i];
      TargetIsCompiled(p, init, i);
    } else {
      MarkerIsSeen(p, init);
    }
  }

  lemma {:induction false} MarkerIsSeen(p: Partial, es: seq<FileEntry>)
    ensures WithFileEntries(p, es).filePrivate == (p.filePrivate || PrivateMarker in es)
  {
    if es != [] {
      var init, last := es[..|es| - 1], es[|es| - 1];
      assert es == init + [last];
      MarkerIsSeen(p, init);
    }
  }

  /** The canonical form has the marker before the targets, so all of them compile to private ones. */
  lemma {:induction false} AllBecomePrivate(ast: Bakefile, t: C.Target)
    requires PrivateMarker in ast.entries && t in FileOf(Normal(ast)).targets
    ensures t.private
  {
    var norm := NormBlocks(P.Arranged(ast.entries));
    ArrangedKeepsPrivate(ast.entries);
    FileByKind(ast.dotenv, norm);
    MarkerComesBack(P.Arranged(ast.entries));
    ArrangedMarker(ast.entries);
    var own := OfKind(P.BlockKind, norm, 4);
    var i :| 0 <= i < |own| && PrivateTarget(own[i]) == t;
    if own[i].TargetBlock? {
      TargetPrivacy(own[i].name, own[i].form);
    }
  }

  /** If the canonical form compiles to the configuration of the original, a file-level `private`, which formatting
      moves to the top, has no target above it that does not say `private` itself. */
  lemma {:induction false} PrivateIsKept(ast: Bakefile)
    requires FileOf(Normal(ast)) == SortedConfig(FileOf(ast))
    ensures PrivateKept(ast.entries)
  {
    var es := ast.entries;
    if !PrivateKept(es) {
      var i :| 0 <= i < |es| && es[i].TargetBlock? && PrivateMarker !in es[..i] && !SaysPrivate(es[i].form);
      var t := TargetOf(es[i].name, es[i].form, false);
      TargetIsCompiled(Partial(C.File(ast.dotenv, [], [], [], []), false), es, i);
      TargetPrivacy(es[i].name, es[i].form);
      SameElements(TargetName, FileOf(ast).targets);
      AllBecomePrivate(ast, t);
    }
  }

  lemma {:induction false} ByKindSorted(dotenv: seq<string>, es: seq<FileEntry>)
    requires forall e :: e in es ==> MembersWritten(e)
    requires PrivateMarker in NormBlocks(P.Arranged(es)) <==> PrivateMarker in es
    ensures ByKind(dotenv, NormBlocks(P.Arranged(es))) == SortedConfig(ByKind(dotenv, es)) <==> BlocksKept(es)
  {
    NormBlocksIsMap(P.Arranged(es));
    OfKindMapped(P.Arranged(es), 0);
    OfKindMapped(P.Arranged(es), 2);
    OfKindMapped(P.Arranged(es), 3);
    OfKindMapped(P.Arranged(es), 4);
    ArrangedOfKind(es, 0);
    ArrangedOfKind(es, 2);
    ArrangedOfKind(es, 3);
    ArrangedOfKind(es, 4);
    ImportsCompile(es);
    SuitesCompile(es);
    ProfilesCompile(es);
    TargetsCompile(es, PrivateMarker in es);
    KeptByKind(es);
  }

  lemma {:induction false} KeptByKind(es: seq<FileEntry>)
    ensures BlocksKept(es) <==> KindKept(es, 2) && KindKept(es, 4)
  {
    OfKindHolds(P.BlockKind, es, 2);
    OfKindHolds(P.BlockKind, es, 4);
    forall e | e in es ensures e in OfKind(P.BlockKind, es, P.BlockKind(e)) {
      OfKindHas(P.BlockKind, es, e);
    }
  }

  /** The canonical form compiles to the configuration of the original, sorted by name, exactly when three things hold:
      every target above a file-level `private` says `private` itself, no daemon has `net` or `vol`, and every suite
      member keeps its reference. */
  lemma {:induction false} CanonicalCompilesExactly(ast: Bakefile)
    requires forall e :: e in ast.entries ==> MembersWritten(e)
    ensures FileOf(Normal(ast)) == SortedConfig(FileOf(ast)) <==> PrivateKept(ast.entries) && BlocksKept(ast.entries)
  {
    if FileOf(Normal(ast)) == SortedConfig(FileOf(ast)) {
      PrivateIsKept(ast);
    }
    if PrivateKept(ast.entries) {
      CanonicalCompiles(ast);
    }
  }

  lemma {:induction false} GoodIsWritten(es: seq<FileEntry>, e: FileEntry)
    requires GoodBlocks(P.Arranged(es)) && e in es
    ensures MembersWritten(e)
  {
    if e.SuiteBlock? {
      OfKindHas(P.BlockKind, es, e);
      SameElements(P.NameOf, OfKind(P.BlockKind, es, 2));
      assert e in P.ByName(es, 2);
      assert e in P.Arranged(es);
      SameElements(Raw, e.members);
    }
  }

  /** Formatting and meaning, exactly: for every file of the unambiguous fragment, parsing the formatted text succeeds,
      and the result compiles to the configuration of the original file, sorted by name, if and only if no target
      above a file-level `private` depends on not being marked by it, no daemon has `net` or `vol`, and every suite
      member keeps its reference. */
  lemma {:induction false} FormatPreservesMeaning(ast: Bakefile)
    requires GoodFile(ast)
    ensures Parser.Parse(P.Format(ast)).Some?
    ensures FileOf(Parser.Parse(P.Format(ast)).value) == SortedConfig(FileOf(ast)) <==>
      PrivateKept(ast.entries) && BlocksKept(ast.entries)
  {
    FileSpacing.FormatParses(ast);
    forall e | e in ast.entries ensures MembersWritten(e) {
      GoodIsWritten(ast.entries, e);
    }
    CanonicalCompilesExactly(ast);
  }
}
