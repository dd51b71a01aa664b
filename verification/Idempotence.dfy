/** Formatting twice is formatting once: the canonical form is written as the original is, because it is arranged and
    sorted already and what it lacks was not written. */
module Idempotence {
  import opened Ast
  import opened StableBuckets
  import opened OrderEntries
  import opened Layout
  import opened ReadBack
  import opened ClauseReadBack
  import opened BodyReadBack
  import opened FileReadBack
  import opened FormatMeaning
  import opened Sorting
  import opened RoundTrip
  import P = Printer
  import Parser
  import FileSpacing

  // -------------------------------------------------------------------------- bodies

  lemma {:induction false} WrittenPrints(es: seq<PresetEntry>, indent: string)
    ensures P.PresetEntryList(Written(es), indent) == P.PresetEntryList(es, indent)
  {
    if es != [] {
      WrittenPrints(es[1..], indent);
      if IsWritten(es[0]) {
        assert Written(es)[1..] == Written(es[1..]);
      } else {
        assert Written(es) == Written(es[1..]);
        assert P.PresetEntryPieces(es[0], indent) + P.PresetEntryList(es[1..], indent) ==
          P.PresetEntryList(es[1..], indent);
      }
    }
  }

  lemma {:induction false} DaemonClausesInOrder(es: seq<BodyEntry>)
    requires InKindOrder(Kind, es)
    ensures InKindOrder(Kind, P.DaemonClauses(es))
    ensures forall i :: 0 <= i < |P.DaemonClauses(es)| ==>
      P.DaemonClauses(es)[i] in es && P.InDaemon(P.DaemonClauses(es)[i])
  {
    if es != [] {
      DaemonClausesInOrder(es[1..]);
      var rest := P.DaemonClauses(es[1..]);
      if P.InDaemon(es[0]) {
        forall j | 0 <= j < |rest| ensures Kind(es[0]) <= Kind(rest[j]) {
          assert rest[j] in es[1..];
        }
      }
    }
  }

  lemma {:induction false} DaemonClausesTwice(es: seq<BodyEntry>)
    requires forall i :: 0 <= i < |es| ==> P.InDaemon(es[i])
    ensures P.DaemonClauses(es) == es
  {
    if es != [] {
      DaemonClausesTwice(es[1..]);
      assert es == [es[0]] + es[1..];
    }
  }

  lemma {:induction false} OrderedStays(es: seq<BodyEntry>)
    requires InKindOrder(Kind, es)
    ensures Ordered(es) == es
  {
    SortedIsGrouped(Kind, KINDS, es);
  }

  /** What is written of a daemon is in order, holds no preset, and is written again as it is. */
  lemma {:induction false} WrittenDaemonStays(body: seq<BodyEntry>)
    ensures var b := P.DaemonClauses(Ordered(body));
      NormClauses(b) == b && Ordered(b) == b && P.DaemonClauses(b) == b
  {
    var b := P.DaemonClauses(Ordered(body));
    assert InKindOrder(Kind, Ordered(body)) by {
      OrderedIsStableSort(body);
    }
    DaemonClausesHaveNoPresets(Ordered(body));
    DaemonClausesInOrder(Ordered(body));
    OrderedStays(b);
    DaemonClausesTwice(b);
  }

  lemma {:induction false} DaemonPrints(name: string, body: seq<BodyEntry>, indent: string)
    ensures P.EntryPieces(NormEntry(DaemonBlock(name, body)), indent) == P.EntryPieces(DaemonBlock(name, body), indent)
  {
    var b := P.DaemonClauses(Ordered(body));
    WrittenDaemonStays(body);
    SamePieces(name, body, b, indent);
    assert NormEntry(DaemonBlock(name, body)) == DaemonBlock(name, b);
  }

  lemma {:induction false} SamePieces(name: string, a: seq<BodyEntry>, b: seq<BodyEntry>, indent: string)
    requires P.DaemonClauses(Ordered(a)) == P.DaemonClauses(Ordered(b))
    ensures P.EntryPieces(DaemonBlock(name, a), indent) == P.EntryPieces(DaemonBlock(name, b), indent)
  {
  }

  lemma {:induction false} EntryPrints(e: BodyEntry, indent: string)
    ensures P.EntryPieces(NormEntry(e), indent) == P.EntryPieces(e, indent)
  {
    if e.DaemonBlock? {
      DaemonPrints(e.name, e.body, indent);
    } else if e.PresetBlock? {
      WrittenPrints(e.entries, indent + "  ");
    }
  }

  lemma {:induction false} EntriesPrint(es: seq<BodyEntry>, indent: string)
    ensures P.EntryList(NormEntries(es), indent) == P.EntryList(es, indent)
  {
    if es != [] {
      EntryPrints(es[0], indent);
      EntriesPrint(es[1..], indent);
      assert NormEntries(es)[1..] == NormEntries(es[1..]);
    }
  }

  lemma {:induction false} NormEntryKeepsKind(e: BodyEntry)
    ensures Kind(NormEntry(e)) == Kind(e)
  {
    if e.DaemonBlock? {
      DaemonsAreOneKind(e, NormEntry(e));
    } else if e.PresetBlock? {
      PresetsAreOneKind(e, NormEntry(e));
    } else {
      OthersStay(e);
    }
  }

  lemma {:induction false} DaemonsAreOneKind(a: BodyEntry, b: BodyEntry)
    requires a.DaemonBlock? && b.DaemonBlock?
    ensures Kind(a) == Kind(b)
  {
  }

  lemma {:induction false} PresetsAreOneKind(a: BodyEntry, b: BodyEntry)
    requires a.PresetBlock? && b.PresetBlock?
    ensures Kind(a) == Kind(b)
  {
  }

  lemma {:induction false} OthersStay(e: BodyEntry)
    requires !e.DaemonBlock? && !e.PresetBlock?
    ensures NormEntry(e) == e
  {
  }

  lemma {:induction false} NormEntriesAt(es: seq<BodyEntry>, i: nat)
    requires i < |es|
    ensures |NormEntries(es)| == |es| && NormEntries(es)[i] == NormEntry(es[i])
  {
    if |es| > 1 {
      NormEntriesAt(es[1..], if i > 0 then i - 1 else 0);
    }
  }

  lemma {:induction false} NormEntriesInOrder(es: seq<BodyEntry>)
    requires InKindOrder(Kind, es)
    ensures InKindOrder(Kind, NormEntries(es))
  {
    var ns := NormEntries(es);
    if es != [] {
      NormEntriesAt(es, 0);
    }
    forall i, j | 0 <= i < j < |ns| ensures Kind(ns[i]) <= Kind(ns[j]) {
      NormEntriesAt(es, i);
      NormEntriesAt(es, j);
      NormEntryKeepsKind(es[i]);
      NormEntryKeepsKind(es[j]);
    }
  }

  lemma {:induction false} BodyPrints(body: seq<BodyEntry>, indent: string)
    ensures P.EntryList(Ordered(NormEntries(Ordered(body))), indent) == P.EntryList(Ordered(body), indent)
  {
    OrderedIsStableSort(body);
    NormEntriesInOrder(Ordered(body));
    OrderedStays(NormEntries(Ordered(body)));
    EntriesPrint(Ordered(body), indent);
  }

  // -------------------------------------------------------------------------- blocks

  lemma {:induction false} MembersPrint(ms: seq<SuiteEntry>)
    ensures P.MemberPieces(NormMembers(ms)) == P.MemberPieces(ms)
  {
    if ms != [] {
      MembersPrint(ms[1..]);
      assert NormMembers(ms)[1..] == NormMembers(ms[1..]);
    }
  }

  lemma {:induction false} SuitePrints(ms: seq<SuiteEntry>)
    requires forall m :: m in ms ==> MemberKept(m) && IsWord(P.MemberText(m))
    ensures P.MemberPieces(SortBy(Raw, NormMembers(SortBy(Raw, ms)))) == P.MemberPieces(SortBy(Raw, ms))
  {
    var sorted := SortBy(Raw, ms);
    SortBySorted(Raw, ms);
    NormMembersIsMap(sorted);
    forall i | 0 <= i < |sorted| ensures Raw(NormMembers(sorted)[i]) == Raw(sorted[i]) {
      SortedFrom(Raw, ms, i);
      MemberFormKeeps(sorted[i]);
    }
    SortedStays(Raw, NormMembers(sorted));
    MembersPrint(sorted);
  }

  lemma {:induction false} SettingsPrint(es: seq<ProfileEntry>)
    ensures P.SettingList(NormSettings(es)) == P.SettingList(es)
  {
    if es != [] {
      SettingsPrint(es[1..]);
      if IsSet(es[0]) {
        assert NormSettings(es)[1..] == NormSettings(es[1..]);
      } else {
        assert NormSettings(es) == NormSettings(es[1..]);
        assert P.SettingPieces(es[0]) + P.SettingList(es[1..]) == P.SettingList(es[1..]);
      }
    }
  }

  /** A suite whose members are identifiers or are written as some; every other block. */
  ghost predicate SuiteKept(e: FileEntry) {
    e.SuiteBlock? ==> forall m :: m in e.members ==> MemberKept(m) && IsWord(P.MemberText(m))
  }

  lemma {:induction false} BlockPrints(e: FileEntry, before: string)
    requires SuiteKept(e)
    ensures P.BlockPieces(NormBlock(e), before) == P.BlockPieces(e, before)
  {
    match e
    case Import(_) =>
    case PrivateMarker =>
    case SuiteBlock(_, members) => SuitePrints(members);
    case ProfileBlock(_, settings) => SettingsPrint(settings);
    case TargetBlock(_, form) =>
      if !OnOneLine(e) {
        BodyPrints(BodyOf(form), "  ");
      }
  }

  lemma {:induction false} BlocksPrint(es: seq<FileEntry>, before: string)
    requires forall i :: 0 <= i < |es| ==> SuiteKept(es[i])
    ensures P.BlockList(NormBlocks(es), before) == P.BlockList(es, before)
  {
    if es != [] {
      BlockPrints(es[0], before);
      BlocksPrint(es[1..], "\n");
      assert NormBlocks(es)[1..] == NormBlocks(es[1..]);
    }
  }

  // --------------------------------------------------------------------------- files

  lemma {:induction false} SectionStays(es: seq<FileEntry>, k: nat)
    ensures SortBy(P.NameOf, Map(NormBlock, P.ByName(es, k))) == Map(NormBlock, P.ByName(es, k))
  {
    var own, sorted := OfKind(P.BlockKind, es, k), P.ByName(es, k);
    SortBySorted(P.NameOf, own);
    forall i | 0 <= i < |sorted| ensures P.NameOf(Map(NormBlock, sorted)[i]) == P.NameOf(sorted[i]) {
      NormBlockKeeps(sorted[i]);
    }
    SortedStays(P.NameOf, Map(NormBlock, sorted));
  }

  lemma {:induction false} MapOfFive(a: seq<FileEntry>, b: seq<FileEntry>, c: seq<FileEntry>, d: seq<FileEntry>,
                                     e: seq<FileEntry>)
    ensures Map(NormBlock, a + b + c + d + e)
         == Map(NormBlock, a) + Map(NormBlock, b) + Map(NormBlock, c) + Map(NormBlock, d) + Map(NormBlock, e)
  {
    MapConcat(a + b + c + d, e);
    MapConcat(a + b + c, d);
    MapConcat(a + b, c);
    MapConcat(a, b);
  }

  lemma {:induction false} MapConcat(a: seq<FileEntry>, b: seq<FileEntry>)
    ensures Map(NormBlock, a + b) == Map(NormBlock, a) + Map(NormBlock, b)
  {
  }

  /** The canonical form is arranged already. */
  lemma {:induction false} CanonicalIsArranged(es: seq<FileEntry>)
    ensures P.Arranged(NormBlocks(P.Arranged(es))) == NormBlocks(P.Arranged(es))
  {
    var all := P.Arranged(es);
    NormBlocksIsMap(all);
    MarkerComesBack(all);
    ArrangedMarker(es);
    MapOfFive(OfKind(P.BlockKind, es, 0), P.MarkerOf(es), P.ByName(es, 2), P.ByName(es, 3), P.ByName(es, 4));
    assert Map(NormBlock, P.MarkerOf(es)) == P.MarkerOf(NormBlocks(all));
    SectionAgain(es, 2);
    SectionAgain(es, 3);
    SectionAgain(es, 4);
    OfKindMapped(all, 0);
    ArrangedOfKind(es, 0);
  }

  lemma {:induction false} SectionAgain(es: seq<FileEntry>, k: nat)
    requires k == 2 || k == 3 || k == 4
    ensures P.ByName(NormBlocks(P.Arranged(es)), k) == Map(NormBlock, P.ByName(es, k))
  {
    NormBlocksIsMap(P.Arranged(es));
    OfKindMapped(P.Arranged(es), k);
    ArrangedOfKind(es, k);
    SectionStays(es, k);
  }

  lemma {:induction false} ArrangedHolds(es: seq<FileEntry>, i: nat)
    requires i < |P.Arranged(es)|
    ensures P.Arranged(es)[i] in es
  {
    var e := P.Arranged(es)[i];
    assert e in OfKind(P.BlockKind, es, 0) || e in P.MarkerOf(es) || e in P.ByName(es, 2) || e in P.ByName(es, 3)
      || e in P.ByName(es, 4);
    OfKindHolds(P.BlockKind, es, 0);
    SectionHolds(es, 2, e);
    SectionHolds(es, 3, e);
    SectionHolds(es, 4, e);
  }

  lemma {:induction false} SectionHolds(es: seq<FileEntry>, k: nat, e: FileEntry)
    ensures e in P.ByName(es, k) ==> e in es
  {
    OfKindHolds(P.BlockKind, es, k);
    if e in P.ByName(es, k) {
      var i :| 0 <= i < |P.ByName(es, k)| && P.ByName(es, k)[i] == e;
      SortedFrom(P.NameOf, OfKind(P.BlockKind, es, k), i);
    }
  }

  /** Formatting the canonical form gives the same text. */
  lemma {:induction false} CanonicalFormats(ast: Bakefile)
    requires forall e :: e in ast.entries ==> SuiteKept(e)
    ensures P.Format(Normal(ast)) == P.Format(ast)
  {
    var all := P.Arranged(ast.entries);
    CanonicalIsArranged(ast.entries);
    forall i | 0 <= i < |all| ensures SuiteKept(all[i]) {
      ArrangedHolds(ast.entries, i);
    }
    BlocksPrint(all, "");
  }

  /** Formatting what was formatted changes nothing. */
  lemma {:induction false} FormatIsIdempotent(ast: Bakefile)
    requires GoodFile(ast) && forall e :: e in ast.entries ==> SuiteKept(e)
    ensures Parser.Parse(P.Format(ast)).Some?
    ensures P.Format(Parser.Parse(P.Format(ast)).value) == P.Format(ast)
  {
    FileSpacing.FormatParses(ast);
    CanonicalFormats(ast);
  }
}
