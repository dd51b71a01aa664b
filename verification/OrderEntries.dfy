/** The canonical clause order of the formatter (internal/dsl/format.go) and why it keeps what a body compiles
    to: clauses of different kinds may be exchanged. */
module OrderEntries {
  import C = Config
  import opened Ast
  import opened Compile
  import opened StableBuckets

  const KINDS: nat := 22

  /** Position of a clause's kind in the canonical order. Steps blocks and bare steps share one. */
  function Kind(e: BodyEntry): (k: nat)
    ensures k < KINDS
  {
    match e
    case Desc(_) => 0
    case Deps(_) => 1
    case WhenEnv(_) => 2
    case WhenCmd(_) => 3
    case Inputs(_) => 4
    case Outputs(_) => 5
    case Args(_, _, _, _) => 6
    case Env(_) => 7
    case Cwd(_) => 8
    case Tags(_) => 9
    case Private => 10
    case Passthrough(_, _) => 11
    case Pool(_) => 12
    case Mutex(_) => 13
    case ImageIdent(_) => 14
    case ImageString(_) => 14
    case Unsafe => 15
    case Net(_) => 16
    case Vol(_, _) => 17
    case Steps(_) => 18
    case OneStep(_) => 18
    case Workflow(_) => 19
    case DaemonBlock(_, _) => 20
    case PresetBlock(_, _) => 21
  }

  function Ordered(es: seq<BodyEntry>): seq<BodyEntry> {
    Grouped(Kind, KINDS, es)
  }

  method OrderBodyEntries(es: seq<BodyEntry>) returns (out: seq<BodyEntry>)
    ensures out == Ordered(es)
  {
    out := Group(Kind, KINDS, es);
  }

  /** orderBodyEntries is a permutation, sorted by kind, stable, and idempotent. */
  lemma {:induction false} OrderedIsStableSort(es: seq<BodyEntry>)
    ensures multiset(Ordered(es)) == multiset(es)
    ensures InKindOrder(Kind, Ordered(es))
    ensures forall k :: 0 <= k < KINDS ==> OfKind(Kind, Ordered(es), k) == OfKind(Kind, es, k)
    ensures Ordered(Ordered(es)) == Ordered(es)
  {
    GroupedIsPermutation(Kind, KINDS, es);
    FromIsSorted(Kind, KINDS, es, 0);
    forall k | 0 <= k < KINDS ensures OfKind(Kind, Ordered(es), k) == OfKind(Kind, es, k) {
      OfKindFrom(Kind, KINDS, es, 0, k);
    }
    GroupedIdempotent(Kind, KINDS, es);
  }

  // --------------------------------------------------- clauses of different kinds commute

  /** Two targets agree in the fields that the clauses of kind k write; no clause writes the name. */
  predicate SameAt(k: nat, a: C.Target, b: C.Target) {
    match k
    case 0 => a.desc == b.desc
    case 1 => a.deps == b.deps
    case 2 => a.whenEnv == b.whenEnv
    case 3 => a.whenCmd == b.whenCmd
    case 4 => a.inputs == b.inputs
    case 5 => a.outputs == b.outputs
    case 6 => a.args == b.args
    case 7 => a.env == b.env
    case 8 => a.cwd == b.cwd
    case 9 => a.tags == b.tags
    case 10 => a.private == b.private
    case 11 => a.passthrough == b.passthrough && a.passthroughStep == b.passthroughStep
    case 12 => a.pool == b.pool
    case 13 => a.mutex == b.mutex
    case 14 => a.image == b.image
    case 15 => a.unsafe == b.unsafe
    case 16 => a.networks == b.networks
    case 17 => a.volumes == b.volumes
    case 18 => a.steps == b.steps
    case 19 => a.workflow == b.workflow && a.schedule == b.schedule
    case 20 => a.daemons == b.daemons
    case 21 => a.presets == b.presets
    case _ => a.name == b.name
  }

  lemma {:induction false} SameEverywhere(a: C.Target, b: C.Target)
    requires forall k: nat :: SameAt(k, a, b)
    ensures a == b
  {
    assert SameAt(0, a, b) && SameAt(1, a, b) && SameAt(2, a, b) && SameAt(3, a, b) && SameAt(4, a, b)
      && SameAt(5, a, b) && SameAt(6, a, b) && SameAt(7, a, b);
    assert SameAt(8, a, b) && SameAt(9, a, b) && SameAt(10, a, b) && SameAt(11, a, b) && SameAt(12, a, b)
      && SameAt(13, a, b) && SameAt(14, a, b) && SameAt(15, a, b);
    assert SameAt(16, a, b) && SameAt(17, a, b) && SameAt(18, a, b) && SameAt(19, a, b) && SameAt(20, a, b)
      && SameAt(21, a, b) && SameAt(22, a, b);
  }

  lemma {:induction false} UntouchedTexts(t: C.Target, e: BodyEntry, k: nat)
    requires k != Kind(e) && k < 2
    ensures SameAt(k, WithEntry(t, e), t)
  {
  }

  lemma {:induction false} UntouchedGuards(t: C.Target, e: BodyEntry, k: nat)
    requires k != Kind(e) && 2 <= k < 4
    ensures SameAt(k, WithEntry(t, e), t)
  {
  }

  lemma {:induction false} UntouchedPaths(t: C.Target, e: BodyEntry, k: nat)
    requires k != Kind(e) && 4 <= k < 6
    ensures SameAt(k, WithEntry(t, e), t)
  {
  }

  lemma {:induction false} UntouchedValues(t: C.Target, e: BodyEntry, k: nat)
    requires k != Kind(e) && 6 <= k < 8
    ensures SameAt(k, WithEntry(t, e), t)
  {
  }

  lemma {:induction false} UntouchedMarks(t: C.Target, e: BodyEntry, k: nat)
    requires k != Kind(e) && 8 <= k < 10
    ensures SameAt(k, WithEntry(t, e), t)
  {
  }

  lemma {:induction false} UntouchedFlags(t: C.Target, e: BodyEntry, k: nat)
    requires k != Kind(e) && 10 <= k < 12
    ensures SameAt(k, WithEntry(t, e), t)
  {
  }

  lemma {:induction false} UntouchedLocks(t: C.Target, e: BodyEntry, k: nat)
    requires k != Kind(e) && 12 <= k < 14
    ensures SameAt(k, WithEntry(t, e), t)
  {
  }

  lemma {:induction false} UntouchedContainer(t: C.Target, e: BodyEntry, k: nat)
    requires k != Kind(e) && 14 <= k < 18
    ensures SameAt(k, WithEntry(t, e), t)
  {
  }

  lemma {:induction false} UntouchedBlocks(t: C.Target, e: BodyEntry, k: nat)
    requires k != Kind(e) && 18 <= k
    ensures SameAt(k, WithEntry(t, e), t)
  {
  }

  /** A clause leaves alone what the clauses of other kinds write ... */
  lemma {:induction false} Untouched(t: C.Target, e: BodyEntry, k: nat)
    requires k != Kind(e)
    ensures SameAt(k, WithEntry(t, e), t)
  {
    if k < 2 {
      UntouchedTexts(t, e, k);
    } else if k < 4 {
      UntouchedGuards(t, e, k);
    } else if k < 6 {
      UntouchedPaths(t, e, k);
    } else if k < 8 {
      UntouchedValues(t, e, k);
    } else if k < 10 {
      UntouchedMarks(t, e, k);
    } else if k < 12 {
      UntouchedFlags(t, e, k);
    } else if k < 14 {
      UntouchedLocks(t, e, k);
    } else if k < 18 {
      UntouchedContainer(t, e, k);
    } else {
      UntouchedBlocks(t, e, k);
    }
  }

  /** ... and reads nothing but what the clauses of its own kind write. */
  lemma {:induction false} ReadsItsOwn(a: C.Target, b: C.Target, e: BodyEntry)
    requires SameAt(Kind(e), a, b)
    ensures SameAt(Kind(e), WithEntry(a, e), WithEntry(b, e))
  {
  }

  lemma {:induction false} Agreement(k: nat, a: C.Target, b: C.Target, c: C.Target)
    requires SameAt(k, a, b)
    ensures SameAt(k, b, a) && (SameAt(k, b, c) ==> SameAt(k, a, c))
  {
  }

  lemma {:induction false} FieldsApart()
    ensures Apart(WithEntry, Kind, SameAt)
  {
    forall t: C.Target, e, k | k != Kind(e) ensures SameAt(k, WithEntry(t, e), t) {
      Untouched(t, e, k);
    }
    forall a: C.Target, b, e | SameAt(Kind(e), a, b) ensures SameAt(Kind(e), WithEntry(a, e), WithEntry(b, e)) {
      ReadsItsOwn(a, b, e);
    }
    forall k, a, b, c | SameAt(k, a, b) ensures SameAt(k, b, a) && (SameAt(k, b, c) ==> SameAt(k, a, c)) {
      Agreement(k, a, b, c);
    }
  }

  /** Two clauses of different kinds may be exchanged. */
  lemma {:induction false} Commute(t: C.Target, x: BodyEntry, y: BodyEntry)
    requires Kind(x) != Kind(y)
    ensures WithEntry(WithEntry(t, x), y) == WithEntry(WithEntry(t, y), x)
  {
    FieldsApart();
    forall k: nat ensures SameAt(k, WithEntry(WithEntry(t, x), y), WithEntry(WithEntry(t, y), x)) {
      ApartCommutes(WithEntry, Kind, SameAt, t, x, y, k);
    }
    SameEverywhere(WithEntry(WithEntry(t, x), y), WithEntry(WithEntry(t, y), x));
  }

  /** Compiling the reordered body gives what the original body gives, for every body. */
  lemma {:induction false} OrderingPreservesCompile(t: C.Target, es: seq<BodyEntry>)
    ensures WithBody(t, Ordered(es)) == WithBody(t, es)
  {
    forall s: C.Target, x, y | Kind(x) != Kind(y)
      ensures WithEntry(WithEntry(s, x), y) == WithEntry(WithEntry(s, y), x)
    {
      Commute(s, x, y);
    }
    FoldGrouped(WithEntry, Kind, KINDS, t, es);
  }

  // --------------------------------------------------------- the same for daemon bodies

  lemma {:induction false} CommuteInDaemonForward(d: C.Daemon, x: BodyEntry, y: BodyEntry)
    requires Kind(x) < Kind(y)
    ensures WithDaemonEntry(WithDaemonEntry(d, x), y) == WithDaemonEntry(WithDaemonEntry(d, y), x)
  {
  }

  lemma {:induction false} CommuteInDaemon(d: C.Daemon, x: BodyEntry, y: BodyEntry)
    requires Kind(x) != Kind(y)
    ensures WithDaemonEntry(WithDaemonEntry(d, x), y) == WithDaemonEntry(WithDaemonEntry(d, y), x)
  {
    if Kind(x) < Kind(y) {
      CommuteInDaemonForward(d, x, y);
    } else {
      CommuteInDaemonForward(d, y, x);
    }
  }

  lemma {:induction false} OrderingPreservesDaemon(d: C.Daemon, es: seq<BodyEntry>)
    ensures WithDaemonBody(d, Ordered(es)) == WithDaemonBody(d, es)
  {
    forall s: C.Daemon, x, y | Kind(x) != Kind(y)
      ensures WithDaemonEntry(WithDaemonEntry(s, x), y) == WithDaemonEntry(WithDaemonEntry(s, y), x)
    {
      CommuteInDaemon(s, x, y);
    }
    FoldGrouped(WithDaemonEntry, Kind, KINDS, d, es);
  }
}
