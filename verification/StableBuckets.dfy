/** Grouping a sequence by kind, keeping the order within a kind: the bucket slices of the formatter
    (internal/dsl/format.go). The grouping is the one reordering that is sorted by kind and stable, and a left fold
    whose steps of different kinds commute does not see it. */
module StableBuckets {

  /** The entries of one kind, in their original order. */
  function OfKind<T>(kind: T -> nat, es: seq<T>, k: nat): seq<T> {
    if es == [] then []
    else
      var rest := OfKind(kind, es[..|es| - 1], k);
      if kind(es[|es| - 1]) == k then rest + [es[|es| - 1]] else rest
  }

  /** Kinds k, k + 1, ..., top - 1, one after the other. */
  function From<T>(kind: T -> nat, top: nat, es: seq<T>, k: nat): seq<T>
    requires k <= top
    decreases top - k
  {
    if k == top then [] else OfKind(kind, es, k) + From(kind, top, es, k + 1)
  }

  lemma {:induction false} OfKindHolds<T>(kind: T -> nat, es: seq<T>, k: nat)
    ensures forall e :: e in OfKind(kind, es, k) ==> kind(e) == k && e in es
  {
    if es != [] {
      OfKindHolds(kind, es[..|es| - 1], k);
    }
  }

  lemma {:induction false} OfKindHas<T>(kind: T -> nat, es: seq<T>, e: T)
    requires e in es
    ensures e in OfKind(kind, es, kind(e))
  {
    if e in es[..|es| - 1] {
      OfKindHas(kind, es[..|es| - 1], e);
    }
  }

  lemma {:induction false} FromHolds<T>(kind: T -> nat, top: nat, es: seq<T>, k: nat)
    requires k <= top
    ensures forall e :: e in From(kind, top, es, k) ==> kind(e) >= k && e in es
    decreases top - k
  {
    if k < top {
      OfKindHolds(kind, es, k);
      FromHolds(kind, top, es, k + 1);
    }
  }

  function Grouped<T>(kind: T -> nat, top: nat, es: seq<T>): seq<T> {
    From(kind, top, es, 0)
  }

  function Concat<T>(buckets: seq<seq<T>>): seq<T> {
    if buckets == [] then [] else buckets[0] + Concat(buckets[1..])
  }

  lemma {:induction false} ConcatFrom<T>(kind: T -> nat, top: nat, buckets: seq<seq<T>>, es: seq<T>, k: nat)
    requires |buckets| == top && k <= top
    requires forall i :: 0 <= i < top ==> buckets[i] == OfKind(kind, es, i)
    ensures Concat(buckets[k..]) == From(kind, top, es, k)
    decreases top - k
  {
    if k < top {
      ConcatFrom(kind, top, buckets, es, k + 1);
      assert buckets[k..][1..] == buckets[k + 1..];
    }
  }

  /** One bucket per kind, filled in a loop, then joined. */
  method Group<T>(kind: T -> nat, top: nat, es: seq<T>) returns (out: seq<T>)
    requires forall e :: e in es ==> kind(e) < top
    ensures out == Grouped(kind, top, es)
  {
    var buckets: seq<seq<T>> := seq(top, _ => []);
    for i := 0 to |es|
      invariant |buckets| == top
      invariant forall k :: 0 <= k < top ==> buckets[k] == OfKind(kind, es[..i], k)
    {
      assert es[..i + 1][..i] == es[..i];
      var k := kind(es[i]);
      buckets := buckets[k := buckets[k] + [es[i]]];
    }
    assert es[..|es|] == es;
    ConcatFrom(kind, top, buckets, es, 0);
    assert buckets[0..] == buckets;
    out := [];
    for k := 0 to top
      invariant out + Concat(buckets[k..]) == Concat(buckets)
    {
      assert buckets[k..][1..] == buckets[k + 1..];
      assert out + (buckets[k] + Concat(buckets[k + 1..])) == (out + buckets[k]) + Concat(buckets[k + 1..]);
      out := out + buckets[k];
    }
  }

  ghost predicate InKindOrder<T>(kind: T -> nat, es: seq<T>) {
    forall i, j :: 0 <= i < j < |es| ==> kind(es[i]) <= kind(es[j])
  }

  lemma {:induction false} FromIsSorted<T>(kind: T -> nat, top: nat, es: seq<T>, k: nat)
    requires k <= top
    ensures InKindOrder(kind, From(kind, top, es, k))
    decreases top - k
  {
    if k < top {
      OfKindHolds(kind, es, k);
      FromHolds(kind, top, es, k + 1);
      FromIsSorted(kind, top, es, k + 1);
    }
  }

  lemma {:induction false} OfKindConcat<T>(kind: T -> nat, a: seq<T>, b: seq<T>, k: nat)
    ensures OfKind(kind, a + b, k) == OfKind(kind, a, k) + OfKind(kind, b, k)
    decreases |b|
  {
    if b == [] {
      assert a + b == a;
    } else {
      assert (a + b)[..|a + b| - 1] == a + b[..|b| - 1];
      OfKindConcat(kind, a, b[..|b| - 1], k);
    }
  }

  lemma {:induction false} OfKindOnly<T>(kind: T -> nat, es: seq<T>, k: nat, l: nat)
    requires forall i :: 0 <= i < |es| ==> kind(es[i]) == l
    ensures OfKind(kind, es, k) == if k == l then es else []
  {
    if es != [] {
      OfKindOnly(kind, es[..|es| - 1], k, l);
      assert es == es[..|es| - 1] + [es[|es| - 1]];
    }
  }

  lemma {:induction false} OfKindTwice<T>(kind: T -> nat, es: seq<T>, k: nat, l: nat)
    ensures OfKind(kind, OfKind(kind, es, k), l) == if k == l then OfKind(kind, es, k) else []
    decreases |es|
  {
    if es != [] {
      var init, last := es[..|es| - 1], es[|es| - 1];
      OfKindTwice(kind, init, k, l);
      if kind(last) == k {
        OfKindAppend(kind, OfKind(kind, init, k), last, l);
      }
    }
  }

  /** Order within a kind is kept. */
  lemma {:induction false} OfKindFrom<T>(kind: T -> nat, top: nat, es: seq<T>, k: nat, l: nat)
    requires k <= top && l < top
    ensures OfKind(kind, From(kind, top, es, k), l) == if l >= k then OfKind(kind, es, l) else []
    decreases top - k
  {
    if k < top {
      OfKindConcat(kind, OfKind(kind, es, k), From(kind, top, es, k + 1), l);
      OfKindTwice(kind, es, k, l);
      OfKindFrom(kind, top, es, k + 1, l);
      NothingAdded(OfKind(kind, es, l));
    }
  }

  lemma {:induction false} NothingAdded<T>(s: seq<T>)
    ensures s + [] == s && [] + s == s
  {
  }

  lemma {:induction false} FromSame<T>(kind: T -> nat, top: nat, a: seq<T>, b: seq<T>, k: nat)
    requires k <= top && forall l :: 0 <= l < top ==> OfKind(kind, a, l) == OfKind(kind, b, l)
    ensures From(kind, top, a, k) == From(kind, top, b, k)
    decreases top - k
  {
    if k < top {
      FromSame(kind, top, a, b, k + 1);
    }
  }

  /** Grouping twice is grouping once. */
  lemma {:induction false} GroupedIdempotent<T>(kind: T -> nat, top: nat, es: seq<T>)
    ensures Grouped(kind, top, Grouped(kind, top, es)) == Grouped(kind, top, es)
  {
    forall l | 0 <= l < top ensures OfKind(kind, Grouped(kind, top, es), l) == OfKind(kind, es, l) {
      OfKindFrom(kind, top, es, 0, l);
    }
    FromSame(kind, top, Grouped(kind, top, es), es, 0);
  }

  /** Appending one more entry: it lands behind everything of its own or an earlier kind. */
  lemma {:induction false} FromAppend<T>(kind: T -> nat, top: nat, es: seq<T>, e: T, k: nat)
    returns (a: seq<T>, b: seq<T>)
    requires k <= kind(e) < top
    ensures From(kind, top, es, k) == a + b
    ensures From(kind, top, es + [e], k) == a + [e] + b
    ensures forall x :: x in b ==> kind(x) > kind(e) && x in es
    decreases top - k
  {
    var own := OfKind(kind, es, k);
    OfKindAppend(kind, es, e, k);
    if k == kind(e) {
      a, b := own, From(kind, top, es, k + 1);
      FromUnchanged(kind, top, es, e, k + 1);
      FromHolds(kind, top, es, k + 1);
    } else {
      var a', b' := FromAppend(kind, top, es, e, k + 1);
      a, b := own + a', b';
      AppendWithin(own, a', e, b');
    }
  }

  lemma {:induction false} AppendWithin<T>(own: seq<T>, a: seq<T>, e: T, b: seq<T>)
    ensures own + (a + b) == (own + a) + b
    ensures own + (a + [e] + b) == (own + a) + [e] + b
  {
  }

  lemma {:induction false} OfKindAppend<T>(kind: T -> nat, es: seq<T>, e: T, k: nat)
    ensures OfKind(kind, es + [e], k) == if kind(e) == k then OfKind(kind, es, k) + [e] else OfKind(kind, es, k)
  {
    assert (es + [e])[..|es|] == es;
  }

  lemma {:induction false} FromEmpty<T>(kind: T -> nat, top: nat, k: nat)
    requires k <= top
    ensures From(kind, top, [], k) == []
    decreases top - k
  {
    if k < top {
      FromEmpty(kind, top, k + 1);
    }
  }

  /** Grouping is a permutation. */
  lemma {:induction false} GroupedIsPermutation<T>(kind: T -> nat, top: nat, es: seq<T>)
    requires forall e :: e in es ==> kind(e) < top
    ensures multiset(Grouped(kind, top, es)) == multiset(es)
    decreases |es|
  {
    if es == [] {
      FromEmpty(kind, top, 0);
    } else {
      var rest, e := es[..|es| - 1], es[|es| - 1];
      GroupedIsPermutation(kind, top, rest);
      var a, b := FromAppend(kind, top, rest, e, 0);
      assert es == rest + [e];
      assert multiset(a + [e] + b) == multiset(a + b) + multiset{e};
    }
  }

  lemma {:induction false} FromNone<T>(kind: T -> nat, top: nat, es: seq<T>, k: nat)
    requires k <= top && forall i :: 0 <= i < |es| ==> kind(es[i]) < k
    ensures From(kind, top, es, k) == []
    decreases top - k
  {
    if k < top {
      OfKindNone(kind, es, k);
      FromNone(kind, top, es, k + 1);
    }
  }

  lemma {:induction false} OfKindNone<T>(kind: T -> nat, es: seq<T>, k: nat)
    requires forall i :: 0 <= i < |es| ==> kind(es[i]) != k
    ensures OfKind(kind, es, k) == []
  {
    if es != [] {
      OfKindNone(kind, es[..|es| - 1], k);
    }
  }

  /** An entry that no later kind precedes lands at the end. */
  lemma {:induction false} FromSnoc<T>(kind: T -> nat, top: nat, es: seq<T>, e: T, k: nat)
    requires k <= kind(e) < top && From(kind, top, es, kind(e) + 1) == []
    ensures From(kind, top, es + [e], k) == From(kind, top, es, k) + [e]
    decreases top - k
  {
    OfKindAppend(kind, es, e, k);
    if k < kind(e) {
      FromSnoc(kind, top, es, e, k + 1);
      var own, later := OfKind(kind, es, k), From(kind, top, es, k + 1);
      assert own + (later + [e]) == (own + later) + [e];
    } else {
      FromUnchanged(kind, top, es, e, k + 1);
      NothingAdded(OfKind(kind, es, k));
      NothingAdded(OfKind(kind, es, k) + [e]);
    }
  }

  lemma {:induction false} FromUnchanged<T>(kind: T -> nat, top: nat, es: seq<T>, e: T, k: nat)
    requires kind(e) < k <= top
    ensures From(kind, top, es + [e], k) == From(kind, top, es, k)
    decreases top - k
  {
    if k < top {
      OfKindAppend(kind, es, e, k);
      FromUnchanged(kind, top, es, e, k + 1);
    }
  }

  lemma {:induction false} SortedSnoc<T>(kind: T -> nat, top: nat, rest: seq<T>, e: T)
    requires Grouped(kind, top, rest) == rest && kind(e) < top
    requires forall i :: 0 <= i < |rest| ==> kind(rest[i]) < kind(e) + 1
    ensures Grouped(kind, top, rest + [e]) == rest + [e]
  {
    FromNone(kind, top, rest, kind(e) + 1);
    FromSnoc(kind, top, rest, e, 0);
  }

  lemma {:induction false} OrderedPrefix<T>(kind: T -> nat, top: nat, es: seq<T>)
    requires InKindOrder(kind, es) && es != [] && forall i :: 0 <= i < |es| ==> kind(es[i]) < top
    ensures var rest := es[..|es| - 1];
      && InKindOrder(kind, rest)
      && (forall i :: 0 <= i < |rest| ==> kind(rest[i]) < top)
      && (forall i :: 0 <= i < |rest| ==> kind(rest[i]) < kind(es[|es| - 1]) + 1)
      && kind(es[|es| - 1]) < top && es == rest + [es[|es| - 1]]
  {
  }

  /** A sequence already in kind order is not changed. */
  lemma {:induction false} SortedIsGrouped<T>(kind: T -> nat, top: nat, es: seq<T>)
    requires InKindOrder(kind, es) && forall i :: 0 <= i < |es| ==> kind(es[i]) < top
    ensures Grouped(kind, top, es) == es
    decreases |es|
  {
    if es == [] {
      FromEmpty(kind, top, 0);
    } else {
      OrderedPrefix(kind, top, es);
      SortedIsGrouped(kind, top, es[..|es| - 1]);
      SortedSnoc(kind, top, es[..|es| - 1], es[|es| - 1]);
    }
  }

  /** Any reordering that is sorted by kind and keeps the order within each kind is the grouping. */
  lemma {:induction false} GroupedUnique<T>(kind: T -> nat, top: nat, es: seq<T>, out: seq<T>)
    requires InKindOrder(kind, out) && forall e :: e in out ==> kind(e) < top
    requires forall l :: 0 <= l < top ==> OfKind(kind, out, l) == OfKind(kind, es, l)
    ensures out == Grouped(kind, top, es)
  {
    SortedIsGrouped(kind, top, out);
    FromSame(kind, top, out, es, 0);
  }

  // ------------------------------------------------------ grouping under a left fold

  function Fold<S, T>(f: (S, T) -> S, s: S, es: seq<T>): S {
    if es == [] then s else f(Fold(f, s, es[..|es| - 1]), es[|es| - 1])
  }

  lemma {:induction false} FoldConcat<S, T>(f: (S, T) -> S, s: S, a: seq<T>, b: seq<T>)
    ensures Fold(f, s, a + b) == Fold(f, Fold(f, s, a), b)
    decreases |b|
  {
    if b == [] {
      assert a + b == a;
    } else {
      assert (a + b)[..|a + b| - 1] == a + b[..|b| - 1];
      FoldConcat(f, s, a, b[..|b| - 1]);
    }
  }

  /** Steps of different kinds may be exchanged. */
  ghost predicate KindsCommute<S(!new), T(!new)>(f: (S, T) -> S, kind: T -> nat) {
    forall s, x, y :: kind(x) != kind(y) ==> f(f(s, x), y) == f(f(s, y), x)
  }

  lemma {:induction false} MovePast<S(!new), T(!new)>(f: (S, T) -> S, kind: T -> nat, s: S, e: T, b: seq<T>)
    requires KindsCommute(f, kind) && forall x :: x in b ==> kind(x) != kind(e)
    ensures Fold(f, f(s, e), b) == f(Fold(f, s, b), e)
    decreases |b|
  {
    if b != [] {
      assert b[|b| - 1] in b;
      MovePast(f, kind, s, e, b[..|b| - 1]);
    }
  }

  /** A fold whose steps of different kinds commute does not see the grouping. */
  lemma {:induction false} FoldGrouped<S(!new), T(!new)>(f: (S, T) -> S, kind: T -> nat, top: nat, s: S, es: seq<T>)
    requires KindsCommute(f, kind) && forall e :: e in es ==> kind(e) < top
    ensures Fold(f, s, Grouped(kind, top, es)) == Fold(f, s, es)
    decreases |es|
  {
    if es == [] {
      FromEmpty(kind, top, 0);
    } else {
      var rest, e := es[..|es| - 1], es[|es| - 1];
      FoldGrouped(f, kind, top, s, rest);
      assert es == rest + [e];
      var a, b := FromAppend(kind, top, rest, e, 0);
      FoldConcat(f, s, a + [e], b);
      FoldConcat(f, s, a, b);
      assert (a + [e])[..|a|] == a;
      MovePast(f, kind, Fold(f, s, a), e, b);
    }
  }

  // ------------------------------------------------------------- sequences element by element

  ghost predicate Pairwise<T(!new)>(r: (T, T) -> bool, a: seq<T>, b: seq<T>) {
    |a| == |b| && forall i :: 0 <= i < |a| ==> r(a[i], b[i])
  }

  lemma {:induction false} PairwiseJoins<T(!new)>(r: (T, T) -> bool, a: seq<T>, b: seq<T>, c: seq<T>, d: seq<T>)
    requires Pairwise(r, a, b) && Pairwise(r, c, d)
    ensures Pairwise(r, a + c, b + d)
  {
  }

  /** Elements that correspond have the same kind. */
  ghost predicate KeepsKind<T(!new)>(r: (T, T) -> bool, kind: T -> nat) {
    forall x, y :: r(x, y) ==> kind(x) == kind(y)
  }

  lemma {:induction false} OfKindPairwise<T(!new)>(r: (T, T) -> bool, kind: T -> nat, a: seq<T>, b: seq<T>, k: nat)
    requires Pairwise(r, a, b) && KeepsKind(r, kind)
    ensures Pairwise(r, OfKind(kind, a, k), OfKind(kind, b, k))
    decreases |a|
  {
    if a != [] {
      var x, y := a[|a| - 1], b[|b| - 1];
      assert r(x, y);
      OfKindPairwise(r, kind, a[..|a| - 1], b[..|b| - 1], k);
    }
  }

  lemma {:induction false} GroupedPairwise<T(!new)>(r: (T, T) -> bool, kind: T -> nat, top: nat,
                                                    a: seq<T>, b: seq<T>, k: nat)
    requires Pairwise(r, a, b) && KeepsKind(r, kind) && k <= top
    ensures Pairwise(r, From(kind, top, a, k), From(kind, top, b, k))
    decreases top - k
  {
    if k < top {
      OfKindPairwise(r, kind, a, b, k);
      GroupedPairwise(r, kind, top, a, b, k + 1);
      PairwiseJoins(r, OfKind(kind, a, k), OfKind(kind, b, k), From(kind, top, a, k + 1), From(kind, top, b, k + 1));
    }
  }

  // ------------------------------------------------------------- steps that keep to a field

  /** The state falls into fields, one for each kind; `same` says that two states agree in a field. A step writes
      the field of its kind only, and what it writes there depends on that field only. */
  ghost predicate Apart<S(!new), E(!new)>(step: (S, E) -> S, kind: E -> nat, same: (nat, S, S) -> bool) {
    && (forall s, e, k :: k != kind(e) ==> same(k, step(s, e), s))
    && (forall a, b, e :: same(kind(e), a, b) ==> same(kind(e), step(a, e), step(b, e)))
    && (forall k, a, b, c :: same(k, a, b) ==> same(k, b, a) && (same(k, b, c) ==> same(k, a, c)))
  }

  lemma {:induction false} ApartCommutes<S(!new), E(!new)>(step: (S, E) -> S, kind: E -> nat, same: (nat, S, S) -> bool,
                                                           s: S, x: E, y: E, k: nat)
    requires Apart(step, kind, same) && kind(x) != kind(y)
    ensures same(k, step(step(s, x), y), step(step(s, y), x))
  {
    var sx, sy := step(s, x), step(s, y);
    var one, two := step(sx, y), step(sy, x);
    if k == kind(x) {
      assert same(k, one, sx);
      assert same(k, sy, s);
      assert same(k, two, sx);
      assert same(k, sx, two);
    } else if k == kind(y) {
      assert same(k, two, sy);
      assert same(k, sx, s);
      assert same(k, one, sy);
      assert same(k, sy, two);
    } else {
      assert same(k, one, sx) && same(k, sx, s);
      assert same(k, one, s);
      assert same(k, two, sy) && same(k, sy, s);
      assert same(k, two, s) && same(k, s, two);
    }
  }
}
