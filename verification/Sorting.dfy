/** Sorting by a string key, as the formatter sorts blocks by name and suite members by reference: a permutation, in
    order, that leaves what is in order alone and commutes with every map that keeps the keys. */
module Sorting {
  import opened StableBuckets

  /** Character by character; a proper prefix comes first. */
  predicate Before(a: string, b: string) {
    if b == [] then false
    else if a == [] then true
    else if a[0] != b[0] then a[0] < b[0]
    else Before(a[1..], b[1..])
  }

  /** The place where a comes before b: a ends there and b does not, or its character is the smaller one. */
  ghost predicate FirstDifference(a: string, b: string, k: nat) {
    k <= |a| && k < |b| && a[..k] == b[..k] && (k == |a| || a[k] < b[k])
  }

  lemma {:induction false} PrefixesAgree(a: string, b: string, k: nat)
    requires k <= |a| && k <= |b| && a[..k] == b[..k]
    ensures forall i :: 0 <= i < k ==> a[i] == b[i]
  {
    forall i | 0 <= i < k ensures a[i] == b[i] {
      assert a[..k][i] == b[..k][i];
    }
  }

  lemma {:induction false} BeforeMeans(a: string, b: string)
    ensures Before(a, b) <==> exists k: nat :: FirstDifference(a, b, k)
  {
    if a == [] || b == [] {
      assert b != [] ==> FirstDifference([], b, 0);
    } else if a[0] != b[0] {
      assert a[0] < b[0] ==> FirstDifference(a, b, 0);
      forall k: nat | FirstDifference(a, b, k) ensures k == 0 {
        PrefixesAgree(a, b, k);
      }
    } else {
      BeforeMeans(a[1..], b[1..]);
      if k: nat :| FirstDifference(a[1..], b[1..], k) {
        assert a[..k + 1] == [a[0]] + a[1..][..k] && b[..k + 1] == [b[0]] + b[1..][..k];
        assert FirstDifference(a, b, k + 1);
      }
      if k: nat :| FirstDifference(a, b, k) {
        assert a[1..][..k - 1] == a[..k][1..] && b[1..][..k - 1] == b[..k][1..];
        assert FirstDifference(a[1..], b[1..], k - 1);
      }
    }
  }

  lemma {:induction false} BeforeIsStrict(a: string, b: string)
    ensures !(Before(a, b) && Before(b, a))
    ensures Before(a, b) || Before(b, a) || a == b
    ensures !Before(a, a)
  {
    if a != [] && b != [] && a[0] == b[0] {
      BeforeIsStrict(a[1..], b[1..]);
      assert a == [a[0]] + a[1..] && b == [b[0]] + b[1..];
    } else if a != [] {
      BeforeIsStrict(a[1..], []);
    }
    if a != [] {
      BeforeIsStrict(a[1..], a[1..]);
    }
  }

  lemma {:induction false} BeforeIsTransitive(a: string, b: string, c: string)
    requires Before(a, b) && Before(b, c)
    ensures Before(a, c)
  {
    if a != [] && a[0] == b[0] && b[0] == c[0] {
      BeforeIsTransitive(a[1..], b[1..], c[1..]);
    }
  }

  /** Puts an element behind those whose key does not come after its own. */
  function Insert<T>(key: T -> string, x: T, s: seq<T>): seq<T> {
    if s == [] then [x]
    else if Before(key(x), key(s[0])) then [x] + s
    else [s[0]] + Insert(key, x, s[1..])
  }

  function SortBy<T>(key: T -> string, s: seq<T>): seq<T> {
    if s == [] then [] else Insert(key, s[|s| - 1], SortBy(key, s[..|s| - 1]))
  }

  ghost predicate Sorted<T>(key: T -> string, s: seq<T>) {
    forall i, j :: 0 <= i < j < |s| ==> !Before(key(s[j]), key(s[i]))
  }

  lemma {:induction false} InsertHolds<T>(key: T -> string, x: T, s: seq<T>)
    ensures multiset(Insert(key, x, s)) == multiset(s) + multiset{x}
  {
    if s != [] && !Before(key(x), key(s[0])) {
      InsertHolds(key, x, s[1..]);
      assert s == [s[0]] + s[1..];
    }
  }

  /** Sorting is a permutation. */
  lemma {:induction false} SortByHolds<T>(key: T -> string, s: seq<T>)
    ensures multiset(SortBy(key, s)) == multiset(s)
  {
    if s != [] {
      var init, last := s[..|s| - 1], s[|s| - 1];
      SortByHolds(key, init);
      InsertHolds(key, last, SortBy(key, init));
      assert s == init + [last];
    }
  }

  lemma {:induction false} SameElements<T>(key: T -> string, s: seq<T>)
    ensures |SortBy(key, s)| == |s|
    ensures forall x :: x in SortBy(key, s) <==> x in s
  {
    SortByHolds(key, s);
    assert |multiset(SortBy(key, s))| == |SortBy(key, s)| && |multiset(s)| == |s|;
    forall x ensures x in SortBy(key, s) <==> x in s {
      assert x in SortBy(key, s) <==> x in multiset(SortBy(key, s));
    }
  }

  lemma {:induction false} SortedFrom<T>(key: T -> string, s: seq<T>, i: nat)
    requires i < |SortBy(key, s)|
    ensures SortBy(key, s)[i] in s
  {
    SortByHolds(key, s);
    assert SortBy(key, s)[i] in multiset(SortBy(key, s));
    assert SortBy(key, s)[i] in multiset(s);
  }

  lemma {:induction false} NotBefore(a: string, b: string, c: string)
    requires Before(b, c) && !Before(a, c)
    ensures !Before(a, b)
  {
    if Before(a, b) {
      BeforeIsTransitive(a, b, c);
    }
  }

  lemma {:induction false} InsertSorted<T>(key: T -> string, x: T, s: seq<T>)
    requires Sorted(key, s)
    ensures Sorted(key, Insert(key, x, s))
  {
    if s != [] {
      if Before(key(x), key(s[0])) {
        BeforeIsStrict(key(s[0]), key(s[0]));
        forall j | 0 <= j < |s| ensures !Before(key(s[j]), key(x)) {
          NotBefore(key(s[j]), key(x), key(s[0]));
        }
      } else {
        var rest := Insert(key, x, s[1..]);
        InsertSorted(key, x, s[1..]);
        InsertHolds(key, x, s[1..]);
        forall j | 0 <= j < |rest| ensures !Before(key(rest[j]), key(s[0])) {
          assert rest[j] in multiset(rest);
          assert rest[j] == x || rest[j] in s[1..];
        }
      }
    }
  }

  lemma {:induction false} SortBySorted<T>(key: T -> string, s: seq<T>)
    ensures Sorted(key, SortBy(key, s))
  {
    if s != [] {
      SortBySorted(key, s[..|s| - 1]);
      InsertSorted(key, s[|s| - 1], SortBy(key, s[..|s| - 1]));
    }
  }

  lemma {:induction false} InsertLast<T>(key: T -> string, x: T, s: seq<T>)
    requires forall i :: 0 <= i < |s| ==> !Before(key(x), key(s[i]))
    ensures Insert(key, x, s) == s + [x]
  {
    if s != [] {
      InsertLast(key, x, s[1..]);
    }
  }

  /** A sorted sequence is not changed. */
  lemma {:induction false} SortedStays<T>(key: T -> string, s: seq<T>)
    requires Sorted(key, s)
    ensures SortBy(key, s) == s
  {
    if s != [] {
      var init := s[..|s| - 1];
      SortedStays(key, init);
      InsertLast(key, s[|s| - 1], init);
      assert s == init + [s[|s| - 1]];
    }
  }

  function Map<T, U>(f: T -> U, s: seq<T>): (r: seq<U>)
    ensures |r| == |s| && forall i :: 0 <= i < |s| ==> r[i] == f(s[i])
  {
    seq(|s|, i requires 0 <= i < |s| => f(s[i]))
  }

  lemma {:induction false} InsertMapped<T, U>(f: T -> U, kt: T -> string, ku: U -> string, x: T, s: seq<T>)
    requires ku(f(x)) == kt(x) && forall i :: 0 <= i < |s| ==> ku(f(s[i])) == kt(s[i])
    ensures Insert(ku, f(x), Map(f, s)) == Map(f, Insert(kt, x, s))
  {
    if s != [] {
      assert Map(f, s)[1..] == Map(f, s[1..]);
      InsertMapped(f, kt, ku, x, s[1..]);
      assert Map(f, Insert(kt, x, s)) == if Before(kt(x), kt(s[0])) then [f(x)] + Map(f, s)
        else [f(s[0])] + Map(f, Insert(kt, x, s[1..]));
    }
  }

  /** Sorting commutes with a map that keeps the keys. */
  lemma {:induction false} SortMapped<T, U>(f: T -> U, kt: T -> string, ku: U -> string, s: seq<T>)
    requires forall x :: x in s ==> ku(f(x)) == kt(x)
    ensures SortBy(ku, Map(f, s)) == Map(f, SortBy(kt, s))
  {
    if s != [] {
      var init, last := s[..|s| - 1], s[|s| - 1];
      SortMapped(f, kt, ku, init);
      assert forall x :: x in init ==> x in s;
      assert Map(f, s)[..|s| - 1] == Map(f, init);
      var sorted := SortBy(kt, init);
      forall i | 0 <= i < |sorted| ensures ku(f(sorted[i])) == kt(sorted[i]) {
        SortedFrom(kt, init, i);
        assert sorted[i] in s;
      }
      InsertMapped(f, kt, ku, last, sorted);
    }
  }

  lemma {:induction false} InsertPairwise<T(!new)>(r: (T, T) -> bool, key: T -> string, x: T, y: T,
                                                   a: seq<T>, b: seq<T>)
    requires Pairwise(r, a, b) && r(x, y) && forall u, v :: r(u, v) ==> key(u) == key(v)
    ensures Pairwise(r, Insert(key, x, a), Insert(key, y, b))
    decreases |a|
  {
    if a != [] {
      assert r(a[0], b[0]);
      if !Before(key(x), key(a[0])) {
        InsertPairwise(r, key, x, y, a[1..], b[1..]);
      }
    }
  }

  /** Sequences that correspond element by element still do when both are sorted. */
  lemma {:induction false} SortPairwise<T(!new)>(r: (T, T) -> bool, key: T -> string, a: seq<T>, b: seq<T>)
    requires Pairwise(r, a, b) && forall u, v :: r(u, v) ==> key(u) == key(v)
    ensures Pairwise(r, SortBy(key, a), SortBy(key, b))
    decreases |a|
  {
    if a != [] {
      SortPairwise(r, key, a[..|a| - 1], b[..|b| - 1]);
      InsertPairwise(r, key, a[|a| - 1], b[|b| - 1], SortBy(key, a[..|a| - 1]), SortBy(key, b[..|b| - 1]));
    }
  }
}
