/** The uses of SHA-256 in the cache (internal/cache/cache.go). */
module Hashing {
  // File contents, the list of input paths with their digests, and the key are all hashed with one function. The list
  // and the key join their parts without separators.

  /** Bytes of names, contents and digests; unbounded, so that a hash without collisions can exist. */
  type Text = seq<int>
  type Path = Text
  type Files = map<Path, Text>

  /** The hash, and the sorting of a set of paths. */
  datatype Hash = Hash(sha: Text -> Text, sorted: set<Path> -> seq<Path>)

  /** A list of the elements of a set, each once. */
  ghost predicate Orders(ps: seq<Path>, s: set<Path>) {
    && (forall p :: p in ps <==> p in s)
    && (forall i, j :: 0 <= i < j < |ps| ==> ps[i] != ps[j])
  }

  ghost predicate Sorts(h: Hash) {
    forall s :: Orders(h.sorted(s), s)
  }

  /** The standing assumption: no collisions, and 32-byte results. */
  ghost predicate Ideal(h: Hash) {
    && Sorts(h)
    && (forall x, y :: h.sha(x) == h.sha(y) ==> x == y)
    && (forall x :: |h.sha(x)| == 32)
  }

  /** Path and digest of each file, one after the other. */
  function Listing(h: Hash, inputs: Files, ps: seq<Path>): Text {
    if ps == [] then []
    else
      var p := ps[|ps| - 1];
      Listing(h, inputs, ps[..|ps| - 1]) + p + (if p in inputs then h.sha(inputs[p]) else [])
  }

  function ListingOf(h: Hash, inputs: Files): Text {
    Listing(h, inputs, h.sorted(inputs.Keys))
  }

  /** The sum of the list is hashed once more. */
  function InputHash(h: Hash, listing: Text): Text {
    h.sha(h.sha(listing))
  }

  function Key(h: Hash, name: Text, inputHash: Text, sig: Text): Text {
    h.sha(name + inputHash + sig)
  }

  // ------------------------------------------------------------------ what is determined

  /** Though the key's parts are joined without separators, it determines each of them: the last two have fixed
      length. */
  lemma {:induction false} KeyDetermines(h: Hash, name: Text, x: Text, sig: Text, name2: Text, y: Text, sig2: Text)
    requires Ideal(h) && |sig| == |sig2| == 32
    requires Key(h, name, InputHash(h, x), sig) == Key(h, name2, InputHash(h, y), sig2)
    ensures name == name2 && sig == sig2 && x == y
  {
    var u, v := InputHash(h, x), InputHash(h, y);
    var s, t := name + u + sig, name2 + v + sig2;
    assert s == t;
    assert |name| == |name2|;
    assert s[..|name|] == name && t[..|name2|] == name2;
    assert s[|name|..|name| + 32] == u && t[|name2|..|name2| + 32] == v;
    assert s[|name| + 32..] == sig && t[|name2| + 32..] == sig2;
  }

  lemma {:induction false} PrefixDetermines(h: Hash, x: Files, y: Files, ps: seq<Path>)
    requires Ideal(h) && (forall p :: p in ps ==> p in x && p in y)
    requires Listing(h, x, ps) == Listing(h, y, ps)
    ensures forall p :: p in ps ==> x[p] == y[p]
  {
    if ps != [] {
      var init, p := ps[..|ps| - 1], ps[|ps| - 1];
      assert ps == init + [p];
      var a, b := Listing(h, x, init), Listing(h, y, init);
      var s, t := a + p + h.sha(x[p]), b + p + h.sha(y[p]);
      assert s == t && |a| == |b|;
      assert s[..|a|] == a && t[..|b|] == b;
      assert s[|a| + |p|..] == h.sha(x[p]) && t[|b| + |p|..] == h.sha(y[p]);
      PrefixDetermines(h, x, y, init);
    }
  }

  /** Inputs with the same list of paths and digests are the same exactly when they have the same paths. */
  lemma {:induction false} ListingDeterminesExactly(h: Hash, x: Files, y: Files)
    requires Ideal(h) && ListingOf(h, x) == ListingOf(h, y)
    ensures x == y <==> x.Keys == y.Keys
  {
    if x.Keys == y.Keys {
      var ps := h.sorted(x.Keys);
      assert Orders(ps, x.Keys);
      PrefixDetermines(h, x, y, ps);
    }
  }

  /** With different paths they may differ: any two files and some single file have the same list, since a name may hold
      the bytes of a digest; on a file system that is a name only if none of them is zero. */
  lemma {:induction false} ListingsCollide(h: Hash, two: Files)
    requires Ideal(h) && |two.Keys| == 2
    ensures exists one: Files :: |one.Keys| == 1 && ListingOf(h, one) == ListingOf(h, two)
  {
    var ps := h.sorted(two.Keys);
    assert Orders(ps, two.Keys);
    TwoListed(ps, two.Keys);
    assert ps[0] in ps && ps[1] in ps;
    var one := Merged(h, two, ps[0], ps[1]);
    TwoParts(h, two, ps[0], ps[1]);
    OnePart(h, two, ps[0], ps[1]);
    assert ps == [ps[0], ps[1]];
  }

  /** The second file, under a name made of the first path, its digest and the second path. */
  function Merged(h: Hash, two: Files, a: Path, b: Path): Files
    requires a in two && b in two
  {
    map[a + h.sha(two[a]) + b := two[b]]
  }

  lemma {:induction false} TwoParts(h: Hash, two: Files, a: Path, b: Path)
    requires a in two && b in two
    ensures Listing(h, two, [a, b]) == a + h.sha(two[a]) + b + h.sha(two[b])
  {
    ListingEnds(h, two, [], a);
    ListingEnds(h, two, [a], b);
    assert [] + [a] == [a] && [a] + [b] == [a, b];
    assert Listing(h, two, []) + a == a;
  }

  lemma {:induction false} OnePart(h: Hash, two: Files, a: Path, b: Path)
    requires Sorts(h) && a in two && b in two
    ensures |Merged(h, two, a, b).Keys| == 1
    ensures ListingOf(h, Merged(h, two, a, b)) == a + h.sha(two[a]) + b + h.sha(two[b])
  {
    var c := a + h.sha(two[a]) + b;
    var one := Merged(h, two, a, b);
    assert one.Keys == {c};
    assert Orders(h.sorted(one.Keys), {c});
    OneListed(h.sorted(one.Keys), c);
    ListingEnds(h, one, [], c);
    assert [] + [c] == [c] && Listing(h, one, []) + c == c;
  }

  lemma {:induction false} ListingEnds(h: Hash, inputs: Files, ps: seq<Path>, p: Path)
    requires p in inputs
    ensures Listing(h, inputs, ps + [p]) == Listing(h, inputs, ps) + p + h.sha(inputs[p])
  {
    assert (ps + [p])[..|ps|] == ps;
  }

  lemma {:induction false} OneListed(ps: seq<Path>, p: Path)
    requires Orders(ps, {p})
    ensures ps == [p]
  {
    assert p in ps;
    assert |ps| > 1 ==> ps[0] != ps[1];
    forall i | 0 <= i < |ps| ensures ps[i] == p {
      assert ps[i] in ps;
    }
  }

  lemma {:induction false} TwoListed(ps: seq<Path>, s: set<Path>)
    requires Orders(ps, s) && |s| == 2
    ensures |ps| == 2
  {
    assert |ps| > 2 ==> ps[0] != ps[1] && ps[0] != ps[2] && ps[1] != ps[2];
    var x :| x in s;
    assert |s - {x}| == 1;
    var y :| y in s - {x};
    assert |s - {x} - {y}| == 0;
    assert s == {x, y} && x in ps && y in ps;
    forall i | 0 <= i < |ps| ensures ps[i] == x || ps[i] == y {
      assert ps[i] in ps;
    }
  }

  // --------------------------------------------------------------- the assumption can hold

  function Pair(a: nat, b: nat): (n: nat)
    ensures n > 0
  {
    if a == 0 then 2 * b + 1 else 2 * Pair(a - 1, b)
  }

  lemma {:induction false} PairIsInjective(a: nat, b: nat, c: nat, d: nat)
    requires Pair(a, b) == Pair(c, d)
    ensures a == c && b == d
  {
    if a > 0 && c > 0 {
      PairIsInjective(a - 1, b, c - 1, d);
    }
  }

  function Folded(i: int): nat {
    if i >= 0 then 2 * i else -2 * i - 1
  }

  /** One number for each text. */
  function Code(s: Text): nat {
    if s == [] then 0 else Pair(Folded(s[0]), Code(s[1..]))
  }

  lemma {:induction false} CodeIsInjective(s: Text, t: Text)
    requires Code(s) == Code(t)
    ensures s == t
  {
    if s != [] && t != [] {
      PairIsInjective(Folded(s[0]), Code(s[1..]), Folded(t[0]), Code(t[1..]));
      CodeIsInjective(s[1..], t[1..]);
      assert s == [s[0]] + s[1..] && t == [t[0]] + t[1..];
    }
  }

  function Padded(n: int): (t: Text)
    ensures |t| == 32 && t[0] == n
  {
    [n] + seq(31, _ => 0)
  }

  ghost function AnyOrder(s: set<Path>): (ps: seq<Path>)
    ensures Orders(ps, s)
  {
    if s == {} then []
    else
      var p :| p in s;
      [p] + AnyOrder(s - {p})
  }

  /** Some hash meets the standing assumption, so what is proved under it is not empty. */
  lemma {:induction false} IdealCanHold()
    ensures exists h :: Ideal(h)
  {
    var h := Hash(x => Padded(Code(x)), s => AnyOrder(s));
    forall x, y | h.sha(x) == h.sha(y) ensures x == y {
      assert Padded(Code(x))[0] == Padded(Code(y))[0];
      CodeIsInjective(x, y);
    }
    assert Ideal(h);
  }
}
