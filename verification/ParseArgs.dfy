/** Splitting command-line arguments into declared, live and passthrough ones (internal/resolve/args.go). */
module ParseArgs {
  import opened Config

  type Args = seq<string>
  type Passthrough = map<nat, Args>

  datatype ArgResult = Parsed(declared: map<string, string>, live: map<string, string>, passthrough: Passthrough)
                     | Missing(name: string)

  // ------------------------------------------------------------------- the separator

  /** The arguments before the first separator. */
  function Head(args: Args): (h: Args)
    ensures |h| <= |args|
  {
    if args == [] || args[0] == "--" then [] else [args[0]] + Head(args[1..])
  }

  lemma {:induction false} HeadMeans(args: Args)
    ensures var h := Head(args);
      && h == args[..|h|] && "--" !in h
      && (|h| < |args| ==> args[|h|] == "--")
  {
    if args != [] && args[0] != "--" {
      HeadMeans(args[1..]);
    }
  }

  /** The arguments after the first separator, if there is one. */
  function Tail(args: Args): Option<Args> {
    var h := Head(args);
    if |h| < |args| then Some(args[|h| + 1..]) else None
  }

  /** Splits at every separator; a separator at the very end opens no further blob. */
  function Blobs(rest: Args): seq<Args>
    decreases |rest|
  {
    if rest == [] then []
    else
      var h := Head(rest);
      [h] + (if |h| < |rest| then Blobs(rest[|h| + 1..]) else [])
  }

  /** The index of the first separator, or the length. */
  method FindSeparator(args: Args) returns (k: nat)
    ensures k <= |args| && args[..k] == Head(args)
  {
    k := 0;
    while k < |args| && args[k] != "--"
      invariant 0 <= k <= |args|
      invariant |Head(args)| == k + |Head(args[k..])|
    {
      assert args[k..][1..] == args[k + 1..];
      k := k + 1;
    }
    HeadMeans(args);
  }

  method SplitBlobs(rest: Args) returns (blobs: seq<Args>)
    ensures blobs == Blobs(rest)
  {
    blobs := [];
    var left := rest;
    while left != []
      invariant blobs + Blobs(left) == Blobs(rest)
      decreases |left|
    {
      var j := FindSeparator(left);
      BlobsUnfold(left, j, blobs);
      blobs := blobs + [left[..j]];
      left := if j < |left| then left[j + 1..] else [];
    }
  }

  lemma {:induction false} BlobsUnfold(left: Args, j: nat, blobs: seq<Args>)
    requires left != [] && j <= |left| && left[..j] == Head(left)
    ensures blobs + Blobs(left) == (blobs + [left[..j]]) + Blobs(if j < |left| then left[j + 1..] else [])
  {
    var h := left[..j];
    var more := Blobs(if j < |left| then left[j + 1..] else []);
    assert |h| == j;
    assert Blobs(left) == [h] + more;
    AppendAssociates(blobs, [h], more);
  }

  lemma {:induction false} AppendAssociates<T>(a: seq<T>, b: seq<T>, c: seq<T>)
    ensures a + (b + c) == (a + b) + c
  {
  }

  function Rejoin(blobs: seq<Args>): Args {
    if blobs == [] then []
    else if |blobs| == 1 then blobs[0]
    else blobs[0] + ["--"] + Rejoin(blobs[1..])
  }

  /** Without one separator at the end. */
  function TrimLast(rest: Args): Args {
    if rest != [] && rest[|rest| - 1] == "--" then rest[..|rest| - 1] else rest
  }

  /** Splitting loses nothing but one trailing separator, and no blob holds a separator. */
  lemma {:induction false} SplitLosesNothing(rest: Args)
    ensures Rejoin(Blobs(rest)) == TrimLast(rest)
    ensures forall b :: b in Blobs(rest) ==> "--" !in b
    decreases |rest|
  {
    if rest != [] {
      var h := Head(rest);
      HeadMeans(rest);
      if |h| < |rest| {
        var more := rest[|h| + 1..];
        assert rest == h + ["--"] + more;
        SplitLosesNothing(more);
        TrimAfterBlob(h, more);
        if more != [] {
          assert ([h] + Blobs(more))[1..] == Blobs(more);
        }
      } else {
        NoSeparatorNoTrim(h);
        assert h == rest;
      }
    }
  }

  lemma {:induction false} TrimAfterBlob(h: Args, more: Args)
    ensures TrimLast(h + ["--"] + more) == if more == [] then h else h + ["--"] + TrimLast(more)
  {
    var rest := h + ["--"] + more;
    if more == [] {
      assert rest == h + ["--"];
    } else {
      assert rest[|rest| - 1] == more[|more| - 1];
      assert rest[..|rest| - 1] == h + ["--"] + more[..|more| - 1];
    }
  }

  lemma {:induction false} NoSeparatorNoTrim(h: Args)
    requires "--" !in h
    ensures TrimLast(h) == h
  {
  }

  // ------------------------------------------------------------------- passthrough slots

  function Slots(tgt: Target): seq<PassthroughSlot> {
    if tgt.passthrough != [] then tgt.passthrough
    else if tgt.passthroughStep > 0 then [PassthroughSlot(tgt.passthroughStep, "")]
    else []
  }

  ghost predicate DistinctSteps(slots: seq<PassthroughSlot>) {
    forall i, j :: 0 <= i < j < |slots| ==> slots[i].step != slots[j].step
  }

  /** Slot i gets blob i, a later slot of the same step overwriting an earlier one; surplus blobs are dropped. */
  function Assigned(slots: seq<PassthroughSlot>, blobs: seq<Args>): Passthrough {
    if slots == [] then map[]
    else
      var i := |slots| - 1;
      var before := Assigned(slots[..i], blobs);
      if i < |blobs| then before[slots[i].step := blobs[i]] else before
  }

  function Delivered(tgt: Target, rest: Args): Passthrough {
    var slots := Slots(tgt);
    if slots == [] then map[]
    else if |slots| == 1 then map[slots[0].step := rest]
    else Assigned(slots, Blobs(rest))
  }

  method Deliver(tgt: Target, rest: Args) returns (passthrough: Passthrough)
    ensures passthrough == Delivered(tgt, rest)
  {
    var slots := Slots(tgt);
    passthrough := map[];
    if |slots| == 1 {
      passthrough := map[slots[0].step := rest];
    } else if slots != [] {
      var blobs := SplitBlobs(rest);
      for i := 0 to |slots|
        invariant passthrough == Assigned(slots[..i], blobs)
      {
        assert slots[..i + 1][..i] == slots[..i];
        if i < |blobs| {
          passthrough := passthrough[slots[i].step := blobs[i]];
        }
      }
      assert slots[..|slots|] == slots;
    }
  }

  lemma {:induction false} AssignedAt(slots: seq<PassthroughSlot>, blobs: seq<Args>, i: nat)
    requires DistinctSteps(slots) && i < |slots|
    ensures slots[i].step in Assigned(slots, blobs) <==> i < |blobs|
    ensures i < |blobs| ==> Assigned(slots, blobs)[slots[i].step] == blobs[i]
  {
    var k := |slots| - 1;
    if i < k {
      AssignedAt(slots[..k], blobs, i);
    } else {
      AssignedNowhere(slots[..k], blobs, slots[k].step);
    }
  }

  lemma {:induction false} AssignedNowhere(slots: seq<PassthroughSlot>, blobs: seq<Args>, step: nat)
    requires forall i :: 0 <= i < |slots| ==> slots[i].step != step
    ensures step !in Assigned(slots, blobs)
  {
    if slots != [] {
      AssignedNowhere(slots[..|slots| - 1], blobs, step);
    }
  }

  /** The text the slots receive, put back together in slot order. */
  function Received(slots: seq<PassthroughSlot>, p: Passthrough): seq<Args> {
    if slots == [] then []
    else
      var i := |slots| - 1;
      Received(slots[..i], p) + (if slots[i].step in p then [p[slots[i].step]] else [])
  }

  lemma {:induction false} ReceivedIsPrefix(slots: seq<PassthroughSlot>, blobs: seq<Args>, p: Passthrough, k: nat)
    requires DistinctSteps(slots) && k <= |slots| && p == Assigned(slots, blobs)
    ensures Received(slots[..k], p) == blobs[..if k < |blobs| then k else |blobs|]
  {
    if k > 0 {
      assert slots[..k][..k - 1] == slots[..k - 1];
      ReceivedIsPrefix(slots, blobs, p, k - 1);
      AssignedAt(slots, blobs, k - 1);
      if k <= |blobs| {
        assert blobs[..k] == blobs[..k - 1] + [blobs[k - 1]];
      }
    }
  }

  /** With several slots of distinct steps nothing after the first separator is lost, one trailing separator apart,
      exactly when there are no more blobs than slots; what is beyond is dropped without an error. */
  lemma {:induction false} EverythingIsDeliveredExactly(tgt: Target, rest: Args)
    requires |Slots(tgt)| > 1 && DistinctSteps(Slots(tgt))
    ensures Rejoin(Received(Slots(tgt), Delivered(tgt, rest))) == TrimLast(rest) <==> |Blobs(rest)| <= |Slots(tgt)|
  {
    var slots, blobs := Slots(tgt), Blobs(rest);
    ReceivedIsPrefix(slots, blobs, Delivered(tgt, rest), |slots|);
    assert slots[..|slots|] == slots;
    SplitLosesNothing(rest);
    if |blobs| <= |slots| {
      assert blobs[..|blobs|] == blobs;
    } else {
      RejoinShorter(blobs, |slots|);
    }
  }

  lemma {:induction false} RejoinShorter(blobs: seq<Args>, k: nat)
    requires 0 < k < |blobs|
    ensures |Rejoin(blobs[..k])| < |Rejoin(blobs)|
  {
    if k > 1 {
      assert blobs[..k][1..] == blobs[1..][..k - 1];
      RejoinShorter(blobs[1..], k - 1);
    }
  }

  // ------------------------------------------------------------------ declared and live

  function IsDeclared(decls: seq<ArgDecl>, key: string): bool {
    decls != [] && (decls[0].name == key || IsDeclared(decls[1..], key))
  }

  function FindDeclaredByShort(decls: seq<ArgDecl>, short: string): string {
    if decls == [] then ""
    else if decls[0].short == short then decls[0].name
    else FindDeclaredByShort(decls[1..], short)
  }

  function IndexOf(s: string, c: char): (i: int)
    ensures -1 <= i < |s|
    ensures i >= 0 ==> s[i] == c && c !in s[..i]
    ensures i == -1 ==> c !in s
  {
    if s == "" then -1
    else if s[0] == c then 0
    else
      var i := IndexOf(s[1..], c);
      if i == -1 then -1 else i + 1
  }

  /** One binding an argument makes, and how many arguments it takes; no key for a positional argument. */
  datatype Reading = Reading(key: Option<string>, value: string, width: nat)

  /** The source counts bytes: a dash and one letter is a short option only where the letter is ASCII. */
  predicate IsOneByte(c: char) {
    c as int < 0x80
  }

  /** The reading of one word, with the word after it, if there is one. */
  function ReadWord(decls: seq<ArgDecl>, a: string, next: Option<string>): (r: Reading)
    ensures 1 <= r.width <= 2 && (next.None? ==> r.width == 1)
  {
    if |a| >= 2 && a[..2] == "--" then ReadLong(a[2..], next)
    else if |a| == 2 && a[0] == '-' && IsOneByte(a[1]) then
      var name := FindDeclaredByShort(decls, a[1..]);
      ReadFollowed(if name == "" then a[1..] else name, next)
    else Reading(None, "", 1)
  }

  /** A long option without its dashes. */
  function ReadLong(key: string, next: Option<string>): (r: Reading)
    ensures 1 <= r.width <= 2 && (next.None? ==> r.width == 1)
  {
    var eq := IndexOf(key, '=');
    if eq >= 0 then Reading(Some(key[..eq]), key[eq + 1..], 1) else ReadFollowed(key, next)
  }

  /** A key whose value is the next word. */
  function ReadFollowed(key: string, next: Option<string>): (r: Reading)
    ensures 1 <= r.width <= 2 && (next.None? ==> r.width == 1)
  {
    if next.Some? then Reading(Some(key), next.value, 2) else Reading(Some(key), "true", 1)
  }

  function WordAt(args: Args, i: nat): Option<string> {
    if i < |args| then Some(args[i]) else None
  }

  function BindingOf(r: Reading): seq<(string, string)> {
    if r.key.Some? then [(r.key.value, r.value)] else []
  }

  type Reader = (string, Option<string>) -> Reading

  /** A reading takes one word or two, and two only if there are two. */
  ghost predicate Steady(read: Reader) {
    forall x, next :: 1 <= read(x, next).width <= 2 && (next.None? ==> read(x, next).width == 1)
  }

  /** The bindings read from the words, in order. */
  function ReadAll(read: Reader, args: Args): seq<(string, string)>
    decreases |args|
  {
    if args == [] then []
    else
      var r := read(args[0], WordAt(args, 1));
      BindingOf(r) + if 1 <= r.width <= |args| then ReadAll(read, args[r.width..]) else []
  }

  function WordReader(decls: seq<ArgDecl>): (read: Reader)
    ensures forall x, next :: read(x, next) == ReadWord(decls, x, next)
  {
    (x: string, next: Option<string>) => ReadWord(decls, x, next)
  }

  function Bindings(decls: seq<ArgDecl>, args: Args): seq<(string, string)> {
    ReadAll(WordReader(decls), args)
  }

  function Defaults(decls: seq<ArgDecl>): map<string, string> {
    if decls == [] then map[] else Defaults(decls[..|decls| - 1])[decls[|decls| - 1].name := decls[|decls| - 1].default]
  }

  function Bind(decls: seq<ArgDecl>, bound: (map<string, string>, map<string, string>), b: (string, string))
    : (map<string, string>, map<string, string>)
  {
    if IsDeclared(decls, b.0) then (bound.0[b.0 := b.1], bound.1) else (bound.0, bound.1[b.0 := b.1])
  }

  function BindAll(decls: seq<ArgDecl>, bound: (map<string, string>, map<string, string>), bs: seq<(string, string)>)
    : (map<string, string>, map<string, string>)
    decreases bs
  {
    if bs == [] then bound else BindAll(decls, Bind(decls, bound, bs[0]), bs[1..])
  }

  /** The first required argument that is still empty and has no default. */
  function FirstMissing(decls: seq<ArgDecl>, declared: map<string, string>): Option<string> {
    if decls == [] then None
    else if decls[0].required && decls[0].default == ""
      && (decls[0].name !in declared || declared[decls[0].name] == "") then
      Some(decls[0].name)
    else FirstMissing(decls[1..], declared)
  }

  function Bound(tgt: Target, args: Args): (map<string, string>, map<string, string>) {
    BindAll(tgt.args, (Defaults(tgt.args), map[]), Bindings(tgt.args, Head(args)))
  }

  function PassthroughOf(tgt: Target, args: Args): Passthrough {
    match Tail(args)
    case None => map[]
    case Some(rest) => Delivered(tgt, rest)
  }

  method Parse(tgt: Target, args: Args) returns (r: ArgResult)
    ensures var missing := FirstMissing(tgt.args, Bound(tgt, args).0);
      r == if missing.Some? then Missing(missing.value)
           else Parsed(Bound(tgt, args).0, Bound(tgt, args).1, PassthroughOf(tgt, args))
  {
    var k := FindSeparator(args);
    var passthrough: Passthrough := map[];
    if k < |args| {
      passthrough := Deliver(tgt, args[k + 1..]);
    }
    var declared := SetDefaults(tgt.args);
    var live;
    declared, live := BindLoop(tgt.args, args[..k], declared);
    var missing := CheckRequired(tgt.args, declared);
    r := if missing.Some? then Missing(missing.value) else Parsed(declared, live, passthrough);
  }

  method SetDefaults(decls: seq<ArgDecl>) returns (declared: map<string, string>)
    ensures declared == Defaults(decls)
  {
    declared := map[];
    for i := 0 to |decls|
      invariant declared == Defaults(decls[..i])
    {
      assert decls[..i + 1][..i] == decls[..i];
      declared := declared[decls[i].name := decls[i].default];
    }
    assert decls[..|decls|] == decls;
  }

  method CheckRequired(decls: seq<ArgDecl>, declared: map<string, string>) returns (missing: Option<string>)
    ensures missing == FirstMissing(decls, declared)
  {
    for i := 0 to |decls|
      invariant FirstMissing(decls, declared) == FirstMissing(decls[i..], declared)
    {
      var a := decls[i];
      if a.required && a.default == "" && (a.name !in declared || declared[a.name] == "") {
        return Some(a.name);
      }
      assert decls[i..][1..] == decls[i + 1..];
    }
    return None;
  }

  /** One word of the command line, with the word after it. */
  method ReadOption(decls: seq<ArgDecl>, own: Args, i: nat) returns (key: Option<string>, value: string, width: nat)
    requires i < |own|
    ensures Reading(key, value, width) == ReadWord(decls, own[i], WordAt(own, i + 1))
  {
    var a := own[i];
    var name;
    if |a| >= 2 && a[..2] == "--" {
      name, value, width := LongOption(a[2..], own, i);
      return Some(name), value, width;
    }
    if |a| >= 1 && a[0] == '-' && |a| == 2 && IsOneByte(a[1]) {
      name := FindDeclaredByShort(decls, a[1..]);
      if name == "" {
        name := a[1..];
      }
      value, width := NextWord(own, i);
      return Some(name), value, width;
    }
    return None, "", 1;
  }

  method LongOption(word: string, own: Args, i: nat) returns (key: string, value: string, width: nat)
    requires i < |own|
    ensures Reading(Some(key), value, width) == ReadLong(word, WordAt(own, i + 1))
  {
    var eq := IndexOf(word, '=');
    if eq >= 0 {
      return word[..eq], word[eq + 1..], 1;
    }
    value, width := NextWord(own, i);
    return word, value, width;
  }

  /** The value of an option without one of its own, and the number of words taken. */
  method NextWord(own: Args, i: nat) returns (value: string, width: nat)
    requires i < |own|
    ensures forall key :: Reading(Some(key), value, width) == ReadFollowed(key, WordAt(own, i + 1))
  {
    if i + 1 < |own| {
      return own[i + 1], 2;
    }
    return "true", 1;
  }

  /** The loop over the arguments before the separator. */
  method BindLoop(decls: seq<ArgDecl>, own: Args, defaults: map<string, string>)
    returns (declared: map<string, string>, live: map<string, string>)
    ensures (declared, live) == BindAll(decls, (defaults, map[]), Bindings(decls, own))
  {
    declared, live := defaults, map[];
    var i := 0;
    while i < |own|
      invariant 0 <= i <= |own|
      invariant BindFrom(decls, (defaults, map[]), own, 0) == BindFrom(decls, (declared, live), own, i)
    {
      declared, live, i := BindWord(decls, own, i, declared, live);
    }
    BindEnds(decls, (defaults, map[]), (declared, live), own);
  }

  /** One word, with the next one if it is its value. */
  method BindWord(decls: seq<ArgDecl>, own: Args, i: nat, declared: map<string, string>, live: map<string, string>)
    returns (declared': map<string, string>, live': map<string, string>, after: nat)
    requires i < |own|
    ensures i < after <= |own|
    ensures BindFrom(decls, (declared, live), own, i) == BindFrom(decls, (declared', live'), own, after)
  {
    var key, value, width := ReadOption(decls, own, i);
    OneMoreRead(decls, own, i, (declared, live));
    declared', live', after := declared, live, i + width;
    if key.Some? {
      declared', live' := BindOne(decls, declared, live, key.value, value);
    }
  }

  method BindOne(decls: seq<ArgDecl>, declared: map<string, string>, live: map<string, string>,
                 key: string, value: string) returns (declared': map<string, string>, live': map<string, string>)
    ensures (declared', live') == Bind(decls, (declared, live), (key, value))
  {
    if IsDeclared(decls, key) {
      return declared[key := value], live;
    }
    return declared, live[key := value];
  }

  lemma {:induction false} BindEnds(decls: seq<ArgDecl>, first: (map<string, string>, map<string, string>),
                                    last: (map<string, string>, map<string, string>), own: Args)
    ensures BindFrom(decls, first, own, 0) == BindAll(decls, first, Bindings(decls, own))
    ensures BindFrom(decls, last, own, |own|) == last
  {
    assert own[0..] == own;
  }

  /** What is bound after the words from index i on. */
  ghost function BindFrom(decls: seq<ArgDecl>, bound: (map<string, string>, map<string, string>), own: Args, i: nat)
    : (map<string, string>, map<string, string>)
    requires i <= |own|
  {
    BindAll(decls, bound, Bindings(decls, own[i..]))
  }

  /** One reading moves the loop on. */
  lemma {:induction false} OneMoreRead(decls: seq<ArgDecl>, own: Args, i: nat,
                                       bound: (map<string, string>, map<string, string>))
    requires i < |own|
    ensures var b := ReadWord(decls, own[i], WordAt(own, i + 1));
      && i + b.width <= |own|
      && BindFrom(decls, bound, own, i) ==
           BindFrom(decls, if b.key.Some? then Bind(decls, bound, (b.key.value, b.value)) else bound, own, i + b.width)
  {
    var b := ReadWord(decls, own[i], WordAt(own, i + 1));
    ReadAllAt(WordReader(decls), own, i);
    BindAllRead(decls, bound, b, Bindings(decls, own[i + b.width..]));
  }

  lemma {:induction false} BindAllRead(decls: seq<ArgDecl>, bound: (map<string, string>, map<string, string>),
                                       b: Reading, more: seq<(string, string)>)
    ensures BindAll(decls, bound, BindingOf(b) + more) ==
      BindAll(decls, if b.key.Some? then Bind(decls, bound, (b.key.value, b.value)) else bound, more)
  {
    if b.key.Some? {
      BindAllFront(decls, bound, (b.key.value, b.value), more);
    } else {
      assert [] + more == more;
    }
  }

  lemma {:induction false} ReadAllAt(read: Reader, own: Args, i: nat)
    requires i < |own| && Steady(read)
    ensures var b := read(own[i], WordAt(own, i + 1));
      i + b.width <= |own| && ReadAll(read, own[i..]) == BindingOf(b) + ReadAll(read, own[i + b.width..])
  {
    var b := read(own[i], WordAt(own, i + 1));
    assert own[i..][0] == own[i] && WordAt(own[i..], 1) == WordAt(own, i + 1);
    assert own[i..][b.width..] == own[i + b.width..];
  }

  lemma {:induction false} BindAllFront(decls: seq<ArgDecl>, bound: (map<string, string>, map<string, string>),
                                        b: (string, string), bs: seq<(string, string)>)
    ensures BindAll(decls, bound, [b] + bs) == BindAll(decls, Bind(decls, bound, b), bs)
  {
    assert ([b] + bs)[1..] == bs;
  }

  // ------------------------------------------------------------- what the bindings amount to

  ghost predicate Declares(decls: seq<ArgDecl>, key: string) {
    exists i :: 0 <= i < |decls| && decls[i].name == key
  }

  lemma {:induction false} DeclaredMeans(decls: seq<ArgDecl>, key: string)
    ensures IsDeclared(decls, key) <==> Declares(decls, key)
  {
    if decls != [] {
      DeclaredMeans(decls[1..], key);
      if Declares(decls[1..], key) {
        var i :| 0 <= i < |decls[1..]| && decls[1..][i].name == key;
        assert decls[i + 1].name == key;
      }
      if Declares(decls, key) && decls[0].name != key {
        var i :| 0 <= i < |decls| && decls[i].name == key;
        assert decls[1..][i - 1].name == key;
      }
    }
  }

  lemma {:induction false} DefaultsMean(decls: seq<ArgDecl>, key: string)
    ensures key in Defaults(decls) <==> Declares(decls, key)
    ensures key in Defaults(decls) ==>
      exists i :: (0 <= i < |decls| && decls[i].name == key && Defaults(decls)[key] == decls[i].default
        && forall j :: i < j < |decls| ==> decls[j].name != key)
  {
    if decls != [] {
      var init := decls[..|decls| - 1];
      DefaultsMean(init, key);
      if decls[|decls| - 1].name != key && Declares(decls, key) {
        var i :| 0 <= i < |decls| && decls[i].name == key;
        assert init[i].name == key;
      }
    }
  }

  /** The value of the last binding of a key. */
  function LastOf(bs: seq<(string, string)>, key: string): Option<string> {
    if bs == [] then None
    else
      var later := LastOf(bs[1..], key);
      if later.Some? then later else if bs[0].0 == key then Some(bs[0].1) else None
  }

  lemma {:induction false} BindAllAt(decls: seq<ArgDecl>, bound: (map<string, string>, map<string, string>),
                                     bs: seq<(string, string)>, key: string)
    ensures var after := BindAll(decls, bound, bs);
      var last := LastOf(bs, key);
      if last.None? then
        && (key in after.0 <==> key in bound.0) && (key in after.0 ==> after.0[key] == bound.0[key])
        && (key in after.1 <==> key in bound.1) && (key in after.1 ==> after.1[key] == bound.1[key])
      else if IsDeclared(decls, key) then
        && key in after.0 && after.0[key] == last.value
        && (key in after.1 <==> key in bound.1)
      else
        && key in after.1 && after.1[key] == last.value
        && (key in after.0 <==> key in bound.0)
    decreases bs
  {
    if bs != [] {
      BindAllAt(decls, Bind(decls, bound, bs[0]), bs[1..], key);
    }
  }

  /** What a declared name holds: its last binding, or else its default. */
  function ValueOf(decls: seq<ArgDecl>, bs: seq<(string, string)>, key: string): string {
    var last := LastOf(bs, key);
    if last.Some? then last.value else if key in Defaults(decls) then Defaults(decls)[key] else ""
  }

  /** Declared keys are exactly the declared names, live keys are bound names that are not declared, and each key
      holds its last binding, a declared one its default without any. */
  lemma {:induction false} BoundMeans(decls: seq<ArgDecl>, bs: seq<(string, string)>)
    ensures var bound := BindAll(decls, (Defaults(decls), map[]), bs);
      && (forall k :: k in bound.0 <==> Declares(decls, k))
      && (forall k :: k in bound.1 <==> LastOf(bs, k).Some? && !Declares(decls, k))
      && (forall k :: k in bound.0 ==> bound.0[k] == ValueOf(decls, bs, k))
      && (forall k :: k in bound.1 ==> LastOf(bs, k) == Some(bound.1[k]))
  {
    var bound := BindAll(decls, (Defaults(decls), map[]), bs);
    forall k
      ensures k in bound.0 <==> Declares(decls, k)
      ensures k in bound.1 <==> LastOf(bs, k).Some? && !Declares(decls, k)
      ensures k in bound.0 ==> bound.0[k] == ValueOf(decls, bs, k)
      ensures k in bound.1 ==> LastOf(bs, k) == Some(bound.1[k])
    {
      BindAllAt(decls, (Defaults(decls), map[]), bs, k);
      DeclaredMeans(decls, k);
      DefaultsMean(decls, k);
    }
  }

  // ----------------------------------------------------------------- what each form of option sets

  predicate IsLong(a: string) {
    |a| >= 2 && a[..2] == "--"
  }

  predicate IsShort(a: string) {
    |a| == 2 && a[0] == '-' && a[1] != '-' && IsOneByte(a[1])
  }

  /** An option that takes the next word for its value, if there is one. */
  predicate WantsWord(a: string) {
    (IsLong(a) && '=' !in a) || IsShort(a)
  }

  /** No option at the end is left without the word it wants. */
  predicate Complete(a: Args) {
    a == [] || if WantsWord(a[0]) then |a| > 1 && Complete(a[2..]) else Complete(a[1..])
  }

  /** The first argument declared with that short form. */
  ghost predicate FirstShort(decls: seq<ArgDecl>, c: char, i: nat) {
    i < |decls| && decls[i].short == [c] && forall j :: 0 <= j < i ==> decls[j].short != [c]
  }

  /** What a short option stands for: the first argument declared with it, or else the letter itself. */
  ghost predicate StandsFor(decls: seq<ArgDecl>, c: char, k: string) {
    if forall d :: d in decls ==> d.short != [c] then k == [c]
    else exists i: nat :: FirstShort(decls, c, i) && k == if decls[i].name == "" then [c] else decls[i].name
  }

  /** The words of one option that sets k to v, the last of a command line if its value is left out. */
  ghost predicate SetsTo(decls: seq<ArgDecl>, o: Args, k: string, v: string) {
    || ('=' !in k && o == ["--" + k + "=" + v])
    || ('=' !in k && o == ["--" + k, v])
    || ('=' !in k && o == ["--" + k] && v == "true")
    || (exists c: char :: c != '-' && IsOneByte(c) && StandsFor(decls, c, k) && o == [['-', c], v])
    || (exists c: char :: c != '-' && IsOneByte(c) && StandsFor(decls, c, k) && o == [['-', c]] && v == "true")
  }

  lemma {:induction false} LongHasEquals(x: string)
    requires IsLong(x)
    ensures '=' in x <==> '=' in x[2..]
  {
    assert x == ['-', '-'] + x[2..];
  }

  /** Only a word that wants another one is read with it. */
  ghost predicate WantsRight(read: Reader) {
    forall x, next ::
      && read(x, next).width == (if WantsWord(x) && next.Some? then 2 else 1)
      && (!WantsWord(x) ==> read(x, next) == read(x, None))
  }

  lemma {:induction false} WordWants(decls: seq<ArgDecl>)
    ensures WantsRight(WordReader(decls)) && Steady(WordReader(decls))
  {
    forall x: string, next: Option<string>
      ensures ReadWord(decls, x, next).width == (if WantsWord(x) && next.Some? then 2 else 1)
      ensures !WantsWord(x) ==> ReadWord(decls, x, next) == ReadWord(decls, x, None)
    {
      if IsLong(x) {
        LongHasEquals(x);
      }
    }
  }

  /** What follows a complete list does not change what it sets. */
  lemma {:induction false} ReadAllJoin(read: Reader, a: Args, b: Args)
    requires Complete(a) && WantsRight(read)
    ensures ReadAll(read, a + b) == ReadAll(read, a) + ReadAll(read, b)
    decreases |a|
  {
    if a == [] {
      assert a + b == b;
    } else {
      var r := read(a[0], WordAt(a, 1));
      CompleteStep(read, a, b);
      ReadAllJoin(read, a[r.width..], b);
      ReadAllStep(read, a, a[r.width..]);
      ReadAllStep(read, a + b, a[r.width..] + b);
      AppendAssociates(BindingOf(r), ReadAll(read, a[r.width..]), ReadAll(read, b));
    }
  }

  /** A complete list is complete after its first option, and is read alike whatever follows. */
  lemma {:induction false} CompleteStep(read: Reader, a: Args, b: Args)
    requires a != [] && Complete(a) && WantsRight(read)
    ensures var r := read(a[0], WordAt(a, 1));
      && 1 <= r.width <= |a| && Complete(a[r.width..])
      && (a + b)[r.width..] == a[r.width..] + b
      && r == read((a + b)[0], WordAt(a + b, 1))
  {
    assert (a + b)[0] == a[0];
    if WantsWord(a[0]) {
      assert WordAt(a + b, 1) == WordAt(a, 1);
    } else {
      assert read(a[0], WordAt(a, 1)) == read(a[0], None);
    }
  }

  lemma {:induction false} ReadAllStep(read: Reader, a: Args, left: Args)
    requires a != []
    requires var w := read(a[0], WordAt(a, 1)).width; 1 <= w <= |a| && a[w..] == left
    ensures ReadAll(read, a) == BindingOf(read(a[0], WordAt(a, 1))) + ReadAll(read, left)
  {
  }

  lemma {:induction false} BindingsJoin(decls: seq<ArgDecl>, a: Args, b: Args)
    requires Complete(a)
    ensures Bindings(decls, a + b) == Bindings(decls, a) + Bindings(decls, b)
  {
    WordWants(decls);
    ReadAllJoin(WordReader(decls), a, b);
  }

  lemma {:induction false} ShortMeans(decls: seq<ArgDecl>, c: char, k: string)
    requires StandsFor(decls, c, k)
    ensures var name := FindDeclaredByShort(decls, [c]); k == if name == "" then [c] else name
  {
    if exists d :: d in decls && d.short == [c] {
      var i: nat :| FirstShort(decls, c, i) && k == if decls[i].name == "" then [c] else decls[i].name;
      FirstShortFound(decls, c, i);
    } else {
      NoShortFound(decls, c);
    }
  }

  lemma {:induction false} FirstShortFound(decls: seq<ArgDecl>, c: char, i: nat)
    requires FirstShort(decls, c, i)
    ensures FindDeclaredByShort(decls, [c]) == decls[i].name
  {
    if i > 0 {
      assert decls[1..][i - 1] == decls[i] && forall j :: 0 <= j < i - 1 ==> decls[1..][j] == decls[j + 1];
      FirstShortFound(decls[1..], c, i - 1);
    }
  }

  lemma {:induction false} NoShortFound(decls: seq<ArgDecl>, c: char)
    requires forall d :: d in decls ==> d.short != [c]
    ensures FindDeclaredByShort(decls, [c]) == ""
  {
    if decls != [] {
      NoShortFound(decls[1..], c);
    }
  }

  lemma {:induction false} IndexAfter(k: string, v: string)
    requires '=' !in k
    ensures IndexOf(k + (['='] + v), '=') == |k|
  {
    if k == [] {
      assert k + (['='] + v) == ['='] + v;
    } else {
      assert (k + (['='] + v))[1..] == k[1..] + (['='] + v);
      IndexAfter(k[1..], v);
    }
  }

  lemma {:induction false} EqualsRead(decls: seq<ArgDecl>, k: string, v: string, next: Option<string>)
    requires '=' !in k
    ensures ReadWord(decls, "--" + k + "=" + v, next) == Reading(Some(k), v, 1)
  {
    var key := ("--" + k + "=" + v)[2..];
    assert key == k + (['='] + v);
    IndexAfter(k, v);
    assert key[..|k|] == k && key[|k| + 1..] == v;
  }

  lemma {:induction false} LongRead(decls: seq<ArgDecl>, k: string, next: Option<string>)
    requires '=' !in k
    ensures ReadWord(decls, "--" + k, next) ==
      if next.Some? then Reading(Some(k), next.value, 2) else Reading(Some(k), "true", 1)
  {
    assert ("--" + k)[2..] == k;
  }

  lemma {:induction false} ShortRead(decls: seq<ArgDecl>, c: char, k: string, next: Option<string>)
    requires c != '-' && IsOneByte(c) && StandsFor(decls, c, k)
    ensures ReadWord(decls, ['-', c], next) ==
      if next.Some? then Reading(Some(k), next.value, 2) else Reading(Some(k), "true", 1)
  {
    ShortMeans(decls, c, k);
    assert ['-', c][1..] == [c];
    assert ['-', c][..2][1] == c;
  }

  lemma {:induction false} ReadLast(read: Reader, o: Args)
    requires o != [] && read(o[0], WordAt(o, 1)).width == |o|
    ensures ReadAll(read, o) == BindingOf(read(o[0], WordAt(o, 1)))
  {
    assert o[|o|..] == [];
  }

  /** One option is one binding. */
  lemma {:induction false} OneBinding(decls: seq<ArgDecl>, o: Args, k: string, v: string)
    requires SetsTo(decls, o, k, v)
    ensures Bindings(decls, o) == [(k, v)]
  {
    if '=' !in k && o == ["--" + k + "=" + v] {
      EqualsRead(decls, k, v, None);
    } else if '=' !in k && o[0] == "--" + k {
      LongRead(decls, k, WordAt(o, 1));
    } else {
      var c :| c != '-' && IsOneByte(c) && StandsFor(decls, c, k) && o[0] == ['-', c];
      ShortRead(decls, c, k, WordAt(o, 1));
    }
    ReadLast(WordReader(decls), o);
  }

  lemma {:induction false} BindAllJoin(decls: seq<ArgDecl>, bound: (map<string, string>, map<string, string>),
                                       a: seq<(string, string)>, b: seq<(string, string)>)
    ensures BindAll(decls, bound, a + b) == BindAll(decls, BindAll(decls, bound, a), b)
    decreases |a|
  {
    if a == [] {
      assert a + b == b;
    } else {
      assert (a + b)[1..] == a[1..] + b;
      BindAllJoin(decls, Bind(decls, bound, a[0]), a[1..], b);
    }
  }

  lemma {:induction false} HeadIsAll(a: Args)
    requires "--" !in a
    ensures Head(a) == a
  {
    if a != [] {
      HeadIsAll(a[1..]);
    }
  }

  /** Without arguments every declared one has its default, the last if a name is declared twice, and no other is
      set. */
  lemma {:induction false} NoArguments(tgt: Target)
    ensures var (declared, live) := Bound(tgt, []);
      && live == map[]
      && (forall k :: k in declared <==> Declares(tgt.args, k))
      && (forall i :: IsLastOfName(tgt.args, i) ==>
            tgt.args[i].name in declared && declared[tgt.args[i].name] == tgt.args[i].default)
  {
    assert Bound(tgt, []) == (Defaults(tgt.args), map[]);
    forall k ensures k in Defaults(tgt.args) <==> Declares(tgt.args, k) {
      DefaultsMean(tgt.args, k);
    }
    forall i | IsLastOfName(tgt.args, i)
      ensures tgt.args[i].name in Defaults(tgt.args) && Defaults(tgt.args)[tgt.args[i].name] == tgt.args[i].default
    {
      DefaultsMean(tgt.args, tgt.args[i].name);
      assert Declares(tgt.args, tgt.args[i].name);
    }
  }

  ghost predicate IsLastOfName(decls: seq<ArgDecl>, i: int) {
    0 <= i < |decls| && forall j :: i < j < |decls| ==> decls[j].name != decls[i].name
  }

  /** An option at the end sets its one key and nothing else: `--k=v`, `--k v`, a bare `--k`, `-c v` and a bare
      `-c`, where c stands for the argument declared with it. A declared key is set among the declared, any other
      among the live. */
  lemma {:induction false} OptionSets(tgt: Target, a: Args, o: Args, k: string, v: string)
    requires Complete(a) && "--" !in a + o && SetsTo(tgt.args, o, k, v)
    ensures var (declared, live) := Bound(tgt, a);
      Bound(tgt, a + o) ==
        if exists i :: 0 <= i < |tgt.args| && tgt.args[i].name == k then (declared[k := v], live)
        else (declared, live[k := v])
  {
    HeadIsAll(a + o);
    HeadIsAll(a);
    BindingsJoin(tgt.args, a, o);
    OneBinding(tgt.args, o, k, v);
    BindAllJoin(tgt.args, (Defaults(tgt.args), map[]), Bindings(tgt.args, a), [(k, v)]);
    DeclaredMeans(tgt.args, k);
  }

  /** Any other word, and there is one of these two kinds or the other, sets nothing. */
  lemma {:induction false} WordSetsNothing(tgt: Target, a: Args, x: string)
    requires Complete(a) && "--" !in a + [x] && !IsLong(x) && !IsShort(x)
    ensures Bound(tgt, a + [x]) == Bound(tgt, a)
  {
    HeadIsAll(a + [x]);
    HeadIsAll(a);
    BindingsJoin(tgt.args, a, [x]);
    OtherWord(tgt.args, x);
    assert Bindings(tgt.args, a) + [] == Bindings(tgt.args, a);
  }

  lemma {:induction false} OtherWord(decls: seq<ArgDecl>, x: string)
    requires x != "--" && !IsLong(x) && !IsShort(x)
    ensures Bindings(decls, [x]) == []
  {
    assert ReadWord(decls, x, None) == Reading(None, "", 1);
    ReadLast(WordReader(decls), [x]);
  }

  /** What stands before the first separator is bound, and a single slot is given all that stands behind it. */
  lemma {:induction false} OneSlotGetsTheRest(tgt: Target, own: Args, rest: Args)
    requires "--" !in own && |Slots(tgt)| == 1
    ensures Bound(tgt, own + ["--"] + rest) == Bound(tgt, own)
    ensures PassthroughOf(tgt, own + ["--"] + rest) == map[Slots(tgt)[0].step := rest]
  {
    HeadIsAll(own);
    HeadStops(own, rest);
    assert (own + ["--"] + rest)[|own| + 1..] == rest;
  }

  lemma {:induction false} HeadStops(own: Args, rest: Args)
    requires "--" !in own
    ensures Head(own + ["--"] + rest) == own
  {
    if own == [] {
      assert own + ["--"] + rest == ["--"] + rest;
    } else {
      assert (own + ["--"] + rest)[1..] == own[1..] + ["--"] + rest;
      HeadStops(own[1..], rest);
    }
  }

  // ------------------------------------------------------------------- required arguments

  ghost predicate Filled(a: ArgDecl, declared: map<string, string>) {
    a.required && a.default == "" ==> a.name in declared && declared[a.name] != ""
  }

  lemma {:induction false} MissingMeans(decls: seq<ArgDecl>, declared: map<string, string>)
    ensures FirstMissing(decls, declared).None? <==> forall i :: 0 <= i < |decls| ==> Filled(decls[i], declared)
  {
    if decls != [] {
      MissingMeans(decls[1..], declared);
      assert forall i :: 0 < i < |decls| ==> decls[i] == decls[1..][i - 1];
      assert forall i :: 0 <= i < |decls| - 1 ==> decls[1..][i] == decls[i + 1];
    }
  }

  /** The argument reported is the first one left unfilled. */
  lemma {:induction false} FirstIsReported(decls: seq<ArgDecl>, declared: map<string, string>, i: nat)
    requires i < |decls| && !Filled(decls[i], declared)
    requires forall j :: 0 <= j < i ==> Filled(decls[j], declared)
    ensures FirstMissing(decls, declared) == Some(decls[i].name)
  {
    if i > 0 {
      assert Filled(decls[0], declared);
      assert forall j :: 0 <= j < i - 1 ==> decls[1..][j] == decls[j + 1];
      FirstIsReported(decls[1..], declared, i - 1);
    }
  }

  /** Parsing succeeds exactly when every required argument without a default is bound, last, to a non-empty value. */
  lemma {:induction false} SucceedsExactly(tgt: Target, args: Args)
    ensures var bs := Bindings(tgt.args, Head(args));
      FirstMissing(tgt.args, Bound(tgt, args).0).None? <==>
        forall i :: 0 <= i < |tgt.args| && tgt.args[i].required && tgt.args[i].default == "" ==>
          ValueOf(tgt.args, bs, tgt.args[i].name) != ""
  {
    var bs := Bindings(tgt.args, Head(args));
    var declared := Bound(tgt, args).0;
    BoundMeans(tgt.args, bs);
    MissingMeans(tgt.args, declared);
    forall i | 0 <= i < |tgt.args|
      ensures Filled(tgt.args[i], declared) <==>
        (tgt.args[i].required && tgt.args[i].default == "" ==> ValueOf(tgt.args, bs, tgt.args[i].name) != "")
    {
      assert Declares(tgt.args, tgt.args[i].name);
    }
  }
}
