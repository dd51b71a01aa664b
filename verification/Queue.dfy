/** The persistent request queue of the daemon (internal/baked/queue.go). */
module Queue {
  // The queue never looks into a request, so requests are told apart by a serial number alone.

  import opened Config
  import opened Decimal

  type Request = nat

  datatype Entry = Entry(id: string, request: Request, workspace: string)

  // ------------------------------------------------------------------ identifiers

  function IdText(n: nat): string {
    "q" + Text(n)
  }

  function SkipSpaces(s: string): string {
    if s != [] && s[0] == ' ' then SkipSpaces(s[1..]) else s
  }

  /** Scanning with "q%d": the letter, spaces, a sign, then at least one digit; the rest is ignored. */
  function ScanId(s: string): Option<int> {
    if s == [] || s[0] != 'q' then None
    else
      var r := SkipSpaces(s[1..]);
      var signed := r != [] && (r[0] == '+' || r[0] == '-');
      var d := DigitPrefix(if signed then r[1..] else r);
      if d == [] then None
      else
        var v: int := Value(d);
        Some(if signed && r[0] == '-' then -v else v)
  }

  lemma {:induction false} IdRoundTrip(n: nat)
    ensures ScanId(IdText(n)) == Some(n)
  {
    var s := IdText(n);
    assert s[1..] == Text(n);
    assert IsDigit(Text(n)[0]);
    assert SkipSpaces(Text(n)) == Text(n);
    PrintedIsRead(n, "");
    assert Text(n) + "" == Text(n);
  }

  lemma {:induction false} IdIsInjective(m: nat, n: nat)
    requires IdText(m) == IdText(n)
    ensures m == n
  {
    IdRoundTrip(m);
    IdRoundTrip(n);
  }

  // ------------------------------------------------------------- the queue as a value

  /** The number in an identifier the queue printed; -1 for any other text. */
  function NumberOf(id: string): int {
    match ScanId(id)
    case Some(n) => if n >= 0 && id == IdText(n) then n else -1
    case None => -1
  }

  /** Every identifier is one the queue prints, below `next`, and they grow along the list. */
  predicate Stamped(entries: seq<Entry>, next: nat) {
    && (forall i :: 0 <= i < |entries| ==> 0 <= NumberOf(entries[i].id) < next)
    && (forall i, j :: 0 <= i < j < |entries| ==> NumberOf(entries[i].id) < NumberOf(entries[j].id))
  }

  /** One more than the largest number scanned, at least 0. */
  function NextId(entries: seq<Entry>): nat {
    if entries == [] then 0
    else Above(NextId(entries[..|entries| - 1]), ScanId(entries[|entries| - 1].id))
  }

  function Above(n: nat, scanned: Option<int>): (m: nat)
    ensures n <= m && (scanned.Some? ==> scanned.value < m)
    ensures m == n || (scanned.Some? && scanned.value == m - 1)
  {
    if scanned.Some? && scanned.value >= n then scanned.value + 1 else n
  }

  /** The next number is above every number on file ... */
  lemma {:induction false} NextIdIsAbove(entries: seq<Entry>, i: nat)
    requires i < |entries| && ScanId(entries[i].id).Some?
    ensures ScanId(entries[i].id).value < NextId(entries)
  {
    var before := entries[..|entries| - 1];
    if i < |before| {
      assert before[i] == entries[i];
      NextIdIsAbove(before, i);
    }
  }

  /** ... and no higher than it has to be. */
  lemma {:induction false} NextIdIsLeast(entries: seq<Entry>, next: nat)
    requires forall i :: 0 <= i < |entries| && ScanId(entries[i].id).Some? ==> ScanId(entries[i].id).value < next
    ensures NextId(entries) <= next
  {
    if entries != [] {
      var before := entries[..|entries| - 1];
      forall i | 0 <= i < |before| && ScanId(before[i].id).Some? ensures ScanId(before[i].id).value < next {
        assert before[i] == entries[i];
      }
      NextIdIsLeast(before, next);
    }
  }

  function Added(entries: seq<Entry>, next: nat, request: Request, workspace: string): seq<Entry> {
    entries + [Entry(IdText(next), request, workspace)]
  }

  /** The list without the first entry that carries `id`. */
  function Without(entries: seq<Entry>, id: string): (rest: seq<Entry>)
    ensures id !in Ids(entries) ==> rest == entries
  {
    if entries == [] then []
    else if entries[0].id == id then entries[1..]
    else [entries[0]] + Without(entries[1..], id)
  }

  ghost function Ids(entries: seq<Entry>): set<string> {
    set i | 0 <= i < |entries| :: entries[i].id
  }

  lemma {:induction false} WithoutCut(entries: seq<Entry>, k: nat)
    requires k < |entries|
    requires forall i :: 0 <= i < k ==> entries[i].id != entries[k].id
    ensures Without(entries, entries[k].id) == entries[..k] + entries[k + 1..]
  {
    if k > 0 {
      WithoutCut(entries[1..], k - 1);
    }
  }

  predicate DistinctIds(entries: seq<Entry>) {
    forall i, j :: 0 <= i < j < |entries| ==> entries[i].id != entries[j].id
  }

  lemma {:induction false} StampedIsDistinct(entries: seq<Entry>, next: nat)
    requires Stamped(entries, next)
    ensures DistinctIds(entries)
  {
    forall i, j | 0 <= i < j < |entries| ensures entries[i].id != entries[j].id {
      assert NumberOf(entries[i].id) < NumberOf(entries[j].id);
    }
  }

  /** In a stamped queue an identifier names one entry, and taking it out leaves exactly the others, in order. */
  lemma {:induction false} DequeueTakesItsOwn(entries: seq<Entry>, next: nat, k: nat)
    requires Stamped(entries, next) && k < |entries|
    ensures forall i :: 0 <= i < |entries| && entries[i].id == entries[k].id ==> i == k
    ensures Without(entries, entries[k].id) == entries[..k] + entries[k + 1..]
    ensures Stamped(Without(entries, entries[k].id), next)
  {
    StampedIsDistinct(entries, next);
    WithoutCut(entries, k);
    CutKeepsStamped(entries, next, k);
  }

  lemma {:induction false} CutKeepsStamped(entries: seq<Entry>, next: nat, k: nat)
    requires Stamped(entries, next) && k < |entries|
    ensures Stamped(entries[..k] + entries[k + 1..], next)
  {
    var cut := entries[..k] + entries[k + 1..];
    forall i | 0 <= i < |cut| ensures cut[i] == entries[if i < k then i else i + 1] {
    }
    forall i, j | 0 <= i < j < |cut| ensures NumberOf(cut[i].id) < NumberOf(cut[j].id) {
      var a, b := if i < k then i else i + 1, if j < k then j else j + 1;
      assert a < b && cut[i] == entries[a] && cut[j] == entries[b];
    }
  }

  lemma {:induction false} EnqueueKeepsStamped(entries: seq<Entry>, next: nat, request: Request, workspace: string)
    requires Stamped(entries, next)
    ensures Stamped(Added(entries, next, request, workspace), next + 1)
    ensures IdText(next) !in Ids(entries)
  {
    IdRoundTrip(next);
    assert NumberOf(IdText(next)) == next;
  }

  lemma {:induction false} DequeueKeepsStamped(entries: seq<Entry>, next: nat, id: string)
    requires Stamped(entries, next)
    ensures Stamped(Without(entries, id), next)
  {
    if id in Ids(entries) {
      var k :| 0 <= k < |entries| && entries[k].id == id;
      DequeueTakesItsOwn(entries, next, k);
    }
  }

  lemma {:induction false} MembersAfterDequeue(entries: seq<Entry>, next: nat, e: Entry)
    requires Stamped(entries, next) && e in entries
    ensures forall o :: o in Without(entries, e.id) <==> o in entries && o != e
  {
    var k :| 0 <= k < |entries| && entries[k] == e;
    DequeueTakesItsOwn(entries, next, k);
    StampedIsDistinct(entries, next);
    MembersAfterCut(entries, k);
  }

  lemma {:induction false} MembersAfterCut(entries: seq<Entry>, k: nat)
    requires DistinctIds(entries) && k < |entries|
    ensures forall o :: o in entries[..k] + entries[k + 1..] <==> o in entries && o != entries[k]
  {
    assert entries == entries[..k] + [entries[k]] + entries[k + 1..];
    assert entries[k] !in entries[..k] && entries[k] !in entries[k + 1..];
  }

  /** A restart may lower the next number, never to one that is still pending. */
  lemma {:induction false} ReloadKeepsStamped(entries: seq<Entry>, next: nat)
    requires Stamped(entries, next)
    ensures Stamped(entries, NextId(entries)) && NextId(entries) <= next
  {
    forall i: nat | i < |entries| ensures NumberOf(entries[i].id) < NextId(entries) {
      NextIdIsAbove(entries, i);
    }
    NextIdIsLeast(entries, next);
  }

  // --------------------------------------------------------- any sequence of operations

  datatype Op = Enqueue(request: Request, workspace: string) | Dequeue(id: string) | Restart

  /** `arrivals` lists every entry ever added, `gone` the positions of those taken out again. */
  datatype History = History(entries: seq<Entry>, next: nat, arrivals: seq<Entry>, gone: set<nat>)

  /** The positions at which `id` arrived. */
  function Carrying(arrivals: seq<Entry>, id: string): set<nat> {
    set i: nat | i < |arrivals| && arrivals[i].id == id
  }

  function Run(ops: seq<Op>): History {
    if ops == [] then History([], 0, [], {})
    else
      var h := Run(ops[..|ops| - 1]);
      match ops[|ops| - 1]
      case Enqueue(r, w) =>
        h.(entries := Added(h.entries, h.next, r, w), next := h.next + 1,
           arrivals := h.arrivals + [Entry(IdText(h.next), r, w)])
      case Dequeue(id) =>
        h.(entries := Without(h.entries, id),
           gone := h.gone + Carrying(h.arrivals, id))
      case Restart => h.(next := NextId(h.entries))
  }

  /** What was added and not taken out, in the order it was added. */
  function Kept(arrivals: seq<Entry>, gone: set<nat>): seq<Entry> {
    if arrivals == [] then []
    else
      var k := |arrivals| - 1;
      Kept(arrivals[..k], gone) + (if k in gone then [] else [arrivals[k]])
  }

  lemma {:induction false} KeptWithout(arrivals: seq<Entry>, gone: set<nat>, id: string)
    requires DistinctIds(Kept(arrivals, gone))
    ensures Kept(arrivals, gone + Carrying(arrivals, id)) == Without(Kept(arrivals, gone), id)
  {
    if arrivals != [] {
      var k := |arrivals| - 1;
      var before := Kept(arrivals[..k], gone);
      KeptGrows(arrivals, gone);
      KeptWithout(arrivals[..k], gone, id);
      KeptAgrees(arrivals[..k], gone + Carrying(arrivals[..k], id), gone + Carrying(arrivals, id));
      KeptGrows(arrivals, gone + Carrying(arrivals, id));
      if k !in gone {
        assert k in Carrying(arrivals, id) <==> arrivals[k].id == id;
        WithoutSnoc(before, arrivals[k], id);
        LastIsNew(before, arrivals[k]);
      }
    }
  }

  lemma {:induction false} KeptGrows(arrivals: seq<Entry>, gone: set<nat>)
    requires arrivals != []
    ensures var k := |arrivals| - 1; var before := Kept(arrivals[..k], gone);
      && Kept(arrivals, gone) == (if k in gone then before else before + [arrivals[k]])
      && (DistinctIds(Kept(arrivals, gone)) ==> DistinctIds(before))
  {
    var k := |arrivals| - 1;
    var before := Kept(arrivals[..k], gone);
    assert Kept(arrivals, gone)[..|before|] == before;
  }

  lemma {:induction false} LastIsNew(before: seq<Entry>, e: Entry)
    requires DistinctIds(before + [e])
    ensures e.id !in Ids(before)
  {
    forall i | 0 <= i < |before| ensures before[i].id != e.id {
      assert (before + [e])[i] == before[i] && (before + [e])[|before|] == e;
    }
  }

  lemma {:induction false} KeptAgrees(arrivals: seq<Entry>, g: set<nat>, h: set<nat>)
    requires forall i: nat :: i < |arrivals| ==> (i in g <==> i in h)
    ensures Kept(arrivals, g) == Kept(arrivals, h)
  {
    if arrivals != [] {
      KeptAgrees(arrivals[..|arrivals| - 1], g, h);
    }
  }

  lemma {:induction false} WithoutSnoc(entries: seq<Entry>, e: Entry, id: string)
    ensures id in Ids(entries) ==> Without(entries + [e], id) == Without(entries, id) + [e]
    ensures id !in Ids(entries) ==> Without(entries + [e], id) == if e.id == id then entries else entries + [e]
  {
    if entries != [] {
      assert (entries + [e])[1..] == entries[1..] + [e];
      WithoutSnoc(entries[1..], e, id);
      assert id in Ids(entries) && entries[0].id != id ==> id in Ids(entries[1..]) by {
        if id in Ids(entries) && entries[0].id != id {
          var i :| 0 <= i < |entries| && entries[i].id == id;
          assert entries[1..][i - 1].id == id;
        }
      }
    } else {
      assert entries + [e] == [e];
    }
  }

  /** Over any sequence of enqueues, dequeues and restarts: identifiers are distinct and below the next number,
      and the pending list is what arrived, in order, minus what was taken out. */
  lemma {:induction false} QueueHistory(ops: seq<Op>)
    ensures var h := Run(ops);
      && Stamped(h.entries, h.next)
      && h.entries == Kept(h.arrivals, h.gone)
      && (forall i :: i in h.gone ==> i < |h.arrivals|)
  {
    if ops != [] {
      QueueHistory(ops[..|ops| - 1]);
      var h := Run(ops[..|ops| - 1]);
      match ops[|ops| - 1]
      case Enqueue(r, w) =>
        EnqueueKeepsStamped(h.entries, h.next, r, w);
        assert (h.arrivals + [Entry(IdText(h.next), r, w)])[..|h.arrivals|] == h.arrivals;
      case Dequeue(id) =>
        DequeueKeepsStamped(h.entries, h.next, id);
        StampedIsDistinct(h.entries, h.next);
        KeptWithout(h.arrivals, h.gone, id);
      case Restart =>
        ReloadKeepsStamped(h.entries, h.next);
    }
  }

  /** A dequeue marks at most one arrival that was still pending, the one that carries the identifier. */
  lemma {:induction false} DequeueMarksOne(ops: seq<Op>, id: string, i: nat, j: nat)
    requires var h := Run(ops); i < |h.arrivals| && j < |h.arrivals| && i !in h.gone && j !in h.gone
    requires Run(ops).arrivals[i].id == id == Run(ops).arrivals[j].id
    ensures i == j
  {
    QueueHistory(ops);
    var h := Run(ops);
    StampedIsDistinct(h.entries, h.next);
    if i < j {
      KeptApart(h.arrivals, h.gone, i, j);
    } else if j < i {
      KeptApart(h.arrivals, h.gone, j, i);
    }
  }

  lemma {:induction false} KeptApart(arrivals: seq<Entry>, gone: set<nat>, i: nat, j: nat)
    requires i < j < |arrivals| && i !in gone && j !in gone
    requires DistinctIds(Kept(arrivals, gone))
    ensures arrivals[i].id != arrivals[j].id
  {
    var k := |arrivals| - 1;
    var before := Kept(arrivals[..k], gone);
    KeptGrows(arrivals, gone);
    if j < k {
      KeptApart(arrivals[..k], gone, i, j);
    } else {
      KeptHolds(arrivals[..k], gone, i);
      var a :| 0 <= a < |before| && before[a] == arrivals[..k][i];
      LastIsNew(before, arrivals[k]);
      assert before[a].id in Ids(before);
    }
  }

  lemma {:induction false} KeptHolds(arrivals: seq<Entry>, gone: set<nat>, i: nat)
    requires i < |arrivals| && i !in gone
    ensures exists a :: 0 <= a < |Kept(arrivals, gone)| && Kept(arrivals, gone)[a] == arrivals[i]
  {
    var k := |arrivals| - 1;
    var before := Kept(arrivals[..k], gone);
    if i < k {
      KeptHolds(arrivals[..k], gone, i);
      var a :| 0 <= a < |before| && before[a] == arrivals[i];
      assert Kept(arrivals, gone)[a] == arrivals[i];
    } else {
      assert Kept(arrivals, gone)[|before|] == arrivals[i];
    }
  }

  // ------------------------------------------------------------------- the object

  /** .bake/queue.json; a write replaces the whole content. */
  class QueueFile {
    var entries: seq<Entry>

    constructor ()
      ensures entries == []
    {
      entries := [];
    }
  }

  class PersistentQueue {
    const file: QueueFile
    var entries: seq<Entry>
    var nextID: nat

    ghost predicate Valid()
      reads this, file
    {
      entries == file.entries && Stamped(entries, nextID)
    }

    /** Loads the file as it stands. */
    constructor (f: QueueFile)
      ensures file == f && entries == f.entries && nextID == NextId(f.entries)
      ensures (exists k: nat :: Stamped(f.entries, k)) ==> Valid()
    {
      file := f;
      entries := f.entries;
      nextID := 0;
      new;
      var i := 0;
      while i < |entries|
        invariant 0 <= i <= |entries| && entries == f.entries
        invariant nextID == NextId(entries[..i])
      {
        assert entries[..i + 1][..i] == entries[..i];
        var n := ScanId(entries[i].id);
        if n.Some? && n.value >= nextID {
          nextID := n.value + 1;
        }
        i := i + 1;
      }
      assert entries[..i] == entries;
      if k: nat :| Stamped(f.entries, k) {
        ReloadKeepsStamped(f.entries, k);
      }
    }

    method Enqueue(request: Request, workspace: string) returns (id: string)
      requires Valid()
      modifies this, file
      ensures Valid()
      ensures entries == old(entries) + [Entry(id, request, workspace)]
      ensures id == IdText(old(nextID)) && nextID == old(nextID) + 1
      ensures forall i :: 0 <= i < |old(entries)| ==> old(entries)[i].id != id
    {
      EnqueueKeepsStamped(entries, nextID, request, workspace);
      id := IdText(nextID);
      nextID := nextID + 1;
      assert forall i :: 0 <= i < |entries| ==> entries[i].id in Ids(entries);
      entries := entries + [Entry(id, request, workspace)];
      Flush();
    }

    method Dequeue(id: string)
      requires Valid()
      modifies this, file
      ensures Valid()
      ensures nextID == old(nextID)
      ensures entries == Without(old(entries), id)
    {
      DequeueKeepsStamped(entries, nextID, id);
      var i := IndexOf(id);
      if i < |entries| {
        WithoutCut(entries, i);
        entries := entries[..i] + entries[i + 1..];
        Flush();
      }
    }

    /** The first entry that carries `id`, or the length. */
    method IndexOf(id: string) returns (i: nat)
      ensures i <= |entries| && (i < |entries| ==> entries[i].id == id)
      ensures forall j :: 0 <= j < i ==> entries[j].id != id
    {
      i := 0;
      while i < |entries| && entries[i].id != id
        invariant 0 <= i <= |entries|
        invariant forall j :: 0 <= j < i ==> entries[j].id != id
      {
        i := i + 1;
      }
    }

    method Pending() returns (out: seq<Entry>)
      requires Valid()
      ensures out == entries && Stamped(out, nextID)
    {
      out := entries;
    }

    method Flush()
      modifies file
      ensures file.entries == entries
    {
      file.entries := entries;
    }
  }

  function Requests(entries: seq<Entry>): (rs: seq<Request>)
    ensures |rs| == |entries| && forall i :: 0 <= i < |rs| ==> rs[i] == entries[i].request
  {
    seq(|entries|, i requires 0 <= i < |entries| => entries[i].request)
  }

  /** Replaying a queue on start (cmd/baked/main.go): every pending request is run once, oldest first,
      and taken off after it ran; the queue ends empty. Running a request is outside this model. */
  method ReplayQueue(q: PersistentQueue) returns (ran: seq<Request>)
    requires q.Valid()
    modifies q, q.file
    ensures q.Valid() && q.entries == []
    ensures ran == Requests(old(q.entries))
  {
    var pending := q.Pending();
    ran := [];
    var i := 0;
    while i < |pending|
      invariant 0 <= i <= |pending|
      invariant q.Valid() && q.entries == pending[i..]
      invariant ran == Requests(pending)[..i]
    {
      ran := ran + [pending[i].request];
      assert pending[i..][1..] == pending[i + 1..];
      q.Dequeue(pending[i].id);
      i := i + 1;
    }
  }
}
