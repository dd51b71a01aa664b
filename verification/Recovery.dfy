/** The crash recovery of the daemon (cmd/baked/main.go). */
module Recovery {
  // Connections enqueue a request, run it under one mutex, take it off the queue and answer; a restart replays every
  // queue before it serves. Steps of any connection, of the replay and crashes interleave freely.

  import opened Config
  import opened Queue

  /** One connection's handler. A connection's number stands for its request. */
  datatype Conn =
    | Received(ws: string)             // request read, workspace resolved
    | Queued(ws: string, id: string)   // on disk, waiting for the run mutex
    | Executing(ws: string, id: string)
    | Executed(ws: string, id: string) // mutex released
    | Removed                          // taken off the queue
    | Answered
    | Lost                             // the daemon went down first

  datatype Stage = Idle | Busy | Done

  datatype Mode =
    | Down
    | Replaying(todo: set<string>, current: Option<string>, batch: seq<Entry>, stage: Stage)
    | Serving

  datatype Memory = Memory(entries: seq<Entry>, next: nat)

  datatype Slip = Slip(ws: string, id: string)

  /** The last four fields record history and steer nothing: where each enqueued request was filed,
      which were taken off again, how often each ran to its end, and the number of starts. */
  datatype State = State(
    mode: Mode,
    disk: map<string, seq<Entry>>,
    memory: map<string, Memory>,
    conns: map<nat, Conn>,
    runMu: Option<nat>,
    filed: map<nat, Slip>,
    retired: set<nat>,
    executed: multiset<nat>,
    boots: nat)

  datatype Action =
    | Boot
    | PickQueue(w: string)
    | ReplayStart
    | ReplayEnd
    | ReplayDequeue
    | Open
    | Arrive(c: nat, w: string)
    | Enqueue(c: nat)
    | Lock(c: nat)
    | Finish(c: nat)
    | Dequeue(c: nat)
    | Answer(c: nat)
    | Crash

  function Disk(s: State, w: string): seq<Entry> {
    if w in s.disk then s.disk[w] else []
  }

  function Mem(s: State, w: string): Memory {
    if w in s.memory then s.memory[w] else Memory([], 0)
  }

  function ConnAt(s: State, c: nat): Conn {
    if c in s.conns then s.conns[c] else Lost
  }

  predicate Live(k: Conn) {
    !k.Answered? && !k.Lost?
  }

  function Init(spaces: set<string>): State {
    State(Down, map[], map[], map[], None, map[], {}, multiset{}, 0)
  }

  predicate Enabled(spaces: set<string>, s: State, a: Action) {
    match a
    case Boot => s.mode.Down?
    case PickQueue(w) => s.mode.Replaying? && s.mode.batch == [] && w in s.mode.todo
    case ReplayStart => s.mode.Replaying? && s.mode.batch != [] && s.mode.stage.Idle?
    case ReplayEnd => s.mode.Replaying? && s.mode.batch != [] && s.mode.stage.Busy?
    case ReplayDequeue => s.mode.Replaying? && s.mode.batch != [] && s.mode.stage.Done? && s.mode.current.Some?
    case Open => s.mode.Replaying? && s.mode.batch == [] && s.mode.todo == {}
    case Arrive(c, w) => s.mode.Serving? && c !in s.conns && w in spaces
    case Enqueue(c) => s.mode.Serving? && ConnAt(s, c).Received?
    case Lock(c) => s.mode.Serving? && ConnAt(s, c).Queued? && s.runMu.None?
    case Finish(c) => s.mode.Serving? && ConnAt(s, c).Executing?
    case Dequeue(c) => s.mode.Serving? && ConnAt(s, c).Executed?
    case Answer(c) => s.mode.Serving? && ConnAt(s, c).Removed?
    case Crash => !s.mode.Down?
  }

  function Stored(s: State, w: string, m: Memory): State {
    s.(memory := s.memory[w := m], disk := s.disk[w := m.entries])
  }

  function Apply(spaces: set<string>, s: State, a: Action): State
    requires Enabled(spaces, s, a)
  {
    match a
    case Boot =>
      s.(mode := Replaying(spaces, None, [], Idle), boots := s.boots + 1,
         memory := map w | w in spaces :: Memory(Disk(s, w), NextId(Disk(s, w))))
    case PickQueue(w) => s.(mode := Replaying(s.mode.todo - {w}, Some(w), Mem(s, w).entries, Idle))
    case ReplayStart => s.(mode := s.mode.(stage := Busy))
    case ReplayEnd => s.(mode := s.mode.(stage := Done), executed := s.executed + multiset{s.mode.batch[0].request})
    case ReplayDequeue =>
      var w := s.mode.current.value;
      var e := s.mode.batch[0];
      Stored(s, w, Mem(s, w).(entries := Without(Mem(s, w).entries, e.id)))
        .(mode := s.mode.(batch := s.mode.batch[1..], stage := Idle), retired := s.retired + {e.request})
    case Open => s.(mode := Serving)
    case Arrive(c, w) => s.(conns := s.conns[c := Received(w)])
    case Enqueue(c) =>
      var w := s.conns[c].ws;
      var m := Mem(s, w);
      Stored(s, w, Memory(Added(m.entries, m.next, c, w), m.next + 1))
        .(conns := s.conns[c := Queued(w, IdText(m.next))], filed := s.filed[c := Slip(w, IdText(m.next))])
    case Lock(c) => s.(conns := s.conns[c := Executing(s.conns[c].ws, s.conns[c].id)], runMu := Some(c))
    case Finish(c) =>
      s.(conns := s.conns[c := Executed(s.conns[c].ws, s.conns[c].id)], runMu := None,
         executed := s.executed + multiset{c})
    case Dequeue(c) =>
      var w := s.conns[c].ws;
      Stored(s, w, Mem(s, w).(entries := Without(Mem(s, w).entries, s.conns[c].id)))
        .(conns := s.conns[c := Removed], retired := s.retired + {c})
    case Answer(c) => s.(conns := s.conns[c := Answered])
    case Crash =>
      s.(mode := Down, memory := map[], runMu := None,
         conns := map c | c in s.conns :: if s.conns[c].Answered? then Answered else Lost)
  }

  /** The state after a schedule, if every step of it was enabled. */
  function After(spaces: set<string>, acts: seq<Action>): Option<State> {
    if acts == [] then Some(Init(spaces))
    else
      var a := acts[|acts| - 1];
      match After(spaces, acts[..|acts| - 1])
      case None => None
      case Some(s) => if Enabled(spaces, s, a) then Some(Apply(spaces, s, a)) else None
  }

  // ---------------------------------------------------------------- the invariants

  /** Files hold identifiers the queue made; while the daemon is up its memory equals them. */
  ghost predicate FileKept(s: State, w: string) {
    && Stamped(Disk(s, w), NextId(Disk(s, w)))
    && (!s.mode.Down? ==> Mem(s, w).entries == Disk(s, w) && Stamped(Disk(s, w), Mem(s, w).next))
  }

  ghost predicate FilesKept(spaces: set<string>, s: State) {
    && (forall w :: FileKept(s, w))
    && (forall w :: Disk(s, w) != [] ==> w in spaces)
  }

  /** What is on disk is exactly what was filed and not yet retired. */
  ghost predicate EntryFiled(s: State, w: string, e: Entry) {
    && e.request in s.filed && e.request !in s.retired
    && s.filed[e.request] == Slip(w, e.id) && e.workspace == w
  }

  function EntryOf(s: State, c: nat): Entry
    requires c in s.filed
  {
    Entry(s.filed[c].id, c, s.filed[c].ws)
  }

  predicate OnDisk(s: State, c: nat)
    requires c in s.filed
  {
    EntryOf(s, c) in Disk(s, s.filed[c].ws)
  }

  ghost predicate DiskIsFiled(s: State) {
    && (forall w, e :: e in Disk(s, w) ==> EntryFiled(s, w, e))
    && (forall c :: c in s.filed && c !in s.retired ==> OnDisk(s, c))
    && (forall c :: c in s.retired ==> c in s.filed && s.executed[c] > 0)
    && (forall c :: c in s.filed ==> c in s.conns)
    && (forall c :: s.executed[c] > 0 ==> c in s.filed)
  }

  ghost predicate ConnRight(s: State, c: nat) {
    match ConnAt(s, c)
    case Received(_) => c !in s.filed && s.executed[c] == 0
    case Queued(w, id) => c in s.filed && s.filed[c] == Slip(w, id) && c !in s.retired && s.executed[c] == 0
    case Executing(w, id) => c in s.filed && s.filed[c] == Slip(w, id) && c !in s.retired && s.executed[c] == 0
    case Executed(w, id) => c in s.filed && s.filed[c] == Slip(w, id) && c !in s.retired && s.executed[c] == 1
    case Removed => c in s.retired && s.executed[c] == 1
    case Answered => c in s.retired && s.executed[c] == 1
    case Lost => true
  }

  ghost predicate ConnsRight(spaces: set<string>, s: State) {
    && (forall c :: ConnRight(s, c))
    && (forall c :: Live(ConnAt(s, c)) ==> s.mode.Serving?)
    && (forall c :: ConnAt(s, c).Received? ==> ConnAt(s, c).ws in spaces)
    && (forall c: nat :: s.runMu == Some(c) <==> ConnAt(s, c).Executing?)
  }

  /** A queue is replayed from its front; the others wait in `todo` or are empty. */
  ghost predicate ReplayRight(spaces: set<string>, s: State) {
    s.mode.Replaying? ==>
      && s.mode.todo <= spaces
      && (s.mode.current.Some? ==> s.mode.current.value !in s.mode.todo)
      && s.mode.batch == (if s.mode.current.Some? then Disk(s, s.mode.current.value) else [])
      && (forall w :: w !in s.mode.todo && Some(w) != s.mode.current ==> Disk(s, w) == [])
      && (s.mode.batch == [] ==> s.mode.stage.Idle?)
      && (s.mode.batch != [] && s.mode.stage.Done? ==> s.executed[s.mode.batch[0].request] > 0)
  }

  /** Every entry of the batch, but not one that has just run, is still to run in this start. */
  ghost predicate BatchWaits(s: State) {
    s.mode.Replaying? ==>
      forall i :: 0 <= i < |s.mode.batch| && (i > 0 || !s.mode.stage.Done?) ==>
        s.executed[s.mode.batch[i].request] < s.boots
  }

  /** No request ran more often than the daemon was started, and what waits for the replay not in this start. */
  ghost predicate CountsRight(s: State) {
    && (forall c :: s.executed[c] <= s.boots)
    && (!s.mode.Down? ==> s.boots >= 1)
    && (s.mode.Replaying? ==>
          && (forall w, e :: w in s.mode.todo && e in Disk(s, w) ==> s.executed[e.request] < s.boots)
          && BatchWaits(s))
  }

  ghost predicate Inv(spaces: set<string>, s: State) {
    && FilesKept(spaces, s)
    && DiskIsFiled(s)
    && ConnsRight(spaces, s)
    && ReplayRight(spaces, s)
    && CountsRight(s)
  }

  lemma {:induction false} InitInv(spaces: set<string>)
    ensures Inv(spaces, Init(spaces))
  {
  }

  // ------------------------------------------------------------- every step keeps them

  /** The workspace whose queue a step changes, and the queue after it. */
  function Changed(s: State, a: Action): Option<string> {
    match a
    case Enqueue(c) => if ConnAt(s, c).Received? then Some(s.conns[c].ws) else None
    case Dequeue(c) => if ConnAt(s, c).Executed? then Some(s.conns[c].ws) else None
    case ReplayDequeue => if s.mode.Replaying? then s.mode.current else None
    case _ => None
  }

  predicate Removes(s: State, a: Action, w: string, e: Entry) {
    || (a.Dequeue? && ConnAt(s, a.c).Executed? && s.conns[a.c].ws == w && e == Entry(s.conns[a.c].id, a.c, w))
    || (a.ReplayDequeue? && s.mode.Replaying? && s.mode.current == Some(w) && s.mode.batch != []
      && e == s.mode.batch[0])
  }

  lemma {:induction false} DiskOtherwise(spaces: set<string>, s: State, a: Action, w: string)
    requires Enabled(spaces, s, a) && Changed(s, a) != Some(w)
    ensures Disk(Apply(spaces, s, a), w) == Disk(s, w)
    ensures !a.Boot? && !a.Crash? ==> Mem(Apply(spaces, s, a), w) == Mem(s, w)
  {
  }

  lemma {:induction false} DiskAdded(spaces: set<string>, s: State, a: Action, w: string)
    requires Enabled(spaces, s, a) && a.Enqueue? && Changed(s, a) == Some(w)
    ensures var m := Mem(s, w); var t := Apply(spaces, s, a);
      && Disk(t, w) == Mem(t, w).entries == Added(m.entries, m.next, a.c, w)
      && Mem(t, w).next == m.next + 1
  {
  }

  lemma {:induction false} DiskRemoved(spaces: set<string>, s: State, a: Action, w: string, e: Entry)
    requires Enabled(spaces, s, a) && Removes(s, a, w, e)
    ensures var t := Apply(spaces, s, a);
      && Disk(t, w) == Mem(t, w).entries == Without(Mem(s, w).entries, e.id)
      && Mem(t, w).next == Mem(s, w).next
  {
  }

  lemma {:induction false} FilesStep(spaces: set<string>, s: State, a: Action)
    requires Inv(spaces, s) && Enabled(spaces, s, a)
    ensures FilesKept(spaces, Apply(spaces, s, a))
  {
    var t := Apply(spaces, s, a);
    forall w ensures FileKept(t, w) && (Disk(t, w) != [] ==> w in spaces) {
      assert FileKept(s, w);
      if Changed(s, a) != Some(w) {
        DiskOtherwise(spaces, s, a, w);
        FileUnchanged(spaces, s, a, w);
      } else if a.Enqueue? {
        DiskAdded(spaces, s, a, w);
        AddKeepsFile(s, w, a.c);
      } else if a.Dequeue? {
        DiskRemoved(spaces, s, a, w, Entry(s.conns[a.c].id, a.c, w));
        RemoveKeepsFile(s, w, s.conns[a.c].id);
      } else {
        DiskRemoved(spaces, s, a, w, s.mode.batch[0]);
        RemoveKeepsFile(s, w, s.mode.batch[0].id);
      }
    }
  }

  lemma {:induction false} FileUnchanged(spaces: set<string>, s: State, a: Action, w: string)
    requires FileKept(s, w) && (Disk(s, w) != [] ==> w in spaces)
    requires Enabled(spaces, s, a) && Changed(s, a) != Some(w)
    requires Disk(Apply(spaces, s, a), w) == Disk(s, w)
    requires !a.Boot? && !a.Crash? ==> Mem(Apply(spaces, s, a), w) == Mem(s, w)
    ensures FileKept(Apply(spaces, s, a), w)
  {
  }

  lemma {:induction false} AddKeepsFile(s: State, w: string, c: nat)
    requires FileKept(s, w) && !s.mode.Down?
    ensures var more := Added(Disk(s, w), Mem(s, w).next, c, w);
      && Stamped(more, NextId(more)) && Stamped(more, Mem(s, w).next + 1)
  {
    EnqueueKeepsStamped(Disk(s, w), Mem(s, w).next, c, w);
    ReloadKeepsStamped(Added(Disk(s, w), Mem(s, w).next, c, w), Mem(s, w).next + 1);
  }

  lemma {:induction false} RemoveKeepsFile(s: State, w: string, id: string)
    requires FileKept(s, w) && !s.mode.Down?
    ensures var rest := Without(Disk(s, w), id);
      && Stamped(rest, NextId(rest)) && Stamped(rest, Mem(s, w).next)
      && (rest != [] ==> Disk(s, w) != [])
  {
    DequeueKeepsStamped(Disk(s, w), Mem(s, w).next, id);
    ReloadKeepsStamped(Without(Disk(s, w), id), Mem(s, w).next);
  }

  lemma {:induction false} RemovedIsFiled(spaces: set<string>, s: State, a: Action, w: string, e: Entry)
    requires Inv(spaces, s) && Enabled(spaces, s, a) && Removes(s, a, w, e)
    ensures e in Disk(s, w) && EntryFiled(s, w, e)
  {
    if a.Dequeue? {
      assert ConnRight(s, a.c);
      assert OnDisk(s, a.c);
    }
  }

  /** After a removal the disk holds every other entry and no longer this one. */
  lemma {:induction false} DiskAfterRemoval(spaces: set<string>, s: State, a: Action, w: string, e: Entry)
    requires Inv(spaces, s) && Enabled(spaces, s, a) && Removes(s, a, w, e)
    ensures var t := Apply(spaces, s, a);
      && (forall o :: o in Disk(t, w) <==> o in Disk(s, w) && o != e)
      && (forall v :: v != w ==> Disk(t, v) == Disk(s, v))
      && t.filed == s.filed && t.retired == s.retired + {e.request} && t.executed == s.executed
      && t.conns.Keys == s.conns.Keys
  {
    RemovedIsFiled(spaces, s, a, w, e);
    assert FileKept(s, w);
    DiskRemoved(spaces, s, a, w, e);
    MembersAfterDequeue(Disk(s, w), NextId(Disk(s, w)), e);
    OthersKept(spaces, s, a, w, e);
  }

  lemma {:induction false} OthersKept(spaces: set<string>, s: State, a: Action, w: string, e: Entry)
    requires Enabled(spaces, s, a) && Removes(s, a, w, e)
    ensures var t := Apply(spaces, s, a);
      && (forall v :: v != w ==> Disk(t, v) == Disk(s, v))
      && t.filed == s.filed && t.retired == s.retired + {e.request} && t.executed == s.executed
      && t.conns.Keys == s.conns.Keys
  {
    forall v | v != w ensures Disk(Apply(spaces, s, a), v) == Disk(s, v) {
      DiskOtherwise(spaces, s, a, v);
    }
  }

  lemma {:induction false} RemovedHasRun(spaces: set<string>, s: State, a: Action, w: string, e: Entry)
    requires Inv(spaces, s) && Enabled(spaces, s, a) && Removes(s, a, w, e)
    ensures s.executed[e.request] > 0
  {
    if a.Dequeue? {
      assert ConnRight(s, a.c);
    }
  }

  lemma {:induction false} FiledRemoved(spaces: set<string>, s: State, a: Action, w: string, e: Entry)
    requires Inv(spaces, s) && Enabled(spaces, s, a) && Removes(s, a, w, e)
    ensures DiskIsFiled(Apply(spaces, s, a))
  {
    var t := Apply(spaces, s, a);
    RemovedIsFiled(spaces, s, a, w, e);
    RemovedHasRun(spaces, s, a, w, e);
    DiskAfterRemoval(spaces, s, a, w, e);
    RetiredIsFiled(s, t, w, e);
  }

  lemma {:induction false} RetiredIsFiled(s: State, t: State, w: string, e: Entry)
    requires DiskIsFiled(s) && EntryFiled(s, w, e) && s.executed[e.request] > 0
    requires forall o :: o in Disk(t, w) <==> o in Disk(s, w) && o != e
    requires forall v :: v != w ==> Disk(t, v) == Disk(s, v)
    requires t.filed == s.filed && t.retired == s.retired + {e.request} && t.executed == s.executed
    requires t.conns.Keys == s.conns.Keys
    ensures DiskIsFiled(t)
  {
    forall v, o | o in Disk(t, v) ensures EntryFiled(t, v, o) {
      assert EntryFiled(s, v, o);
    }
    forall c | c in t.filed && c !in t.retired ensures OnDisk(t, c) {
      assert OnDisk(s, c);
    }
  }

  lemma {:induction false} FiledAdded(spaces: set<string>, s: State, a: Action)
    requires Inv(spaces, s) && Enabled(spaces, s, a) && a.Enqueue?
    ensures DiskIsFiled(Apply(spaces, s, a))
  {
    var t := Apply(spaces, s, a);
    var w := s.conns[a.c].ws;
    assert ConnRight(s, a.c) && FileKept(s, w);
    DiskAdded(spaces, s, a, w);
    forall v, o | o in Disk(t, v) ensures EntryFiled(t, v, o) {
      if v != w {
        DiskOtherwise(spaces, s, a, v);
      }
      if o in Disk(s, v) {
        assert EntryFiled(s, v, o);
      }
    }
    forall c | c in t.filed && c !in t.retired ensures OnDisk(t, c) {
      if c != a.c {
        assert OnDisk(s, c);
        if s.filed[c].ws != w {
          DiskOtherwise(spaces, s, a, s.filed[c].ws);
        }
      } else {
        assert Disk(t, w)[|Disk(s, w)|] == EntryOf(t, c);
      }
    }
  }

  lemma {:induction false} FiledOtherwise(spaces: set<string>, s: State, a: Action)
    requires Inv(spaces, s) && Enabled(spaces, s, a) && !a.Enqueue? && !a.Dequeue? && !a.ReplayDequeue?
    ensures DiskIsFiled(Apply(spaces, s, a))
  {
    var t := Apply(spaces, s, a);
    forall v ensures Disk(t, v) == Disk(s, v) {
      DiskOtherwise(spaces, s, a, v);
    }
    if a.Finish? {
      assert ConnRight(s, a.c);
    } else if a.ReplayEnd? {
      assert EntryFiled(s, s.mode.current.value, s.mode.batch[0]);
    }
    StillFiled(s, t);
  }

  lemma {:induction false} StillFiled(s: State, t: State)
    requires DiskIsFiled(s) && (forall v :: Disk(t, v) == Disk(s, v))
    requires t.filed == s.filed && t.retired == s.retired && s.conns.Keys <= t.conns.Keys
    requires forall c :: t.executed[c] >= s.executed[c] && (t.executed[c] > s.executed[c] ==> c in s.filed)
    ensures DiskIsFiled(t)
  {
    forall v, o | o in Disk(t, v) ensures EntryFiled(t, v, o) {
      assert EntryFiled(s, v, o);
    }
    forall c | c in t.filed && c !in t.retired ensures OnDisk(t, c) {
      assert OnDisk(s, c);
    }
  }

  ghost function TakenOff(s: State, a: Action): Entry
    requires (a.Dequeue? && ConnAt(s, a.c).Executed?) || (a.ReplayDequeue? && s.mode.Replaying? && s.mode.batch != [])
  {
    if a.Dequeue? then Entry(s.conns[a.c].id, a.c, s.conns[a.c].ws) else s.mode.batch[0]
  }

  lemma {:induction false} FiledStep(spaces: set<string>, s: State, a: Action)
    requires Inv(spaces, s) && Enabled(spaces, s, a)
    ensures DiskIsFiled(Apply(spaces, s, a))
  {
    if a.Enqueue? {
      FiledAdded(spaces, s, a);
    } else if a.Dequeue? || a.ReplayDequeue? {
      FiledRemoved(spaces, s, a, Changed(s, a).value, TakenOff(s, a));
    } else {
      FiledOtherwise(spaces, s, a);
    }
  }

  lemma {:induction false} ConnStep(spaces: set<string>, s: State, a: Action, c: nat)
    requires Inv(spaces, s) && Enabled(spaces, s, a)
    ensures ConnRight(Apply(spaces, s, a), c)
  {
    assert ConnRight(s, c);
    if a.ReplayEnd? || a.ReplayDequeue? || a.Crash? {
      assert Live(ConnAt(s, c)) ==> s.mode.Serving?;
      BackgroundStep(spaces, s, a, c);
    } else {
      ServedStep(spaces, s, a, c);
    }
  }

  lemma {:induction false} BackgroundStep(spaces: set<string>, s: State, a: Action, c: nat)
    requires Inv(spaces, s) && Enabled(spaces, s, a) && (a.ReplayEnd? || a.ReplayDequeue? || a.Crash?)
    requires ConnRight(s, c) && (Live(ConnAt(s, c)) ==> s.mode.Serving?)
    ensures ConnRight(Apply(spaces, s, a), c)
  {
    if a.ReplayEnd? {
      assert EntryFiled(s, s.mode.current.value, s.mode.batch[0]);
    }
  }

  lemma {:induction false} ServedStep(spaces: set<string>, s: State, a: Action, c: nat)
    requires Enabled(spaces, s, a) && !a.ReplayEnd? && !a.ReplayDequeue? && !a.Crash?
    requires ConnRight(s, c) && DiskIsFiled(s)
    ensures ConnRight(Apply(spaces, s, a), c)
  {
  }

  lemma {:induction false} ConnsStep(spaces: set<string>, s: State, a: Action)
    requires Inv(spaces, s) && Enabled(spaces, s, a)
    ensures ConnsRight(spaces, Apply(spaces, s, a))
  {
    forall c ensures ConnRight(Apply(spaces, s, a), c) {
      ConnStep(spaces, s, a, c);
    }
    forall c: nat
      ensures Live(ConnAt(Apply(spaces, s, a), c)) ==> Apply(spaces, s, a).mode.Serving?
      ensures ConnAt(Apply(spaces, s, a), c).Received? ==> ConnAt(Apply(spaces, s, a), c).ws in spaces
      ensures Apply(spaces, s, a).runMu == Some(c) <==> ConnAt(Apply(spaces, s, a), c).Executing?
    {
      assert Live(ConnAt(s, c)) ==> s.mode.Serving?;
      LivenessStep(spaces, s, a, c);
      MutexStep(spaces, s, a, c);
    }
  }

  lemma {:induction false} LivenessStep(spaces: set<string>, s: State, a: Action, c: nat)
    requires Enabled(spaces, s, a)
    requires (Live(ConnAt(s, c)) ==> s.mode.Serving?) && (ConnAt(s, c).Received? ==> ConnAt(s, c).ws in spaces)
    ensures var t := Apply(spaces, s, a);
      && (Live(ConnAt(t, c)) ==> t.mode.Serving?)
      && (ConnAt(t, c).Received? ==> ConnAt(t, c).ws in spaces)
  {
  }

  lemma {:induction false} MutexStep(spaces: set<string>, s: State, a: Action, c: nat)
    requires Enabled(spaces, s, a) && (s.runMu == Some(c) <==> ConnAt(s, c).Executing?)
    requires a.Finish? ==> s.runMu == Some(a.c)
    ensures var t := Apply(spaces, s, a); t.runMu == Some(c) <==> ConnAt(t, c).Executing?
  {
  }

  lemma {:induction false} ReplayStep(spaces: set<string>, s: State, a: Action)
    requires Inv(spaces, s) && Enabled(spaces, s, a)
    ensures ReplayRight(spaces, Apply(spaces, s, a))
  {
    if a.ReplayDequeue? {
      ReplayPops(spaces, s);
    } else if a.PickQueue? {
      assert FileKept(s, a.w);
      ReplayElsewhere(spaces, s, a);
    } else {
      ReplayElsewhere(spaces, s, a);
    }
  }

  lemma {:induction false} ReplayElsewhere(spaces: set<string>, s: State, a: Action)
    requires Enabled(spaces, s, a) && !a.ReplayDequeue? && ReplayRight(spaces, s)
    requires forall w :: Disk(s, w) != [] ==> w in spaces
    requires a.PickQueue? ==> Mem(s, a.w).entries == Disk(s, a.w)
    ensures ReplayRight(spaces, Apply(spaces, s, a))
  {
    var t := Apply(spaces, s, a);
    if t.mode.Replaying? {
      forall v ensures Disk(t, v) == Disk(s, v) {
        DiskOtherwise(spaces, s, a, v);
      }
    }
  }

  lemma {:induction false} ReplayPops(spaces: set<string>, s: State)
    requires Inv(spaces, s) && Enabled(spaces, s, ReplayDequeue)
    ensures ReplayRight(spaces, Apply(spaces, s, ReplayDequeue))
  {
    var t := Apply(spaces, s, ReplayDequeue);
    var w := s.mode.current.value;
    assert FileKept(s, w);
    DiskRemoved(spaces, s, ReplayDequeue, w, s.mode.batch[0]);
    DequeueTakesItsOwn(Disk(s, w), NextId(Disk(s, w)), 0);
    assert Disk(t, w) == s.mode.batch[1..];
    forall v | v != w ensures Disk(t, v) == Disk(s, v) {
      DiskOtherwise(spaces, s, ReplayDequeue, v);
    }
  }

  /** An entry being replayed shares its request with no other entry on any disk. */
  lemma {:induction false} BatchRequestsDiffer(spaces: set<string>, s: State)
    requires Inv(spaces, s) && s.mode.Replaying? && s.mode.batch != []
    ensures forall i :: 0 < i < |s.mode.batch| ==> s.mode.batch[i].request != s.mode.batch[0].request
    ensures forall w, e :: w in s.mode.todo && e in Disk(s, w) ==> e.request != s.mode.batch[0].request
  {
    var v := s.mode.current.value;
    assert FileKept(s, v) && EntryFiled(s, v, s.mode.batch[0]);
    StampedIsDistinct(Disk(s, v), NextId(Disk(s, v)));
    forall i | 0 < i < |s.mode.batch| ensures s.mode.batch[i].request != s.mode.batch[0].request {
      assert EntryFiled(s, v, s.mode.batch[i]);
    }
    forall w, e | w in s.mode.todo && e in Disk(s, w) ensures e.request != s.mode.batch[0].request {
      assert EntryFiled(s, w, e);
    }
  }

  lemma {:induction false} WaitingCounts(spaces: set<string>, s: State, a: Action)
    requires Inv(spaces, s) && Enabled(spaces, s, a) && Apply(spaces, s, a).mode.Replaying?
    ensures var t := Apply(spaces, s, a);
      forall w, e :: w in t.mode.todo && e in Disk(t, w) ==> t.executed[e.request] < t.boots
  {
    var t := Apply(spaces, s, a);
    forall v | Changed(s, a) != Some(v) ensures Disk(t, v) == Disk(s, v) {
      DiskOtherwise(spaces, s, a, v);
    }
    if a.ReplayEnd? {
      BatchRequestsDiffer(spaces, s);
    }
  }

  lemma {:induction false} BatchPicked(spaces: set<string>, s: State, w: string)
    requires Inv(spaces, s) && Enabled(spaces, s, PickQueue(w))
    ensures BatchWaits(Apply(spaces, s, PickQueue(w)))
  {
    assert FileKept(s, w);
    assert forall i :: 0 <= i < |Mem(s, w).entries| ==> Mem(s, w).entries[i] in Disk(s, w);
  }

  lemma {:induction false} BatchRan(spaces: set<string>, s: State)
    requires Inv(spaces, s) && Enabled(spaces, s, ReplayEnd)
    ensures BatchWaits(Apply(spaces, s, ReplayEnd))
  {
    BatchRequestsDiffer(spaces, s);
  }

  lemma {:induction false} BatchOtherwise(spaces: set<string>, s: State, a: Action)
    requires BatchWaits(s) && Enabled(spaces, s, a) && !a.PickQueue? && !a.ReplayEnd?
    ensures BatchWaits(Apply(spaces, s, a))
  {
  }

  lemma {:induction false} BatchCounts(spaces: set<string>, s: State, a: Action)
    requires Inv(spaces, s) && Enabled(spaces, s, a)
    ensures BatchWaits(Apply(spaces, s, a))
  {
    if a.PickQueue? {
      BatchPicked(spaces, s, a.w);
    } else if a.ReplayEnd? {
      BatchRan(spaces, s);
    } else {
      BatchOtherwise(spaces, s, a);
    }
  }

  lemma {:induction false} CountsStep(spaces: set<string>, s: State, a: Action)
    requires Inv(spaces, s) && Enabled(spaces, s, a)
    ensures CountsRight(Apply(spaces, s, a))
  {
    RunsCounted(spaces, s, a);
    BatchCounts(spaces, s, a);
    if Apply(spaces, s, a).mode.Replaying? {
      WaitingCounts(spaces, s, a);
    }
  }

  lemma {:induction false} RunsCounted(spaces: set<string>, s: State, a: Action)
    requires Inv(spaces, s) && Enabled(spaces, s, a)
    ensures forall c :: Apply(spaces, s, a).executed[c] <= Apply(spaces, s, a).boots
  {
    if a.Finish? {
      assert ConnRight(s, a.c);
    }
  }

  lemma {:induction false} StepKeeps(spaces: set<string>, s: State, a: Action)
    requires Inv(spaces, s) && Enabled(spaces, s, a)
    ensures Inv(spaces, Apply(spaces, s, a))
  {
    FilesStep(spaces, s, a);
    FiledStep(spaces, s, a);
    ConnsStep(spaces, s, a);
    ReplayStep(spaces, s, a);
    CountsStep(spaces, s, a);
  }

  /** The invariants hold after every schedule. */
  lemma {:induction false} AlwaysInv(spaces: set<string>, acts: seq<Action>)
    requires After(spaces, acts).Some?
    ensures Inv(spaces, After(spaces, acts).value)
  {
    if acts == [] {
      InitInv(spaces);
    } else {
      AlwaysInv(spaces, acts[..|acts| - 1]);
      StepKeeps(spaces, After(spaces, acts[..|acts| - 1]).value, acts[|acts| - 1]);
    }
  }

  // ------------------------------------------------------------------- the theorems

  /** However connections, crashes and restarts interleave: a request that was enqueued has run to its end
      at least once or is still on disk, and while the daemon is up its memory equals the disk. */
  lemma {:induction false} NothingIsLost(spaces: set<string>, acts: seq<Action>)
    requires After(spaces, acts).Some?
    ensures var s := After(spaces, acts).value;
      && (forall c :: c in s.filed ==> s.executed[c] > 0 || OnDisk(s, c))
      && (!s.mode.Down? ==> forall w :: Mem(s, w).entries == Disk(s, w))
      && (forall w :: Stamped(Disk(s, w), NextId(Disk(s, w))))
  {
    AlwaysInv(spaces, acts);
    var s := After(spaces, acts).value;
    forall w ensures Stamped(Disk(s, w), NextId(Disk(s, w))) && (!s.mode.Down? ==> Mem(s, w).entries == Disk(s, w)) {
      assert FileKept(s, w);
    }
  }

  /** At most one served request runs at a time, and none while the queues are replayed. */
  lemma {:induction false} OneAtATime(spaces: set<string>, acts: seq<Action>, c: nat, d: nat)
    requires After(spaces, acts).Some?
    requires ConnAt(After(spaces, acts).value, c).Executing? && ConnAt(After(spaces, acts).value, d).Executing?
    ensures c == d && After(spaces, acts).value.mode.Serving?
  {
    AlwaysInv(spaces, acts);
    var s := After(spaces, acts).value;
    assert s.runMu == Some(c) && s.runMu == Some(d);
    assert Live(ConnAt(s, c));
  }

  /** An answer is sent only after the request ran, exactly once, and left the queue file for good. */
  lemma {:induction false} AnswerComesLast(spaces: set<string>, acts: seq<Action>, c: nat)
    requires After(spaces, acts).Some? && ConnAt(After(spaces, acts).value, c).Answered?
    ensures var s := After(spaces, acts).value;
      s.executed[c] == 1 && forall w, e :: e in Disk(s, w) ==> e.request != c
  {
    AlwaysInv(spaces, acts);
    var s := After(spaces, acts).value;
    assert ConnRight(s, c);
    forall w, e | e in Disk(s, w) ensures e.request != c {
      assert EntryFiled(s, w, e);
    }
  }

  /** When serving begins every queue is empty and every request ever enqueued has run. */
  lemma {:induction false} ServingStartsEmpty(spaces: set<string>, acts: seq<Action>)
    requires After(spaces, acts + [Open]).Some?
    ensures var s := After(spaces, acts + [Open]).value;
      && (forall w :: Disk(s, w) == [])
      && (forall c :: c in s.filed ==> c in s.retired && s.executed[c] > 0)
  {
    assert (acts + [Open])[..|acts|] == acts;
    AlwaysInv(spaces, acts);
    AlwaysInv(spaces, acts + [Open]);
    var before := After(spaces, acts).value;
    var s := After(spaces, acts + [Open]).value;
    forall w ensures Disk(s, w) == [] {
      DiskOtherwise(spaces, before, Open, w);
    }
    forall c | c in s.filed ensures c in s.retired {
      assert c !in s.retired ==> OnDisk(s, c);
    }
  }

  /** A request runs at most once per start of the daemon, and a second time only if its connection was
      lost in a crash. */
  lemma {:induction false} RunsAgainOnlyAfterCrash(spaces: set<string>, acts: seq<Action>, c: nat)
    requires After(spaces, acts).Some?
    ensures var s := After(spaces, acts).value;
      s.executed[c] <= s.boots && (s.executed[c] > 1 ==> ConnAt(s, c).Lost? && c in s.conns)
  {
    AlwaysInv(spaces, acts);
    assert ConnRight(After(spaces, acts).value, c);
  }

  /** The replay cannot get stuck: one of its own steps is always possible ... */
  lemma {:induction false} ReplayMoves(spaces: set<string>, acts: seq<Action>)
    requires After(spaces, acts).Some? && After(spaces, acts).value.mode.Replaying?
    ensures exists a: Action :: Enabled(spaces, After(spaces, acts).value, a) && !a.Crash?
  {
    AlwaysInv(spaces, acts);
    var s := After(spaces, acts).value;
    if s.mode.batch == [] {
      if s.mode.todo == {} {
        assert Enabled(spaces, s, Open);
      } else {
        var w :| w in s.mode.todo;
        assert Enabled(spaces, s, PickQueue(w));
      }
    } else {
      var a := match s.mode.stage case Idle => ReplayStart case Busy => ReplayEnd case Done => ReplayDequeue;
      assert Enabled(spaces, s, a);
    }
  }

  function StepsLeft(stage: Stage): nat {
    match stage case Idle => 3 case Busy => 2 case Done => 1
  }

  /** ... and each of them leads to serving or brings the end nearer, so a start that is not cut short serves. */
  lemma {:induction false} ReplayEnds(spaces: set<string>, acts: seq<Action>, a: Action)
    requires After(spaces, acts).Some? && After(spaces, acts).value.mode.Replaying?
    requires Enabled(spaces, After(spaces, acts).value, a) && !a.Crash?
    ensures var m := After(spaces, acts).value.mode; var n := Apply(spaces, After(spaces, acts).value, a).mode;
      || n.Serving?
      || (n.Replaying?
        && (|m.todo|, |m.batch|, StepsLeft(m.stage) decreases to |n.todo|, |n.batch|, StepsLeft(n.stage)))
  {
    AlwaysInv(spaces, acts);
  }

  /** While serving, an unanswered connection can move itself or waits for one that can. */
  lemma {:induction false} ServingMoves(spaces: set<string>, acts: seq<Action>, c: nat)
    requires After(spaces, acts).Some? && Live(ConnAt(After(spaces, acts).value, c))
    ensures exists a: Action :: Enabled(spaces, After(spaces, acts).value, a) && !a.Crash? && !a.Arrive?
  {
    AlwaysInv(spaces, acts);
    var s := After(spaces, acts).value;
    var k := ConnAt(s, c);
    var a := match k
      case Received(_) => Action.Enqueue(c)
      case Queued(_, _) => if s.runMu.Some? then Finish(s.runMu.value) else Lock(c)
      case Executing(_, _) => Finish(c)
      case Executed(_, _) => Action.Dequeue(c)
      case _ => Answer(c);
    assert Enabled(spaces, s, a);
  }

  lemma {:induction false} AfterStep(spaces: set<string>, acts: seq<Action>, a: Action)
    requires After(spaces, acts).Some? && Enabled(spaces, After(spaces, acts).value, a)
    ensures After(spaces, acts + [a]) == Some(Apply(spaces, After(spaces, acts).value, a))
  {
    assert (acts + [a])[..|acts|] == acts;
  }

  /** One entry of the queue being replayed is run and taken off. */
  lemma {:induction false} ReplayOne(spaces: set<string>, acts: seq<Action>)
    requires After(spaces, acts).Some? && After(spaces, acts).value.mode.Replaying?
    requires After(spaces, acts).value.mode.batch != [] && After(spaces, acts).value.mode.stage.Idle?
    ensures var s := After(spaces, acts).value;
      var t := After(spaces, acts + [ReplayStart] + [ReplayEnd]);
      && t == Some(s.(mode := s.mode.(stage := Done), executed := s.executed + multiset{s.mode.batch[0].request}))
      && Enabled(spaces, t.value, ReplayDequeue)
  {
    AlwaysInv(spaces, acts);
    AfterStep(spaces, acts, ReplayStart);
    AfterStep(spaces, acts + [ReplayStart], ReplayEnd);
  }

  lemma {:induction false} ReplayPast(spaces: set<string>, acts: seq<Action>, k: nat)
    requires After(spaces, acts).Some? && After(spaces, acts).value.mode.Replaying?
    requires 0 < k < |After(spaces, acts).value.mode.batch| && After(spaces, acts).value.mode.stage.Idle?
    ensures var m := After(spaces, acts).value.mode; var c := m.batch[k].request;
      var t := After(spaces, acts + OneEntry());
      && t.Some? && t.value.mode == m.(batch := m.batch[1..])
      && t.value.executed[c] == After(spaces, acts).value.executed[c]
  {
    AlwaysInv(spaces, acts);
    BatchRequestsDiffer(spaces, After(spaces, acts).value);
    ReplayOne(spaces, acts);
    AfterStep(spaces, acts + [ReplayStart] + [ReplayEnd], ReplayDequeue);
    assert acts + OneEntry() == acts + [ReplayStart] + [ReplayEnd] + [ReplayDequeue];
  }

  lemma {:induction false} Joined(acts: seq<Action>, first: seq<Action>, rest: seq<Action>)
    ensures acts + first + rest == acts + (first + rest)
  {
  }

  /** The three steps of one entry. */
  function OneEntry(): seq<Action> {
    [ReplayStart] + [ReplayEnd] + [ReplayDequeue]
  }

  /** The schedule can go on in this way, and request c has run once more after it. */
  predicate Adds(spaces: set<string>, acts: seq<Action>, more: seq<Action>, c: nat) {
    && After(spaces, acts).Some? && After(spaces, acts + more).Some?
    && After(spaces, acts + more).value.executed[c] == After(spaces, acts).value.executed[c] + 1
  }

  /** The replay of a queue reaches every entry of it, and runs it once more. */
  lemma {:induction false} ReplayReaches(spaces: set<string>, acts: seq<Action>, k: nat) returns (more: seq<Action>)
    requires After(spaces, acts).Some? && After(spaces, acts).value.mode.Replaying?
    requires k < |After(spaces, acts).value.mode.batch| && After(spaces, acts).value.mode.stage.Idle?
    ensures Adds(spaces, acts, more, After(spaces, acts).value.mode.batch[k].request)
    decreases k
  {
    if k == 0 {
      ReplayOne(spaces, acts);
      more := [ReplayStart] + [ReplayEnd];
      Joined(acts, [ReplayStart], [ReplayEnd]);
    } else {
      ReplayPast(spaces, acts, k);
      var rest := ReplayReaches(spaces, acts + OneEntry(), k - 1);
      more := OneEntry() + rest;
      Joined(acts, OneEntry(), rest);
    }
  }

  /** A daemon can come down wherever it is ... */
  lemma {:induction false} ComesDown(spaces: set<string>, acts: seq<Action>) returns (more: seq<Action>)
    requires After(spaces, acts).Some?
    ensures After(spaces, acts + more).Some?
    ensures var s := After(spaces, acts).value; var t := After(spaces, acts + more).value;
      t.mode.Down? && t.disk == s.disk && t.executed == s.executed
  {
    if After(spaces, acts).value.mode.Down? {
      more := [];
      assert acts + more == acts;
    } else {
      more := [Crash];
      AfterStep(spaces, acts, Crash);
    }
  }

  /** ... and its next start can begin with any queue that is not empty. */
  lemma {:induction false} BeginsWith(spaces: set<string>, acts: seq<Action>, w: string)
    requires After(spaces, acts).Some? && After(spaces, acts).value.mode.Down?
    requires Disk(After(spaces, acts).value, w) != []
    ensures var s := After(spaces, acts).value;
      var t := After(spaces, acts + [Boot] + [PickQueue(w)]);
      && t.Some? && t.value.mode.Replaying? && t.value.mode.batch == Disk(s, w) && t.value.mode.stage.Idle?
      && t.value.executed == s.executed
  {
    AlwaysInv(spaces, acts);
    var s := After(spaces, acts).value;
    AfterStep(spaces, acts, Boot);
    assert w in spaces;
    AfterStep(spaces, acts + [Boot], PickQueue(w));
  }

  /** Whatever state the daemon is in, a request still on disk can be made to run once more by a crash. For one
      that ran already this is a second run: a request runs at least once, not exactly once. */
  lemma {:induction false} CrashRunsAgain(spaces: set<string>, acts: seq<Action>, c: nat)
    requires After(spaces, acts).Some? && c in After(spaces, acts).value.filed && OnDisk(After(spaces, acts).value, c)
    ensures exists more :: Adds(spaces, acts, more, c)
  {
    var s := After(spaces, acts).value;
    var w := s.filed[c].ws;
    var k :| 0 <= k < |Disk(s, w)| && Disk(s, w)[k] == EntryOf(s, c);
    var down := ComesDown(spaces, acts);
    BeginsWith(spaces, acts + down, w);
    var up := [Boot] + [PickQueue(w)];
    Joined(acts + down, [Boot], [PickQueue(w)]);
    var rest := ReplayReaches(spaces, acts + down + up, k);
    Joined(acts + down, up, rest);
    Joined(acts, down, up + rest);
    assert Adds(spaces, acts, down + (up + rest), c);
  }

  lemma {:induction false} RetiredStays(spaces: set<string>, s: State, a: Action, c: nat)
    requires Inv(spaces, s) && Enabled(spaces, s, a) && c in s.retired
    ensures c in Apply(spaces, s, a).retired && Apply(spaces, s, a).executed[c] == s.executed[c]
  {
    if a.Finish? {
      assert ConnRight(s, a.c);
    } else if a.ReplayEnd? {
      assert EntryFiled(s, s.mode.current.value, s.mode.batch[0]);
    }
  }

  /** Once off its queue, a request never runs again. */
  lemma {:induction false} RetiredForGood(spaces: set<string>, acts: seq<Action>, more: seq<Action>, c: nat)
    requires After(spaces, acts).Some? && c in After(spaces, acts).value.retired
    requires After(spaces, acts + more).Some?
    ensures c in After(spaces, acts + more).value.retired
    ensures After(spaces, acts + more).value.executed[c] == After(spaces, acts).value.executed[c]
    decreases |more|
  {
    if more == [] {
      assert acts + more == acts;
    } else {
      var but := more[..|more| - 1];
      assert (acts + more)[..|acts + more| - 1] == acts + but;
      RetiredForGood(spaces, acts, but, c);
      AlwaysInv(spaces, acts + but);
      RetiredStays(spaces, After(spaces, acts + but).value, more[|more| - 1], c);
    }
  }

  /** An enqueued request can run once more exactly until it is taken off its queue: between the end of its run and
      its removal there is no moment at which a crash does not repeat it, and after that none at which it does. */
  lemma {:induction false} RunsAgainExactly(spaces: set<string>, acts: seq<Action>, c: nat)
    requires After(spaces, acts).Some? && c in After(spaces, acts).value.filed
    ensures (exists more :: Adds(spaces, acts, more, c)) <==> c !in After(spaces, acts).value.retired
    ensures ConnAt(After(spaces, acts).value, c).Executed? ==> c !in After(spaces, acts).value.retired
  {
    AlwaysInv(spaces, acts);
    assert ConnRight(After(spaces, acts).value, c);
    if c !in After(spaces, acts).value.retired {
      CrashRunsAgain(spaces, acts, c);
    } else if more :| Adds(spaces, acts, more, c) {
      RetiredForGood(spaces, acts, more, c);
      assert false;
    }
  }

  /** A daemon with one workspace that serves one request: from its start until the request has run. */
  function ServedOnce(): seq<Action> {
    [Boot] + [PickQueue("w")] + [Open] + [Arrive(0, "w")] + [Action.Enqueue(0)] + [Lock(0)] + [Finish(0)]
  }

  /** The daemon goes down before it takes the request off the queue, and is started again. */
  function ServedTwice(): seq<Action> {
    ServedOnce() + [Crash] + [Boot] + [PickQueue("w")] + [ReplayStart] + [ReplayEnd]
  }

  lemma {:induction false} StartsServing()
    ensures var t := After({"w"}, [Boot] + [PickQueue("w")] + [Open]);
      && t.Some? && t.value.mode.Serving? && t.value.conns == map[] && t.value.executed == multiset{}
      && t.value.runMu.None? && Mem(t.value, "w").entries == []
  {
    var none: seq<Action> := [];
    assert none + [Boot] == [Boot];
    AfterStep({"w"}, none, Boot);
    AfterStep({"w"}, [Boot], PickQueue("w"));
    AfterStep({"w"}, [Boot] + [PickQueue("w")], Open);
  }

  lemma {:induction false} ServesOne()
    ensures var t := After({"w"}, ServedOnce());
      && t.Some? && t.value.mode.Serving? && t.value.executed == multiset{0}
      && |Disk(t.value, "w")| == 1 && Disk(t.value, "w")[0].request == 0
  {
    StartsServing();
    var first := [Boot] + [PickQueue("w")] + [Open];
    AfterStep({"w"}, first, Arrive(0, "w"));
    AfterStep({"w"}, first + [Arrive(0, "w")], Action.Enqueue(0));
    AfterStep({"w"}, first + [Arrive(0, "w")] + [Action.Enqueue(0)], Lock(0));
    AfterStep({"w"}, first + [Arrive(0, "w")] + [Action.Enqueue(0)] + [Lock(0)], Finish(0));
  }

  /** From the initial state: one request, one crash, two runs. */
  lemma {:induction false} RunsTwice()
    ensures After({"w"}, ServedOnce()).Some? && After({"w"}, ServedOnce()).value.executed == multiset{0}
    ensures After({"w"}, ServedTwice()).Some? && After({"w"}, ServedTwice()).value.executed == multiset{0, 0}
  {
    ServesOne();
    AfterStep({"w"}, ServedOnce(), Crash);
    AfterStep({"w"}, ServedOnce() + [Crash], Boot);
    AfterStep({"w"}, ServedOnce() + [Crash] + [Boot], PickQueue("w"));
    ReplayOne({"w"}, ServedOnce() + [Crash] + [Boot] + [PickQueue("w")]);
  }
}
