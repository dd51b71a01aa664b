/** The level-parallel run (internal/runner/runner.go) as a step system. */
module ParallelRun {
  // One main goroutine spawns a level and waits for it; one goroutine per target takes a slot, then its pool, then its
  // mutex, runs the body and lets go in the opposite order. Any schedule of the steps is a run.

  import opened Config
  import opened Dag
  import opened Levels
  import opened Trace

  /** What the runner reads of one target: its pool and mutex ("" for none), its number of steps,
      and whether it has a cache entry, a when guard, a container. */
  datatype Unit = Unit(pool: string, mutex: string, steps: nat, cached: bool, guarded: bool, contained: bool)

  datatype Plan = Plan(t: string, levels: seq<seq<string>>, maxParallel: nat, units: map<string, Unit>)

  function UnitOf(p: Plan, n: string): Unit {
    if n in p.units then p.units[n] else Unit("", "", 0, false, false, false)
  }

  function PoolOf(p: Plan, n: string): string {
    UnitOf(p, n).pool
  }

  function MutexOf(p: Plan, n: string): string {
    UnitOf(p, n).mutex
  }

  function StepCount(p: Plan, n: string): nat {
    UnitOf(p, n).steps
  }

  /** Where one target's goroutine stands. `ok` is what the body will return. */
  datatype Phase =
    | Unspawned
    | WantSlot
    | WantPool
    | WantMutex
    | Entered               // all locks held, nothing done
    | Deciding              // target_start written; guard and cache decision
    | Stepping(next: nat)   // before step next + 1
    | InStep(next: nat)     // inside step next + 1
    | Stopping              // a step failed
    | Unlocking(ok: bool)   // body over, mutex still held
    | Unpooling(ok: bool)   // mutex released, pool still held
    | Recording(slot: bool) // about to record the error
    | Unslotting(ok: bool)
    | Finished(ok: bool)

  predicate HoldsSlot(ph: Phase) {
    !ph.Unspawned? && !ph.WantSlot? && !ph.Finished? && (ph.Recording? ==> ph.slot)
  }

  predicate HoldsPool(ph: Phase) {
    ph.WantMutex? || HoldsMutex(ph) || ph.Unpooling?
  }

  predicate HoldsMutex(ph: Phase) {
    InBody(ph) || ph.Unlocking?
  }

  predicate InBody(ph: Phase) {
    ph.Entered? || ph.Deciding? || ph.Stepping? || ph.InStep? || ph.Stopping?
  }

  /** What the channels, mutexes and the error variable know: a count, the names whose
      one-place channel is full, the names that are locked, the first recorded failure. */
  datatype Shared = Shared(slotsUsed: nat, poolsFull: set<string>, locked: set<string>, firstErr: Option<string>)

  /** One atomic step of one target's goroutine. */
  datatype Move =
    | TakeSlot
    | GiveUpSlot
    | TakePool
    | GiveUpPool
    | TakeMutex
    | Begin
    | SkipWhen
    | SkipCached
    | FailEarly
    | Proceed
    | BeginStep
    | PassStep
    | EndStep(ok: bool)
    | EndBody(ok: bool, saved: bool)
    | Unlock
    | Unpool
    | Record
    | FreeSlot

  predicate CanMove(p: Plan, n: string, sh: Shared, cancelled: bool, ph: Phase, m: Move) {
    var u := UnitOf(p, n);
    match m
    case TakeSlot => ph.WantSlot? && sh.slotsUsed < p.maxParallel
    case GiveUpSlot => ph.WantSlot? && cancelled
    case TakePool => ph.WantPool? && (u.pool == "" || u.pool !in sh.poolsFull)
    case GiveUpPool => ph.WantPool? && u.pool != "" && cancelled
    case TakeMutex => ph.WantMutex? && (u.mutex == "" || u.mutex !in sh.locked)
    case Begin => ph.Entered?
    case SkipWhen => ph.Deciding? && u.guarded
    case SkipCached => ph.Deciding? && u.cached
    case FailEarly => ph.Deciding? && u.cached
    case Proceed => ph.Deciding?
    case BeginStep => ph.Stepping? && ph.next < u.steps && !u.contained
    case PassStep => ph.Stepping? && ph.next < u.steps
    case EndStep(_) => ph.InStep?
    case EndBody(ok, saved) =>
      && (saved || u.cached)
      && ((ph.Stepping? && (!ok || ph.next == u.steps || u.contained)) || (ph.Stopping? && !ok))
    case Unlock => ph.Unlocking?
    case Unpool => ph.Unpooling?
    case Record => ph.Recording?
    case FreeSlot => ph.Unslotting? && sh.slotsUsed > 0
  }

  function NextPhase(p: Plan, n: string, sh: Shared, cancelled: bool, ph: Phase, m: Move): Phase
    requires CanMove(p, n, sh, cancelled, ph, m)
  {
    match m
    case TakeSlot => WantPool
    case GiveUpSlot => Recording(false)
    case TakePool => WantMutex
    case GiveUpPool => Recording(true)
    case TakeMutex => Entered
    case Begin => Deciding
    case SkipWhen => Unlocking(true)
    case SkipCached => Unlocking(true)
    case FailEarly => Unlocking(false)
    case Proceed => Stepping(0)
    case BeginStep => InStep(ph.next)
    case PassStep => Stepping(ph.next + 1)
    case EndStep(ok) => if ok then Stepping(ph.next + 1) else Stopping
    case EndBody(ok, saved) => Unlocking(ok && saved)
    case Unlock => Unpooling(ph.ok)
    case Unpool => if ph.ok then Unslotting(true) else Recording(true)
    case Record => if ph.slot then Unslotting(false) else Finished(false)
    case FreeSlot => Finished(ph.ok)
  }

  function NextShared(p: Plan, n: string, sh: Shared, cancelled: bool, ph: Phase, m: Move): Shared
    requires CanMove(p, n, sh, cancelled, ph, m)
  {
    var u := UnitOf(p, n);
    match m
    case TakeSlot => sh.(slotsUsed := sh.slotsUsed + 1)
    case TakePool => if u.pool == "" then sh else sh.(poolsFull := sh.poolsFull + {u.pool})
    case TakeMutex => if u.mutex == "" then sh else sh.(locked := sh.locked + {u.mutex})
    case Unlock => if u.mutex == "" then sh else sh.(locked := sh.locked - {u.mutex})
    case Unpool => if u.pool == "" then sh else sh.(poolsFull := sh.poolsFull - {u.pool})
    case Record => if sh.firstErr.None? then sh.(firstErr := Some(n)) else sh
    case FreeSlot => sh.(slotsUsed := sh.slotsUsed - 1)
    case _ => sh
  }

  // ------------------------------------------------------------- what the world answers

  /** A step's command succeeded or failed, the step had nothing to run, or a placeholder in its words or
      its environment could not be expanded. */
  datatype StepOutcome = Succeeded | FailedStep | NothingToRun | NotExpanded

  predicate Fails(o: StepOutcome) {
    o.FailedStep? || o.NotExpanded?
  }

  /** What the outside world answers during one run: dotenv files, whether the wait for the requested target's
      pool is given up, whether the registry of networks and volumes can be made, guards, hashing, the cache,
      saving a manifest, expanding a target's environment, containers and step commands. */
  datatype World = World(
    dotenvOk: bool,
    abandoned: bool,
    docker: bool,
    guardHolds: string -> bool,
    hashFails: string -> bool,
    cacheHit: string -> bool,
    saves: string -> bool,
    envExpands: string -> bool,
    containerOk: string -> bool,
    step: (string, nat) -> StepOutcome)

  /** `registry` says whether the target was given the registry of networks and volumes, without which a step in a
      container is refused. */
  predicate StepsSucceed(w: World, u: Unit, n: string, registry: bool) {
    && w.envExpands(n)
    && if u.contained then registry && w.containerOk(n) else forall i :: 0 <= i < u.steps ==> !Fails(w.step(n, i))
  }

  /** Whether the body of a target returns without error. */
  predicate Succeeds(w: World, u: Unit, n: string, registry: bool) {
    if u.guarded && !w.guardHolds(n) then true
    else if !u.cached then StepsSucceed(w, u, n, registry)
    else !w.hashFails(n) && (w.cacheHit(n) || (StepsSucceed(w, u, n, registry) && w.saves(n)))
  }

  /** The guard and the cache let the steps run. */
  predicate GoesOn(w: World, u: Unit, n: string) {
    && (u.guarded ==> w.guardHolds(n))
    && (u.cached ==> !w.hashFails(n) && !w.cacheHit(n))
  }

  /** The steps are over: a step failed, the environment or a step does not expand, the container ran, or all ran. */
  predicate BodyOver(w: World, u: Unit, n: string, ph: Phase) {
    || ph.Stopping?
    || (ph.Stepping? && (!w.envExpands(n) || u.contained || ph.next == u.steps || w.step(n, ph.next).NotExpanded?))
  }

  predicate BodyWell(w: World, u: Unit, n: string, ph: Phase) {
    ph.Stepping? && w.envExpands(n) && if u.contained then w.docker && w.containerOk(n) else ph.next == u.steps
  }

  /** The move is the one that the answers of the world lead to. */
  predicate Agrees(w: World, u: Unit, n: string, ph: Phase, m: Move) {
    match m
    case SkipWhen => !w.guardHolds(n)
    case SkipCached => (u.guarded ==> w.guardHolds(n)) && !w.hashFails(n) && w.cacheHit(n)
    case FailEarly => (u.guarded ==> w.guardHolds(n)) && w.hashFails(n)
    case Proceed => GoesOn(w, u, n)
    case BeginStep =>
      ph.Stepping? && !BodyOver(w, u, n, ph) && (w.step(n, ph.next).Succeeded? || w.step(n, ph.next).FailedStep?)
    case PassStep => ph.Stepping? && !BodyOver(w, u, n, ph) && w.step(n, ph.next).NothingToRun?
    case EndStep(ok) => ph.InStep? && ok == w.step(n, ph.next).Succeeded?
    case EndBody(ok, saved) =>
      BodyOver(w, u, n, ph) && ok == BodyWell(w, u, n, ph) && saved == (ok && u.cached ==> w.saves(n))
    case _ => true
  }

  /** The event a move writes, if any; `next` counts steps from 0, events from 1. */
  function Written(n: string, ph: Phase, m: Move): seq<Event> {
    match m
    case Begin => [TargetStart(n)]
    case SkipWhen => [WhenSkip(n)]
    case SkipCached => [CacheSkip(n)]
    case FailEarly => [TargetEnd(n, false)]
    case BeginStep => if ph.Stepping? then [Trace.StepStart(n, ph.next + 1)] else []
    case EndStep(ok) => if ph.InStep? then [Trace.StepEnd(n, ph.next + 1, ok)] else []
    case EndBody(ok, _) => [TargetEnd(n, ok)]
    case _ => []
  }

  datatype Outcome = Running | Returned(err: Option<string>)

  datatype State = State(
    phase: map<string, Phase>,
    shared: Shared,
    cancelled: bool,
    level: nat,
    spawned: nat,
    outcome: Outcome,
    trace: seq<Event>)

  function At(s: State, n: string): Phase {
    if n in s.phase then s.phase[n] else Unspawned
  }

  function Init(p: Plan): State {
    State(map[], Shared(0, {}, {}, None), false, 0, 0, Running, [RunStart(p.t)])
  }

  datatype Action = Spawn | Join | Return | Cancel | Go(n: string, move: Move)

  predicate AllFinished(s: State, names: seq<string>) {
    forall n :: n in names ==> At(s, n).Finished?
  }

  predicate Enabled(p: Plan, s: State, a: Action) {
    match a
    case Spawn => s.outcome.Running? && s.level < |p.levels| && s.spawned < |p.levels[s.level]|
    case Join =>
      && s.outcome.Running? && s.level < |p.levels|
      && s.spawned == |p.levels[s.level]| && AllFinished(s, p.levels[s.level])
    case Return => s.outcome.Running? && s.level == |p.levels|
    case Cancel => !s.cancelled
    case Go(n, m) => n in s.phase && CanMove(p, n, s.shared, s.cancelled, s.phase[n], m)
  }

  function Apply(p: Plan, s: State, a: Action): State
    requires Enabled(p, s, a)
  {
    match a
    case Spawn => s.(phase := s.phase[p.levels[s.level][s.spawned] := WantSlot], spawned := s.spawned + 1)
    case Join =>
      if s.shared.firstErr.Some? then s.(outcome := Returned(s.shared.firstErr), trace := s.trace + [RunEnd(false)])
      else s.(level := s.level + 1, spawned := 0)
    case Return => s.(outcome := Returned(None), trace := s.trace + [RunEnd(true)])
    case Cancel => s.(cancelled := true)
    case Go(n, m) =>
      var ph := s.phase[n];
      s.(phase := s.phase[n := NextPhase(p, n, s.shared, s.cancelled, ph, m)],
         shared := NextShared(p, n, s.shared, s.cancelled, ph, m),
         trace := s.trace + Written(n, ph, m))
  }

  /** A step of a target is the one its world answers for; other steps ask the world nothing. */
  predicate Answered(p: Plan, s: State, w: World, a: Action) {
    a.Go? ==> Agrees(w, UnitOf(p, a.n), a.n, At(s, a.n), a.move)
  }

  /** The state after a schedule, if every step of it was enabled. */
  function After(p: Plan, acts: seq<Action>): Option<State> {
    if acts == [] then Some(Init(p))
    else
      var a := acts[|acts| - 1];
      match After(p, acts[..|acts| - 1])
      case None => None
      case Some(s) => if Enabled(p, s, a) then Some(Apply(p, s, a)) else None
  }

  lemma {:induction false} AfterStep(p: Plan, acts: seq<Action>, a: Action)
    requires After(p, acts).Some? && Enabled(p, After(p, acts).value, a)
    ensures After(p, acts + [a]) == Some(Apply(p, After(p, acts).value, a))
  {
    assert (acts + [a])[..|acts|] == acts;
  }

  // ------------------------------------------------------------- the invariants

  /** What LevelOrder gives on every graph, cyclic or not. */
  ghost predicate Planned(p: Plan) {
    && p.maxParallel > 1
    && (forall k, l, n :: 0 <= k < |p.levels| && 0 <= l < |p.levels| && n in p.levels[k] && n in p.levels[l] ==> k == l)
    && (forall k :: 0 <= k < |p.levels| ==> NoDuplicates(p.levels[k]))
  }

  /** Spawned names lie in the current or an earlier level, in order; earlier levels finished without error. */
  ghost predicate Staged(p: Plan, s: State) {
    && s.level <= |p.levels|
    && s.spawned <= (if s.level < |p.levels| then |p.levels[s.level]| else 0)
    && (forall n :: n in s.phase ==> SpawnedName(p, s, n))
    && (forall k, n :: 0 <= k < s.level && n in p.levels[k] ==> At(s, n) == Finished(true))
    && (forall i :: 0 <= i < s.spawned ==> p.levels[s.level][i] in s.phase)
    && (forall n :: n in s.phase ==> !s.phase[n].Unspawned?)
  }

  ghost predicate SpawnedName(p: Plan, s: State, n: string) {
    || BelowIn(p.levels, s.level, n)
    || (s.level < |p.levels| && s.spawned <= |p.levels[s.level]| && n in p.levels[s.level][..s.spawned])
  }

  ghost function SlotHolders(s: State): set<string> {
    set n | n in s.phase && HoldsSlot(s.phase[n])
  }

  ghost predicate SlotsCounted(p: Plan, s: State) {
    s.shared.slotsUsed == |SlotHolders(s)| <= p.maxParallel
  }

  ghost predicate PoolHeldBy(p: Plan, s: State, n: string, pool: string) {
    HoldsPool(At(s, n)) && PoolOf(p, n) == pool
  }

  ghost predicate PoolsExclusive(p: Plan, s: State) {
    && (forall q :: q in s.shared.poolsFull ==> q != "" && exists n :: PoolHeldBy(p, s, n, q))
    && (forall n :: HoldsPool(At(s, n)) && PoolOf(p, n) != "" ==> PoolOf(p, n) in s.shared.poolsFull)
    && (forall n, m :: HoldsPool(At(s, n)) && HoldsPool(At(s, m)) && PoolOf(p, n) == PoolOf(p, m) != "" ==> n == m)
  }

  ghost predicate MutexHeldBy(p: Plan, s: State, n: string, mutex: string) {
    HoldsMutex(At(s, n)) && MutexOf(p, n) == mutex
  }

  ghost predicate MutexesExclusive(p: Plan, s: State) {
    && (forall q :: q in s.shared.locked ==> q != "" && exists n :: MutexHeldBy(p, s, n, q))
    && (forall n :: HoldsMutex(At(s, n)) && MutexOf(p, n) != "" ==> MutexOf(p, n) in s.shared.locked)
    && (forall n, m :: HoldsMutex(At(s, n)) && HoldsMutex(At(s, m)) && MutexOf(p, n) == MutexOf(p, m) != "" ==> n == m)
  }

  ghost predicate StepBounded(p: Plan, n: string, ph: Phase) {
    && (ph.Stepping? ==> ph.next <= StepCount(p, n))
    && (ph.InStep? ==> ph.next < StepCount(p, n))
  }

  ghost predicate StepsBounded(p: Plan, s: State) {
    forall n :: StepBounded(p, n, At(s, n))
  }

  predicate FailedFor(ph: Phase) {
    ph == Finished(false) || ph == Unslotting(false)
  }

  ghost predicate ErrorsKnown(s: State) {
    && (forall n :: FailedFor(At(s, n)) ==> s.shared.firstErr.Some?)
    && (s.shared.firstErr.Some? ==> FailedFor(At(s, s.shared.firstErr.value)))
  }

  ghost predicate OutcomeRight(p: Plan, s: State) {
    match s.outcome
    case Running => true
    case Returned(None) => s.level == |p.levels| && s.shared.firstErr.None?
    case Returned(Some(e)) =>
      && s.level < |p.levels| && s.shared.firstErr == Some(e)
      && s.spawned == |p.levels[s.level]| && AllFinished(s, p.levels[s.level])
  }

  /** Where the automaton of a target's events stands when its goroutine is in a phase. */
  ghost predicate BracketFits(ph: Phase, b: Bracket) {
    match ph
    case Unspawned => b == Fresh
    case WantSlot => b == Fresh
    case WantPool => b == Fresh
    case WantMutex => b == Fresh
    case Entered => b == Fresh
    case Deciding => b == Open(0)
    case Stepping(i) => b.Open? && b.last <= i
    case InStep(i) => b == Inside(i + 1)
    case Stopping => b == Broken
    case Unlocking(_) => b == Closed
    case Unpooling(_) => b == Closed
    case Recording(slot) => b == Closed || b == Fresh
    case Unslotting(ok) => b == Closed || (!ok && b == Fresh)
    case Finished(ok) => b == Closed || (!ok && b == Fresh)
  }

  ghost predicate TraceFits(p: Plan, s: State) {
    && (forall n :: BracketFits(At(s, n), Scan(s.trace, n)))
    && (s.outcome.Running? ==> Begun(s.trace, p.t))
    && (s.outcome.Returned? ==> |s.trace| > 1 && Begun(s.trace[..|s.trace| - 1], p.t)
                                && s.trace[|s.trace| - 1] == RunEnd(s.outcome.err.None?))
  }

  ghost predicate Inv(p: Plan, s: State) {
    && Staged(p, s)
    && SlotsCounted(p, s)
    && PoolsExclusive(p, s)
    && MutexesExclusive(p, s)
    && StepsBounded(p, s)
    && ErrorsKnown(s)
    && OutcomeRight(p, s)
    && TraceFits(p, s)
  }

  // ------------------------------------------------------ every step keeps them

  /** A named lock is taken only when free, released only by its holder, and "" is no lock. */
  ghost predicate LockMoves(name: string, before: set<string>, after: set<string>, was: bool, now: bool) {
    if name == "" || was == now then after == before
    else if now then name !in before && after == before + {name}
    else after == before - {name}
  }

  /** What a move does to the shared variables, read off its two phases alone. */
  ghost predicate Accounted(p: Plan, n: string, sh: Shared, sh': Shared, was: Phase, now: Phase) {
    && sh'.slotsUsed == sh.slotsUsed + (if HoldsSlot(now) then 1 else 0) - (if HoldsSlot(was) then 1 else 0)
    && (HoldsSlot(now) && !HoldsSlot(was) ==> sh.slotsUsed < p.maxParallel)
    && LockMoves(PoolOf(p, n), sh.poolsFull, sh'.poolsFull, HoldsPool(was), HoldsPool(now))
    && LockMoves(MutexOf(p, n), sh.locked, sh'.locked, HoldsMutex(was), HoldsMutex(now))
    && sh'.firstErr == (if was.Recording? && sh.firstErr.None? then Some(n) else sh.firstErr)
  }

  ghost predicate LifeGoesOn(p: Plan, n: string, was: Phase, now: Phase) {
    && (FailedFor(now) <==> was.Recording? || FailedFor(was))
    && !was.Unspawned? && !was.Finished? && !now.Unspawned?
    && StepBounded(p, n, now)
    && Rank(p, n, now) < Rank(p, n, was)
  }

  /** How much of its life a goroutine has left. */
  function Rank(p: Plan, n: string, ph: Phase): nat {
    var k := StepCount(p, n);
    match ph
    case Unspawned => 2 * k + 12
    case WantSlot => 2 * k + 11
    case WantPool => 2 * k + 10
    case WantMutex => 2 * k + 9
    case Entered => 2 * k + 8
    case Deciding => 2 * k + 7
    case Stepping(i) => if i <= k then 6 + 2 * (k - i) else 6
    case InStep(i) => if i < k then 5 + 2 * (k - i) else 6
    case Stopping => 5
    case Unlocking(_) => 4
    case Unpooling(_) => 3
    case Recording(_) => 2
    case Unslotting(_) => 1
    case Finished(_) => 0
  }

  lemma {:induction false} MoveAccounted(p: Plan, n: string, sh: Shared, cancelled: bool, ph: Phase, m: Move)
    requires CanMove(p, n, sh, cancelled, ph, m)
    ensures Accounted(p, n, sh, NextShared(p, n, sh, cancelled, ph, m), ph, NextPhase(p, n, sh, cancelled, ph, m))
  {
  }

  lemma {:induction false} MoveLives(p: Plan, n: string, sh: Shared, cancelled: bool, ph: Phase, m: Move)
    requires CanMove(p, n, sh, cancelled, ph, m) && StepBounded(p, n, ph)
    ensures LifeGoesOn(p, n, ph, NextPhase(p, n, sh, cancelled, ph, m))
  {
    MoveRanks(p, n, sh, cancelled, ph, m);
  }

  lemma {:induction false} MoveRanks(p: Plan, n: string, sh: Shared, cancelled: bool, ph: Phase, m: Move)
    requires CanMove(p, n, sh, cancelled, ph, m) && StepBounded(p, n, ph)
    ensures Rank(p, n, NextPhase(p, n, sh, cancelled, ph, m)) < Rank(p, n, ph)
  {
  }

  lemma {:induction false} MoveWrites(p: Plan, n: string, sh: Shared, cancelled: bool, ph: Phase, m: Move,
                                      trace: seq<Event>)
    requires CanMove(p, n, sh, cancelled, ph, m) && BracketFits(ph, Scan(trace, n))
    ensures BracketFits(NextPhase(p, n, sh, cancelled, ph, m), Scan(trace + Written(n, ph, m), n))
    ensures forall x :: x != n ==> Scan(trace + Written(n, ph, m), x) == Scan(trace, x)
  {
    var w := Written(n, ph, m);
    if w == [] {
      assert trace + w == trace;
    } else {
      assert w == [w[0]];
      ScanAppend(trace, w[0], n);
      forall x | x != n ensures Scan(trace + w, x) == Scan(trace, x) {
        ScanAppend(trace, w[0], x);
      }
    }
  }

  /** A goroutine's step, with the name and the two phases made explicit. */
  ghost predicate Moved(p: Plan, s: State, s': State, n: string) {
    && n in s.phase && n in s'.phase && s'.phase == s.phase[n := s'.phase[n]]
    && s'.cancelled == s.cancelled && s'.level == s.level && s'.spawned == s.spawned && s'.outcome == s.outcome
    && Accounted(p, n, s.shared, s'.shared, s.phase[n], s'.phase[n])
    && LifeGoesOn(p, n, s.phase[n], s'.phase[n])
  }

  lemma {:induction false} GoMoves(p: Plan, s: State, n: string, m: Move)
    requires StepsBounded(p, s) && Enabled(p, s, Go(n, m))
    ensures Moved(p, s, Apply(p, s, Go(n, m)), n)
  {
    assert StepBounded(p, n, At(s, n));
    MoveAccounted(p, n, s.shared, s.cancelled, s.phase[n], m);
    MoveLives(p, n, s.shared, s.cancelled, s.phase[n], m);
  }

  lemma {:induction false} MovedStaged(p: Plan, s: State, s': State, n: string)
    requires Staged(p, s) && Moved(p, s, s', n)
    ensures Staged(p, s')
  {
    forall x | x in s'.phase ensures SpawnedName(p, s', x) {
      assert x in s.phase && SpawnedName(p, s, x);
    }
    forall k, x | 0 <= k < s'.level && x in p.levels[k] ensures At(s', x) == Finished(true) {
      assert At(s, x) == Finished(true);
    }
  }

  lemma {:induction false} MovedSlots(p: Plan, s: State, s': State, n: string)
    requires SlotsCounted(p, s) && Moved(p, s, s', n)
    ensures SlotsCounted(p, s')
  {
    var before, after := SlotHolders(s), SlotHolders(s');
    if HoldsSlot(s'.phase[n]) == HoldsSlot(s.phase[n]) {
      assert after == before;
    } else if HoldsSlot(s'.phase[n]) {
      assert after == before + {n} && n !in before;
    } else {
      assert after == before - {n} && n in before;
    }
  }

  lemma {:induction false} MovedPools(p: Plan, s: State, s': State, n: string)
    requires PoolsExclusive(p, s) && Moved(p, s, s', n)
    ensures PoolsExclusive(p, s')
  {
    forall q | q in s'.shared.poolsFull ensures q != "" && exists x :: PoolHeldBy(p, s', x, q) {
      if q in s.shared.poolsFull {
        var x :| PoolHeldBy(p, s, x, q);
        assert PoolHeldBy(p, s', x, q);
      } else {
        assert PoolHeldBy(p, s', n, q);
      }
    }
  }

  lemma {:induction false} MovedMutexes(p: Plan, s: State, s': State, n: string)
    requires MutexesExclusive(p, s) && Moved(p, s, s', n)
    ensures MutexesExclusive(p, s')
  {
    forall q | q in s'.shared.locked ensures q != "" && exists x :: MutexHeldBy(p, s', x, q) {
      if q in s.shared.locked {
        var x :| MutexHeldBy(p, s, x, q);
        assert MutexHeldBy(p, s', x, q);
      } else {
        assert MutexHeldBy(p, s', n, q);
      }
    }
  }

  lemma {:induction false} MovedErrors(p: Plan, s: State, s': State, n: string)
    requires ErrorsKnown(s) && Moved(p, s, s', n)
    ensures ErrorsKnown(s')
  {
    forall x | FailedFor(At(s', x)) ensures s'.shared.firstErr.Some? {
      assert FailedFor(At(s, x)) || s.phase[n].Recording?;
    }
  }

  lemma {:induction false} GoTrace(p: Plan, s: State, n: string, m: Move)
    requires TraceFits(p, s) && Enabled(p, s, Go(n, m)) && s.outcome.Running?
    ensures TraceFits(p, Apply(p, s, Go(n, m)))
  {
    var s' := Apply(p, s, Go(n, m));
    assert BracketFits(At(s, n), Scan(s.trace, n));
    MoveWrites(p, n, s.shared, s.cancelled, s.phase[n], m, s.trace);
    forall x ensures BracketFits(At(s', x), Scan(s'.trace, x)) {
      assert BracketFits(At(s, x), Scan(s.trace, x));
    }
  }

  /** Once the run has returned no goroutine is left to move. */
  lemma {:induction false} NoMoveAfterReturn(p: Plan, s: State, n: string, m: Move)
    requires Staged(p, s) && OutcomeRight(p, s) && s.outcome.Returned?
    ensures !Enabled(p, s, Go(n, m))
  {
    if n in s.phase {
      assert SpawnedName(p, s, n);
      if BelowIn(p.levels, s.level, n) {
        assert At(s, n) == Finished(true);
      } else {
        assert n in p.levels[s.level];
      }
    }
  }

  lemma {:induction false} GoKeeps(p: Plan, s: State, n: string, m: Move)
    requires Inv(p, s) && Enabled(p, s, Go(n, m))
    ensures Inv(p, Apply(p, s, Go(n, m)))
  {
    var s' := Apply(p, s, Go(n, m));
    if s.outcome.Returned? {
      NoMoveAfterReturn(p, s, n, m);
    }
    GoMoves(p, s, n, m);
    MovedStaged(p, s, s', n);
    MovedSlots(p, s, s', n);
    MovedPools(p, s, s', n);
    MovedMutexes(p, s, s', n);
    MovedErrors(p, s, s', n);
    GoTrace(p, s, n, m);
    forall x ensures StepBounded(p, x, At(s', x)) {
      assert StepBounded(p, x, At(s, x));
    }
  }

  lemma {:induction false} SpawnIsNew(p: Plan, s: State)
    requires Planned(p) && Staged(p, s) && Enabled(p, s, Spawn)
    ensures p.levels[s.level][s.spawned] !in s.phase
  {
    var n := p.levels[s.level][s.spawned];
    assert n in p.levels[s.level];
    assert !BelowIn(p.levels, s.level, n);
    assert n !in p.levels[s.level][..s.spawned] by {
      assert NoDuplicates(p.levels[s.level]);
    }
    assert n in s.phase ==> SpawnedName(p, s, n);
  }

  lemma {:induction false} SpawnKeeps(p: Plan, s: State)
    requires Planned(p) && Inv(p, s) && Enabled(p, s, Spawn)
    ensures Inv(p, Apply(p, s, Spawn))
  {
    var s' := Apply(p, s, Spawn);
    var n := p.levels[s.level][s.spawned];
    SpawnIsNew(p, s);
    var level := p.levels[s.level];
    assert level[..s'.spawned] == level[..s.spawned] + [n];
    SpawnStaged(p, s);
    assert SlotHolders(s') == SlotHolders(s);
    SpawnPools(p, s);
    SpawnMutexes(p, s);
    SpawnElsewhere(p, s);
  }

  /** A new goroutine has written nothing, holds nothing and has not failed. */
  lemma {:induction false} SpawnElsewhere(p: Plan, s: State)
    requires Enabled(p, s, Spawn) && p.levels[s.level][s.spawned] !in s.phase
    requires StepsBounded(p, s) && ErrorsKnown(s) && TraceFits(p, s)
    ensures var s' := Apply(p, s, Spawn); StepsBounded(p, s') && ErrorsKnown(s') && TraceFits(p, s')
  {
    var s' := Apply(p, s, Spawn);
    forall x ensures StepBounded(p, x, At(s', x)) && BracketFits(At(s', x), Scan(s'.trace, x)) {
      assert StepBounded(p, x, At(s, x)) && BracketFits(At(s, x), Scan(s.trace, x));
    }
    assert forall x :: FailedFor(At(s', x)) ==> FailedFor(At(s, x));
  }

  lemma {:induction false} SpawnStaged(p: Plan, s: State)
    requires Planned(p) && Staged(p, s) && Enabled(p, s, Spawn)
    ensures Staged(p, Apply(p, s, Spawn))
  {
    var s' := Apply(p, s, Spawn);
    var level := p.levels[s.level];
    SpawnIsNew(p, s);
    assert level[..s'.spawned] == level[..s.spawned] + [level[s.spawned]];
    forall x | x in s'.phase ensures SpawnedName(p, s', x) {
      if x in s.phase {
        assert SpawnedName(p, s, x);
      }
    }
    forall k, x | 0 <= k < s'.level && x in p.levels[k] ensures At(s', x) == Finished(true) {
      assert At(s, x) == Finished(true);
    }
  }

  lemma {:induction false} SpawnPools(p: Plan, s: State)
    requires PoolsExclusive(p, s) && Enabled(p, s, Spawn) && p.levels[s.level][s.spawned] !in s.phase
    ensures PoolsExclusive(p, Apply(p, s, Spawn))
  {
    var s' := Apply(p, s, Spawn);
    forall q | q in s'.shared.poolsFull ensures q != "" && exists x :: PoolHeldBy(p, s', x, q) {
      var x :| PoolHeldBy(p, s, x, q);
      assert PoolHeldBy(p, s', x, q);
    }
  }

  lemma {:induction false} SpawnMutexes(p: Plan, s: State)
    requires MutexesExclusive(p, s) && Enabled(p, s, Spawn) && p.levels[s.level][s.spawned] !in s.phase
    ensures MutexesExclusive(p, Apply(p, s, Spawn))
  {
    var s' := Apply(p, s, Spawn);
    forall q | q in s'.shared.locked ensures q != "" && exists x :: MutexHeldBy(p, s', x, q) {
      var x :| MutexHeldBy(p, s, x, q);
      assert MutexHeldBy(p, s', x, q);
    }
  }

  /** Steps that change no phase and no lock. */
  lemma {:induction false} LocksUntouched(p: Plan, s: State, s': State)
    requires s'.phase == s.phase && s'.shared == s.shared
    requires PoolsExclusive(p, s) && MutexesExclusive(p, s)
    ensures PoolsExclusive(p, s') && MutexesExclusive(p, s')
  {
    forall q | q in s'.shared.poolsFull ensures q != "" && exists x :: PoolHeldBy(p, s', x, q) {
      var x :| PoolHeldBy(p, s, x, q);
      assert PoolHeldBy(p, s', x, q);
    }
    forall q | q in s'.shared.locked ensures q != "" && exists x :: MutexHeldBy(p, s', x, q) {
      var x :| MutexHeldBy(p, s, x, q);
      assert MutexHeldBy(p, s', x, q);
    }
  }

  lemma {:induction false} RunEndWritten(p: Plan, s: State, s': State)
    requires TraceFits(p, s) && s.outcome.Running? && s'.outcome.Returned?
    requires s'.phase == s.phase && s'.trace == s.trace + [RunEnd(s'.outcome.err.None?)]
    ensures TraceFits(p, s')
  {
    forall x ensures BracketFits(At(s', x), Scan(s'.trace, x)) {
      assert BracketFits(At(s, x), Scan(s.trace, x));
      ScanAppend(s.trace, RunEnd(s'.outcome.err.None?), x);
    }
    assert s'.trace[..|s'.trace| - 1] == s.trace;
  }

  lemma {:induction false} JoinStaged(p: Plan, s: State)
    requires Staged(p, s) && ErrorsKnown(s) && Enabled(p, s, Join) && s.shared.firstErr.None?
    ensures Staged(p, Apply(p, s, Join))
  {
    var s' := Apply(p, s, Join);
    forall k, x | 0 <= k < s'.level && x in p.levels[k] ensures At(s', x) == Finished(true) {
      if k == s.level {
        assert At(s, x).Finished? && !FailedFor(At(s, x));
      } else {
        assert At(s, x) == Finished(true);
      }
    }
    forall x | x in s'.phase ensures SpawnedName(p, s', x) {
      assert SpawnedName(p, s, x);
      if BelowIn(p.levels, s.level, x) {
        var l :| 0 <= l < s.level && l < |p.levels| && x in p.levels[l];
        assert l < s'.level;
      } else {
        assert x in p.levels[s.level];
      }
    }
  }

  /** The parts of the invariant that speak of phases, locks and errors only. */
  lemma {:induction false} PhasesUntouched(p: Plan, s: State, s': State)
    requires s'.phase == s.phase && s'.shared == s.shared && s'.level == s.level && s'.spawned == s.spawned
    requires Staged(p, s) && SlotsCounted(p, s) && StepsBounded(p, s) && ErrorsKnown(s)
    ensures Staged(p, s') && SlotsCounted(p, s') && StepsBounded(p, s') && ErrorsKnown(s')
  {
    assert SlotHolders(s') == SlotHolders(s);
    forall x ensures StepBounded(p, x, At(s', x)) {
      assert StepBounded(p, x, At(s, x));
    }
    forall x | FailedFor(At(s', x)) ensures s'.shared.firstErr.Some? {
      assert FailedFor(At(s, x));
    }
    forall x | x in s'.phase ensures SpawnedName(p, s', x) {
      assert SpawnedName(p, s, x);
    }
    forall k, x | 0 <= k < s'.level && x in p.levels[k] ensures At(s', x) == Finished(true) {
      assert At(s, x) == Finished(true);
    }
  }

  lemma {:induction false} TraceUntouched(p: Plan, s: State, s': State)
    requires s'.phase == s.phase && s'.trace == s.trace && s'.outcome == s.outcome && TraceFits(p, s)
    ensures TraceFits(p, s')
  {
    forall x ensures BracketFits(At(s', x), Scan(s'.trace, x)) {
      assert BracketFits(At(s, x), Scan(s.trace, x));
    }
  }

  lemma {:induction false} ReturnKeeps(p: Plan, s: State)
    requires Inv(p, s) && Enabled(p, s, Return)
    ensures Inv(p, Apply(p, s, Return))
  {
    var s' := Apply(p, s, Return);
    forall x ensures !FailedFor(At(s, x)) {
      if x in s.phase {
        assert SpawnedName(p, s, x);
      }
    }
    PhasesUntouched(p, s, s');
    LocksUntouched(p, s, s');
    RunEndWritten(p, s, s');
  }

  lemma {:induction false} JoinKeeps(p: Plan, s: State)
    requires Inv(p, s) && Enabled(p, s, Join)
    ensures Inv(p, Apply(p, s, Join))
  {
    if s.shared.firstErr.Some? {
      JoinFails(p, s);
    } else {
      JoinAdvances(p, s);
    }
  }

  lemma {:induction false} JoinFails(p: Plan, s: State)
    requires Inv(p, s) && Enabled(p, s, Join) && s.shared.firstErr.Some?
    ensures Inv(p, Apply(p, s, Join))
  {
    var s' := Apply(p, s, Join);
    LocksUntouched(p, s, s');
    PhasesUntouched(p, s, s');
    RunEndWritten(p, s, s');
    assert forall x :: At(s', x) == At(s, x);
  }

  lemma {:induction false} JoinAdvances(p: Plan, s: State)
    requires Inv(p, s) && Enabled(p, s, Join) && s.shared.firstErr.None?
    ensures Inv(p, Apply(p, s, Join))
  {
    var s' := Apply(p, s, Join);
    LocksUntouched(p, s, s');
    JoinStaged(p, s);
    TraceUntouched(p, s, s');
    assert SlotHolders(s') == SlotHolders(s);
    forall x ensures StepBounded(p, x, At(s', x)) && !FailedFor(At(s', x)) {
      assert StepBounded(p, x, At(s, x)) && !FailedFor(At(s, x));
    }
  }

  lemma {:induction false} CancelKeeps(p: Plan, s: State)
    requires Inv(p, s) && Enabled(p, s, Cancel)
    ensures Inv(p, Apply(p, s, Cancel))
  {
    var s' := Apply(p, s, Cancel);
    PhasesUntouched(p, s, s');
    LocksUntouched(p, s, s');
    TraceUntouched(p, s, s');
    assert forall x :: At(s', x) == At(s, x);
  }

  lemma {:induction false} StepKeeps(p: Plan, s: State, a: Action)
    requires Planned(p) && Inv(p, s) && Enabled(p, s, a)
    ensures Inv(p, Apply(p, s, a))
  {
    if a.Go? {
      GoKeeps(p, s, a.n, a.move);
    } else if a.Spawn? {
      SpawnKeeps(p, s);
    } else if a.Join? {
      JoinKeeps(p, s);
    } else if a.Return? {
      ReturnKeeps(p, s);
    } else {
      CancelKeeps(p, s);
    }
  }

  lemma {:induction false} InitInv(p: Plan)
    ensures Inv(p, Init(p))
  {
    var s := Init(p);
    assert SlotHolders(s) == {};
    forall n ensures Scan(s.trace, n) == Fresh {
      ScanAppend([], RunStart(p.t), n);
      assert [] + s.trace == s.trace;
    }
  }

  /** The invariant holds after every schedule. */
  lemma {:induction false} AlwaysInv(p: Plan, acts: seq<Action>)
    requires Planned(p) && After(p, acts).Some?
    ensures Inv(p, After(p, acts).value)
    decreases |acts|
  {
    if acts == [] {
      InitInv(p);
    } else {
      AlwaysInv(p, acts[..|acts| - 1]);
      StepKeeps(p, After(p, acts[..|acts| - 1]).value, acts[|acts| - 1]);
    }
  }
}
