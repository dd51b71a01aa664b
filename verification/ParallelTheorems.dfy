/** What every run of the parallel runner guarantees. */
module ParallelTheorems {
  // Over all schedules of the step system and on any graph.

  import opened Config
  import opened Dag
  import opened Levels
  import opened Trace
  import opened ParallelRun

  // ------------------------------------------------------- the plan of a graph

  function UnitFor(t: Target, presetSteps: nat): Unit {
    Unit(t.pool, t.mutex, if presetSteps > 0 then presetSteps else |t.steps|,
         t.inputs != [] && t.outputs != [], t.whenCmd != [] || t.whenEnv != "", t.image != "" && !t.unsafe)
  }

  /** The plan the runner makes for target `t`; `presetSteps` is the number of steps of the
      chosen preset, which replace the steps of the requested target when there are any. */
  function PlanFor(g: seq<Target>, t: string, maxParallel: nat, presetSteps: nat): Plan
    requires LevelsOf(g, t).Leveled?
  {
    Plan(t, LevelsOf(g, t).levels, maxParallel,
         map n | n in Names(g) && TargetByName(g, n).Some? ::
           UnitFor(TargetByName(g, n).value, if n == t then presetSteps else 0))
  }

  lemma {:induction false} PlanIsPlanned(g: seq<Target>, t: string, maxParallel: nat, presetSteps: nat)
    requires LevelsOf(g, t).Leveled? && maxParallel > 1
    ensures Planned(PlanFor(g, t, maxParallel, presetSteps))
  {
    TopoOrderSound(g, t);
    GroupedPartition(OrderOf(g, t).names, LevelMapOf(g, OrderOf(g, t).names));
  }

  // ------------------------------------------------------------ mutual exclusion

  /** In every reachable state at most MaxParallel targets hold a slot, and two targets inside
      their bodies share neither a pool nor a mutex. */
  lemma {:induction false} MutualExclusion(p: Plan, acts: seq<Action>, n: string, m: string)
    requires Planned(p) && After(p, acts).Some?
    ensures var s := After(p, acts).value;
            && |SlotHolders(s)| <= p.maxParallel
            && (InBody(At(s, n)) ==> n in SlotHolders(s))
            && (InBody(At(s, n)) && InBody(At(s, m)) && n != m ==>
                  && (PoolOf(p, n) == "" || PoolOf(p, n) != PoolOf(p, m))
                  && (MutexOf(p, n) == "" || MutexOf(p, n) != MutexOf(p, m)))
  {
    AlwaysInv(p, acts);
  }

  // ------------------------------------------------------------ dependency order

  /** Once a target's goroutine exists, each of its dependencies has finished without error. */
  lemma {:induction false} DepsFinishFirst(g: seq<Target>, p: Plan, acts: seq<Action>, n: string, d: string)
    requires Planned(p) && Layered(g, p.t, p.levels) && After(p, acts).Some?
    requires n in After(p, acts).value.phase && Edge(g, n, d)
    ensures At(After(p, acts).value, d) == Finished(true)
  {
    AlwaysInv(p, acts);
    var s := After(p, acts).value;
    assert SpawnedName(p, s, n);
    var k: nat :| k < |p.levels| && k <= s.level && n in p.levels[k];
    assert BelowIn(p.levels, k, d);
  }

  /** The event before which every dependency has closed. */
  ghost predicate StartsAfterDeps(g: seq<Target>, trace: seq<Event>) {
    forall i, d :: 0 <= i < |trace| && trace[i].TargetStart? && Edge(g, trace[i].target, d) ==>
                     Scan(trace[..i], d) == Closed
  }

  lemma {:induction false} WrittenStarts(p: Plan, s: State, n: string, m: Move)
    requires Enabled(p, s, Go(n, m))
    ensures var w := Written(n, s.phase[n], m);
            w == [] || (|w| == 1 && (w[0].TargetStart? ==> w[0].target == n))
  {
  }

  /** In every run the events of all dependencies are complete before a target starts. */
  lemma {:induction false} TraceRespectsDeps(g: seq<Target>, p: Plan, acts: seq<Action>)
    requires Planned(p) && Layered(g, p.t, p.levels) && After(p, acts).Some?
    ensures StartsAfterDeps(g, After(p, acts).value.trace)
    decreases |acts|
  {
    if acts != [] {
      var before := acts[..|acts| - 1];
      var a := acts[|acts| - 1];
      TraceRespectsDeps(g, p, before);
      AlwaysInv(p, before);
      var s, s' := After(p, before).value, After(p, acts).value;
      if a.Go? {
        WrittenStarts(p, s, a.n, a.move);
        forall d | Edge(g, a.n, d) ensures Scan(s.trace, d) == Closed {
          DepsFinishFirst(g, p, before, a.n, d);
          assert BracketFits(At(s, d), Scan(s.trace, d));
        }
      }
      GrownTrace(g, s.trace, s'.trace);
    }
  }

  lemma {:induction false} GrownTrace(g: seq<Target>, before: seq<Event>, after: seq<Event>)
    requires StartsAfterDeps(g, before)
    requires after == before || (|after| == |before| + 1 && after[..|before|] == before)
    requires |after| > |before| && after[|before|].TargetStart? ==>
               forall d :: Edge(g, after[|before|].target, d) ==> Scan(before, d) == Closed
    ensures StartsAfterDeps(g, after)
  {
    forall i, d | 0 <= i < |after| && after[i].TargetStart? && Edge(g, after[i].target, d)
      ensures Scan(after[..i], d) == Closed
    {
      if i < |before| {
        assert after[..i] == before[..i] && after[i] == before[i];
      } else {
        assert after[..i] == before;
      }
    }
  }

  // --------------------------------------------------------------- error and result

  /** No target of a later level has a goroutine while or after an error stops the run. */
  lemma {:induction false} NoLaterLevelAfterError(p: Plan, acts: seq<Action>, k: nat, n: string)
    requires Planned(p) && After(p, acts).Some?
    requires After(p, acts).value.shared.firstErr.Some?
    requires After(p, acts).value.level < k < |p.levels| && n in p.levels[k]
    ensures n !in After(p, acts).value.phase
    ensures forall more :: After(p, acts + more).Some? ==>
      After(p, acts + more).value.level == After(p, acts).value.level
  {
    AlwaysInv(p, acts);
    var s := After(p, acts).value;
    assert n in s.phase ==> SpawnedName(p, s, n);
    forall more | After(p, acts + more).Some? ensures After(p, acts + more).value.level == s.level {
      ErrorFreezesLevel(p, acts, more);
    }
  }

  lemma {:induction false} ErrorFreezesLevel(p: Plan, acts: seq<Action>, more: seq<Action>)
    requires After(p, acts).Some? && After(p, acts + more).Some? && After(p, acts).value.shared.firstErr.Some?
    ensures After(p, acts + more).value.level == After(p, acts).value.level
    ensures After(p, acts + more).value.shared.firstErr == After(p, acts).value.shared.firstErr
    decreases |more|
  {
    if more == [] {
      assert acts + more == acts;
    } else {
      var all := acts + more;
      assert all[..|all| - 1] == acts + more[..|more| - 1];
      ErrorFreezesLevel(p, acts, more[..|more| - 1]);
      ErrorSticks(p, After(p, all[..|all| - 1]).value, all[|all| - 1]);
    }
  }

  lemma {:induction false} ErrorSticks(p: Plan, s: State, a: Action)
    requires Enabled(p, s, a) && s.shared.firstErr.Some?
    ensures Apply(p, s, a).level == s.level && Apply(p, s, a).shared.firstErr == s.shared.firstErr
  {
  }

  /** The names the run is to execute. */
  ghost predicate Member(p: Plan, n: string) {
    BelowIn(p.levels, |p.levels|, n)
  }

  /** A run that has returned: nil exactly when every target finished without error, and then
      each has exactly one complete bracket of events; otherwise the error it returns belongs to
      a target that failed. */
  lemma {:induction false} ResultMeansAllSucceeded(p: Plan, acts: seq<Action>)
    requires Planned(p) && After(p, acts).Some? && After(p, acts).value.outcome.Returned?
    ensures var s := After(p, acts).value;
            && (s.outcome.err.None? <==> forall n :: Member(p, n) ==> At(s, n) == Finished(true))
            && (s.outcome.err.None? ==> forall n :: Member(p, n) ==> BracketSomewhere(s.trace, n))
            && (s.outcome.err.Some? ==> At(s, s.outcome.err.value) == Finished(false))
  {
    AlwaysInv(p, acts);
    var s := After(p, acts).value;
    if s.outcome.err.None? {
      forall n | Member(p, n) ensures At(s, n) == Finished(true) && BracketSomewhere(s.trace, n) {
        assert BracketFits(At(s, n), Scan(s.trace, n));
        ScanMeaning(s.trace, n);
      }
    } else {
      var n := s.outcome.err.value;
      assert FailedFor(At(s, n));
      assert SpawnedName(p, s, n);
      assert Member(p, n);
    }
  }

  /** On any graph the walk accepts, cyclic or not: Run returns nil exactly when every reachable
      target finished without error, each with exactly one bracket of events. */
  lemma {:induction false} RunReturnsNilExactly(g: seq<Target>, t: string, maxParallel: nat, presetSteps: nat,
                                                acts: seq<Action>)
    requires maxParallel > 1
    requires LevelsOf(g, t).Leveled? && After(PlanFor(g, t, maxParallel, presetSteps), acts).Some?
    requires After(PlanFor(g, t, maxParallel, presetSteps), acts).value.outcome.Returned?
    ensures var s := After(PlanFor(g, t, maxParallel, presetSteps), acts).value;
            s.outcome.err.None? <==>
            forall n :: Reaches(g, t, n) ==> At(s, n) == Finished(true) && BracketSomewhere(s.trace, n)
  {
    var p := PlanFor(g, t, maxParallel, presetSteps);
    TopoOrderSound(g, t);
    GroupedPartition(OrderOf(g, t).names, LevelMapOf(g, OrderOf(g, t).names));
    PlanIsPlanned(g, t, maxParallel, presetSteps);
    ResultMeansAllSucceeded(p, acts);
    assert forall n :: Reaches(g, t, n) <==> Member(p, n);
  }

  /** Every finished run, in every interleaving, leaves a well bracketed event stream. */
  lemma {:induction false} ParallelTraceWellBracketed(p: Plan, acts: seq<Action>)
    requires Planned(p) && After(p, acts).Some? && After(p, acts).value.outcome.Returned?
    ensures var s := After(p, acts).value;
            WellBracketed(s.trace, p.t, s.outcome.err.None?)
  {
    AlwaysInv(p, acts);
    var s := After(p, acts).value;
    forall n ensures Scan(s.trace, n) == Fresh || Scan(s.trace, n) == Closed {
      assert BracketFits(At(s, n), Scan(s.trace, n));
      if n in s.phase {
        assert SpawnedName(p, s, n);
        assert s.phase[n].Finished?;
      }
    }
  }

  // -------------------------------------------------------- the whole of a parallel run

  /** What happens before the first level: the requested target is looked up, the dotenv files are read, the
      levels are made, in this order; each can end the run. */
  datatype Start = Stopped(err: string, trace: seq<Event>) | Started(plan: Plan)

  function StartOf(g: seq<Target>, t: string, maxParallel: nat, presetSteps: nat, dotenvOk: bool): Start {
    var ended := [RunStart(t)] + [RunEnd(false)];
    if TargetByName(g, t).None? || !dotenvOk then Stopped(t, ended)
    else if LevelsOf(g, t).UnknownDep? then Stopped(LevelsOf(g, t).name, ended)
    else Started(PlanFor(g, t, maxParallel, presetSteps))
  }

  /** What a run hands back: its error and its stream of events. */
  datatype Ending = Ending(err: Option<string>, trace: seq<Event>)

  /** How a run ends under a schedule; nothing while it has not. */
  function EndingOf(start: Start, acts: seq<Action>): Option<Ending> {
    match start
    case Stopped(err, trace) => Some(Ending(Some(err), trace))
    case Started(p) =>
      match After(p, acts)
      case None => None
      case Some(s) => if s.outcome.Returned? then Some(Ending(s.outcome.err, s.trace)) else None
  }

  lemma {:induction false} StoppedIsBracketed(t: string)
    ensures WellBracketed([RunStart(t)] + [RunEnd(false)], t, false)
  {
    var trace := [RunStart(t)] + [RunEnd(false)];
    assert trace[..1] == [RunStart(t)];
    assert [] + [RunStart(t)] == [RunStart(t)];
    forall n ensures Scan(trace, n) == Fresh {
      ScanAppend([], RunStart(t), n);
      ScanAppend([RunStart(t)], RunEnd(false), n);
    }
  }

  /** Every run that ends, before its first level or in any interleaving of its targets, leaves a well bracketed
      stream. Its levels are begun exactly when the dotenv files are read and every reachable name, the requested
      one among them, is defined; it ends without error exactly when moreover every reachable target did. */
  lemma {:induction false} WholeRun(g: seq<Target>, t: string, maxParallel: nat, presetSteps: nat, dotenvOk: bool,
                                    acts: seq<Action>)
    requires maxParallel > 1
    requires EndingOf(StartOf(g, t, maxParallel, presetSteps, dotenvOk), acts).Some?
    ensures var start := StartOf(g, t, maxParallel, presetSteps, dotenvOk);
      var e := EndingOf(start, acts).value;
      && WellBracketed(e.trace, t, e.err.None?)
      && (start.Started? <==> dotenvOk && forall n :: Reaches(g, t, n) ==> TargetByName(g, n).Some?)
      && (e.err.None? <==>
            && start.Started?
            && forall n :: Reaches(g, t, n) ==>
                 At(After(start.plan, acts).value, n) == Finished(true) && BracketSomewhere(e.trace, n))
  {
    StoppedIsBracketed(t);
    TopoOrderFailsExactly(g, t);
    if StartOf(g, t, maxParallel, presetSteps, dotenvOk).Started? {
      PlanIsPlanned(g, t, maxParallel, presetSteps);
      ParallelTraceWellBracketed(PlanFor(g, t, maxParallel, presetSteps), acts);
      RunReturnsNilExactly(g, t, maxParallel, presetSteps, acts);
    }
  }

  // ------------------------------------------------------------------- no deadlock

  /** A step is enabled that is no cancellation and agrees with what the world answers. */
  ghost predicate CanGo(p: Plan, s: State, w: World) {
    exists a: Action :: !a.Cancel? && Enabled(p, s, a) && Answered(p, s, w, a)
  }

  lemma {:induction false} ThisCanGo(p: Plan, s: State, w: World, a: Action)
    requires !a.Cancel? && Enabled(p, s, a) && Answered(p, s, w, a)
    ensures CanGo(p, s, w)
  {
  }

  lemma {:induction false} BodyCanMove(p: Plan, s: State, w: World, n: string)
    requires Inv(p, s) && n in s.phase
    requires HoldsMutex(s.phase[n]) || s.phase[n].Unpooling? || s.phase[n].Recording? || s.phase[n].Unslotting?
    ensures CanGo(p, s, w)
  {
    match s.phase[n]
    case Entered => ThisCanGo(p, s, w, Go(n, Begin));
    case Deciding => DeciderCanMove(p, s, w, n);
    case Stepping(i) => StepperCanMove(p, s, w, n);
    case InStep(i) => ThisCanGo(p, s, w, Go(n, EndStep(w.step(n, i).Succeeded?)));
    case Stopping => ThisCanGo(p, s, w, Go(n, EndBody(false, true)));
    case _ => LeaverCanMove(p, s, w, n);
  }

  lemma {:induction false} DeciderCanMove(p: Plan, s: State, w: World, n: string)
    requires n in s.phase && s.phase[n].Deciding?
    ensures CanGo(p, s, w)
  {
    var u := UnitOf(p, n);
    var m := if u.guarded && !w.guardHolds(n) then SkipWhen
             else if u.cached && w.hashFails(n) then FailEarly
             else if u.cached && w.cacheHit(n) then SkipCached
             else Proceed;
    ThisCanGo(p, s, w, Go(n, m));
  }

  lemma {:induction false} StepperCanMove(p: Plan, s: State, w: World, n: string)
    requires Inv(p, s) && n in s.phase && s.phase[n].Stepping?
    ensures CanGo(p, s, w)
  {
    var u, ph := UnitOf(p, n), s.phase[n];
    assert StepBounded(p, n, At(s, n));
    if BodyOver(w, u, n, ph) {
      var ok := BodyWell(w, u, n, ph);
      ThisCanGo(p, s, w, Go(n, EndBody(ok, ok && u.cached ==> w.saves(n))));
    } else {
      ThisCanGo(p, s, w, Go(n, if w.step(n, ph.next).NothingToRun? then PassStep else BeginStep));
    }
  }

  lemma {:induction false} LeaverCanMove(p: Plan, s: State, w: World, n: string)
    requires Inv(p, s) && n in s.phase
    requires s.phase[n].Unlocking? || s.phase[n].Unpooling? || s.phase[n].Recording? || s.phase[n].Unslotting?
    ensures CanGo(p, s, w)
  {
    match s.phase[n]
    case Unlocking(ok) => ThisCanGo(p, s, w, Go(n, Unlock));
    case Unpooling(ok) => ThisCanGo(p, s, w, Go(n, Unpool));
    case Recording(slot) => ThisCanGo(p, s, w, Go(n, Record));
    case Unslotting(ok) =>
      assert n in SlotHolders(s);
      ThisCanGo(p, s, w, Go(n, FreeSlot));
  }

  lemma {:induction false} MutexWaiterCanMove(p: Plan, s: State, w: World, n: string)
    requires Inv(p, s) && n in s.phase && s.phase[n].WantMutex?
    ensures CanGo(p, s, w)
  {
    if MutexOf(p, n) == "" || MutexOf(p, n) !in s.shared.locked {
      ThisCanGo(p, s, w, Go(n, TakeMutex));
    } else {
      var h :| MutexHeldBy(p, s, h, MutexOf(p, n));
      BodyCanMove(p, s, w, h);
    }
  }

  lemma {:induction false} PoolWaiterCanMove(p: Plan, s: State, w: World, n: string)
    requires Inv(p, s) && n in s.phase && s.phase[n].WantPool?
    ensures CanGo(p, s, w)
  {
    if PoolOf(p, n) == "" || PoolOf(p, n) !in s.shared.poolsFull {
      ThisCanGo(p, s, w, Go(n, TakePool));
    } else {
      var h :| PoolHeldBy(p, s, h, PoolOf(p, n));
      if s.phase[h].WantMutex? {
        MutexWaiterCanMove(p, s, w, h);
      } else {
        BodyCanMove(p, s, w, h);
      }
    }
  }

  lemma {:induction false} UnfinishedCanMove(p: Plan, s: State, w: World, n: string)
    requires Planned(p) && Inv(p, s) && n in s.phase && !s.phase[n].Finished?
    ensures CanGo(p, s, w)
  {
    if s.phase[n].WantSlot? {
      if s.shared.slotsUsed < p.maxParallel {
        ThisCanGo(p, s, w, Go(n, TakeSlot));
      } else {
        assert SlotHolders(s) != {};
        var h :| h in SlotHolders(s);
        SlotHolderCanMove(p, s, w, h);
      }
    } else {
      SlotHolderCanMove(p, s, w, n);
    }
  }

  lemma {:induction false} SlotHolderCanMove(p: Plan, s: State, w: World, h: string)
    requires Inv(p, s) && h in s.phase && !s.phase[h].Finished? && !s.phase[h].WantSlot?
    ensures CanGo(p, s, w)
  {
    assert !s.phase[h].Unspawned?;
    if s.phase[h].WantPool? {
      PoolWaiterCanMove(p, s, w, h);
    } else if s.phase[h].WantMutex? {
      MutexWaiterCanMove(p, s, w, h);
    } else {
      BodyCanMove(p, s, w, h);
    }
  }

  /** No deadlock: as long as the run has not returned, whatever the world answers and whatever pools and mutexes the
      targets name, some step other than a cancellation is enabled that agrees with the answers. */
  lemma {:induction false} DeadlockFree(p: Plan, acts: seq<Action>, w: World)
    requires Planned(p) && After(p, acts).Some? && After(p, acts).value.outcome.Running?
    ensures CanGo(p, After(p, acts).value, w)
  {
    AlwaysInv(p, acts);
    var s := After(p, acts).value;
    if s.level == |p.levels| {
      ThisCanGo(p, s, w, Return);
    } else if s.spawned < |p.levels[s.level]| {
      ThisCanGo(p, s, w, Spawn);
    } else if AllFinished(s, p.levels[s.level]) {
      ThisCanGo(p, s, w, Join);
    } else {
      var n :| n in p.levels[s.level] && !At(s, n).Finished?;
      var i :| 0 <= i < |p.levels[s.level]| && p.levels[s.level][i] == n;
      assert n in s.phase;
      UnfinishedCanMove(p, s, w, n);
    }
  }

  // ------------------------------------------------------------------- termination

  function RankSum(p: Plan, s: State, names: seq<string>): nat {
    if names == [] then 0 else Rank(p, names[0], At(s, names[0])) + RankSum(p, s, names[1..])
  }

  function Flat(levels: seq<seq<string>>): seq<string> {
    if levels == [] then [] else levels[0] + Flat(levels[1..])
  }

  lemma {:induction false} FlatHas(levels: seq<seq<string>>, k: nat, n: string)
    requires k < |levels| && n in levels[k]
    ensures n in Flat(levels)
    decreases |levels|
  {
    if k > 0 {
      FlatHas(levels[1..], k - 1, n);
    }
  }

  /** Steps the main goroutine still has to make from level `k` on. */
  function MainLeft(levels: seq<seq<string>>, k: nat): nat
    requires k <= |levels|
    decreases |levels| - k
  {
    if k == |levels| then 0 else |levels[k]| + 1 + MainLeft(levels, k + 1)
  }

  function Left(p: Plan, s: State): int
    requires s.level <= |p.levels|
  {
    RankSum(p, s, Flat(p.levels)) + MainLeft(p.levels, s.level) - s.spawned
    + (if s.cancelled then 0 else 1) + (if s.outcome.Running? then 1 else 0)
  }

  lemma {:induction false} RankSumSame(p: Plan, s: State, s': State, names: seq<string>)
    requires s.phase == s'.phase
    ensures RankSum(p, s, names) == RankSum(p, s', names)
    decreases |names|
  {
    if names != [] {
      RankSumSame(p, s, s', names[1..]);
    }
  }

  lemma {:induction false} RankSumDrops(p: Plan, s: State, s': State, n: string, names: seq<string>)
    requires s'.phase == s.phase[n := At(s', n)] && Rank(p, n, At(s', n)) < Rank(p, n, At(s, n))
    ensures RankSum(p, s', names) <= RankSum(p, s, names)
    ensures n in names ==> RankSum(p, s', names) < RankSum(p, s, names)
    decreases |names|
  {
    if names != [] {
      RankSumDrops(p, s, s', n, names[1..]);
    }
  }

  lemma {:induction false} LeftDrops(p: Plan, s: State, a: Action)
    requires Planned(p) && Inv(p, s) && Enabled(p, s, a)
    ensures Apply(p, s, a).level <= |p.levels| && Left(p, Apply(p, s, a)) < Left(p, s)
  {
    var s' := Apply(p, s, a);
    var names := Flat(p.levels);
    match a
    case Spawn =>
      var n := p.levels[s.level][s.spawned];
      SpawnIsNew(p, s);
      FlatHas(p.levels, s.level, n);
      RankSumDrops(p, s, s', n, names);
    case Go(n, m) =>
      GoMoves(p, s, n, m);
      assert SpawnedName(p, s, n);
      var k: nat :| k < |p.levels| && n in p.levels[k];
      FlatHas(p.levels, k, n);
      RankSumDrops(p, s, s', n, names);
    case Join => RankSumSame(p, s, s', names);
    case Return => RankSumSame(p, s, s', names);
    case Cancel => RankSumSame(p, s, s', names);
  }

  lemma {:induction false} LeftNonNegative(p: Plan, s: State)
    requires Inv(p, s)
    ensures Left(p, s) >= 0
  {
  }

  /** No schedule is longer than the work there is at the start. */
  lemma {:induction false} ScheduleBounded(p: Plan, acts: seq<Action>)
    requires Planned(p) && After(p, acts).Some?
    ensures After(p, acts).value.level <= |p.levels|
    ensures |acts| + Left(p, After(p, acts).value) <= Left(p, Init(p))
    decreases |acts|
  {
    if acts != [] {
      var before := acts[..|acts| - 1];
      ScheduleBounded(p, before);
      AlwaysInv(p, before);
      LeftDrops(p, After(p, before).value, acts[|acts| - 1]);
    }
  }

  /** Every run ends: schedules are bounded, and one that no step of the world's answers can continue but a cancellation
      has returned. */
  lemma {:induction false} EveryRunEnds(p: Plan, acts: seq<Action>, w: World)
    requires Planned(p) && After(p, acts).Some?
    ensures |acts| <= Left(p, Init(p))
    ensures
      (forall a: Action :: After(p, acts + [a]).Some? && Answered(p, After(p, acts).value, w, a) ==> a.Cancel?)
      ==> After(p, acts).value.outcome.Returned?
  {
    ScheduleBounded(p, acts);
    AlwaysInv(p, acts);
    LeftNonNegative(p, After(p, acts).value);
    if After(p, acts).value.outcome.Running? {
      DeadlockFree(p, acts, w);
      var a: Action :| !a.Cancel? && Enabled(p, After(p, acts).value, a) && Answered(p, After(p, acts).value, w, a);
      AfterStep(p, acts, a);
    }
  }
}
