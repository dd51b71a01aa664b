/** The result of a parallel run (internal/runner/runner.go). */
module FixedWorld {
  // With the answers of the world fixed, every interleaving of a run that is not cancelled gives the same result. It is
  // the one of the sequential run unless a dependency needs a container.

  import opened Config
  import opened Dag
  import opened Levels
  import opened Trace
  import opened ParallelRun
  import opened ParallelTheorems
  import opened SequentialRun

  /** Every step of the schedule agrees with the answers. */
  ghost predicate Told(p: Plan, w: World, acts: seq<Action>) {
    acts == [] ||
    (Told(p, w, acts[..|acts| - 1])
     && (After(p, acts[..|acts| - 1]).Some? ==> Answered(p, After(p, acts[..|acts| - 1]).value, w, acts[|acts| - 1])))
  }

  /** The schedule agrees with the answers, is not cancelled, and the run has returned. */
  ghost predicate Finished(p: Plan, w: World, acts: seq<Action>) {
    && Told(p, w, acts) && After(p, acts).Some?
    && After(p, acts).value.outcome.Returned? && !After(p, acts).value.cancelled
  }

  /** No step before the given one fails. */
  predicate RanSoFar(w: World, n: string, i: nat) {
    forall j :: 0 <= j < i ==> !Fails(w.step(n, j))
  }

  /** What a phase says about the answers of the target's world. */
  ghost predicate PhaseTrue(w: World, u: Unit, n: string, ph: Phase, cancelled: bool) {
    match ph
    case Stepping(i) => GoesOn(w, u, n) && RanSoFar(w, n, i) && (i > 0 ==> !u.contained && w.envExpands(n))
    case InStep(i) =>
      && GoesOn(w, u, n) && RanSoFar(w, n, i) && !u.contained && w.envExpands(n)
      && i < u.steps && (w.step(n, i).Succeeded? || w.step(n, i).FailedStep?)
    case Stopping => GoesOn(w, u, n) && !StepsSucceed(w, u, n, w.docker)
    case Unlocking(ok) => ok <==> Succeeds(w, u, n, w.docker)
    case Unpooling(ok) => ok <==> Succeeds(w, u, n, w.docker)
    case Recording(_) => Succeeds(w, u, n, w.docker) ==> cancelled
    case Unslotting(ok) => (ok ==> Succeeds(w, u, n, w.docker)) && (Succeeds(w, u, n, w.docker) && !ok ==> cancelled)
    case Finished(ok) => (ok ==> Succeeds(w, u, n, w.docker)) && (Succeeds(w, u, n, w.docker) && !ok ==> cancelled)
    case _ => true
  }

  lemma {:induction false} MoveStaysTrue(p: Plan, n: string, sh: Shared, cancelled: bool, ph: Phase, m: Move, w: World)
    requires CanMove(p, n, sh, cancelled, ph, m) && StepBounded(p, n, ph)
    requires PhaseTrue(w, UnitOf(p, n), n, ph, cancelled) && Agrees(w, UnitOf(p, n), n, ph, m)
    ensures PhaseTrue(w, UnitOf(p, n), n, NextPhase(p, n, sh, cancelled, ph, m), cancelled)
  {
    if m.EndBody? {
      BodyEnds(w, UnitOf(p, n), n, ph);
    } else if m.EndStep? {
      StepEnds(w, UnitOf(p, n), n, ph.next);
    }
  }

  lemma {:induction false} StepEnds(w: World, u: Unit, n: string, i: nat)
    requires PhaseTrue(w, u, n, InStep(i), false)
    ensures w.step(n, i).Succeeded? ==> RanSoFar(w, n, i + 1)
    ensures !w.step(n, i).Succeeded? ==> !StepsSucceed(w, u, n, w.docker)
  {
    assert w.step(n, i).FailedStep? ==> Fails(w.step(n, i));
  }

  lemma {:induction false} BodyEnds(w: World, u: Unit, n: string, ph: Phase)
    requires PhaseTrue(w, u, n, ph, false) && BodyOver(w, u, n, ph) && (ph.Stepping? ==> ph.next <= u.steps)
    ensures GoesOn(w, u, n) && (StepsSucceed(w, u, n, w.docker) <==> BodyWell(w, u, n, ph))
  {
    if ph.Stepping? && w.envExpands(n) && !u.contained && ph.next < u.steps {
      assert Fails(w.step(n, ph.next));
    }
  }

  /** Every phase of a reachable state is true of the answers the schedule agrees with. */
  lemma {:induction false} AlwaysTrue(p: Plan, w: World, acts: seq<Action>, n: string)
    requires Planned(p) && After(p, acts).Some? && Told(p, w, acts)
    ensures var s := After(p, acts).value; PhaseTrue(w, UnitOf(p, n), n, At(s, n), s.cancelled)
  {
    if acts != [] {
      var before, a := acts[..|acts| - 1], acts[|acts| - 1];
      AlwaysTrue(p, w, before, n);
      AlwaysInv(p, before);
      var s := After(p, before).value;
      assert StepBounded(p, n, At(s, n));
      StepStaysTrue(p, s, a, w, n);
    }
  }

  lemma {:induction false} StepStaysTrue(p: Plan, s: State, a: Action, w: World, n: string)
    requires Enabled(p, s, a) && Answered(p, s, w, a) && StepBounded(p, n, At(s, n))
    requires PhaseTrue(w, UnitOf(p, n), n, At(s, n), s.cancelled)
    ensures var t := Apply(p, s, a); PhaseTrue(w, UnitOf(p, n), n, At(t, n), t.cancelled)
  {
    if a.Go? && a.n == n {
      MoveStaysTrue(p, n, s.shared, s.cancelled, s.phase[n], a.move, w);
    }
  }

  // ------------------------------------------------------------------ the events are decided too

  /** The events of one target, in order. */
  function Own(trace: seq<Event>, n: string): seq<Event> {
    if trace == [] then []
    else Own(trace[..|trace| - 1], n) + if OfTarget(trace[|trace| - 1], n) then [trace[|trace| - 1]] else []
  }

  lemma {:induction false} OwnAppend(trace: seq<Event>, e: Event, n: string)
    ensures Own(trace + [e], n) == Own(trace, n) + if OfTarget(e, n) then [e] else []
  {
    assert (trace + [e])[..|trace|] == trace;
  }

  lemma {:induction false} OwnHolds(trace: seq<Event>, n: string)
    ensures forall e :: e in Own(trace, n) <==> e in trace && OfTarget(e, n)
  {
    if trace != [] {
      OwnHolds(trace[..|trace| - 1], n);
      assert trace == trace[..|trace| - 1] + [trace[|trace| - 1]];
    }
  }

  /** The events a target in its steps has before it, from step i on. */
  function FromStep(w: World, u: Unit, n: string, i: nat): seq<Event> {
    (if u.contained || !w.envExpands(n) || i > u.steps then [] else StepEvents(w, n, i, u.steps))
    + [TargetEnd(n, StepsSucceed(w, u, n, w.docker))]
  }

  /** The events a target has before it. */
  function Ahead(w: World, u: Unit, n: string, ph: Phase): seq<Event> {
    match ph
    case Deciding => DecidedEvents(w, u, n, w.docker)
    case Stepping(i) => FromStep(w, u, n, i)
    case InStep(i) =>
      [Trace.StepEnd(n, i + 1, w.step(n, i).Succeeded?)]
      + if w.step(n, i).FailedStep? then [TargetEnd(n, StepsSucceed(w, u, n, w.docker))] else FromStep(w, u, n, i + 1)
    case Stopping => [TargetEnd(n, StepsSucceed(w, u, n, w.docker))]
    case _ => if HasBegun(ph) then [] else BodyEvents(w, u, n, w.docker)
  }

  predicate HasBegun(ph: Phase) {
    ph.Unlocking? || ph.Unpooling? || ph.Recording? || ph.Unslotting? || ph.Finished? || (InBody(ph) && !ph.Entered?)
  }

  /** The events so far and those ahead are the target's; one that gave up waiting has none. */
  ghost predicate EventsTrue(w: World, u: Unit, n: string, ph: Phase, own: seq<Event>) {
    || own + Ahead(w, u, n, ph) == BodyEvents(w, u, n, w.docker)
    || (own == [] && (ph.Recording? || ph == Unslotting(false) || ph == Phase.Finished(false)))
  }

  lemma {:induction false} MoveWritesTrue(p: Plan, n: string, sh: Shared, cancelled: bool, ph: Phase, m: Move, w: World,
                                          own: seq<Event>)
    requires CanMove(p, n, sh, cancelled, ph, m) && StepBounded(p, n, ph)
    requires PhaseTrue(w, UnitOf(p, n), n, ph, cancelled) && Agrees(w, UnitOf(p, n), n, ph, m)
    requires EventsTrue(w, UnitOf(p, n), n, ph, own)
    ensures EventsTrue(w, UnitOf(p, n), n, NextPhase(p, n, sh, cancelled, ph, m), own + Written(n, ph, m))
  {
    if InBody(ph) {
      BodyWritesTrue(p, n, sh, cancelled, ph, m, w);
      Regrouped(own, Written(n, ph, m), Ahead(w, UnitOf(p, n), n, NextPhase(p, n, sh, cancelled, ph, m)));
    } else {
      assert Written(n, ph, m) == [] && own + [] == own;
      WaitWritesTrue(p, n, sh, cancelled, ph, m, w, own);
    }
  }

  /** Outside the body nothing is written. */
  lemma {:induction false} WaitWritesTrue(p: Plan, n: string, sh: Shared, cancelled: bool, ph: Phase, m: Move, w: World,
                                          own: seq<Event>)
    requires CanMove(p, n, sh, cancelled, ph, m) && !InBody(ph) && EventsTrue(w, UnitOf(p, n), n, ph, own)
    ensures EventsTrue(w, UnitOf(p, n), n, NextPhase(p, n, sh, cancelled, ph, m), own)
  {
    if !HasBegun(ph) {
      NothingYet(own, BodyEvents(w, UnitOf(p, n), n, w.docker));
    }
  }

  lemma {:induction false} NothingYet(own: seq<Event>, all: seq<Event>)
    requires own + all == all
    ensures own == []
  {
    assert |own + all| == |own| + |all|;
  }

  /** Each move of the body writes what comes next. */
  lemma {:induction false} BodyWritesTrue(p: Plan, n: string, sh: Shared, cancelled: bool, ph: Phase, m: Move, w: World)
    requires CanMove(p, n, sh, cancelled, ph, m) && StepBounded(p, n, ph) && InBody(ph)
    requires PhaseTrue(w, UnitOf(p, n), n, ph, cancelled) && Agrees(w, UnitOf(p, n), n, ph, m)
    ensures Ahead(w, UnitOf(p, n), n, ph) ==
      Written(n, ph, m) + Ahead(w, UnitOf(p, n), n, NextPhase(p, n, sh, cancelled, ph, m))
  {
    var u := UnitOf(p, n);
    match m
    case BeginStep => StepWritesTrue(w, u, n, ph.next);
    case PassStep => assert StepEvents(w, n, ph.next, u.steps) == StepEvents(w, n, ph.next + 1, u.steps);
    case EndBody(ok, _) =>
      BodyEnds(w, u, n, ph);
      EndWritesTrue(w, u, n, ph);
    case _ =>
  }

  lemma {:induction false} StepWritesTrue(w: World, u: Unit, n: string, i: nat)
    requires i < u.steps && !u.contained && w.envExpands(n)
    requires w.step(n, i).Succeeded? || w.step(n, i).FailedStep?
    ensures FromStep(w, u, n, i) == [Trace.StepStart(n, i + 1)] + Ahead(w, u, n, InStep(i))
  {
  }

  lemma {:induction false} EndWritesTrue(w: World, u: Unit, n: string, ph: Phase)
    requires BodyOver(w, u, n, ph) && (ph.Stepping? ==> ph.next <= u.steps)
    ensures Ahead(w, u, n, ph) == [TargetEnd(n, StepsSucceed(w, u, n, w.docker))]
  {
  }

  lemma {:induction false} StepWritesOwn(p: Plan, s: State, a: Action, w: World, n: string)
    requires Planned(p) && Staged(p, s)
    requires Enabled(p, s, a) && Answered(p, s, w, a) && StepBounded(p, n, At(s, n))
    requires PhaseTrue(w, UnitOf(p, n), n, At(s, n), s.cancelled)
    requires EventsTrue(w, UnitOf(p, n), n, At(s, n), Own(s.trace, n))
    ensures var t := Apply(p, s, a); EventsTrue(w, UnitOf(p, n), n, At(t, n), Own(t.trace, n))
  {
    if !a.Go? {
      MainWritesNothing(p, s, a, n);
      MainLeavesPhase(p, s, a, n);
      SpawnedIsAhead(w, UnitOf(p, n), n, At(s, n), At(Apply(p, s, a), n), Own(s.trace, n));
    } else {
      GoLeavesOthers(p, s, a, n);
      OwnOfMove(s.trace, a.n, s.phase[a.n], a.move, n);
      if a.n == n {
        GoWritesOwn(p, s, a.move, w, n);
      } else {
        assert Own(s.trace, n) + [] == Own(s.trace, n);
      }
    }
  }

  lemma {:induction false} GoWritesOwn(p: Plan, s: State, m: Move, w: World, n: string)
    requires Enabled(p, s, Go(n, m)) && Answered(p, s, w, Go(n, m)) && StepBounded(p, n, At(s, n))
    requires PhaseTrue(w, UnitOf(p, n), n, At(s, n), s.cancelled)
    requires EventsTrue(w, UnitOf(p, n), n, At(s, n), Own(s.trace, n))
    ensures EventsTrue(w, UnitOf(p, n), n, NextPhase(p, n, s.shared, s.cancelled, s.phase[n], m),
                       Own(s.trace, n) + Written(n, s.phase[n], m))
  {
    MoveWritesTrue(p, n, s.shared, s.cancelled, s.phase[n], m, w, Own(s.trace, n));
  }

  lemma {:induction false} GoLeavesOthers(p: Plan, s: State, a: Action, n: string)
    requires Enabled(p, s, a) && a.Go?
    ensures var t := Apply(p, s, a);
      && t.trace == s.trace + Written(a.n, s.phase[a.n], a.move)
      && At(t, n) ==
           if a.n == n then NextPhase(p, n, s.shared, s.cancelled, s.phase[n], a.move) else At(s, n)
  {
  }

  lemma {:induction false} SpawnedIsAhead(w: World, u: Unit, n: string, was: Phase, now: Phase, own: seq<Event>)
    requires now == was || (was.Unspawned? && now.WantSlot?)
    requires EventsTrue(w, u, n, was, own)
    ensures EventsTrue(w, u, n, now, own)
  {
  }

  lemma {:induction false} MainWritesNothing(p: Plan, s: State, a: Action, n: string)
    requires Enabled(p, s, a) && !a.Go?
    ensures Own(Apply(p, s, a).trace, n) == Own(s.trace, n)
  {
    OwnAppend(s.trace, RunEnd(false), n);
    OwnAppend(s.trace, RunEnd(true), n);
  }

  /** The main goroutine spawns: a target that is spawned has not begun. */
  lemma {:induction false} MainLeavesPhase(p: Plan, s: State, a: Action, n: string)
    requires Planned(p) && Staged(p, s) && Enabled(p, s, a) && !a.Go?
    ensures At(Apply(p, s, a), n) == At(s, n) || (At(s, n).Unspawned? && At(Apply(p, s, a), n).WantSlot?)
  {
    if a.Spawn? {
      SpawnIsNew(p, s);
    }
  }

  lemma {:induction false} OwnOfMove(trace: seq<Event>, m: string, ph: Phase, move: Move, n: string)
    ensures Own(trace + Written(m, ph, move), n) == Own(trace, n) + if m == n then Written(m, ph, move) else []
  {
    if Written(m, ph, move) != [] {
      OwnAppend(trace, Written(m, ph, move)[0], n);
    } else {
      assert trace + [] == trace;
    }
  }

  lemma {:induction false} AlwaysEventsTrue(p: Plan, w: World, acts: seq<Action>, n: string)
    requires Planned(p) && After(p, acts).Some? && Told(p, w, acts)
    ensures var s := After(p, acts).value; EventsTrue(w, UnitOf(p, n), n, At(s, n), Own(s.trace, n))
  {
    if acts == [] {
      assert [] + [RunStart(p.t)] == [RunStart(p.t)];
      OwnAppend([], RunStart(p.t), n);
    } else {
      var before, a := acts[..|acts| - 1], acts[|acts| - 1];
      AlwaysEventsTrue(p, w, before, n);
      AlwaysTrue(p, w, before, n);
      AlwaysInv(p, before);
      var s := After(p, before).value;
      assert StepBounded(p, n, At(s, n));
      StepWritesOwn(p, s, a, w, n);
    }
  }

  /** The events of a target are decided by the answers: under every schedule that agrees with them, a target that has
      begun and left its body has exactly the events of the sequential run that had its options, in their order; before
      that it has the first of them. */
  lemma {:induction false} EventsAreDecided(p: Plan, w: World, acts: seq<Action>, n: string)
    requires Planned(p) && After(p, acts).Some? && Told(p, w, acts)
    ensures var s := After(p, acts).value; var all := BodyEvents(w, UnitOf(p, n), n, w.docker);
      && Own(s.trace, n) <= all
      && (TargetStart(n) in s.trace && !InBody(At(s, n)) ==> Own(s.trace, n) == all)
  {
    AlwaysEventsTrue(p, w, acts, n);
    var s := After(p, acts).value;
    OwnHolds(s.trace, n);
    var all := BodyEvents(w, UnitOf(p, n), n, w.docker);
    if Own(s.trace, n) + Ahead(w, UnitOf(p, n), n, At(s, n)) == all && !HasBegun(At(s, n)) {
      NothingYet(Own(s.trace, n), all);
    }
  }

  /** What closes a target in the stream of a parallel run: under every schedule that agrees with the answers, a
      target that has begun and left its body is reported as skipped by its guard exactly if that fails, as up to
      date exactly if the guard lets it through and the cache has it, and otherwise as ended, with the result of
      hashing and of its steps. */
  lemma {:induction false} ClosingIsDecided(p: Plan, w: World, acts: seq<Action>, n: string)
    requires Planned(p) && After(p, acts).Some? && Told(p, w, acts)
    requires TargetStart(n) in After(p, acts).value.trace && !InBody(At(After(p, acts).value, n))
    ensures var u := UnitOf(p, n); var trace := After(p, acts).value.trace;
      && (Trace.WhenSkip(n) in trace <==> u.guarded && !w.guardHolds(n))
      && (Trace.CacheSkip(n) in trace <==>
            (u.guarded ==> w.guardHolds(n)) && u.cached && !w.hashFails(n) && w.cacheHit(n))
      && (forall ok :: TargetEnd(n, ok) in trace <==>
            && (u.guarded ==> w.guardHolds(n)) && !(u.cached && !w.hashFails(n) && w.cacheHit(n))
            && ok == (!(u.cached && w.hashFails(n)) && StepsSucceed(w, u, n, w.docker)))
  {
    EventsAreDecided(p, w, acts, n);
    OwnHolds(After(p, acts).value.trace, n);
    ClosingEvents(w, UnitOf(p, n), n, w.docker);
  }

  // -------------------------------------------------------------------- the result is decided

  /** The result is decided by the answers: under every schedule that agrees with them, a run that returns nil is one in
      which every target succeeds; without a cancellation that is also the only case, and a returned error belongs to a
      target that does not. */
  lemma {:induction false} ResultIsDecided(p: Plan, w: World, acts: seq<Action>)
    requires Planned(p) && After(p, acts).Some? && Told(p, w, acts) && After(p, acts).value.outcome.Returned?
    ensures var s := After(p, acts).value;
      && (s.outcome.err.None? ==> forall n :: Member(p, n) ==> Succeeds(w, UnitOf(p, n), n, w.docker))
      && (!s.cancelled ==>
            (s.outcome.err.None? <==> forall n :: Member(p, n) ==> Succeeds(w, UnitOf(p, n), n, w.docker)))
      && (!s.cancelled && s.outcome.err.Some? ==>
            && Member(p, s.outcome.err.value)
            && !Succeeds(w, UnitOf(p, s.outcome.err.value), s.outcome.err.value, w.docker))
  {
    var s := After(p, acts).value;
    ResultMeansAllSucceeded(p, acts);
    if s.outcome.err.None? {
      forall n | Member(p, n) ensures Succeeds(w, UnitOf(p, n), n, w.docker) {
        AlwaysTrue(p, w, acts, n);
      }
    } else {
      var n := s.outcome.err.value;
      AlwaysTrue(p, w, acts, n);
      AlwaysInv(p, acts);
      assert SpawnedName(p, s, n);
      assert Member(p, n);
    }
  }

  /** Nothing is left out of the options in a parallel run: a target succeeds whatever its place. */
  ghost predicate AllSucceedAlike(g: seq<Target>, t: string, presetSteps: nat, w: World, names: seq<string>) {
    forall n :: n in names ==> TargetByName(g, n).Some? && Succeeds(w, UnitIn(g, t, presetSteps, n), n, w.docker)
  }

  /** A parallel run of any width that is not cancelled returns nil, in whatever interleaving, exactly when every target
      of the order succeeds. */
  lemma {:induction false} ParallelSucceedsExactly(g: seq<Target>, t: string, maxParallel: nat, presetSteps: nat,
                                                   w: World, acts: seq<Action>)
    requires maxParallel > 1 && LevelsOf(g, t).Leveled?
    requires Finished(PlanFor(g, t, maxParallel, presetSteps), w, acts)
    ensures OrderOf(g, t).Order?
    ensures After(PlanFor(g, t, maxParallel, presetSteps), acts).value.outcome.err.None? <==>
      AllSucceedAlike(g, t, presetSteps, w, OrderOf(g, t).names)
  {
    var p := PlanFor(g, t, maxParallel, presetSteps);
    PlanIsPlanned(g, t, maxParallel, presetSteps);
    ResultIsDecided(p, w, acts);
    MembersAreOrdered(g, t, maxParallel, presetSteps);
    forall n | n in OrderOf(g, t).names
      ensures TargetByName(g, n).Some? && UnitOf(p, n) == UnitIn(g, t, presetSteps, n)
    {
      UnitIsPlanned(g, t, maxParallel, presetSteps, n);
    }
  }

  /** A dependency that is to run its steps in a container: its guard holds and its cache does not spare it. */
  predicate NeedsContainer(g: seq<Target>, t: string, presetSteps: nat, w: World, n: string)
    requires TargetByName(g, n).Some?
  {
    n != t && UnitIn(g, t, presetSteps, n).contained && GoesOn(w, UnitIn(g, t, presetSteps, n), n)
  }

  lemma {:induction false} SucceedsInSequence(g: seq<Target>, t: string, presetSteps: nat, w: World, n: string)
    requires TargetByName(g, n).Some?
    ensures var u := UnitIn(g, t, presetSteps, n);
      Succeeds(w, u, n, HasRegistry(w, t, n)) <==>
        Succeeds(w, u, n, w.docker) && !NeedsContainer(g, t, presetSteps, w, n)
  {
  }

  /** The two kinds of run, exactly: given the same answers, the sequential run of a graph succeeds if and only if the
      parallel one returns nil, in whatever interleaving, and no dependency needs a container. */
  lemma {:induction false} SequentialExactly(g: seq<Target>, t: string, maxParallel: nat, presetSteps: nat, w: World,
                                             acts: seq<Action>)
    requires maxParallel > 1 && LevelsOf(g, t).Leveled?
    requires Finished(PlanFor(g, t, maxParallel, presetSteps), w, acts)
    ensures OrderOf(g, t).Order? && forall n :: n in OrderOf(g, t).names ==> TargetByName(g, n).Some?
    ensures AllSucceed(g, t, presetSteps, w, OrderOf(g, t).names) <==>
      && After(PlanFor(g, t, maxParallel, presetSteps), acts).value.outcome.err.None?
      && forall n :: n in OrderOf(g, t).names ==> !NeedsContainer(g, t, presetSteps, w, n)
  {
    ParallelSucceedsExactly(g, t, maxParallel, presetSteps, w, acts);
    OrderFacts(g, t);
    forall n | n in OrderOf(g, t).names
      ensures var u := UnitIn(g, t, presetSteps, n);
        Succeeds(w, u, n, HasRegistry(w, t, n)) <==>
          Succeeds(w, u, n, w.docker) && !NeedsContainer(g, t, presetSteps, w, n)
    {
      SucceedsInSequence(g, t, presetSteps, w, n);
    }
  }

  lemma {:induction false} MembersAreOrdered(g: seq<Target>, t: string, maxParallel: nat, presetSteps: nat)
    requires LevelsOf(g, t).Leveled?
    ensures OrderOf(g, t).Order?
    ensures forall n :: Member(PlanFor(g, t, maxParallel, presetSteps), n) <==> n in OrderOf(g, t).names
  {
    OrderFacts(g, t);
    GroupedPartition(OrderOf(g, t).names, LevelMapOf(g, OrderOf(g, t).names));
  }

  lemma {:induction false} UnitIsPlanned(g: seq<Target>, t: string, maxParallel: nat, presetSteps: nat, n: string)
    requires LevelsOf(g, t).Leveled? && OrderOf(g, t).Order? && n in OrderOf(g, t).names
    ensures TargetByName(g, n).Some?
    ensures UnitOf(PlanFor(g, t, maxParallel, presetSteps), n) == UnitIn(g, t, presetSteps, n)
  {
    OrderFacts(g, t);
    assert n in Names(g);
  }

  // ------------------------------------------------------------------------ such runs exist

  lemma {:induction false} OneMoreStep(p: Plan, w: World, acts: seq<Action>) returns (a: Action)
    requires Planned(p) && Told(p, w, acts) && After(p, acts).Some? && !After(p, acts).value.cancelled
    requires After(p, acts).value.outcome.Running?
    ensures Told(p, w, acts + [a]) && After(p, acts + [a]).Some? && !After(p, acts + [a]).value.cancelled
  {
    DeadlockFree(p, acts, w);
    a :| !a.Cancel? && Enabled(p, After(p, acts).value, a) && Answered(p, After(p, acts).value, w, a);
    ToldStep(p, w, acts, a);
  }

  lemma {:induction false} ToldStep(p: Plan, w: World, acts: seq<Action>, a: Action)
    requires Told(p, w, acts) && After(p, acts).Some? && !a.Cancel?
    requires Enabled(p, After(p, acts).value, a) && Answered(p, After(p, acts).value, w, a)
    ensures Told(p, w, acts + [a]) && After(p, acts + [a]).Some?
    ensures After(p, acts + [a]).value.cancelled == After(p, acts).value.cancelled
  {
    AfterStep(p, acts, a);
    assert (acts + [a])[..|acts|] == acts;
    NotCancelled(p, After(p, acts).value, a);
  }

  lemma {:induction false} NotCancelled(p: Plan, s: State, a: Action)
    requires Enabled(p, s, a) && !a.Cancel?
    ensures Apply(p, s, a).cancelled == s.cancelled
  {
  }

  lemma {:induction false} RunsOn(p: Plan, w: World, acts: seq<Action>) returns (all: seq<Action>)
    requires Planned(p) && Told(p, w, acts) && After(p, acts).Some? && !After(p, acts).value.cancelled
    ensures Finished(p, w, all)
    decreases Left(p, Init(p)) - |acts|
  {
    EveryRunEnds(p, acts, w);
    if After(p, acts).value.outcome.Returned? {
      all := acts;
    } else {
      var a := OneMoreStep(p, w, acts);
      EveryRunEnds(p, acts + [a], w);
      all := RunsOn(p, w, acts + [a]);
    }
  }

  /** Whatever the world answers, there is a run that agrees with it, is not cancelled and returns. */
  lemma {:induction false} SomeRunFinishes(p: Plan, w: World)
    requires Planned(p)
    ensures exists acts :: Finished(p, w, acts)
  {
    var all := RunsOn(p, w, []);
  }

  // ------------------------------------------------------------- a dependency in a container

  /** Target t depends on d, and d has an image and one step. */
  function ContainedDependency(): seq<Target> {
    [BlankTarget("t", false).(deps := ["d"]),
     BlankTarget("d", false).(image := "alpine", steps := [Step("", ["true"])])]
  }

  /** Docker is there and everything succeeds. */
  function AllGood(): World {
    World(true, false, true, n => true, n => false, n => false, n => true, n => true, n => true, (n, i) => Succeeded)
  }

  lemma {:induction false} DependencyOrder()
    ensures OrderOf(ContainedDependency(), "t") == Order(["d", "t"])
    ensures TargetByName(ContainedDependency(), "t") == Some(ContainedDependency()[0])
    ensures TargetByName(ContainedDependency(), "d") == Some(ContainedDependency()[1])
  {
    var g := ContainedDependency();
    assert TargetByName(g, "t") == Some(g[0]);
    assert TargetByName(g[1..], "d") == Some(g[1]);
    var w1 := Dag.Start.(visited := {"t"});
    var w2 := w1.(visited := {"t", "d"});
    assert Dag.Start.visited + {"t"} == w1.visited && w1.visited + {"d"} == w2.visited;
    assert VisitAll(g, [], w2) == w2;
    assert Visit(g, "d", w1) == w2.(order := ["d"]);
    assert VisitAll(g, ["d"], w1) == w2.(order := ["d"]);
    assert Visit(g, "t", Dag.Start) == w2.(order := ["d", "t"]);
  }

  /** Under the same answers, all of them good, the sequential run of this graph fails, and every parallel run of it
      that is not cancelled returns nil; there is one. */
  lemma {:induction false} OnlyParallelRunsIt()
    ensures var g, w := ContainedDependency(), AllGood();
      && OrderOf(g, "t") == Order(["d", "t"]) && LevelsOf(g, "t").Leveled?
      && !AllSucceed(g, "t", 0, w, ["d", "t"])
      && (forall acts :: Finished(PlanFor(g, "t", 2, 0), w, acts) ==>
            After(PlanFor(g, "t", 2, 0), acts).value.outcome.err.None?)
      && exists acts :: Finished(PlanFor(g, "t", 2, 0), w, acts)
  {
    var g, w := ContainedDependency(), AllGood();
    DependencyOrder();
    assert !Succeeds(w, UnitIn(g, "t", 0, "d"), "d", HasRegistry(w, "t", "d"));
    assert AllSucceedAlike(g, "t", 0, w, ["d", "t"]);
    var p := PlanFor(g, "t", 2, 0);
    forall acts | Finished(p, w, acts) ensures After(p, acts).value.outcome.err.None? {
      ParallelSucceedsExactly(g, "t", 2, 0, w, acts);
    }
    PlanIsPlanned(g, "t", 2, 0);
    SomeRunFinishes(p, w);
  }
}
