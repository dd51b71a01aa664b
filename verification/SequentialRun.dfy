/** The sequential run and the body of one target (internal/runner/runner.go). */
module SequentialRun {
  import opened Config
  import opened Dag
  import opened Levels
  import opened Trace
  import opened ParallelRun
  import opened ParallelTheorems

  class EventLog {
    var events: seq<Event>

    constructor ()
      ensures events == []
    {
      events := [];
    }

    method Emit(e: Event)
      modifies this
      ensures events == old(events) + [e]
      ensures forall n ::
        Scan(events, n) == if OfTarget(e, n) then Advance(Scan(old(events), n), e) else Scan(old(events), n)
    {
      forall n
        ensures Scan(events + [e], n) == if OfTarget(e, n) then Advance(Scan(events, n), e) else Scan(events, n)
      {
        ScanAppend(events, e, n);
      }
      events := events + [e];
    }
  }

  /** Only events of `n` were added. */
  ghost predicate OnlyAbout(before: seq<Event>, after: seq<Event>, n: string) {
    && before <= after
    && (forall i :: |before| <= i < |after| ==> OfTarget(after[i], n))
    && (forall m :: m != n ==> Scan(after, m) == Scan(before, m))
  }

  /** The events of the steps from `i` on: a pair for every command that is started, and nothing after a failure. */
  function StepEvents(w: World, n: string, i: nat, steps: nat): seq<Event>
    requires i <= steps
    decreases steps - i
  {
    if i == steps || w.step(n, i).NotExpanded? then []
    else if w.step(n, i).NothingToRun? then StepEvents(w, n, i + 1, steps)
    else
      [Trace.StepStart(n, i + 1), Trace.StepEnd(n, i + 1, w.step(n, i).Succeeded?)]
      + if w.step(n, i).FailedStep? then [] else StepEvents(w, n, i + 1, steps)
  }

  lemma {:induction false} OnlyAboutBoth(a: seq<Event>, b: seq<Event>, c: seq<Event>, n: string)
    requires OnlyAbout(a, b, n) && OnlyAbout(b, c, n)
    ensures OnlyAbout(a, c, n)
  {
    forall i | |a| <= i < |c| ensures OfTarget(c[i], n) {
      assert i < |b| ==> c[i] == b[i];
    }
  }

  /** One started command: its pair of events. */
  method RunStep(n: string, i: nat, ok: bool, log: EventLog)
    requires Scan(log.events, n).Open? && Scan(log.events, n).last <= i
    modifies log
    ensures log.events == old(log.events) + [Trace.StepStart(n, i + 1), Trace.StepEnd(n, i + 1, ok)]
    ensures OnlyAbout(old(log.events), log.events, n)
    ensures Scan(log.events, n) == if ok then Open(i + 1) else Broken
  {
    log.Emit(Trace.StepStart(n, i + 1));
    log.Emit(Trace.StepEnd(n, i + 1, ok));
  }

  method RunTargetSteps(u: Unit, n: string, w: World, registry: bool, log: EventLog) returns (ok: bool)
    requires Scan(log.events, n) == Open(0)
    modifies log
    ensures ok == StepsSucceed(w, u, n, registry)
    ensures OnlyAbout(old(log.events), log.events, n)
    ensures Scan(log.events, n).Open? || (!ok && Scan(log.events, n).Broken?)
    ensures log.events ==
      old(log.events) + (if u.contained || !w.envExpands(n) then [] else StepEvents(w, n, 0, u.steps))
  {
    if !w.envExpands(n) {
      return false;
    }
    if u.contained {
      return registry && w.containerOk(n);
    }
    ghost var all := old(log.events) + StepEvents(w, n, 0, u.steps);
    for i := 0 to u.steps
      invariant forall j :: 0 <= j < i ==> !Fails(w.step(n, j))
      invariant log.events + StepEvents(w, n, i, u.steps) == all
      invariant OnlyAbout(old(log.events), log.events, n)
      invariant Scan(log.events, n).Open? && Scan(log.events, n).last <= i
    {
      var r := w.step(n, i);
      if r.NothingToRun? {
        continue;
      }
      if r.NotExpanded? {
        return false;
      }
      ghost var before := log.events;
      RunStep(n, i, r.Succeeded?, log);
      OnlyAboutBoth(old(log.events), before, log.events, n);
      if r.FailedStep? {
        return false;
      }
      Regrouped(before, [Trace.StepStart(n, i + 1), Trace.StepEnd(n, i + 1, true)], StepEvents(w, n, i + 1, u.steps));
    }
    return true;
  }

  lemma {:induction false} Regrouped(a: seq<Event>, b: seq<Event>, c: seq<Event>)
    ensures a + b + c == a + (b + c)
  {
  }

  /** The events of the steps, and the one that closes the target. */
  function EndingEvents(w: World, u: Unit, n: string, registry: bool): seq<Event> {
    (if u.contained || !w.envExpands(n) then [] else StepEvents(w, n, 0, u.steps))
    + [TargetEnd(n, StepsSucceed(w, u, n, registry))]
  }

  function DecidedEvents(w: World, u: Unit, n: string, registry: bool): seq<Event> {
    if u.guarded && !w.guardHolds(n) then [Trace.WhenSkip(n)]
    else if u.cached && w.hashFails(n) then [TargetEnd(n, false)]
    else if u.cached && w.cacheHit(n) then [Trace.CacheSkip(n)]
    else EndingEvents(w, u, n, registry)
  }

  /** All events of one target that begins. */
  function BodyEvents(w: World, u: Unit, n: string, registry: bool): seq<Event> {
    [TargetStart(n)] + DecidedEvents(w, u, n, registry)
  }

  /** A command is started for step i: no step before it failed, and it has something to run that expands. */
  ghost predicate StartsStep(w: World, n: string, i: nat) {
    && (forall j :: 0 <= j < i ==> !Fails(w.step(n, j)))
    && (w.step(n, i).Succeeded? || w.step(n, i).FailedStep?)
  }

  /** Which steps have events, and which: a start and an end for exactly the commands that are started, counted from
      1. */
  lemma {:induction false} StepEventsAre(w: World, n: string, i: nat, steps: nat)
    requires i <= steps && forall j :: 0 <= j < i ==> !Fails(w.step(n, j))
    ensures forall e :: e in StepEvents(w, n, i, steps) <==>
      exists k: nat :: i <= k < steps && StartsStep(w, n, k)
        && (e == Trace.StepStart(n, k + 1) || e == Trace.StepEnd(n, k + 1, w.step(n, k).Succeeded?))
    decreases steps - i
  {
    if i < steps && !Fails(w.step(n, i)) {
      StepEventsAre(w, n, i + 1, steps);
    }
  }

  /** What closes a target that begins, event by event: it is reported as skipped by its guard exactly if that
      fails, as up to date exactly if the guard lets it through and the cache has it, and otherwise as ended, with
      the result of hashing and of its steps. Nothing of another target is among its events. */
  lemma {:induction false} ClosingEvents(w: World, u: Unit, n: string, registry: bool)
    ensures var es := BodyEvents(w, u, n, registry);
      && (Trace.WhenSkip(n) in es <==> u.guarded && !w.guardHolds(n))
      && (Trace.CacheSkip(n) in es <==>
            (u.guarded ==> w.guardHolds(n)) && u.cached && !w.hashFails(n) && w.cacheHit(n))
      && (forall ok :: TargetEnd(n, ok) in es <==>
            && (u.guarded ==> w.guardHolds(n)) && !(u.cached && !w.hashFails(n) && w.cacheHit(n))
            && ok == (!(u.cached && w.hashFails(n)) && StepsSucceed(w, u, n, registry)))
      && (forall e :: e in es ==> OfTarget(e, n))
  {
    StepEventsAre(w, n, 0, u.steps);
  }

  /** The steps and the event that closes the target. */
  method RunUncached(u: Unit, n: string, w: World, registry: bool, log: EventLog) returns (ok: bool)
    requires Scan(log.events, n) == Open(0)
    modifies log
    ensures ok == StepsSucceed(w, u, n, registry)
    ensures OnlyAbout(old(log.events), log.events, n)
    ensures Scan(log.events, n) == Closed
    ensures log.events == old(log.events) + EndingEvents(w, u, n, registry)
  {
    ok := RunTargetSteps(u, n, w, registry, log);
    ghost var before := log.events;
    log.Emit(TargetEnd(n, ok));
    OnlyAboutBoth(old(log.events), before, log.events, n);
    Regrouped(old(log.events), if u.contained || !w.envExpands(n) then [] else StepEvents(w, n, 0, u.steps),
              [TargetEnd(n, ok)]);
  }

  method RunTargetWithCache(u: Unit, n: string, w: World, registry: bool, log: EventLog) returns (ok: bool)
    requires Scan(log.events, n) == Fresh
    modifies log
    ensures ok == Succeeds(w, u, n, registry)
    ensures OnlyAbout(old(log.events), log.events, n)
    ensures Scan(log.events, n) == Closed
    ensures log.events == old(log.events) + BodyEvents(w, u, n, registry)
  {
    log.Emit(TargetStart(n));
    ghost var begun := log.events;
    ok := RunDecided(u, n, w, registry, log);
    OnlyAboutBoth(old(log.events), begun, log.events, n);
    Regrouped(old(log.events), [TargetStart(n)], DecidedEvents(w, u, n, registry));
  }

  /** The guard, the cache and the steps. */
  method RunDecided(u: Unit, n: string, w: World, registry: bool, log: EventLog) returns (ok: bool)
    requires Scan(log.events, n) == Open(0)
    modifies log
    ensures ok == Succeeds(w, u, n, registry)
    ensures OnlyAbout(old(log.events), log.events, n)
    ensures Scan(log.events, n) == Closed
    ensures log.events == old(log.events) + DecidedEvents(w, u, n, registry)
  {
    if u.guarded && !w.guardHolds(n) {
      log.Emit(Trace.WhenSkip(n));
      return true;
    }
    if u.cached {
      if w.hashFails(n) {
        log.Emit(TargetEnd(n, false));
        return false;
      }
      if w.cacheHit(n) {
        log.Emit(Trace.CacheSkip(n));
        return true;
      }
    }
    ok := RunUncached(u, n, w, registry, log);
    if ok && u.cached {
      ok := w.saves(n);
    }
  }

  /** The unit of a dependency, and of the requested target under a preset. */
  function UnitIn(g: seq<Target>, t: string, presetSteps: nat, n: string): Unit
    requires TargetByName(g, n).Some?
  {
    UnitFor(TargetByName(g, n).value, if n == t then presetSteps else 0)
  }

  /** The options made for a dependency of a sequential run leave out the registry of networks and volumes, which only
      the requested target is given. */
  predicate HasRegistry(w: World, t: string, n: string) {
    n == t && w.docker
  }

  /** All of the order's targets succeed, each with the options it is given. */
  ghost predicate AllSucceed(g: seq<Target>, t: string, presetSteps: nat, w: World, names: seq<string>) {
    forall n :: n in names ==>
      TargetByName(g, n).Some? && Succeeds(w, UnitIn(g, t, presetSteps, n), n, HasRegistry(w, t, n))
  }

  ghost predicate Precedes(events: seq<Event>, x: string, y: string) {
    forall a, b :: 0 <= a < |events| && 0 <= b < |events| && OfTarget(events[a], x) && OfTarget(events[b], y) ==> a < b
  }

  /** All events of an earlier target come before all events of a later one. */
  ghost predicate InOrder(events: seq<Event>, order: seq<string>) {
    forall i, j :: 0 <= i < j < |order| ==> Precedes(events, order[i], order[j])
  }

  lemma {:induction false} OrderGrows(before: seq<Event>, after: seq<Event>, order: seq<string>, k: nat)
    requires NoDuplicates(order) && k < |order| && InOrder(before, order)
    requires OnlyAbout(before, after, order[k])
    requires forall n :: n in order[k..] ==> Silent(before, n)
    ensures InOrder(after, order)
  {
    forall j, b | k < j < |order| && 0 <= b < |after| ensures !OfTarget(after[b], order[j]) {
      assert order[j] in order[k..];
      assert b < |before| ==> after[b] == before[b];
    }
    forall b | 0 <= b < |before| ensures !OfTarget(after[b], order[k]) {
      assert order[k] in order[k..];
      assert after[b] == before[b];
    }
    forall i, a | 0 <= i < |order| && i != k && |before| <= a < |after| ensures !OfTarget(after[a], order[i]) {
      assert OfTarget(after[a], order[k]);
    }
    forall i, j | 0 <= i < j < |order| ensures Precedes(after, order[i], order[j]) {
      assert Precedes(before, order[i], order[j]);
      forall a, b | 0 <= a < |after| && 0 <= b < |after| && OfTarget(after[a], order[i]) && OfTarget(after[b], order[j])
        ensures a < b
      {
        assert a < |before| ==> after[a] == before[a];
        assert b < |before| ==> after[b] == before[b];
      }
    }
  }

  /** The first `i` targets of the order are done, and nothing else has happened. */
  ghost predicate Done(events: seq<Event>, t: string, order: seq<string>, i: nat)
    requires i <= |order|
  {
    && Begun(events, t)
    && (forall n :: Scan(events, n) == if n in order[..i] then Closed else Fresh)
    && InOrder(events, order)
  }

  lemma {:induction false} OneMoreDone(before: seq<Event>, after: seq<Event>, t: string, order: seq<string>, i: nat)
    requires NoDuplicates(order) && i < |order| && Done(before, t, order, i)
    requires OnlyAbout(before, after, order[i]) && Scan(after, order[i]) == Closed
    ensures Done(after, t, order, i + 1)
  {
    assert order[..i + 1] == order[..i] + [order[i]];
    forall m | m in order[i..] ensures Silent(before, m) {
      assert m !in order[..i];
      ScanMeaning(before, m);
    }
    OrderGrows(before, after, order, i);
    forall k | 0 < k < |after| ensures !after[k].RunStart? && !after[k].RunEnd? {
      if k < |before| {
        assert after[k] == before[k];
      }
    }
  }

  lemma {:induction false} NothingDone(t: string, order: seq<string>)
    ensures Done([RunStart(t)], t, order, 0)
  {
    var events := [RunStart(t)];
    forall n ensures Scan(events, n) == Fresh {
      ScanAppend([], RunStart(t), n);
      assert [] + events == events;
    }
    forall i, j | 0 <= i < j < |order| ensures Precedes(events, order[i], order[j]) {
      assert !OfTarget(events[0], order[i]);
    }
  }

  method EndRun(log: EventLog, t: string, ok: bool)
    requires Begun(log.events, t)
    requires forall n :: Scan(log.events, n) == Fresh || Scan(log.events, n) == Closed
    modifies log
    ensures log.events == old(log.events) + [RunEnd(ok)]
    ensures WellBracketed(log.events, t, ok)
    ensures forall n :: Scan(log.events, n) == Scan(old(log.events), n)
    ensures forall x, y :: Precedes(old(log.events), x, y) ==> Precedes(log.events, x, y)
  {
    log.Emit(RunEnd(ok));
    assert log.events[..|log.events| - 1] == old(log.events);
  }

  /** The wait for the pool of the requested target is given up. */
  predicate IsAbandoned(g: seq<Target>, t: string, w: World, n: string) {
    n == t && w.abandoned && TargetByName(g, n).Some? && TargetByName(g, n).value.pool != ""
  }

  /** The run does not get past this target. */
  predicate Stops(g: seq<Target>, t: string, presetSteps: nat, w: World, n: string)
    requires TargetByName(g, n).Some?
  {
    IsAbandoned(g, t, w, n) || !Succeeds(w, UnitIn(g, t, presetSteps, n), n, HasRegistry(w, t, n))
  }

  /** The first target of the order that stops the run is at i. */
  ghost predicate FirstStop(g: seq<Target>, t: string, presetSteps: nat, w: World, order: seq<string>, i: nat) {
    && i < |order| && (forall n :: n in order ==> TargetByName(g, n).Some?)
    && Stops(g, t, presetSteps, w, order[i])
    && forall j :: 0 <= j < i ==> !Stops(g, t, presetSteps, w, order[j])
  }

  /** The events of these targets, one after the other. */
  function EventsOf(g: seq<Target>, t: string, presetSteps: nat, w: World, names: seq<string>): seq<Event> {
    if names == [] then []
    else
      var n := names[|names| - 1];
      EventsOf(g, t, presetSteps, w, names[..|names| - 1])
      + if TargetByName(g, n).None? then []
        else BodyEvents(w, UnitIn(g, t, presetSteps, n), n, HasRegistry(w, t, n))
  }

  /** The error, if any, names the first target that stops the run, `done` targets having been run. */
  ghost predicate StoppedRight(g: seq<Target>, t: string, presetSteps: nat, w: World, order: seq<string>,
                               err: Option<string>, done: nat) {
    if err.None? then done == |order| && forall i: nat :: !FirstStop(g, t, presetSteps, w, order, i)
    else
      exists i: nat :: FirstStop(g, t, presetSteps, w, order, i) && err == Some(order[i])
        && done == if IsAbandoned(g, t, w, order[i]) then i else i + 1
  }

  /** A run that was not stopped before its first target: targets are run in order up to the first that stops it, which
      is the error; the stream holds their events and no others, so that every target before it has its bracket, and
      every target after it is silent. */
  ghost predicate RanInOrder(g: seq<Target>, t: string, presetSteps: nat, w: World, order: seq<string>,
                             err: Option<string>, events: seq<Event>) {
    exists done: nat :: done <= |order| && StoppedRight(g, t, presetSteps, w, order, err, done)
      && events == [RunStart(t)] + EventsOf(g, t, presetSteps, w, order[..done]) + [RunEnd(err.None?)]
      && (forall j :: 0 <= j < done ==> BracketSomewhere(events, order[j]))
      && (forall j :: done <= j < |order| ==> Silent(events, order[j]))
  }

  /** `err` names the target that failed, the unknown dependency, or the requested name. The
      run succeeds exactly when everything it needs does; it executes the order up to the first
      failure, one target after the other. */
  method Run(g: seq<Target>, t: string, presetSteps: nat, w: World) returns (err: Option<string>, log: EventLog)
    ensures WellBracketed(log.events, t, err.None?)
    ensures err.None? <==>
            && TargetByName(g, t).Some? && w.dotenvOk && OrderOf(g, t).Order?
            && AllSucceed(g, t, presetSteps, w, OrderOf(g, t).names)
            && !(TargetByName(g, t).value.pool != "" && w.abandoned)
    ensures OrderOf(g, t).Order? ==> InOrder(log.events, OrderOf(g, t).names)
    ensures TargetByName(g, t).Some? && w.dotenvOk && OrderOf(g, t).Order? ==>
      RanInOrder(g, t, presetSteps, w, OrderOf(g, t).names, err, log.events)
    ensures !(TargetByName(g, t).Some? && w.dotenvOk && OrderOf(g, t).Order?) ==>
      && log.events == [RunStart(t)] + [RunEnd(false)]
      && err == Some(if TargetByName(g, t).None? || !w.dotenvOk then t else OrderOf(g, t).name)
  {
    log := new EventLog();
    log.Emit(RunStart(t));
    if TargetByName(g, t).None? {
      EndRun(log, t, false);
      return Some(t), log;
    }
    if !w.dotenvOk {
      EndRun(log, t, false);
      return Some(t), log;
    }
    var walked := TopoOrder(g, t);
    if walked.Unknown? {
      EndRun(log, t, false);
      return Some(walked.name), log;
    }
    err := RunOrder(g, t, presetSteps, w, walked.names, log);
  }

  method RunOrder(g: seq<Target>, t: string, presetSteps: nat, w: World, order: seq<string>, log: EventLog)
    returns (err: Option<string>)
    requires OrderOf(g, t) == Order(order)
    requires log.events == [RunStart(t)]
    modifies log
    ensures WellBracketed(log.events, t, err.None?)
    ensures err.None? <==>
      AllSucceed(g, t, presetSteps, w, order) && !(TargetByName(g, t).value.pool != "" && w.abandoned)
    ensures InOrder(log.events, order)
    ensures RanInOrder(g, t, presetSteps, w, order, err, log.events)
  {
    ghost var done: nat;
    err, done := RunTargets(g, t, presetSteps, w, order, log);
    ghost var before := log.events;
    EndRun(log, t, err.None?);
    OrderFacts(g, t);
    OrderKept(before, log.events, order);
    BracketsOfDone(log.events, order, done);
    SucceedsUnlessStopped(g, t, presetSteps, w, order);
  }

  lemma {:induction false} OrderKept(before: seq<Event>, after: seq<Event>, order: seq<string>)
    requires InOrder(before, order) && forall x, y :: Precedes(before, x, y) ==> Precedes(after, x, y)
    ensures InOrder(after, order)
  {
    forall i, j | 0 <= i < j < |order| ensures Precedes(after, order[i], order[j]) {
      assert Precedes(before, order[i], order[j]);
    }
  }

  lemma {:induction false} BracketsOfDone(events: seq<Event>, order: seq<string>, done: nat)
    requires NoDuplicates(order) && done <= |order|
    requires forall n :: Scan(events, n) == if n in order[..done] then Closed else Fresh
    ensures forall j :: 0 <= j < done ==> BracketSomewhere(events, order[j])
    ensures forall j :: done <= j < |order| ==> Silent(events, order[j])
  {
    forall j | 0 <= j < done ensures BracketSomewhere(events, order[j]) {
      assert order[j] in order[..done];
      ScanMeaning(events, order[j]);
    }
    forall j | done <= j < |order| ensures Silent(events, order[j]) {
      assert order[j] !in order[..done];
      ScanMeaning(events, order[j]);
    }
  }

  /** No target stops the run exactly when all succeed and the wait for the pool is not given up. */
  lemma {:induction false} SucceedsUnlessStopped(g: seq<Target>, t: string, presetSteps: nat, w: World,
                                                     order: seq<string>)
    requires OrderOf(g, t) == Order(order)
    ensures TargetByName(g, t).Some?
    ensures (forall i: nat :: !FirstStop(g, t, presetSteps, w, order, i)) <==>
      AllSucceed(g, t, presetSteps, w, order) && !(TargetByName(g, t).value.pool != "" && w.abandoned)
  {
    OrderFacts(g, t);
    if forall n :: n in order ==> !Stops(g, t, presetSteps, w, n) {
      assert t in order && !IsAbandoned(g, t, w, t);
    } else {
      var n :| n in order && Stops(g, t, presetSteps, w, n);
      var k :| 0 <= k < |order| && order[k] == n;
      var i := LeastStop(g, t, presetSteps, w, order, k);
      assert n == t || !IsAbandoned(g, t, w, n);
    }
  }

  lemma {:induction false} LeastStop(g: seq<Target>, t: string, presetSteps: nat, w: World, order: seq<string>, k: nat)
    returns (i: nat)
    requires k < |order| && (forall n :: n in order ==> TargetByName(g, n).Some?)
    requires Stops(g, t, presetSteps, w, order[k])
    ensures FirstStop(g, t, presetSteps, w, order, i)
  {
    if j :| 0 <= j < k && Stops(g, t, presetSteps, w, order[j]) {
      i := LeastStop(g, t, presetSteps, w, order, j);
    } else {
      i := k;
    }
  }

  /** The first i targets were run, and nothing else happened. */
  ghost predicate RanUpTo(g: seq<Target>, t: string, presetSteps: nat, w: World, order: seq<string>, i: nat,
                          events: seq<Event>) {
    && i <= |order| && Done(events, t, order, i)
    && events == [RunStart(t)] + EventsOf(g, t, presetSteps, w, order[..i])
  }

  lemma {:induction false} NothingRan(g: seq<Target>, t: string, presetSteps: nat, w: World, order: seq<string>)
    ensures RanUpTo(g, t, presetSteps, w, order, 0, [RunStart(t)])
  {
    NothingDone(t, order);
    assert [RunStart(t)] + [] == [RunStart(t)];
  }

  lemma {:induction false} StopsHere(g: seq<Target>, t: string, presetSteps: nat, w: World, order: seq<string>, i: nat)
    requires i < |order| && (forall n :: n in order ==> TargetByName(g, n).Some?)
    requires Stops(g, t, presetSteps, w, order[i])
    requires forall j :: 0 <= j < i ==> !Stops(g, t, presetSteps, w, order[j])
    ensures StoppedRight(g, t, presetSteps, w, order, Some(order[i]),
                         if IsAbandoned(g, t, w, order[i]) then i else i + 1)
  {
    assert FirstStop(g, t, presetSteps, w, order, i);
  }

  method RunTargets(g: seq<Target>, t: string, presetSteps: nat, w: World, order: seq<string>, log: EventLog)
    returns (err: Option<string>, ghost done: nat)
    requires OrderOf(g, t) == Order(order)
    requires log.events == [RunStart(t)]
    modifies log
    ensures RanUpTo(g, t, presetSteps, w, order, done, log.events)
    ensures StoppedRight(g, t, presetSteps, w, order, err, done)
  {
    OrderFacts(g, t);
    NothingRan(g, t, presetSteps, w, order);
    for i := 0 to |order|
      invariant RanUpTo(g, t, presetSteps, w, order, i, log.events)
      invariant forall j :: 0 <= j < i ==> !Stops(g, t, presetSteps, w, order[j])
    {
      var n := order[i];
      var u := UnitIn(g, t, presetSteps, n);
      if n == t && u.pool != "" && w.abandoned {
        StopsHere(g, t, presetSteps, w, order, i);
        return Some(n), i;
      }
      var ok := RunNext(g, t, presetSteps, w, order, i, log);
      if !ok {
        StopsHere(g, t, presetSteps, w, order, i);
        return Some(n), i + 1;
      }
    }
    return None, |order|;
  }

  /** One target of the order. */
  method RunNext(g: seq<Target>, t: string, presetSteps: nat, w: World, order: seq<string>, i: nat, log: EventLog)
    returns (ok: bool)
    requires i < |order| && NoDuplicates(order) && TargetByName(g, order[i]).Some?
    requires RanUpTo(g, t, presetSteps, w, order, i, log.events)
    modifies log
    ensures ok == Succeeds(w, UnitIn(g, t, presetSteps, order[i]), order[i], HasRegistry(w, t, order[i]))
    ensures RanUpTo(g, t, presetSteps, w, order, i + 1, log.events)
  {
    var n := order[i];
    assert n !in order[..i];
    ghost var before := log.events;
    ok := RunTargetWithCache(UnitIn(g, t, presetSteps, n), n, w, HasRegistry(w, t, n), log);
    OneMoreDone(before, log.events, t, order, i);
    OneMoreOf(g, t, presetSteps, w, order, i);
  }

  lemma {:induction false} OneMoreOf(g: seq<Target>, t: string, presetSteps: nat, w: World, order: seq<string>, i: nat)
    requires i < |order| && TargetByName(g, order[i]).Some?
    ensures var n := order[i];
      [RunStart(t)] + EventsOf(g, t, presetSteps, w, order[..i + 1]) ==
        [RunStart(t)] + EventsOf(g, t, presetSteps, w, order[..i])
        + BodyEvents(w, UnitIn(g, t, presetSteps, n), n, HasRegistry(w, t, n))
  {
    assert order[..i + 1][..i] == order[..i];
  }

  lemma {:induction false} OrderFacts(g: seq<Target>, t: string)
    requires OrderOf(g, t).Order?
    ensures var order := OrderOf(g, t).names;
            && NoDuplicates(order) && order != [] && order[|order| - 1] == t
            && (forall n :: n in order ==> TargetByName(g, n).Some?)
  {
    TopoOrderSound(g, t);
    WalkFromStart(g, t);
  }
}
