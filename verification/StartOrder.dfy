/** In which order daemons are started, and how far a workflow gets (internal/baked/hotreload.go, run.go). */
module StartOrder {
  import opened Config
  import opened HotReload

  ghost predicate Precedes(ds: seq<Daemon>, a: Daemon, b: Daemon) {
    exists i, j :: 0 <= i < j < |ds| && ds[i] == a && ds[j] == b
  }

  lemma {:induction false} PrecedesInLonger(ds: seq<Daemon>, a: Daemon, b: Daemon)
    requires ds != [] && (Precedes(ds[..|ds| - 1], a, b) || (a in ds[..|ds| - 1] && b == ds[|ds| - 1]))
    ensures Precedes(ds, a, b)
  {
    var init := ds[..|ds| - 1];
    if Precedes(init, a, b) {
      var i, j :| 0 <= i < j < |init| && init[i] == a && init[j] == b;
      assert ds[i] == a && ds[j] == b;
    } else {
      var i :| 0 <= i < |init| && init[i] == a;
      assert ds[i] == a && ds[|ds| - 1] == b;
    }
  }

  // ------------------------------------------------------------------ the lists of the diff

  lemma {:induction false} UnknownInOrder(ds: seq<Daemon>, m: map<string, Daemon>, i: nat, j: nat)
    requires i < j < |Unknown(ds, m)|
    ensures Precedes(ds, Unknown(ds, m)[i], Unknown(ds, m)[j])
  {
    var init := ds[..|ds| - 1];
    if j < |Unknown(init, m)| {
      UnknownInOrder(init, m, i, j);
    } else {
      UnknownHolds(init, m, Unknown(init, m)[i]);
    }
    PrecedesInLonger(ds, Unknown(ds, m)[i], Unknown(ds, m)[j]);
  }

  lemma {:induction false} AlteredInOrder(ds: seq<Daemon>, m: map<string, Daemon>, i: nat, j: nat)
    requires i < j < |Altered(ds, m)|
    ensures Precedes(ds, Altered(ds, m)[i], Altered(ds, m)[j])
  {
    var init := ds[..|ds| - 1];
    if j < |Altered(init, m)| {
      AlteredInOrder(init, m, i, j);
    } else {
      AlteredHolds(init, m, Altered(init, m)[i]);
    }
    PrecedesInLonger(ds, Altered(ds, m)[i], Altered(ds, m)[j]);
  }

  lemma {:induction false} NeverBoth(ds: seq<Daemon>, a: Daemon, b: Daemon)
    requires Distinct(ds) && Precedes(ds, a, b)
    ensures !Precedes(ds, b, a) && a.name != b.name
  {
  }

  lemma {:induction false} PrecedesAmongUnknown(ds: seq<Daemon>, m: map<string, Daemon>, a: Daemon, b: Daemon)
    requires Distinct(ds) && Precedes(ds, a, b) && a in Unknown(ds, m) && b in Unknown(ds, m)
    ensures Precedes(Unknown(ds, m), a, b)
  {
    var u := Unknown(ds, m);
    var i :| 0 <= i < |u| && u[i] == a;
    var j :| 0 <= j < |u| && u[j] == b;
    NeverBoth(ds, a, b);
    if j < i {
      UnknownInOrder(ds, m, j, i);
    }
  }

  lemma {:induction false} PrecedesAmongAltered(ds: seq<Daemon>, m: map<string, Daemon>, a: Daemon, b: Daemon)
    requires Distinct(ds) && Precedes(ds, a, b) && a in Altered(ds, m) && b in Altered(ds, m)
    ensures Precedes(Altered(ds, m), a, b)
  {
    var u := Altered(ds, m);
    var i :| 0 <= i < |u| && u[i] == a;
    var j :| 0 <= j < |u| && u[j] == b;
    NeverBoth(ds, a, b);
    if j < i {
      AlteredInOrder(ds, m, j, i);
    }
  }

  // ------------------------------------------------------------------ the loops

  /** Both entries are there, and a's process was started first. */
  predicate StartedFirst(t: State, a: Daemon, b: Daemon) {
    && a.name in t.table && b.name in t.table
    && t.table[a.name].process < t.table[b.name].process
  }

  lemma {:induction false} StartAllInOrder(s: State, ds: seq<Daemon>, w: World, a: Daemon, b: Daemon)
    requires Numbered(s) && Distinct(ds) && Precedes(ds, a, b) && Lands(w, a) && Lands(w, b)
    ensures StartedFirst(StartAll(s, ds, w), a, b)
  {
    var init, last := ds[..|ds| - 1], ds[|ds| - 1];
    LastIsNew(ds);
    StartAllKeeps(s, init, w);
    var i, j :| 0 <= i < j < |ds| && ds[i] == a && ds[j] == b;
    assert init[i] == a;
    if j < |init| {
      assert init[j] == b;
      StartAllInOrder(s, init, w, a, b);
      StartedElsewhere(StartAll(s, init, w), last, w, a.name);
      StartedElsewhere(StartAll(s, init, w), last, w, b.name);
    } else {
      StartAllAt(s, init, w, a);
      StartedLater(StartAll(s, init, w), last, w, a);
    }
  }

  lemma {:induction false} StartedElsewhere(s: State, d: Daemon, w: World, n: string)
    requires n != d.name
    ensures Stays(s, Started(s, d, w), n)
  {
  }

  lemma {:induction false} StartedLater(s: State, d: Daemon, w: World, a: Daemon)
    requires Numbered(s) && Lands(w, d) && a.name in s.table && a.name != d.name
    ensures StartedFirst(Started(s, d, w), a, d)
  {
  }

  lemma {:induction false} RestartAllInOrder(s: State, ds: seq<Daemon>, w: World, a: Daemon, b: Daemon)
    requires Numbered(s) && Distinct(ds) && Precedes(ds, a, b) && Lands(w, a) && Lands(w, b)
    ensures StartedFirst(RestartAll(s, ds, w), a, b)
  {
    var init, last := ds[..|ds| - 1], ds[|ds| - 1];
    LastIsNew(ds);
    RestartAllKeeps(s, init, w);
    var r := RestartAll(s, init, w);
    var i, j :| 0 <= i < j < |ds| && ds[i] == a && ds[j] == b;
    assert init[i] == a;
    RestartElsewhere(r, last, w, a.name);
    if j < |init| {
      assert init[j] == b;
      RestartAllInOrder(s, init, w, a, b);
      RestartElsewhere(r, last, w, b.name);
    } else {
      RestartAllAt(s, init, w, a);
      StoppedKeeps(r, last.name, w);
    }
  }

  /** A reload restarts the changed daemons before it starts the added ones, each in the order of the configuration. */
  lemma {:induction false} ReloadInOrder(s: State, was: seq<Daemon>, now: seq<Daemon>, w: World, a: Daemon, b: Daemon)
    requires Numbered(s) && Distinct(was) && Distinct(now) && Lands(w, a) && Lands(w, b)
    requires var added, changed := Unknown(now, ByName(was)), Altered(now, ByName(was));
      || (a in changed && b in added)
      || (Precedes(now, a, b) && ((a in changed && b in changed) || (a in added && b in added)))
    ensures StartedFirst(Reloaded(s, was, now, w), a, b)
  {
    var m := ByName(was);
    var added, changed := Unknown(now, m), Altered(now, m);
    var gone := Unknown(was, ByName(now));
    UnknownDistinct(was, ByName(now));
    UnknownDistinct(now, m);
    AlteredDistinct(now, m);
    StopAllKeeps(s, gone, w);
    var t := StopAll(s, gone, w);
    RestartAllKeeps(t, changed, w);
    var u := RestartAll(t, changed, w);
    if a in changed {
      ChangedIsNotAdded(now, m, a);
      StartAllElsewhere(u, added, w, a.name);
      RestartAllAt(t, changed, w, a);
      if b in added {
        StartAllAt(u, added, w, b);
      } else {
        PrecedesAmongAltered(now, m, a, b);
        RestartAllInOrder(t, changed, w, a, b);
        ChangedIsNotAdded(now, m, b);
        StartAllElsewhere(u, added, w, b.name);
      }
    } else {
      PrecedesAmongUnknown(now, m, a, b);
      StartAllInOrder(u, added, w, a, b);
    }
  }

  lemma {:induction false} ChangedIsNotAdded(now: seq<Daemon>, m: map<string, Daemon>, d: Daemon)
    requires d in Altered(now, m)
    ensures !Named(Unknown(now, m), d.name)
  {
    AlteredHolds(now, m, d);
    forall e | Defines(Unknown(now, m), e) ensures e.name != d.name {
      UnknownHolds(now, m, e);
    }
  }

  // ------------------------------------------------------------------ how far a workflow gets

  /** The daemons among some names; a name of a target is always taken for the target. */
  function DaemonsAmong(cfg: File, names: seq<string>): seq<Daemon> {
    if names == [] then []
    else
      var d := FirstNamed(UpDaemons(cfg), names[|names| - 1]);
      DaemonsAmong(cfg, names[..|names| - 1])
      + (if TargetByName(cfg.targets, names[|names| - 1]).None? && d.Some? then [d.value] else [])
  }

  /** A daemon that starts and cannot be recorded ends the workflow, running. */
  function LeftRunning(cfg: File, n: string, w: World): seq<Daemon> {
    var d := FirstNamed(UpDaemons(cfg), n);
    if TargetByName(cfg.targets, n).None? && d.Some? && Starts(w, d.value) && !w.records(d.value) then [d.value] else []
  }

  lemma {:induction false} BroughtSplits(cfg: File, names: seq<string>, w: World, k: nat)
    requires k <= |names| && forall i :: 0 <= i < k ==> Works(cfg, names[i], w)
    ensures Brought(cfg, names, w) == DaemonsAmong(cfg, names[..k]) + Brought(cfg, names[k..], w)
  {
    if k == 0 {
      assert names[0..] == names;
    } else {
      BroughtSplits(cfg, names, w, k - 1);
      assert names[..k][..k - 1] == names[..k - 1] && names[k - 1..][1..] == names[k..];
      BroughtStep(cfg, names[k - 1..], w, DaemonsAmong(cfg, names[..k - 1]), DaemonsAmong(cfg, names[..k]));
    }
  }

  lemma {:induction false} BroughtStep(cfg: File, names: seq<string>, w: World, before: seq<Daemon>, after: seq<Daemon>)
    requires names != [] && Works(cfg, names[0], w)
    requires var d := FirstNamed(UpDaemons(cfg), names[0]);
      after == before + (if TargetByName(cfg.targets, names[0]).None? && d.Some? then [d.value] else [])
    ensures before + Brought(cfg, names, w) == after + Brought(cfg, names[1..], w)
  {
  }

  /** `up` starts the daemons that come before the first name that does not work, in order, and that name's own if
      it starts but cannot be recorded; all of them if every name works. */
  lemma {:induction false} UpStopsAtFirst(cfg: File, names: seq<string>, w: World, k: nat)
    requires k <= |names| && forall i :: 0 <= i < k ==> Works(cfg, names[i], w)
    requires k < |names| ==> !Works(cfg, names[k], w)
    ensures Brought(cfg, names, w) ==
      DaemonsAmong(cfg, names[..k]) + if k < |names| then LeftRunning(cfg, names[k], w) else []
  {
    BroughtSplits(cfg, names, w, k);
  }

  /** Of several daemons of one name the first is meant. */
  lemma {:induction false} FirstIsMeant(ds: seq<Daemon>, i: nat)
    requires i < |ds| && forall j :: 0 <= j < i ==> ds[j].name != ds[i].name
    ensures FirstNamed(ds, ds[i].name) == Some(ds[i])
  {
    if i > 0 {
      FirstIsMeant(ds[1..], i - 1);
    }
  }
}
