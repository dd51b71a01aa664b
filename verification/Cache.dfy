/** The incremental cache (internal/cache/cache.go). */
module Cache {
  // With the decision of the runner to skip (internal/runner/runner.go) and its explanation (internal/runner/why.go).
  // Files are a map from path to content; glob patterns of a target are the paths they select.

  import opened Config
  import opened Hashing

  /** What the runner reads of one target: its name, step signature, whether it has both inputs and outputs, and the
      paths its patterns select. */
  datatype Job = Job(name: Text, sig: Text, cached: bool, isInput: Path -> bool, isOutput: Path -> bool)

  /** A step signature is a SHA-256 result. */
  predicate Signed(j: Job) {
    |j.sig| == 32
  }

  datatype Manifest = Manifest(targetName: Text, inputHash: Text, inputHashes: map<Path, Text>, outputPaths: set<Path>)

  // ------------------------------------------------------------------------ hashing

  function Inputs(files: Files, j: Job): Files {
    map p | p in files && j.isInput(p) :: files[p]
  }

  function Digests(h: Hash, inputs: Files): map<Path, Text> {
    map p | p in inputs :: h.sha(inputs[p])
  }

  /** The list of paths and digests a run of the target would hash. */
  function ListingIn(h: Hash, files: Files, j: Job): Text {
    ListingOf(h, Inputs(files, j))
  }

  function KeyFor(h: Hash, name: Text, sig: Text, listing: Text): Text {
    Key(h, name, InputHash(h, listing), sig)
  }

  lemma {:induction false} DigestsDetermine(h: Hash, x: Files, y: Files)
    requires Ideal(h) && Digests(h, x) == Digests(h, y)
    ensures x == y
  {
    assert x.Keys == Digests(h, x).Keys == Digests(h, y).Keys == y.Keys;
    forall p | p in x ensures x[p] == y[p] {
      assert Digests(h, x)[p] == Digests(h, y)[p];
    }
  }

  // ---------------------------------------------------------------------- the decision

  predicate Hit(h: Hash, files: Files, manifests: map<Text, Manifest>, j: Job) {
    var listing := ListingIn(h, files, j);
    var key := KeyFor(h, j.name, j.sig, listing);
    && key in manifests
    && manifests[key].inputHash == InputHash(h, listing)
    && forall p :: p in manifests[key].outputPaths ==> p in files
  }

  // ------------------------------------------------------------- histories of edits and runs

  /** A run between its decision and its end: the inputs it hashed. */
  datatype Pending = Pending(job: Job, inputs: Files)

  /** What happened to the cache: a run ended well and was saved, with `disk` the paths that existed then, or a
      manifest was deleted. */
  datatype Deed = Saved(job: Job, inputs: Files, disk: set<Path>) | Dropped(key: Text)

  /** The outputs a saved run records. */
  function Recorded(e: Deed): set<Path>
    requires e.Saved?
  {
    set p | p in e.disk && e.job.isOutput(p)
  }

  function ManifestOf(h: Hash, e: Deed): Manifest
    requires e.Saved?
  {
    Manifest(e.job.name, InputHash(h, ListingOf(h, e.inputs)), Digests(h, e.inputs), Recorded(e))
  }

  datatype State = State(files: Files, manifests: map<Text, Manifest>, pending: map<nat, Pending>, deeds: seq<Deed>)

  /** Runs are numbered. Edits, the work of steps and other runs interleave freely between begin and end. */
  datatype Action =
    | Write(p: Path, content: Text)
    | Delete(p: Path)
    | Begin(run: nat, job: Job)
    | End(run: nat, ok: bool, saves: bool)
    | Drop(key: Text)

  predicate Enabled(s: State, a: Action) {
    match a
    case Begin(r, j) => Signed(j) && j.cached
    case End(r, _, _) => r in s.pending
    case _ => true
  }

  function Apply(h: Hash, s: State, a: Action): State
    requires Enabled(s, a)
  {
    match a
    case Write(p, c) => s.(files := s.files[p := c])
    case Delete(p) => s.(files := s.files - {p})
    case Begin(r, j) =>
      if Hit(h, s.files, s.manifests, j) then s.(pending := s.pending - {r})
      else s.(pending := s.pending[r := Pending(j, Inputs(s.files, j))])
    case End(r, ok, saves) =>
      var p := s.pending[r];
      var t := s.(pending := s.pending - {r});
      if ok && saves then
        var e := Saved(p.job, p.inputs, s.files.Keys);
        t.(manifests := s.manifests[KeyFor(h, p.job.name, p.job.sig, ListingOf(h, p.inputs)) := ManifestOf(h, e)],
           deeds := s.deeds + [e])
      else t
    case Drop(key) => s.(manifests := s.manifests - {key}, deeds := s.deeds + [Dropped(key)])
  }

  const START := State(map[], map[], map[], [])

  function After(h: Hash, acts: seq<Action>): Option<State> {
    if acts == [] then Some(START)
    else
      var a := acts[|acts| - 1];
      match After(h, acts[..|acts| - 1])
      case None => None
      case Some(s) => if Enabled(s, a) then Some(Apply(h, s, a)) else None
  }

  predicate SavedFor(h: Hash, e: Deed, name: Text, sig: Text, listing: Text) {
    e.Saved? && e.job.name == name && e.job.sig == sig && ListingOf(h, e.inputs) == listing
  }

  /** The simple cache: the last saved run of the same name, signature and list of inputs, unless its manifest was
      deleted since. */
  function Latest(h: Hash, deeds: seq<Deed>, name: Text, sig: Text, listing: Text): (r: Option<Deed>)
    ensures r.Some? ==> SavedFor(h, r.value, name, sig, listing)
  {
    if deeds == [] then None
    else
      var before := Latest(h, deeds[..|deeds| - 1], name, sig, listing);
      var e := deeds[|deeds| - 1];
      if SavedFor(h, e, name, sig, listing) then Some(e)
      else if e == Dropped(KeyFor(h, name, sig, listing)) then None
      else before
  }

  ghost predicate DeedsSigned(s: State) {
    && (forall e :: e in s.deeds && e.Saved? ==> Signed(e.job))
    && (forall r :: r in s.pending ==> Signed(s.pending[r].job))
  }

  /** The store keyed by hashes says what the history says. */
  ghost predicate StoreRight(h: Hash, s: State) {
    && (forall j: Job, l: Text :: Signed(j) ==> LookupRight(h, s, j, l))
    && (forall k :: k in s.manifests ==> exists j: Job, l: Text :: Signed(j) && KeyedBy(h, k, j, l))
  }

  ghost predicate KeyedBy(h: Hash, k: Text, j: Job, listing: Text) {
    k == KeyFor(h, j.name, j.sig, listing)
  }

  ghost predicate LookupRight(h: Hash, s: State, j: Job, listing: Text) {
    var key := KeyFor(h, j.name, j.sig, listing);
    match Latest(h, s.deeds, j.name, j.sig, listing)
    case None => key !in s.manifests
    case Some(e) => key in s.manifests && s.manifests[key] == ManifestOf(h, e)
  }

  lemma {:induction false} StepKeeps(h: Hash, s: State, a: Action)
    requires Ideal(h) && StoreRight(h, s) && DeedsSigned(s) && Enabled(s, a)
    ensures StoreRight(h, Apply(h, s, a)) && DeedsSigned(Apply(h, s, a))
  {
    LookupsKept(h, s, a);
    forall k | k in Apply(h, s, a).manifests ensures exists j: Job, l: Text :: Signed(j) && KeyedBy(h, k, j, l) {
      KeyedStep(h, s, a, k);
    }
    DeedsStep(h, s, a);
  }

  lemma {:induction false} LookupsKept(h: Hash, s: State, a: Action)
    requires Ideal(h) && StoreRight(h, s) && DeedsSigned(s) && Enabled(s, a)
    ensures forall j: Job, l: Text :: Signed(j) ==> LookupRight(h, Apply(h, s, a), j, l)
  {
    forall j: Job, l: Text | Signed(j) ensures LookupRight(h, Apply(h, s, a), j, l) {
      assert LookupRight(h, s, j, l);
      LookupStep(h, s, a, j, l);
    }
  }

  lemma {:induction false} DeedsStep(h: Hash, s: State, a: Action)
    requires DeedsSigned(s) && Enabled(s, a)
    ensures DeedsSigned(Apply(h, s, a))
  {
  }

  lemma {:induction false} KeyedStep(h: Hash, s: State, a: Action, k: Text)
    requires StoreRight(h, s) && DeedsSigned(s) && Enabled(s, a) && k in Apply(h, s, a).manifests
    ensures exists j: Job, l: Text :: Signed(j) && KeyedBy(h, k, j, l)
  {
    if k !in s.manifests {
      var p := s.pending[a.run];
      assert KeyedBy(h, k, p.job, ListingOf(h, p.inputs));
    }
  }

  lemma {:induction false} LookupStep(h: Hash, s: State, a: Action, j: Job, listing: Text)
    requires Ideal(h) && DeedsSigned(s) && Enabled(s, a) && Signed(j) && LookupRight(h, s, j, listing)
    ensures LookupRight(h, Apply(h, s, a), j, listing)
  {
    var t := Apply(h, s, a);
    if a.End? && a.ok && a.saves {
      var p := s.pending[a.run];
      LookupAfterSave(h, s, t, Saved(p.job, p.inputs, s.files.Keys), j, listing);
    } else if a.Drop? {
      LookupAfterDrop(h, s, t, a.key, j, listing);
    } else {
      assert t.deeds == s.deeds && t.manifests == s.manifests;
    }
  }

  lemma {:induction false} LookupAfterSave(h: Hash, s: State, t: State, e: Deed, j: Job, listing: Text)
    requires Ideal(h) && e.Saved? && Signed(e.job) && Signed(j) && LookupRight(h, s, j, listing)
    requires t.deeds == s.deeds + [e]
    requires t.manifests == s.manifests[KeyFor(h, e.job.name, e.job.sig, ListingOf(h, e.inputs)) := ManifestOf(h, e)]
    ensures LookupRight(h, t, j, listing)
  {
    assert t.deeds[..|t.deeds| - 1] == s.deeds;
    if KeyFor(h, j.name, j.sig, listing) == KeyFor(h, e.job.name, e.job.sig, ListingOf(h, e.inputs)) {
      KeyDetermines(h, j.name, listing, j.sig, e.job.name, ListingOf(h, e.inputs), e.job.sig);
    }
  }

  lemma {:induction false} LookupAfterDrop(h: Hash, s: State, t: State, key: Text, j: Job, listing: Text)
    requires LookupRight(h, s, j, listing)
    requires t.deeds == s.deeds + [Dropped(key)] && t.manifests == s.manifests - {key}
    ensures LookupRight(h, t, j, listing)
  {
    assert t.deeds[..|t.deeds| - 1] == s.deeds;
  }

  lemma {:induction false} StoreFollowsHistory(h: Hash, acts: seq<Action>)
    requires Ideal(h) && After(h, acts).Some?
    ensures StoreRight(h, After(h, acts).value) && DeedsSigned(After(h, acts).value)
  {
    if acts != [] {
      StoreFollowsHistory(h, acts[..|acts| - 1]);
      StepKeeps(h, After(h, acts[..|acts| - 1]).value, acts[|acts| - 1]);
    }
  }

  ghost predicate AllExist(files: Files, out: set<Path>) {
    forall p :: p in out ==> p in files
  }

  /** The run whose entry the target would find. */
  function Found(h: Hash, s: State, j: Job): Option<Deed> {
    Latest(h, s.deeds, j.name, j.sig, ListingIn(h, s.files, j))
  }

  /** After any history, a target is skipped if and only if the last saved run of the same name, signature and list of
      inputs still counts and every output it recorded exists. */
  lemma {:induction false} SkipsExactly(h: Hash, acts: seq<Action>, j: Job)
    requires Ideal(h) && After(h, acts).Some? && Signed(j)
    ensures var s := After(h, acts).value;
      Hit(h, s.files, s.manifests, j) <==> Found(h, s, j).Some? && AllExist(s.files, Recorded(Found(h, s, j).value))
  {
    StoreFollowsHistory(h, acts);
    var s := After(h, acts).value;
    assert LookupRight(h, s, j, ListingIn(h, s.files, j));
  }

  lemma {:induction false} LatestWasSaved(h: Hash, deeds: seq<Deed>, name: Text, sig: Text, listing: Text)
    requires Latest(h, deeds, name, sig, listing).Some?
    ensures Latest(h, deeds, name, sig, listing).value in deeds
  {
    var e := deeds[|deeds| - 1];
    if !SavedFor(h, e, name, sig, listing) {
      LatestWasSaved(h, deeds[..|deeds| - 1], name, sig, listing);
    }
  }

  /** Soundness: a skip rests on an earlier run of that name and signature that finished its steps and was saved, all of
      whose outputs exist now, and whose inputs were the present ones if and only if they had the present paths. */
  lemma {:induction false} SkipIsSound(h: Hash, acts: seq<Action>, j: Job)
    requires Ideal(h) && After(h, acts).Some? && Signed(j)
    requires Hit(h, After(h, acts).value.files, After(h, acts).value.manifests, j)
    ensures var s := After(h, acts).value;
      exists e :: (e in s.deeds && SavedFor(h, e, j.name, j.sig, ListingIn(h, s.files, j))
        && AllExist(s.files, Recorded(e))
        && (e.inputs == Inputs(s.files, j) <==> e.inputs.Keys == Inputs(s.files, j).Keys))
  {
    SkipsExactly(h, acts, j);
    var s := After(h, acts).value;
    LatestWasSaved(h, s.deeds, j.name, j.sig, ListingIn(h, s.files, j));
    ListingDeterminesExactly(h, Found(h, s, j).value.inputs, Inputs(s.files, j));
  }

  /** Effectiveness: when a run ends well and is saved, and its inputs read now as they did when it began, the
      target is up to date at once. */
  lemma {:induction false} RerunSkips(h: Hash, acts: seq<Action>, run: nat)
    requires Ideal(h) && After(h, acts).Some? && run in After(h, acts).value.pending
    requires var s := After(h, acts).value; Inputs(s.files, s.pending[run].job) == s.pending[run].inputs
    ensures var s := After(h, acts).value; var t := Apply(h, s, End(run, true, true));
      Hit(h, t.files, t.manifests, s.pending[run].job)
  {
  }

  // --------------------------------------------------------- the schedule behind the entries

  /** The action begins or ends that run. */
  predicate Concerns(a: Action, run: nat) {
    (a.Begin? || a.End?) && a.run == run
  }

  /** The run begun at i is not begun again or ended from there up to k. */
  ghost predicate Undisturbed(acts: seq<Action>, i: nat, k: nat)
    requires i < k <= |acts| && acts[i].Begin?
  {
    forall m :: i < m < k ==> !Concerns(acts[m], acts[i].run)
  }

  /** A run of that name, signature and list of inputs was begun at i, and ended at k with all steps done and its
      manifest written. */
  ghost predicate CompletedAt(h: Hash, acts: seq<Action>, i: nat, k: nat, name: Text, sig: Text, listing: Text) {
    && i < k < |acts| && acts[i].Begin? && acts[k] == End(acts[i].run, true, true) && Undisturbed(acts, i, k)
    && acts[i].job.name == name && acts[i].job.sig == sig
    && After(h, acts[..i]).Some? && ListingIn(h, After(h, acts[..i]).value.files, acts[i].job) == listing
  }

  /** The manifest under that key was deleted after k. */
  ghost predicate DroppedAfter(acts: seq<Action>, k: nat, key: Text) {
    exists m :: k < m < |acts| && acts[m] == Drop(key)
  }

  /** The entry that the run begun at i and ended at k has left. */
  ghost predicate LeftBy(h: Hash, acts: seq<Action>, i: nat, k: nat, e: Deed) {
    && i < k < |acts| && acts[i].Begin? && After(h, acts[..i]).Some? && After(h, acts[..k]).Some?
    && e == Saved(acts[i].job, Inputs(After(h, acts[..i]).value.files, acts[i].job),
                  After(h, acts[..k]).value.files.Keys)
  }

  /** A run that is open was begun, and not disturbed since. */
  lemma {:induction false} PendingBegan(h: Hash, acts: seq<Action>, run: nat) returns (i: nat)
    requires After(h, acts).Some? && run in After(h, acts).value.pending
    ensures i < |acts| && acts[i].Begin? && acts[i].run == run && Undisturbed(acts, i, |acts|)
    ensures After(h, acts[..i]).Some?
    ensures After(h, acts).value.pending[run] ==
      Pending(acts[i].job, Inputs(After(h, acts[..i]).value.files, acts[i].job))
  {
    var init, a := acts[..|acts| - 1], acts[|acts| - 1];
    if Concerns(a, run) {
      i := |acts| - 1;
    } else {
      i := PendingBegan(h, init, run);
      assert init[..i] == acts[..i];
    }
  }

  lemma {:induction false} OneBegin(acts: seq<Action>, i: nat, j: nat, k: nat)
    requires i < k <= |acts| && acts[i].Begin? && Undisturbed(acts, i, k)
    requires j < k && acts[j].Begin? && acts[j].run == acts[i].run && Undisturbed(acts, j, k)
    ensures i == j
  {
    assert i < j ==> Concerns(acts[j], acts[i].run);
    assert j < i ==> Concerns(acts[i], acts[j].run);
  }

  lemma {:induction false} CompletedBefore(h: Hash, acts: seq<Action>, i: nat, k: nat, name: Text, sig: Text,
                                           listing: Text)
    requires acts != [] && k < |acts| - 1
    ensures CompletedAt(h, acts, i, k, name, sig, listing) <==>
      CompletedAt(h, acts[..|acts| - 1], i, k, name, sig, listing)
  {
    var init := acts[..|acts| - 1];
    if i < k {
      assert init[..i] == acts[..i];
      assert forall m :: 0 <= m <= k ==> init[m] == acts[m];
    }
  }

  /** Every completed run for the lookup has had its manifest deleted. */
  ghost predicate AllDropped(h: Hash, acts: seq<Action>, name: Text, sig: Text, listing: Text) {
    forall i, k: nat :: CompletedAt(h, acts, i, k, name, sig, listing) ==>
      DroppedAfter(acts, k, KeyFor(h, name, sig, listing))
  }

  /** What the history of deeds says of one lookup is what the schedule says. */
  ghost predicate LatestRight(h: Hash, acts: seq<Action>, name: Text, sig: Text, listing: Text)
    requires After(h, acts).Some?
  {
    match Latest(h, After(h, acts).value.deeds, name, sig, listing)
    case None => AllDropped(h, acts, name, sig, listing)
    case Some(e) => exists i, k: nat :: Stands(h, acts, i, k, name, sig, listing) && LeftBy(h, acts, i, k, e)
  }

  /** The run begun at i and ended at k is the last completed one for the lookup, and its manifest was not deleted. */
  ghost predicate Stands(h: Hash, acts: seq<Action>, i: nat, k: nat, name: Text, sig: Text, listing: Text) {
    && CompletedAt(h, acts, i, k, name, sig, listing)
    && !DroppedAfter(acts, k, KeyFor(h, name, sig, listing))
    && forall l, m: nat :: m > k ==> !CompletedAt(h, acts, l, m, name, sig, listing)
  }

  /** No completed run for the lookup ends at k. */
  ghost predicate NoneEndsAt(h: Hash, acts: seq<Action>, k: nat, name: Text, sig: Text, listing: Text) {
    forall l: nat :: !CompletedAt(h, acts, l, k, name, sig, listing)
  }

  lemma {:induction false} LatestFollowsSchedule(h: Hash, acts: seq<Action>, name: Text, sig: Text, listing: Text)
    requires After(h, acts).Some?
    ensures LatestRight(h, acts, name, sig, listing)
    decreases |acts|
  {
    if acts != [] {
      var init, a := acts[..|acts| - 1], acts[|acts| - 1];
      LatestFollowsSchedule(h, init, name, sig, listing);
      if a.End? && a.ok && a.saves {
        AfterCompleted(h, acts, name, sig, listing);
      } else if a.Drop? {
        AfterDropped(h, acts, name, sig, listing);
      } else {
        AfterOther(h, acts, name, sig, listing);
      }
    }
  }

  /** The last action completes a run, and is the only way it could. */
  lemma {:induction false} LastCompletes(h: Hash, acts: seq<Action>) returns (i: nat)
    requires acts != [] && After(h, acts).Some?
    requires acts[|acts| - 1].End? && acts[|acts| - 1].ok && acts[|acts| - 1].saves
    ensures var init := acts[..|acts| - 1];
      var d := After(h, acts).value.deeds;
      && d != [] && d[..|d| - 1] == After(h, init).value.deeds && LeftBy(h, acts, i, |acts| - 1, d[|d| - 1])
      && Undisturbed(acts, i, |acts| - 1) && acts[|acts| - 1] == End(acts[i].run, true, true)
      && (forall l: nat ::
            l < |acts| - 1 && acts[l].Begin? && acts[l].run == acts[i].run && Undisturbed(acts, l, |acts| - 1)
            ==> l == i)
  {
    var init, a := acts[..|acts| - 1], acts[|acts| - 1];
    i := PendingBegan(h, init, a.run);
    assert init[..i] == acts[..i];
    forall l: nat | l < |acts| - 1 && acts[l].Begin? && acts[l].run == acts[i].run && Undisturbed(acts, l, |acts| - 1)
      ensures l == i
    {
      OneBegin(acts, i, l, |acts| - 1);
    }
  }

  lemma {:induction false} StandsStill(h: Hash, acts: seq<Action>, i: nat, k: nat, e: Deed, name: Text, sig: Text,
                                       listing: Text)
    requires acts != [] && After(h, acts).Some?
    requires Stands(h, acts[..|acts| - 1], i, k, name, sig, listing) && LeftBy(h, acts[..|acts| - 1], i, k, e)
    requires acts[|acts| - 1] != Drop(KeyFor(h, name, sig, listing))
    requires NoneEndsAt(h, acts, |acts| - 1, name, sig, listing)
    ensures Stands(h, acts, i, k, name, sig, listing) && LeftBy(h, acts, i, k, e)
  {
    var init := acts[..|acts| - 1];
    CompletedBefore(h, acts, i, k, name, sig, listing);
    assert init[..i] == acts[..i] && init[..k] == acts[..k];
    forall l, m: nat | m > k ensures !CompletedAt(h, acts, l, m, name, sig, listing) {
      if m < |acts| - 1 {
        CompletedBefore(h, acts, l, m, name, sig, listing);
      }
    }
    forall m | k < m < |acts| ensures acts[m] != Drop(KeyFor(h, name, sig, listing)) {
      assert m < |init| ==> init[m] == acts[m];
    }
  }

  lemma {:induction false} NoneStill(h: Hash, acts: seq<Action>, name: Text, sig: Text, listing: Text)
    requires acts != [] && After(h, acts).Some?
    requires AllDropped(h, acts[..|acts| - 1], name, sig, listing)
    requires NoneEndsAt(h, acts, |acts| - 1, name, sig, listing)
    ensures AllDropped(h, acts, name, sig, listing)
  {
    var init := acts[..|acts| - 1];
    forall i, k: nat | CompletedAt(h, acts, i, k, name, sig, listing)
      ensures DroppedAfter(acts, k, KeyFor(h, name, sig, listing))
    {
      assert k != |acts| - 1;
      CompletedBefore(h, acts, i, k, name, sig, listing);
      var m :| k < m < |init| && init[m] == Drop(KeyFor(h, name, sig, listing));
      assert acts[m] == init[m];
    }
  }

  lemma {:induction false} AfterOther(h: Hash, acts: seq<Action>, name: Text, sig: Text, listing: Text)
    requires acts != [] && After(h, acts).Some? && LatestRight(h, acts[..|acts| - 1], name, sig, listing)
    requires var a := acts[|acts| - 1]; !(a.End? && a.ok && a.saves) && !a.Drop?
    ensures LatestRight(h, acts, name, sig, listing)
  {
    CarriedOver(h, acts, name, sig, listing);
  }

  /** An action that adds no deed for the lookup leaves it as it is. */
  lemma {:induction false} CarriedOver(h: Hash, acts: seq<Action>, name: Text, sig: Text, listing: Text)
    requires acts != [] && After(h, acts).Some? && LatestRight(h, acts[..|acts| - 1], name, sig, listing)
    requires acts[|acts| - 1] != Drop(KeyFor(h, name, sig, listing))
    requires NoneEndsAt(h, acts, |acts| - 1, name, sig, listing)
    requires Latest(h, After(h, acts).value.deeds, name, sig, listing)
          == Latest(h, After(h, acts[..|acts| - 1]).value.deeds, name, sig, listing)
    ensures LatestRight(h, acts, name, sig, listing)
  {
    var init := acts[..|acts| - 1];
    match Latest(h, After(h, init).value.deeds, name, sig, listing)
    case None => NoneStill(h, acts, name, sig, listing);
    case Some(e) =>
      var i, k: nat :| Stands(h, init, i, k, name, sig, listing) && LeftBy(h, init, i, k, e);
      StandsStill(h, acts, i, k, e, name, sig, listing);
  }

  lemma {:induction false} AfterDropped(h: Hash, acts: seq<Action>, name: Text, sig: Text, listing: Text)
    requires acts != [] && After(h, acts).Some? && LatestRight(h, acts[..|acts| - 1], name, sig, listing)
    requires acts[|acts| - 1].Drop?
    ensures LatestRight(h, acts, name, sig, listing)
  {
    var d := After(h, acts).value.deeds;
    assert d[..|d| - 1] == After(h, acts[..|acts| - 1]).value.deeds;
    if acts[|acts| - 1].key != KeyFor(h, name, sig, listing) {
      CarriedOver(h, acts, name, sig, listing);
    }
  }

  lemma {:induction false} AfterCompleted(h: Hash, acts: seq<Action>, name: Text, sig: Text, listing: Text)
    requires acts != [] && After(h, acts).Some? && LatestRight(h, acts[..|acts| - 1], name, sig, listing)
    requires acts[|acts| - 1].End? && acts[|acts| - 1].ok && acts[|acts| - 1].saves
    ensures LatestRight(h, acts, name, sig, listing)
  {
    var last := |acts| - 1;
    var i := LastCompletes(h, acts);
    var d := After(h, acts).value.deeds;
    var e := d[|d| - 1];
    if SavedFor(h, e, name, sig, listing) {
      assert Stands(h, acts, i, last, name, sig, listing);
    } else {
      assert NoneEndsAt(h, acts, last, name, sig, listing);
      CarriedOver(h, acts, name, sig, listing);
    }
  }

  /** Outputs that were there when the run ended are there now. */
  ghost predicate OutputsRemain(h: Hash, acts: seq<Action>, i: nat, k: nat)
    requires i < k < |acts| && acts[i].Begin? && After(h, acts[..k]).Some? && After(h, acts).Some?
  {
    forall p :: p in After(h, acts[..k]).value.files && acts[i].job.isOutput(p) ==> p in After(h, acts).value.files
  }

  /** The skip, exactly, in terms of what was done and of nothing the model records: after any schedule a target is
      skipped if and only if some run of the same name and signature was begun on the same list of inputs and ended
      with all its steps done and its manifest written, was not disturbed in between, is the last such run, its
      manifest was not deleted since, and the outputs that were there at its end are there now. */
  lemma {:induction false} SkipRestsExactly(h: Hash, acts: seq<Action>, j: Job)
    requires Ideal(h) && After(h, acts).Some? && Signed(j)
    ensures var s := After(h, acts).value;
      Hit(h, s.files, s.manifests, j) <==>
      exists i, k: nat :: Stands(h, acts, i, k, j.name, j.sig, ListingIn(h, s.files, j))
        && After(h, acts[..k]).Some? && OutputsRemain(h, acts, i, k)
  {
    var s := After(h, acts).value;
    var listing := ListingIn(h, s.files, j);
    SkipsExactly(h, acts, j);
    LatestFollowsSchedule(h, acts, j.name, j.sig, listing);
    if Found(h, s, j).Some? {
      var e := Found(h, s, j).value;
      var i, k: nat :| Stands(h, acts, i, k, j.name, j.sig, listing) && LeftBy(h, acts, i, k, e);
      OutputsAre(h, acts, i, k, e);
      forall l, m: nat | Stands(h, acts, l, m, j.name, j.sig, listing) ensures l == i && m == k {
        OneStands(h, acts, i, k, l, m, j.name, j.sig, listing);
      }
    }
  }

  lemma {:induction false} OutputsAre(h: Hash, acts: seq<Action>, i: nat, k: nat, e: Deed)
    requires LeftBy(h, acts, i, k, e) && After(h, acts).Some?
    ensures AllExist(After(h, acts).value.files, Recorded(e)) <==> OutputsRemain(h, acts, i, k)
  {
  }

  lemma {:induction false} OneStands(h: Hash, acts: seq<Action>, i: nat, k: nat, l: nat, m: nat, name: Text, sig: Text,
                                     listing: Text)
    requires Stands(h, acts, i, k, name, sig, listing) && Stands(h, acts, l, m, name, sig, listing)
    ensures l == i && m == k
  {
    OneBegin(acts, i, l, k);
  }

  // ------------------------------------------------------------------- the documented skip

  /** The last saved run of a target. */
  function LastRun(deeds: seq<Deed>, name: Text): Option<Deed> {
    if deeds == [] then None
    else
      var e := deeds[|deeds| - 1];
      if e.Saved? && e.job.name == name then Some(e) else LastRun(deeds[..|deeds| - 1], name)
  }

  lemma {:induction false} LastRunCovers(h: Hash, deeds: seq<Deed>, name: Text, sig: Text, listing: Text)
    requires Latest(h, deeds, name, sig, listing).Some?
    ensures LastRun(deeds, name).Some?
    ensures SavedFor(h, LastRun(deeds, name).value, name, sig, listing) ==>
      Latest(h, deeds, name, sig, listing) == LastRun(deeds, name)
  {
    var e := deeds[|deeds| - 1];
    if !(e.Saved? && e.job.name == name) {
      LastRunCovers(h, deeds[..|deeds| - 1], name, sig, listing);
    }
  }

  /** The documentation speaks of inputs that have not changed since the last run. Exactly: the run a skip rests on is
      the last saved run of the target if and only if that run had the present signature and list of inputs. */
  lemma {:induction false} RestsOnLastRunExactly(h: Hash, acts: seq<Action>, j: Job)
    requires Ideal(h) && After(h, acts).Some? && Signed(j)
    requires Hit(h, After(h, acts).value.files, After(h, acts).value.manifests, j)
    ensures var s := After(h, acts).value;
      && LastRun(s.deeds, j.name).Some?
      && (Found(h, s, j) == LastRun(s.deeds, j.name) <==>
          SavedFor(h, LastRun(s.deeds, j.name).value, j.name, j.sig, ListingIn(h, s.files, j)))
  {
    SkipsExactly(h, acts, j);
    var s := After(h, acts).value;
    LastRunCovers(h, s.deeds, j.name, j.sig, ListingIn(h, s.files, j));
    LatestWasSaved(h, s.deeds, j.name, j.sig, ListingIn(h, s.files, j));
  }

  /** The files a later skip might find: other files may be gone, but not the inputs. */
  ghost predicate SkipsWith(h: Hash, s: State, j: Job, files: Files) {
    Inputs(files, j) == Inputs(s.files, j) && Hit(h, files, s.manifests, j)
  }

  /** The documentation says a target is skipped when all its outputs exist. The code asks for the outputs that existed
      when the entry was saved. Exactly: a skip on this entry is sure to find every one of the declared outputs, given
      as paths without patterns, if and only if each existed at the save as an output of the run saved, or is an
      input. */
  lemma {:induction false} OutputsSureExactly(h: Hash, acts: seq<Action>, j: Job, declared: set<Path>, e: Deed)
    requires Ideal(h) && After(h, acts).Some? && Signed(j)
    requires Hit(h, After(h, acts).value.files, After(h, acts).value.manifests, j)
    requires Found(h, After(h, acts).value, j) == Some(e)
    ensures var s := After(h, acts).value;
      (forall files :: SkipsWith(h, s, j, files) ==> AllExist(files, declared))
      <==> forall p :: p in declared ==> (p in e.disk && e.job.isOutput(p)) || p in Inputs(s.files, j)
  {
    StoreFollowsHistory(h, acts);
    var s := After(h, acts).value;
    assert LookupRight(h, s, j, ListingIn(h, s.files, j));
    EntryOutputs(h, s, j, e);
    if forall p :: p in declared ==> p in Recorded(e) || p in Inputs(s.files, j) {
      forall files, p | SkipsWith(h, s, j, files) && p in declared ensures p in files {
        assert p in Inputs(s.files, j) ==> p in Inputs(files, j);
      }
    } else {
      var p :| p in declared && p !in Recorded(e) && p !in Inputs(s.files, j);
      var least := Least(s.files, j, e);
      assert SkipsWith(h, s, j, least) && p !in least;
    }
  }

  /** The files a skip on an entry needs: the inputs, and the outputs the entry records. */
  function Least(files: Files, j: Job, e: Deed): Files
    requires e.Saved?
  {
    map q | q in files && (j.isInput(q) || q in Recorded(e)) :: files[q]
  }

  /** A skip depends on the inputs and the recorded outputs only. */
  lemma {:induction false} EntryOutputs(h: Hash, s: State, j: Job, e: Deed)
    requires LookupRight(h, s, j, ListingIn(h, s.files, j)) && Found(h, s, j) == Some(e)
    requires Hit(h, s.files, s.manifests, j)
    ensures forall files :: SkipsWith(h, s, j, files) <==>
      Inputs(files, j) == Inputs(s.files, j) && AllExist(files, Recorded(e))
    ensures Inputs(Least(s.files, j, e), j) == Inputs(s.files, j) && AllExist(Least(s.files, j, e), Recorded(e))
  {
    assert Inputs(Least(s.files, j, e), j) == Inputs(s.files, j);
  }

  /** An output the steps did not produce is still missing at the skip that follows, as long as the inputs are the
      same. */
  lemma {:induction false} MissingOutputIsNotNoticed(h: Hash, acts: seq<Action>, run: nat, p: Path)
    requires Ideal(h) && After(h, acts).Some? && run in After(h, acts).value.pending
    requires var s := After(h, acts).value; Inputs(s.files, s.pending[run].job) == s.pending[run].inputs
    requires var s := After(h, acts).value; s.pending[run].job.isOutput(p) && p !in s.files
    ensures var s := After(h, acts).value; var t := Apply(h, s, End(run, true, true));
      Hit(h, t.files, t.manifests, s.pending[run].job) && p !in t.files
  {
    RerunSkips(h, acts, run);
  }

  // ------------------------------------------------------------------- two short histories

  const SRC: Path := [1]
  const OUT: Path := [2]
  const MAP: Path := [3]

  /** One input and two declared outputs. */
  function Build(): Job {
    Job([7], seq(32, _ => 0), true, p => p == SRC, p => p == OUT || p == MAP)
  }

  lemma {:induction false} AfterOne(h: Hash, acts: seq<Action>, a: Action)
    requires After(h, acts).Some? && Enabled(After(h, acts).value, a)
    ensures After(h, acts + [a]) == Some(Apply(h, After(h, acts).value, a))
  {
    assert (acts + [a])[..|acts|] == acts;
  }

  /** A run from edit to save: the source is written, the run begins, its steps write one output, the run is saved. */
  function OneRun(run: nat, source: Text, made: Text): seq<Action> {
    [Write(SRC, source), Begin(run, Build()), Write(OUT, made), End(run, true, true)]
  }

  lemma {:induction false} BeginMisses(h: Hash, s: State, run: nat)
    requires !Hit(h, s.files, s.manifests, Build())
    ensures Enabled(s, Begin(run, Build()))
    ensures Apply(h, s, Begin(run, Build())) ==
      s.(pending := s.pending[run := Pending(Build(), Inputs(s.files, Build()))])
  {
  }

  lemma {:induction false} EndSaves(h: Hash, s: State, run: nat, inputs: Files)
    requires run in s.pending && s.pending[run] == Pending(Build(), inputs)
    ensures var t := Apply(h, s, End(run, true, true));
      t.files == s.files && t.deeds == s.deeds + [Saved(Build(), inputs, s.files.Keys)]
  {
  }

  lemma {:induction false} FourMore(h: Hash, acts: seq<Action>, a: seq<Action>, s1: State, s2: State, s3: State)
    requires |a| == 4 && After(h, acts).Some?
    requires Enabled(After(h, acts).value, a[0]) && Apply(h, After(h, acts).value, a[0]) == s1
    requires Enabled(s1, a[1]) && Apply(h, s1, a[1]) == s2
    requires Enabled(s2, a[2]) && Apply(h, s2, a[2]) == s3
    requires Enabled(s3, a[3])
    ensures After(h, acts + a) == Some(Apply(h, s3, a[3]))
  {
    TwoMore(h, acts, a[0], a[1], s1);
    TwoMore(h, acts + [a[0]] + [a[1]], a[2], a[3], s3);
    FourJoined(acts, a);
  }

  lemma {:induction false} TwoMore(h: Hash, acts: seq<Action>, a: Action, b: Action, s1: State)
    requires After(h, acts).Some? && Enabled(After(h, acts).value, a) && Apply(h, After(h, acts).value, a) == s1
    requires Enabled(s1, b)
    ensures After(h, acts + [a] + [b]) == Some(Apply(h, s1, b))
  {
    AfterOne(h, acts, a);
    AfterOne(h, acts + [a], b);
  }

  lemma {:induction false} FourJoined(acts: seq<Action>, a: seq<Action>)
    requires |a| == 4
    ensures acts + [a[0]] + [a[1]] + [a[2]] + [a[3]] == acts + a
  {
  }

  lemma {:induction false} RunSaved(h: Hash, acts: seq<Action>, run: nat, source: Text, made: Text)
    requires After(h, acts).Some?
    requires var s := After(h, acts).value; !Hit(h, s.files[SRC := source], s.manifests, Build())
    ensures var s := After(h, acts).value; var t := After(h, acts + OneRun(run, source, made));
      && t.Some?
      && t.value.files == s.files[SRC := source][OUT := made]
      && t.value.deeds == s.deeds + [Saved(Build(), map[SRC := source], s.files.Keys + {SRC, OUT})]
  {
    var s := After(h, acts).value;
    var a := OneRun(run, source, made);
    var s1 := s.(files := s.files[SRC := source]);
    SourceListed(s1.files, source);
    var s2 := s1.(pending := s1.pending[run := Pending(Build(), map[SRC := source])]);
    var s3 := s2.(files := s2.files[OUT := made]);
    BeginMisses(h, s1, run);
    EndSaves(h, s3, run, map[SRC := source]);
    FourMore(h, acts, a, s1, s2, s3);
    assert s3.files.Keys == s.files.Keys + {SRC, OUT};
  }

  lemma {:induction false} SourceListed(files: Files, source: Text)
    requires SRC in files && files[SRC] == source
    ensures Inputs(files, Build()) == map[SRC := source]
  {
  }

  lemma {:induction false} SourcesDiffer(h: Hash, a: Text, b: Text)
    requires Ideal(h) && a != b
    ensures ListingOf(h, map[SRC := a]) != ListingOf(h, map[SRC := b])
  {
    var x, y: Files := map[SRC := a], map[SRC := b];
    assert x[SRC] != y[SRC] && x.Keys == y.Keys;
    if ListingOf(h, x) == ListingOf(h, y) {
      ListingDeterminesExactly(h, x, y);
    }
  }

  /** A run that makes one of two declared outputs, from the start: the target is up to date at once, and the other
      output does not exist. */
  lemma {:induction false} PartialOutputSkips(h: Hash, source: Text, made: Text)
    requires Ideal(h)
    ensures var t := After(h, OneRun(0, source, made));
      t.Some? && Hit(h, t.value.files, t.value.manifests, Build()) && Build().isOutput(MAP) && MAP !in t.value.files
  {
    FirstRun(h, source, made);
    var t := After(h, OneRun(0, source, made)).value;
    SourceListed(t.files, source);
    OnlyDeed(h, t.deeds[0]);
    SkipsExactly(h, OneRun(0, source, made), Build());
  }

  lemma {:induction false} FirstRun(h: Hash, source: Text, made: Text)
    ensures var t := After(h, OneRun(0, source, made));
      && t.Some?
      && t.value.files == map[SRC := source, OUT := made]
      && t.value.deeds == [Saved(Build(), map[SRC := source], {SRC, OUT})]
  {
    assert [] + OneRun(0, source, made) == OneRun(0, source, made);
    RunSaved(h, [], 0, source, made);
    assert START.files.Keys + {SRC, OUT} == {SRC, OUT};
    assert START.files[SRC := source][OUT := made] == map[SRC := source, OUT := made];
  }

  lemma {:induction false} OnlyDeed(h: Hash, e: Deed)
    requires e.Saved?
    ensures Latest(h, [e], e.job.name, e.job.sig, ListingOf(h, e.inputs)) == Some(e)
    ensures forall l :: l != ListingOf(h, e.inputs) ==> Latest(h, [e], e.job.name, e.job.sig, l) == None
  {
    assert [e][..0] == [];
  }

  /** Of two saved runs, an earlier one with other inputs is found again. */
  lemma {:induction false} EarlierDeed(h: Hash, e: Deed, f: Deed)
    requires e.Saved? && f.Saved? && e.job == f.job && ListingOf(h, e.inputs) != ListingOf(h, f.inputs)
    ensures Latest(h, [e] + [f], e.job.name, e.job.sig, ListingOf(h, e.inputs)) == Some(e)
    ensures LastRun([e] + [f], e.job.name) == Some(f)
  {
    assert ([e] + [f])[..1] == [e];
    OnlyDeed(h, e);
  }

  /** The history: a run with one source, a run with another, and the first source again. */
  function BackAgain(a: Text, b: Text, madeOfA: Text, madeOfB: Text): seq<Action> {
    OneRun(0, a, madeOfA) + OneRun(1, b, madeOfB) + [Write(SRC, a)]
  }

  lemma {:induction false} BackAgainRuns(h: Hash, a: Text, b: Text, madeOfA: Text, madeOfB: Text)
    requires Ideal(h) && a != b
    ensures var t := After(h, BackAgain(a, b, madeOfA, madeOfB));
      && t.Some?
      && t.value.files == map[SRC := a, OUT := madeOfB]
      && t.value.deeds == [Saved(Build(), map[SRC := a], {SRC, OUT})] + [Saved(Build(), map[SRC := b], {SRC, OUT})]
  {
    var two := OneRun(0, a, madeOfA) + OneRun(1, b, madeOfB);
    SecondRun(h, a, b, madeOfA, madeOfB);
    AfterOne(h, two, Write(SRC, a));
    SourceRewritten(a, b, madeOfB);
  }

  lemma {:induction false} SourceRewritten(a: Text, b: Text, made: Text)
    ensures var was: Files := map[SRC := b, OUT := made]; was[SRC := a] == map[SRC := a, OUT := made]
  {
  }

  lemma {:induction false} SecondRun(h: Hash, a: Text, b: Text, madeOfA: Text, madeOfB: Text)
    requires Ideal(h) && a != b
    ensures var t := After(h, OneRun(0, a, madeOfA) + OneRun(1, b, madeOfB));
      && t.Some?
      && t.value.files == map[SRC := b, OUT := madeOfB]
      && t.value.deeds == [Saved(Build(), map[SRC := a], {SRC, OUT})] + [Saved(Build(), map[SRC := b], {SRC, OUT})]
  {
    FirstRun(h, a, madeOfA);
    OtherSourceMisses(h, a, b, madeOfA);
    RunSaved(h, OneRun(0, a, madeOfA), 1, b, madeOfB);
    Rewritten(a, b, madeOfA, madeOfB);
  }

  lemma {:induction false} Rewritten(a: Text, b: Text, madeOfA: Text, madeOfB: Text)
    ensures var was: Files := map[SRC := a, OUT := madeOfA];
      && was[SRC := b][OUT := madeOfB] == map[SRC := b, OUT := madeOfB]
      && was.Keys + {SRC, OUT} == {SRC, OUT}
  {
  }

  lemma {:induction false} OtherSourceMisses(h: Hash, a: Text, b: Text, made: Text)
    requires Ideal(h) && a != b && After(h, OneRun(0, a, made)).Some?
    ensures var s := After(h, OneRun(0, a, made)).value; !Hit(h, s.files[SRC := b], s.manifests, Build())
  {
    FirstRun(h, a, made);
    var s := After(h, OneRun(0, a, made)).value;
    SourcesDiffer(h, a, b);
    SourceListed(s.files[SRC := b], b);
    OnlyDeed(h, s.deeds[0]);
    StoreFollowsHistory(h, OneRun(0, a, made));
    assert LookupRight(h, s, Build(), ListingOf(h, map[SRC := b]));
  }

  /** Back to earlier inputs: the target is up to date, and the output is the one made from the other source. */
  lemma {:induction false} EarlierInputsSkip(h: Hash, a: Text, b: Text, madeOfA: Text, madeOfB: Text)
    requires Ideal(h) && a != b
    ensures var t := After(h, BackAgain(a, b, madeOfA, madeOfB));
      && t.Some? && Hit(h, t.value.files, t.value.manifests, Build())
      && t.value.files == map[SRC := a, OUT := madeOfB]
      && Found(h, t.value, Build()) != LastRun(t.value.deeds, Build().name)
  {
    BackAgainRuns(h, a, b, madeOfA, madeOfB);
    SourcesDiffer(h, a, b);
    var t := After(h, BackAgain(a, b, madeOfA, madeOfB)).value;
    SourceListed(t.files, a);
    EarlierDeed(h, t.deeds[0], t.deeds[1]);
    SkipsExactly(h, BackAgain(a, b, madeOfA, madeOfB), Build());
  }

  // ---------------------------------------------------------------------- explanation

  datatype Change = Modified(p: Path) | Removed(p: Path)

  datatype Reason =
    | AlwaysRuns
    | NoEntry
    | InputsChanged(changes: set<Change>)
    | HashMismatch
    | OutputsMissing(paths: set<Path>)
    | UpToDate

  ghost predicate Lists(out: set<Change>, prev: map<Path, Text>, cur: map<Path, Text>) {
    && (forall p :: Modified(p) in out <==> p in cur && !(p in prev && prev[p] == cur[p]))
    && (forall p :: Removed(p) in out <==> p in prev && p !in cur)
  }

  /** Walks both maps in any order; an absent path counts as the empty hash. */
  method ChangedInputs(prev: map<Path, Text>, cur: map<Path, Text>) returns (out: set<Change>)
    requires forall p :: p in cur ==> cur[p] != []
    ensures Lists(out, prev, cur)
    ensures out == {} <==> prev == cur
  {
    out := {};
    var rest := cur.Keys;
    while rest != {}
      invariant rest <= cur.Keys
      invariant forall p :: Modified(p) in out <==> p in cur && p !in rest && !(p in prev && prev[p] == cur[p])
      invariant forall p :: Removed(p) !in out
      decreases |rest|
    {
      var p :| p in rest;
      var was := if p in prev then prev[p] else [];
      if was != cur[p] {
        out := out + {Modified(p)};
      }
      rest := rest - {p};
    }
    rest := prev.Keys;
    while rest != {}
      invariant rest <= prev.Keys
      invariant forall p :: Modified(p) in out <==> p in cur && !(p in prev && prev[p] == cur[p])
      invariant forall p :: Removed(p) in out <==> p in prev && p !in rest && p !in cur
      decreases |rest|
    {
      var p :| p in rest;
      if p !in cur {
        out := out + {Removed(p)};
      }
      rest := rest - {p};
    }
    ListsNothing(out, prev, cur);
  }

  lemma {:induction false} ListsNothing(out: set<Change>, prev: map<Path, Text>, cur: map<Path, Text>)
    requires Lists(out, prev, cur)
    ensures out == {} <==> prev == cur
  {
    if out == {} {
      assert forall p :: Modified(p) !in out && Removed(p) !in out;
      assert prev.Keys == cur.Keys;
    }
    assert forall c :: c in out ==> c == Modified(c.p) || c == Removed(c.p);
  }

  class Workspace {
    var files: Files
    var manifests: map<Text, Manifest>

    constructor (f: Files, m: map<Text, Manifest>)
      ensures files == f && manifests == m
    {
      files, manifests := f, m;
    }

    /** Digests every selected file in sorted order, and hashes path and digest of each. */
    method HashFilesMap(h: Hash, j: Job) returns (combined: Text, perFile: map<Path, Text>)
      requires Sorts(h)
      ensures combined == InputHash(h, ListingIn(h, files, j)) && perFile == Digests(h, Inputs(files, j))
    {
      var inputs := Inputs(files, j);
      var ps := h.sorted(inputs.Keys);
      assert Orders(ps, inputs.Keys);
      perFile := map[];
      var text: Text := [];
      for i := 0 to |ps|
        invariant perFile == map p | p in ps[..i] :: h.sha(inputs[p])
        invariant text == Listing(h, inputs, ps[..i])
      {
        assert ps[i] in ps && ps[..i + 1][..i] == ps[..i] && ps[..i + 1] == ps[..i] + [ps[i]];
        var sum := h.sha(files[ps[i]]);
        perFile := perFile[ps[i] := sum];
        text := text + ps[i] + sum;
      }
      assert ps[..|ps|] == ps;
      combined := h.sha(h.sha(text));
    }

    /** The paths the output patterns select now. */
    method ResolveOutputs(j: Job) returns (paths: set<Path>)
      ensures forall p :: p in paths <==> p in files && j.isOutput(p)
    {
      paths := {};
      var rest := files.Keys;
      while rest != {}
        invariant rest <= files.Keys
        invariant forall p :: p in paths <==> p in files && p !in rest && j.isOutput(p)
        decreases |rest|
      {
        var p :| p in rest;
        if j.isOutput(p) {
          paths := paths + {p};
        }
        rest := rest - {p};
      }
    }

    method OutputsExist(paths: set<Path>) returns (ok: bool, missing: set<Path>)
      ensures forall p :: p in missing <==> p in paths && p !in files
      ensures ok <==> missing == {}
    {
      missing := {};
      var rest := paths;
      while rest != {}
        invariant rest <= paths
        invariant forall p :: p in missing <==> p in paths && p !in rest && p !in files
        decreases |rest|
      {
        var p :| p in rest;
        if p !in files {
          missing := missing + {p};
        }
        rest := rest - {p};
      }
      ok := missing == {};
    }

    /** The runner's decision, with what it hashed for the save. */
    method Decide(h: Hash, j: Job) returns (skip: bool, key: Text, inputHash: Text, perFile: map<Path, Text>)
      requires Sorts(h)
      ensures skip == Hit(h, files, manifests, j)
      ensures key == KeyFor(h, j.name, j.sig, ListingIn(h, files, j))
      ensures inputHash == InputHash(h, ListingIn(h, files, j)) && perFile == Digests(h, Inputs(files, j))
    {
      inputHash, perFile := HashFilesMap(h, j);
      key := Key(h, j.name, inputHash, j.sig);
      skip := false;
      if key in manifests && manifests[key].inputHash == inputHash {
        var missing;
        skip, missing := OutputsExist(manifests[key].outputPaths);
      }
    }

    /** One run of a target with a cache entry: the decision, the steps, after which the files are `made`, and the save,
        under the key and with the digests from before the steps. It is the beginning and the end of a run of the
        histories, with the work of the steps between them. */
    method RunCached(h: Hash, j: Job, made: Files, ok: bool, saves: bool) returns (ran: bool)
      requires Sorts(h) && Signed(j) && j.cached
      modifies this
      ensures ran == !Hit(h, old(files), old(manifests), j)
      ensures !ran ==> files == old(files) && manifests == old(manifests)
      ensures !(ran && ok && saves) ==> manifests == old(manifests)
      ensures ran && ok && saves ==>
        var listing := ListingIn(h, old(files), j);
        manifests == old(manifests)[KeyFor(h, j.name, j.sig, listing) :=
          Manifest(j.name, InputHash(h, listing), Digests(h, Inputs(old(files), j)),
                   set p | p in made && j.isOutput(p))]
      ensures ran ==>
        var s := Apply(h, START.(files := old(files), manifests := old(manifests)), Begin(0, j));
        files == made && manifests == Apply(h, s.(files := made), End(0, ok, saves)).manifests
    {
      var skip, key, inputHash, perFile := Decide(h, j);
      ran := !skip;
      if ran {
        files := made;
        if ok && saves {
          var outputPaths := ResolveOutputs(j);
          ghost var e := Saved(j, Inputs(old(files), j), made.Keys);
          assert outputPaths == Recorded(e);
          manifests := manifests[key := Manifest(j.name, inputHash, perFile, outputPaths)];
        }
      }
    }

    /** Some manifest of the target, if there is one. */
    method LoadManifestForTarget(name: Text) returns (m: Option<Manifest>)
      ensures m.Some? ==> (exists k :: k in manifests && manifests[k] == m.value) && m.value.targetName == name
      ensures m.None? ==> forall k :: k in manifests ==> manifests[k].targetName != name
    {
      m := None;
      var rest := manifests.Keys;
      while rest != {}
        invariant rest <= manifests.Keys
        invariant forall k :: k in manifests && k !in rest ==> manifests[k].targetName != name
        decreases |rest|
      {
        var k :| k in rest;
        if manifests[k].targetName == name {
          return Some(manifests[k]);
        }
        rest := rest - {k};
      }
    }

    /** No entry for the present inputs: name what changed since some earlier run, if that had inputs and anything did.
        An earlier run without inputs is stored without the list of them, and read as having none to compare. */
    method WhyNoEntry(h: Hash, j: Job, perFile: map<Path, Text>) returns (r: Reason)
      requires Ideal(h) && perFile == Digests(h, Inputs(files, j))
      ensures r.NoEntry? || r.InputsChanged?
      ensures r.InputsChanged? ==> ExplainedBySome(h, manifests, j, r.changes, Inputs(files, j))
      ensures r.NoEntry? ==> NothingToCompare(manifests, j) || SameAsSome(h, manifests, j, Inputs(files, j))
    {
      var prev := LoadManifestForTarget(j.name);
      if prev.Some? && prev.value.inputHashes != map[] {
        var changed := ChangedInputs(prev.value.inputHashes, perFile);
        if changed != {} {
          return InputsChanged(changed);
        }
      }
      return NoEntry;
    }

    /** The explanation. It reports "up to date" exactly when the runner would skip, and missing outputs, all of
        them and no others, exactly when there is a right entry for the present inputs and the runner would not
        skip. Without an entry it reports changed inputs, all of them and no others, against some earlier run of the
        target, or no entry, which means there is no such run with inputs to compare or it had the present ones. */
    method WhyReasons(h: Hash, j: Job) returns (r: Reason)
      requires Ideal(h)
      ensures r.AlwaysRuns? <==> !j.cached
      ensures r.UpToDate? <==> j.cached && Hit(h, files, manifests, j)
      ensures r.OutputsMissing? <==>
        && j.cached && HasEntry(h, files, manifests, j)
        && !StaleEntry(h, files, manifests, j) && !Hit(h, files, manifests, j)
      ensures r.OutputsMissing? ==> r.paths != {} && Lacks(h, files, manifests, j, r.paths)
      ensures r.NoEntry? ==> !HasEntry(h, files, manifests, j)
      ensures r.NoEntry? ==> NothingToCompare(manifests, j) || SameAsSome(h, manifests, j, Inputs(files, j))
      ensures r.InputsChanged? ==>
        if HasEntry(h, files, manifests, j) then StaleEntry(h, files, manifests, j)
        else ExplainedBySome(h, manifests, j, r.changes, Inputs(files, j))
      ensures r.HashMismatch? ==> StaleEntry(h, files, manifests, j)
    {
      if !j.cached {
        return AlwaysRuns;
      }
      var inputHash, perFile := HashFilesMap(h, j);
      var key := Key(h, j.name, inputHash, j.sig);
      if key !in manifests {
        r := WhyNoEntry(h, j, perFile);
      } else if manifests[key].inputHash != inputHash {
        var changed := ChangedInputs(manifests[key].inputHashes, perFile);
        r := if changed != {} then InputsChanged(changed) else HashMismatch;
      } else {
        var ok, missing := OutputsExist(manifests[key].outputPaths);
        r := if ok then UpToDate else OutputsMissing(missing);
      }
    }
  }

  /** The changes name every path whose digest differs from the earlier run's, and none besides. */
  ghost predicate Explains(h: Hash, changes: set<Change>, was: map<Path, Text>, inputs: Files) {
    changes != {} && Lists(changes, was, Digests(h, inputs))
  }

  /** There is an entry under the key of the present inputs. */
  ghost predicate HasEntry(h: Hash, files: Files, manifests: map<Text, Manifest>, j: Job) {
    KeyFor(h, j.name, j.sig, ListingIn(h, files, j)) in manifests
  }

  /** No manifest of the target, or one that lists no inputs. */
  ghost predicate NothingToCompare(manifests: map<Text, Manifest>, j: Job) {
    || (forall k :: k in manifests ==> manifests[k].targetName != j.name)
    || (exists k :: k in manifests && manifests[k].targetName == j.name && manifests[k].inputHashes == map[])
  }

  /** Some manifest of the target lists the present inputs. */
  ghost predicate SameAsSome(h: Hash, manifests: map<Text, Manifest>, j: Job, inputs: Files) {
    exists k :: k in manifests && manifests[k].targetName == j.name && manifests[k].inputHashes == Digests(h, inputs)
  }

  /** Some manifest of the target, with inputs to compare, explains the changes. */
  ghost predicate ExplainedBySome(h: Hash, manifests: map<Text, Manifest>, j: Job, changes: set<Change>,
                                  inputs: Files) {
    exists k :: (k in manifests && manifests[k].targetName == j.name && manifests[k].inputHashes != map[]
      && Explains(h, changes, manifests[k].inputHashes, inputs))
  }

  /** The missing paths are exactly those outputs of the present entry that do not exist. */
  ghost predicate Lacks(h: Hash, files: Files, manifests: map<Text, Manifest>, j: Job, missing: set<Path>) {
    var key := KeyFor(h, j.name, j.sig, ListingIn(h, files, j));
    && key in manifests
    && forall p :: p in missing <==> p in manifests[key].outputPaths && p !in files
  }

  /** An entry under the present key that was made for other inputs. */
  ghost predicate StaleEntry(h: Hash, files: Files, manifests: map<Text, Manifest>, j: Job) {
    var key := KeyFor(h, j.name, j.sig, ListingIn(h, files, j));
    key in manifests && manifests[key].inputHash != InputHash(h, ListingIn(h, files, j))
  }

  /** The entry's own input hash never disagrees with the key it is stored under, so the comparison of the two,
      and the explanation "hash mismatch", are dead code in every history. */
  lemma {:induction false} NoStaleEntry(h: Hash, acts: seq<Action>, j: Job)
    requires Ideal(h) && After(h, acts).Some? && Signed(j)
    ensures !StaleEntry(h, After(h, acts).value.files, After(h, acts).value.manifests, j)
  {
    StoreFollowsHistory(h, acts);
    var s := After(h, acts).value;
    assert LookupRight(h, s, j, ListingIn(h, s.files, j));
  }

  /** The changes list what differs from the contents some earlier run of the target hashed. */
  ghost predicate RealChanges(deeds: seq<Deed>, name: Text, changes: set<Change>, inputs: Files) {
    exists e :: (e in deeds && e.Saved? && e.job.name == name && Lists(changes, e.inputs, inputs))
  }

  /** What "inputs changed" reports of a manifest in the store: a path is modified exactly when its content differs
      from the content some earlier run of the target hashed. */
  lemma {:induction false} ChangesAreRealChanges(h: Hash, acts: seq<Action>, k: Text, inputs: Files,
                                                 changes: set<Change>)
    requires Ideal(h) && After(h, acts).Some? && k in After(h, acts).value.manifests
    requires Explains(h, changes, After(h, acts).value.manifests[k].inputHashes, inputs)
    ensures var s := After(h, acts).value; RealChanges(s.deeds, s.manifests[k].targetName, changes, inputs)
  {
    StoreFollowsHistory(h, acts);
    var s := After(h, acts).value;
    var j: Job, l: Text :| Signed(j) && KeyedBy(h, k, j, l);
    assert LookupRight(h, s, j, l);
    LatestWasSaved(h, s.deeds, j.name, j.sig, l);
    var e := Latest(h, s.deeds, j.name, j.sig, l).value;
    assert Lists(changes, e.inputs, inputs);
  }
}
