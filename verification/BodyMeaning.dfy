/** What compiling a whole body means, field by field: last, first or all clauses (internal/dsl/parser.go). */
module BodyMeaning {
  // The compiler folds one clause after the other into the target. Said without the fold: the last clause of a kind
  // that sets a field wins, the first passthrough slot is kept, and lists hold the parts of all clauses in order.

  import C = Config
  import opened Ast
  import opened Compile
  import opened OrderEntries
  import opened StableBuckets
  import opened ParseArgs

  // ------------------------------------------------------------------ the last clause wins

  /** The target has what a clause says, for clauses that set one field. */
  predicate Holds(t: C.Target, e: BodyEntry) {
    match e
    case Deps(names) => t.deps == names
    case Cwd(path) => t.cwd == path
    case Desc(text) => t.desc == text
    case Tags(tags) => t.tags == tags
    case WhenEnv(variable) => t.whenEnv == variable
    case Pool(name) => t.pool == name
    case Mutex(name) => t.mutex == name
    case ImageIdent(image) => t.image == image
    case ImageString(image) => t.image == image
    case Private => t.private
    case Unsafe => t.unsafe
    case _ => true
  }

  lemma {:induction false} SetByItsClause(t: C.Target, e: BodyEntry)
    ensures Holds(WithEntry(t, e), e)
  {
  }

  predicate NamesSomething(e: BodyEntry) {
    e.WhenEnv? || e.Pool? || e.Mutex? || e.ImageIdent? || e.ImageString?
  }

  lemma {:induction false} NamesKept(t: C.Target, e: BodyEntry, x: BodyEntry)
    requires Kind(x) != Kind(e) && Holds(t, e) && NamesSomething(e)
    ensures Holds(WithEntry(t, x), e)
  {
  }

  lemma {:induction false} TextsKept(t: C.Target, e: BodyEntry, x: BodyEntry)
    requires Kind(x) != Kind(e) && Holds(t, e) && (e.Deps? || e.Cwd? || e.Desc? || e.Tags?)
    ensures Holds(WithEntry(t, x), e)
  {
  }

  lemma {:induction false} MarksKept(t: C.Target, e: BodyEntry, x: BodyEntry)
    requires Holds(t, e) && (e.Private? || e.Unsafe?)
    ensures Holds(WithEntry(t, x), e)
  {
  }

  /** Clauses of other kinds do not touch the field. */
  lemma {:induction false} KeptByOthers(t: C.Target, e: BodyEntry, x: BodyEntry)
    requires Kind(x) != Kind(e) && Holds(t, e)
    ensures Holds(WithEntry(t, x), e)
  {
    if NamesSomething(e) {
      NamesKept(t, e, x);
    } else if e.Deps? || e.Cwd? || e.Desc? || e.Tags? {
      TextsKept(t, e, x);
    } else if e.Private? || e.Unsafe? {
      MarksKept(t, e, x);
    }
  }

  /** The last clause of its kind decides: deps, cwd, desc, tags, the guard variable, pool, mutex and image. */
  lemma {:induction false} LastClauseWins(t: C.Target, es: seq<BodyEntry>, i: nat)
    requires i < |es| && forall j :: i < j < |es| ==> Kind(es[j]) != Kind(es[i])
    ensures Holds(WithBody(t, es), es[i])
  {
    var init, last := es[..|es| - 1], es[|es| - 1];
    if i == |es| - 1 {
      SetByItsClause(WithBody(t, init), last);
    } else {
      LastClauseWins(t, init, i);
      KeptByOthers(WithBody(t, init), es[i], last);
    }
  }

  // ------------------------------------------------------------------ the first slot is kept

  /** The first passthrough clause with a step number is the one kept as the target's own. */
  lemma {:induction false} FirstSlotWins(t: C.Target, es: seq<BodyEntry>, i: nat)
    requires t.passthroughStep == 0 && i < |es| && es[i].Passthrough? && es[i].slot > 0
    requires forall j :: 0 <= j < i && es[j].Passthrough? ==> es[j].slot == 0
    ensures WithBody(t, es).passthroughStep == es[i].slot
  {
    var init := es[..|es| - 1];
    if i == |es| - 1 {
      NoSlotYet(t, init);
    } else {
      FirstSlotWins(t, init, i);
    }
    SlotStep(WithBody(t, init), es[|es| - 1]);
  }

  lemma {:induction false} SlotStep(t: C.Target, e: BodyEntry)
    ensures WithEntry(t, e).passthroughStep ==
      if e.Passthrough? && t.passthroughStep == 0 then e.slot else t.passthroughStep
  {
  }

  lemma {:induction false} NoSlotYet(t: C.Target, es: seq<BodyEntry>)
    requires t.passthroughStep == 0 && forall j :: 0 <= j < |es| && es[j].Passthrough? ==> es[j].slot == 0
    ensures WithBody(t, es).passthroughStep == 0
  {
    if es != [] {
      NoSlotYet(t, es[..|es| - 1]);
      SlotStep(WithBody(t, es[..|es| - 1]), es[|es| - 1]);
    }
  }

  // ------------------------------------------------------------------- lists are collected

  /** The parts of all clauses, in order. */
  function Gather<E, T>(part: E -> seq<T>, es: seq<E>): seq<T> {
    if es == [] then [] else Gather(part, es[..|es| - 1]) + part(es[|es| - 1])
  }

  function StepParts(e: BodyEntry): seq<C.Step> {
    if e.Steps? then StepsOf(e.steps) else if e.OneStep? then [StepOf(e.step)] else []
  }

  function InputParts(e: BodyEntry): seq<string> {
    if e.Inputs? then e.paths else []
  }

  function OutputParts(e: BodyEntry): seq<string> {
    if e.Outputs? then e.paths else []
  }

  function GuardParts(e: BodyEntry): seq<string> {
    if e.WhenCmd? then e.argv else []
  }

  function ArgParts(e: BodyEntry): seq<C.ArgDecl> {
    if e.Args? then [C.ArgDecl(e.name, e.typ, e.short, e.default, false)] else []
  }

  function SlotParts(e: BodyEntry): seq<C.PassthroughSlot> {
    if e.Passthrough? then [C.PassthroughSlot(e.slot, e.slotName)] else []
  }

  function PresetParts(e: BodyEntry): seq<C.Preset> {
    if e.PresetBlock? then [PresetOf(e.name, e.entries)] else []
  }

  function DaemonParts(e: BodyEntry): seq<C.Daemon> {
    if e.DaemonBlock? then [DaemonOf(e.name, e.body)] else []
  }

  function PairParts(e: BodyEntry): seq<EnvPair> {
    if e.Env? then e.pairs else []
  }

  function NetParts(e: BodyEntry): seq<string> {
    if e.Net? then [e.name] else []
  }

  function VolParts(e: BodyEntry): seq<C.VolumeRef> {
    if e.Vol? then [C.VolumeRef(e.name, e.hostPath)] else []
  }

  /** The names among the items of a workflow ... */
  function ItemNames(items: seq<WorkflowEntry>): seq<string> {
    if items == [] then []
    else ItemNames(items[..|items| - 1]) + (if items[|items| - 1].Item? then [items[|items| - 1].name] else [])
  }

  function ItemParts(e: BodyEntry): seq<string> {
    if e.Workflow? then ItemNames(e.items) else []
  }

  /** ... and its schedules. */
  function Schedules(items: seq<WorkflowEntry>): seq<C.Schedule> {
    if items == [] then []
    else
      var last := items[|items| - 1];
      Schedules(items[..|items| - 1])
      + (if last.Cron? then [C.Schedule(last.spec, "")] else if last.Interval? then [C.Schedule("", last.spec)] else [])
  }

  function ScheduleParts(e: BodyEntry): seq<C.Schedule> {
    if e.Workflow? then Schedules(e.items) else []
  }

  function LastOf<T>(before: C.Option<T>, s: seq<T>): C.Option<T> {
    if s == [] then before else C.Some(s[|s| - 1])
  }

  lemma {:induction false} WorkflowMeans(f: Flow, items: seq<WorkflowEntry>)
    ensures WithWorkflow(f, items).names == f.names + ItemNames(items)
    ensures WithWorkflow(f, items).schedule == LastOf(f.schedule, Schedules(items))
  {
    if items != [] {
      WorkflowMeans(f, items[..|items| - 1]);
    }
  }

  // The lists of a target, as functions of the target.

  function StepsIn(t: C.Target): seq<C.Step> { t.steps }
  function GuardIn(t: C.Target): seq<string> { t.whenCmd }
  function InputsIn(t: C.Target): seq<string> { t.inputs }
  function OutputsIn(t: C.Target): seq<string> { t.outputs }
  function ArgsIn(t: C.Target): seq<C.ArgDecl> { t.args }
  function SlotsIn(t: C.Target): seq<C.PassthroughSlot> { t.passthrough }
  function PresetsIn(t: C.Target): seq<C.Preset> { t.presets }
  function NetworksIn(t: C.Target): seq<string> { t.networks }
  function VolumesIn(t: C.Target): seq<C.VolumeRef> { t.volumes }
  function ItemsIn(t: C.Target): seq<string> { t.workflow }
  function DaemonsIn(t: C.Target): seq<C.Daemon> { t.daemons }

  /** Every clause appends its own parts to the list, and nothing else. */
  ghost predicate Collects<T(!new)>(list: C.Target -> seq<T>, part: BodyEntry -> seq<T>) {
    forall t, e :: list(WithEntry(t, e)) == list(t) + part(e)
  }

  lemma {:induction false} Collected<T(!new)>(list: C.Target -> seq<T>, part: BodyEntry -> seq<T>, t: C.Target,
                                              es: seq<BodyEntry>)
    requires Collects(list, part)
    ensures list(WithBody(t, es)) == list(t) + Gather(part, es)
  {
    if es != [] {
      var init, last := es[..|es| - 1], es[|es| - 1];
      Collected(list, part, t, init);
      assert list(WithEntry(WithBody(t, init), last)) == list(WithBody(t, init)) + part(last);
      assert list(t) + Gather(part, init) + part(last) == list(t) + (Gather(part, init) + part(last));
    }
  }

  /** Something is gathered exactly where some clause has a part. */
  lemma {:induction false} GathersSomething<E, T>(part: E -> seq<T>, es: seq<E>)
    ensures Gather(part, es) != [] <==> exists e :: e in es && part(e) != []
  {
    if es != [] {
      var init, last := es[..|es| - 1], es[|es| - 1];
      GathersSomething(part, init);
      assert forall e :: e in es <==> e in init || e == last;
    }
  }

  lemma {:induction false} StepsStep(t: C.Target, e: BodyEntry)
    ensures WithEntry(t, e).steps == t.steps + StepParts(e)
  {
  }

  lemma {:induction false} GuardStep(t: C.Target, e: BodyEntry)
    ensures WithEntry(t, e).whenCmd == t.whenCmd + GuardParts(e)
  {
  }

  lemma {:induction false} InputsStep(t: C.Target, e: BodyEntry)
    ensures WithEntry(t, e).inputs == t.inputs + InputParts(e)
  {
  }

  lemma {:induction false} OutputsStep(t: C.Target, e: BodyEntry)
    ensures WithEntry(t, e).outputs == t.outputs + OutputParts(e)
  {
  }

  lemma {:induction false} ArgsStep(t: C.Target, e: BodyEntry)
    ensures WithEntry(t, e).args == t.args + ArgParts(e)
  {
  }

  lemma {:induction false} SlotsStep(t: C.Target, e: BodyEntry)
    ensures WithEntry(t, e).passthrough == t.passthrough + SlotParts(e)
  {
  }

  lemma {:induction false} PresetsStep(t: C.Target, e: BodyEntry)
    ensures WithEntry(t, e).presets == t.presets + PresetParts(e)
  {
  }

  lemma {:induction false} NetworksStep(t: C.Target, e: BodyEntry)
    ensures WithEntry(t, e).networks == t.networks + NetParts(e)
  {
  }

  lemma {:induction false} VolumesStep(t: C.Target, e: BodyEntry)
    ensures WithEntry(t, e).volumes == t.volumes + VolParts(e)
  {
  }

  lemma {:induction false} ItemsStep(t: C.Target, e: BodyEntry)
    ensures WithEntry(t, e).workflow == t.workflow + ItemParts(e)
  {
    if e.Workflow? {
      WorkflowMeans(Flow(t.workflow, t.schedule), e.items);
    }
  }

  lemma {:induction false} DaemonsStep(t: C.Target, e: BodyEntry)
    ensures WithEntry(t, e).daemons == t.daemons + DaemonParts(e)
  {
  }

  lemma {:induction false} CommandsCollect()
    ensures Collects(StepsIn, StepParts)
    ensures Collects(GuardIn, GuardParts)
    ensures Collects(InputsIn, InputParts)
    ensures Collects(OutputsIn, OutputParts)
  {
    forall t: C.Target, e
      ensures StepsIn(WithEntry(t, e)) == StepsIn(t) + StepParts(e)
      ensures GuardIn(WithEntry(t, e)) == GuardIn(t) + GuardParts(e)
      ensures InputsIn(WithEntry(t, e)) == InputsIn(t) + InputParts(e)
      ensures OutputsIn(WithEntry(t, e)) == OutputsIn(t) + OutputParts(e)
    {
      StepsStep(t, e);
      GuardStep(t, e);
      InputsStep(t, e);
      OutputsStep(t, e);
    }
  }

  lemma {:induction false} DeclaredCollect()
    ensures Collects(ArgsIn, ArgParts)
    ensures Collects(SlotsIn, SlotParts)
    ensures Collects(PresetsIn, PresetParts)
  {
    forall t: C.Target, e
      ensures ArgsIn(WithEntry(t, e)) == ArgsIn(t) + ArgParts(e)
      ensures SlotsIn(WithEntry(t, e)) == SlotsIn(t) + SlotParts(e)
      ensures PresetsIn(WithEntry(t, e)) == PresetsIn(t) + PresetParts(e)
    {
      ArgsStep(t, e);
      SlotsStep(t, e);
      PresetsStep(t, e);
    }
  }

  lemma {:induction false} UnitsCollect()
    ensures Collects(NetworksIn, NetParts)
    ensures Collects(VolumesIn, VolParts)
    ensures Collects(ItemsIn, ItemParts)
    ensures Collects(DaemonsIn, DaemonParts)
  {
    forall t: C.Target, e
      ensures NetworksIn(WithEntry(t, e)) == NetworksIn(t) + NetParts(e)
      ensures VolumesIn(WithEntry(t, e)) == VolumesIn(t) + VolParts(e)
      ensures ItemsIn(WithEntry(t, e)) == ItemsIn(t) + ItemParts(e)
      ensures DaemonsIn(WithEntry(t, e)) == DaemonsIn(t) + DaemonParts(e)
    {
      NetworksStep(t, e);
      VolumesStep(t, e);
      ItemsStep(t, e);
      DaemonsStep(t, e);
    }
  }

  /** Steps of blocks and bare steps in one list, guard command, inputs, outputs, arguments, passthrough slots, presets,
      networks, volumes, workflow items and daemons: each the parts of all clauses, in the order of the file. */
  lemma {:induction false} ListsAreCollected(t: C.Target, es: seq<BodyEntry>)
    ensures var r := WithBody(t, es);
      && r.steps == t.steps + Gather(StepParts, es)
      && r.whenCmd == t.whenCmd + Gather(GuardParts, es)
      && r.inputs == t.inputs + Gather(InputParts, es)
      && r.outputs == t.outputs + Gather(OutputParts, es)
      && r.args == t.args + Gather(ArgParts, es)
      && r.passthrough == t.passthrough + Gather(SlotParts, es)
      && r.presets == t.presets + Gather(PresetParts, es)
      && r.networks == t.networks + Gather(NetParts, es)
      && r.volumes == t.volumes + Gather(VolParts, es)
      && r.workflow == t.workflow + Gather(ItemParts, es)
      && r.daemons == t.daemons + Gather(DaemonParts, es)
  {
    CommandsCollect();
    DeclaredCollect();
    UnitsCollect();
    Collected(StepsIn, StepParts, t, es);
    Collected(GuardIn, GuardParts, t, es);
    Collected(InputsIn, InputParts, t, es);
    Collected(OutputsIn, OutputParts, t, es);
    Collected(ArgsIn, ArgParts, t, es);
    Collected(SlotsIn, SlotParts, t, es);
    Collected(PresetsIn, PresetParts, t, es);
    Collected(NetworksIn, NetParts, t, es);
    Collected(VolumesIn, VolParts, t, es);
    Collected(ItemsIn, ItemParts, t, es);
    Collected(DaemonsIn, DaemonParts, t, es);
  }

  /** The last schedule of all workflow clauses wins. */
  lemma {:induction false} LastScheduleWins(t: C.Target, es: seq<BodyEntry>)
    ensures WithBody(t, es).schedule == LastOf(t.schedule, Gather(ScheduleParts, es))
  {
    if es != [] {
      var init, last := es[..|es| - 1], es[|es| - 1];
      LastScheduleWins(t, init);
      ScheduleStep(WithBody(t, init), last);
    }
  }

  lemma {:induction false} ScheduleStep(t: C.Target, e: BodyEntry)
    ensures WithEntry(t, e).schedule == LastOf(t.schedule, ScheduleParts(e))
  {
    if e.Workflow? {
      WorkflowMeans(Flow(t.workflow, t.schedule), e.items);
    }
  }

  // ------------------------------------------------- fields, whether a clause sets them or not

  /** The last one, or what was there before. */
  function LastOr<T>(before: T, s: seq<T>): T {
    if s == [] then before else s[|s| - 1]
  }

  function DepsParts(e: BodyEntry): seq<seq<string>> {
    if e.Deps? then [e.names] else []
  }

  function TagParts(e: BodyEntry): seq<seq<string>> {
    if e.Tags? then [e.tags] else []
  }

  function CwdParts(e: BodyEntry): seq<string> {
    if e.Cwd? then [e.path] else []
  }

  function DescParts(e: BodyEntry): seq<string> {
    if e.Desc? then [e.text] else []
  }

  function VariableParts(e: BodyEntry): seq<string> {
    if e.WhenEnv? then [e.variable] else []
  }

  function PoolParts(e: BodyEntry): seq<string> {
    if e.Pool? then [e.name] else []
  }

  function MutexParts(e: BodyEntry): seq<string> {
    if e.Mutex? then [e.name] else []
  }

  function ImageParts(e: BodyEntry): seq<string> {
    if e.ImageIdent? || e.ImageString? then [e.image] else []
  }

  function PrivateParts(e: BodyEntry): seq<bool> {
    if e.Private? then [true] else []
  }

  function UnsafeParts(e: BodyEntry): seq<bool> {
    if e.Unsafe? then [true] else []
  }

  function NoParts(e: BodyEntry): seq<string> { [] }

  // The fields of a target, as functions of the target.

  function NameIn(t: C.Target): string { t.name }
  function DepsIn(t: C.Target): seq<string> { t.deps }
  function TagsIn(t: C.Target): seq<string> { t.tags }
  function CwdIn(t: C.Target): string { t.cwd }
  function DescIn(t: C.Target): string { t.desc }
  function VariableIn(t: C.Target): string { t.whenEnv }
  function PoolIn(t: C.Target): string { t.pool }
  function MutexIn(t: C.Target): string { t.mutex }
  function ImageIn(t: C.Target): string { t.image }
  function PrivateIn(t: C.Target): bool { t.private }
  function UnsafeIn(t: C.Target): bool { t.unsafe }

  /** A clause sets the field to its own part, or leaves it. */
  ghost predicate Replaces<T(!new)>(field: C.Target -> T, part: BodyEntry -> seq<T>) {
    forall t, e :: field(WithEntry(t, e)) == LastOr(field(t), part(e))
  }

  lemma {:induction false} Replaced<T(!new)>(field: C.Target -> T, part: BodyEntry -> seq<T>, t: C.Target,
                                             es: seq<BodyEntry>)
    requires Replaces(field, part)
    ensures field(WithBody(t, es)) == LastOr(field(t), Gather(part, es))
  {
    if es != [] {
      var init, last := es[..|es| - 1], es[|es| - 1];
      Replaced(field, part, t, init);
      assert field(WithEntry(WithBody(t, init), last)) == LastOr(field(WithBody(t, init)), part(last));
      LastOfBoth(field(t), Gather(part, init), part(last));
    }
  }

  lemma {:induction false} LastOfBoth<T>(before: T, a: seq<T>, b: seq<T>)
    ensures LastOr(before, a + b) == LastOr(LastOr(before, a), b)
  {
  }

  lemma {:induction false} TextsReplace()
    ensures Replaces(DepsIn, DepsParts)
    ensures Replaces(TagsIn, TagParts)
    ensures Replaces(CwdIn, CwdParts)
    ensures Replaces(DescIn, DescParts)
    ensures Replaces(NameIn, NoParts)
  {
    forall t: C.Target, e
      ensures DepsIn(WithEntry(t, e)) == LastOr(DepsIn(t), DepsParts(e))
      ensures TagsIn(WithEntry(t, e)) == LastOr(TagsIn(t), TagParts(e))
      ensures CwdIn(WithEntry(t, e)) == LastOr(CwdIn(t), CwdParts(e))
      ensures DescIn(WithEntry(t, e)) == LastOr(DescIn(t), DescParts(e))
      ensures NameIn(WithEntry(t, e)) == LastOr(NameIn(t), NoParts(e))
    {
      DepsStep(t, e);
      TagsStep(t, e);
      CwdStep(t, e);
      DescStep(t, e);
      NameStep(t, e);
    }
  }

  lemma {:induction false} NamesReplace()
    ensures Replaces(VariableIn, VariableParts)
    ensures Replaces(PoolIn, PoolParts)
    ensures Replaces(MutexIn, MutexParts)
    ensures Replaces(ImageIn, ImageParts)
    ensures Replaces(PrivateIn, PrivateParts)
    ensures Replaces(UnsafeIn, UnsafeParts)
  {
    forall t: C.Target, e
      ensures VariableIn(WithEntry(t, e)) == LastOr(VariableIn(t), VariableParts(e))
      ensures PoolIn(WithEntry(t, e)) == LastOr(PoolIn(t), PoolParts(e))
      ensures MutexIn(WithEntry(t, e)) == LastOr(MutexIn(t), MutexParts(e))
      ensures ImageIn(WithEntry(t, e)) == LastOr(ImageIn(t), ImageParts(e))
      ensures PrivateIn(WithEntry(t, e)) == LastOr(PrivateIn(t), PrivateParts(e))
      ensures UnsafeIn(WithEntry(t, e)) == LastOr(UnsafeIn(t), UnsafeParts(e))
    {
      VariableStep(t, e);
      PoolStep(t, e);
      MutexStep(t, e);
      ImageStep(t, e);
      PrivateStep(t, e);
      UnsafeStep(t, e);
    }
  }

  lemma {:induction false} MarksSaid(before: bool, es: seq<BodyEntry>)
    ensures LastOr(before, Gather(PrivateParts, es)) <==> before || Private in es
    ensures LastOr(before, Gather(UnsafeParts, es)) <==> before || Unsafe in es
  {
    if es != [] {
      var init, last := es[..|es| - 1], es[|es| - 1];
      assert es == init + [last];
      MarksSaid(before, init);
      LastOfBoth(before, Gather(PrivateParts, init), PrivateParts(last));
      LastOfBoth(before, Gather(UnsafeParts, init), UnsafeParts(last));
    }
  }

  lemma {:induction false} NothingGathered(es: seq<BodyEntry>)
    ensures Gather(NoParts, es) == []
  {
    if es != [] {
      NothingGathered(es[..|es| - 1]);
    }
  }

  /** A field holds what the last of its clauses says, or what it held before if there is none; the two marks are
      set by any. */
  lemma {:induction false} FieldsAreLast(t: C.Target, es: seq<BodyEntry>)
    ensures var r := WithBody(t, es);
      && r.name == t.name
      && r.deps == LastOr(t.deps, Gather(DepsParts, es))
      && r.tags == LastOr(t.tags, Gather(TagParts, es))
      && r.cwd == LastOr(t.cwd, Gather(CwdParts, es))
      && r.desc == LastOr(t.desc, Gather(DescParts, es))
      && r.whenEnv == LastOr(t.whenEnv, Gather(VariableParts, es))
      && r.pool == LastOr(t.pool, Gather(PoolParts, es))
      && r.mutex == LastOr(t.mutex, Gather(MutexParts, es))
      && r.image == LastOr(t.image, Gather(ImageParts, es))
      && (r.private <==> t.private || Private in es)
      && (r.unsafe <==> t.unsafe || Unsafe in es)
  {
    TextsReplace();
    NamesReplace();
    NothingGathered(es);
    Replaced(NameIn, NoParts, t, es);
    Replaced(DepsIn, DepsParts, t, es);
    Replaced(TagsIn, TagParts, t, es);
    Replaced(CwdIn, CwdParts, t, es);
    Replaced(DescIn, DescParts, t, es);
    Replaced(VariableIn, VariableParts, t, es);
    Replaced(PoolIn, PoolParts, t, es);
    Replaced(MutexIn, MutexParts, t, es);
    Replaced(ImageIn, ImageParts, t, es);
    Replaced(PrivateIn, PrivateParts, t, es);
    Replaced(UnsafeIn, UnsafeParts, t, es);
    MarksSaid(t.private, es);
    MarksSaid(t.unsafe, es);
  }

  lemma {:induction false} DepsStep(t: C.Target, e: BodyEntry)
    ensures WithEntry(t, e).deps == LastOr(t.deps, DepsParts(e))
  {
  }

  lemma {:induction false} TagsStep(t: C.Target, e: BodyEntry)
    ensures WithEntry(t, e).tags == LastOr(t.tags, TagParts(e))
  {
  }

  lemma {:induction false} CwdStep(t: C.Target, e: BodyEntry)
    ensures WithEntry(t, e).cwd == LastOr(t.cwd, CwdParts(e))
  {
  }

  lemma {:induction false} DescStep(t: C.Target, e: BodyEntry)
    ensures WithEntry(t, e).desc == LastOr(t.desc, DescParts(e))
  {
  }

  lemma {:induction false} VariableStep(t: C.Target, e: BodyEntry)
    ensures WithEntry(t, e).whenEnv == LastOr(t.whenEnv, VariableParts(e))
  {
  }

  lemma {:induction false} PoolStep(t: C.Target, e: BodyEntry)
    ensures WithEntry(t, e).pool == LastOr(t.pool, PoolParts(e))
  {
  }

  lemma {:induction false} MutexStep(t: C.Target, e: BodyEntry)
    ensures WithEntry(t, e).mutex == LastOr(t.mutex, MutexParts(e))
  {
  }

  lemma {:induction false} ImageStep(t: C.Target, e: BodyEntry)
    ensures WithEntry(t, e).image == LastOr(t.image, ImageParts(e))
  {
  }

  lemma {:induction false} PrivateStep(t: C.Target, e: BodyEntry)
    ensures WithEntry(t, e).private == LastOr(t.private, PrivateParts(e))
  {
  }

  lemma {:induction false} UnsafeStep(t: C.Target, e: BodyEntry)
    ensures WithEntry(t, e).unsafe == LastOr(t.unsafe, UnsafeParts(e))
  {
  }

  lemma {:induction false} NameStep(t: C.Target, e: BodyEntry)
    ensures WithEntry(t, e).name == t.name
  {
  }

  // ----------------------------------------------------------------------------------- env

  /** The pairs of all env clauses count as one list. */
  lemma {:induction false} EnvIsOneList(t: C.Target, es: seq<BodyEntry>)
    ensures WithBody(t, es).env == WithPairs(t.env, Gather(PairParts, es))
  {
    if es != [] {
      var init, last := es[..|es| - 1], es[|es| - 1];
      EnvIsOneList(t, init);
      EnvStep(WithBody(t, init), last);
      FoldConcat(WithPair, t.env, Gather(PairParts, init), PairParts(last));
    }
  }

  lemma {:induction false} EnvStep(t: C.Target, e: BodyEntry)
    ensures WithEntry(t, e).env == WithPairs(t.env, PairParts(e))
  {
  }

  /** In a list of pairs the last one of a key wins. */
  lemma {:induction false} LastPairWins(env: map<string, string>, pairs: seq<EnvPair>, i: nat)
    requires i < |pairs| && forall j :: i < j < |pairs| ==> pairs[j].key != pairs[i].key
    ensures pairs[i].key in WithPairs(env, pairs) && WithPairs(env, pairs)[pairs[i].key] == pairs[i].value
  {
    if i < |pairs| - 1 {
      LastPairWins(env, pairs[..|pairs| - 1], i);
    }
  }

  // ------------------------------------------------------------------ no argument is required

  /** No compiled argument is marked as required: the Bakefile has no word for it. */
  ghost predicate NothingRequired(t: C.Target) {
    forall a :: a in t.args ==> !a.required
  }

  lemma {:induction false} GatheredNotRequired(es: seq<BodyEntry>)
    ensures forall a :: a in Gather(ArgParts, es) ==> !a.required
  {
    if es != [] {
      GatheredNotRequired(es[..|es| - 1]);
    }
  }

  lemma {:induction false} TargetNotRequired(name: string, form: TargetForm, filePrivate: bool)
    ensures NothingRequired(TargetOf(name, form, filePrivate))
  {
    if form.Braced? {
      DeclaredCollect();
      Collected(ArgsIn, ArgParts, C.BlankTarget(name, filePrivate), form.body);
      GatheredNotRequired(form.body);
    }
  }

  lemma {:induction false} TargetsNotRequired(p: Partial, es: seq<FileEntry>)
    requires forall t :: t in p.file.targets ==> NothingRequired(t)
    ensures forall t :: t in WithFileEntries(p, es).file.targets ==> NothingRequired(t)
  {
    if es != [] {
      var last := es[|es| - 1];
      TargetsNotRequired(p, es[..|es| - 1]);
      if last.TargetBlock? {
        TargetNotRequired(last.name, last.form, WithFileEntries(p, es[..|es| - 1]).filePrivate);
      }
    }
  }

  /** Whatever the command line, parsing the arguments of a target that a file defines never fails: the check of
      required arguments is there, and nothing a Bakefile can say makes it apply. */
  lemma {:induction false} ParsingNeverFails(ast: Bakefile, t: C.Target, args: Args)
    requires t in FileOf(ast).targets
    ensures FirstMissing(t.args, Bound(t, args).0).None?
  {
    TargetsNotRequired(Partial(C.File(ast.dotenv, [], [], [], []), false), ast.entries);
    assert NothingRequired(t);
    SucceedsExactly(t, args);
  }
}
