# A verified model of Bake

Bake runs the targets of a Bakefile with their dependencies. It can run them in parallel, skips those whose inputs
have not changed, and talks to a daemon that queues requests and reconciles long-running processes with the file. This
project models the parts of Bake that are hardest to get right and proves what they promise. `dafny verify
dfyconfig.toml` checks all of it.

The files follow the program:

- **Dependency order.** `Dag`, `Levels` and `Validate` model the walk, the grouping into levels and the validation
  they rest on. The walk does not reject cycles, so its theorems hold on any graph; the level theorems ask for
  distinct names and no cycle that is reachable from the requested target, and say that this is needed.
- **Running.** `ParallelRun` is a step system over all interleavings of the level-parallel run: one main goroutine and
  one per target, with slots, pools, mutexes, cancellation, errors and events. `ParallelTheorems` has its theorems, on
  any graph the walk accepts, `SequentialRun` the sequential run and the body of one target, `FixedWorld` shows that
  the answers of the world decide the result and the events of every target, and when the two kinds of run differ,
  `Trace` is the event stream.
- **Bakefile language.** `Ast`, `Config` and `Compile` model parsing results, configuration and compiler;
  `BodyMeaning` and `PartsMeaning` say what compiling means without the fold, `UnitMeaning` what the runner reads off
  the result. `StableBuckets` and `OrderEntries` show that reordering clauses does not change what is compiled, `Lint`
  that the automatic fix does not either, `LintFormat` that the text a fix run writes means what the file meant.
- **Formatter.** `Formatter` writes as the source does and is proved against `Printer`, the same text as a sequence of
  tokens with whitespace. `Lexer` and `Parser` read it: `Quoted` and `Layout` show that the lexer finds the written
  tokens, `ReadBack` to `FileReadBack` that the parser returns the canonical form, `Spacing` to `FileSpacing` that
  every file of the fragment is laid out well. `FormatMeaning` and `RoundTrip` conclude that meaning is kept,
  `Idempotence` that formatting twice is formatting once, `Ambiguities` shows why a fragment is needed.
- **Daemon.** `Queue` is the persistent queue, `Recovery` its protocol with crashes and restarts, `HotReload` the
  table of daemons under reload, `up`, `down` and health checks, `DaemonHistory` any sequence of these,
  `StartOrder` the order of the starts.
- **Cache, imports, arguments, shell.** `Hashing` and `Cache`, `Imports`, `ParseArgs`, `ShellQuote` and `ShellSteps`;
  `Decimal` and `Sorting` are shared.

Where the code loops or updates state, the model has a method or a class proved against a function, and the lemmas
speak about that function. Nothing was executed.

The fragment of the formatter theorems is `FileReadBack.GoodFile`: quoted text does not end in a backslash; an
unquoted env value is an identifier; a list of identifiers of open length (tags, cmd, a single-line target, dotenv,
args without its default) comes last in its block; an argument with a default has a short name; deps are not empty; a
printed preset has an entry; a workflow item is not called `schedule`; a suite member is written as an identifier.
Meaning is kept exactly where, moreover, no daemon has `net` or `vol`, which the formatter drops, a suite member keeps
its reference, and every target above a file-level `private` says `private` itself.

Places where the code and its documentation disagree, the model following the code. Each has the exact condition, for
all inputs, and an input that shows it, reached from the initial state where there is one:

- internal/runner/dag.go:46 says level k depends only on levels below k; validation lets cycles through
  (`Levels.LevelsDescendExactly`, `Dag.TopologicalExactly`, `Validate.CyclePassesValidation`).
- docs/bakefile-reference.md:175 reports an error for an image only when Docker is not available; a sequential run, the
  default, refuses every dependency that is to run in a container (`FixedWorld.SequentialExactly`,
  `FixedWorld.OnlyParallelRunsIt`).
- docs/bakefile-reference.md:45 runs the script of a shell step with the shell; on the host the shell is given a line
  whose command is `-c` (`ShellSteps.HostNeverGetsScript`, `ShellSteps.HostRunsOption`, `ShellSteps.AlikeExactly`).
- docs/cli-reference.md:78 and docs/future.md:73 promise a restart of changed daemons; only image and argument lists
  are compared (`HotReload.RestartedExactly`, `DaemonHistory.NewValueIsNotApplied`).
- docs/cli-reference.md:77 says the health check removes dead entries; it removes those its probe does not find, and
  the probe can be wrong both ways: the docker command does not know the containers of another runtime, and a process
  that ended is found until somebody waits for it (`HotReload.CheckedExactly`, `DaemonHistory.HealthForgets`,
  `DaemonHistory.DeadEntryStays`).
- docs/cli-reference.md:70 promises that imports are watched; the loaded configuration no longer lists them
  (`Imports.WatchedExactly`, `Imports.ImportNotWatched`).
- docs/lint.md:33 says a disabled rule is off entirely; a fix run with prefer-exec disabled still turns single-line
  targets into exec steps when another rule has a fixable finding. brackets-only has one for every such target, since
  it asks for that target to be bracketed; the brackets are its doing, the exec is not (`Lint.DisabledExactly`,
  `Lint.DisabledStillConverts`).
- docs/bakefile-reference.md:62 skips a target whose inputs match the last run; an earlier run with the same inputs
  will do (`Cache.RestsOnLastRunExactly`, `Cache.EarlierInputsSkip`).
- The same line asks that all outputs exist; only those are checked that existed when the run was saved
  (`Cache.OutputsSureExactly`, `Cache.PartialOutputSkips`).
- The grammar in the documentation says a file-level `private` marks all targets; the compiler marks those after it
  (`RoundTrip.CanonicalCompilesExactly`).

Two more results of this kind concern the code alone: a process can run without an entry, after `up` on a running
daemon or `down` of one that ignores the signal (`DaemonHistory.LeaksExactly`, `DaemonHistory.UpTwiceLeaks`,
`DaemonHistory.DownForgets`), and a request runs at least once, not exactly once (`Recovery.RunsAgainExactly`,
`Recovery.RunsTwice`).

## Model

| member | source | states |
|---|---|---|
| `Dag.Walker.VisitName` | internal/runner/dag.go:14-30 | The recursive closure, from any state of its captured variables and on any graph, cyclic ones included: it ends (each call marks one more name) and leaves exactly the visited set, order and error of the depth-first post-order walk `Visit`. |
| `Dag.TopoOrder` | internal/runner/dag.go:10-35 | The result of the walk started with nothing visited: the order, or the unknown dependency it met first. |
| `Dag.VisitGrows` | internal/runner/dag.go:14-30 | What every nested call keeps: an error names an undefined target reachable from the call; otherwise the order only grows, without repetition, by names reachable from the call, the recursion stack is restored, and each dependency of a listed name is listed before it or can come back to it. |
| `Dag.OrderIsReachable` | internal/runner/dag.go:10-35 | When there is an order, a name is in it if and only if it is reachable from the requested target. |
| `Dag.TopoOrderFailsExactly` | internal/runner/dag.go:10-35 | On any graph the walk fails if and only if an undefined name is reachable from the requested target. |
| `Dag.TopoOrderSound` | internal/runner/dag.go:9-35 | On any graph: every reachable target exactly once, the requested one last, and a dependency before its dependent unless it can itself reach the dependent. |
| `Dag.TopologicalExactly` | internal/runner/dag.go:9-35 | The order is topological if and only if no reachable dependency edge lies on a cycle. |
| `Dag.SiblingsInOrder` | internal/runner/dag.go:24-28 | On any graph: a dependency of the requested target comes before every name that neither it nor a dependency listed earlier reaches, so dependencies are visited in the order of the file. |
| `Dag.FirstUnknown` | internal/runner/dag.go:20-28 | On any graph: the undefined name reported is one below the first dependency of the requested target that has an undefined name below it. |
| `Levels.AllEdges` | internal/runner/dag.go:38-44 | The edge map, the last of several targets of one name winning. |
| `Levels.EdgesAgree` | internal/runner/dag.go:37-44 | With distinct names the edge map (last match) and the lookup by name (first match) agree on every target. |
| `Levels.LevelOrder` | internal/runner/dag.go:48-80 | On any graph: the same failure as the walk, or its order grouped by computed level. |
| `Levels.AssignLevels` | internal/runner/dag.go:57-67 | The loop gives each name of the order one more than the highest level of its dependencies assigned so far (a missing one counting as 0). |
| `Levels.HighestDep` | internal/runner/dag.go:60-65 | The inner loop finds the highest level among the dependencies that belong to the order, -1 without any. |
| `Levels.GroupByLevel` | internal/runner/dag.go:68-79 | The names of each level, in walk order, for every level up to the highest. |
| `Levels.LevelsKeepOrder` | internal/runner/dag.go:74-78 | The targets of one level are listed in the order of the walk. |
| `Levels.GroupedPartition` | internal/runner/dag.go:74-78 | On any order without repetition, cyclic graphs included, the levels partition it. |
| `Levels.LevelEquation` | internal/runner/dag.go:46-67 | On a graph with distinct names where no reachable dependency edge lies on a cycle (cycles elsewhere are allowed, here and below) a level is one above the highest dependency of the target, although the loop reads levels that are still being filled. |
| `Levels.LevelIsLongestChain` | internal/runner/dag.go:46-67 | A reachable target has level k if and only if its longest dependency chain has k edges. |
| `Levels.LevelsDescend` | internal/runner/dag.go:46-80 | Every dependency of a target of level k is in a level below k. |
| `Levels.LevelsTight` | internal/runner/dag.go:46-80 | Every target of a level above 0 depends on some target of the level just below. |
| `Levels.LevelsFilled` | internal/runner/dag.go:74-78 | No level is empty. |
| `Levels.LastLevel` | internal/runner/runner.go:174-177 | The last level is the requested target alone, as the runner's comment assumes. |
| `Levels.LevelsDescendExactly` | internal/runner/dag.go:46-80 | The comment says level k depends only on levels below k; on a graph with distinct names this holds if and only if no reachable edge lies on a cycle, which validation does not rule out. |
| `Levels.LevelOrderSound` | internal/runner/dag.go:46-80 | All of this at once, for every graph with distinct names and no reachable cycle on which the walk succeeds: exact partition of the reachable targets, dependencies strictly lower, no level empty or higher than needed, requested target alone on top. |
| `Validate.CheckTargets` | internal/config/validate.go:35-62 | The checks report nothing if and only if target names are distinct and every dependency is defined; what they report are exactly the names that occur twice and the undefined dependencies, all of them. |
| `Validate.CheckDuplicates` | internal/config/validate.go:35-48 | Exactly the names that two targets share are reported, all of them. |
| `Validate.CheckDeps` | internal/config/validate.go:50-62 | Exactly the undefined dependencies are reported, each under every target that has it. |
| `Validate.CheckDaemonNames` | internal/config/validate.go:155-179 | Exactly the names that two daemons of the target share and those that some target has are reported; the names collected are those of the daemons. |
| `Validate.CheckWorkflow` | internal/config/validate.go:180-193 | Exactly the workflow names that are neither a target nor one of the given names are reported. |
| `Validate.CheckDaemons` | internal/config/validate.go:154-194 | Exactly the problems of all targets are reported: a daemon name used twice in a target, one that a target has, a workflow name that is neither; none if and only if there is no such name. |
| `Validate.ValidatedNeverUnknown` | internal/config/validate.go:35-62 | On a validated configuration the walk from a defined target never meets an unknown name, and without a reachable cycle all the level facts hold. |
| `Validate.CyclePassesValidation` | internal/config/validate.go:28-62 | Validation does not reject cycles: some validated graph gets an order in which a dependency comes after its dependent. |
| `Trace.ScanMeaning` | internal/runner/runner.go:25-34 | The automaton over the events of one target says what positions in the stream say: silent, opened once, or one start and one closing event with only step events between. |
| `Trace.WellBracketedMeaning` | internal/runner/runner.go:85-214 | In a finished stream every target either has no event or exactly one start matched by exactly one of end, cache skip and when skip. |
| `ParallelRun.MoveAccounted` | internal/runner/runner.go:180-202 | Each atomic step of a target's goroutine (slot, pool, mutex, body, release in reverse) changes the shared counters and locks exactly as the phases before and after say; a lock is taken only when free and released only by its holder. |
| `ParallelRun.MoveWrites` | internal/runner/runner.go:255-364 | Each step writes at most one event, of its own target, and one that its bracket allows there; which one it is, `FixedWorld.EventsAreDecided` says. |
| `ParallelRun.NoMoveAfterReturn` | internal/runner/runner.go:204-213 | Once the run has returned no goroutine has a step left: the barrier waited for all of them. |
| `ParallelRun.StepKeeps` | internal/runner/runner.go:161-248 | Every step of the main goroutine, of a target and a cancellation keeps the invariant: levels finished in order, slots counted, pools and mutexes exclusive, first error recorded, events bracketed. |
| `ParallelRun.AlwaysInv` | internal/runner/runner.go:161-248 | The invariant holds after every schedule, for every assignment of pools and mutexes. |
| `ParallelTheorems.PlanIsPlanned` | internal/runner/dag.go:48-80 | The plan made from any graph, cyclic or not, has disjoint levels without repetition, which is all the run relies on for the lock and progress theorems. |
| `ParallelTheorems.MutualExclusion` | internal/runner/runner.go:180-191 | In every reachable state at most MaxParallel targets hold a slot, a target in its body holds one, and two targets in their bodies share neither a pool nor a mutex. |
| `ParallelTheorems.DepsFinishFirst` | internal/runner/runner.go:166-204 | When a target's goroutine exists, each of its dependencies has finished without error. |
| `ParallelTheorems.TraceRespectsDeps` | internal/runner/runner.go:161-213 | In the event stream of every schedule all events of all dependencies of a target come before its start. |
| `ParallelTheorems.NoLaterLevelAfterError` | internal/runner/runner.go:204-210 | Once an error is recorded no target of a later level has a goroutine, and no continuation of the schedule reaches a later level. |
| `ParallelTheorems.ErrorFreezesLevel` | internal/runner/runner.go:193-210 | The first recorded error is never replaced, whatever follows. |
| `ParallelTheorems.ResultMeansAllSucceeded` | internal/runner/runner.go:161-213 | A run that returned nil is one in which every planned target finished without error, each with one complete bracket of events, and conversely; a returned error belongs to a target that failed. |
| `ParallelTheorems.RunReturnsNilExactly` | internal/runner/runner.go:161-213 | On every graph the walk accepts, cyclic ones and repeated names included: once the levels are made, Run returns nil if and only if every reachable target finished without error and has exactly one bracket of events. |
| `ParallelTheorems.ParallelTraceWellBracketed` | internal/runner/runner.go:161-213 | Every finished run of the levels, in every interleaving: run_start first, one run_end, last and with the right verdict, and every target silent or bracketed. |
| `ParallelTheorems.WholeRun` | internal/runner/runner.go:85-214 | The whole parallel run, early exits (unknown target, dotenv error, undefined dependency) included, under every schedule: the stream is well bracketed with the right verdict; the levels are begun if and only if the dotenv files load and every reachable name is defined; there is no error if and only if moreover every reachable target finished without one. |
| `ParallelTheorems.DeadlockFree` | internal/runner/runner.go:180-248 | In every reachable state of a run that has not returned, and for any fixed answers of the world (guards, cache, steps, containers, saves), some step other than a cancellation is enabled that agrees with these answers, for any pool and mutex names, because locks are taken in one order. |
| `ParallelTheorems.ScheduleBounded` | internal/runner/runner.go:161-248 | No schedule is longer than the work there is at the start; the measure drops at every step of every goroutine. |
| `ParallelTheorems.EveryRunEnds` | internal/runner/runner.go:161-248 | Schedules are bounded, and one that no step agreeing with the answers of the world can continue, but a cancellation, has returned. |
| `FixedWorld.ResultIsDecided` | internal/runner/runner.go:161-213 | The answers of the world decide the result: under every interleaving that agrees with them, nil means that every target succeeds; without a cancellation it is returned if and only if every target does, and an error belongs to a target that does not. |
| `FixedWorld.ParallelSucceedsExactly` | internal/runner/runner.go:161-213 | Given fixed answers, a parallel run of any width that is not cancelled returns nil, in whatever interleaving, if and only if every target of the walk's order succeeds, its dependencies with the same options as the requested one. |
| `FixedWorld.SequentialExactly` | internal/runner/runner.go:128-160 | The two kinds of run, exactly: given the same answers, the sequential run succeeds if and only if the parallel one returns nil and no dependency is to run its steps in a container, because the options made for a dependency in the sequential loop (line 139) lack the registry that the parallel one passes (line 173) and a container is refused without (lines 491-493). |
| `FixedWorld.OnlyParallelRunsIt` | docs/bakefile-reference.md:175 | One graph: a target and a dependency with an image. With the container service there and every answer good, the sequential run fails, every parallel run that is not cancelled returns nil, and there is one; the documentation promises an error only without the service. |
| `FixedWorld.SomeRunFinishes` | internal/runner/runner.go:161-213 | Whatever the answers, some schedule agrees with them, is not cancelled and returns, so the results above are about runs that exist. |
| `FixedWorld.EventsAreDecided` | internal/runner/runner.go:255-364 | The events of a target, exactly: under every schedule that agrees with the answers, a target that has begun and left its body has in the stream exactly the events that one target of a sequential run with its options writes, in their order, and before that the first of them. |
| `FixedWorld.ClosingIsDecided` | internal/runner/runner.go:255-364 | What closes a target in the stream of a parallel run, under every such schedule: skipped by its guard if and only if it has one that fails, up to date if and only if the guard lets it through, it is cached, hashing works and the cache hits, and otherwise ended, with the result of hashing and of its steps. |
| `SequentialRun.EventLog.Emit` | internal/runner/runner.go:57-66 | Appends one event; the bracket of its own target advances and no other changes. |
| `SequentialRun.RunTargetSteps` | internal/runner/runner.go:439-632 | The steps of one target: succeeds exactly when its environment expands and no step fails or has a placeholder that does not expand, or, for a container, it was given the registry and the container succeeds; writes exactly a pair of events for every command started, none for a step with nothing to run or one that is not expanded, and nothing after a failure. |
| `SequentialRun.RunTargetWithCache` | internal/runner/runner.go:255-364 | One target's body, with guard, cache decision, steps and save: returns without error exactly when the guard fails, the cache hits, or the steps and the save succeed; its events are appended, exactly those whose meaning the next two rows state, and they form one complete bracket on every path. |
| `SequentialRun.ClosingEvents` | internal/runner/runner.go:278-357 | What closes a target: skipped by its guard if and only if it has one that fails, up to date if and only if the guard lets it through and a cached target is hashed and hit, and otherwise ended, with the result of hashing and of its steps; none of the events is of another target. |
| `SequentialRun.StepEventsAre` | internal/runner/runner.go:439-632 | Of the steps exactly those have events whose command is started: a start and an end each, with their number from 1 and the result of the command. |
| `SequentialRun.RunTargets` | internal/runner/runner.go:137-154 | The loop over the order: the error is the first target that fails or is given up while it waits for its pool, every target before that one has its complete bracket, every one after it is silent, and the stream is exactly the events of the targets that ran, one after the other; only the requested target waits for its pool, and only it is given the registry without which a container is refused. |
| `SequentialRun.Run` | internal/runner/runner.go:85-160 | Sequential run on any graph: the stream is well bracketed on every path; no error exactly when the target is defined, the dotenv files load, no unknown name is reachable and every target of the order succeeds, a dependency that gets to the steps of a container never does; otherwise the error is the first target of the walk's order that stops the run, nothing of the targets after it is in the stream, and the stream is exactly the events of those that ran, in that order. |
| `Compile.CompileTarget` | internal/dsl/parser.go:116-294 | The clause loop computes the left fold of one clause after another over a blank target, and the single-line form appends its one step. |
| `Compile.CompileEntry` | internal/dsl/parser.go:123-286 | One clause, written out with the loops over its own parts (steps, pairs, presets, workflow items, daemons, paths, guard words): which fields are replaced, appended to, merged or kept, for every kind of clause; what the fold of it means is in the next rows. |
| `BodyMeaning.LastClauseWins` | internal/dsl/parser.go:123-286 | Over a whole body, the last clause of its kind decides deps, cwd, desc, tags, the guard variable, pool, mutex and image, whatever clauses of other kinds follow. |
| `BodyMeaning.FieldsAreLast` | internal/dsl/parser.go:116-286 | Over a whole body, each of these fields is what the last of its clauses says, or what it was if there is none; the private and unsafe marks are set if and only if some clause sets them. |
| `BodyMeaning.FirstSlotWins` | internal/dsl/parser.go:170-179 | Over a whole body, the first passthrough clause with a step number is the one kept as the target's own. |
| `BodyMeaning.ListsAreCollected` | internal/dsl/parser.go:116-294 | Over a whole body, steps, guard words, inputs, outputs, arguments, passthrough slots, presets, networks, volumes, workflow items and daemons are the parts of all clauses, in the order of the file, and nothing else. |
| `BodyMeaning.LastScheduleWins` | internal/dsl/parser.go:257-276 | Over a whole body, the last schedule of all workflow clauses is the one of the target. |
| `BodyMeaning.EnvIsOneList` | internal/dsl/parser.go:145-152 | Several env clauses are merged as if their pairs stood in one clause ... |
| `BodyMeaning.LastPairWins` | internal/dsl/parser.go:145-152 | ... and of the pairs of one key the last one wins. |
| `PartsMeaning.DaemonMeans` | internal/dsl/parser.go:296-353 | A daemon has the steps, networks and volumes of all its clauses in the order of the file, their pairs merged, the last working directory and image, and is unsafe if and only if some clause says so; its other clauses count for nothing. |
| `PartsMeaning.PresetMeans` | internal/dsl/parser.go:198-229 | A preset has the arguments and steps of all its entries in order, their pairs merged, and the last description. |
| `PartsMeaning.ProfileMeans` | internal/dsl/parser.go:94-113 | A profile has the dotenv paths of all its entries in order and their pairs merged. |
| `PartsMeaning.FileMeans` | internal/dsl/parser.go:39-92 | Dotenv paths, imports, profiles and suites of a file are those of its blocks, in the order of the file ... |
| `PartsMeaning.TargetsMean` | internal/dsl/parser.go:50-72 | ... and so are its targets, each compiled as private exactly if the file-level `private` stands above it. |
| `PartsMeaning.DotNamesPreset` | internal/dsl/ast.go:123-129 | A bare suite member with exactly one dot refers to a preset of a target ... |
| `PartsMeaning.OthersStay` | internal/dsl/ast.go:116-132 | ... and any other member is kept as it is written. |
| `UnitMeaning.UnitOfBody` | internal/runner/runner.go:259-303 | What the runner reads off a target, by the clauses of its body: it is guarded if and only if some guard command has a word or the last guard variable is named, cached if and only if it has an input and an output, run in a container if and only if its last image is not empty and it does not say unsafe; pool and mutex are the last ones; a preset with steps replaces its own. |
| `Config.FirstIsTaken` | internal/config/config.go:76-83 | Of several targets of one name the first is taken. |
| `Compile.CompilePreset` | internal/dsl/parser.go:198-230 | The loop over a preset: argument lists and steps appended, pairs merged, the last desc kept. |
| `Compile.CompileWorkflow` | internal/dsl/parser.go:257-276 | The loop over a workflow: names appended, a schedule replacing the one before. |
| `Compile.CompileSteps` | internal/dsl/parser.go:353-368 | Steps are appended in order: exec and cmd give their argument list, shell gives the runner with -c and the script. |
| `Compile.CompilePairs` | internal/dsl/parser.go:145-152 | Env pairs are merged one by one, later pairs winning. |
| `Compile.CompileDaemon` | internal/dsl/parser.go:296-351 | The clause loop of a daemon body, clauses that do not concern daemons being ignored. |
| `Compile.CompileFile` | internal/dsl/parser.go:39-92 | The loop over a file: a file-level `private` marks the targets after it, empty suite references are dropped. |
| `StableBuckets.Group` | internal/dsl/format.go:179-256 | The bucket loop: one bucket per kind filled in order, then joined, gives the grouping. |
| `StableBuckets.GroupedUnique` | internal/dsl/format.go:179-256 | Any sequence sorted by kind that keeps the order within each kind is the grouping, so the specification has one solution. |
| `StableBuckets.FoldGrouped` | internal/dsl/format.go:179-256 | A left fold whose steps of different kinds commute has the same result on the grouping as on the original. |
| `OrderEntries.OrderBodyEntries` | internal/dsl/format.go:179-256 | The formatter's reordering is the grouping by clause kind, bare steps and steps blocks sharing one kind. |
| `OrderEntries.OrderedIsStableSort` | internal/dsl/format.go:178-256 | The reordering is a permutation, sorted by kind, keeps the order within every kind, and is idempotent. |
| `Printer.PlacedByKeyword` | internal/dsl/format.go:232-255 | The canonical order, by the words clauses are written with: each kind has the place of its keyword in the list desc, deps, when (variable before command), inputs, outputs, args, env, cwd, tags, private, passthrough, pool, mutex, image, unsafe, net, vol, steps, workflow, daemon, preset. |
| `Printer.ClauseOnOwnLines` | internal/dsl/format.go:258-458 | Whatever its kind, a clause begins a line of its own with the indentation of its block and ends its last line. |
| `OrderEntries.Untouched` | internal/dsl/parser.go:123-286 | Compiling a clause leaves alone every field that the clauses of other kinds write ... |
| `OrderEntries.ReadsItsOwn` | internal/dsl/parser.go:123-286 | ... and what it writes depends on the fields of its own kind only. |
| `OrderEntries.Commute` | internal/dsl/parser.go:123-286 | Compiling two clauses of different kinds in either order gives the same target, for all pairs of kinds and all targets. |
| `OrderEntries.OrderingPreservesCompile` | internal/dsl/format.go:170-173 | Compiling the reordered body equals compiling the original, for every body and every starting target. |
| `OrderEntries.OrderingPreservesDaemon` | internal/dsl/format.go:426-433 | The same for daemon bodies. |
| `Lint.PreferExec` | internal/lint/prefer_exec.go:12-71 | The rule reports exactly the cmd steps of every target, single-line form included, each with its index counted over the whole target. |
| `Lint.PreferExecBody` | internal/lint/prefer_exec.go:38-68 | The step counter: a finding exists for step j of clause i if and only if it is a cmd step, under the number of steps before it. |
| `Lint.FixSteps` | internal/lint/lint.go:51-61 | Within a steps block exactly the cmd steps named by a finding become exec with the same words, and the counter advances by the number of steps. |
| `Lint.FixBody` | internal/lint/lint.go:48-74 | The fixer's counter agrees with the rule's over mixed steps blocks and bare steps. |
| `Lint.ApplyFixes` | internal/lint/lint.go:12-76 | Every file entry, in place, becomes its fixed form for the given findings; entries that are no targets stay. |
| `Lint.FixPreservesCompile` | internal/lint/lint.go:12-76 | Whatever the findings, the fixed file compiles to exactly what the original compiles to. |
| `Lint.RuleIsComplete` | internal/lint/prefer_exec.go:12-71 | The findings of the rule name every cmd step of a file whose targets have names, as the grammar forces. |
| `Lint.NothingLeftToReport` | internal/lint/lint.go:12-76 | After a fix with complete findings the rule reports nothing. |
| `Lint.FixIdempotent` | internal/lint/lint.go:12-76 | Applying the same fixes a second time changes nothing. |
| `Lint.BracketsOnly` | internal/lint/brackets_only.go:12-50 | Reports if and only if some target has the single-line form or a step without a steps block; the finding is fixable. |
| `Lint.RunRules` | internal/lint/rules.go:22-37 | The findings of a run are exactly those of the four rules that are enabled. |
| `Lint.LintFix` | cmd/bake/main.go:451-459 | The callers' guard: the fixes are applied to the parsed file if and only if some finding is fixable; then the file is formatted and written. |
| `Lint.UnchangedExactly` | internal/baked/load.go:69-79 | For every parsed file: without a finding of prefer-exec, a fix run leaves what is to be formatted unchanged if and only if no finding is fixable or no single-line target has words. |
| `LintFormat.FixThenFormat` | internal/baked/load.go:69-87 | Fix, format, parse and compile: for every file of the unambiguous fragment and whatever the findings, the text that a fix run writes parses, and compiles to the configuration of the original, sorted by name, if and only if formatting the original would give that: the fix does not leave the fragment, nor does it change the condition. |
| `Lint.DisabledExactly` | docs/lint.md:33 | The documentation says a disabled rule is off entirely. Exactly: with prefer-exec disabled a fix run still converts a file if and only if it has a single-line target with words and a fixable finding, which brackets-only (it asks for that very target to be bracketed, but not for exec) or prefer-quoted-exec gives. |
| `Lint.DisabledStillConverts` | internal/lint/lint.go:29-44 | One such file: `target build cmd make` with every rule but prefer-exec enabled comes out as an exec step, the conversion the disabled rule asks for. |
| `Decimal.PrintedIsRead` | internal/baked/queue.go:53 | A printed number is scanned back, whatever text without a leading digit follows. |
| `Queue.IdRoundTrip` | internal/baked/queue.go:42-53 | Scanning a printed identifier gives its number back. |
| `Queue.IdIsInjective` | internal/baked/queue.go:53 | Different numbers print as different identifiers. |
| `Queue.NextIdIsAbove` | internal/baked/queue.go:40-45 | After loading, the next number is above every number scanned from the file, whatever identifiers it holds ... |
| `Queue.NextIdIsLeast` | internal/baked/queue.go:40-45 | ... and no higher than that requires. |
| `Queue.EnqueueKeepsStamped` | internal/baked/queue.go:50-62 | An enqueue keeps identifiers printed, growing and below the next number, and its own is not pending yet. |
| `Queue.DequeueTakesItsOwn` | internal/baked/queue.go:65-75 | A pending identifier names one entry, and taking it out leaves exactly the others in order. |
| `Queue.ReloadKeepsStamped` | internal/baked/queue.go:31-47 | A restart may lower the next number but never to one that is pending. |
| `Queue.QueueHistory` | internal/baked/queue.go:31-84 | Over any sequence of enqueues, dequeues and restarts: identifiers are distinct, growing and below the next number, and the pending list is what arrived, in order, minus what was taken out. |
| `Queue.DequeueMarksOne` | internal/baked/queue.go:65-75 | Over any such sequence a dequeue concerns at most one entry still pending. |
| `Queue.PersistentQueue.constructor` | internal/baked/queue.go:31-47 | Loading: the entries of the file and the next number above all scanned ones; a file the queue wrote yields a valid queue. |
| `Queue.PersistentQueue.Enqueue` | internal/baked/queue.go:50-62 | Appends one entry under a new identifier no pending entry has, and memory equals the file afterwards. |
| `Queue.PersistentQueue.Dequeue` | internal/baked/queue.go:65-75 | Removes the first entry with that identifier, nothing for an unknown one; memory equals the file afterwards. |
| `Queue.PersistentQueue.Pending` | internal/baked/queue.go:78-84 | A copy of the pending list, in order. |
| `Queue.ReplayQueue` | cmd/baked/main.go:350-370 | Replay runs every pending request once, oldest first, and leaves the queue empty in memory and on disk. |
| `Recovery.StepKeeps` | cmd/baked/main.go:332-370 | Every step of a connection, of the replay, a start and a crash keeps the invariant: disk holds exactly what was filed and not taken off, memory equals disk while up, who runs holds the mutex, and how often each request ran. |
| `Recovery.AlwaysInv` | cmd/baked/main.go:141-163 | The invariant holds after every schedule of connections, crashes and restarts over any number of workspaces. |
| `Recovery.NothingIsLost` | cmd/baked/main.go:332-370 | After every schedule a request that was enqueued has run to its end at least once or is on disk; memory equals disk while the daemon is up. |
| `Recovery.OneAtATime` | cmd/baked/main.go:339-341 | At most one served request runs at a time, and none during replay. |
| `Recovery.AnswerComesLast` | cmd/baked/main.go:339-347 | An answer is sent only after the request ran, exactly once, and left its queue file for good. |
| `Recovery.ServingStartsEmpty` | cmd/baked/main.go:141-163 | When serving begins every queue is empty and every request ever enqueued has run. |
| `Recovery.RunsAgainOnlyAfterCrash` | cmd/baked/main.go:332-370 | A request runs at most once per start, and more than once only if its connection was lost in a crash. |
| `Recovery.CrashRunsAgain` | cmd/baked/main.go:332-370 | From every reachable state, whatever the daemon is doing: a request on disk, wherever in its file, runs once more after a crash, a start and a replay of the entries before it. |
| `Recovery.RunsAgainExactly` | cmd/baked/main.go:342-347 | At least once and not exactly once, and exactly when: an enqueued request can run once more if and only if it has not been taken off its queue; so between the end of its run and its removal every crash can repeat it, and afterwards none. |
| `Recovery.RunsTwice` | cmd/baked/main.go:332-370 | From the initial state, one schedule with one request and one crash in which that request runs twice. |
| `Recovery.ReplayMoves` | cmd/baked/main.go:350-370 | The replay is never stuck ... |
| `Recovery.ReplayEnds` | cmd/baked/main.go:350-370 | ... and each of its steps leads to serving or lowers a measure, so a start that is not cut short serves. |
| `Recovery.ServingMoves` | cmd/baked/main.go:295-348 | While serving, an unanswered connection can move or waits for one that can. |
| `HotReload.CompareDaemons` | internal/baked/hotreload.go:55-73 | The nested loops decide exactly whether image and all argument lists agree. |
| `HotReload.ComparesSignatures` | internal/baked/hotreload.go:55-73 | The comparison is equality of (image, argument lists), so an equivalence, and blind to env, cwd, runner, unsafe, networks and volumes. |
| `HotReload.IndexByName` | internal/baked/hotreload.go:20-27 | The map holds the last daemon of each name. |
| `HotReload.DaemonDiff` | internal/baked/hotreload.go:16-42 | Added, removed and changed daemons, each in configuration order, as the comparison of the two `up` targets defines them. |
| `HotReload.DiffNames` | internal/baked/hotreload.go:16-42 | With distinct names: removed are the names only the old configuration has, added those only the new one has, changed those both have under definitions that compare unequal. |
| `HotReload.DaemonTable.StopAndRemove` | internal/baked/hotreload.go:92-107 | The stop call is made and its error ignored; the process ends or not, and the entry goes if the removal can be written. A missing entry changes nothing. |
| `HotReload.DaemonTable.StartAndRecord` | internal/baked/hotreload.go:109-119 | A start that works records a new process under the name, replacing what was there; one whose record fails leaves a process without an entry; one that fails changes nothing. |
| `HotReload.DaemonTable.ApplyDaemonDiff` | internal/baked/hotreload.go:76-90 | Stops the removed, restarts the changed, starts the added, in this order, whatever fails. |
| `HotReload.DaemonTable.Reload` | cmd/baked/main.go:195-210 | The reload closure: the diff of the two configurations applied to the table, and nothing when it is empty. |
| `HotReload.DaemonTable.RunUp` | internal/baked/run.go:62-119 | `up`: the workflow in order, a target name first, else a daemon, stopping at the first failure; every daemon started on the way is recorded if it can be. It returns an error exactly when there is no workflow, the dotenv files do not load, a name of the workflow is neither, or a target, a start or a record fails. |
| `StartOrder.UpStopsAtFirst` | internal/baked/run.go:62-119 | Without the recursion: `up` starts the daemons named before the first name that does not work, in order, and that name's own if it starts but cannot be recorded; all of them if every name works. |
| `StartOrder.FirstIsMeant` | internal/baked/run.go:82-89 | Of several daemons of one name the first is meant. |
| `StartOrder.ReloadInOrder` | internal/baked/hotreload.go:76-90 | A reload restarts the changed daemons before it starts the added ones, and each of them in the order of the configuration. |
| `HotReload.DaemonTable.RunDown` | internal/baked/run.go:122-151 | `down` of one daemon: an error, and no entry goes, if it has none or the stop call fails, which it can although the process ends; otherwise the entry goes, whether or not the process ends, and an error is returned exactly when the removal cannot be written. Without a name every process is told to stop and every entry that can be removed goes. |
| `HotReload.DaemonTable.Check` | internal/baked/health.go:62-75 | The health check goes by its probe: exactly the entries whose process the probe does not find are removed, if that can be written, in any order of the table. |
| `HotReload.CheckedExactly` | docs/cli-reference.md:77 | The documentation says dead entries are removed. Exactly: only dead ones are removed if and only if the probe finds every process that runs, or its entry cannot be removed; all dead ones are if and only if the probe finds no other process and they can be removed. |
| `DaemonHistory.HealthForgets` | internal/baked/health.go:95-103 | From a daemon that manages nothing: `up`, then a health check whose probe fails, as the docker command does for containers of another runtime (docs/bakefile-reference.md:199); the container runs and the table is empty. |
| `DaemonHistory.DeadEntryStays` | internal/baked/health.go:78-92 | From a daemon that manages nothing: `up`, the process ends, and a health check whose probe still finds it, as it does a child nobody has waited for (internal/lifecycle/daemon.go:96-101); the dead entry stays. |
| `DaemonHistory.DownForgets` | internal/lifecycle/down_unix.go:11-19 | From a daemon that manages nothing: `up`, then `down` of the daemon, whose process gets the signal and goes on; it runs and the table is empty. |
| `DaemonHistory.FailedDownKeepsEntry` | internal/runner/container/executor.go:187-198 | From a daemon that manages nothing: `up`, then `down` of the daemon, whose removal takes effect and returns an error; nothing runs and the entry stays. |
| `HotReload.NothingOverwritten` | internal/baked/hotreload.go:86-89 | Where the table agrees with the old configuration, the names of added daemons are free when they are started, whatever could not be stopped or removed before. |
| `HotReload.ReloadReconciles` | cmd/baked/main.go:203-208 | Whatever stops, starts, removals and records fail: unchanged daemons keep entry and running process. The table agrees with the new configuration afterwards if and only if every entry that is to go or be replaced can be removed or is replaced. A process is left running without an entry if and only if there was one before, an entry is removed or replaced whose process goes on, a record fails, or a name was taken. |
| `HotReload.RestartedExactly` | docs/cli-reference.md:78 | The documentation says changed daemons are restarted. Exactly: an entry that stays configured keeps its process if and only if image and argument lists are unchanged, or the new process does not start or is not recorded and the old entry cannot be removed; a change of env, cwd or runner alone is not applied. |
| `DaemonHistory.NewValueIsNotApplied` | docs/cli-reference.md:78 | From a daemon that manages nothing: `up`, then a reload of a file in which only a variable of the daemon's environment differs; the first process still runs, started with the old value. |
| `HotReload.ReloadStarts` | internal/baked/hotreload.go:81-89 | A new or changed daemon that can start and be recorded has a new process under its new definition afterwards. |
| `HotReload.StartAllLeaks` | internal/baked/run.go:89-117 | A round of starts leaves no process without an entry if and only if it starts each name once, only names without a running entry, and records all of them. |
| `DaemonHistory.UpKeeps` | internal/baked/run.go:62-119 | `up` keeps the table consistent with the configuration, and leaks no process if and only if the daemons it starts are distinct, not already running, and recorded. |
| `DaemonHistory.DownKeeps` | internal/baked/run.go:122-151 | `down`, the health check and a dying process keep the table consistent with the configuration. `down` leaks a process if and only if it removes the entry of one that goes on running, the health check if and only if it removes the entry of one that the probe does not find and that runs. |
| `DaemonHistory.TableFollowsConfig` | cmd/baked/main.go:190-209 | Over any sequence of reloads, ups, downs, health checks and deaths, every entry always was started from a definition equal to the current configuration's if and only if every reload can remove the entries that are to go, or replaces them. |
| `DaemonHistory.ValidatedIsDistinct` | internal/config/validate.go:154-194 | A configuration that passes the daemon checks of validation has distinct daemons in its `up` target, which the reload theorems rest on. |
| `DaemonHistory.LeaksExactly` | internal/baked/run.go:62-151 | Over any such sequence, whether or not the table agrees with the configuration, no process ever runs without an entry if and only if every step fits: starts are distinct, under free names and recorded; a process whose entry a reload or a `down` removes or replaces ends; the probe of a health check finds every process that runs, or its entry cannot be removed. |
| `DaemonHistory.SecondUpLeaks` | internal/baked/run.go:101-107 | A second `up` while a daemon runs replaces its entry and leaves the first process running unseen. |
| `DaemonHistory.UpTwiceLeaks` | internal/baked/run.go:101-107 | From a daemon that manages nothing: `up` twice leaves two processes running and one entry. |
| `Hashing.KeyDetermines` | internal/cache/cache.go:25-31 | Although the key joins its parts without separators, equal keys mean equal names, signatures and lists of input paths and digests, because the last two parts have fixed length. |
| `Hashing.ListingDeterminesExactly` | internal/cache/cache.go:52-70 | The list of paths and digests is joined without separators too. Inputs with the same list are the same if and only if they have the same paths ... |
| `Hashing.ListingsCollide` | internal/cache/cache.go:52-70 | ... and with different paths they can differ: for any two files there is a single file, its name holding the bytes of a digest, with the same list (a real path only when that digest holds no zero byte). |
| `Cache.DigestsDetermine` | internal/cache/cache.go:52-70 | Equal digest maps mean equal paths and contents. |
| `Cache.Workspace.HashFilesMap` | internal/cache/cache.go:52-70 | The loop over the sorted paths digests every selected file; the combined hash is that of the concatenated paths and digests. |
| `Cache.Workspace.OutputsExist` | internal/cache/cache.go:188-198 | The missing paths are exactly those that do not exist, and the answer says whether there are none. |
| `Cache.Workspace.Decide` | internal/runner/runner.go:325-348 | The runner skips exactly when an entry under the present key has the present input hash and all its outputs exist. |
| `Cache.Workspace.RunCached` | internal/runner/runner.go:301-363 | One run of a target with a cache entry, from decision to save: nothing happens on a skip; no manifest is written unless all steps succeed and the write does, and then it is stored under the key and with the digests computed before the steps and with the outputs found after them; exactly the begin and end of a run in the histories below. |
| `Cache.StoreFollowsHistory` | internal/runner/runner.go:301-363 | After any interleaving of edits, runs and deletions, the store keyed by hashes answers every lookup as the history of saved runs does. |
| `Cache.SkipsExactly` | internal/runner/runner.go:325-348 | After any history a target is skipped if and only if the last saved run of the same name, signature and list of inputs still counts and every output it recorded exists. |
| `Cache.SkipIsSound` | internal/runner/runner.go:340-348 | A skip rests on an earlier run of that name, signature and list of inputs that finished its steps and was saved, all of whose outputs exist now; its inputs were the present ones if and only if they had the present paths. |
| `Cache.SkipRestsExactly` | internal/runner/runner.go:340-363 | The skip, exactly, by what was done and not by what the model records: after any schedule a target is skipped if and only if some run of the same name and signature was begun on the same list of inputs, ended with all steps done and its manifest written, was not disturbed in between, is the last such run, has not had its manifest deleted since, and left outputs that are there now. |
| `Cache.RerunSkips` | internal/runner/runner.go:325-363 | A run that ends well and is saved, its inputs unchanged since it began, is followed by a skip. |
| `Cache.RestsOnLastRunExactly` | docs/bakefile-reference.md:62 | The documentation compares with the last run. Exactly: the run a skip rests on is the target's last saved run if and only if that run had the present signature and list of inputs. |
| `Cache.EarlierInputsSkip` | docs/bakefile-reference.md:62 | One history: a run, a run with other inputs, the first inputs again; the target is up to date, and its output is the one made from the other inputs. |
| `Cache.OutputsSureExactly` | docs/bakefile-reference.md:62 | The documentation asks that all outputs exist. Exactly: for every set of declared paths, a skip on an entry is sure to find all of them if and only if each existed as an output when the run was saved, or is an input. |
| `Cache.MissingOutputIsNotNoticed` | internal/runner/runner.go:349-363 | Any output the steps did not produce is still missing at the skip that follows. |
| `Cache.PartialOutputSkips` | internal/runner/runner.go:349-363 | One history, from the start: a run makes one of two declared outputs, and the target is up to date at once without the other. |
| `Cache.ChangedInputs` | internal/runner/why.go:76-92 | Lists exactly the paths that are new or differ and, marked as removed, those that are gone; nothing if and only if the maps are equal. |
| `Cache.Workspace.LoadManifestForTarget` | internal/cache/cache.go:146-172 | Some manifest of that target if there is one, none only if there is none. |
| `Cache.Workspace.WhyNoEntry` | internal/runner/why.go:36-50 | Without an entry for the present inputs: all changes and no others against some earlier run of the target that had inputs, or "no entry", which means that there is no earlier run, or one without inputs, or one with the present inputs. |
| `Cache.Workspace.WhyReasons` | internal/runner/why.go:14-74 | The explainer agrees with the runner: "always runs" if and only if inputs or outputs are not declared, "up to date" if and only if the runner would skip, missing outputs, all of them and no others, if and only if the right entry is there and the runner would not skip, changed inputs real and complete, "no entry" only without an entry and for one of its causes. |
| `Cache.NoStaleEntry` | internal/runner/why.go:51-63 | An entry's own input hash never disagrees with its key, in any history, so the runner's comparison and the answer "hash mismatch" are dead code. |
| `Cache.ChangesAreRealChanges` | internal/runner/why.go:37-48 | What is reported as changed is a path whose content differs from what some earlier run of the target hashed. |
| `Imports.Shrinks` | internal/dsl/parser.go:404-408 | The termination measure: files not on the current path. |
| `Imports.Loader.LoadWithImports` | internal/dsl/parser.go:399-457 | The recursive loader, from any visited set: the result of the recursive specification, the visited set restored on every path, errors included, and termination on every finite set of files. |
| `Imports.LoadedHasTree` | internal/dsl/parser.go:429-456 | A load that succeeds has a finite import tree, validated at every file, and returns its files in pre-order. |
| `Imports.TreeLoads` | internal/dsl/parser.go:429-456 | Conversely a validated finite tree that avoids the files already on the path loads, with its contents in pre-order. |
| `Imports.NeverBelowItself` | internal/dsl/parser.go:404-406 | A finite import tree has no file below itself. |
| `Imports.LoadsExactly` | internal/dsl/parser.go:389-457 | Loading succeeds with a configuration if and only if the imports unfold to a finite tree that validates at every file and whose contents, file first and then each import in order, are that configuration. |
| `Imports.LoadedInOrder` | internal/dsl/parser.go:429-452 | The order of the merge, by plain concatenation: when a file loads so does each of its imports, and its dotenv paths, profiles, targets and suites are each its own list followed by the loaded list of every import, in the order of the import lines; so the first target of a file stays first. |
| `Imports.CyclesExactly` | internal/dsl/parser.go:404-406 | A cycle is reported only where an import chain comes back to a file it met, and a load that succeeds reaches no such chain. |
| `Imports.FailsExactly` | internal/dsl/parser.go:389-457 | On every disk and under every validation: loading fails if and only if an import cycle is reachable, a file that is reached cannot be read or parsed, or a reached file with a finite import tree does not validate with what it imports. |
| `Imports.ErrorIsReal` | internal/dsl/parser.go:404-456 | An error other than a cycle names a file that was reached and cannot be read, or whose tree does not validate. |
| `Imports.LoadedForgetsImports` | internal/dsl/parser.go:422-456 | A loaded configuration lists no imports. |
| `Imports.CollectWatchPaths` | cmd/baked/main.go:191-194 | The watch list: the Bakefile and one joined path for each import the loaded configuration lists. |
| `Imports.WatchedExactly` | docs/cli-reference.md:70 | The documentation says the Bakefile and its imports are watched. Exactly: for every file that loads, all files read for it are on the watch list if and only if it imports nothing. |
| `Imports.ImportNotWatched` | cmd/baked/main.go:191-194 | One disk: a file with one import loads, and the import is read and not watched. |
| `Imports.NoDiamonds` | internal/dsl/parser.go:447-455 | A file with a target that is reached along two paths makes the load fail, duplicate names being rejected. |
| `Quoted.WriteQuoted` | internal/dsl/format.go:501-511 | The printing loop: quotes around the text, a backslash before every quote. |
| `Quoted.Capture` | internal/dsl/ast.go:354-376 | Capturing a token: unquoted content for a quoted token, the token itself otherwise. |
| `Quoted.Unquote` | internal/dsl/ast.go:364-371 | The index loop drops the backslash of every backslash and quote pair, from the left. |
| `Quoted.UnescapeEscape` | internal/dsl/ast.go:328-336 | Unescaping an escaped string gives it back, for every string. |
| `Quoted.CaptureGivesBack` | internal/dsl/ast.go:320-341 | Capturing what was printed gives the string back, for every string. |
| `Quoted.ClosesIfQuote` | internal/dsl/lexer.go:10 | The String rule, with the backtracking of a regular-expression matcher, finds a closing quote if and only if there is a quote. |
| `Quoted.ClosesAfterEscape` | internal/dsl/lexer.go:10 | After an escaped string and its closing quote the rule stops there if and only if the string does not end in a backslash or no quote follows anywhere. |
| `Quoted.QuotedRoundTrip` | internal/dsl/format.go:501-511 | Print then lex, exactly: the rule matches just the printed token if and only if the string does not end in a backslash or no quote follows in the text; the captured value is the string. |
| `ParseArgs.FindSeparator` | internal/resolve/args.go:27-30 | The loop finds the first separator, or the end. |
| `ParseArgs.SplitBlobs` | internal/resolve/args.go:38-50 | The splitting loop gives the pieces between separators. |
| `ParseArgs.SplitLosesNothing` | internal/resolve/args.go:38-50 | Rejoining the pieces gives the text back but for one trailing separator, and no piece holds a separator. |
| `ParseArgs.Deliver` | internal/resolve/args.go:31-56 | What each step receives, for none, one or several slots. |
| `ParseArgs.AssignedAt` | internal/resolve/args.go:51-55 | With distinct steps slot i receives piece i, and nothing when there are fewer pieces. |
| `ParseArgs.EverythingIsDeliveredExactly` | internal/resolve/args.go:51-55 | With several slots of distinct steps nothing but a trailing separator is lost if and only if there are no more pieces than slots; the rest is dropped without an error. |
| `ParseArgs.BindLoop` | internal/resolve/args.go:64-109 | The loop over the arguments before the separator: the bindings read are applied in order to declared and live names; what each form of option binds, the rows of `OptionSets` and `WordSetsNothing` state. |
| `ParseArgs.CheckRequired` | internal/resolve/args.go:110-114 | The first required argument without a default whose value is empty. |
| `ParseArgs.Parse` | internal/resolve/args.go:23-116 | The whole, from separator to required arguments: the maps of which the rows below speak, or the first missing argument. |
| `ParseArgs.OptionSets` | internal/resolve/args.go:70-108 | What an option binds, on the resulting maps: behind any arguments, --k=v, --k v, a bare --k at the end (true), -c v and a bare -c at the end set one key and nothing else; the key is k, or the declared name with that short form, or the letter itself; it is set among the declared names if it is declared and among the live ones otherwise. |
| `ParseArgs.WordSetsNothing` | internal/resolve/args.go:100-103 | Behind any arguments, every other word sets nothing. |
| `ParseArgs.NoArguments` | internal/resolve/args.go:60-63 | Without arguments exactly the declared names are set, each to its default, the last one where a name is declared twice. |
| `ParseArgs.OneSlotGetsTheRest` | internal/resolve/args.go:27-37 | What stands before the first separator is bound as if nothing followed, and a single slot is given all that stands behind it. |
| `ParseArgs.BindAllAt` | internal/resolve/args.go:104-108 | A key holds the value of its last binding, in the declared map if it is declared and in the live map otherwise. |
| `ParseArgs.BoundMeans` | internal/resolve/args.go:60-109 | Declared keys are exactly the declared names, live keys exactly the bound names that are not declared, and each holds its last binding or else its default. |
| `ParseArgs.SucceedsExactly` | internal/resolve/args.go:110-115 | Parsing succeeds if and only if every required argument without a default is bound, last, to a non-empty value. |
| `ParseArgs.FirstIsReported` | internal/resolve/args.go:110-114 | The argument reported as missing is the first one left unfilled. |
| `BodyMeaning.ParsingNeverFails` | internal/resolve/args.go:110-115 | No clause marks an argument as required, so for every compiled file, every target of it and every command line the check of required arguments passes. |
| `ShellQuote.Escape` | internal/runner/runner.go:720-730 | The loop writes quote, backslash, quote, quote for every single quote. |
| `ShellQuote.Quote` | internal/runner/runner.go:711-718 | Quotes exactly when a space, a quote of either kind or a backslash occurs. |
| `ShellQuote.Join` | internal/runner/runner.go:700-709 | The joining loop: quoted elements separated by single spaces. |
| `ShellQuote.QuotedReadsBack` | internal/runner/runner.go:711-730 | A quoted element, whatever it holds, is read back by the token recognition of the POSIX.1-2017 Shell Command Language, in any position. |
| `ShellQuote.JoinedReadsBack` | internal/runner/runner.go:700-730 | If every element is quoted or safe, the shell reads the joined line back as the argument vector. |
| `ShellQuote.JoinedTokens` | internal/runner/runner.go:700-730 | Whenever a joined line has a plain reading, its tokens were quoted elements or are bare words, and no unquoted element holds a special character. |
| `ShellQuote.RoundTripExactly` | internal/runner/runner.go:700-730 | The round trip holds if and only if every element triggers quoting or is non-empty and free of characters the shell treats specially. |
| `ShellSteps.CommandOnHost` | internal/runner/runner.go:673-687 | On the host a step with a runner becomes the runner, -c, and its words joined to one line. |
| `ShellSteps.HostNeverGetsScript` | docs/bakefile-reference.md:45 | The documentation says a shell step runs a script with a shell. On the host it never does: for every runner and script the shell is given a line of -c and the script as one quoted word, not the script, since the compiled words begin with -c already (internal/dsl/parser.go:365). |
| `ShellSteps.HostRunsOption` | internal/runner/runner.go:681-684 | What the shell reads in that line: its first word, which names the command, is -c; and the words are -c and the script, which is then an argument, if and only if the script triggers quoting or is non-empty and free of special characters. |
| `ShellSteps.AlikeExactly` | internal/runner/runner.go:514-516 | A step becomes the same command on the host and in a container if and only if it is no shell step; in a container a shell step is what the documentation says, but as a daemon there it lacks its runner (internal/lifecycle/daemon.go:60). |
| `Sorting.SortByHolds` | internal/dsl/format.go:63-65 | Sorting by name is a permutation. |
| `Sorting.SortBySorted` | internal/dsl/format.go:63-65 | The result is in order of the names. |
| `Sorting.BeforeMeans` | internal/dsl/format.go:63-65 | The order of names: one comes before another if and only if it is a proper prefix or has the smaller character at the first difference. |
| `Sorting.SortedStays` | internal/dsl/format.go:63-65 | What is in order is not changed. |
| `Sorting.SortMapped` | internal/dsl/format.go:63-65 | Sorting commutes with every map that keeps the names, so blocks may be compiled before or after they are sorted. |
| `Layout.LexToken` | internal/dsl/lexer.go:8-15 | Each clean token is found again by the lexer rules, in their order, when what follows does not extend it. |
| `Layout.SpacedLexes` | internal/dsl/lexer.go:8-15 | Text laid out as tokens between whitespace, with every open word or number separated from the next, lexes to exactly these tokens. |
| `Lexer.CommentsAreElided` | internal/dsl/lexer.go:9 | A comment goes to the end of its line and leaves no token: what follows is read as if it were not there. |
| `Formatter.Arrange` | internal/dsl/format.go:37-65 | The loop over the file entries and the three sorts give imports, one private marker, then suites, profiles and targets by name. |
| `Formatter.Writer.WriteList` | internal/dsl/format.go:272-279 | The loop over bracketed elements writes a comma before each but the first. |
| `Formatter.Writer.WriteSteps` | internal/dsl/format.go:436-452 | A steps block: one step on the line of the block, several on lines of their own; a cmd without words leaves its blank. |
| `Formatter.Writer.WriteClause` | internal/dsl/format.go:258-458 | Every kind of clause, written word by word with the loops over names, tags, elements, pairs, presets and workflow items, gives the token sequence that the parser theorems read back. |
| `Formatter.Writer.WriteDaemon` | internal/dsl/format.go:422-435 | A daemon inside a target: header, reordered body without the clauses daemons are not written with, closing brace. |
| `Formatter.Writer.WriteTarget` | internal/dsl/format.go:156-176 | A target in single-line form or with its reordered body. |
| `Formatter.Writer.WriteSuite` | internal/dsl/format.go:530-551 | A suite with its members sorted by reference. |
| `Formatter.Writer.WriteProfile` | internal/dsl/format.go:107-136 | A profile; empty dotenv lines and env blocks are not written. |
| `Formatter.Writer.WriteBakefile` | internal/dsl/format.go:29-105 | The whole file, one write after another: exactly the piece sequence the round-trip theorems speak of. |
| `Formatter.Format` | internal/dsl/format.go:12-15 | The text that is written is the specification `Printer.Format`, for every file, down to the blanks a cmd without words and a deps without names leave. |
| `ReadBack.WordsRead` | internal/dsl/ast.go:435-437 | A written list of identifiers is parsed back if no identifier follows. |
| `ReadBack.BracketedRead` | internal/dsl/ast.go:306-308 | A written list in brackets is parsed back, whatever follows. |
| `ReadBack.PairsRead` | internal/dsl/ast.go:379-387 | Written env pairs, quoted or bare, are parsed back. |
| `ReadBack.StepListRead` | internal/dsl/ast.go:288-308 | Written steps are parsed back when only the last of them is a cmd. |
| `ReadBack.PresetEntriesRead` | internal/dsl/ast.go:238-253 | Written preset entries are parsed back, without those the formatter leaves out. |
| `ReadBack.WorkflowRead` | internal/dsl/ast.go:182-198 | Written workflow items and schedules are parsed back. |
| `ClauseReadBack.ClauseRead` | internal/dsl/format.go:258-458 | Every clause of the fragment that is no daemon is parsed back from what is written, and what follows it is left untouched. |
| `ClauseSpacing.ClauseWritten` | internal/dsl/format.go:258-458 | Every such clause is written so that the lexer finds exactly the written tokens. |
| `BodyReadBack.EntriesRead` | internal/dsl/ast.go:150-180 | Written bodies of targets, daemons inside included, are parsed back. |
| `BodyReadBack.EntriesWritten` | internal/dsl/format.go:168-175 | They are written so that the lexer finds exactly the written tokens. |
| `FileReadBack.BlocksRead` | internal/dsl/ast.go:19-26 | Written blocks of a file are parsed back, in their canonical form and order. |
| `FileReadBack.FileTokensParse` | internal/dsl/ast.go:12-26 | The tokens of a written file parse to its canonical form. |
| `FileSpacing.FormattedLexes` | internal/dsl/lexer.go:8-15 | The text of a formatted file lexes to exactly the tokens that were written. |
| `FileSpacing.FormatParses` | internal/dsl/format.go:12-15 | Lexing and parsing what the formatter writes gives the canonical form of the file. |
| `FormatMeaning.WrittenCompiles` | internal/dsl/format.go:343-375 | Preset entries the formatter leaves out compile to nothing. |
| `FormatMeaning.DaemonKeptExactly` | internal/dsl/format.go:430-432 | Formatting keeps what a daemon compiles to if and only if its body has no net and no vol clause, which the formatter drops and the compiler reads. |
| `FormatMeaning.MemberKeptExactly` | internal/dsl/format.go:541-548 | A suite member keeps its reference when written and read back if and only if it is an identifier, a target and a preset without dots, or a target without a space whose dots are not exactly one. |
| `FormatMeaning.TargetCompilesExactly` | internal/dsl/format.go:156-176 | The canonical form of a target compiles to what the target compiles to if and only if none of its daemons has net or vol. |
| `RoundTrip.FileByKind` | internal/dsl/parser.go:39-92 | What a file compiles to depends only on its blocks of each kind, in order, and on whether it has a file-level `private`, when no target above that marker depends on it. |
| `RoundTrip.CanonicalCompilesExactly` | internal/dsl/format.go:37-82 | The canonical form compiles to the configuration of the original, sorted by name, if and only if three things hold together: every target above a file-level `private` says `private` itself (formatting moves the marker to the top; the documented grammar says it marks all targets, internal/dsl/parser.go:50-63 marks those after it), no daemon has net or vol, and every suite member keeps its reference. |
| `RoundTrip.FormatPreservesMeaning` | internal/dsl/format.go:29-105 | Main theorem: for every file of the unambiguous fragment, parsing the formatted text succeeds, and the result compiles to the configuration of the original, up to positions and the sorting by name, if and only if the same three conditions hold, on `private`, on mounts of daemons and on suite members. |
| `Idempotence.CanonicalFormats` | internal/dsl/format.go:29-105 | The canonical form is written as the original is, daemons with net and vol included. |
| `Idempotence.FormatIsIdempotent` | internal/dsl/format.go:10-15 | On the fragment, daemons with net and vol included, formatting what was formatted and parsed gives the same text. |
| `Ambiguities.OpenListSwallows` | internal/dsl/ast.go:435-437 | Why the fragment is needed: written identifiers followed by any identifier are parsed as a longer list. |
| `Ambiguities.TagsSwallow` | internal/dsl/ast.go:435-437 | A tags clause that another clause follows comes back with that clause's keyword as a tag. |
| `Ambiguities.DefaultBecomesShort` | internal/dsl/ast.go:416-422 | An argument with a default but no short name comes back with the default as its short name. |
| `Ambiguities.DotenvExactly` | internal/dsl/ast.go:67-70 | When every block is written and read back on its own, the file comes back if and only if it has no leading dotenv line or nothing behind it. |

## Left out

- Files, sockets, JSON, file watching, process start and stop, Docker, cron, timers and templates: they appear as
  parameters that answer (`ParallelRun.World`, `HotReload.World`, `Imports.Disk`) or not at all.
- Environment merging, step signatures, container execution and its registry, shims, install commands, graph output,
  listing and command-line dispatch: plumbing or easy facts.
- The parser generator: the grammar is a recursive descent with the same lookahead decisions, a token's kind deciding.
- Source positions, and whether an argv element was written with quotes: the formatter always quotes.
- Sorting in place: `sort.Slice` is modelled as a stable sort; for blocks of equal name, which validation rejects for
  targets, the source may keep either order.
- The default target and the run order of a suite, which the sorting of the formatter may change.
- `writeDaemon` (internal/dsl/format.go:138-154), which no caller reaches.
- Formatter.Format: does not model write errors, after which the source stops writing.
- Quoted.WriteQuoted: characters are whole; the replacement of invalid UTF-8 while printing is not modelled.
- Lint.ApplyFixes: entries of the file are updated in place, the clauses and steps below them are rebuilt as values.
- Lint.PreferExec: no file, line or message. Quotes are not part of the parsed file, so which targets the rule
  prefer-quoted-exec reports is a parameter.
- Compile.CompileEntry: nil entries and errors, which these functions never return, are left out.
- ParallelRun.AlwaysInv: an event is one atomic append, and the registries of pools and mutexes belong to one run; a
  target waiting for a mutex cannot be cancelled, as in the source.
- ParallelTheorems.DeadlockFree: a body's steps are taken to end; a step command that never ends is outside the model.
- Validate.CheckDaemons: the checks of presets, profiles and suites (internal/config/validate.go:64-152) are of the same
  shape as those of targets and are left out; a daemon's line, which the source uses as a presence mark, is positive.
- SequentialRun.Run: the requested target's pool and mutex are the only locks of a sequential run; both are free, since
  the registries belong to one run, and giving up the wait for the pool is an answer of the world.
- Queue.PersistentQueue.Enqueue: a flush is atomic and succeeds; a torn file, which the source loads as empty, a failed
  write, the time of arrival and the width of the machine integer are not modelled.
- Recovery.AlwaysInv: every workspace has its own root directory and a loaded configuration; requests for status and
  reload, which bypass the queue, are left out.
- DaemonHistory.LeaksExactly: takes each operation as one atomic step on the state file, gives every process a new number,
  and reloads configurations that passed the daemon checks of validation, as the loader's do. A state file that cannot be
  read, after which stops, downs and health checks do nothing, is not modelled.
- Hashing.KeyDetermines: the hash is taken to be free of collisions, over an unbounded alphabet so that such a hash can
  exist (`Hashing.IdealCanHold`); the step signature is any 32-byte value, and equal signatures are not claimed to mean
  equal commands.
- Cache.Workspace.Decide: errors of globbing, hashing and reading a manifest are the early failure of
  `SequentialRun.RunTargetWithCache`; glob patterns are the paths they select.
- Cache.Workspace.WhyReasons: the explainer ignores a target's guard, as the source does; reasons are values, not lines of
  text.
- Cache.ChangedInputs: the result is a set, not the sorted list.
- Imports.Loader.LoadWithImports: paths resolve by a given function; a path that cannot be made absolute is left out.
- ParseArgs.Parse: messages are left out; templates that use the maps are not modelled.
- ShellQuote.RoundTripExactly: reserved words, assignments and aliases are not modelled, and a line that needs double
  quotes, expansions, operators or comments has no plain reading.
- Dag.TopoOrder: private targets, suites and profiles do not enter the walk.
