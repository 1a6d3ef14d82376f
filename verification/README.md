# gprunner, verified

gprunner starts and stops charts of unikernels on one host. A chart is a set of layers; each
layer becomes a machine that kraft runs, each image is cached under the hash of its bytes, and
guests reach the message broker over a bridge and a small TCP forwarder. The runner promises
that a chart is fully up or fully down, also over crashes; that the cache never hands out
anything but what its key says; that closing the forwarder leaves nothing behind; and that what
the pre-flight has checked does not go wrong while booting. This project models that logic in
Dafny and proves those promises.

`dafny verify dfyconfig.toml` checks everything. Nothing is compiled or executed.

## How the model is built

| file | what it models |
|---|---|
| `Names.dfy` | machine names and the prefixes by which a chart owns machines |
| `Lifecycle.dfy` | the chart lifecycle as a transition system: store rows, machines, one operation per chart, repair after a start, crashes |
| `Orchestrator.dfy` | the orchestrator's methods, written as they are in the source, each kept a run of that system |
| `Charts.dfy` | saved charts and the runner's operations by reference |
| `Preflight.dfy` | topics, link and volume checks, concurrent resolution, the boot loops up to the kraft command |
| `CommandLine.dfy` | the arguments of `kraft run`, and what kraft reads from them |
| `ImageCache.dfy` | the image cache as a transition system: resolutions of many build keys, image directory, index, build directory, kraft's package store, crashes, start-up sweep |
| `ImageResolver.dfy` | image resolution and reclaim, written as in the source, each kept a run of that system |
| `Texts.dfy` | `strings.Fields` and `strings.Join`, and when a joined text gives its parts back |
| `Keys.dfy` | the texts that content keys and build keys are hashes of |
| `Forwarder.dfy` | the broker forwarder: accept loop, relays with two copiers each, any number of Close calls, mutex, wait group |
| `Subnets.dfy` | IPv4 prefixes byte by byte, dotted and IPv4-mapped, the gateway checks, the overlap test, the bridge |

Commands and writes (kraft, git, SQLite, the file system) may each succeed, fail without effect,
or fail after taking effect. In `Orchestrator` and `ImageResolver` the rest of the system runs
between any two of them: `Pause` may extend the run by any steps of guests and of other
operations, and callers only know what its contract leaves. The ghost field `run` holds every
state so far, and `Valid` says that it is a run of the transition system. `faults` counts what
failed: commands, reads, writes, removals and cancelled contexts. An operation may fail only if
something did, and what a failure may leave behind is counted against it. A crash is a run that
stops short and goes on with a repair.

Results that hold only under a condition come with the exact condition:

- Write-ahead intent holds on every run for a set of chart IDs if and only if no ID, closed by
  `_`, starts another (`Lifecycle.SafeExactlyWhenPrefixFree`). IDs without `_` meet it; `a` and
  `a_b` do not, and nothing in the code forbids them: killing `a` removes the machines of `a_b`.
  Topics have the same shape with a dot.
- A chart that passed the pre-flight boots if and only if its soft links are declared. The
  comment in `internal/resolver/links.go` calls soft links not mandatory, but `dataSourceMounts`
  fails on an undeclared one after the row already says Starting. The model follows the code.
- A layer boots its own image in every order of completion if and only if no two layers of one ID
  were resolved to different images; IDs are not checked for duplicates, and the last writer wins.
- The row of a build key can still move if and only if it names an image without a non-empty
  kernel, or nothing: only a cache hit checks for a kernel, and then the next resolution builds
  again, with whatever comes of it.
- Two GIT build specifications are equal if and only if commit, cleaned directory and command
  agree, where a NUL inside a command counts as a separator.
- Without a fault a start succeeds if and only if the chart passes the pre-flight, all its soft
  links are declared and no machine of it runs when they are listed; a kill always does.
- A guest finds its topics in `TOPICS`, all of them and in order, if and only if none of them
  holds a comma.
- A reference that was saved over still finds a chart if and only if another chart ID holds it
  too. A successful kill by reference can miss what a start by the same reference booted if and
  only if a chart with layers shares the reference with another chart ID. Nothing makes
  references unique.
- The gateway checks hold of dotted-quad prefixes. Of IPv4-mapped ones (`::ffff:10.0.0.255/120`)
  `broadcastOf` reads the wrong end of the mask: only the network address is refused, below /96
  not even that, the overlap test compares nothing, and the bridge is never adopted again.
- Close of the forwarder waits for the accept loop and the relays, not for copiers: of each relay
  one copier may still be at work, between two closed connections.
- A `kraft pkg` that fails after it stored its package leaves it there until the next start.
- A Close of the forwarder that finds it closing returns at once, with relays still live.
- When the last write of a start fails after taking effect, the caller sees an error and the row
  says Started. That write is then the only fault of the start, so kraft ran every layer.
- A directory or package outlives the resolution that made it only if the process died, its own
  removal failed, or `kraft pkg` failed half-way; what other resolutions do does not matter.

## Model

| member | source | states |
|---|---|---|
| `Names.CollideExactly` | internal/engine/machines.go:20-26 | two chart IDs can claim one machine name exactly when one of them, closed by the separator, starts the other |
| `Names.ChartIsolation` | internal/engine/machines.go:20-26 | unless their IDs collide, a chart owns its own names only, and a name determines chart and layer |
| `Names.SepFreeIdsArePrefixFree` | internal/engine/machines.go:17-26 | IDs without the separator never collide |
| `Names.SeparatorBreaksIsolation` | internal/engine/machines.go:20-26 | concrete collision: chart `a` owns the machines of chart `a_b` |
| `Lifecycle.WriteAheadAlways` | internal/engine/orchestrator.go:27-180 | in every state of every run, with crashes, failures and interleaved charts, a machine of the runner belongs to a chart with a row that is not Stopped |
| `Lifecycle.MarksMeanQuiet` | internal/engine/orchestrator.go:47-50 | Starting is written, and Stopped is written, only when no machine of the chart exists |
| `Lifecycle.SafeExactlyWhenPrefixFree` | internal/engine/machines.go:20-26 | write-ahead holds on all runs over a set of IDs if and only if no two of them collide |
| `Lifecycle.OneBootIsARun` | internal/engine/orchestrator.go:27-95 | an empty host can start, serve and boot one layer of any chart: the run that breaks write-ahead for colliding IDs |
| `Lifecycle.OperationsAreIsolated` | internal/engine/orchestrator.go:116-158 | no step of an operation changes another chart's row, machines or own operation |
| `Lifecycle.RefusalIsOwn` | internal/engine/orchestrator.go:117-126 | when the listing succeeds, the start is refused if and only if one of the chart's own machines runs, whatever other charts do |
| `Lifecycle.NextKeepsInv` | internal/engine/reconcile.go:25-52 | every step, of an operation, a repair, a guest or a crash, keeps the invariant |
| `Orchestrator.Host.UpdateChartState` | internal/persistence/charts.go:41-52 | one upsert: the row is written, or a failure may have left it as it was |
| `Orchestrator.Host.ChartMachines` | internal/engine/machines.go:56-71 | exactly the listed machines that carry the chart's prefix, with their status |
| `Orchestrator.Host.RemoveMachine` | internal/engine/machines.go:73-82 | stop, then rm; success means the machine is gone, failure is recorded under its name |
| `Orchestrator.Host.ClearStaleMachines` | internal/engine/orchestrator.go:116-139 | refused if and only if the listing succeeded and showed a machine of the chart running; otherwise it fails if and only if a command failed, and success leads on to the pre-flight |
| `Orchestrator.Host.TeardownChart` | internal/engine/orchestrator.go:141-158 | success if and only if no command failed, and then no machine carries the prefix |
| `Orchestrator.Host.TakeChartDown` | internal/engine/orchestrator.go:160-180 | succeeds if and only if no command and no write fails, and then leaves Stopped and no machine; failure leaves a row that says so, or nothing changed |
| `Orchestrator.Host.KillChart` | internal/engine/orchestrator.go:98-114 | succeeds if and only if no command and no write fails, and then the row is Stopped and no machine of any layer name is left; otherwise the row is Stopping, or Stopped with nothing left, or untouched |
| `Orchestrator.Host.BootLayers` | internal/engine/orchestrator.go:54-64 | kraft is asked to run the layers in order, each once and with its own command, up to the first that fails; it stops only over a failed command, a cancelled context or an undeclared soft link, and says which |
| `Orchestrator.Host.InstantiateChart` | internal/engine/orchestrator.go:27-96 | started whole or not at all: Ok means the row is Started and kraft read, for each layer of the three maps once, its own image's kernel, its own settings and the runner's broker address; each error leaves no strict subset under Started or Stopped, and an aborted start is taken down unless that fails too; without a fault it is Ok exactly for a chart that passes the pre-flight, has declared soft links and does not run |
| `Orchestrator.Host.OwnedByHandledChart` | internal/engine/reconcile.go:59-67 | true if and only if some handled chart's prefix starts the name |
| `Orchestrator.Host.RepairChart` | internal/engine/reconcile.go:25-40 | a handled chart ends Stopped with nothing left, or its row still asks for repair; machines only disappear |
| `Orchestrator.Host.RemoveOrphans` | internal/engine/reconcile.go:42-52 | every listed orphan is gone or its own removal failed |
| `Orchestrator.Host.Reconcile` | internal/engine/reconcile.go:11-55 | from any store and machines: survivors belong to charts still not Stopped or are orphans whose removal failed, and at most as many charts stay not Stopped as failures happened; without failures none survive, every row is Stopped and the invariant holds; foreign machines are untouched |
| `Orchestrator.Host.Resolve` | internal/engine/orchestrator.go:34-43 | passes exactly the startable charts and changes no row and no machine |
| `Orchestrator.RepairNeverGrows` | internal/engine/reconcile.go:25-52 | what a repair may do never enlarges the machines and non-stopped rows left to repair |
| `Orchestrator.RemovalIsNext` | internal/engine/orchestrator.go:128-136 | each step of the shared removal loop is a step of the transition system that leads where the loop goes on |
| `Orchestrator.OthersKeep` | internal/engine/orchestrator.go:27-180 | whatever other charts and guests do meanwhile, the chart's row and the place of its operation stay and no machine of it appears |
| `Charts.LookupIsLatest` | internal/persistence/charts.go:105-145 | a lookup can yield a version if and only if it is the latest save of its chart and carries the reference |
| `Charts.SavedOverExactly` | internal/persistence/charts.go:111-116 | after a save under a new reference the old one finds something if and only if another chart ID holds it |
| `Charts.OldReferenceStillWorks` | internal/persistence/charts.go:126-129 | two charts saved with one reference, one of them again with another: the old reference finds the other chart |
| `Charts.KillMissesExactly` | internal/engine/orchestrator.go:98-114 | some run has a successful kill miss what a successful start booted if and only if the two are of different charts |
| `Charts.KillByReferenceExactly` | runner.go:213-238 | start and kill by one reference can miss each other if and only if a chart with layers shares it with another chart ID |
| `Charts.Runner.SaveChart` | internal/persistence/charts.go:105-124 | fails if and only if the write failed; the table is what the saves so far leave, whether or not a failure was reported |
| `Charts.Runner.GetChartByRef` | internal/persistence/charts.go:126-145 | unread if and only if the read failed; found means the row carries the reference; not pulled means no row does |
| `Charts.Runner.KillChart` | runner.go:221-238 | succeeds if and only if the reference is found and nothing fails, and then leaves no machine of any version ever saved under the chart's ID, and the row Stopped; a failure leaves the row Stopping, or Stopped with nothing left, or everything untouched |
| `Charts.Runner.InstantiateChart` | runner.go:213-219 | success runs the layers of the latest version, each once and as the runner is set up; nothing is run for a reference that is not found; without a fault it succeeds exactly for a chart that is found, startable and not running; every other outcome is passed on with what it says of row, machines and commands |
| `Preflight.BuildTopicMap` | internal/engine/orchestrator.go:182-193 | succeeds if and only if no event has an empty topic; every event name leads to the chart-prefixed topic of an event of that name |
| `Preflight.TopicsCollideExactly` | internal/engine/orchestrator.go:189-189 | two charts can be handed one topic exactly when one ID, closed by a dot, starts the other |
| `Preflight.ResolveEventLinks` | internal/engine/orchestrator.go:195-207 | succeeds if and only if all named events are known, with their topics in order |
| `Preflight.ResolveDataSource` | internal/resolver/links.go:36-59 | passes if and only if the type is file and the path is there and accessible in the mode asked for; each error names its cause |
| `Preflight.ResolveLinks` | internal/resolver/links.go:10-34 | passes if and only if every hard link is declared and accessible and every event link is known; soft links only warn; a refusal is over the first hard link that fails, with its own error, or over an unknown event |
| `Preflight.ResolveVolumes` | internal/resolver/images.go:135-151 | passes if and only if every volume splits into an existing host path and an absolute guest path; a refusal is over the first that fails, and its error says why |
| `Preflight.TransformToJobs` | internal/resolver/images.go:497-512 | each layer of the three maps gives exactly one job |
| `Preflight.ResolveLayer` | internal/resolver/images.go:111-133 | succeeds if and only if links, volumes and image do, with the image's key; otherwise with the error of the first of the three that fails |
| `Preflight.ResolveAll` | internal/resolver/images.go:77-109 | succeeds if and only if every job does; the map is what some order of completion wrote |
| `Preflight.OrderIsIrrelevantExactly` | internal/resolver/images.go:95-104 | every order of completion leaves each job its own key if and only if jobs of one layer ID have one key |
| `Preflight.ResolveLayers` | internal/resolver/images.go:58-68 | succeeds if and only if every layer passes; the keys are the layer IDs, each with a key its layer was answered with |
| `Preflight.OwnImages` | internal/resolver/images.go:100-102 | with distinct layer IDs each layer's entry is its own answer |
| `Preflight.CheckChart` | internal/engine/orchestrator.go:34-43 | topics and resolution together pass exactly the startable charts, with the topics and images the boot loops look up |
| `Preflight.DataSourceMounts` | internal/engine/run.go:129-152 | fails if and only if a hard or soft link is undeclared; mounts all hard links and the soft ones that are there |
| `Preflight.BuildArgs` | internal/engine/run.go:58-127 | fails if and only if a link is undeclared; otherwise writes all options of the layer, each where the source writes it |
| `CommandLine.OrderIsArgs` | internal/engine/run.go:65-126 | the arguments appended one after the other are those of the options |
| `CommandLine.ReadBack` | internal/engine/run.go:65-126 | whatever the values look like, a reader that takes each value whole reads the options they were written for |
| `Preflight.PrepareLayer` | internal/engine/orchestrator.go:54-88 | after a pre-flight all lookups of a boot loop hit and an undeclared soft link is all that can stop it; what kraft reads from the command is the layer's machine name, its control settings, the files of the image resolved for its ID, its volumes and mounts, and, unless it is a procedure, the bridge, the broker's address and its topics |
| `Preflight.ImagesApart` | internal/engine/run.go:36-44 | what is booted lies in the directory of the layer's own content key, kernel and root file system differ, and two layers share a kernel if and only if they were resolved to one key |
| `Preflight.RunsAsSetUp` | internal/engine/orchestrator.go:45-88 | triggers and publishers boot on `gprunner0` with the runner's own broker address, procedures off the network with only their own environment, all from the runner's image directory |
| `Preflight.TopicsGivenBackExactly` | internal/engine/run.go:110-114 | the topics can be read back from `TOPICS`, all and in order, if and only if none holds a comma |
| `Preflight.TriggersHearPublishers` | internal/engine/orchestrator.go:65-86 | a trigger is handed the very topic the publishers of the event it links are handed, which is the chart's own topic of an event of that name |
| `Preflight.PrepareAll` | internal/engine/orchestrator.go:54-88 | the boot loops get through if and only if all soft links are declared, with one command a layer |
| `Preflight.StartUp` | internal/engine/orchestrator.go:34-88 | the pre-flight passes exactly the charts whose topics, hard links, event links, volumes and images are in order; of those exactly the ones with declared soft links boot, with the runner's own image directory, broker and mounts |
| `Preflight.UndeclaredSoftLinkPasses` | internal/resolver/links.go:18-24 | a concrete layer that passes the pre-flight and fails the mounts |
| `ImageCache.ContentAddressIntegrity` | internal/resolver/images.go:218-287 | on every run each published directory hashes to its name, and every key returned names one |
| `ImageCache.PublishBeforeIndex` | internal/persistence/images.go:26-67 | on every run a build key leads to an images row and that to a published directory of the recorded size |
| `ImageCache.PublishedForGood` | internal/resolver/images.go:258-270 | a published directory stays with the same artifacts; a rename replaces empty directories only |
| `ImageCache.UnindexedIsReused` | internal/resolver/images.go:256-283 | a later resolution that builds the same bytes publishes nothing and indexes the directory that is there |
| `ImageCache.RowsAreStable` | internal/resolver/images.go:218-234 | once a row names a directory with a kernel it never changes, nothing is fetched for that key and no other key is answered |
| `ImageCache.RowMovesExactlyWithoutKernel` | internal/resolver/images.go:218-283 | from any reachable state some continuation moves a build key's row if and only if it names an image without a non-empty kernel, or nothing |
| `ImageCache.TempDirsAreOwned` | internal/resolver/images.go:240-247 | each temporary directory belongs to exactly one resolution in flight or to the leftovers, and each package to one or to the strays |
| `ImageCache.AttemptLeavesNothing` | internal/resolver/images.go:240-247 | a temporary directory a resolution held and holds no longer, on whatever path and whatever else is in flight, is gone with its package, unless a crash, its own removal or its own packaging abandoned it; then it is a leftover for the sweep |
| `ImageCache.CleanRunsLeaveNothing` | internal/resolver/utils.go:82-174 | while nothing is abandoned, no temporary directory and no package outlives the resolutions |
| `ImageCache.NextKeepsInv` | internal/resolver/images.go:218-288 | every step of any resolution, a crash or the sweep keeps the invariant |
| `ImageResolver.BuildResolver.ResolveImage` | internal/resolver/images.go:218-288 | a key returned is the row's, indexed, and names a directory that holds what it says; a settled row is answered without a fetch; an answer without a fetch is that of a settled row, one with a fetch was pulled without building if the layer has an image and packaged from a build otherwise; it fails only over a fault or a missing command |
| `ImageResolver.BuildResolver.LookUp` | internal/resolver/images.go:218-234 | a settled row is answered or the lookup fails; it is never taken for a miss |
| `ImageResolver.BuildResolver.DownloadImage` | internal/resolver/images.go:299-358 | with a published image it pulls and never clones, builds or packages; otherwise success means a package was built; it fails only over a fault or a missing command; on every path the clone directory's removal is tried |
| `ImageResolver.BuildResolver.HashAndPublish` | internal/resolver/images.go:249-285 | from a filled stage to the row: fails only over a fault, and never goes back to building |
| `ImageResolver.BuildResolver.PackageLayer` | internal/resolver/utils.go:132-175 | once kraft has stored the package its removal is tried on every path, as steps of the cache |
| `ImageResolver.BuildResolver.ExtractPackage` | internal/resolver/utils.go:82-129 | the directory the package is unpacked through is removed on every path |
| `ImageResolver.BuildResolver.Publish` | internal/resolver/images.go:259-266 | the rename, with a lost race taken as success; it fails only over a fault |
| `ImageResolver.BuildResolver.SaveImageMetadata` | internal/persistence/images.go:26-67 | both upserts or neither; a known content key keeps its size; a failed commit may have taken effect, and is counted as a failure |
| `ImageResolver.BuildResolver.ReclaimBuildDir` | internal/resolver/reclaim.go:24-44 | after a crash at any point removes temporary directories and no other entry; exactly as many stay as removals failed |
| `ImageResolver.BuildResolver.ReclaimPackages` | internal/resolver/reclaim.go:47-94 | asks for each of the resolver's packages once and for no other; at most as many stay as removals failed |
| `ImageResolver.BuildResolver.Reclaim` | internal/resolver/reclaim.go:14-22 | both sweeps after a crash, of directories and of packages: together at most as many are left as removals failed, none without a failure; then the process serves with the invariant intact |
| `ImageResolver.OthersKeep` | internal/resolver/images.go:218-288 | other resolutions leave this one's place and row alone and only add to the image directory |
| `Keys.GenerateContentKey` | internal/resolver/images.go:360-385 | fails if and only if an artifact is there but unreadable; hashes the text of the others and sums their sizes |
| `Keys.OuterTextIsInjective` | internal/resolver/images.go:381-381 | for distinct names without NUL the text determines which artifacts exist and their bytes |
| `Keys.ContentKeyIsInjective` | internal/resolver/images.go:360-385 | the content key meets what the cache asks of its hash |
| `Keys.SizeIsRecorded` | internal/resolver/images.go:380-380 | the size returned is that of the artifacts covered |
| `Texts.FieldsBreakAtSpaces` | internal/resolver/images.go:457-468 | a command is broken at its white space and nowhere else, which determines the fields of every text |
| `Texts.JoinGivesBackExactly` | internal/resolver/images.go:441-441 | a joined text gives its parts back if and only if none of them holds the separator |
| `Keys.GitSpecsEqualExactly` | internal/resolver/images.go:432-445 | specifications are equal if and only if commit, cleaned directory and the command broken at spaces and NULs agree |
| `Keys.BuildKeyIdentifiesBuild` | internal/resolver/images.go:432-457 | for commands without NUL the build keys are equal if and only if commit, cleaned directory and fields are |
| `Keys.KindsAreApart` | internal/resolver/images.go:423-428 | a built and a pulled image never share a build key; pulled ones do if and only if the manifests agree |
| `Keys.NulDefeatsTheSeparator` | internal/resolver/images.go:441-441 | two commands with different fields and one specification |
| `Forwarder.NextKeepsInv` | internal/engine/forwarder.go:49-158 | every step of the accept loop, a relay, a copier or a Close keeps the invariant |
| `Forwarder.CloseDrains` | internal/engine/forwarder.go:141-158 | when the Close that set the flag has returned, the accept loop and all relays have ended, nothing is tracked and every connection is closed |
| `Forwarder.OneCopierMayRemain` | internal/engine/forwarder.go:94-106 | then of each relay at most one copier is left, both its connections are closed, and it can end without any peer |
| `Forwarder.CopierOutlivesClose` | internal/engine/forwarder.go:94-107 | a run on which Close has returned and a copier has not ended |
| `Forwarder.WaitGroupIsSound` | internal/engine/forwarder.go:42-67 | the wait group counts the accept loop and live relays, and is never incremented from zero |
| `Forwarder.ClosedMeansClosed` | internal/engine/forwarder.go:111-153 | once Close has let go of the mutex every tracked connection is closed, and none is added again |
| `Forwarder.CopiersNeverBlock` | internal/engine/forwarder.go:94-106 | a copier that has ended always finds room in the channel |
| `Forwarder.WorkLowersRank` | internal/engine/forwarder.go:71-107 | after Close every step of the accept loop, a relay or a copier lowers the rank |
| `Forwarder.SomethingMoves` | internal/engine/forwarder.go:141-158 | after Close something can move without any peer until all have ended |
| `Forwarder.CloseTerminates` | internal/engine/forwarder.go:141-158 | after Close at most rank many such steps are left in any interleaving, and when none can move all have ended, the copiers too |
| `Forwarder.SecondCloseReturnsEarly` | internal/engine/forwarder.go:142-146 | a run on which a second Close returns while a relay is live |
| `Forwarder.Shared.Track` | internal/engine/forwarder.go:111-121 | adds the connection if and only if not closed, and is that step of the machine |
| `Forwarder.Shared.Release` | internal/engine/forwarder.go:123-129 | forgets and closes the connection, as the machine's two steps |
| `Forwarder.Shared.CloseAll` | internal/engine/forwarder.go:142-153 | the first call closes the listener and every tracked connection, later ones do nothing; run alone it is a run of the machine |
| `Subnets.MaskedValue` | internal/resolver/networks.go:83-95 | the bytewise mask and fill of a prefix compute the first and the last address of the block |
| `Subnets.BroadcastOf` | internal/resolver/networks.go:83-95 | the byte loop yields the greatest address of the block for a four-byte mask, and the address itself for a mapped one |
| `Subnets.ParseGateway` | internal/resolver/networks.go:61-81 | accepts a dotted-quad prefix if and only if its address is strictly between network and broadcast address, and a mapped one unless it is from /96 on the network address |
| `Subnets.MappedBroadcastPasses` | internal/resolver/networks.go:76-78 | a broadcast address that is accepted in its mapped form |
| `Subnets.MaskedMapped` | internal/resolver/networks.go:83-87 | masking leaves a mapped address mapped exactly from /96 on, and then masks its last four bytes |
| `Subnets.GatewayCount` | internal/resolver/networks.go:71-78 | the addresses of a block that are accepted are all but two up to /30, and none for /31 and /32 |
| `Subnets.ContainsIsInRange` | internal/resolver/networks.go:155-155 | agreement under the mask is membership in the range |
| `Subnets.OverlapTestIsExact` | internal/resolver/networks.go:155-155 | the two-way Contains test holds if and only if the ranges intersect |
| `Subnets.CheckSubnetFree` | internal/resolver/networks.go:133-162 | free means disjoint from every readable IPv4 range of every other link, if there is a block to compare; a refusal names one that intersects |
| `Subnets.Bridge.EnsureBrokerNetwork` | internal/resolver/networks.go:17-59 | an existing bridge is adopted if it holds exactly the configured address and prefix and is never changed; one is created, as configured, only over a free block; every refusal names its cause, and the cause is true |
| `Subnets.Bridge.CreateBrokerNetwork` | internal/resolver/networks.go:164-191 | creation is tried, and once more exactly when kraft answers that its record exists and dropping it succeeds; the answers decide the outcome |

## Left out

- Hypotheses of the lifecycle: at most one operation per chart at a time, because the check in `clearStaleMachines` is not atomic with booting; Reconcile needs no hypothesis. A command or write that is under way when the process dies has settled before the next process starts. Machines of other programs are fixed; guests of the runner may exit or vanish at any time.
- Hypotheses of the cache: singleflight runs one body per build key at a time, temporary names are never handed out twice, `stat` answers truthfully, and nobody else deletes from the image directory.
- Crashes are crashes of the process. Durability over power loss, and so `syncTree` and `syncPath` beyond their failing, is not claimed.
- Forwarder: the accept loop, the relays and Close are steps of a state machine, because their point is how they interleave; only the critical sections are also methods. Time appears only as a dial that fails by its timeout at the latest.
- Faults are counted where the model issues the command; that a command which did not fail is not counted as failed is a convention of the model.
- Orchestrator.Host.InstantiateChart: draws the order in which the three maps are ranged over at the start of the call; the file system is read as one state at the pre-flight and one while booting.
- Preflight.BuildArgs: `volumeSpec` and the joining of paths are given; the text of a mount repeats its body.
- CommandLine.ReadBack: how kraft reads its flags is assumed, because kraft is not part of this model: each value is taken whole. A comment in `internal/engine/run.go` speaks of a CSV parser behind `--kernel-arg`; one behind `--env` would split a `TOPICS` of several topics. `Preflight.BuildArgs` and `Preflight.PrepareLayer` read commands in the same way.
- Keys.BuildKeyIdentifiesBuild: the JSON encoder and `path.Clean` are parameters; texts must be ones the encoder keeps apart, which valid UTF-8 is.
- Telling a pulled image from a built one, `kraft pkg info`, `git ls-remote` and `targetOf` come down to a build key, a flag and commands that may fail. `untar`, `readJSON` and the archive layout are part of the command that fills the stage.
- `TouchImage`, timestamps and stored specifications: nothing reads them. `GetChartState` and `DeleteChartState` are not called by the operations modelled here.
- The gRPC server, the generated protobuf code, the starmap client, configuration and logging: plumbing.
