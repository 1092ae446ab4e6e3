# tx9: a verified model of its protocols and algorithms

tx9 keeps a personal agent in a "box": two Docker containers, a network, two volumes and an env
file on the host, and inside the agent container a daemon that `hb` supervises. This project
models seven parts of it in Dafny and proves what they are for.

- **Archive validation** (`archive_*.dfy`, over `machines.dfy` and `text.dfy`). The validator's
  three passes and its link resolver are methods with the source's loops and stacks
  (`ArchiveValidator`, class `ArchiveIndex.MemberIndex`), proved equal to a specification.
  Independently, `ArchiveWalk` is a pathname walk in place after section 4.13 of the POSIX.1-2017
  Base Definitions, without any bound. `ArchiveRestart` shows that the resolver, which restarts
  from the root at every link, refines that walk step for step, at a cost read off the links
  alone; `ArchiveAcceptance` says which archives are accepted, `ArchiveHeaders` says it on the list
  of headers alone, and `ArchiveLinks` what acceptance means for every link and when the bounds
  fire.
- **Gateway lifecycle** (`gateway*.dfy`). Any number of `hb` processes as a transition system:
  one program counter for each, two locks, two durable markers, request files, a supervisor that
  restarts its child, and a config version. Every step reads or changes shared state once; any
  process may die before any step. `GatewaySafety` proves the invariants for every run,
  `GatewayRuns` what success means and that each command left alone does its work;
  `GatewayLimits` and `GatewayStops` build the runs that show each assumption is needed.
- **Box lifecycle** (`box_*.dfy`). Create, import, upgrade, agent recreation, delete and prune as
  step sequences in which every Docker call may fail with or without effect and a process may die
  anywhere (`BoxLifecycle`, `BoxSafety`), what each leaves when it succeeds (`BoxResults`), and that
  it succeeds when left alone (`BoxAlone`); and the preflight checks and Destroy as methods of a
  class over the Docker objects of all boxes (`BoxObjects`).
- **Hermes import** (`hermes_*.dfy`). The ZIP layout rules, the classification of entries, the
  ledger with its producer and its checker, what of an archive is staged (`HermesScope`), extraction, the copy of a provider over an existing
  one (`HermesMerge`), and the rename-based swap with rollback as methods of a class `Workspace`.
  The step in which an operation fails or an interrupt comes is an input of the import;
  `HermesSteps` says what every step finds and leaves, and `HermesRuns` runs it on a backup.
- **Custom services** (`services.dfy`). The reconciler as a class over live processes and state
  files, with supervisors that crash by themselves and stops and starts that take their signals,
  waits and exits one by one.
- **Agent mounts** (`mounts.dfy`). The group choice under owner, group, other precedence.
- **Flags and settings** (`flags.dfy`, `envfile.dfy`, `resources.dfy`, `decimal.dfy`). The
  argument reordering, the env file's printer and parser, and the resource settings kept in it.

Eleven properties one might expect are false of the code as stated; the exact condition is proved:

- The resolver's step bound can refuse a link that a walk in place resolves with a single hop, and
  with it a whole archive (`LongTargetRefused`, `ZigzagAcceptedExactly`); `BoundExact` says when,
  for every archive and key.
- There is at most one gateway if and only if a supervisor's death takes its child with it
  (`OneGatewayExactly`; tx9-logs arms the parent-death signal, guest/tx9-logs:567-614).
- No gateway with an old config is forgotten if and only if no registration fails or dies
  between its first change and its end (`NoneForgottenExactly`).
- A `pause` or `gateway-disable` that succeeds guarantees a stopped gateway until its marker is
  next removed if and only if no marker is removed while a stop that has seen it is under way
  (`PromisesKeptExactly`). Otherwise hb's own commands suffice for the opposite: a pause sees its
  marker, `hb up` removes it and starts the gateway, a second pause sets it, and the first one
  succeeds beside a running supervisor (`PauseOvertaken`).
- A build goes on only with a network and volumes of its own box, unless a volume takes the name
  between the look at it and its creation, which Docker then hands out (`OwnUnlessRaced`).
- A completed import is the staged provider files over the old ones if and only if no staged
  file's path is an existing folder of its provider (`InstalledAsExpectedExactly`). A staged file
  `x` that meets a folder `x` is published as `x/x`, beside the folder's content
  (`FilePublishedInside`), because the copy writes inside an existing directory; only a folder
  that meets a file, or a file `x` that meets a folder `x/x`, stops the import.
- An import stopped by an interrupt, which the handler of exceptions does not catch, is not rolled
  back: everything is as before if and only if it comes no later than the first rename
  (`HarmlessExactly`). `ImportZip` says what every later step leaves. Between the two renames of a
  provider, for instance, its old tree is lost with the directory it was moved to (`ProviderLost`,
  and the run `LosesProvider`), and between those of the home no home is there (`HomeLeftAside`).
- An import that fails by an exception leaves everything as before if and only if the exception
  comes before the manifest is published (`HarmlessExactly`). The old trees are removed behind
  that, inside the `try`. When the old providers cannot be removed, the rollback removes the new
  home, finds no old one any more, and the manifest tells of a completed import (`HomeLost`, and the
  run `LosesHome`). Over a home that is a link or a file the import always fails there
  (`PublishedUndone`).
- An import leaves staging directories behind if and only if the trouble comes among their
  creations, which are outside the `try`: in the second, third or fourth, or right after the fourth
  (`ImportZip`, and the run `LeavesDirectoryBehind`).
- When the reconciler is killed while it starts a service, no supervisor is unknown afterwards if
  and only if the forked process is still on record when it reaches its program
  (`OrphanRecordedExactly`). It is not if the kill came before the record, or if another run looked
  in between and removed the record as stale.
- Reading undoes writing of an env file if and only if every key is legal and no value contains a
  newline or ends in a carriage return (`ReadsBackExactly`).

## Model

| member | source | states |
|---|---|---|
| ArchiveIndex.StateKeyInjective | internal/archive/validator.go:414-420 | two reachable resolver states with the same string key are the same state, so a repeated key is a repeated state |
| ArchiveIndex.MemberIndex.Resolve | internal/archive/validator.go:334-412 | the loop over the two stacks, with its step bound, seen keys and hop bound, returns the verdict of watching the unbounded restarting walk, for every index and key |
| ArchiveRestart.RestartingRefines | internal/archive/validator.go:355-402 | restarting from the root at each link refines the walk in place: each step in place is a run of restarting steps with the same hops, because re-walking the base meets no link and cannot fail |
| ArchiveRestart.CostIsQueued | internal/archive/validator.go:343-358 | conservation of queued components: iterations spent plus components left equal the components of the key, of the targets met and of the bases walked again |
| ArchiveRestart.ResolutionMeaning | internal/archive/validator.go:334-412 | an answer other than a bound or a cycle is given exactly when the walk in place ends so within the bounds; a reported cycle means the walk never ends |
| ArchiveRestart.CycleIsEndless | internal/archive/validator.go:351-354 | "link cycle detected" is sound: the unbounded walk never ends |
| ArchiveWalk.WalkGrounded | internal/archive/validator.go:359-402 | containment: at every intermediate point the walk stands on real directories of the archive, at or below its root |
| ArchiveWalk.OneOutcome | internal/archive/validator.go:334-412 | the walk in place has at most one outcome, so what acceptance promises is determined |
| ArchiveLinks.BoundExact | internal/archive/validator.go:343-350 | for every walk that arrives, the safety bound is reported exactly when more than 40 links were met or the queued components exceed the step bound |
| ArchiveLinks.FewShortLinksResolve | internal/archive/validator.go:343-346 | up to seven links with targets of up to four components never meet a bound |
| ArchiveLinks.LongTargetRefused | internal/archive/validator.go:343-350 | the bound refuses a link that resolves in place over one hop, from exactly 26 zigzags in its target on |
| ArchiveRefusal.ZigzagAcceptedExactly | internal/archive/validator.go:343-350 | at the public entry: an archive of two directories and one link, which a walk in place resolves over one hop, is accepted exactly while the link's target has fewer than 26 zigzags |
| ArchiveValidator.ValidateLinkTarget | internal/archive/validator.go:294-318 | a target is refused for controls, absoluteness, emptiness or rising above the root at any prefix, in that order |
| ArchiveValidator.ValidateDataTar | internal/archive/validator.go:36-208 | the three passes, with the parent cache, give the same verdict and the same first error as passes that resolve every parent afresh |
| ArchiveValidator.CheckMember | internal/archive/validator.go:172-205 | one member with the remembered parents is checked as it would be without them, and what is remembered stays true |
| ArchiveAcceptance.AcceptedIffLawful | internal/archive/validator.go:36-208 | an archive is accepted exactly when headers are lawful and distinct, every parent is a real directory, home and home/agent are, and every link's walk ends well within the bounds |
| ArchiveHeaders.AcceptedByHeaders | internal/archive/validator.go:36-208 | the same on the list of headers alone, without index, members or resolver: names and targets are clean and stay inside, paths are distinct, every directory a member lies in is listed as one, home and home/agent are, and following each link by the list ends on a listed member, a regular file for a hard link, over at most 40 links and 8 components a member and 32 more |
| ArchiveHeaders.LinkFreeByHeaders | internal/archive/validator.go:84-205 | a link-free archive is accepted exactly when its headers' own names and type flags say so |
| ArchiveAcceptance.SolidResolves | internal/archive/validator.go:343-346 | a chain of real directories always resolves: by pigeonhole the step bound never rejects it |
| ArchiveLinks.LinkFreeAccepted | internal/archive/validator.go:87-205 | a link-free archive within the member cap is accepted exactly when its headers are lawful, it is prefix-closed over directories, and home and home/agent are directories |
| ArchiveLinks.AcceptedLinksLand | internal/archive/validator.go:133-205 | in every accepted archive each link's walk, from its directory or the root, ends on an existing non-link member, a regular file for a hard link, and never leaves the archive's directories or its root |
| GatewaySafety.StepSafe | guest/hb:165-185 | every step of every process and every event keeps all invariants: locks, single supervisor, children, markers, stopped commands, reloads, config |
| GatewaySafety.LocksExclude | guest/hb:165-185 | at most one process is in each critical section, and a taken lock belongs to a live process in it, whoever died |
| GatewaySafety.OneGateway | guest/hb:466-542 | never more than one supervisor in any run, nor more than one gateway when a child dies with its supervisor |
| GatewaySafety.StoppedUntilRemoved | guest/hb:615-631 | once pause or gateway-disable has succeeded, nothing any process does starts a supervisor or a gateway until the marker it saw is removed, and no starter is past its recheck |
| GatewaySafety.RequestsServed | guest/hb:794-827 | a request file disappears only when every gateway then running was started after it was made |
| GatewayRuns.SuccessWasSeen | guest/hb:466-542 | in every run, up, resume, reconcile, enable and a registration succeed, and a reload that stopped a gateway deletes its requests, only after the same process saw a marker, a gateway or a supervisor since |
| GatewayRuns.ReloadAlone | guest/hb:794-827 | a reload left alone with a running gateway and requests ends well with one supervisor that is newer than every request, and removes exactly the requests it found |
| GatewayRuns.LostRaceStopsNothing | guest/hb:659-671 | in every run, gateway-enable that finds the gateway's lock taken never comes to stop the gateway, and fails |
| GatewayRuns.StatusesMean | guest/hb:461-542 | in every run a start returns 2 only without having had the lock, only the commands that pass it on exit with 2, and a reload retries at most five times |
| GatewayRuns.FailedReloadKeeps | guest/hb:775-827 | in every run a reload whose stop or start has failed never deletes a request, and fails |
| GatewayRuns.ReloadAcceptsWinner | guest/hb:775-792 | a reload that lost the race and then sees the gateway running ends well and removes what it found |
| GatewayRuns.FailedLaunchGone | guest/hb:520-538 | in every run a start that launched a supervisor and then fails leaves it behind only dead |
| GatewaySafety.StaleGatewayReloads | guest/hb:871-930 | a gateway with an older config has a newer request pending, or a registration holds the reload lock |
| GatewayLimits.OneGatewayExactly | guest/hb:479-518 | at most one gateway in every run exactly when a supervisor's death takes its child with it |
| GatewayLimits.NoneForgottenExactly | guest/hb:889-929 | no old gateway is ever forgotten exactly when no registration fails or dies half-way |
| GatewayStops.PromisesKeptExactly | guest/hb:615-631 | every successful pause or disable is followed by no supervisor, and with parent death no gateway, until its marker is next removed, in every run, exactly when no marker is removed while a stop that has seen it is under way |
| GatewayStops.PauseOvertaken | guest/hb:544-559 | the run with hb's own commands: up removes the marker of a pause under way and starts a supervisor, another pause sets it again, and the first succeeds |
| GatewayLimits.StartsSupervisor | guest/hb:466-542 | an undisturbed reconcile that finds nothing running does start a supervisor |
| GatewayRuns.WaitsForPending | guest/hb:496-517 | a starter that finds a supervisor without its gateway waits for that one and starts none |
| GatewayRuns.ReconcileQuiesced | guest/hb:561-566 | the reconciler of a quiesced box starts nothing |
| GatewayRuns.UpAlone | guest/hb:544-559 | up, left alone, removes the quiesce marker and starts one supervisor |
| GatewayRuns.ResumeAlone | guest/hb:633-636 | so does resume |
| GatewayRuns.EnableAlone | guest/hb:642-672 | gateway-enable, left alone and not quiesced, removes its marker and starts one supervisor |
| GatewayRuns.EnableRefused | guest/hb:642-658 | quiesced, unconfirmed or not ready, it changes nothing and fails |
| GatewayRuns.StopAlone | guest/hb:615-631 | pause and gateway-disable, left alone over a running gateway, end well with nothing running and their marker set |
| GatewayRuns.WireAlone | guest/hb:871-930 | a registration left alone with a running gateway changes the config and leaves a request for its reload |
| BoxSafety.NextKeeps | internal/cli/cmd_create.go:74-127 | every step of every command keeps what its process may rely on under the lock, and the box recoverable |
| BoxSafety.AlwaysRecoverable | internal/cli/cmd_import.go:100-194 | at every step of every interleaving: while any object of the box exists, its env file exists and holds the token every container of the box was created with |
| BoxSafety.TokenSteady | internal/cli/cmd_upgrade.go:82-117 | while any object of the box exists, no event changes or removes its token |
| BoxSafety.ForeignKept | internal/box/objects.go:144-174 | no step of any command removes or replaces a network or volume that is not the box's own |
| BoxSafety.EnvGoesLast | internal/cli/cmd_prune.go:171-234 | the env file is removed only under the lock, when no object of the box is left and after no failed removal |
| BoxSafety.DataSpared | internal/box/objects.go:18-49 | a command that removes the box's network or a volume is delete, or is a create or import that made it itself after its own preflight found nothing |
| BoxSafety.FreshCommandsSpare | internal/cli/cmd_create.go:84-127 | create and import never remove a container that was there before their preflight, however they fail |
| BoxResults.SuccessLeaves | internal/box/create.go:42-142 | in every run that nobody outside disturbs, a command that succeeds has done what it is for: create, import and upgrade leave the network, both volumes and exactly two new containers with the env file's token, an agent recreation its new agent, delete and prune nothing of the box |
| BoxResults.RecreateReplacesOne | internal/box/create.go:182-285 | an agent recreation that succeeds has replaced exactly one of the containers there were by the new one |
| BoxResults.FailureStops | internal/cli/cmd_create.go:74-114 | while a command still looks and prepares, the first call that fails ends it and changes nothing |
| BoxResults.OwnUnlessRaced | internal/box/box.go:324-352 | a build goes on only with its own box's network and volumes, but for a volume that took the name between its look and its creation |
| BoxResults.NoneTokenless | internal/cli/cmd_create.go:95-102 | in every run no container is created without a token |
| BoxAlone.FailureDestroys | internal/box/create.go:99-122 | a failed build of create and import goes on to destroy what there is, one of upgrade and recreation keeps it, and an agent without executor is removed |
| BoxAlone.CleansUpAlone | internal/cli/cmd_create.go:108-122 | the cleanup of a failed create or import, left alone, leaves nothing of the box |
| BoxAlone.SucceedsAlone | internal/cli/cmd_upgrade.go:82-125 | each of the six commands, left alone with what it needs and with calls that succeed, comes to that success |
| BoxObjects.Engine.InspectDestroyTargets | internal/box/objects.go:80-125 | it refuses exactly when a call fails or a name of the box is foreign, and finds every labelled container once, whatever its name or role |
| BoxObjects.Engine.Destroy | internal/box/create.go:445-490 | nothing changes when a target is foreign or cannot be inspected; only the box's objects go; it succeeds exactly when no call fails, and then nothing of the box is left; otherwise the env file stays |
| BoxObjects.Engine.RemoveVolumes | internal/box/create.go:467-480 | each volume is inspected again and removed only if it is the box's own; success means all are gone |
| BoxObjects.Engine.PreflightFreshObjects | internal/box/objects.go:22-49 | it passes exactly when no call fails and nothing at all is under any name of the box |
| BoxObjects.LabelsOwn | internal/docker/labels.go:22-32 | what is created for a box is that box's own and no other's, and nothing without both labels is |
| BoxObjects.NamesApart | internal/box/box.go:69-83 | no two boxes share the name of a container, a network or a volume |
| HermesArchive.ZipLayout | guest/hermes-state:73-111 | the layout is accepted exactly for lawful archives, with their files in order and their common directory |
| HermesArchive.LawfulWellPlaced | guest/hermes-state:102-110 | in an accepted layout every path is relative, stays inside, and differs from every other |
| HermesArchive.ClassifyEntries | guest/hermes-state:214-233 | the loop gives each file the class of its own relative name; HermesScope says what that means |
| HermesScope.HomeExactly | guest/hermes-state:138-152 | a path is staged for the home, with its content, exactly when a file of that path is in the archive, is no Mach-O binary, is not below _external, tmp or hermes-agent or in an excluded directory, and its last name is no runtime name and has no excluded suffix |
| HermesScope.ProvidersExactly | guest/hermes-state:214-233 | a path is staged for the providers exactly when the archive has it below _external, deeper than one component, and it is no Mach-O binary |
| HermesScope.SkippedForFirstReason | guest/hermes-state:138-233 | every entry's reason is the first that holds in a fixed order, and there is none exactly when none holds |
| HermesScope.ImportableExactly | guest/hermes-state:236-249 | an archive is importable exactly when config.yaml, .env or state.db is staged at the home's root |
| HermesScope.NamesAreStaged | guest/hermes-state:121-126 | the provider names shown and approved are exactly those of the staged providers |
| HermesScope.AcceptedNames | guest/hermes-state:63-90 | no accepted archive has a name with NUL, backslash, root or "..", a symbolic link or a special file |
| HermesLedger.Accounting | guest/hermes-state:252-281 | the loop computes the ledger given by counting each category over the entries |
| HermesLedger.Format2ScopeAccounted | guest/hermes-state:634-689 | the checker accepts exactly the ledgers that conserve files and bytes and whose skipped entries are proper, strictly sorted and add up, by reason too |
| HermesLedger.ReportPassesChecker | guest/hermes-state:252-281 | the ledger of every accepted archive passes the checker, and its files and bytes are the archive's |
| HermesLedger.NothingOverwritten | guest/hermes-state:403-452 | no two extracted entries share a target: as many files are staged as the ledger counts |
| HermesScope.LedgerSides | guest/hermes-state:252-281 | the ledger's files of each side are those staged on that side, and its bytes too where the declared sizes are real |
| HermesScope.DecompressedIsStaged | guest/hermes-state:414-437 | the bytes held against the limit are exactly the staged ones |
| HermesLedger.EveryEntryLands | guest/hermes-state:418-443 | every entry that is not skipped is staged with its own content under a path that stays inside its staging directory |
| HermesLedger.Extract | guest/hermes-state:403-452 | extraction succeeds exactly when all providers are approved, the content is within the limit and no file lies below another, and stages exactly the entries' content |
| HermesMerge.CopyOver | guest/hermes-state:550-553 | copying a staged directory over an existing one, file by file in any order, makes the merged directory, and fails exactly where a folder meets a file or a file x a folder x/x |
| HermesMerge.MergedOverlaysExactly | guest/hermes-state:550-553 | the merged directory is the new tree over the old one exactly when no staged file's path is an existing folder |
| HermesMerge.FileNestsInFolder | guest/hermes-state:553 | a staged file x over a folder x becomes x/x, the folder's content stays, and the copy does not fail |
| HermesMerge.MergedWellFormed | guest/hermes-state:550-553 | whatever lands where, the merged directory can stand in a file system: every file has its folders and no path is both |
| HermesImport.Workspace.CheckPreview | guest/hermes-state:504-521 | the preview passes exactly for lawful archives with a marker whose providers are the approved ones, none reserved |
| HermesImport.Workspace.ImportZip | guest/hermes-state:497-614 | for trouble of either kind in any step: the import succeeds exactly when archive and directory are fit and no trouble comes, ends in the step of the trouble if they are fit, and never fails without a cause; success installs the staged home and the merged providers; an exception before the manifest is published leaves directory and manifest as before, a later one what the old trees still hold; an interrupt leaves exactly what its step finds; staging is left exactly when the trouble comes among its creations |
| HermesSteps.HarmlessExactly | guest/hermes-state:596-614 | an import that does not succeed leaves home, providers and manifest as before exactly after an interrupt no later than the first rename or an exception before the manifest is published |
| HermesSteps.InterruptHarmlessExactly | guest/hermes-state:540-594 | what an interrupted step finds is what was there before exactly up to the first rename, and the completed import in the last step |
| HermesSteps.InstalledAsExpectedExactly | guest/hermes-state:542-562 | the installed directory is the staged trees over the old ones exactly when no staged file's path is an existing folder of its provider; either way it can stand in a file system |
| HermesRuns.FilePublishedInside | guest/hermes-state:550-562 | the import of an archive that brings a file x for a provider holding x/y has nothing in its way and publishes the file as x/x |
| HermesRuns.ProviderLost | guest/hermes-state:558-562 | in every import that nothing stands in the way of, an interrupt between a provider's renames leaves no tree under its name, the new home, and the old manifest |
| HermesRuns.HomeLeftAside | guest/hermes-state:540-542 | in every such import over an existing home, an interrupt between the home's renames leaves no home, and the old one aside |
| HermesRuns.HomeLost | guest/hermes-state:592-607 | in every such import, a failed removal of the old providers leaves no home at all, with the manifest published |
| HermesRuns.PublishedUndone | guest/hermes-state:592-607 | over a home that is a link or a file, the import fails without any trouble, all is rolled back, and the manifest is published |
| HermesRuns.LosesProvider | guest/hermes-state:558-562 | the run: an import of a backup, interrupted there, over a provider with a file |
| HermesRuns.LosesHome | guest/hermes-state:592-607 | the run: an import of a backup over an existing home, whose last removal fails |
| HermesRuns.LeavesDirectoryBehind | guest/hermes-state:524-530 | the run: an import of a backup, a second directory that cannot be made, and the first is left behind |
| HermesImport.Workspace.SwapProviders | guest/hermes-state:542-562 | where it stops, by trouble or a refused provider, the directory is exactly as that step finds it and all can be undone; if it does not, no provider was refused and all merged ones are installed |
| HermesImport.Workspace.Rollback | guest/hermes-state:596-607 | from any state of the swaps, the rollback restores exactly what the trees set aside hold: the directory as before, as long as they are whole |
| Services.OnePerName | guest/tx9-services:110-119 | two live supervisors of one name are the same process |
| Services.ConvergedRuns | guest/tx9-services:110-119 | converged means one live process with each desired name, helper, log directory and delay, on record with the definition's fingerprint, and no other supervisor |
| Services.SafeNameLanguage | guest/tx9-services:16 | the safe names are the words of 1 to 63 letters, digits, underscores and dashes that begin with a letter or digit |
| Services.OrphanRecordedExactly | guest/tx9-services:130-156 | a process whose starter was killed becomes a supervisor on record exactly when its record is there when it reaches its program |
| Services.Supervisors.StopOne | guest/tx9-services:220-293 | through TERM, KILL and their bounded waits on (pid, start time) identities: success leaves no supervisor of the name and, without a crash, none of its children's groups; it fails only when one of them has survived, and then keeps the record; no other supervisor is touched |
| Services.Supervisors.StartOne | guest/tx9-services:130-166 | through fork, record and waiting: it succeeds exactly when there is a helper and none of its steps fails, with a recorded current supervisor; every other exit leaves none of the name and its process ended |
| Services.Supervisors.ReconcileLocked | guest/tx9-services:304-376 | no supervisor is ever unrecorded, whatever fails or crashes; with a helper it succeeds exactly when no stop or start fails, and then, unquiesced, exactly the desired services run as defined now; quiesced, it starts nothing and adds or changes no record, and success leaves nothing undesired or outdated; a second run changes nothing; without a helper no desired service is stopped |
| Services.Supervisors.StopAllLocked | guest/tx9-services:378-389 | success means no supervisor and no record is left |
| Mounts.ChoiceOptimal | internal/box/agent_mounts.go:225-266 | the checks pass exactly when some set of non-root groups gives access to every mount, and then the asked groups are the least such set |
| Mounts.AccessByMask | internal/box/agent_mounts.go:205-262 | the program's masks and shifts decide access as the read, search and write bits of the one class that governs do |
| Mounts.CleanExactly | internal/box/agent_mounts.go:133-142 | a rooted path is left alone by cleaning exactly when it is the root or has only proper components |
| Mounts.ValidMountMeans | internal/box/agent_mounts.go:133-150 | a valid mount's paths hold no character that bind strings cannot, and its target is a directory really below /mnt |
| Mounts.AsksNoMore | internal/box/agent_mounts.go:177-184 | with all asked groups joined no mount asks for another, so one recheck suffices |
| Mounts.PrepareAgentMounts | internal/box/agent_mounts.go:158-190 | it succeeds exactly for valid, reachable mounts with a feasible set of groups, and returns the least one, sorted, with every bind in order |
| Mounts.BindReadsBack | internal/box/agent_mounts.go:133-150 | the bind string of a valid mount splits back into exactly its source, target and mode |
| Flags.ParseFlagsAnywhere | internal/cli/box_common.go:20-56 | the reordering followed by the standard parser has the outcome of a parser that takes the arguments as they come: the same settings, positionals or first error |
| Flags.FlagForms | internal/cli/box_common.go:20-56 | what the standard parser takes for a flag: one dash or two, a value behind "=" or in the next argument, a boolean by its name alone, and nothing without a name |
| Flags.PositionalAnywhere | internal/cli/box_common.go:16-19 | a positional argument may stand before or behind any whole flags |
| Flags.DelimiterKeeps | internal/cli/box_common.go:28-32 | everything behind the delimiter stays positional, however it looks |
| EnvFile.BoxState.ReadBoxEnv | internal/state/state.go:79-105 | the loop over the lines computes what the file says; a missing file says nothing |
| EnvFile.BoxState.WriteBoxEnv | internal/state/state.go:109-151 | the file is replaced by the sorted lines of the map, or stays as it was |
| EnvFile.BoxState.RemoveBoxEnv | internal/state/state.go:154-163 | the file is gone, or a failure leaves it as it was |
| EnvFile.ParseClean | internal/state/state.go:91-105 | from any contents only legal keys and single-line values are read |
| EnvFile.ReadsBackExactly | internal/state/state.go:79-151 | reading undoes writing exactly for legal keys and values without newline or final carriage return |
| Decimal.ParseFormat | internal/box/resources.go:135-139 | parsing undoes formatting exactly on the 64-bit integers |
| Resources.LoadResources | internal/box/resources.go:111-145 | whenever the file can be read, the field loop returns exactly the settings it holds: defaults for missing keys, nothing for unreadable or invalid ones |
| Resources.SaveResources | internal/box/resources.go:150-168 | after a successful save, loading gives exactly what was saved; other settings lose at most one final carriage return; a failure changes nothing |
| Resources.ResetResources | internal/box/resources.go:172-186 | after a successful reset, loading gives the defaults and the other settings are there |
| Resources.OthersKeptExactly | internal/box/resources.go:147-152 | the other settings are kept unchanged exactly when none of their values ends in a carriage return |

## Left out

- Archive bytes: gzip, tar and zip formats, encryption and the scan of the tar stream; the models start from decoded member lists. Mach-O detection is a flag of each entry.
- ArchiveIndex.MemberIndex.Resolve: requires a key without control characters, as the comment on the state key does; the validator only passes such keys.
- Gateway: spawning a supervisor together with its exec is one step, and so is one scan of the process table; process ids are not reused; TERM is only a chance to exit, which a daemon always has.
- Gateway: the unwiring path of wire_mcp, edits of the Hermes config outside hb, a gateway started without the tx9-logs supervisor or by hand, and the PID file, which nothing decides on.
- GatewaySafety.StaleGatewayReloads: only for runs in which no registration fails or dies half-way; GatewayLimits.NoneForgottenExactly shows the condition is needed.
- Box lifecycle: a Docker call in flight takes effect before its caller's lock is freed; only tx9 creates objects with the box's labels; nobody edits the env file by hand; replacement of a volume between its recheck and its removal.
- BoxSafety.DataSpared: says nothing about containers, which upgrade and agent recreation replace by design.
- Box lifecycle: start, stop, exec, image builds and readiness checks are steps that succeed or fail; the two-container resource update and name generation are easy members.
- BoxSafety.AlwaysRecoverable: relies on the assumptions of the two lines above.
- BoxObjects.Engine.Destroy: the box's name is valid, container names and ids never coincide, and nobody else changes the objects while it runs; BoxSafety.ForeignKept covers others changing them between any two steps.
- Hermes import: more than one trouble in one import, so none inside the rollback or the final cleanup; a home that is a link leading to something the import replaces; names given by mkdtemp are new and differ from every provider; modes and times; the text rewriting is any function of a file's path and content.
- HermesSteps.HarmlessExactly: says nothing of a manifest that already held exactly what would be published.
- HermesImport.Workspace.ImportZip: a temporary manifest beside the manifest may be left by a failed publication, and says nothing about it.
- HermesLedger.Format2ScopeAccounted: the ledger's fields have their types; the type tests on decoded JSON are not modelled.
- Services: no kill of the reconciler while it starts a service, beyond Services.OrphanRecordedExactly; inspection of one's own live processes is exact, and start times are never used twice; zombies count as exited; the status report.
- Mounts: resolution of symbolic links in sources, the mountinfo file, and platforms without owner and group numbers.
- Flags: a flag value's own parsing is any fixed predicate on name and value; usage text is not modelled.
- Env file: strings are sequences of characters, so contents that are not valid UTF-8 are not covered; directory creation and file modes.
- Docker transport, the log capture and rotation of tx9-logs, browser provisioning, the overview, the update flow and the Worker: library-bound or user interface.
- Version comparison, release planning, byte ranges, checksums and URL or IP parsing: easy members.
