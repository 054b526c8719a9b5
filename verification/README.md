# runnc: a verified model

runnc is an OCI container runtime for unikernels. This project models the parts of it that decide
something, as Dafny programs and state machines, and proves what they are for.

**The life of a container** (`Lifecycle*.dfy`, `Commands.dfy`, `InitProgram.dfy`). A `create` process, the init process
it spawns, and any number of `start`, `state` and `delete` processes run at the same time and meet
only in the kernel: in the container's directory with `state.json` and a FIFO, the tap device, and
the process table. `Lifecycle` gives each of them a program counter and its own copy of the saved
state; `Step` is one system call of one of them, every fallible call may fail, and every process may
be killed between two calls. A run is any sequence of steps. `LifecycleInvariant` is the inductive
invariant, and the other `Lifecycle` modules state what follows for all runs: `LifecycleAnswers` why a
command answers as it does, `LifecycleEffects` what it leaves behind, and `LifecycleProgress` what can
always be done, wherever a run has led to. `Commands` is the same
commands as imperative programs over a container object (`Exec`, `Destroy`, `killContainer`, the
actions of `start`, `state` and `delete`, the factory's `Create` and the runner's `run`); a `Machine`
moves other processes before every system call, as an arbitrary schedule says, and each program is
proved to make exactly the moves of its process, so the theorems about runs are theorems about these programs. `InitProgram` does the
same for the program of init.

**The unikernel's argument** (`Json.dfy`, `Address.dfy`, `Rumprun.dfy`, `Pipeline.dfy`). The JSON
argument with its repeated `env` members is spliced together from printed text; addresses, masks and
gateways travel as strings through an options map and are parsed back. What the unikernel is told is
stated by looking up each member of the parsed text by its name. The JSON printer is proved
against a parser of RFC 8259 that keeps duplicate names, dotted quads and decimals against their
parsers, and masks against the bits they select (RFC 4632, section 3.1).

**The recursive copy** (`FileTree.dfy`, `Copy.dfy`, `Rootfs.dfy`). `Copy` changes a file system step
by step, from any path to any path; it is proved to terminate, to compute a pure overlay between
separate places and to fail there exactly when the overlay is impossible, and never to succeed for a
directory copied below itself. `Rootfs` is its user, the copying of resolver and host name files into a container.

**Resources of many containers** (`Resources.dfy`, `Conservation.dfy`, `Session.dfy`,
`Interleaving.dfy`, `State.dfy`). The
factory and the destroy handlers with every call that can fail; books of which directory and tap
belongs to whom, over all runs of operations; the create and delete commands of a host, which use
those programs and whose operations are such a run; the same conservation between single calls, when
commands on different containers interleave; and the JSON form in which handler states pass
from process to process, with inherited descriptors.

**Smaller loops** (`Signals.dfy`, `Templates.dfy`). Signal forwarding with reaping, and the filling of
usage texts over a map in any order.

Assumptions: pids are not reused (the start time is stored but never compared); a save of `state.json`
is atomic; the lifecycle modules follow one generation of an id, from one `create` to its teardown; a
FIFO behaves as on Linux (an open blocks until the other side has been opened since); a path whose text
does not fit in PATH_MAX (4096 bytes with its terminator) is refused by every call; strings are
valid UTF-8; a decimal number may have leading zeros where Go's older address parser accepts them.

Where the code differs from its own comments, the code is followed:

- Destroy calls Exec, Fs, Network (libcontainer/container_nabla.go:287-329), not the order of llif/llif.go:21-22.
- `Create` is not atomic, against libcontainer/factory.go:37: `Conservation.FailedCreateLeaves` says what it leaves.
- `delete` without a `state.json` removes the directory without a probe, and `start` failing after the
  spawn is cleaned up without a kill: `LifecycleTeardown.TeardownOfLiveInit` proves that these are
  exactly the two ways in which the commands on a container's own id take its directory or tap while its
  init lives, `LifecycleTeardown.TeardownHasCause` finds the load or the failed call in the run, and
  `LifecycleWitness` shows runs of both.
- Commands on other ids can take them too. `delete` does not validate its id: one whose path is the root of
  all containers or above it removes every container's directory, and `Conservation.EndsOnlyItself` and
  `Conservation.DeleteSparesOthers` say for which ids and hosts the others are spared. A second destroy
  of an ended container can take the tap of another with the same name (`Conservation.StaleDestroy`).
- A `start` that opens the FIFO after init has died never ends (`LifecycleStatus.LateStart`).
- A saved Stopped can be overwritten by Running: `LifecycleStatus.StoppedTurnsRunningExactly` says when.
- `nablaTapName` guards ids of fewer than 8 characters but panics below 12.
- The hardware address is validated but never passed on (`Pipeline.MacIsDropped`).
- An empty environment variable makes the spliced text invalid, and the launch fails.
- Prestart hooks run before the FIFO rendezvous.
- `Create` looks for the argument `/pause` and init for `pause.nabla`: a container asked to run
  `pause.nabla` gets a file system and then only pauses.
- Copying something onto itself empties every file in it, and copying a directory below itself always ends in an error.
- `forward` is reached only when `create` is false, where `Run` of the container is not implemented.

## Model

| member | source | states |
|---|---|---|
| LifecycleInvariant.RunKeepsInv | libcontainer/container_nabla.go:180-283 | every step of every process, failures and kills included, keeps the invariant over kernel, snapshots and program counters |
| LifecycleInvariant.FreshInv | libcontainer/factory_nabla.go:94-119 | the invariant holds before `create` |
| LifecycleTheorems.StartSucceedsAtMostOnce | libcontainer/container_nabla.go:252-270 | over every interleaving of any number of `start` commands, at most one succeeds |
| LifecycleTheorems.StartFollowsInit | libcontainer/init_nabla.go:79-156 | a successful `start` proves that init ran Fs, all hooks in order and Network, and then wrote its byte |
| LifecycleTheorems.PausesByArguments | libcontainer/factory_nabla.go:73-84 | init pauses exactly when the stored arguments are `pause.nabla` alone, whether asked for by that name or as `/pause`, and only the latter has no file system made |
| LifecycleTheorems.NoUserCodeBeforeRendezvous | libcontainer/init_nabla.go:79-176 | the exec handler runs only as the last call of a complete init program, after some `start` opened the FIFO, and never in a pause container |
| LifecycleStatus.SavedStatusIsSound | libcontainer/container_nabla.go:239-269 | the saved status is Created, Running or Stopped; Stopped means init is gone, Running means its byte was written and read; the saved pid is init's |
| LifecycleStatus.SavedStatusNeverGoesBack | libcontainer/container_nabla.go:367-383 | between any two points of a run no save brings Created back, and until init is gone the status moves at most from Created to Running |
| LifecycleStatus.StoppedTurnsRunningExactly | libcontainer/container_nabla.go:263-266 | the lost update, a saved Stopped overwritten by Running, happens exactly at the save of a late `start` |
| LifecycleStatus.LateStart | libcontainer/container_nabla.go:252-258 | a `start` that comes to the FIFO after init has died fails at once if the FIFO is gone or cannot be opened, and otherwise never ends in any continuation unless it is killed |
| LifecycleStatus.AbandonedStart | libcontainer/container_nabla.go:252-258 | a `start` that is waiting when init dies goes on if init had opened its end, and otherwise waits for ever |
| LifecycleStatus.ReportTellsProbe | llcli/state.go:36-57 | `state` reports Stopped exactly when init was gone at its last probe |
| LifecycleAnswers.StatusHasCause | libcontainer/container_nabla.go:367-393 | in every run the status a command acts on or reports is Stopped exactly if init was gone at its last probe, and otherwise what state.json said at its own load |
| LifecycleAnswers.AnswerIsDue | llcli/delete.go:68-81 | every start and delete that has chosen did so on a status learned in the run, and is where that status leads: only a created container is started; a stopped one is destroyed, a created one killed, a running one killed only with force and otherwise refused |
| LifecycleAnswers.ChoiceDecides | llcli/start.go:41-51 | in every continuation a command about to choose ends as its status demands: a delete is refused exactly without force and with a status neither Created nor Stopped, a start finds its container stopped exactly if it is, and succeeds only if it is created |
| LifecycleAnswers.ReportIsDue | llcli/state.go:36-57 | a reported status was learned in the run: state.json said so when it was loaded, or init was gone at the last probe |
| LifecycleAnswers.UnforcedKillNeedsCreated | llcli/delete.go:72-76 | a delete without force kills only if state.json said Created at its load and init was there at its probe |
| LifecycleAnswers.RefusalNeedsRunning | llcli/delete.go:76-80 | a delete is refused only without force, with Running loaded and init there at the probe |
| LifecycleAnswers.FailureHasCause | libcontainer/container_nabla.go:252-270 | a command that failed met the failure in the run: a failed load, open or read, no state.json, no FIFO, a FIFO that ended without a byte, or a hundred answered probes |
| LifecycleEffects.CommandsTakeEffect | libcontainer/container_nabla.go:263-270 | in every run, once a start has saved, state.json never says Created again; after its success the FIFO is gone; after a delete's signal init is dead; after a full teardown the directory is gone |
| LifecycleEffects.SavesRecord | libcontainer/container_nabla.go:239-267 | each of the three saves leaves Created, Running or Stopped with the pid of init in state.json, unless the directory is gone |
| LifecycleEffects.DeleteRemovesAll | libcontainer/container_nabla.go:308-341 | a delete whose handlers do not fail leaves, for the rest of every run, no directory, no state.json, no FIFO and no tap; a removal that fails takes nothing |
| LifecycleEffects.FailureEndsInit | libcontainer/init_nabla.go:79-156 | a handler, hook or other call of init that fails leaves init dead for the rest of the run, and nothing is called after it |
| LifecycleEffects.LoggedCallsSucceeded | libcontainer/init_nabla.go:120-126 | every handler and hook that init has called, but for the last, has succeeded |
| LifecycleEffects.AliveHasNotFailed | libcontainer/init_nabla.go:79-176 | wherever init is alive, no call of it has failed in the whole run |
| LifecycleEffects.CreateLeaves | libcontainer/factory_nabla.go:119-196 | over all runs: the tap of an init that is not gone is there unless create dropped it, the FIFO is there with its directory until a byte was read, and after a successful create state.json is there with its directory |
| LifecycleEffects.CreateSucceedsExactly | llcli/util_runner.go:72-97 | a create that has ended succeeded if and only if none of its calls failed and it was not killed |
| LifecycleProgress.CreateCanSucceed | libcontainer/factory_nabla.go:94-225 | every configuration can be created under every pid, without a failing call |
| LifecycleProgress.CreatedCanBeStarted | llcli/start.go:36-47 | in every run, as long as init lives and has not written and state.json exists, one more start can succeed, with Running saved, the FIFO gone and init past the rendezvous |
| LifecycleProgress.InitCanFinish | libcontainer/init_nabla.go:146-176 | in every run an init that has written and lives can come to the user's program, or to its pause, as configured |
| LifecycleProgress.ContainerCanBeDeleted | llcli/delete.go:44-94 | in every run with create over and state.json there, one more delete can remove everything: always with force, and without it unless init lives and the status is Running |
| LifecycleProgress.StateCanBeReported | llcli/state.go:36-57 | in every run with state.json there, state can report Stopped if init is gone and otherwise the saved status |
| LifecycleTeardown.TeardownOfLiveInit | llcli/delete.go:46-58 | a directory or tap is taken from an init that is not gone exactly by a `delete` that found no state.json, or by a `create` whose start failed after the spawn |
| LifecycleTeardown.TeardownHasCause | llcli/delete.go:46-58 | before such a removal the run has a load by that `delete` that saw no state.json, or a `create` that failed to read the start time after its spawn |
| LifecycleTeardown.DestroyOnlyWhenGone | llcli/delete.go:63-93 | every destroy handler a `delete` calls is called after init has gone |
| LifecycleTeardown.KillHitsInit | libcontainer/container_nabla.go:135-146 | the pid a `delete` signals is init's and never 0 |
| LifecycleTeardown.FailedCommandRemovesNothing | llcli/delete.go:70-94 | a command that ends in any outcome but deletion or absence made no step that changed directory or tap |
| LifecycleTeardown.DeleteOutcome | llcli/delete.go:68-94 | `delete` reports deletion exactly when it called destroy, on a dead init |
| LifecycleTeardown.HandlerOrder | libcontainer/container_nabla.go:287-332 | in each phase the handler calls are a prefix of that phase's order, without Fs at create for `/pause` |
| LifecycleTeardown.CreateCleansUpAfterInit | llcli/util_runner.go:72-97 | `create` destroys only with init unborn or gone, unless `start` failed after the spawn |
| LifecycleTeardown.CreateSuccessLeavesInitAlone | llcli/util_runner.go:72-97 | at no point of a run with a successful `create` was it about to kill init, and none of its steps did anything to a born init |
| LifecycleTeardown.CreateSuccessKeepsAll | llcli/util_runner.go:95-97 | a successful `create` has called all create handlers and destroyed nothing |
| LifecycleWitness.StartCanSucceed | llcli/start.go:36-47 | there is a run in which `start` succeeds and the user's program runs |
| LifecycleWitness.StoppedCanTurnRunning | libcontainer/container_nabla.go:263-266 | there is a run in which a saved Stopped is overwritten by Running |
| LifecycleWitness.StartCanBlockForever | llcli/start.go:36-47 | there is a run in which a `start` has seen its container created and then waits for ever |
| LifecycleWitness.DeleteCanOrphanInit | llcli/delete.go:48-57 | there is a run in which `delete` removes the directory of a live init |
| LifecycleWitness.CreateCanOrphanInit | libcontainer/container_nabla.go:231-245 | there is a run in which `create` removes the directory of a live init |
| Commands.NablaContainer.CurrentStatus | libcontainer/container_nabla.go:367-393 | probes the pid and records Stopped when nobody answers; makes its process's moves |
| Commands.NablaContainer.Exec | libcontainer/container_nabla.go:252-270 | success leaves Running in memory, the FIFO removed, and on disk, if state.json is there, Running (or Stopped once init has gone), never Created; every other end leaves the state alone; blocked only when nobody has anything left to do |
| Commands.NablaContainer.Destroy | libcontainer/container_nabla.go:272-341 | calls Exec, Fs, Network in this order, with init gone; the handler that fails is returned and is the last one called, and its call is the last step of the run |
| Commands.KillContainer | llcli/delete.go:84-94 | at most 100 probes; success exactly with a destroy after a failed probe, otherwise nothing is touched |
| Commands.DeleteAction | llcli/delete.go:44-81 | for every schedule: `told` is the status learned in the run from state.json or the probe, and decides: refused exactly without force and with neither Stopped nor Created; deletion exactly when destroy handlers were called, on a dead init |
| Commands.StartAction | llcli/start.go:36-55 | for every schedule: it starts only on a learned Created; a success has consumed the byte that init wrote, removed the FIFO and left no Created on disk; with any other status it ends as that status demands |
| Commands.StateAction | llcli/state.go:36-57 | for every schedule it reports what state.json said at its load, or Stopped when init was gone at its last probe; with nobody else about, exactly that |
| Commands.Runner.FactoryCreate | libcontainer/factory_nabla.go:94-225 | the create handlers are called in order, the one that fails is returned and is the last one called, and nothing is destroyed; without failures and interference it succeeds |
| Commands.Runner.Run | llcli/util_runner.go:72-97 | after a successful start every error has killed init and waited for it before destroy; on success init was never signalled and nothing is destroyed |
| InitProgram.InitProcess.Run | libcontainer/init_nabla.go:49-176 | for every schedule: the user's program is reached only with all calls made in order, none of them failed, and the byte written; a pause container stops after the byte; any failed call means that init died; undisturbed, how it ends is decided by the FIFO and its readers |
| InitProgram.InitProcess.RunHooks | libcontainer/init_nabla.go:120-126 | the hooks run in order up to the first failure, which ends init; going on means that no hook failed |
| InitProgram.InitProcess.Rendezvous | libcontainer/init_nabla.go:146-156 | init goes on only after its byte is written, and is reported blocked, without having written, only where no reader has come and nobody else has anything left to do |
| Json.PrintRoundTrip | llruntimes/nabla/runnc-cont/rumprun.go:69-87 | what encoding/json prints parses back to the same value, member order and duplicates included |
| Json.CompactPrintedText | llruntimes/nabla/runnc-cont/rumprun.go:149-154 | compaction of a custom marshaller's text leaves printed text as it is |
| Rumprun.RumpArgs.MarshalJSON | llruntimes/nabla/runnc-cont/rumprun.go:60-103 | restores the variables it takes out; looked up by name, the parsed bytes hold each argument under its own name and one `env` member per variable in order; they do not parse when a variable is empty |
| Rumprun.SpliceIsPrint | llruntimes/nabla/runnc-cont/rumprun.go:69-101 | without empty variables the splice is the printed object with repeated members |
| Rumprun.SpliceMeaning | llruntimes/nabla/runnc-cont/rumprun.go:60-103 | the spliced bytes are valid JSON exactly when no variable is empty, and then each name holds the argument meant for it, and nothing else |
| Rumprun.EmptyVariableBreaks | llruntimes/nabla/runnc-cont/rumprun.go:64-79 | with an empty variable no members can be read, whatever else there is |
| Address.IPRoundTrip | llmodules/network/tap_bridge.go:52-55 | every IPv4 address is read back from its text, and the nil address never parses |
| Address.AtoiDecimal | llruntimes/nabla/exec_handler.go:60-63 | a printed number is read back |
| Address.AtoiIntText | llruntimes/nabla/runnc-cont/runnc_cont.go:163-176 | every 64-bit number, negative ones included, is read back from its text |
| Address.MaskLengthIsInverse | nabla-lib/network/network_linux.go:55-59 | the mask length recognises exactly the masks made from prefix lengths |
| Address.SizeMeaning | llmodules/network/tap_bridge.go:46-49 | a mask has length n exactly when it selects the first n bits and no others |
| Pipeline.CreateRumprunArgs | llruntimes/nabla/runnc-cont/rumprun.go:106-155 | an error exactly when a variable is empty; otherwise, looked up by name in the parsed text: the words, an interface whose address and gateway parse to those given and whose mask is the decimal prefix length with 32 replaced by 1, the disk, the variables and the directory |
| Pipeline.RunncCont.Run | llruntimes/nabla/runnc-cont/runnc_cont.go:135-203 | the argument vector handed to exec, or which check failed; the unikernel's path is the only field it changes |
| Pipeline.CIDRRoundTrip | llruntimes/nabla/runnc-cont/runnc_cont.go:77-83 | address and prefix length printed with a slash parse to the address and the mask of that length, and a nil address to an error |
| Pipeline.QuadReads | llruntimes/nabla/runnc-cont/rumprun.go:124-126 | an address is written as its four numbers in order, between dots |
| Pipeline.OptionsSurvive | llruntimes/nabla/exec_handler.go:51-87 | address, mask and gateway come through the options map unchanged, or the right error is given |
| Pipeline.MaskTextMeaning | llruntimes/nabla/runnc-cont/rumprun.go:113-117 | the unikernel is told the decimal prefix length, except 1 for 32 |
| Pipeline.EndToEnd | llmodules/network/tap_bridge.go:32-62 | a launch happens exactly for a sound program, a contiguous IPv4 mask, an address and a gateway; then the whole argument vector is given, and in its text the unikernel finds under each name the words, the address, gateway and prefix length that were found, the disk, the variables and the directory |
| Pipeline.MacIsDropped | llruntimes/nabla/runnc-cont/runnc_cont.go:135-182 | the launch does not depend on the hardware address |
| Pipeline.CommandLineSplits | llruntimes/nabla/runnc-cont/rumprun.go:129-132 | splitting the command line on spaces gives unikernel and arguments back exactly when none has a space |
| Copy.FileSystem.Copy | utils/copy.go:33-47 | for all paths: everything outside the destination stays and the call ends; where the copy does not land in its source it succeeds exactly when no kinds clash, the directories above allow it and all names can be used, and then is the overlay; on failure each path holds its old or its final node; a copy onto itself succeeds exactly when all names can be used and empties every file; a directory copied below itself never succeeds |
| Copy.FileSystem.DCopy | utils/copy.go:82-103 | the loop over the entries, in any order, builds the overlay; unless the source is above the destination the recursion is bounded by the depth of the source, which the copy does not add to; if it is, by the length of names, and it fails |
| Copy.FileSystem.FCopy | utils/copy.go:49-80 | content and mode are those of the source, read after the destination was truncated |
| Copy.FileSystem.MkdirAll | utils/copy.go:83-85 | makes exactly the missing directories, or fails when a file is in the way, then without a change, or when the name is too long |
| Copy.OverlayKeeps | utils/copy.go:33-103 | a copy leaves its source and every unrelated path unchanged |
| Copy.OverlayContents | utils/copy.go:33-103 | every file of the source arrives with content and mode, directories exist and keep their mode, destination-only entries survive |
| Copy.CopyTwice | utils/copy.go:33-103 | copying again is possible and changes nothing |
| Copy.BelowItselfRecurses | utils/copy.go:83-99 | why a directory copied below itself never succeeds: it lists its own copy, and that entry meets the same situation one level down |
| FileTree.FitsByEntries | utils/copy.go:92-100 | a directory fits its destination, in kinds and names, exactly when it does itself and all its entries do |
| Rootfs.PrepareRootfs | llmodules/fs/iso_storage.go:45-61 | for all mounts nothing outside the root file system changes; with files from elsewhere as sources it succeeds exactly when /etc can be made and every selected file can be copied, and each file then has the content and mode of its last mount and nothing else changed |
| Rootfs.EtcNameMeaning | llmodules/fs/iso_storage.go:52-54 | exactly the mounts whose destination is one of the three files in /etc are copied, under that name |
| State.RecordRoundTrip | libcontainer/container_nabla.go:395-402 | the handler states come back from their JSON text with all options, nil maps included, and without in-memory objects |
| State.OptionsTravel | llif/llif.go:49-64 | any number of trips through state.json and the init pipe keeps the options and only the options |
| State.Command.Template | libcontainer/container_nabla.go:351-355 | with any number of inherited files, init's reading of INITPIPE finds the pipe |
| State.Command.AttachRoot | libcontainer/container_nabla.go:198-200 | init's reading of STATEDIR finds the container directory, and INITPIPE still finds the pipe |
| Resources.RootOfId | libcontainer/factory_nabla.go:256-264 | an accepted id names a child of the root, or with `.` and `..` the root and its parent |
| Resources.DistinctRoots | libcontainer/factory_nabla.go:113-118 | distinct accepted ids have distinct directories |
| Resources.TapNameMeaning | llmodules/network/tap_bridge.go:78-83 | a tap name exists exactly from 12 characters on and tells ids apart by the first 12 |
| Resources.NablaFactory.Create | libcontainer/factory_nabla.go:94-225 | the store and outcome of every success and of every failing call |
| Resources.NablaFactory.Load | libcontainer/factory_nabla.go:227-246 | a container exactly when its state.json is there, with its record |
| Resources.Container.Destroy | libcontainer/container_nabla.go:272-341 | removes the directory, then the tap recorded at create; the store for each failing call |
| Conservation.OpBalances | libcontainer/factory_nabla.go:94-225 | every operation, wherever it fails, keeps directories and taps accounted for |
| Conservation.RunBalances | libcontainer/container_nabla.go:272-341 | so does every run of operations on any number of containers |
| Conservation.TidyExactly | libcontainer/factory_nabla.go:119-196 | on a host without strays an operation, deletes of any id included, leaves none if and only if a condition on its arguments and the host holds that can be looked up beforehand |
| Conservation.Conserved | nabla-lib/network/network_linux.go:63-110 | a run keeps directories and taps exactly those of the live containers, at every point, if and only if all its operations meet that condition; in every run the live containers' taps are pairwise distinct |
| Interleaving.StepKeepsInv | libcontainer/factory_nabla.go:119-196 | every call of a create, its undo after a failed start, its save, a destroy or a delete, failing or not, keeps directories and links accounted for while commands on other containers are under way |
| Interleaving.ConservedBetweenCalls | libcontainer/container_nabla.go:287-332 | for all interleavings of commands on different containers, each directory and each tap belongs at every moment to exactly one live container or one command, or is the host's own |
| Interleaving.CreateGoesThrough | libcontainer/factory_nabla.go:94-225 | whatever else is under way, a create whose id, directory and tap name are free ends with its container live and saved, if its calls succeed |
| Interleaving.DestroyGoesThrough | libcontainer/container_nabla.go:308-332 | and a destroy of a live and saved container leaves neither its directory nor its tap, and everything else as it was |
| Session.Runtime.CreateCommand | libcontainer/container_nabla.go:231-249 | makes the operations of a create; succeeds exactly when the start does and nothing is in the way of the container; success leaves it live with its tap, and in state.json exactly that tap and the disk in its directory; a failed start that is undone leaves the host as it was |
| Session.Runtime.DeleteCommand | llcli/delete.go:44-81 | for any id: makes the operation of a delete; touches nothing but its own container exactly when its path is not at or above the root or takes nothing there; and, unless a call fails, leaves nothing of a container whose state it could load |
| Session.Runtime.RunAll | libcontainer/factory_nabla.go:94-246 | makes exactly the operations of the commands asked for, so that the books balance, and from an exact host it stays exact at every point if and only if each command was tidy on the host it found |
| Conservation.EndsOnlyItself | libcontainer/container_nabla.go:308-341 | destroying or deleting touches no other directory and no other tap if and only if it is not a delete whose path is at or above the root and takes something there |
| Conservation.DeleteSparesOthers | llcli/delete.go:46-57 | a delete spares all other containers' directories exactly when its id is empty, its path is not at or above the root, or there are none |
| Conservation.DeleteOfDot | llcli/delete.go:53-54 | `delete .` removes every container's directory and leaves every tap |
| Conservation.WhenCreated | libcontainer/factory_nabla.go:94-225 | without failing calls, a container is made exactly when id, directory and tap name are free to use |
| Conservation.FailedCreateLeaves | libcontainer/factory_nabla.go:119-196 | a failed `Create` leaves its directory once made, and the tap exactly when only bringing it up failed |
| Conservation.WhenDestroyed | libcontainer/container_nabla.go:308-332 | a failed Fs destroy leaves the tap, a failed Network destroy leaves the directory removed, and no failure removes both |
| Conservation.DestroyUndoesCreate | libcontainer/container_nabla.go:272-341 | destroying what was created, saved or not, restores the host exactly |
| Conservation.DeleteUndoesCreate | llcli/delete.go:44-68 | deleting a created container restores the host exactly once its state is saved, and leaves exactly its tap before that |
| Conservation.SamePrefixCollides | llmodules/network/tap_bridge.go:18-22 | a second id with the same first 12 characters fails at its tap and leaves its directory |
| Conservation.StaleDestroy | llmodules/network/tap_bridge.go:64-73 | a destroy by an object whose container is gone spares all live taps exactly when none has its name |
| Conservation.StaleDestroyHappens | llmodules/network/tap_bridge.go:64-83 | for any two ids of one prefix, a late second destroy of the first takes the tap of the second |
| Conservation.CreatedWithStartedWith | llruntimes/nabla/exec_handler.go:65-79 | the tap and disk recorded at create are those in the monitor's arguments, after any number of trips |
| Signals.SignalHandler.Reap | llcli/util_signal.go:107-128 | waits until the first answer that is no exit, and returns each exit before it once, in order; a failing wait other than no child loses them all |
| Signals.SignalHandler.Forward | llcli/util_signal.go:64-103 | makes one round of reaping for every signal of a dead child; returns the status of the first exit of the process that no failing wait lost, having passed on exactly the other signals received, in order |
| Signals.EveryExitOnce | llcli/util_signal.go:78-93 | the rounds hand over every exit once and in order, if and only if no wait fails after an exit of its round |
| Signals.NoFailureNoLoss | llcli/util_signal.go:113-118 | with no failing wait but for no child, every exit is handed over |
| Signals.FirstExitDecides | llcli/util_signal.go:82-93 | when no wait fails, that is the first exit of the process |
| Templates.Stprintf | llcli/util.go:46-51 | for brace-free literals, keys and values, every map order gives the simultaneous substitution |
| Templates.ReplaceFills | llcli/util.go:47-49 | replacing one marker fills exactly the places of its key |

## Left out

- Netlink, network namespaces, the tun device, bridges and macvtap: the host is a table of links with add, delete and name clash.
- `genisoimage`, execve, hook subprocesses and their timeouts, consoles: foreign programs; hooks succeed or fail.
- Command-line wiring, flags, logging, error texts and stack traces.
- Signal tables, status names, the memory floor and the LD_LIBRARY_PATH filter: finite or single-loop facts.
- Operations that only return errors (`Run`, `Set`, `Stats`, `Processes`).
- Partial writes of state.json, blocking of the init pipe, pid reuse, symbolic and hard links, umask and permissions of the copy.
- Several generations of one id in the lifecycle modules; `Conservation` covers them for directories and taps, one operation at a time.
- IPv6 addresses: a text that is not an IPv4 address is an error here.
- filepath.Join of the container's root and the unikernel's name: the joined path is given.
- Pipeline.EndToEnd: whether net.ParseMAC accepts the hardware address, and what the files and the search path hold, are parameters, because they are calls into the host.
- Copy.FileSystem.Copy: for a directory copied onto one above it that leads to it by the name of one of its own entries, only confinement and termination are stated, because there the copy writes into what it still has to read; I/O errors and the limit on a single name are not modelled.
- Rootfs.PrepareRootfs: directories as sources, sources that are one of the three files, and sources at or above /etc get no statement about their content; the ISO image is not built.
- Resources.NablaFactory.Create: the root directory exists, and other programs leave the root and the links alone.
- Resources.Container.Destroy: a failing removal may have taken state.json, and of several directories some; other partial removals are not told apart.
- Conservation.OpBalances: each create, save, destroy and delete is one step; of what a delete removes only container directories are seen, not other files of the host.
- Interleaving.ConservedBetweenCalls: commands on one and the same directory do not overlap, and ids are those of containers; a late second destroy is the subject of `Conservation.StaleDestroy`.
- LifecycleEffects.DeleteRemovesAll: in the lifecycle modules a removal that fails removes nothing; `Resources.Container.Destroy` has the partial ones.
- Session.Runtime.DeleteCommand: whether init is gone is the subject of the lifecycle modules.
- Lifecycle.Step: ids, other members of state.json and the process's own files are not part of a container's world.
