# Firecracker Go SDK: a model of the Machine lifecycle, its set-up and its undoing

This project models the hand-written core of the Firecracker Go SDK in Dafny and proves properties
of it. `dafny verify dfyconfig.toml` verifies everything.

| part | files | what it is about |
|---|---|---|
| Lifecycle | `Lifecycle`, `CleanupStack`, `LifecycleInvariant`, `LifecycleResults`, `LifecycleProgress`, `LifecycleWitness` | `Start`, `startVMM`, the goroutines it spawns, `Wait`, `StopVMM`, `Shutdown`, `doCleanup`, over all interleavings |
| Set-up and undo | `Undo`, `HostSetup`, `Network`, `Machine` | network namespace, CNI, fifos, the cleanups each registers, and a whole `Start` |
| Handlers | `HandlerLists`, `HandlerSlices`, `Pipeline` | handler lists as values and as Go slices, their rewriting, and the trace of `Start` |
| Boot arguments | `KernelArgs`, `VmConf`, `CniUtil`, `Network`, `Machine` | validation, CNI result, `ip=`, kernel arguments, end to end |
| Jail | `JailerArgs`, `LinkFiles` | the jailer's command line; hard-linking files into the jail |
| Vsock | `VsockDial` | the dial loop and the fate of every connection it opens |

## How the pieces are modelled

**Lifecycle.** One program counter per goroutine, a flag per channel, `cleanupOnce` as a small state
of its own, the process, and any number of `Wait` and `StopVMM` callers. A label names the goroutine
that moves and resolves every choice that is not its own (a failing handler, the socket timeout, an
exit status, a cancelled context), so a step is a function and a run is a sequence of labels. The
rendezvous on the unbuffered `errCh` is one step of both ends. A goroutine's counters follow the
statements of machine.go:433-461 (`Starter`), 594-624 (`Waiter`), 645-653 (`Watcher`), 656-660
(`Publisher`), 1109-1137 (`Forwarder`), 671-686 (`Stopper`) and 479-486 (`Caller`); assigning
`fatalErr` and closing `exitCh` are separate steps at each of the three sites. `Behavior` in
`LifecycleProgress` is an infinite run, and `Fair` is weak fairness of one goroutine.

**The host.** A `World` holds the directories and files that exist, the namespaces mounted, the
CNI networks present (complete or half-done), and whether the machine's process is running. A cleanup closure is a value of `Cleanup` with an
interpreter. What the kernel, CNI plugins and the Firecracker API do wrong is an input (`Luck`).

**State in place.** Objects whose methods update fields are classes (`Machine`, `Host`, `Sockets`,
`Handlers`, `Config`); handler lists are slices over arrays that several lists may share, and growth
picks any sufficient capacity; the list of network interfaces and the drives are arrays updated in
place. Each such method is specified by functions on values, and the lemmas are about those.

**Induction.** Every inductive proof is written out, and automatic induction is off for all lemmas
(`{:induction false}`). In Dafny 4.11 the automatic hypothesis for a parameter that is a sequence of datatype values is assumed of ill-typed sequences
too, and with it some false statements about such parameters go through.

## Where the code does not do what its comments say

- `doCleanup` says the cleanups are "run in reverse order" (machine.go:304). It reads the length of
  `cleanupFuncs` anew on every turn, so a handler that registers a cleanup while the waiter is inside
  the loop shifts every later index by one: a late cleanup is called instead, and the first one
  registered is never called. `CleanupRunsAsRegistered` gives the exact condition,
  `AlwaysReversedIff` one to look at beforehand (every run is in order if and only if no handler
  after StartVMM registers a cleanup, so in the default list: if no fifo is configured), and `LateRegistrationLosesCleanup` a run
  in which the socket is never removed.
- After `waitForSocket` times out nothing receives from `errCh`, so the waiter never reaches
  `close(m.cleanupCh)` and `StopVMM` never returns (machine.go:617, 629-636).
  `CleanupClosableIffNotTimedOut` shows that this is the only such family of states.
- `Start` runs its cleanups when it fails, but stops no process (machine.go:445-452). One that was
  launched runs on, its network namespace unmounted and its CNI network deleted, and after a timeout
  it may still make a socket that nothing removes. `FailedStartLeavesVMM` and `OnlyExitEndsIt` say
  exactly when, `NobodyWatches` that after a failed wait for the socket cancelling `Start`'s context
  does not stop it either, and `Machine.Start` with `RestoredIff` what is left on the host.
- A second `Shutdown` panics on closing a closed channel (machine.go:467): `NoDoubleClose`.
- `initializeNetNS` may create several directory levels and removes only the last, and registers
  nothing for a `MkdirAll` that fails half way (network.go:404-418): `RemainsIff`, `PartwayIff`.
- `LinkFilesHandler` does not apply the default chroot base that `jail` applies
  (jailer.go:431-436 against 356-360). Without a configured base it links into a directory relative to
  the working directory, and the jail's root gets nothing unless that is the default base:
  `RootfsIffBaseFound`, `JailSafety`, `OutsideUntouched`.
- `WithSnapshot` rewrites the handlers whatever paths it is given, while `startInstance` looks at the
  paths (machine.go:174-176, 922-925). With validation disabled the snapshot load is followed by
  InstanceStart if the snapshot path is empty and so is the memory path, which is the backend's when
  one is set (snapshot.go:28-33): `StartAfterLoadIff`.
- `tryConnect` leaves the connection open when the answer is a complete line other than "OK ...",
  since the variable its deferred close looks at is nil (vsock/dial.go:189-193); the error is a
  temporary one, so the loop goes on and each such answer leaks one more: `Dial`, `LeakedCount`.
- `DialContext` promises to retry "up to a fixed timeout", but `RetryTimeout` is never read
  (vsock/dial.go:32, 92-93, 114-143): by `Dial` the loop ends only with a cancelled context, a connection or
  an error that is not temporary.
- `NewMachine` appends to a global handler list (machine.go:381, 386). Two machines share the element
  they append exactly when that list has capacity to spare: `AppendTwice`.

## Model

| member | source | states |
|---|---|---|
| CleanupStack.RegisterKeeps | machine.go:584-592 | Registering any number of cleanups, before, during or after the one pass, keeps the log of the pass consistent. |
| CleanupStack.CallKeeps | machine.go:304-307 | Each turn of the loop calls an existing cleanup, whatever was registered meanwhile: the index it computes is never negative. |
| CleanupStack.PassIsCountdown | machine.go:301-311 | A finished pass called every cleanup registered before it once, last first, if and only if nothing was registered while calls were left; otherwise the first one was never called. |
| CleanupStack.NonNilListed | machine.go:304-310 | The errors collected are one for each cleanup that returned an error, in the order of the calls, each naming its cleanup. |
| LifecycleInvariant.StepKeeps | machine.go:556-664 | Any step of any goroutine keeps the invariant of the protocol, and never changes a settled value: fatalErr after exitCh is closed, the process result once reaped. |
| LifecycleInvariant.ReachableInv | machine.go:433-686 | The invariant holds after every interleaving of Start, waiter, publisher, watcher, forwarder, Wait and StopVMM callers. |
| LifecycleInvariant.NoDoubleClose | machine.go:464-476 | In every reachable state: a close of a closed channel or a send on one has happened exactly when Shutdown was called twice. So exitCh, errCh and cleanupCh close at most once although three sites close exitCh. |
| LifecycleInvariant.VerdictHolds | machine.go:575-582 | Once exitCh is closed fatalErr is the start error, the wrapped socket-wait error or the combined wait and cleanup error, according to how startVMM ended; `WaitReturns` says what these are. |
| LifecycleInvariant.WaitAgrees | machine.go:478-486 | From the moment exitCh is closed, fatalErr never changes in any continuation, and every Wait that returned through exitCh got that same value. |
| LifecycleInvariant.WaitNeverEarly | machine.go:479-486 | A Wait that returned a value did so after exitCh was closed, with the value startVMM's outcome dictates. |
| LifecycleInvariant.StopMeansCleaned | machine.go:671-686 | StopVMM returning nil after finding a process means the process was waited on and the one pass over the cleanups is over. |
| LifecycleResults.WaitReturns | machine.go:479-486 | What any Wait returns, in every reachable state: the launch error if startVMM could not launch; after a socket timeout, the wrapped timeout; otherwise nil if and only if the process exited cleanly and, when the waiter ran the cleanups, each of them returned nil, and else the process's exit error followed by the cleanups' errors in the order of the calls, wrapped if the wait for the socket saw it first. |
| LifecycleResults.ProcessShown | machine.go:566-597 | The launch error and the exit error in such a result are those of the steps of the run that refused the launch or ended the process. |
| LifecycleResults.CallersAccounted | machine.go:671-686 | A Wait gives up only if its own context ended. A StopVMM answers nil without a signal only if it found no process, waits for the cleanup only after signalling, and returns an error only if its signal failed. |
| LifecycleResults.StopWaits | machine.go:671-686 | A StopVMM called once there is a process, running or not, never takes it for not started, and in no continuation returns nil before cleanupCh is closed, the process waited on and the pass over the cleanups finished. |
| LifecycleResults.WaitServed | machine.go:479-486 | Once exitCh is closed, every waiting caller can go on to return fatalErr. |
| LifecycleResults.StopSignals | machine.go:671-681 | A StopVMM that looks while there is a process can go on to signal it and wait for the cleanup, |
| LifecycleResults.StopServed | machine.go:679-681 | and once cleanupCh is closed can return nil. |
| LifecycleResults.WatcherAccounted | machine.go:641-653 | The watcher stops the VM only after the context of Start ended, and is done only after the VM exited, or the cleanup was over, or its signal failed. |
| LifecycleResults.DaemonWaits | machine.go:597-604 | In every run, a daemonized jailer parent that exited cleanly holds the waiter back until Shutdown is called: no cleanup by it, no result, no closed errCh or cleanupCh; and the waiter waits for Shutdown in no other case. |
| LifecycleInvariant.FailedStartProcess | machine.go:575-592 | When a failed Start has returned, there is a process, running, exited or waited on, if and only if startVMM failed in the wait for the socket or succeeded. |
| LifecycleInvariant.OnlyExitEndsIt | machine.go:445-452 | No step of any goroutine ends a live process, Start's deferred cleanups included; only its own exit does. |
| LifecycleInvariant.NobodyWatches | machine.go:629-653 | After a failed wait for the socket there is never a watcher of Start's context. |
| LifecycleInvariant.CleanupRunsAsRegistered | machine.go:301-311 | Across Start's deferred doCleanup and the waiter's, each cleanup registered before the once fired ran exactly once in reverse order, if and only if none was registered while calls were left; the collected errors are the non-nil results in the order of the calls. |
| LifecycleInvariant.CleanupReversedUnlessLate | machine.go:301-311 | In every run in which no handler after StartVMM registers a cleanup, the finished pass is the exact reverse of the registrations. |
| LifecycleWitness.AlwaysReversedIff | machine.go:301-311 | Of the runs in which the handlers after StartVMM register only the given numbers of cleanups, every finished pass is the exact reverse of the registrations if and only if none of the numbers is positive. |
| LifecycleProgress.PushDescends | machine.go:594-624 | The next step towards closing cleanupCh lowers a rank over the program counters and keeps the state one from which cleanupCh can be closed. |
| LifecycleProgress.CanClose | machine.go:594-624 | From every state with a started process and no socket timeout, some continuation closes cleanupCh. |
| LifecycleProgress.TimedOutNeverCloses | machine.go:629-636 | After a socket timeout no continuation closes errCh or cleanupCh. |
| LifecycleProgress.CleanupClosableIffNotTimedOut | machine.go:617-636 | Among reachable states with a started process, those from which cleanupCh can still close are exactly those in which waitForSocket has not timed out. |
| LifecycleProgress.HelpfulCanAct | machine.go:594-660 | While startVMM has succeeded, the process is gone and a channel is open, there is one goroutine that is able to move. |
| LifecycleProgress.StepRanks | machine.go:594-660 | Then every step of any goroutine either lowers the rank, or changes neither the rank nor which goroutine is awaited; the awaited one always lowers it. |
| LifecycleProgress.ShutdownCompletes | machine.go:594-660 | In every fair infinite run, once startVMM has returned nil and the process is gone (and Shutdown was called, for a daemonized parent that exited cleanly), errCh, cleanupCh and exitCh all become closed. |
| LifecycleWitness.LateRegistrationLosesCleanup | machine.go:301-311 | A reachable run in which a handler registers inside the pass and cleanup 1 is called in place of cleanup 0. |
| LifecycleWitness.TimeoutReachable | machine.go:629-636 | A live process with a timed-out socket wait is reachable. |
| LifecycleWitness.FailedStartLeavesVMM | machine.go:445-452 | A failed Start can return with all cleanups run and the process alive if and only if startVMM failed in the wait for the socket or succeeded. |
| Undo.UnwindsCompose | network.go:114-124 | If one stage's cleanups lead back to where it started, and the next stage's lead back to where the first ended, then the concatenated list leads all the way back. |
| Undo.UnwindsDetached | network.go:345-352 | Cleanups of files and mounts work the same, and end the same, whether or not a CNI network of an earlier run is there. |
| Undo.NoFailuresIff | machine.go:304-307 | doCleanup reports nothing exactly when each cleanup finds its precondition true at its turn. |
| Undo.FailuresListed | machine.go:304-310 | The failures reported are exactly the cleanups whose precondition is false once all those registered after them have run, the one registered last first. |
| Undo.FirstRunsLast | machine.go:304-307 | The cleanup registered first runs after all others. |
| Undo.UndoKeepsWellFormed | machine.go:304-307 | Running any cleanups, failing ones included, keeps the file system a tree and its mounts on files. |
| Undo.UnwindsBeside | machine.go:304-307 | Whether the process runs makes no difference to the cleanups, nor they to it. |
| Undo.UnwindsAround | handlers.go:150-156 | A file that no cleanup names, in a directory none names, makes no difference to the cleanups and stays. |
| HostSetup.LevelsWellFormed | network.go:405 | Creating the missing levels of a path, fully or in part, keeps the file system a tree. |
| HostSetup.LeftoverIff | network.go:404-418 | Making the parent directories and removing the last one leaves nothing behind if and only if at most one level was missing. |
| HostSetup.PartwayIff | network.go:405-408 | A failing MkdirAll leaves nothing if and only if it made no level or at most one was missing. |
| HostSetup.RemainsIff | network.go:380-473 | What initializeNetNS and its cleanups leave of the missing levels is nothing if and only if at most one was missing, or it ended before making one. |
| HostSetup.MakeParent | network.go:402-421 | Creates the parent directory if it must, and says which error ends it; a failing MkdirAll leaves exactly the levels it made and no cleanup; with at most one level missing the cleanups lead back to the start, at every failure point. |
| HostSetup.MountNamespace | network.go:423-473 | Creates the file and mounts a namespace on it, exactly when nothing goes wrong; at each failure point its cleanups lead back exactly. |
| HostSetup.InitializeNetNS | network.go:380-473 | Succeeds exactly when the path is a namespace or can be made one; afterwards it is one; however it ends, and however many levels were missing, the cleanups lead back to the start plus exactly the levels `Remains` names. |
| HostSetup.InvokeCNI | network.go:320-376 | Succeeds exactly under the stated conditions and leaves the network complete; touches no other network; registers its DEL exactly when the configuration is found and the first DEL works or is forced; from then on, before an ADD may have happened, that DEL takes everything away, half-done additions included. |
| HostSetup.CreateFifoOrFile | handlers.go:136-158 | Succeeds exactly when the fifo can be made, or the log file made or opened, and changes nothing otherwise; its cleanups lead back to the start if and only if it failed or made no new log file. |
| Network.CheckCNI | network.go:285-295 | Accepts a CNI configuration exactly when one of network name and network configuration is given. |
| Network.CheckStatic | network.go:490-537 | Accepts a static configuration exactly when it has a device and, if it has an IP, IPv4 addresses and at most two nameservers. |
| Network.Validate | network.go:46-93 | Accepts a list exactly when each interface is configured one way and well, and an interface with CNI or an IP is alone and the user gave no "ip" argument. |
| Network.SelectionUnambiguous | network.go:164-196 | In an accepted list an interface with CNI or static IP is the only interface, so every first-match selection finds it, and "ip" is not among the kernel arguments. |
| Network.CniInterface | network.go:164-175 | Returns the first interface with CNI configuration, or none exactly if there is none. |
| Network.StaticIPInterface | network.go:178-196 | Returns the first interface whose static configuration has an IP, or none exactly if there is none. |
| Network.DefaultsComplete | network.go:297-309 | Set-up keeps every CNI setting the user made, and gives "/opt/cni/bin", "/etc/cni/conf.d" and "/var/lib/cni/" with the container ID to those left empty. |
| Network.SetUpHost | network.go:112-124 | Namespace, then CNI: succeeds exactly when both do; at every failure point the cleanups of both together lead back to exactly `SetupBase`: the start, the levels `Remains` names, and without a network of an earlier run if and only if the DEL was registered. |
| Network.ReadResult | network.go:129-158 | The static configuration made from a CNI result says what the result says of the VM interface: its MAC, the tap's name, its one IP, and the first two nameservers; it fails exactly when the result does not name one of each. |
| Network.SetupNetwork | network.go:96-161 | Succeeds exactly when namespace, CNI and result parsing do; changes only the first interface with CNI, and fills it with what the result says, the user's CNI settings kept; attaches the VM to the network of the parsed configuration, or else to the one of the name; at every failure point, and after success, the cleanups lead back to exactly `SetupBase`, and remove nothing that was there before. |
| Network.CreateNetworkInterfaces | machine.go:520-528 | If every interface has a static configuration, no "invalid nil state" error is possible; such an error means one has none; success means the API took every interface. |
| Machine.StoredStringReads | machine.go:506-518 | For any map iteration order, the stored kernel string parses to exactly the user's arguments plus "ip" if and only if the device name and nameservers hold no white space. |
| Machine.ArgsTell | network.go:539-551 | If the stored string carries the arguments meant, then whoever parses it finds the user's arguments if no interface has an IP; otherwise the user's with "ip" for the first that has one, and the ten colon-separated fields there are its address, gateway, mask, device and first two nameservers in the kernel's places if and only if device and nameservers hold no colon. |
| Machine.UserArgsKept | network.go:67-75 | For an accepted configuration no user argument is lost or overwritten and the only new key is "ip", with one interface. |
| Machine.RunReversed | machine.go:304-307 | Runs the cleanups last first; the world is that of the interpreter and the failures are reported in the order of the calls. |
| Machine.Machine.DoCleanup | machine.go:301-311 | The first call runs every registered cleanup once in reverse and reports the failures in that order; later calls change nothing. |
| Machine.Machine.SetupKernelArgs | machine.go:506-518 | The stored string, parsed again, is the user's arguments plus "ip" if and only if the IP configuration is plain; and then "ip" reads, field by field, as the IP configuration of the first interface that has one (`KernelTold`). |
| Machine.Machine.Prepare | machine.go:498-518 | Validation, SetupNetwork and SetupKernelArgs in sequence: on success the socket path was free, every interface is ready and the kernel is told the user's arguments and the sole interface's IP configuration, field by field; at every failure point and on success the registered cleanups lead back to exactly `Floor`. |
| Machine.Machine.BootProcess | handlers.go:129-183 | From the launch to the last API handler, the process runs exactly if it was launched and has not exited by itself; the cleanups registered so far take everything back to `Base`, the floor and the new log files, if the configured paths are `Apart`. |
| Machine.Machine.ConfigureProcess | handlers.go:161-183 | A log or metrics file's error says which of the two failed and why; the new log files, as far as they were made, disturb no cleanup registered before. |
| Machine.Machine.CreateLogFiles | handlers.go:161-183 | Metrics then log: succeeds exactly when each can be made or opened in turn; the cleanups leave exactly the new log files that were made; after success they lead back to the start if and only if no log file is new. |
| Machine.Machine.Start | machine.go:433-461 | A failed Start ends no process: one it launched is running afterwards unless it exited by itself. No cleanup fails, and what is left is exactly `LeftBehind` of `Base`: the host at the start, levels above the namespace path, new log files, the process and its late socket, less a CNI network of an earlier run. The host is as it was if and only if there is none of these (paths that are `Apart`). A successful Start leaves cleanups that lead to the same `Base`, every interface ready, and a boot string that parses to the user's arguments and, field by field, the sole interface's IP configuration; every error has its cause, and "invalid nil state" never occurs. |
| Machine.Machine.CleanUpAfter | machine.go:445-452 | The deferred doCleanup: fires once, touches no process, and leaves what `LeftBehind` says, with a socket made afterwards by a process still running. |
| Machine.FloorIff | network.go:345-363 | The host the cleanups lead to is the one at the start, new log files aside, if and only if at most one level was missing or none was made, and no network of an earlier run was taken away. |
| Machine.RestoredIff | machine.go:445-452 | What a failed Start leaves is the host at the start if and only if no process outlives it, set-up left no level and took no network, and no log file is new. |
| Machine.LogsBeside | handlers.go:150-156 | Log files made in old directories leave every cleanup registered before them working, and stay. |
| Machine.SetUpIsReady | network.go:126-161 | An accepted list after a successful set-up has a static configuration with at most two nameservers on every interface. |
| HandlerLists.SnapshotNormalForm | opts.go:79-85 | Removing the snapshot list's handlers one by one, in any order, and appending LoadSnapshot is an order-preserving filter followed by LoadSnapshot. |
| HandlerLists.RemoveEachIsFilter | handlers.go:447-456 | Removing names one after another is one filter by the set of names. |
| HandlerLists.AfterWithout | handlers.go:389-401 | Inserting after a name and removing other names commute. |
| HandlerLists.SnapshotCommutesWithChroot | jailer.go:523-534 | The snapshot rewriting and the chroot strategy commute on every list, failures included. |
| HandlerLists.RewritesKeep | opts.go:65-85 | Any sequence of the two rewritings keeps the order and number of SetupNetwork and StartVMM handlers, and once a chroot was among them each CreateLogFiles is directly followed by LinkFiles. |
| HandlerLists.DefaultSpine | handlers.go:304-316 | Every list reachable from the default one has exactly one StartVMM, and one SetupNetwork before it. |
| HandlerLists.AdaptedIs | jailer.go:523-534 | The chroot strategy needs a handler that creates log files; then each of them has the new handler directly behind it, and without the new ones the list is as before. |
| HandlerLists.DefaultSnapshot | opts.go:79-85 | Of the default FcInit list the snapshot option makes exactly: SetupNetwork, StartVMM, CreateLogFiles, BootstrapLogging, AddVsocks, LoadSnapshot. |
| HandlerSlices.GoAppend | handlers.go:382-386 | Go's append: in place while the capacity lasts, otherwise into a new array of any sufficient size. |
| HandlerSlices.Append | handlers.go:382-386 | No element below the receiver's own length changes; beyond the capacity the result shares nothing with it. |
| HandlerSlices.Prepend | handlers.go:375-379 | The argument's array, not the receiver's, is the one that may be written. |
| HandlerSlices.AppendAfter | handlers.go:389-401 | Writes no array it was given; the new handler directly follows each handler of the name. |
| HandlerSlices.Swap | handlers.go:421-433 | Writes no array it was given; replaces every handler of the name, in place in the order. |
| HandlerSlices.Remove | handlers.go:447-456 | Writes no array it was given; the result is the list filtered by the name. |
| HandlerSlices.HasHandler | handlers.go:410-418 | True exactly when a handler has the name. |
| HandlerSlices.Swappend | handlers.go:437-443 | Replaces if the name occurs, appends otherwise; the receiver's elements stay. |
| HandlerSlices.ClearThenAppend | handlers.go:459-462 | Appending to a cleared list overwrites the original list's elements exactly when the new ones fit its capacity. |
| HandlerSlices.AppendTwice | machine.go:378-388 | Of two appends to one shared list, the second replaces the first one's handler exactly when the list had capacity to spare. |
| HandlerSlices.ModifyHandlersForLoadSnapshot | opts.go:79-85 | The result is the normal form and shares no storage with the list it was made from. |
| HandlerSlices.AdaptHandlers | jailer.go:523-534 | Fails and changes nothing if CreateLogFiles is missing; otherwise the new FcInit list has LinkFiles after each and shares no storage with the old, so the global default list stays untouched. |
| HandlerSlices.WithSnapshot | opts.go:65-77 | Both lists are rewritten into fresh storage: FcInit to the normal form, validation without the configuration validation and with the snapshot's last. |
| Pipeline.Machine.Run | handlers.go:466-476 | Runs the handlers up to and including the first that fails, and no further. |
| Pipeline.Machine.Start | machine.go:433-461 | A second Start does nothing; the first runs the handlers asked for, in order, up to the first failure: the validations and then FcInit, or FcInit alone if validation is disabled; exactly the validations up to the failed one if one fails; all of them if it reports success. It leaves their trace and that of the start action, and succeeds exactly when all handlers do and the action is accepted or not needed. |
| Pipeline.StartRepeatedly | machine.go:433-444 | Any number of Starts in a row run the handlers asked for once: what ran is as said of `Start`. |
| Pipeline.StartAsAsked | handlers.go:355-366 | The handlers in the trace of a Start are a prefix of validations and FcInit, or of FcInit if validation is disabled, ending after the first failure or at the end; with validation enabled and the first failure at validation i, they are the validations up to i. |
| Pipeline.HandlersRunAsPrefix | handlers.go:355-366 | Over any number of Starts the handlers run once in all, as the prefix up to the first failure; after a failed validation no FcInit handler runs. |
| Pipeline.StartActionLast | machine.go:922-939 | InstanceStart is issued at most once, as the last event, exactly when all handlers succeeded and no snapshot is configured, judged by the effective memory path and the snapshot path. |
| Pipeline.RewritesTame | opts.go:65-85 | Any rewriting of a list that includes the snapshot option leaves only handlers that configure nothing but logger and metrics, and LoadSnapshot. |
| Pipeline.SnapshotLoadedFresh | client/operations/operations_client.go:307-309 | In snapshot mode, jailed or not, without vsock devices, the only API calls besides the snapshot load read the machine configuration or configure logger or metrics. |
| Pipeline.VsocksBreakFreshness | opts.go:79-85 | With a vsock device it is otherwise: a run configures the device and then loads the snapshot. |
| Pipeline.StartAfterLoadIff | machine.go:174-176 | In a run of a rewritten list in which nothing fails, the snapshot load is followed by InstanceStart if and only if the snapshot path is empty and so is the memory backend's, or the memory file's when no backend is set. |
| KernelArgs.ParseKernelArgs | kernelargs.go:41-58 | A key is in the map if and only if some field gives it, as "key" or "key=value", and then with what the last such field gives. |
| KernelArgs.LastFieldWins | kernelargs.go:43-55 | For each key, the map has the value of the field that gives it and is followed by none that does. |
| KernelArgs.FieldsSplit | kernelargs.go:43 | White space anywhere separates the fields before it from those after it; |
| KernelArgs.FieldsWord | kernelargs.go:43 | and text without white space is one field. |
| KernelArgs.KernelArgsString | kernelargs.go:28-38 | The loop prints the map in the order it is iterated in. |
| KernelArgs.PrintedFields | kernelargs.go:28-38 | What is printed of a well-formed map is one field for each entry, giving that key that value, in the order of the iteration. |
| KernelArgs.ParsePrint | kernelargs.go:28-58 | Parsing what was printed, in any iteration order, gives the map back, for every well-formed map. |
| KernelArgs.ParsedWellFormed | kernelargs.go:41-58 | Everything the parser returns is well formed: keys without white space or "=", values without white space, no empty key without value. |
| KernelArgs.RoundTripIff | kernelargs.go:28-58 | A map survives printing and parsing if and only if it is well formed, whatever the order. |
| KernelArgs.ParsePrintParse | kernelargs.go:28-58 | parse, print, parse equals parse on every string and order. |
| CniUtil.FilterStable | cni/internal/cniutil.go:41-53 | A filter keeps exactly the satisfying elements, in order. |
| CniUtil.FilterBySandbox | cni/internal/cniutil.go:41-53 | The loop computes the two filters, inside the sandbox and outside it. |
| CniUtil.PartitionBySandbox | cni/internal/cniutil.go:41-53 | The two lists together hold exactly the interfaces given. |
| CniUtil.IfacesWithName | cni/internal/cniutil.go:56-66 | The loop computes the filter by name. |
| CniUtil.VMTapPair | cni/internal/cniutil.go:70-104 | Answers, error cases included, what the two filtered lists say. |
| CniUtil.TapPairIff | cni/internal/cniutil.go:70-104 | Succeeds exactly when one interface is in the VM's sandbox and one outside it has its name, and returns those two. |
| CniUtil.TapPairPermutes | cni/internal/cniutil.go:70-104 | Success, result and error do not depend on the order of the interfaces. |
| CniUtil.InterfaceIPs | cni/internal/cniutil.go:24-38 | The loop computes the IPs whose interface has the name and sandbox, in order. |
| CniUtil.VMInterfaceIPs | cni/vmconf/vmconf.go:164-175 | For the VM interface found, these are exactly the IPs whose index points at it. |
| VmConf.DottedReads | cni/vmconf/vmconf.go:98-147 | A printed IPv4 address decodes to its four bytes. |
| VmConf.BootParamDecodes | cni/vmconf/vmconf.go:98-147 | Splitting the printed value on colons gives ten fields that decode to the original, with exactly the first two nameservers, if and only if device and those nameservers hold no colon. |
| VmConf.BootParamInjective | network.go:539-551 | Two configurations that print alike configure the VM alike. |
| VmConf.BootParamIsWord | cni/vmconf/vmconf.go:98-147 | The value holds no white space if and only if the device and the two nameservers do not. |
| VmConf.StaticNetworkConfFrom | cni/vmconf/vmconf.go:152-199 | Succeeds exactly when the result names one VM interface, one tap and one IP of that interface and the host answers; the configuration is made of those and of the result's routes and resolver settings. |
| JailerArgs.Args | jailer.go:145-187 | The step-by-step construction builds the command line of the specification. |
| JailerArgs.ArgsDecode | jailer.go:145-187 | A positional reader recovers id, uid, gid, exec file, all cgroup entries (the two cpuset files, then the user's), every optional field, the daemonize flag and the firecracker arguments, even when values look like flags. |
| JailerArgs.ArgsInjective | jailer.go:145-187 | Two builders with the same command line mean the same. |
| JailerArgs.UserCgroupsWin | jailer.go:226-231 | Under a last-wins reading the user's setting of a file takes precedence over the NUMA one, which stands where the user has none. |
| JailerArgs.NumaSettings | jailer.go:153-157 | The NUMA part sets exactly "cpuset.mems" to the node and "cpuset.cpus" to its CPU list, or nothing when the list cannot be read. |
| JailerArgs.JailerSettings | jailer.go:226-231 | Reading the command line with the last setting winning, each cgroup file is set as the user said, or else "cpuset.cpus" and "cpuset.mems" as the NUMA node asks, or not at all. |
| LinkFiles.JailIsBelow | jailer.go:354-361 | The jail's root is the base directory, configured or "/srv/jailer", then the file name of the executable, the id, "root". |
| LinkFiles.JailsApart | jailer.go:354-361 | Jails with different ids have different roots, and nothing linked for one is an entry of the other's root, whatever their base directories. |
| LinkFiles.RootfsIffBaseFound | jailer.go:354-361 | The directory linked into is the jail's root if and only if a chroot base directory is configured or the default one is the working directory; otherwise no name stands in both. |
| LinkFiles.SourceIsOriginal | jailer.go:438-461 | Whether a link works can be judged from the files at the start: no earlier link of the run is ever the source of a later one. |
| LinkFiles.GoesIff | jailer.go:422-500 | The whole plan goes through, other failures aside, if and only if every source existed at the start and the names are new in the jail and pairwise distinct. |
| LinkFiles.LinkDrives | jailer.go:454-467 | Each drive is linked under its base name and renamed in place; a failure names the drive and leaves the earlier links. |
| LinkFiles.LinkFifo | jailer.go:474-495 | A fifo is linked, handed over and renamed; a failed hand-over comes after the link was made. |
| LinkFiles.LinkFilesHandler | jailer.go:422-500 | Succeeds exactly when the whole plan goes through and the fifos can be handed over; either way the files are exactly those at the start plus the links made. |
| LinkFiles.LinkSafety | jailer.go:422-500 | After a plan that went through, each planned name carries the inode its own source named at the start, the names are distinct, and every file there was is unchanged. |
| LinkFiles.JailSafety | jailer.go:354-361 | Seen from the jail's own root, a planned name is its source's inode if and only if a base directory is configured, or the default one is the working directory, or the name was that inode there before. |
| LinkFiles.OutsideUntouched | jailer.go:431-436 | Without either, no entry of the jail's root directory changes. |
| LinkFiles.NewNameInJail | jailer.go:431-436 | A name that is new in the jail's root leads to its file there if and only if a base directory is configured or the default one is the working directory. |
| LinkFiles.LinkSafely | jailer.go:422-500 | On success every rewritten configuration path is the inode its original host path named at the start when looked up in the directory linked into; when looked up in the jail's own root it is so if and only if a base directory is configured, or the default one is the working directory, or it was so before. The rewritten paths are pairwise distinct, and no file is lost. |
| VsockDial.TemporaryThrough | vsock/dial.go:227-267 | Wrapped any number of times, a net.Error is as temporary as it says, a failed acknowledgement is temporary, a failed connect message and any other error are not. |
| VsockDial.ConnectMsgReads | vsock/dial.go:146-152 | The connect message is one line, and the port can be read back from it. |
| VsockDial.ReadsFirstLine | vsock/dial.go:202-207 | However the bytes arrive, the first line is read, or an error if there is none; bytes that arrived with it are dropped and stand right after it. |
| VsockDial.Handshake | vsock/dial.go:172-194 | Succeeds exactly on the promised answer to a fully written message; the variable the deferred close looks at is nil exactly when a complete line came back; errors before the message is written are not temporary, later ones are. |
| VsockDial.TryConnect | vsock/dial.go:156-195 | Returns a connection exactly when acknowledged; closes what it opened exactly when no complete line came back; its error is temporary exactly when dialing failed so or the message was written. |
| VsockDial.Dial | vsock/dial.go:114-143 | The first event that is not a temporary failure decides, alone; a connection comes only from an attempt that wrote the whole message and read a line starting with "OK "; nothing but the returned connection is newly open if and only if no answer was bad, and each bad one leaves one more. |
| VsockDial.BooksBalance | vsock/dial.go:189-193 | What was open, what leaked and what is returned are disjoint, so the counts add up and equality holds exactly without a leak. |
| VsockDial.LeakedCount | vsock/dial.go:189-193 | Exactly one connection is leaked for each complete answer that lacks "OK ". |
| VsockDial.NoLeakIff | vsock/dial.go:189-193 | Nothing is leaked if and only if every complete answer was the promised one. |

## Left out

- Machine.Machine.Start: speaks of what is left only for paths that are `Apart`: the socket is not above the namespace path, the log is not written to the metrics fifo, and a new log file is made in a directory that existed, is not the socket and not above the namespace path. Where paths collide, a cleanup may find its precondition false.
- Machine.Machine.Start: a late socket is made once the cleanups are over, not between two of them; when the process exits by itself the waiter's doCleanup is not interleaved here.
- Machine.Machine.Start: covers the default, unjailed handler list on a machine with validation enabled, in one thread; the interleavings with the waiter are the subject of the lifecycle modules.
- LifecycleInvariant.NoDoubleClose: assumes that StartVMM occurs once in the handler list, as it does in every list `DefaultSpine` describes.
- LifecycleInvariant.OnlyExitEndsIt: signals, and the kill that os/exec performs when the context given to NewMachine is cancelled, are part of the process's own exit, which may come at any time.
- LifecycleInvariant.CleanupRunsAsRegistered: treats each registration as one atomic step; the data race between appending to `cleanupFuncs` and reading it is not modelled.
- VmConf.BootParamDecodes: IPv4 addresses, gateway and 4-byte mask only; a CNI result with an IPv6 address or without a gateway is outside the model.
- CniUtil.InterfaceIPs: requires interface indices in range, as Go panics otherwise.
- LinkFiles.LinkFilesHandler: paths are lists of segments without `..`, "." and repeated separators, and a file name is one segment; the symbolic links and the cleaning that filepath.Join performs are not modelled. Files are entries that name inodes, so that linking a directory, or a name on another file system, is one of the failures that may happen at any link.
- VsockDial.Dial: sees a finite prefix of the events; when it is used up the loop is still trying. Tickers, deadlines and byte counts inside one Read are inputs.
- JailerArgs.Args: uid and gid are unbounded integers, and unset pointers are outside the model. `getNumaCpuset` is the `cpulist` field.
- Wall-clock time, tickers and timeouts: a timeout is a choice that is always open.
- System calls, exec, libcni and netlink: an abstract world and free choice of success or failure.
- HTTP calls to Firecracker: events in a trace; bodies, marshalling and the generated client are not modelled, nor are `setMmdsConfig`'s address check, metadata, balloon and rate limiter updates.
- `captureFifoToFile`, logging, error texts and UUID generation.
- `Config.Validate` and the jailer's validations: handlers that succeed or fail, but for the demand that the socket path be free.
- `listener.go`: accepting connections on the guest side, a retry loop of the same shape without a handshake.
- User handlers: may fail, make any API call but the start action, and register any number of cleanups.
