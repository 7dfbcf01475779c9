# orchard runtime-state protocol, shim lifecycle and VM state machine in Dafny

orchard manages virtual machines on one host. A short-lived controller process
starts a detached per-VM supervisor process, the *shim*. The two coordinate
only through files in the VM's directory `<base>/vms/<name>`:

- a lock directory `vm.lock.d`, whose creation is all-or-nothing;
- a pid file `vm.pid`, holding `"%d\n"` of the shim's pid;
- a ready marker `vm.ready`, published only after the pid file.

Both markers are written to a `.tmp` sibling and renamed into place. Before each
launch, the controller reclaims whatever a crashed shim left behind. It then
polls for the ready marker, reading every 100 ms for at most 15 s.

This project models that protocol over an abstract POSIX filesystem. Each
operation is specified by a pure function of the filesystem state. The methods
that perform the same steps one primitive at a time are proved to end in that
state. Lemmas state what the functions promise.

Modules, one per component:

- `Base`, `Text`, `FileSystem`: paths, errors, `%d`/`%03d`/`fmt.Fscan`/`strings.TrimSpace`, and the filesystem itself. `FileSystem.Host` is the one shared filesystem, with a ghost history of every state it has passed through.
- `Domain`: the VM record, name allocation and the `CreatedAt` order.
- `RunState`: the runtime-state coordinator (`internal/runstate/fs/fs.go`).
- `FsStore`, `MemStore`: the two VM stores.
- `ShimRun`: the shim child (`RunChild`).
- `ShimManager`: the launcher, i.e. the controller side of the shim.
- `Application`: `Up`, `Start`, `Stop`, `Delete`, `Status`, `IP`.
- `CloudConfig`, `Seed`, `CloudInit`: the two NoCloud seed generators.

`ShimRun.RunChild` proves two things:

- It ends in the state `Lifecycle` gives.
- It keeps the pid-before-ready order in every intermediate state it creates, for every VM. No state shows a ready marker without its pid file unless the run started in such a state. Other processes may read any of these states.

Behaviour of the code worth noting, which the model follows:

- `Manager.Stop` returns the signalling error unchanged. A process that is already gone is an error, not a success.
- `Manager.GetPID` reads the pid file and does not check that the process is alive.
- `RunChild` does not start a virtualization provider. It publishes the pid and ready marker, then blocks until it is signalled or cancelled.
- Cancelling the wait returns the context's error, and a timeout returns `fmt.Errorf("timeout waiting for readiness of %s")`. These are `ContextCanceled` and `ReadinessTimeout` here.

Some call sites in the repository call functions with a different number of arguments than those functions declare: `New` in the application, `RunChild` from the CLI, and `shimproc.New`. The model follows each function body as written.

## Model

| member | source | states |
|---|---|---|
| `RunState.Paths` | internal/runstate/fs/fs.go:29-34 | pid, ready and lock are `vm.pid`, `vm.ready`, `vm.lock.d` in `baseDir/vms/<name>`. The three are pairwise distinct and share that one parent. |
| `RunState.PathsApart` | internal/runstate/fs/fs.go:29-34 | the `.tmp` staging paths differ from the three markers, and no marker or staging path lies inside the lock directory |
| `RunState.PathsOfDistinctVms` | internal/runstate/fs/fs.go:29-34 | two different VM names have different pid, ready and lock paths, and neither VM's lock directory contains the other's markers |
| `RunState.Service.constructor` | internal/runstate/fs/fs.go:27 | the service keeps the base directory and the filesystem it is given |
| `RunState.AcquireWhenHeld` | internal/runstate/fs/fs.go:36-46 | an existing lock directory makes `AcquireLock` fail with "lock in use" wrapping EEXIST, and nothing changes |
| `RunState.AcquireWhenFree` | internal/runstate/fs/fs.go:36-46 | a successful acquire found no lock. Afterwards the lock directory exists, no file changed, and only directories on the way to the lock were added. |
| `RunState.AcquireExclusive` | internal/runstate/fs/fs.go:36-46 | two acquires with no release between them cannot both succeed: the second returns "lock in use" |
| `RunState.ReleaseThenAcquire` | internal/runstate/fs/fs.go:45 | after the release closure removes the lock directory, `AcquireLock` succeeds again |
| `RunState.Service.AcquireLock` | internal/runstate/fs/fs.go:36-46 | the `MkdirAll` and `Mkdir` steps end in the state and result of `Acquire`; the release handle is the lock path |
| `RunState.Service.Release` | internal/runstate/fs/fs.go:45 | the closure removes the lock directory and everything below it, and returns nil |
| `RunState.PublishEffect` | internal/runstate/fs/fs.go:48-83 | write-to-tmp then rename leaves the content at the target and removes the staging file. Every other file is unchanged, and only directories on the way to the target are added. |
| `RunState.PublishSucceeds` | internal/runstate/fs/fs.go:48-83 | publication succeeds whenever the parent directory exists and neither the target nor its staging path is a directory |
| `RunState.PublishedPaths` | internal/runstate/fs/fs.go:48-83 | path by path: the target holds the content and no staging file remains. All other files, and all directories below the parent, are as before. |
| `RunState.StageByOpen` | internal/runstate/fs/fs.go:48-83 | the open/write/rename steps of `WritePID` end where `Publish` says. Every state they pass through keeps every other file. |
| `RunState.StageByWrite` | internal/runstate/fs/fs.go:99-117 | the `WriteFile`/rename steps of `MarkReady` end where `Publish` says. Every state they pass through keeps every other file. |
| `RunState.Service.WritePID` | internal/runstate/fs/fs.go:48-83 | publishes `"%d\n"` of the pid at the pid path |
| `RunState.WriteThenReadPID` | internal/runstate/fs/fs.go:48-97 | after a successful `WritePID(n)`, the pid file is `Itoa(n) + "\n"`, `ReadPID` returns exactly `n`, no `.tmp` file remains, and ready and lock are unchanged |
| `RunState.ReadPIDAt` | internal/runstate/fs/fs.go:85-97 | a successful read means the pid file exists and `fmt.Fscan` of its text gives that value |
| `RunState.ReadPIDFails` | internal/runstate/fs/fs.go:85-97 | `ReadPID` fails exactly when the file is absent or not text, or when its text, after leading white space, has no optional sign followed by a decimal digit, or the number does not fit in 64 bits. An absent file gives ENOENT or ENOTDIR. |
| `RunState.ReadPIDUnderFile` | internal/runstate/fs/fs.go:85-89 | a pid path below a regular file, at any depth, fails with ENOTDIR as `os.Open` does, and not with "does not exist" |
| `RunState.Service.ReadPID` | internal/runstate/fs/fs.go:85-97 | opens the pid file and scans an integer, as `ReadPIDAt` |
| `RunState.MarkReadyEffect` | internal/runstate/fs/fs.go:99-117 | after `MarkReady` the ready file exists and no `.tmp` remains; the pid file and the lock are untouched |
| `RunState.Service.MarkReady` | internal/runstate/fs/fs.go:99-117 | publishes the timestamp at the ready path |
| `RunState.ClearEffect` | internal/runstate/fs/fs.go:119-124 | after `Clear` neither pid nor ready is a file. The lock and every other path are unchanged. |
| `RunState.ClearIdempotent` | internal/runstate/fs/fs.go:119-124 | clearing twice is the same as clearing once |
| `RunState.Service.Clear` | internal/runstate/fs/fs.go:119-124 | removes pid then ready, ignoring errors, and always returns nil |
| `RunState.ReclaimLeavesLive` | internal/runstate/fs/fs.go:126-139 | a missing or unparsable pid file, or a live pid, means `CleanupIfStale` changes nothing |
| `RunState.ReclaimStale` | internal/runstate/fs/fs.go:126-144 | a dead pid means pid, ready and the whole lock directory are removed, and nothing else changes |
| `RunState.ReclaimThenAcquire` | internal/runstate/fs/fs.go:126-144 | after reclaiming a dead shim's state, the lock can be acquired |
| `RunState.Service.CleanupIfStale` | internal/runstate/fs/fs.go:126-144 | the conditional removals end in `Reclaim`'s state and always return nil |
| `RunState.ReadyWins` | internal/runstate/fs/fs.go:151-167 | a present ready marker decides the check, before the deadline and before cancellation |
| `RunState.WaitEnds` | internal/runstate/fs/fs.go:146-173 | with ticks at least 100 ms apart, the wait ends by the first check after 15 s, at the latest |
| `RunState.AwaitReady` | internal/runstate/fs/fs.go:146-173 | the loop ends at the first check that decides. A ready marker at the first check returns the pid read then. A timeout means the deadline had passed, and a context error means cancellation was seen. A pid is returned only when a ready marker existed. |
| `RunState.Service.WaitReadyAndPID` | internal/runstate/fs/fs.go:146-173 | the coordinator's polling wait over its own paths, with the same guarantees |
| `Text.ScanItoa` | internal/runstate/fs/fs.go:60-95 | `fmt.Fscan` of `"%d"` of a 64-bit integer followed by a newline reads back exactly that integer |
| `Text.DigitsValueOfNatDigits` | internal/runstate/fs/fs.go:60 | the decimal digits of `n` have value `n` |
| `Text.Format03dValue` | internal/vmstore/mem/store.go:26 | `%03d` text: its sign, and its digits' value equal to the number |
| `Text.Format03dInjective` | internal/vmstore/mem/store.go:26 | distinct counters give distinct `%03d` texts |
| `Text.Inc64` | internal/vmstore/mem/store.go:27 | `next++` on a Go `int` always changes the counter, adding one below the maximum |
| `Text.TrimSpace` | internal/cloudinit/seed/service.go:58-61 | the result is a slice of the input with only white space cut from both ends, and it neither starts nor ends with white space |
| `Text.TrimSpaceEmpty` | internal/cloudinit/seed/service.go:58 | a key trims to empty exactly when it is all white space |
| `Text.TrimSpaceIdempotent` | internal/cloudinit/seed/service.go:61 | trimming twice is trimming once |
| `Domain.NameForInjective` | internal/vmstore/mem/store.go:26 | `vm-%03d` names of different counters differ, and the first name is `vm-001` |
| `Domain.Stamped` | internal/vmstore/mem/store.go:34-36 | `CreatedAt` is taken from the clock only when it was 0; every other field is kept |
| `Domain.SortByCreatedAt` | internal/vmstore/mem/store.go:66 | the result is in non-decreasing `CreatedAt` order and is a permutation of the input |
| `Domain.SortKeepsRecords` | internal/vmstore/fs/store.go:124 | sorting keeps the length and exactly the same records |
| `MemStore.Lookup` | internal/vmstore/mem/store.go:41-50 | `Load` finds exactly the stored names; otherwise it returns "vm <name> not found" |
| `MemStore.RuntimePathsText` | internal/vmstore/mem/store.go:72-80 | `Dir` is `"/mem/" + name`; pid, ready, lock and console are `Dir` plus `/vm.pid`, `/vm.ready`, `/vm.lock.d`, `/console.sock`, pairwise distinct |
| `MemStore.DistinctRecords` | internal/vmstore/mem/store.go:37 | records filed under their own names are pairwise distinct, one per name |
| `MemStore.Collect` | internal/vmstore/mem/store.go:62-65 | the loop appends every stored record exactly once |
| `MemStore.Store.constructor` | internal/vmstore/mem/store.go:19-21 | a new store is empty and counts from 1 |
| `MemStore.Store.NextName` | internal/vmstore/mem/store.go:23-29 | returns `vm-%03d` of the counter and increments it; the next name will differ |
| `MemStore.Store.Save` | internal/vmstore/mem/store.go:31-39 | overwrites the entry of `vm.Name` with the stamped record; `Load` returns it, and every other name loads as before |
| `MemStore.Store.Load` | internal/vmstore/mem/store.go:41-50 | returns the stored record of that name, or the not-found error |
| `MemStore.Store.Delete` | internal/vmstore/mem/store.go:52-57 | removes only that key and always returns nil. A later `Load` fails, and deleting twice is the same as once. |
| `MemStore.Store.List` | internal/vmstore/mem/store.go:59-68 | every stored record exactly once, in non-decreasing `CreatedAt` order |
| `FsStore.VmDir` | internal/vmstore/fs/store.go:36-38 | `vmDir` is the directory named after the VM inside `baseDir/vms` |
| `FsStore.Store.constructor` | internal/vmstore/fs/store.go:23-25 | the store keeps its base directory; the host filesystem it works on is explicit |
| `FsStore.EnsureDirsIdle` | internal/vmstore/fs/store.go:32-34 | `ensureDirs` changes nothing once `baseDir/vms` exists |
| `FsStore.Store.EnsureDirs` | internal/vmstore/fs/store.go:32-34 | creates `baseDir/vms` and its ancestors |
| `FsStore.AllocateAdvances` | internal/vmstore/fs/store.go:40-62 | `NextName` returns `vm-%03d` of the stored counter and persists the counter plus one |
| `FsStore.FirstName` | internal/vmstore/fs/store.go:50-55 | with no sequence file the counter is 1 and the name is `vm-001` |
| `FsStore.ConsecutiveNamesDistinct` | internal/vmstore/fs/store.go:40-62 | two consecutive `NextName` calls yield different names |
| `FsStore.Store.NextName` | internal/vmstore/fs/store.go:40-62 | the directory, read and write steps end in `Allocate`'s state and result |
| `FsStore.SaveThenLoad` | internal/vmstore/fs/store.go:64-96 | after a successful `Save`, `Load` returns the saved record, with `CreatedAt` filled in only when it was 0 |
| `FsStore.SaveKeepsOthers` | internal/vmstore/fs/store.go:64-77 | `Save` writes only `vms/<name>/config.json` |
| `FsStore.Store.Save` | internal/vmstore/fs/store.go:64-77 | creates the VM directory and writes the stamped record to `config.json` |
| `FsStore.LoadNotFound` | internal/vmstore/fs/store.go:79-90 | `Load` reports "vm <name> not found" exactly when there is no `config.json` (ENOENT) |
| `FsStore.Store.Load` | internal/vmstore/fs/store.go:79-96 | reads and decodes `config.json`. ENOENT becomes not-found; other errors pass through unchanged. |
| `FsStore.DeleteRemovesAll` | internal/vmstore/fs/store.go:98-104 | `Delete` removes the whole VM directory, including the config and the runtime pid, ready and lock paths; a later `Load` is not-found |
| `FsStore.DeleteKeepsOthers` | internal/vmstore/fs/store.go:98-104 | every other VM's record reads as before |
| `FsStore.Store.Delete` | internal/vmstore/fs/store.go:98-104 | `ensureDirs` then `RemoveAll` of the VM directory |
| `FsStore.Store.LoadEach` | internal/vmstore/fs/store.go:114-123 | the loop yields one record per kept `vm-` entry. A visiting order with no repeats names exactly the entries whose record loads, and the i-th record is the one stored in the i-th of them. |
| `FsStore.Store.List` | internal/vmstore/fs/store.go:106-126 | the result is sorted by `CreatedAt` and, as a multiset, equals the records of the `vm-` directories that load, one per directory, so identical records in two directories both appear. It fails only when `ensureDirs` fails. |
| `FsStore.RuntimePathsAgree` | internal/vmstore/fs/store.go:130-142 | the store's pid, ready and lock paths are the coordinator's `paths` for the same base and name; `console.sock` lies in the same directory and differs from them |
| `FsStore.Store.RuntimePaths` | internal/vmstore/fs/store.go:130-142 | after `ensureDirs` succeeds, it returns the layout of `RuntimePathsOf`; otherwise it returns that error |
| `ShimRun.LoadFailureKeepsFiles` | internal/shim/proc/run.go:19-22 | a failed `Load` is returned and no file changes |
| `ShimRun.RuntimePathsAfterLoad` | internal/shim/proc/run.go:23-26 | once the record loads, `RuntimePaths` cannot fail and changes nothing |
| `ShimRun.LockHeldElsewhere` | internal/shim/proc/run.go:27-30 | an existing lock directory gives "lock in use"; no pid or ready file is written and no file changes |
| `ShimRun.ReleasedOnEveryPath` | internal/shim/proc/run.go:31 | once the lock is taken, the lock directory is gone at the end of every return path |
| `ShimRun.NoReadyWithoutPid` | internal/shim/proc/run.go:33-40 | if the pid write fails, that error is returned and the ready file is as it was |
| `ShimRun.HeldLeavesNoTrace` | internal/shim/proc/run.go:31-60 | the locked part, when it returns nil, leaves no pid, ready, staging file or lock, and every other file as it found it |
| `ShimRun.CleanExit` | internal/shim/proc/run.go:50-60 | a run that returns nil leaves no pid, ready, `.tmp` or lock for its VM, and every other file exactly as it found it |
| `ShimRun.RunSucceeds` | internal/shim/proc/run.go:18-60 | the run returns nil whenever the record loads, the lock is free and no marker path is a directory |
| `ShimRun.WritePIDAtomically` | internal/shim/proc/run.go:63-98 | leaves `"%d\n"` of the pid at the path and no `.tmp`, keeping every VM's pid-before-ready order in every state |
| `ShimRun.WriteReadyAtomically` | internal/shim/proc/run.go:100-117 | with the pid file in place, leaves the ready file and no `.tmp`, keeping every VM's order in every state |
| `ShimRun.PublishMarkers` | internal/shim/proc/run.go:33-40 | pid first, ready only if that succeeded (`Announce`), with no state that breaks the order |
| `ShimRun.CleanUp` | internal/shim/proc/run.go:57-60 | removes ready, then pid, then releases the lock, with no state that shows ready without pid |
| `ShimRun.HoldLock` | internal/shim/proc/run.go:31-60 | the locked part ends in `Held`'s state; the deferred release runs on the error path and after the wait |
| `ShimRun.ClaimLock` | internal/shim/proc/run.go:19-30 | load, resolve paths and create the lock (`Claim`), changing no file in any state |
| `ShimRun.RunChild` | internal/shim/proc/run.go:18-61 | the whole run ends in `Lifecycle`'s state and outcome, and no intermediate state shows a ready marker without its pid file |
| `ShimManager.CleanStaleFails` | internal/shim/proc/manager.go:102-106 | `cleanStaleRuntime` returns an error only when `RuntimePaths` fails, and then nothing else changes |
| `ShimManager.CrashedShimReclaimed` | internal/shim/proc/manager.go:101-128 | a dead pid means pid, ready and lock are removed, and the next shim's lock can be taken |
| `ShimManager.LiveShimKeepsLock` | internal/shim/proc/manager.go:116-122 | a live pid means nothing is removed, so a second shim finds the lock held |
| `ShimManager.CleanStaleExposesReady` | internal/shim/proc/manager.go:123-125 | the clean-up removes pid before ready, so a reader can briefly see ready without pid (for a dead shim only) |
| `ShimManager.PublishedPidRead` | internal/shim/proc/manager.go:84-99 | `GetPID` returns the pid a shim published, without any liveness check |
| `ShimManager.WaitReadsPublishedPid` | internal/shim/proc/manager.go:59-70 | once ready exists next to a published pid file, the wait's check returns that pid |
| `ShimManager.Manager.constructor` | internal/shim/proc/manager.go:17 | the manager keeps the store it is given |
| `ShimManager.Manager.StartDetached` | internal/shim/proc/manager.go:20-38 | the clean-up always runs first and its result is ignored; then the spawned process's pid or the spawn error is returned |
| `ShimManager.Manager.Stop` | internal/shim/proc/manager.go:40-47 | returns the SIGTERM outcome for that pid unchanged |
| `ShimManager.Manager.WaitReadyAndPID` | internal/shim/proc/manager.go:51-82 | a `RuntimePaths` error is returned; otherwise the same loop and check order as the coordinator |
| `ShimManager.Manager.GetPID` | internal/shim/proc/manager.go:84-99 | the integer in the pid file, or the open or scan error |
| `ShimManager.Manager.CleanStaleRuntime` | internal/shim/proc/manager.go:101-128 | ends in `CleanStale`: the same effect on pid, ready and lock as `CleanupIfStale` |
| `Application.FirstExisting` | internal/application/app.go:57-70 | the first default key that `Stat` finds, else empty |
| `Application.App.FindKey` | internal/application/app.go:64-69 | the loop with `break` returns `FirstExisting` |
| `Application.App.constructor` | internal/application/app.go:28-30 | the application keeps its store and shim manager; artifacts, clock and filesystem are parameters of the operations |
| `Application.UpSucceeds` | internal/application/app.go:72-109 | a successful `Up` uses one name and saves the prepared record under it. The record is named by the counter, uses the name as hostname, is `"stopped"`, and carries the clock's time. |
| `Application.UpWithoutKey` | internal/application/app.go:72-98 | with no key resolved, `Up` fails with "no SSH public key found" only after `NextName` and `Prepare` ran. The counter has moved on and nothing is saved. |
| `Application.App.Up` | internal/application/app.go:48-110 | the steps of `Up` end in `UpOn`'s store, counter and result |
| `Application.App.ListVMs` | internal/application/app.go:112-114 | every stored record once, sorted by `CreatedAt` |
| `Application.StartRecordsWaitedPid` | internal/application/app.go:116-133 | on success, `Start` returns and saves `"running"` with the pid from `WaitReadyAndPID`; on any error nothing is saved |
| `Application.StartIgnoresSpawnPid` | internal/application/app.go:121-124 | the pid `StartDetached` returns is never used |
| `Application.StartErrors` | internal/application/app.go:116-128 | errors from `Load`, `StartDetached` and `WaitReadyAndPID` are returned, the first one that occurs |
| `Application.App.Start` | internal/application/app.go:116-133 | ends in `StartOn`'s store and result |
| `Application.StopWithoutPid` | internal/application/app.go:140-145 | a stored PID of 0 and a failing `GetPID` return nil, without signalling or saving |
| `Application.StopUsesStoredPid` | internal/application/app.go:140-149 | a nonzero stored PID is signalled without consulting `GetPID` |
| `Application.StopOutcome` | internal/application/app.go:135-153 | a signal error is returned with the record unchanged; after a successful signal the record has `PID = 0` and `"stopped"` |
| `Application.App.Stop` | internal/application/app.go:135-153 | ends in `StopOn`'s store and result |
| `Application.DeleteRunningRefused` | internal/application/app.go:163-171 | a positive pid from `GetPID` without `force` is rejected, and the record is kept |
| `Application.DeleteStopped` | internal/application/app.go:163-176 | a VM that is not running is removed whatever `force` says |
| `Application.ForceDeleteStops` | internal/application/app.go:168-176 | with `force`, a running VM is stopped first; a stop error keeps the record and is returned |
| `Application.DeleteRemoves` | internal/application/app.go:157-177 | after a successful `Delete` a later `Load` fails and every other record is as before |
| `Application.App.Delete` | internal/application/app.go:157-177 | ends in `DeleteOn`'s store and result |
| `Application.StatusFromPidFile` | internal/application/app.go:180-189 | `(true, p)` exactly when `GetPID` gives `p > 0`, else `(false, 0)`. The stored `Status` and `PID` are never read. |
| `Application.App.Status` | internal/application/app.go:180-189 | equals `StatusOf` |
| `Application.FirstV4` | internal/application/app.go:202-206 | the index of the first IPv4 address; none before it is IPv4 |
| `Application.SelectAddress` | internal/application/app.go:202-210 | the first IPv4 address, else the first address, else "no IP found" |
| `Application.App.IP` | internal/application/app.go:192-211 | a load error or lookup error is returned; otherwise the selection of `SelectAddress` |
| `CloudConfig.SplitJoin` | internal/cloudinit/seed/service.go:50-71 | text built from newline-terminated writes splits back into exactly those lines |
| `CloudConfig.JoinEnds` | internal/cloudinit/seed/service.go:52-69 | the text starts with its first line and ends with its last, each with its newline |
| `CloudConfig.DocumentEnds` | internal/cloudinit/seed/service.go:50-71 | whatever the user list between header and footer, the user-data starts with `#cloud-config` and ends with the `avahi-daemon` runcmd line |
| `CloudConfig.MetaDataLines` | internal/cloudinit/seed/service.go:28 | the meta-data is exactly the two lines `instance-id: <Name>` and `local-hostname: <Hostname>` |
| `CloudConfig.StagedForBuild` | internal/cloudinit/seed/service.go:30-39 | the builder sees `user-data` and `meta-data` in the work directory and the destination's directory in place |
| `CloudConfig.BuildOutcome` | internal/cloudinit/seed/service.go:20-47 | the builder runs only after staging succeeded. Its error comes back wrapped as "hdiutil makehybrid failed". |
| `CloudConfig.StageFrame` | internal/cloudinit/seed/service.go:30-39 | staging writes at most the two documents |
| `CloudConfig.WorkDirRemoved` | internal/cloudinit/seed/service.go:25 | once made, the work directory is gone with everything below it on every path |
| `CloudConfig.OutsideUntouched` | internal/domain/cloudinit.go:32-57 | outside the work directory no file is added, removed or changed |
| `CloudConfig.Stage` | internal/domain/cloudinit.go:43-53 | the two writes and the `MkdirAll` end in `StageAt`'s state, stopping at the first error |
| `Seed.UserDataEnds` | internal/cloudinit/seed/service.go:50-71 | this service's user-data is an instance of `DocumentEnds`: it starts with `#cloud-config` and ends with the `avahi-daemon` runcmd line |
| `Seed.UserDataSplits` | internal/cloudinit/seed/service.go:50-71 | its lines are the header, `  - default`, the key block for a non-blank key, and the footer |
| `Seed.UsersBlock` | internal/cloudinit/seed/service.go:52-63 | `hostname: <hostname>` directly follows `preserve_hostname: false`. The user list is exactly `users:` and `  - default`, followed by the trimmed key block. |
| `Seed.KeyBlockIffKey` | internal/cloudinit/seed/service.go:58-63 | the `ssh_authorized_keys` line appears if and only if the trimmed key is non-empty |
| `Seed.NoKeyLine` | internal/cloudinit/seed/service.go:58-63 | a blank key leaves no `ssh_authorized_keys:` line anywhere in the user-data |
| `Seed.Generate` | internal/cloudinit/seed/service.go:20-48 | ends in `GenerateAt` for this service's user-data and meta-data |
| `CloudInit.UserDataEnds` | internal/domain/cloudinit.go:60-82 | the domain generator's user-data is an instance of `DocumentEnds`: it starts with `#cloud-config` and ends with the `avahi-daemon` runcmd line |
| `CloudInit.UserDataSplits` | internal/domain/cloudinit.go:60-82 | its lines are the header, the `fedora` user, the key block and the footer |
| `CloudInit.FedoraUser` | internal/domain/cloudinit.go:62-70 | the third line is `hostname: <hostname>`. The user is `fedora` with passwordless sudo, group `wheel` and `/bin/bash`. |
| `CloudInit.KeyBlockAlways` | internal/domain/cloudinit.go:71-74 | the key block is always emitted with the trimmed key, even an empty one |
| `CloudInit.CloudInit.constructor` | internal/domain/cloudinit.go:26-28 | the generator keeps the injected filesystem and builder |
| `CloudInit.CloudInit.Generate` | internal/domain/cloudinit.go:32-58 | ends in `GenerateAt` over the injected builder: documents written before `Build`, the error wrapped, the work directory removed on every path |

## Left out

- Process spawning (`os.Executable`, `exec.Command` with `Setpgid`), signal delivery, `kill(pid, 0)`, `signal.Notify` and the blocking `select`: these are parameters. They are a `Launcher`, a SIGTERM outcome, an `alive` oracle, and a wait that leaves the filesystem as it is.
- Virtualization providers, artifact staging (`Prepare`) and the `hdiutil` command: each is an oracle that only succeeds or fails. Nothing the ISO tool writes is modelled.
- Cross-process interleavings: the model is sequential. Each `mkdir`, `rename` or `unlink` is one atomic step. What other processes may observe is captured by the host's history of states.
- Wall-clock time and the ticker: the readiness wait sees a sequence of observations, each at least one 100 ms tick after the last. `CreatedAt` and the ready timestamp are inputs.
- fsync, `bufio` flushing and the best-effort directory sync have no effect in a sequential model.
- JSON encoding: `config.json` and `names.json` hold the values they encode. A document that does not decode is a distinct kind of content. `json.Unmarshal` errors on `names.json` are ignored, as the code does.
- `filepath.Join`/`Abs` normalisation: a path is its list of components, and joining appends one. `Up` receives `filepath.Abs` and the home directory as inputs.
- `net.LookupIP` is an input. An address's `String()` form is given with it.
- The stores' mutexes and the provider's handle maps do nothing in a sequential model.
- The CLI (`internal/cli/*`), logging and the clock interface are not part of this model.
- `Application.App.Up`: the application is modelled over the in-memory store, whose operations fail only with "not found". The application's contracts therefore do not cover the file store's other errors passing through `Up`, `Start`, `Stop`, `Delete`, `Status` and `IP`: a failing `NextName` or `Save`, a `Load` decode or I/O error, and a `Delete` error.
- `RunState.StageByOpen`: the write, flush, sync and close of the staging file are not modelled as failing. Only `MkdirAll`, `OpenFile` and `Rename` can fail.
- `Text.Scan` reads an optional sign and the leading decimal digits. `fmt.Fscan` reads some inputs differently: a leading `0` (octal in Go), `0x`/`0o`/`0b` prefixes and `_` separators. For example, `"012"` gives 12 here and 10 in Go, and `"0x\n"` gives 0 here where Go fails. The pid file, written with `%d`, never holds these forms.
- `Domain.SortByCreatedAt`: Go's `sort.Slice` is not stable. The model fixes one of its possible orders, and the `List` contracts state only sortedness and membership, which hold for every such order.
