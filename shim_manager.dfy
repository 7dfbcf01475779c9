/** The parent side of the shim: starting a detached shim process for a VM
    after reclaiming what a crashed one left behind, signalling it, and
    reading the pid it publishes.

    The manager reaches the filesystem through the store's `RuntimePaths`,
    which creates the store's `vms` directory first; every operation below
    therefore begins with `EnsureDirsAt`. Process creation, signals and
    `kill(pid, 0)` are parameters. */
module ShimManager {
  import opened Base
  import opened Text
  import opened Domain
  import opened FileSystem
  import opened RunState
  import FsStore

  /** The command line of the re-executed binary. */
  function ShimArgs(name: string): seq<string> {
    ["_shim", "--vm", name]
  }

  /** What the manager cannot see: `os.Executable()` and `cmd.Start()`,
      which yields the child's pid. */
  datatype Launcher = Launcher(executable: Result<string>, start: (string, seq<string>) -> Result<Int64>)

  // ---------------------------------------------------------------------------
  // Specification functions

  /** `cleanStaleRuntime`: only resolving the paths can fail; an unreadable
      pid file or a live process leaves everything as it is. */
  function CleanStale(fs: Fs, base: Path, name: string, alive: int -> bool): (Fs, Outcome) {
    var (f, e) := FsStore.EnsureDirsAt(fs, base);
    if e.Fail? then (f, e) else (Reclaim(f, Paths(base, name), alive), Nil)
  }

  /** `GetPID`: the pid file's integer, with no check that the process
      lives. */
  function PidOf(fs: Fs, base: Path, name: string): (Fs, Result<Int64>) {
    var (f, e) := FsStore.EnsureDirsAt(fs, base);
    if e.Fail? then (f, Err(e.error)) else (f, ReadPIDAt(f, Paths(base, name).pid))
  }

  /** The result of `StartDetached` once the clean-up is done. */
  function Launch(l: Launcher, name: string): Result<Int64> {
    match l.executable
    case Err(e) => Err(e)
    case Ok(exe) => l.start(exe, ShimArgs(name))
  }

  // ---------------------------------------------------------------------------
  // Lemmas

  /** The clean-up fails only when the store's directories cannot be
      created, and then it removes nothing. */
  lemma CleanStaleFails(fs: Fs, base: Path, name: string, alive: int -> bool)
    requires fs.Valid()
    ensures var (f, e) := CleanStale(fs, base, name, alive);
      && (e.Fail? <==> FsStore.EnsureDirsAt(fs, base).1.Fail?)
      && (e.Fail? ==> f == fs)
  {
    var r := fs.MkdirAll(FsStore.VmsDir(base));
  }

  /** A crashed shim's pid, ready marker and lock are all gone after the
      clean-up, and the next shim's lock can be taken. */
  lemma CrashedShimReclaimed(fs: Fs, base: Path, name: string, alive: int -> bool)
    requires fs.Valid()
    requires FsStore.EnsureDirsAt(fs, base).1.Nil?
    requires var r := ReadPIDAt(FsStore.EnsureDirsAt(fs, base).0, Paths(base, name).pid);
      r.Ok? && !alive(r.value)
    ensures var m := Paths(base, name); var (f, e) := CleanStale(fs, base, name, alive);
      && e == Nil && f.Valid()
      && !f.Exists(m.pid) && !f.IsFile(m.ready) && !f.Exists(m.lock)
      && Acquire(f, base, name).1 == Ok(m.lock)
  {
    var f1 := FsStore.EnsureDirsAt(fs, base).0;
    assert f1.Valid();
    ReclaimStale(f1, base, name, alive);
    ReclaimThenAcquire(f1, base, name, alive);
    AcquireWhenFree(Reclaim(f1, Paths(base, name), alive), base, name);
  }

  /** A live shim keeps its files, so a second shim started for the same VM
      finds the lock held. */
  lemma LiveShimKeepsLock(fs: Fs, base: Path, name: string, alive: int -> bool)
    requires fs.Valid()
    requires FsStore.EnsureDirsAt(fs, base).1.Nil?
    requires var f1 := FsStore.EnsureDirsAt(fs, base).0; var r := ReadPIDAt(f1, Paths(base, name).pid);
      f1.IsDir(Paths(base, name).lock) && r.Ok? && alive(r.value)
    ensures var f1 := FsStore.EnsureDirsAt(fs, base).0; var (f, e) := CleanStale(fs, base, name, alive);
      && f == f1 && e == Nil
      && Acquire(f, base, name) == (f, Err(LockInUse(AlreadyExists(Paths(base, name).lock))))
  {
    var f1 := FsStore.EnsureDirsAt(fs, base).0;
    ReclaimLeavesLive(f1, base, name, alive);
    AcquireWhenHeld(f1, base, name);
  }

  /** The clean-up removes the pid file before the ready marker, so the
      state between the two removals shows a ready marker without a pid
      file (the order the shim itself never exposes). */
  lemma CleanStaleExposesReady(fs: Fs, base: Path, name: string)
    requires fs.Valid()
    requires var m := Paths(base, name); fs.IsFile(m.pid) && fs.IsFile(m.ready)
    ensures var m := Paths(base, name); !ReadyImpliesPid(fs.RemoveIgnoringError(m.pid), m)
  {
    var m := Paths(base, name);
    PathsApart(base, name);
    assert m.ready != m.pid;
  }

  /** The pid a shim published is what `GetPID` returns. */
  lemma PublishedPidRead(fs: Fs, base: Path, name: string, pid: Int64)
    requires fs.Valid() && fs.IsDir(FsStore.VmsDir(base))
    requires Publish(fs, Paths(base, name).pid, Text(PidText(pid))).1 == Nil
    ensures var f := Publish(fs, Paths(base, name).pid, Text(PidText(pid))).0;
      PidOf(f, base, name) == (f, Ok(pid))
  {
    var m := Paths(base, name);
    var f := Publish(fs, m.pid, Text(PidText(pid))).0;
    PublishEffect(fs, m.pid, Text(PidText(pid)));
    WriteThenReadPID(fs, base, name, pid);
    FsStore.EnsureDirsIdle(f, base);
  }

  /** Once the ready marker is visible next to a published pid file, the
      wait's check returns that pid. */
  lemma WaitReadsPublishedPid(o: Observation, base: Path, name: string, pid: Int64)
    requires var m := Paths(base, name);
      o.fs.Exists(m.ready) && o.fs.IsFile(m.pid) && o.fs.files[m.pid] == Text(PidText(pid))
    ensures Poll(o, Paths(base, name), name) == Some(Ok(pid))
  {
    ScanItoa(pid, "\n");
  }

  // ---------------------------------------------------------------------------
  // The manager

  class Manager {
    const store: FsStore.Store

    constructor(store: FsStore.Store)
      ensures this.store == store
    {
      this.store := store;
    }

    /** Re-executes the binary as the shim of `vm`, after a clean-up whose
        error is ignored. */
    method StartDetached(vm: VM, alive: int -> bool, launcher: Launcher) returns (r: Result<Int64>)
      requires store.host.Valid()
      modifies store.host
      ensures store.host.Valid()
      ensures store.host.fs == CleanStale(old(store.host.fs), store.baseDir, vm.name, alive).0
      ensures r == Launch(launcher, vm.name)
    {
      var _ := CleanStaleRuntime(vm.name, alive);
      var exe := launcher.executable;
      if exe.Err? {
        return Err(exe.error);
      }
      r := launcher.start(exe.value, ShimArgs(vm.name));
    }

    /** Sends SIGTERM (`sigterm(pid)` is its outcome) and returns its error
        unchanged: a process that is already gone is reported as an error.
        `os.FindProcess` cannot fail on Unix. */
    method Stop(pid: Int64, sigterm: Int64 -> Outcome) returns (e: Outcome)
      ensures e == sigterm(pid)
    {
      e := sigterm(pid);
    }

    /** Resolves the paths, then polls as the coordinator does. */
    method WaitReadyAndPID(name: string, obs: nat -> Observation) returns (r: Result<Int64>)
      requires store.host.Valid() && TicksAdvance(obs)
      modifies store.host
      ensures store.host.Valid()
      ensures var (f, e) := FsStore.EnsureDirsAt(old(store.host.fs), store.baseDir);
        && store.host.fs == f
        && (e.Fail? ==> r == Err(e.error))
        && (e.Nil? ==> exists k: nat :: EndsAt(obs, Paths(store.baseDir, name), name, k)
                                      && r == Poll(obs(k), Paths(store.baseDir, name), name).value)
    {
      var paths := store.RuntimePaths(name);
      if paths.Err? {
        return Err(paths.error);
      }
      FsStore.RuntimePathsAgree(store.baseDir, name);
      r := AwaitReady(Paths(store.baseDir, name), name, obs);
    }

    method GetPID(name: string) returns (r: Result<Int64>)
      requires store.host.Valid()
      modifies store.host
      ensures store.host.Valid()
      ensures (store.host.fs, r) == PidOf(old(store.host.fs), store.baseDir, name)
    {
      var paths := store.RuntimePaths(name);
      if paths.Err? {
        return Err(paths.error);
      }
      FsStore.RuntimePathsAgree(store.baseDir, name);
      r := ReadPIDAt(store.host.fs, paths.value.pidFile);
    }

    /** Removes the pid file, ready marker and lock of `name` when the
        recorded process is not running (`alive(pid)` is `kill(pid, 0) ==
        nil`). */
    method CleanStaleRuntime(name: string, alive: int -> bool) returns (e: Outcome)
      requires store.host.Valid()
      modifies store.host
      ensures store.host.Valid()
      ensures (store.host.fs, e) == CleanStale(old(store.host.fs), store.baseDir, name, alive)
    {
      var paths := store.RuntimePaths(name);
      if paths.Err? {
        return Fail(paths.error);
      }
      FsStore.RuntimePathsAgree(store.baseDir, name);
      var d := paths.value;
      var pid := ReadPIDAt(store.host.fs, d.pidFile);
      if pid.Err? || alive(pid.value) {
        return Nil;
      }
      var _ := store.host.Remove(d.pidFile);
      var _ := store.host.Remove(d.readyFile);
      store.host.RemoveAll(d.lockDir);
      return Nil;
    }
  }
}
