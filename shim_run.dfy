/** The shim child (`internal/shim/proc/run.go`): the process that owns one
    VM's lifetime. It loads the record, takes the VM's lock directory,
    publishes its pid and then the ready marker, waits to be told to stop,
    removes ready and pid, and releases the lock on every return once the
    lock is held.

    `Lifecycle` is the effect of a whole run on the filesystem, as one pure
    function; `RunChild` performs it one primitive at a time on the shared
    host and is proved to end where `Lifecycle` says. Because other processes
    read the filesystem while the shim runs, `RunChild` also promises that no
    intermediate state shows a ready marker without its pid file. */
module ShimRun {
  import opened Base
  import opened Text
  import opened Domain
  import opened FileSystem
  import opened RunState
  import FsStore

  // ---------------------------------------------------------------------------
  // Specification

  /** The run, from `store.Load` to the deferred release. The wait for a
      signal or a cancelled context leaves the filesystem as it is, and both
      ways out of it continue the same way. */
  function Lifecycle(fs: Fs, base: Path, name: string, pid: Int64, stamp: string): (Fs, Outcome) {
    var (f, r) := Claim(fs, base, name);
    if r.Err? then (f, Fail(r.error)) else Held(f, Paths(base, r.value), pid, stamp)
  }

  /** The run up to the lock: load the record, resolve its runtime paths
      (by the loaded record's name) and create the lock directory. The
      result is the name the lock was taken for. */
  function Claim(fs: Fs, base: Path, name: string): (Fs, Result<string>) {
    var (f1, r1) := FsStore.LoadAt(fs, base, name);
    if r1.Err? then (f1, Err(r1.error))
    else
      var (f2, e2) := FsStore.EnsureDirsAt(f1, base);
      if e2.Fail? then (f2, Err(e2.error))
      else
        match f2.Mkdir(Paths(base, r1.value.name).lock)
        case Err(e) => (f2, Err(LockInUse(e)))
        case Ok(f3) => (f3, Ok(r1.value.name))
  }

  /** The two publications: pid first, then, if that succeeded, ready. */
  function Announce(f: Fs, m: Markers, pid: Int64, stamp: string): (Fs, Outcome)
    requires m.pid != [] && m.ready != []
  {
    var (f4, e4) := Publish(f, m.pid, Text(PidText(pid)));
    if e4.Fail? then (f4, e4) else Publish(f4, m.ready, Text(stamp))
  }

  /** After the wait: ready and pid removed, errors ignored, and the lock
      released. */
  function Withdraw(f: Fs, m: Markers): Fs {
    f.RemoveIgnoringError(m.ready).RemoveIgnoringError(m.pid).RemoveAll(m.lock)
  }

  /** The part of the run that holds the lock: `os.RemoveAll(lock)` ends
      every path. */
  function Held(f: Fs, m: Markers, pid: Int64, stamp: string): (Fs, Outcome)
    requires m.pid != [] && m.ready != []
  {
    var (g, e) := Announce(f, m, pid, stamp);
    if e.Fail? then (g.RemoveAll(m.lock), e) else (Withdraw(g, m), Nil)
  }

  /** The lock was taken: the record loaded and the lock directory was
      created. */
  predicate Acquired(fs: Fs, base: Path, name: string) {
    Claim(fs, base, name).1.Ok?
  }

  /** `after` extends `before`, and if the ready marker of `m` implied its
      pid file in the last state of `before`, it does in every state added. */
  ghost predicate OrderKept(before: seq<Fs>, after: seq<Fs>, m: Markers) {
    && before != [] && |before| <= |after| && after[..|before|] == before
    && (ReadyImpliesPid(before[|before| - 1], m) ==>
          forall i :: |before| <= i < |after| ==> ReadyImpliesPid(after[i], m))
  }

  // ---------------------------------------------------------------------------
  // What a run does

  /** A failed `Load` returns its error, and the only change is the `vms`
      directory the store creates: every file is as it was. */
  lemma LoadFailureKeepsFiles(fs: Fs, base: Path, name: string, pid: Int64, stamp: string)
    requires FsStore.LoadAt(fs, base, name).1.Err?
    ensures var (f, e) := Lifecycle(fs, base, name, pid, stamp);
      && e == Fail(FsStore.LoadAt(fs, base, name).1.error)
      && f == FsStore.EnsureDirsAt(fs, base).0 && f.files == fs.files
  {
  }

  /** Once the record loads, `RuntimePaths` cannot fail: the directory it
      makes sure of is already there. */
  lemma RuntimePathsAfterLoad(fs: Fs, base: Path, name: string)
    requires FsStore.LoadAt(fs, base, name).1.Ok?
    ensures var f1 := FsStore.LoadAt(fs, base, name).0;
      FsStore.EnsureDirsAt(f1, base) == (f1, Nil)
  {
    var f1 := FsStore.LoadAt(fs, base, name).0;
    FsStore.EnsureDirsIdle(f1, base);
  }

  /** A lock directory already in place (another shim is running) makes the
      run fail with "lock in use" wrapping `EEXIST`, before any marker is
      touched: every file is as it was. */
  lemma LockHeldElsewhere(fs: Fs, base: Path, name: string, pid: Int64, stamp: string)
    requires FsStore.LoadAt(fs, base, name).1.Ok?
    requires fs.IsDir(Paths(base, FsStore.LoadAt(fs, base, name).1.value.name).lock)
    ensures var lock := Paths(base, FsStore.LoadAt(fs, base, name).1.value.name).lock;
      var (f, e) := Lifecycle(fs, base, name, pid, stamp);
      && e == Fail(LockInUse(AlreadyExists(lock)))
      && f.files == fs.files
  {
    RuntimePathsAfterLoad(fs, base, name);
  }

  /** Every return after the lock was taken releases it: the lock directory
      does not exist at the end, whether the run failed or finished. */
  lemma ReleasedOnEveryPath(fs: Fs, base: Path, name: string, pid: Int64, stamp: string)
    requires Acquired(fs, base, name)
    ensures var m := Paths(base, FsStore.LoadAt(fs, base, name).1.value.name);
      !Lifecycle(fs, base, name, pid, stamp).0.Exists(m.lock)
  {
    var m := Paths(base, FsStore.LoadAt(fs, base, name).1.value.name);
    assert m.lock <= m.lock;
  }

  /** A failed pid publication means no ready marker is published: the run
      fails with that error and the ready file is as it was. */
  lemma NoReadyWithoutPid(f: Fs, base: Path, n: string, pid: Int64, stamp: string)
    requires f.Valid()
    requires Publish(f, Paths(base, n).pid, Text(PidText(pid))).1.Fail?
    ensures var m := Paths(base, n); var (g, e) := Held(f, m, pid, stamp);
      && e == Publish(f, m.pid, Text(PidText(pid))).1
      && (g.IsFile(m.ready) <==> f.IsFile(m.ready))
  {
    var m := Paths(base, n);
    PathsApart(base, n);
    assert !(m.lock <= m.ready);
  }

  /** `g` and `f` have the same files with the same contents, except
      perhaps at the paths in `s`. */
  ghost predicate AgreeOutside(g: Fs, f: Fs, s: set<Path>) {
    forall q :: q !in s ==> (q in g.files <==> q in f.files) && (q in g.files ==> g.files[q] == f.files[q])
  }

  lemma AgreeTrans(a: Fs, b: Fs, c: Fs, s1: set<Path>, s2: set<Path>)
    requires AgreeOutside(a, b, s1) && AgreeOutside(b, c, s2)
    ensures AgreeOutside(a, c, s1 + s2)
  {
  }

  /** A successful publication agrees with its start outside the target
      and its staging file. */
  lemma PublishAgrees(f: Fs, path: Path, c: Content)
    requires f.Valid() && path != [] && Publish(f, path, c).1 == Nil
    ensures var g := Publish(f, path, c).0;
      && g.Valid() && g.IsFile(path) && !g.IsFile(TmpPath(path)) && f.dirs <= g.dirs
      && AgreeOutside(g, f, {path, TmpPath(path)})
  {
    PublishEffect(f, path, c);
    PublishedPaths(f, path, c);
  }

  /** The two publications of the held part: both markers are files, the
      staging files are gone, and every other file is as it was. */
  lemma HeldPublishes(f: Fs, base: Path, n: string, pid: Int64, stamp: string)
    requires f.Valid()
    requires Publish(f, Paths(base, n).pid, Text(PidText(pid))).1 == Nil
    requires Publish(Publish(f, Paths(base, n).pid, Text(PidText(pid))).0, Paths(base, n).ready, Text(stamp)).1 == Nil
    ensures var m := Paths(base, n);
      var g := Publish(Publish(f, m.pid, Text(PidText(pid))).0, m.ready, Text(stamp)).0;
      && g.Valid() && g.IsFile(m.pid) && g.IsFile(m.ready) && f.dirs <= g.dirs
      && !g.IsFile(TmpPath(m.pid)) && !g.IsFile(TmpPath(m.ready))
      && AgreeOutside(g, f, {m.pid, m.ready, TmpPath(m.pid), TmpPath(m.ready)})
  {
    var m := Paths(base, n);
    PathsApart(base, n);
    var f4 := Publish(f, m.pid, Text(PidText(pid))).0;
    PublishAgrees(f, m.pid, Text(PidText(pid)));
    PublishAgrees(f4, m.ready, Text(stamp));
    var g := Publish(f4, m.ready, Text(stamp)).0;
    AgreeTrans(g, f4, f, {m.ready, TmpPath(m.ready)}, {m.pid, TmpPath(m.pid)});
    assert {m.ready, TmpPath(m.ready)} + {m.pid, TmpPath(m.pid)} == {m.pid, m.ready, TmpPath(m.pid), TmpPath(m.ready)};
  }

  /** The clean-up after the wait, and the release: no marker or staging file
      remains, and nothing else changes. */
  lemma HeldCleansUp(g: Fs, base: Path, n: string)
    requires g.Valid() && !g.IsFile(TmpPath(Paths(base, n).pid)) && !g.IsFile(TmpPath(Paths(base, n).ready))
    requires forall q :: Paths(base, n).lock <= q ==> q !in g.files
    ensures var m := Paths(base, n);
      var h := g.RemoveIgnoringError(m.ready).RemoveIgnoringError(m.pid).RemoveAll(m.lock);
      && !h.IsFile(m.pid) && !h.IsFile(m.ready) && !h.Exists(m.lock)
      && !h.IsFile(TmpPath(m.pid)) && !h.IsFile(TmpPath(m.ready))
      && AgreeOutside(h, g, {m.pid, m.ready, TmpPath(m.pid), TmpPath(m.ready)})
  {
    var m := Paths(base, n);
    PathsApart(base, n);
    assert m.lock <= m.lock;
  }

  /** Publishing the markers puts no file below the lock directory. */
  lemma LockStaysEmpty(f: Fs, g: Fs, base: Path, n: string)
    requires g.Valid() && Paths(base, n).lock in g.dirs
    requires forall q :: Paths(base, n).lock < q ==> q !in f.files
    requires var m := Paths(base, n); AgreeOutside(g, f, {m.pid, m.ready, TmpPath(m.pid), TmpPath(m.ready)})
    ensures forall q :: Paths(base, n).lock <= q ==> q !in g.files
  {
    var m := Paths(base, n);
    PathsApart(base, n);
    forall q | m.lock <= q ensures q !in g.files {
      if q != m.lock {
        assert q !in f.files;
        assert q !in {m.pid, m.ready, TmpPath(m.pid), TmpPath(m.ready)};
      }
    }
  }

  /** A held part that returns nil leaves no marker, no staging file and no
      lock, and every other file of the state it started from. */
  lemma HeldLeavesNoTrace(f: Fs, base: Path, n: string, pid: Int64, stamp: string)
    requires f.Valid() && f.IsDir(Paths(base, n).lock)
    requires forall q :: Paths(base, n).lock < q ==> q !in f.files
    requires Held(f, Paths(base, n), pid, stamp).1 == Nil
    ensures var m := Paths(base, n); var h := Held(f, m, pid, stamp).0;
      && !h.IsFile(m.pid) && !h.IsFile(m.ready) && !h.Exists(m.lock)
      && !h.IsFile(TmpPath(m.pid)) && !h.IsFile(TmpPath(m.ready))
      && AgreeOutside(h, f, {m.pid, m.ready, TmpPath(m.pid), TmpPath(m.ready)})
  {
    var m := Paths(base, n);
    HeldPublishes(f, base, n, pid, stamp);
    var g := Publish(Publish(f, m.pid, Text(PidText(pid))).0, m.ready, Text(stamp)).0;
    LockStaysEmpty(f, g, base, n);
    HeldCleansUp(g, base, n);
    var h := g.RemoveIgnoringError(m.ready).RemoveIgnoringError(m.pid).RemoveAll(m.lock);
    assert Held(f, m, pid, stamp).0 == h;
    AgreeTrans(h, g, f, {m.pid, m.ready, TmpPath(m.pid), TmpPath(m.ready)}, {m.pid, m.ready, TmpPath(m.pid), TmpPath(m.ready)});
  }

  /** A run that returns nil leaves no marker, no staging file and no lock
      of its VM, and every other file exactly as it found it. */
  lemma CleanExit(fs: Fs, base: Path, name: string, pid: Int64, stamp: string)
    requires fs.Valid()
    requires Lifecycle(fs, base, name, pid, stamp).1 == Nil
    ensures var m := Paths(base, FsStore.LoadAt(fs, base, name).1.value.name);
      var f := Lifecycle(fs, base, name, pid, stamp).0;
      && !f.IsFile(m.pid) && !f.IsFile(m.ready) && !f.Exists(m.lock)
      && !f.IsFile(TmpPath(m.pid)) && !f.IsFile(TmpPath(m.ready))
      && AgreeOutside(f, fs, {m.pid, m.ready, TmpPath(m.pid), TmpPath(m.ready)})
  {
    var vm := FsStore.LoadAt(fs, base, name).1.value;
    var m := Paths(base, vm.name);
    var f1 := FsStore.LoadAt(fs, base, name).0;
    RuntimePathsAfterLoad(fs, base, name);
    var f3 := f1.Mkdir(m.lock).value;
    forall q | m.lock < q ensures q !in f3.files {
      AncestorIsDir(f1, m.lock, q);
    }
    HeldLeavesNoTrace(f3, base, vm.name, pid, stamp);
  }

  /** The run returns nil whenever the record loads, its VM directory exists,
      the lock is free, and neither marker nor staging path is a directory. */
  lemma RunSucceeds(fs: Fs, base: Path, name: string, pid: Int64, stamp: string)
    requires fs.Valid() && FsStore.ReadConfig(fs, base, name).Ok?
    requires var m := Paths(base, FsStore.ReadConfig(fs, base, name).value.name);
      && fs.IsDir(Parent(m.lock)) && !fs.Exists(m.lock)
      && !fs.IsDir(m.pid) && !fs.IsDir(TmpPath(m.pid))
      && !fs.IsDir(m.ready) && !fs.IsDir(TmpPath(m.ready))
    ensures Lifecycle(fs, base, name, pid, stamp).1 == Nil
  {
    var vm := FsStore.ReadConfig(fs, base, name).value;
    var m := Paths(base, vm.name);
    PathsApart(base, vm.name);
    assert fs.IsDir(FsStore.VmsDir(base)) by {
      assert Parent(m.lock) == FsStore.VmDir(base, vm.name);
    }
    FsStore.EnsureDirsIdle(fs, base);
    var f3 := fs.Mkdir(m.lock).value;
    PublishSucceeds(f3, m.pid, Text(PidText(pid)));
    PublishedPaths(f3, m.pid, Text(PidText(pid)));
    var f4 := Publish(f3, m.pid, Text(PidText(pid))).0;
    assert |m.ready| > |Parent(m.pid)| && |TmpPath(m.ready)| > |Parent(m.pid)|;
    PublishSucceeds(f4, m.ready, Text(stamp));
  }

  // ---------------------------------------------------------------------------
  // The ordering every intermediate state keeps

  /** The five paths of one VM against those of any VM, itself included. */
  lemma MarkersApart(base: Path, a: string, b: string)
    ensures var ma := Paths(base, a); var mb := Paths(base, b);
      && ma.ready != mb.pid && ma.ready != TmpPath(mb.pid) && ma.pid != TmpPath(mb.pid)
      && ma.pid != TmpPath(mb.ready) && ma.ready != TmpPath(mb.ready)
      && (ma.pid == mb.pid ==> a == b) && (ma.ready == mb.ready ==> a == b)
      && !(mb.lock <= ma.pid) && !(mb.lock <= ma.ready)
  {
    var ma := Paths(base, a);
    var mb := Paths(base, b);
    var i := |base| + 2;
    MarkerComponents(base, a);
    MarkerComponents(base, b);
    assert mb.lock[i] != ma.pid[i] && mb.lock[i] != ma.ready[i];
  }

  /** The last two components of each marker and staging path. */
  lemma MarkerComponents(base: Path, name: string)
    ensures var m := Paths(base, name); var i := |base| + 2;
      && |TmpPath(m.pid)| == i + 1 && |TmpPath(m.ready)| == i + 1
      && m.pid[i] == "vm.pid" && m.ready[i] == "vm.ready" && m.lock[i] == "vm.lock.d"
      && TmpPath(m.pid)[i] == "vm.pid.tmp" && TmpPath(m.ready)[i] == "vm.ready.tmp"
      && m.pid[i - 1] == name && m.ready[i - 1] == name
      && TmpPath(m.pid)[i - 1] == name && TmpPath(m.ready)[i - 1] == name
  {
    var m := Paths(base, name);
    var d := VmDir(base, name);
    assert "vm.pid" + ".tmp" == "vm.pid.tmp" && "vm.ready" + ".tmp" == "vm.ready.tmp";
    assert TmpPath(m.pid) == d + ["vm.pid.tmp"];
    assert TmpPath(m.ready) == d + ["vm.ready.tmp"];
  }

  /** A path other than the one published and its staging file is a file
      exactly when it was one at the start. */
  lemma KeptFile(start: Fs, s: Fs, path: Path, q: Path)
    requires path != [] && KeepsFiles(start, s, path)
    requires q != path && q != TmpPath(path)
    ensures s.IsFile(q) <==> start.IsFile(q)
  {
    assert q in s.files.Keys - {path, TmpPath(path)} <==> q in start.files.Keys - {path, TmpPath(path)};
  }

  /** A state of a publication of VM `n`'s pid file, or of its ready file once
      its pid file exists, keeps the order of every VM `k`. */
  lemma OrderedDuringPublish(start: Fs, s: Fs, base: Path, n: string, path: Path, k: string)
    requires path == Paths(base, n).pid || (path == Paths(base, n).ready && start.IsFile(Paths(base, n).pid))
    requires KeepsFiles(start, s, path)
    ensures ReadyImpliesPid(start, Paths(base, k)) ==> ReadyImpliesPid(s, Paths(base, k))
  {
    MarkersApart(base, k, n);
    MarkersApart(base, n, n);
    var mk := Paths(base, k);
    if mk.ready != path {
      KeptFile(start, s, path, mk.ready);
    }
    if mk.pid != path {
      KeptFile(start, s, path, mk.pid);
    }
  }

  lemma OrderKeptStarts(before: seq<Fs>, m: Markers)
    requires before != []
    ensures OrderKept(before, before, m)
  {
    assert before[..|before|] == before;
  }

  /** The latest state is ordered whenever the start was. */
  lemma OrderKeptLast(before: seq<Fs>, after: seq<Fs>, m: Markers)
    requires OrderKept(before, after, m)
    ensures ReadyImpliesPid(before[|before| - 1], m) ==> ReadyImpliesPid(after[|after| - 1], m)
  {
    if |after| == |before| {
      assert after == after[..|before|];
    }
  }

  /** One more state, ordered whenever the latest one was. */
  lemma OrderKeptExtends(before: seq<Fs>, after: seq<Fs>, s: Fs, m: Markers)
    requires OrderKept(before, after, m)
    requires ReadyImpliesPid(after[|after| - 1], m) ==> ReadyImpliesPid(s, m)
    ensures OrderKept(before, after + [s], m)
  {
    OrderKeptLast(before, after, m);
    var a := after + [s];
    assert a[..|before|] == after[..|before|];
    if ReadyImpliesPid(before[|before| - 1], m) {
      forall i | |before| <= i < |a| ensures ReadyImpliesPid(a[i], m) {
        if i < |after| {
          assert a[i] == after[i];
        }
      }
    }
  }

  /** A whole publication of VM `n`'s marker `path`, seen from the start of
      the run, for the order of VM `k`. */
  lemma OrderKeptThroughPublish(h: seq<Fs>, mid: seq<Fs>, after: seq<Fs>, base: Path, n: string, path: Path, k: string)
    requires OrderKept(h, mid, Paths(base, k)) && path != []
    requires path == Paths(base, n).pid
      || (path == Paths(base, n).ready && mid[|mid| - 1].IsFile(Paths(base, n).pid))
    requires PublishFrame(mid, after, path)
    ensures OrderKept(h, after, Paths(base, k))
  {
    var m := Paths(base, k);
    OrderKeptLast(h, mid, m);
    assert after[..|h|] == mid[..|h|] == h;
    if ReadyImpliesPid(h[|h| - 1], m) {
      forall i | |h| <= i < |after| ensures ReadyImpliesPid(after[i], m) {
        if i < |mid| {
          assert after[i] == mid[i];
        } else {
          OrderedDuringPublish(mid[|mid| - 1], after[i], base, n, path, k);
        }
      }
    }
  }

  /** Removing VM `n`'s ready marker keeps the order of every VM `k`. */
  lemma OrderedAfterRemoveReady(s: Fs, base: Path, n: string, k: string)
    ensures var t := Apply(s, s.Remove(Paths(base, n).ready)).0;
      (ReadyImpliesPid(s, Paths(base, k)) ==> ReadyImpliesPid(t, Paths(base, k)))
      && !t.IsFile(Paths(base, n).ready)
  {
    RemoveKeepsOtherFiles(s, Paths(base, n).ready);
    MarkersApart(base, k, n);
  }

  /** Removing VM `n`'s pid file once its ready marker is gone keeps the
      order of every VM `k`. */
  lemma OrderedAfterRemovePid(s: Fs, base: Path, n: string, k: string)
    requires !s.IsFile(Paths(base, n).ready)
    ensures ReadyImpliesPid(s, Paths(base, k)) ==> ReadyImpliesPid(Apply(s, s.Remove(Paths(base, n).pid)).0, Paths(base, k))
  {
    RemoveKeepsOtherFiles(s, Paths(base, n).pid);
    MarkersApart(base, k, n);
  }

  /** `os.Remove(p)`, whatever its outcome, leaves no file at `p` and every
      other file in place. */
  lemma RemoveKeepsOtherFiles(s: Fs, p: Path)
    ensures var t := Apply(s, s.Remove(p)).0;
      !t.IsFile(p) && forall q :: q != p ==> (t.IsFile(q) <==> s.IsFile(q))
  {
  }

  /** Releasing VM `n`'s lock keeps the order of every VM `k`. */
  lemma OrderedAfterRelease(s: Fs, base: Path, n: string, k: string)
    ensures ReadyImpliesPid(s, Paths(base, k)) ==> ReadyImpliesPid(s.RemoveAll(Paths(base, n).lock), Paths(base, k))
  {
    MarkersApart(base, k, n);
  }

  /** Two stretches of a run, each keeping the order, keep it together. */
  lemma OrderKeptJoin(a: seq<Fs>, b: seq<Fs>, c: seq<Fs>, m: Markers)
    requires OrderKept(a, b, m) && OrderKept(b, c, m)
    ensures OrderKept(a, c, m)
  {
    OrderKeptLast(a, b, m);
    assert c[..|a|] == b[..|a|];
    if ReadyImpliesPid(a[|a| - 1], m) {
      forall i | |a| <= i < |c| ensures ReadyImpliesPid(c[i], m) {
        if i < |b| {
          assert c[i] == b[i];
        }
      }
    }
  }

  // ---------------------------------------------------------------------------
  // The shim

  /** `writePIDAtomically`: `"%d\n"` of `pid` staged in `path + ".tmp"` and
      renamed onto `path`, the pid file of VM `n`. Each state it passes
      through keeps every VM's order. */
  method WritePIDAtomically(host: Host, path: Path, pid: Int64, ghost base: Path, ghost n: string) returns (e: Outcome)
    requires host.Valid() && path == Paths(base, n).pid
    modifies host
    ensures host.Valid()
    ensures (host.fs, e) == Publish(old(host.fs), path, Text(PidText(pid)))
    ensures AllOrderKept(old(host.history), host.history, base)
  {
    ghost var h0 := host.history;
    e := StageByOpen(host, path, Text(PidText(pid)));
    AllKeptThroughPublish(h0, host.history, base, n, path);
  }

  /** `writeReadyAtomically`; `stamp` is the RFC 3339 time it records and
      `path` the ready marker of VM `n`, whose pid file exists. */
  method WriteReadyAtomically(host: Host, path: Path, stamp: string, ghost base: Path, ghost n: string) returns (e: Outcome)
    requires host.Valid() && path == Paths(base, n).ready && host.fs.IsFile(Paths(base, n).pid)
    modifies host
    ensures host.Valid()
    ensures (host.fs, e) == Publish(old(host.fs), path, Text(stamp))
    ensures AllOrderKept(old(host.history), host.history, base)
  {
    ghost var h0 := host.history;
    e := StageByWrite(host, path, Text(stamp));
    AllKeptThroughPublish(h0, host.history, base, n, path);
  }

  /** Every VM's order is kept from `before` to `after`. */
  ghost predicate AllOrderKept(before: seq<Fs>, after: seq<Fs>, base: Path) {
    forall k :: KeptFor(before, after, base, k)
  }

  /** The order of VM `k` is kept from `before` to `after`. */
  ghost predicate KeptFor(before: seq<Fs>, after: seq<Fs>, base: Path, k: string) {
    OrderKept(before, after, Paths(base, k))
  }

  lemma AllKeptJoin(a: seq<Fs>, b: seq<Fs>, c: seq<Fs>, base: Path)
    requires AllOrderKept(a, b, base) && AllOrderKept(b, c, base)
    ensures AllOrderKept(a, c, base)
  {
    forall k ensures KeptFor(a, c, base, k) {
      assert KeptFor(a, b, base, k) && KeptFor(b, c, base, k);
      OrderKeptJoin(a, b, c, Paths(base, k));
    }
  }

  /** A publication of VM `n`'s pid file, or of its ready file once its pid
      file exists, keeps every VM's order. */
  lemma AllKeptThroughPublish(h: seq<Fs>, after: seq<Fs>, base: Path, n: string, path: Path)
    requires h != [] && path != []
    requires path == Paths(base, n).pid
      || (path == Paths(base, n).ready && h[|h| - 1].IsFile(Paths(base, n).pid))
    requires PublishFrame(h, after, path)
    ensures AllOrderKept(h, after, base)
  {
    forall k ensures KeptFor(h, after, base, k) {
      OrderKeptStarts(h, Paths(base, k));
      OrderKeptThroughPublish(h, h, after, base, n, path, k);
    }
  }

  /** Steps that change no file keep every VM's order. */
  lemma AllKeptSameFiles(before: seq<Fs>, after: seq<Fs>, base: Path)
    requires before != [] && |before| <= |after| && after[..|before|] == before
    requires forall i :: |before| <= i < |after| ==> after[i].files == before[|before| - 1].files
    ensures AllOrderKept(before, after, base)
  {
    forall k ensures KeptFor(before, after, base, k) {
      OrderKeptSameFiles(before, after, Paths(base, k));
    }
  }

  /** Releasing VM `n`'s lock keeps every VM's order. */
  lemma AllKeptRelease(h: seq<Fs>, base: Path, n: string)
    requires h != []
    ensures AllOrderKept(h, h + [h[|h| - 1].RemoveAll(Paths(base, n).lock)], base)
  {
    var s := h[|h| - 1].RemoveAll(Paths(base, n).lock);
    forall k ensures KeptFor(h, h + [s], base, k) {
      OrderKeptStarts(h, Paths(base, k));
      OrderedAfterRelease(h[|h| - 1], base, n, k);
      OrderKeptExtends(h, h, s, Paths(base, k));
    }
  }

  /** The clean-up after the wait keeps every VM's order: ready goes before
      pid. */
  lemma AllKeptCleanUp(h: seq<Fs>, s1: Fs, s2: Fs, s3: Fs, base: Path, n: string)
    requires h != []
    requires s1 == Apply(h[|h| - 1], h[|h| - 1].Remove(Paths(base, n).ready)).0
    requires s2 == Apply(s1, s1.Remove(Paths(base, n).pid)).0
    requires s3 == s2.RemoveAll(Paths(base, n).lock)
    ensures AllOrderKept(h, h + [s1] + [s2] + [s3], base)
  {
    forall k ensures KeptFor(h, h + [s1] + [s2] + [s3], base, k) {
      CleanUpKeepsOrder(h, s1, s2, s3, base, n, k);
    }
  }

  lemma CleanUpKeepsOrder(h: seq<Fs>, s1: Fs, s2: Fs, s3: Fs, base: Path, n: string, k: string)
    requires h != []
    requires s1 == Apply(h[|h| - 1], h[|h| - 1].Remove(Paths(base, n).ready)).0
    requires s2 == Apply(s1, s1.Remove(Paths(base, n).pid)).0
    requires s3 == s2.RemoveAll(Paths(base, n).lock)
    ensures OrderKept(h, h + [s1] + [s2] + [s3], Paths(base, k))
  {
    var s0 := h[|h| - 1];
    var mk := Paths(base, k);
    OrderKeptStarts(h, mk);
    OrderedAfterRemoveReady(s0, base, n, n);
    OrderedAfterRemoveReady(s0, base, n, k);
    OrderKeptExtends(h, h, s1, mk);
    OrderedAfterRemovePid(s1, base, n, k);
    OrderKeptExtends(h, h + [s1], s2, mk);
    OrderedAfterRelease(s2, base, n, k);
    OrderKeptExtends(h, h + [s1] + [s2], s3, mk);
  }

  /** The two atomic writes of `RunChild`: the pid file, then, if that
      succeeded, the ready marker. */
  method PublishMarkers(host: Host, base: Path, n: string, selfPid: Int64, stamp: string) returns (e: Outcome)
    requires host.Valid()
    modifies host
    ensures host.Valid()
    ensures (host.fs, e) == Announce(old(host.fs), Paths(base, n), selfPid, stamp)
    ensures AllOrderKept(old(host.history), host.history, base)
  {
    var m := Paths(base, n);
    ghost var h0 := host.history;
    ghost var s0 := host.fs;
    e := WritePIDAtomically(host, m.pid, selfPid, base, n);
    ghost var h1 := host.history;
    if e.Fail? {
      return;
    }
    PublishEffect(s0, m.pid, Text(PidText(selfPid)));
    e := WriteReadyAtomically(host, m.ready, stamp, base, n);
    AllKeptJoin(h0, h1, host.history, base);
  }

  /** The part of `RunChild` that holds the lock of VM `n`. */
  method HoldLock(host: Host, base: Path, n: string, selfPid: Int64, stamp: string) returns (e: Outcome)
    requires host.Valid()
    modifies host
    ensures host.Valid()
    ensures (host.fs, e) == Held(old(host.fs), Paths(base, n), selfPid, stamp)
    ensures AllOrderKept(old(host.history), host.history, base)
  {
    var m := Paths(base, n);
    ghost var h0 := host.history;
    e := PublishMarkers(host, base, n, selfPid, stamp);
    ghost var h1 := host.history;
    if e.Fail? {
      host.RemoveAll(m.lock);
      AllKeptRelease(h1, base, n);
    } else {
      // Blocks until the context is cancelled or SIGTERM/SIGINT arrives;
      // both continue here.
      CleanUp(host, base, n);
    }
    AllKeptJoin(h0, h1, host.history, base);
  }

  /** After the wait: remove ready, then pid, ignoring errors; then the
      deferred release of the lock. */
  method CleanUp(host: Host, base: Path, n: string)
    requires host.Valid()
    modifies host
    ensures host.Valid()
    ensures host.fs == Withdraw(old(host.fs), Paths(base, n))
    ensures AllOrderKept(old(host.history), host.history, base)
  {
    var m := Paths(base, n);
    ghost var h0 := host.history;
    ghost var s0 := host.fs;
    var _ := host.Remove(m.ready);
    ghost var s1 := host.fs;
    assert s1 == s0.RemoveIgnoringError(m.ready);
    var _ := host.Remove(m.pid);
    ghost var s2 := host.fs;
    assert s2 == s1.RemoveIgnoringError(m.pid);
    host.RemoveAll(m.lock);
    AllKeptCleanUp(h0, s1, s2, host.fs, base, n);
  }

  /** Steps that change no file keep the order. */
  lemma OrderKeptSameFiles(before: seq<Fs>, after: seq<Fs>, m: Markers)
    requires before != [] && |before| <= |after| && after[..|before|] == before
    requires forall i :: |before| <= i < |after| ==> after[i].files == before[|before| - 1].files
    ensures OrderKept(before, after, m)
  {
  }

  /** `RunChild` up to the lock. Loading and resolving the paths only
      create directories, and so does the lock: no file changes. */
  method ClaimLock(store: FsStore.Store, name: string) returns (r: Result<string>)
    requires store.host.Valid()
    modifies store.host
    ensures store.host.Valid()
    ensures (store.host.fs, r) == Claim(old(store.host.fs), store.baseDir, name)
    ensures |old(store.host.history)| <= |store.host.history|
    ensures store.host.history[..|old(store.host.history)|] == old(store.host.history)
    ensures forall i :: |old(store.host.history)| <= i < |store.host.history| ==>
      store.host.history[i].files == old(store.host.fs).files
  {
    var host := store.host;
    ghost var h0 := host.history;
    ghost var s0 := host.fs;
    var vm := store.Load(name);
    ghost var s1 := host.fs;
    assert s1.files == s0.files;
    if vm.Err? {
      return Err(vm.error);
    }
    var paths := store.RuntimePaths(vm.value.name);
    ghost var s2 := host.fs;
    assert s2.files == s0.files;
    assert host.history == h0 + [s1, s2];
    var lockDir;
    match paths {
      case Err(e) => return Err(e);
      case Ok(p) => lockDir := p.lockDir;
    }
    FsStore.RuntimePathsAgree(store.baseDir, vm.value.name);
    var lock := host.Mkdir(lockDir);
    if lock.Fail? {
      return Err(LockInUse(lock.error));
    }
    return Ok(vm.value.name);
  }

  /** `RunChild(ctx, store, name)`, with `selfPid` for `os.Getpid()` and
      `stamp` for the time the ready marker records. No VM's ready marker is
      visible without its pid file in any state the run passes through,
      unless that was already so when it started. */
  method RunChild(store: FsStore.Store, name: string, selfPid: Int64, stamp: string) returns (e: Outcome)
    requires store.host.Valid()
    modifies store.host
    ensures store.host.Valid()
    ensures (store.host.fs, e) == Lifecycle(old(store.host.fs), store.baseDir, name, selfPid, stamp)
    ensures AllOrderKept(old(store.host.history), store.host.history, store.baseDir)
  {
    var host := store.host;
    ghost var h0 := host.history;
    var claimed := ClaimLock(store, name);
    ghost var h1 := host.history;
    AllKeptSameFiles(h0, h1, store.baseDir);
    if claimed.Err? {
      return Fail(claimed.error);
    }
    e := HoldLock(host, store.baseDir, claimed.value, selfPid, stamp);
    AllKeptJoin(h0, h1, host.history, store.baseDir);
  }
}
