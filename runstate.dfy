/** The runtime-state coordinator (`internal/runstate/fs`): the per-VM lock
    directory, the published PID file, the ready marker, stale-state
    reclamation and the bounded wait for readiness, over the host filesystem.

    Each operation is specified by a pure function of the filesystem state
    (`Acquire`, `Publish`, `ReadPIDAt`, `ClearMarkers`, `Reclaim`, `Poll`); the
    methods of `Service` perform the same steps one primitive at a time and are
    proved to end in the state that function gives. The lemmas state what the
    functions mean. */
module RunState {
  import opened Base
  import opened Text
  import opened Domain
  import opened FileSystem

  /** How long `WaitReadyAndPID` waits for the ready marker, and how often it
      looks. */
  const DeadlineMs: nat := 15000
  const TickMs: nat := 100

  /** The runtime artifacts of one VM. */
  datatype Markers = Markers(pid: Path, ready: Path, lock: Path)

  function VmDir(base: Path, name: string): Path {
    base + ["vms", name]
  }

  /** `paths`: `vm.pid`, `vm.ready` and `vm.lock.d` in the VM's directory. */
  function Paths(base: Path, name: string): (m: Markers)
    ensures m.pid != [] && m.ready != [] && m.lock != []
    ensures Parent(m.pid) == VmDir(base, name)
    ensures Parent(m.ready) == VmDir(base, name)
    ensures Parent(m.lock) == VmDir(base, name)
    ensures m.pid != m.ready && m.ready != m.lock && m.pid != m.lock
    ensures |m.pid| == |m.ready| == |m.lock| == |base| + 3
  {
    var d := VmDir(base, name);
    Markers(d + ["vm.pid"], d + ["vm.ready"], d + ["vm.lock.d"])
  }

  /** The staging files of the pid and ready markers are neither of the three
      markers, and none of the five paths lies below another. */
  lemma PathsApart(base: Path, name: string)
    ensures var m := Paths(base, name);
      && TmpPath(m.pid) !in {m.pid, m.ready, m.lock}
      && TmpPath(m.ready) !in {m.pid, m.ready, m.lock, TmpPath(m.pid)}
      && !(m.lock <= m.pid) && !(m.lock <= m.ready)
      && !(m.lock <= TmpPath(m.pid)) && !(m.lock <= TmpPath(m.ready))
  {
    var m := Paths(base, name);
    var d := VmDir(base, name);
    assert "vm.pid" + ".tmp" == "vm.pid.tmp" && "vm.ready" + ".tmp" == "vm.ready.tmp";
    assert m.pid[|m.pid| - 1] == "vm.pid" && m.ready[|m.ready| - 1] == "vm.ready";
    assert TmpPath(m.pid) == d + ["vm.pid.tmp"];
    assert TmpPath(m.ready) == d + ["vm.ready.tmp"];
    assert (d + ["vm.pid.tmp"])[|d|] == "vm.pid.tmp";
    assert (d + ["vm.ready.tmp"])[|d|] == "vm.ready.tmp";
    assert m.lock[|d|] == "vm.lock.d" && m.pid[|d|] == "vm.pid" && m.ready[|d|] == "vm.ready";
  }

  /** Paths of two different VMs are different, and neither VM's lock lies
      above the other's markers. */
  lemma PathsOfDistinctVms(base: Path, a: string, b: string)
    requires a != b
    ensures var ma := Paths(base, a); var mb := Paths(base, b);
      && ma.pid != mb.pid && ma.ready != mb.ready && ma.lock != mb.lock
      && !(ma.lock <= mb.pid) && !(ma.lock <= mb.ready)
  {
    var ma := Paths(base, a);
    var mb := Paths(base, b);
    assert ma.pid[|base| + 1] == a && mb.pid[|base| + 1] == b;
    assert ma.lock[|base| + 1] == a && mb.ready[|base| + 1] == b;
  }

  // ---------------------------------------------------------------------------
  // Specification functions

  /** `AcquireLock`: create the VM directory, then the lock directory. On
      success the result is the lock path, which the release closure removes. */
  function Acquire(fs: Fs, base: Path, name: string): (Fs, Result<Path>) {
    var m := Paths(base, name);
    match fs.MkdirAll(VmDir(base, name))
    case Err(e) => (fs, Err(e))
    case Ok(f) =>
      match f.Mkdir(m.lock)
      case Err(e) => (f, Err(LockInUse(e)))
      case Ok(g) => (g, Ok(m.lock))
  }

  /** Write to `path + ".tmp"` and rename into place (`WritePID`,
      `MarkReady`, and the shim's atomic writers). */
  function Publish(fs: Fs, path: Path, c: Content): (Fs, Outcome)
    requires path != []
  {
    var tmp := TmpPath(path);
    match fs.MkdirAll(Parent(path))
    case Err(e) => (fs, Fail(e))
    case Ok(f1) =>
      match f1.WriteFile(tmp, c)
      case Err(e) => (f1, Fail(e))
      case Ok(f2) =>
        match f2.Rename(tmp, path)
        case Err(e) => (f2, Fail(e))
        case Ok(f3) => (f3, Nil)
  }

  /** The text `WritePID` writes: `fmt.Fprintf(w, "%d\n", pid)`. */
  function PidText(pid: int): string {
    Itoa(pid) + "\n"
  }

  /** Open `p` and `fmt.Fscan` an integer from it. A directory opens but
      cannot be read; a JSON document does not start with a digit. */
  function ReadPIDAt(fs: Fs, p: Path): (r: Result<Int64>)
    ensures r.Ok? ==> fs.IsFile(p) && fs.files[p].Text? && Scan(fs.files[p].text) == r
  {
    match fs.ReadFile(p)
    case Err(e) => Err(e)
    case Ok(Text(t)) => Scan(t)
    case Ok(_) => Err(ExpectedInteger)
  }

  /** `Clear`: remove the pid and ready markers, ignoring errors. */
  function ClearMarkers(fs: Fs, m: Markers): Fs {
    fs.RemoveIgnoringError(m.pid).RemoveIgnoringError(m.ready)
  }

  /** `CleanupIfStale` on paths `m`, with `alive(pid)` standing for
      `kill(pid, 0) == nil`. */
  function Reclaim(fs: Fs, m: Markers, alive: int -> bool): Fs {
    match ReadPIDAt(fs, m.pid)
    case Err(_) => fs
    case Ok(pid) =>
      if alive(pid) then fs
      else fs.RemoveIgnoringError(m.pid).RemoveIgnoringError(m.ready).RemoveAll(m.lock)
  }

  /** What `WaitReadyAndPID` sees at its k-th check: the filesystem, the time
      since the call began, and whether the `select` that follows takes the
      cancelled context rather than the next tick. */
  datatype Observation = Observation(fs: Fs, elapsedMs: nat, cancelled: bool)

  /** The ticker: the k-th check happens at least k ticks after the start. */
  ghost predicate TicksAdvance(obs: nat -> Observation) {
    forall k: nat :: obs(k).elapsedMs >= k * TickMs
  }

  /** The decision of one iteration: the ready marker first, then the
      deadline, then cancellation; `None` means wait for the next tick. */
  function Poll(o: Observation, m: Markers, name: string): Option<Result<Int64>> {
    if o.fs.Exists(m.ready) then Some(ReadPIDAt(o.fs, m.pid))
    else if o.elapsedMs > DeadlineMs then Some(Err(ReadinessTimeout(name)))
    else if o.cancelled then Some(Err(ContextCanceled))
    else None
  }

  /** The wait ends at check `k`: it decides there and at no earlier check. */
  predicate EndsAt(obs: nat -> Observation, m: Markers, name: string, k: nat) {
    Poll(obs(k), m, name).Some? && forall j: nat :: j < k ==> Poll(obs(j), m, name).None?
  }

  /** `ReadyImpliesPid`: a ready marker is never visible without a pid file
      (the invariant the pid-before-ready order maintains). */
  predicate ReadyImpliesPid(fs: Fs, m: Markers) {
    fs.IsFile(m.ready) ==> fs.IsFile(m.pid)
  }

  // ---------------------------------------------------------------------------
  // Lemmas

  /** A held lock makes `AcquireLock` fail with "lock in use" and change
      nothing. */
  lemma AcquireWhenHeld(fs: Fs, base: Path, name: string)
    requires fs.Valid() && fs.IsDir(Paths(base, name).lock)
    ensures Acquire(fs, base, name) == (fs, Err(LockInUse(AlreadyExists(Paths(base, name).lock))))
  {
    var m := Paths(base, name);
    assert fs.IsDir(Parent(m.lock));
  }

  /** A successful `AcquireLock` found no lock and leaves the lock directory in
      place, adding only directories on the way to it. */
  lemma AcquireWhenFree(fs: Fs, base: Path, name: string)
    requires fs.Valid()
    requires Acquire(fs, base, name).1.Ok?
    ensures var (f, r) := Acquire(fs, base, name);
      && r.value == Paths(base, name).lock
      && !fs.Exists(r.value) && f.IsDir(r.value)
      && f.files == fs.files && fs.dirs <= f.dirs
      && (forall q :: q in f.dirs && q !in fs.dirs ==> q <= r.value)
      && f.Valid()
  {
  }

  /** Two acquisitions with no release between them cannot both succeed. */
  lemma AcquireExclusive(fs: Fs, base: Path, name: string)
    requires fs.Valid()
    requires Acquire(fs, base, name).1.Ok?
    ensures Acquire(Acquire(fs, base, name).0, base, name).1 == Err(LockInUse(AlreadyExists(Paths(base, name).lock)))
  {
    var f := Acquire(fs, base, name).0;
    AcquireWhenHeld(f, base, name);
  }

  /** After the release closure removes the lock directory, `AcquireLock`
      succeeds again. */
  lemma ReleaseThenAcquire(fs: Fs, base: Path, name: string)
    requires fs.Valid()
    requires Acquire(fs, base, name).1.Ok?
    ensures var (f, r) := Acquire(fs, base, name);
      Acquire(f.RemoveAll(r.value), base, name).1 == Ok(r.value)
  {
    var (f, r) := Acquire(fs, base, name);
    var m := Paths(base, name);
    var g := f.RemoveAll(m.lock);
    var d := VmDir(base, name);
    assert !(m.lock <= d);
    assert g.IsDir(d);
    assert !g.Exists(m.lock);
  }

  /** A successful publication leaves `c` at `path`, removes the staging file,
      leaves every other file as it was and adds only directories on the way
      to `path`. */
  lemma PublishEffect(fs: Fs, path: Path, c: Content)
    requires fs.Valid() && path != []
    requires Publish(fs, path, c).1 == Nil
    ensures var f := Publish(fs, path, c).0;
      && f.Valid()
      && f.files == (fs.files - {TmpPath(path)})[path := c]
      && fs.dirs <= f.dirs
      && (forall q :: q in f.dirs && q !in fs.dirs ==> q <= Parent(path))
  {
  }

  /** Publication succeeds whenever the directory exists and neither the
      staging path nor the target is a directory. */
  lemma PublishSucceeds(fs: Fs, path: Path, c: Content)
    requires fs.Valid() && path != []
    requires fs.IsDir(Parent(path)) && !fs.IsDir(TmpPath(path)) && !fs.IsDir(path)
    ensures Publish(fs, path, c).1 == Nil
  {
  }

  /** What a successful publication changes, path by path: `path` holds `c`,
      the staging file is gone, every other file is as it was, and so is every
      directory deeper than `path`'s parent. */
  lemma PublishedPaths(fs: Fs, path: Path, c: Content)
    requires fs.Valid() && path != []
    requires Publish(fs, path, c).1 == Nil
    ensures var f := Publish(fs, path, c).0;
      && f.Valid() && f.IsFile(path) && f.files[path] == c && !f.Exists(TmpPath(path))
      && (forall q :: q != path && q != TmpPath(path) ==> (f.IsFile(q) <==> fs.IsFile(q)))
      && (forall q :: q != path && q in f.files ==> f.files[q] == fs.files[q])
      && (forall q :: |q| > |Parent(path)| ==> (f.IsDir(q) <==> fs.IsDir(q)))
  {
    PublishEffect(fs, path, c);
    var f := Publish(fs, path, c).0;
    assert |TmpPath(path)| > |Parent(path)|;
    assert forall q :: q in f.dirs && q !in fs.dirs ==> |q| <= |Parent(path)|;
  }

  /** `ReadPID` after a successful `WritePID(name, n)` returns exactly `n`, no
      staging file remains, and the ready marker and the lock are untouched. */
  lemma WriteThenReadPID(fs: Fs, base: Path, name: string, n: Int64)
    requires fs.Valid()
    requires Publish(fs, Paths(base, name).pid, Text(PidText(n))).1 == Nil
    ensures var m := Paths(base, name);
      var f := Publish(fs, m.pid, Text(PidText(n))).0;
      && f.files[m.pid] == Text(Itoa(n) + "\n")
      && ReadPIDAt(f, m.pid) == Ok(n)
      && !f.Exists(TmpPath(m.pid))
      && (f.IsFile(m.ready) <==> fs.IsFile(m.ready))
      && (f.IsFile(m.ready) ==> f.files[m.ready] == fs.files[m.ready])
      && (f.IsDir(m.lock) <==> fs.IsDir(m.lock))
  {
    var m := Paths(base, name);
    PathsApart(base, name);
    PublishedPaths(fs, m.pid, Text(PidText(n)));
    ScanItoa(n, "\n");
    var f := Publish(fs, m.pid, Text(PidText(n))).0;
    assert f.files[m.pid] == Text(PidText(n));
    assert |m.lock| > |Parent(m.pid)|;
  }

  /** A pid path below a regular file cannot be opened: ENOTDIR, which is
      not "does not exist". */
  lemma ReadPIDUnderFile(fs: Fs, p: Path, i: nat)
    requires fs.Valid() && 0 < i < |p| && fs.IsFile(p[..i])
    ensures ReadPIDAt(fs, p) == Err(NotADirectory(p))
  {
    AncestorIsDir(fs, p[..i], p);
  }

  /** `ReadPID` fails exactly when the pid file is missing, is not text, or
      its text does not start with an integer (after white space). */
  lemma ReadPIDFails(fs: Fs, p: Path)
    ensures ReadPIDAt(fs, p).Err? <==>
      !fs.IsFile(p) || !fs.files[p].Text? || Scan(fs.files[p].text).Err?
    ensures !fs.Exists(p) ==> ReadPIDAt(fs, p) == Err(fs.Missing(p))
  {
  }

  /** `MarkReady` makes the ready file exist and touches neither the pid file
      nor the lock. */
  lemma MarkReadyEffect(fs: Fs, base: Path, name: string, stamp: string)
    requires fs.Valid()
    requires Publish(fs, Paths(base, name).ready, Text(stamp)).1 == Nil
    ensures var m := Paths(base, name);
      var f := Publish(fs, m.ready, Text(stamp)).0;
      && f.IsFile(m.ready) && !f.Exists(TmpPath(m.ready))
      && (f.IsFile(m.pid) <==> fs.IsFile(m.pid))
      && (f.IsFile(m.pid) ==> f.files[m.pid] == fs.files[m.pid])
      && (f.IsDir(m.lock) <==> fs.IsDir(m.lock))
  {
    var m := Paths(base, name);
    PathsApart(base, name);
    PublishedPaths(fs, m.ready, Text(stamp));
    assert |m.lock| > |Parent(m.ready)|;
  }

  /** `Clear` leaves no pid or ready file, keeps the lock and everything
      below it, and changes nothing else. */
  lemma ClearEffect(fs: Fs, base: Path, name: string)
    requires fs.Valid()
    ensures var m := Paths(base, name); var f := ClearMarkers(fs, m);
      && f.Valid()
      && !f.IsFile(m.pid) && !f.IsFile(m.ready)
      && (forall q :: q != m.pid && q != m.ready ==> (f.IsFile(q) <==> fs.IsFile(q)))
      && (forall q :: q in f.files ==> f.files[q] == fs.files[q])
      && (forall q :: q != m.pid && q != m.ready ==> (f.IsDir(q) <==> fs.IsDir(q)))
  {
  }

  /** `Clear` is idempotent. */
  lemma {:induction false} ClearIdempotent(fs: Fs, base: Path, name: string)
    requires fs.Valid()
    ensures var m := Paths(base, name); ClearMarkers(ClearMarkers(fs, m), m) == ClearMarkers(fs, m)
  {
    var m := Paths(base, name);
    var s1 := fs.RemoveIgnoringError(m.pid);
    var s2 := s1.RemoveIgnoringError(m.ready);
    assert !(m.pid < m.ready) && !(m.ready < m.pid);
    // The pid marker cannot be removed from s2: it is not a file, and a
    // directory there is one that could not be removed from fs either.
    assert s2.Remove(m.pid).Err? by {
      if m.pid in s2.dirs {
        assert m.pid in fs.dirs && fs.Remove(m.pid).Err?;
        assert s1 == fs;
        assert fs.HasEntriesBelow(m.pid);
        if exists q :: q in fs.files && m.pid < q {
          var q :| q in fs.files && m.pid < q;
          assert q != m.ready;
          assert q in s2.files;
        } else {
          var q :| q in fs.dirs && m.pid < q;
          assert q != m.ready;
          assert q in s2.dirs;
        }
        assert s2.HasEntriesBelow(m.pid);
      }
    }
    assert s2.RemoveIgnoringError(m.pid) == s2;
    assert s2.Remove(m.ready).Err? by {
      if m.ready in s2.dirs {
        assert s1.Remove(m.ready).Err? && s2 == s1;
      }
    }
  }

  /** `CleanupIfStale` changes nothing unless the pid file holds the pid of a
      process that is not alive. */
  lemma ReclaimLeavesLive(fs: Fs, base: Path, name: string, alive: int -> bool)
    requires var r := ReadPIDAt(fs, Paths(base, name).pid); r.Err? || alive(r.value)
    ensures Reclaim(fs, Paths(base, name), alive) == fs
  {
  }

  /** When the pid file names a process that is not alive, `CleanupIfStale`
      removes the pid file, the ready file and the whole lock directory, and
      changes nothing else. */
  lemma ReclaimStale(fs: Fs, base: Path, name: string, alive: int -> bool)
    requires fs.Valid()
    requires var r := ReadPIDAt(fs, Paths(base, name).pid); r.Ok? && !alive(r.value)
    ensures var m := Paths(base, name); var f := Reclaim(fs, m, alive);
      && f.Valid()
      && !f.Exists(m.pid) && !f.IsFile(m.ready) && !f.Exists(m.lock)
      && (fs.IsFile(m.ready) ==> !f.Exists(m.ready))
      && (forall q :: q != m.pid && q != m.ready && !(m.lock <= q) ==>
            (f.IsFile(q) <==> fs.IsFile(q)) && (f.IsDir(q) <==> fs.IsDir(q)))
      && (forall q :: q in f.files ==> f.files[q] == fs.files[q])
  {
    var m := Paths(base, name);
    PathsApart(base, name);
    var s1 := fs.RemoveIgnoringError(m.pid);
    var s2 := s1.RemoveIgnoringError(m.ready);
    var f := s2.RemoveAll(m.lock);
    assert Reclaim(fs, m, alive) == f;
    assert s1.Valid() && s2.Valid();
    assert !s2.Exists(m.pid);
    assert fs.IsFile(m.ready) ==> s1.IsFile(m.ready) && !s2.Exists(m.ready);
  }

  /** A live shim's state is never reclaimed, and a reclaimed VM can be
      locked again. */
  lemma ReclaimThenAcquire(fs: Fs, base: Path, name: string, alive: int -> bool)
    requires fs.Valid()
    requires ReadPIDAt(fs, Paths(base, name).pid).Ok?
    requires !alive(ReadPIDAt(fs, Paths(base, name).pid).value)
    ensures Acquire(Reclaim(fs, Paths(base, name), alive), base, name).1.Ok?
  {
    var m := Paths(base, name);
    ReclaimStale(fs, base, name, alive);
    var f := Reclaim(fs, m, alive);
    assert fs.IsDir(Parent(m.pid));
    assert f.IsDir(VmDir(base, name)) by {
      assert !(m.lock <= VmDir(base, name));
    }
  }

  /** The wait's check order: a present ready marker wins over the deadline and
      the cancellation observed at the same check. */
  lemma ReadyWins(o: Observation, m: Markers, name: string)
    requires o.fs.Exists(m.ready)
    ensures Poll(o, m, name) == Some(ReadPIDAt(o.fs, m.pid))
  {
  }

  /** The wait always ends, at the latest at the first check past the
      deadline. */
  lemma {:induction false} WaitEnds(obs: nat -> Observation, m: Markers, name: string)
    requires TicksAdvance(obs)
    ensures exists k: nat :: k <= DeadlineMs / TickMs + 1 && EndsAt(obs, m, name, k)
  {
    var k: nat := 0;
    while Poll(obs(k), m, name).None?
      invariant k <= DeadlineMs / TickMs + 1
      invariant forall j: nat :: j < k ==> Poll(obs(j), m, name).None?
      decreases DeadlineMs / TickMs + 1 - k
    {
      assert obs(k).elapsedMs >= k * TickMs;
      k := k + 1;
    }
    assert EndsAt(obs, m, name, k);
  }

  // ---------------------------------------------------------------------------
  // Atomic publication, step by step

  /** `s` agrees with `start` on which paths are files, except for `path`
      and its staging file, and `path`, if it was a file, still is one. */
  ghost predicate KeepsFiles(start: Fs, s: Fs, path: Path)
    requires path != []
  {
    && s.files.Keys - {path, TmpPath(path)} == start.files.Keys - {path, TmpPath(path)}
    && (start.IsFile(path) ==> s.IsFile(path))
  }

  /** `after` extends `before`, and every state added keeps the files of the
      state it started from: what a reader in another process can observe
      while `path` is published. */
  ghost predicate PublishFrame(before: seq<Fs>, after: seq<Fs>, path: Path)
    requires path != []
  {
    && before != [] && |before| <= |after| && after[..|before|] == before
    && forall i :: |before| <= i < |after| ==> KeepsFiles(before[|before| - 1], after[i], path)
  }

  lemma FrameStarts(before: seq<Fs>, path: Path)
    requires path != [] && before != []
    ensures PublishFrame(before, before, path)
  {
    assert before[..|before|] == before;
  }

  lemma FrameExtends(before: seq<Fs>, after: seq<Fs>, s: Fs, path: Path)
    requires path != [] && PublishFrame(before, after, path)
    requires KeepsFiles(before[|before| - 1], s, path)
    ensures PublishFrame(before, after + [s], path)
  {
    var a := after + [s];
    assert a[..|before|] == after[..|before|];
    forall i | |before| <= i < |a|
      ensures KeepsFiles(before[|before| - 1], a[i], path)
    {
      if i < |after| {
        assert a[i] == after[i];
      }
    }
  }

  /** Each step of a publication keeps the files of the state it started
      from: creating directories, writing the staging file, renaming it onto
      `path`. */
  lemma KeepsAcrossStep(start: Fs, s: Fs, t: Fs, path: Path, c: Content)
    requires path != [] && KeepsFiles(start, s, path)
    requires t.files == s.files
      || t.files == s.files[TmpPath(path) := c]
      || (TmpPath(path) in s.files && t.files == (s.files - {TmpPath(path)})[path := s.files[TmpPath(path)]])
    ensures KeepsFiles(start, t, path)
  {
  }

  /** Writing a file that was just created empty is writing it once. */
  lemma OverwriteStaged(f: Fs, p: Path, a: Content, c: Content)
    requires f.WriteFile(p, a).Ok?
    ensures f.WriteFile(p, a).value.WriteFile(p, c) == f.WriteFile(p, c)
  {
    assert f.files[p := a][p := c] == f.files[p := c];
  }

  /** `WritePID` and the shim's `writePIDAtomically`: create the directory,
      open the staging file truncating it, write, flush, sync and close it, and
      rename it into place. Write, flush, sync and close are not modelled as
      failing; the best-effort directory sync has no effect here. */
  method StageByOpen(host: Host, path: Path, c: Content) returns (e: Outcome)
    requires host.Valid() && path != []
    modifies host
    ensures host.Valid()
    ensures (host.fs, e) == Publish(old(host.fs), path, c)
    ensures PublishFrame(old(host.history), host.history, path)
  {
    ghost var f0 := host.fs;
    ghost var h0 := host.history;
    FrameStarts(h0, path);
    var tmp := TmpPath(path);
    e := host.MkdirAll(Parent(path));
    KeepsAcrossStep(f0, f0, host.fs, path, c);
    FrameExtends(h0, h0, host.fs, path);
    if e.Fail? {
      return;
    }
    ghost var f1 := host.fs;
    ghost var h1 := host.history;
    e := host.WriteFile(tmp, Text(""));
    KeepsAcrossStep(f0, f1, host.fs, path, Text(""));
    FrameExtends(h0, h1, host.fs, path);
    if e.Fail? {
      return;
    }
    ghost var g := host.fs;
    ghost var h2 := host.history;
    var _ := host.WriteFile(tmp, c);
    OverwriteStaged(f1, tmp, Text(""), c);
    KeepsAcrossStep(f0, g, host.fs, path, c);
    FrameExtends(h0, h2, host.fs, path);
    ghost var f2 := host.fs;
    ghost var h3 := host.history;
    e := host.Rename(tmp, path);
    KeepsAcrossStep(f0, f2, host.fs, path, c);
    FrameExtends(h0, h3, host.fs, path);
  }

  /** `MarkReady` and the shim's `writeReadyAtomically`: create the
      directory, write the staging file whole with `WriteFile`, and rename it
      into place. */
  method StageByWrite(host: Host, path: Path, c: Content) returns (e: Outcome)
    requires host.Valid() && path != []
    modifies host
    ensures host.Valid()
    ensures (host.fs, e) == Publish(old(host.fs), path, c)
    ensures PublishFrame(old(host.history), host.history, path)
  {
    ghost var f0 := host.fs;
    ghost var h0 := host.history;
    FrameStarts(h0, path);
    var tmp := TmpPath(path);
    e := host.MkdirAll(Parent(path));
    KeepsAcrossStep(f0, f0, host.fs, path, c);
    FrameExtends(h0, h0, host.fs, path);
    if e.Fail? {
      return;
    }
    ghost var f1 := host.fs;
    ghost var h1 := host.history;
    e := host.WriteFile(tmp, c);
    KeepsAcrossStep(f0, f1, host.fs, path, c);
    FrameExtends(h0, h1, host.fs, path);
    if e.Fail? {
      return;
    }
    ghost var f2 := host.fs;
    ghost var h2 := host.history;
    e := host.Rename(tmp, path);
    KeepsAcrossStep(f0, f2, host.fs, path, c);
    FrameExtends(h0, h2, host.fs, path);
  }

  // ---------------------------------------------------------------------------
  // The coordinator

  /** The polling loop both waits run: check the ready marker, then the
      deadline, then the context, every tick until one of them decides. */
  method AwaitReady(m: Markers, name: string, obs: nat -> Observation) returns (r: Result<Int64>)
    requires TicksAdvance(obs)
    ensures exists k: nat :: EndsAt(obs, m, name, k) && r == Poll(obs(k), m, name).value
    ensures obs(0).fs.Exists(m.ready) ==> r == ReadPIDAt(obs(0).fs, m.pid)
    ensures r == Err(ReadinessTimeout(name)) ==> exists k: nat :: obs(k).elapsedMs > DeadlineMs
    ensures r == Err(ContextCanceled) ==> exists k: nat :: obs(k).cancelled
    ensures r.Ok? ==> exists k: nat :: obs(k).fs.Exists(m.ready) && r == ReadPIDAt(obs(k).fs, m.pid)
  {
    var k: nat := 0;
    while true
      invariant k <= DeadlineMs / TickMs + 1
      invariant forall j: nat :: j < k ==> Poll(obs(j), m, name).None?
      decreases DeadlineMs / TickMs + 1 - k
    {
      var o := obs(k);
      if o.fs.Exists(m.ready) {
        r := ReadPIDAt(o.fs, m.pid);
        assert EndsAt(obs, m, name, k);
        return;
      }
      if o.elapsedMs > DeadlineMs {
        r := Err(ReadinessTimeout(name));
        assert EndsAt(obs, m, name, k);
        return;
      }
      if o.cancelled {
        r := Err(ContextCanceled);
        assert EndsAt(obs, m, name, k);
        return;
      }
      assert o.elapsedMs >= k * TickMs;
      k := k + 1;
    }
  }

  class Service {
    const baseDir: Path
    const host: Host

    constructor(baseDir: Path, host: Host)
      ensures this.baseDir == baseDir && this.host == host
    {
      this.baseDir := baseDir;
      this.host := host;
    }

    /** Returns the lock path as the release handle: pass it to `Release`. */
    method AcquireLock(name: string) returns (r: Result<Path>)
      requires host.Valid()
      modifies host
      ensures host.Valid()
      ensures (host.fs, r) == Acquire(old(host.fs), baseDir, name)
    {
      var m := Paths(baseDir, name);
      var e := host.MkdirAll(VmDir(baseDir, name));
      if e.Fail? {
        return Err(e.error);
      }
      e := host.Mkdir(m.lock);
      if e.Fail? {
        return Err(LockInUse(e.error));
      }
      return Ok(m.lock);
    }

    /** The closure `AcquireLock` returns. */
    method Release(lock: Path) returns (e: Outcome)
      requires host.Valid()
      modifies host
      ensures host.Valid()
      ensures host.fs == old(host.fs).RemoveAll(lock) && e == Nil
    {
      host.RemoveAll(lock);
      e := Nil;
    }

    method WritePID(name: string, pid: Int64) returns (e: Outcome)
      requires host.Valid()
      modifies host
      ensures host.Valid()
      ensures (host.fs, e) == Publish(old(host.fs), Paths(baseDir, name).pid, Text(PidText(pid)))
    {
      e := StageByOpen(host, Paths(baseDir, name).pid, Text(PidText(pid)));
    }

    method ReadPID(name: string) returns (r: Result<Int64>)
      ensures r == ReadPIDAt(host.fs, Paths(baseDir, name).pid)
    {
      var c := host.fs.ReadFile(Paths(baseDir, name).pid);
      match c {
        case Err(e) => r := Err(e);
        case Ok(Text(t)) => r := Scan(t);
        case Ok(_) => r := Err(ExpectedInteger);
      }
    }

    /** `stamp` is the RFC 3339 time the marker records. */
    method MarkReady(name: string, stamp: string) returns (e: Outcome)
      requires host.Valid()
      modifies host
      ensures host.Valid()
      ensures (host.fs, e) == Publish(old(host.fs), Paths(baseDir, name).ready, Text(stamp))
    {
      e := StageByWrite(host, Paths(baseDir, name).ready, Text(stamp));
    }

    method Clear(name: string) returns (e: Outcome)
      requires host.Valid()
      modifies host
      ensures host.Valid()
      ensures host.fs == ClearMarkers(old(host.fs), Paths(baseDir, name)) && e == Nil
    {
      var m := Paths(baseDir, name);
      var _ := host.Remove(m.pid);
      var _ := host.Remove(m.ready);
      e := Nil;
    }

    method CleanupIfStale(name: string, alive: int -> bool) returns (e: Outcome)
      requires host.Valid()
      modifies host
      ensures host.Valid()
      ensures host.fs == Reclaim(old(host.fs), Paths(baseDir, name), alive) && e == Nil
    {
      var m := Paths(baseDir, name);
      e := Nil;
      var pid := ReadPID(name);
      if pid.Err? {
        return;
      }
      if alive(pid.value) {
        return;
      }
      var _ := host.Remove(m.pid);
      var _ := host.Remove(m.ready);
      host.RemoveAll(m.lock);
    }

    /** The polling loop, over what each check observes. */
    method WaitReadyAndPID(name: string, obs: nat -> Observation) returns (r: Result<Int64>)
      requires TicksAdvance(obs)
      ensures exists k: nat :: EndsAt(obs, Paths(baseDir, name), name, k)
                              && r == Poll(obs(k), Paths(baseDir, name), name).value
      ensures obs(0).fs.Exists(Paths(baseDir, name).ready) ==>
                r == ReadPIDAt(obs(0).fs, Paths(baseDir, name).pid)
      ensures r == Err(ReadinessTimeout(name)) ==> exists k: nat :: obs(k).elapsedMs > DeadlineMs
      ensures r == Err(ContextCanceled) ==> exists k: nat :: obs(k).cancelled
      ensures r.Ok? ==> exists k: nat :: obs(k).fs.Exists(Paths(baseDir, name).ready)
                                      && r == ReadPIDAt(obs(k).fs, Paths(baseDir, name).pid)
    {
      r := AwaitReady(Paths(baseDir, name), name, obs);
    }
  }
}
