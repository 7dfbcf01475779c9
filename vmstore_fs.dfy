/** The file-backed VM store (`internal/vmstore/fs`): one directory per VM
    under `<base>/vms`, holding the record as `config.json`; the name counter
    in `<base>/state/names.json`; and the runtime paths inside the VM's
    directory. Every operation first makes sure `<base>/vms` exists. */
module FsStore {
  import opened Base
  import opened Text
  import opened Domain
  import opened FileSystem
  import RunState

  function VmsDir(base: Path): Path { base + ["vms"] }

  /** `vmDir`. */
  function VmDir(base: Path, name: string): (d: Path)
    ensures d != [] && Parent(d) == VmsDir(base) && d[|d| - 1] == name
  {
    base + ["vms", name]
  }

  function ConfigPath(base: Path, name: string): Path { VmDir(base, name) + ["config.json"] }

  function SeqPath(base: Path): Path { base + ["state", "names.json"] }

  /** The counter `NextName` starts from: the stored `Next` when the sequence
      file holds one, else 1 (a missing or unreadable file, or a failed decode,
      whose error is ignored). */
  function StoredNext(fs: Fs, base: Path): Int64 {
    match fs.ReadFile(SeqPath(base))
    case Ok(NamesJson(n)) => n
    case _ => 1
  }

  // ---------------------------------------------------------------------------
  // Specification functions: state after the call, and its result

  /** `ensureDirs`. */
  function EnsureDirsAt(fs: Fs, base: Path): (Fs, Outcome) {
    Apply(fs, fs.MkdirAll(VmsDir(base)))
  }

  function Allocate(fs: Fs, base: Path): (Fs, Result<string>) {
    var (f1, e1) := EnsureDirsAt(fs, base);
    if e1.Fail? then (f1, Err(e1.error))
    else match f1.MkdirAll(Parent(SeqPath(base)))
      case Err(e) => (f1, Err(e))
      case Ok(f2) =>
        var n := StoredNext(f2, base);
        match f2.WriteFile(SeqPath(base), NamesJson(Inc64(n)))
        case Err(e) => (f2, Err(e))
        case Ok(f3) => (f3, Ok(NameFor(n)))
  }

  function SaveAt(fs: Fs, base: Path, vm: VM, now: int): (Fs, Outcome) {
    var (f1, e1) := EnsureDirsAt(fs, base);
    if e1.Fail? then (f1, e1)
    else match f1.MkdirAll(VmDir(base, vm.name))
      case Err(e) => (f1, Fail(e))
      case Ok(f2) => Apply(f2, f2.WriteFile(ConfigPath(base, vm.name), VmJson(Stamped(vm, now))))
  }

  /** Read and decode a record, with no directory created. Only ENOENT is
      "not found"; a record that does not decode is a decoding error. */
  function ReadConfig(fs: Fs, base: Path, name: string): Result<VM> {
    match fs.ReadFile(ConfigPath(base, name))
    case Err(NotExist(_)) => Err(VmNotFound(name))
    case Err(e) => Err(e)
    case Ok(VmJson(vm)) => Ok(vm)
    case Ok(_) => Err(DecodeFailed(ConfigPath(base, name)))
  }

  function LoadAt(fs: Fs, base: Path, name: string): (Fs, Result<VM>) {
    var (f1, e1) := EnsureDirsAt(fs, base);
    if e1.Fail? then (f1, Err(e1.error)) else (f1, ReadConfig(f1, base, name))
  }

  function DeleteAt(fs: Fs, base: Path, name: string): (Fs, Outcome) {
    var (f1, e1) := EnsureDirsAt(fs, base);
    if e1.Fail? then (f1, e1) else (f1.RemoveAll(VmDir(base, name)), Nil)
  }

  /** The names of the directories directly inside `dir`. */
  function Subdirs(fs: Fs, dir: Path): set<string> {
    set q | q in fs.dirs && |q| == |dir| + 1 && q[..|dir|] == dir :: q[|dir|]
  }

  /** The entries `List` keeps: directories named `vm-…` whose record loads. */
  function Listable(fs: Fs, base: Path): set<string> {
    Kept(fs, base, Subdirs(fs, VmsDir(base)))
  }

  /** The names among `names` that `List` keeps. */
  function Kept(fs: Fs, base: Path, names: set<string>): set<string> {
    set n | n in names && "vm-" <= n && ReadConfig(fs, base, n).Ok?
  }

  function RuntimePathsOf(base: Path, name: string): RuntimePaths {
    var d := VmDir(base, name);
    RuntimePaths(d, d + ["vm.pid"], d + ["vm.ready"], d + ["vm.lock.d"], d + ["console.sock"])
  }

  // ---------------------------------------------------------------------------
  // Lemmas

  lemma EnsureDirsIdle(fs: Fs, base: Path)
    requires fs.IsDir(VmsDir(base))
    ensures EnsureDirsAt(fs, base) == (fs, Nil)
  {
  }

  /** `NextName` returns the name of the stored counter and stores the next
      value; with no sequence file it starts at `vm-001`. */
  lemma AllocateAdvances(fs: Fs, base: Path)
    requires fs.Valid()
    requires Allocate(fs, base).1.Ok?
    ensures var (f, r) := Allocate(fs, base);
      && r.value == NameFor(StoredNext(fs, base))
      && StoredNext(f, base) == Inc64(StoredNext(fs, base))
      && f.Valid()
  {
  }

  lemma FirstName(fs: Fs, base: Path)
    requires !fs.Exists(SeqPath(base))
    ensures StoredNext(fs, base) == 1 && NameFor(StoredNext(fs, base)) == "vm-001"
  {
    NameForInjective(1, 1);
  }

  /** Two consecutive `NextName` calls give different names. */
  lemma ConsecutiveNamesDistinct(fs: Fs, base: Path)
    requires fs.Valid()
    requires Allocate(fs, base).1.Ok?
    requires Allocate(Allocate(fs, base).0, base).1.Ok?
    ensures Allocate(fs, base).1.value != Allocate(Allocate(fs, base).0, base).1.value
  {
    var f := Allocate(fs, base).0;
    AllocateAdvances(fs, base);
    AllocateAdvances(f, base);
    var a := StoredNext(fs, base);
    NameForInjective(a, Inc64(a));
  }

  /** `Load` after a successful `Save` returns the saved record, with
      `CreatedAt` stamped only when it was 0. */
  lemma SaveThenLoad(fs: Fs, base: Path, vm: VM, now: int)
    requires fs.Valid()
    requires SaveAt(fs, base, vm, now).1 == Nil
    ensures var f := SaveAt(fs, base, vm, now).0;
      && f.Valid()
      && LoadAt(f, base, vm.name) == (f, Ok(Stamped(vm, now)))
  {
    var f := SaveAt(fs, base, vm, now).0;
    assert f.IsDir(VmsDir(base));
  }

  /** `Save` replaces the record of `vm.name` and leaves every other file as
      it was. */
  lemma SaveKeepsOthers(fs: Fs, base: Path, vm: VM, now: int, q: Path)
    requires SaveAt(fs, base, vm, now).1 == Nil
    requires q != ConfigPath(base, vm.name)
    ensures var f := SaveAt(fs, base, vm, now).0;
      (q in f.files <==> q in fs.files) && (q in f.files ==> f.files[q] == fs.files[q])
  {
  }

  /** `Load` reports "not found" exactly when there is no `config.json` and
      the VM's directory is not a file. */
  lemma LoadNotFound(fs: Fs, base: Path, name: string)
    requires fs.Valid() && fs.IsDir(VmsDir(base))
    ensures LoadAt(fs, base, name).1 == Err(VmNotFound(name)) <==>
      !fs.Exists(ConfigPath(base, name)) && !fs.IsFile(VmDir(base, name))
  {
    EnsureDirsIdle(fs, base);
    var c := ConfigPath(base, name);
    var v := VmsDir(base);
    // only the VM's own directory, among the config's ancestors, can be a file
    forall i | 0 < i < |c| - 1 ensures !fs.IsFile(c[..i]) {
      if c[..i] != v {
        AncestorIsDir(fs, c[..i], v);
      }
    }
    assert c[..|c| - 1] == VmDir(base, name);
  }

  /** `Delete` removes the VM's whole directory, including its runtime pid,
      ready and lock paths; a later `Load` fails with "not found"; other VMs'
      files are untouched. */
  lemma DeleteRemovesAll(fs: Fs, base: Path, name: string)
    requires fs.Valid()
    requires DeleteAt(fs, base, name).1 == Nil
    ensures var f := DeleteAt(fs, base, name).0; var m := RunState.Paths(base, name);
      && f.Valid()
      && !f.Exists(VmDir(base, name)) && !f.Exists(ConfigPath(base, name))
      && !f.Exists(m.pid) && !f.Exists(m.ready) && !f.Exists(m.lock)
      && LoadAt(f, base, name).1 == Err(VmNotFound(name))
  {
    var f := DeleteAt(fs, base, name).0;
    var d := VmDir(base, name);
    assert d <= ConfigPath(base, name);
    var m := RunState.Paths(base, name);
    assert d <= m.pid && d <= m.ready && d <= m.lock;
    assert f.IsDir(VmsDir(base)) by {
      assert !(d <= VmsDir(base));
    }
    assert !f.IsFile(d);
    LoadNotFound(f, base, name);
  }

  /** Deleting one VM leaves every other VM's record readable as before. */
  lemma DeleteKeepsOthers(fs: Fs, base: Path, name: string, other: string)
    requires DeleteAt(fs, base, name).1 == Nil && other != name
    ensures ReadConfig(DeleteAt(fs, base, name).0, base, other) == ReadConfig(EnsureDirsAt(fs, base).0, base, other)
  {
    var d := VmDir(base, name);
    var c := ConfigPath(base, other);
    assert c[|base| + 1] == other && d[|base| + 1] == name;
    assert !(d <= c);
    var f1 := EnsureDirsAt(fs, base).0;
    var f := DeleteAt(fs, base, name).0;
    assert f == f1.RemoveAll(d);
    assert f.IsFile(c) == f1.IsFile(c);
    if !f1.IsFile(c) {
      var p := Parent(c);
      assert p == VmDir(base, other);
      assert !(d <= p) by {
        assert p[|base| + 1] == other;
      }
      assert f.IsDir(c) == f1.IsDir(c);
      assert f.IsFile(p) == f1.IsFile(p);
    }
  }

  /** `RuntimePaths` agrees with the coordinator's layout for the same base
      directory and name, and the console socket lies in the same
      directory. */
  lemma RuntimePathsAgree(base: Path, name: string)
    ensures var r := RuntimePathsOf(base, name); var m := RunState.Paths(base, name);
      && r.pidFile == m.pid && r.readyFile == m.ready && r.lockDir == m.lock
      && r.dir == RunState.VmDir(base, name) && r.dir == VmDir(base, name)
      && Parent(r.consoleSock) == r.dir
      && r.consoleSock !in {r.pidFile, r.readyFile, r.lockDir}
  {
    var r := RuntimePathsOf(base, name);
    assert r.consoleSock[|r.dir|] == "console.sock";
    assert r.pidFile[|r.dir|] == "vm.pid" && r.readyFile[|r.dir|] == "vm.ready" && r.lockDir[|r.dir|] == "vm.lock.d";
  }

  /** The records of the VMs in `names` whose record loads. */
  function Records(fs: Fs, base: Path, names: set<string>): set<VM> {
    set n | n in names && ReadConfig(fs, base, n).Ok? :: ReadConfig(fs, base, n).value
  }

  /** The records stored in the directories `names`, in that order. */
  ghost function Configs(fs: Fs, base: Path, names: seq<string>): (vms: seq<VM>)
    requires forall n :: n in names ==> ReadConfig(fs, base, n).Ok?
    ensures |vms| == |names|
    ensures forall i :: 0 <= i < |names| ==> ReadConfig(fs, base, names[i]) == Ok(vms[i])
  {
    if names == [] then []
    else Configs(fs, base, names[..|names| - 1]) + [ReadConfig(fs, base, names[|names| - 1]).value]
  }

  /** Two sequences that agree with `ReadConfig` index by index are the
      records of those directories. */
  lemma ConfigsOf(fs: Fs, base: Path, names: seq<string>, vms: seq<VM>)
    requires |vms| == |names|
    requires forall i :: 0 <= i < |names| ==> ReadConfig(fs, base, names[i]) == Ok(vms[i])
    ensures vms == Configs(fs, base, names)
  {
  }

  lemma LoadIdle(fs: Fs, base: Path, name: string)
    requires fs.IsDir(VmsDir(base))
    ensures LoadAt(fs, base, name) == (fs, ReadConfig(fs, base, name))
  {
  }

  lemma MoveOne(rest: set<string>, seen: set<string>, all: set<string>, n: string)
    requires rest + seen == all && rest !! seen && n in rest
    ensures (rest - {n}) + (seen + {n}) == all && (rest - {n}) !! (seen + {n})
    ensures |rest - {n}| < |rest|
  {
  }

  /** One more entry visited by `List`'s loop. */
  lemma AddSeen(fs: Fs, base: Path, seen: set<string>, n: string)
    requires n !in seen
    ensures var kept := "vm-" <= n && ReadConfig(fs, base, n).Ok?;
      && (kept ==> Kept(fs, base, seen + {n}) == Kept(fs, base, seen) + {n})
      && (kept ==> |Kept(fs, base, seen + {n})| == |Kept(fs, base, seen)| + 1)
      && (kept ==> Records(fs, base, Kept(fs, base, seen + {n}))
                   == Records(fs, base, Kept(fs, base, seen)) + {ReadConfig(fs, base, n).value})
      && (!kept ==> Kept(fs, base, seen + {n}) == Kept(fs, base, seen))
  {
    var kept := "vm-" <= n && ReadConfig(fs, base, n).Ok?;
    if kept {
      assert Kept(fs, base, seen + {n}) == Kept(fs, base, seen) + {n};
      assert n !in Kept(fs, base, seen);
    } else {
      assert Kept(fs, base, seen + {n}) == Kept(fs, base, seen);
    }
  }

  /** What `List`'s loop has gathered after visiting `seen`: one record per
      kept directory, in the visiting order `order`. */
  ghost predicate Gathered(fs: Fs, base: Path, seen: set<string>, vms: seq<VM>, order: seq<string>) {
    && |vms| == |Kept(fs, base, seen)|
    && (forall v :: v in vms <==> v in Records(fs, base, Kept(fs, base, seen)))
    && |order| == |vms|
    && (forall i, j :: 0 <= i < j < |order| ==> order[i] != order[j])
    && (forall n :: n in order <==> n in Kept(fs, base, seen))
    && (forall i :: 0 <= i < |order| ==> ReadConfig(fs, base, order[i]) == Ok(vms[i]))
  }

  /** One more entry visited by `List`'s loop: a kept one adds its record. */
  lemma GatherOne(fs: Fs, base: Path, seen: set<string>, vms: seq<VM>, order: seq<string>, n: string)
    requires Gathered(fs, base, seen, vms, order) && n !in seen
    ensures var kept := "vm-" <= n && ReadConfig(fs, base, n).Ok?;
      && (kept ==> Gathered(fs, base, seen + {n}, vms + [ReadConfig(fs, base, n).value], order + [n]))
      && (!kept ==> Gathered(fs, base, seen + {n}, vms, order))
  {
    AddSeen(fs, base, seen, n);
    if "vm-" <= n && ReadConfig(fs, base, n).Ok? {
      AppendMembers(vms, ReadConfig(fs, base, n).value);
      assert n !in order;
    }
  }

  // ---------------------------------------------------------------------------
  // The store

  class Store {
    const baseDir: Path
    const host: Host

    constructor(baseDir: Path, host: Host)
      ensures this.baseDir == baseDir && this.host == host
    {
      this.baseDir := baseDir;
      this.host := host;
    }

    method EnsureDirs() returns (e: Outcome)
      requires host.Valid()
      modifies host
      ensures host.Valid()
      ensures (host.fs, e) == EnsureDirsAt(old(host.fs), baseDir)
      ensures host.history == old(host.history) + [host.fs]
    {
      e := host.MkdirAll(VmsDir(baseDir));
    }

    method NextName() returns (r: Result<string>)
      requires host.Valid()
      modifies host
      ensures host.Valid()
      ensures (host.fs, r) == Allocate(old(host.fs), baseDir)
    {
      var e := EnsureDirs();
      if e.Fail? {
        return Err(e.error);
      }
      var seqFile := SeqPath(baseDir);
      e := host.MkdirAll(Parent(seqFile));
      if e.Fail? {
        return Err(e.error);
      }
      var next: Int64 := 1;
      var b := host.fs.ReadFile(seqFile);
      if b.Ok? && b.value.NamesJson? {
        next := b.value.next;
      }
      var name := NameFor(next);
      e := host.WriteFile(seqFile, NamesJson(Inc64(next)));
      if e.Fail? {
        return Err(e.error);
      }
      return Ok(name);
    }

    /** `now` is `time.Now().UnixNano()`. */
    method Save(vm: VM, now: int) returns (e: Outcome)
      requires host.Valid()
      modifies host
      ensures host.Valid()
      ensures (host.fs, e) == SaveAt(old(host.fs), baseDir, vm, now)
    {
      e := EnsureDirs();
      if e.Fail? {
        return;
      }
      var d := VmDir(baseDir, vm.name);
      e := host.MkdirAll(d);
      if e.Fail? {
        return;
      }
      var v := Stamped(vm, now);
      e := host.WriteFile(ConfigPath(baseDir, vm.name), VmJson(v));
    }

    method Load(name: string) returns (r: Result<VM>)
      requires host.Valid()
      modifies host
      ensures host.Valid()
      ensures (host.fs, r) == LoadAt(old(host.fs), baseDir, name)
      ensures host.history == old(host.history) + [host.fs]
    {
      var e := EnsureDirs();
      if e.Fail? {
        return Err(e.error);
      }
      var b := host.fs.ReadFile(ConfigPath(baseDir, name));
      match b {
        case Err(NotExist(_)) => r := Err(VmNotFound(name));
        case Err(err) => r := Err(err);
        case Ok(VmJson(vm)) => r := Ok(vm);
        case Ok(_) => r := Err(DecodeFailed(ConfigPath(baseDir, name)));
      }
    }

    method Delete(name: string) returns (e: Outcome)
      requires host.Valid()
      modifies host
      ensures host.Valid()
      ensures (host.fs, e) == DeleteAt(old(host.fs), baseDir, name)
    {
      e := EnsureDirs();
      if e.Fail? {
        return;
      }
      host.RemoveAll(VmDir(baseDir, name));
    }

    /** The loop of `List` over the entries of `<base>/vms`, visited in some
        order: each `vm-…` entry whose record loads contributes that record.
        Each `Load` finds `<base>/vms` in place, so its `ensureDirs` changes
        nothing and its result is the record read (`LoadIdle`). */
    method LoadEach(entries: set<string>) returns (vms: seq<VM>, ghost order: seq<string>)
      requires host.fs.IsDir(VmsDir(baseDir))
      ensures |vms| == |Kept(host.fs, baseDir, entries)|
      ensures forall v :: v in vms <==> v in Records(host.fs, baseDir, Kept(host.fs, baseDir, entries))
      ensures |order| == |vms| && (forall i, j :: 0 <= i < j < |order| ==> order[i] != order[j])
      ensures forall n :: n in order <==> n in Kept(host.fs, baseDir, entries)
      ensures forall i :: 0 <= i < |order| ==> ReadConfig(host.fs, baseDir, order[i]) == Ok(vms[i])
    {
      var fs := host.fs;
      var rest := entries;
      ghost var seen: set<string> := {};
      vms := [];
      order := [];
      while rest != {}
        invariant rest + seen == entries && rest !! seen
        invariant Gathered(fs, baseDir, seen, vms, order)
        decreases |rest|
      {
        var n :| n in rest;
        MoveOne(rest, seen, entries, n);
        rest := rest - {n};
        GatherOne(fs, baseDir, seen, vms, order, n);
        if "vm-" <= n {
          LoadIdle(fs, baseDir, n);
          var vm := LoadAt(fs, baseDir, n).1;
          if vm.Ok? {
            vms := vms + [vm.value];
            order := order + [n];
          }
        }
        seen := seen + {n};
      }
      assert seen == entries;
    }

    /** The entries of `<base>/vms` are visited in some order; `Load` of each
        `vm-…` directory is kept when it succeeds; the result is sorted by
        `CreatedAt`. */
    method List() returns (r: Result<seq<VM>>, ghost order: seq<string>)
      requires host.Valid()
      modifies host
      ensures host.Valid()
      ensures host.fs == EnsureDirsAt(old(host.fs), baseDir).0
      ensures r.Err? <==> EnsureDirsAt(old(host.fs), baseDir).1.Fail?
      ensures r.Ok? ==>
        && SortedByCreatedAt(r.value)
        && |r.value| == |Listable(host.fs, baseDir)|
        && (forall v :: v in r.value <==> v in Records(host.fs, baseDir, Listable(host.fs, baseDir)))
        && (forall i, j :: 0 <= i < j < |order| ==> order[i] != order[j])
        && (forall n :: n in order <==> n in Listable(host.fs, baseDir))
        && multiset(r.value) == multiset(Configs(host.fs, baseDir, order))
    {
      order := [];
      var e := EnsureDirs();
      if e.Fail? {
        return Err(e.error), order;
      }
      var vms;
      vms, order := LoadEach(Subdirs(host.fs, VmsDir(baseDir)));
      ConfigsOf(host.fs, baseDir, order, vms);
      SortKeepsRecords(vms);
      return Ok(SortByCreatedAt(vms)), order;
    }

    method RuntimePaths(name: string) returns (r: Result<RuntimePaths>)
      requires host.Valid()
      modifies host
      ensures host.Valid()
      ensures host.fs == EnsureDirsAt(old(host.fs), baseDir).0
      ensures EnsureDirsAt(old(host.fs), baseDir).1.Fail? ==> r == Err(EnsureDirsAt(old(host.fs), baseDir).1.error)
      ensures EnsureDirsAt(old(host.fs), baseDir).1.Nil? ==> r == Ok(RuntimePathsOf(baseDir, name))
      ensures host.history == old(host.history) + [host.fs]
    {
      var e := EnsureDirs();
      if e.Fail? {
        return Err(e.error);
      }
      return Ok(RuntimePathsOf(baseDir, name));
    }
  }
}
