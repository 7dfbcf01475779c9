/** The VM lifecycle (`internal/application`): `Up`, `Start`, `Stop`,
    `Delete`, `Status` and `IP` over the in-memory store and a shim process
    manager whose answers are given.

    Each operation is specified by a function from the store's map (and
    counter) to the new map and the result; the methods of `App` are proved
    to compute exactly that, and the lemmas state what the operations
    promise. */
module Application {
  import opened Base
  import opened Text
  import opened Domain
  import opened MemStore

  /** `domain.ShimProcessManager`, as the answer each call gives. */
  datatype Shim = Shim(
    startDetached: VM -> Result<Int64>,
    waitReady: string -> Result<Int64>,
    getPid: string -> Result<Int64>,
    stop: int -> Outcome)

  /** `UpParams`. An empty `sshKeyPath` asks for the default keys. */
  datatype UpParams = UpParams(imagePath: string, cpus: int, memoryMiB: int, diskSizeGiB: int, sshKeyPath: string)

  /** What `Up` consults besides the store: `filepath.Abs`, `FS.Stat`,
      `os.UserHomeDir` (its error ignored, leaving `""`), `afero.ReadFile`,
      `Artifacts.Prepare` (which may change the record), the seed ISO
      generation, and the injected clock when there is one. */
  datatype Env = Env(
    abs: string -> Result<string>,
    stat: string -> Outcome,
    home: string,
    readFile: string -> Result<string>,
    prepare: VM -> Result<VM>,
    generateSeed: (VM, string, string) -> Outcome,
    clock: Option<int>)

  /** One address `net.LookupIP` returns: its bytes, and `String()` of it. */
  datatype Addr = Addr(bytes: seq<bv8>, text: string)

  // ---------------------------------------------------------------------------
  // Up

  /** `filepath.Join(home, ".ssh", file)`, without `Clean`'s other rewrites. */
  function SshJoin(home: string, file: string): string {
    if home == "" then ".ssh/" + file else home + "/.ssh/" + file
  }

  function KeyCandidates(home: string): seq<string> {
    [SshJoin(home, "id_ed25519.pub"), SshJoin(home, "id_rsa.pub")]
  }

  /** The first candidate that `Stat` finds, or `""`. */
  function FirstExisting(cs: seq<string>, stat: string -> Outcome): (r: string)
    ensures r == "" || r in cs
    ensures r != "" ==> stat(r) == Nil
    ensures cs != [] && stat(cs[0]) == Nil ==> r == cs[0]
    ensures (forall i :: 0 <= i < |cs| ==> stat(cs[i]).Fail?) ==> r == ""
  {
    if cs == [] then ""
    else if stat(cs[0]) == Nil then cs[0]
    else FirstExisting(cs[1..], stat)
  }

  /** The key file `Up` reads: the given path, or else the first default key
      that exists. */
  function KeyPath(given: string, home: string, stat: string -> Outcome): string {
    if given != "" then given else FirstExisting(KeyCandidates(home), stat)
  }

  /** The record `Up` builds for the allocated name, before `Prepare`. */
  function NewRecord(name: string, absImage: string, p: UpParams, clock: Option<int>): VM {
    var vm := VM("", name, 0, p.cpus, p.memoryMiB, "", p.diskSizeGiB, "", "", "", name, absImage, 0, "", StatusStopped);
    if vm.createdAt == 0 && clock.Some? then vm.(createdAt := clock.value) else vm
  }

  /** `Up`: the new map, the new counter and the result. `now` is the
      store's `time.Now()`. */
  function UpOn(vms: map<string, VM>, next: Int64, p: UpParams, env: Env, now: int): (map<string, VM>, Int64, Result<VM>) {
    match env.abs(p.imagePath)
    case Err(e) => (vms, next, Err(e))
    case Ok(absImage) =>
      if env.stat(absImage).Fail? then (vms, next, Err(ImagePathInvalid(env.stat(absImage).error)))
      else
        var key := KeyPath(p.sshKeyPath, env.home, env.stat);
        var next' := Inc64(next);
        match env.prepare(NewRecord(NameFor(next), absImage, p, env.clock))
        case Err(e) => (vms, next', Err(e))
        case Ok(vm) =>
          if key == "" then (vms, next', Err(NoSshPublicKey))
          else
            match env.readFile(key)
            case Err(e) => (vms, next', Err(ReadingSshKey(e)))
            case Ok(kb) =>
              match env.generateSeed(vm, kb, vm.seedIsoPath)
              case Fail(e) => (vms, next', Err(e))
              case Nil => (vms[vm.name := Stamped(vm, now)], next', Ok(vm))
  }

  /** `Prepare` fills in paths but keeps the name, hostname, status and
      creation time. */
  ghost predicate PrepareKeepsIdentity(prepare: VM -> Result<VM>) {
    forall v :: prepare(v).Ok? ==>
      var w := prepare(v).value;
      w.name == v.name && w.hostname == v.hostname && w.status == v.status && w.createdAt == v.createdAt
  }

  /** A successful `Up` consumes one name, saves the prepared record under it
      and returns that record; with a `Prepare` that keeps the record's
      identity, the record is named after the counter, uses the name as
      host name, is "stopped", and carries the clock's time when there is a
      clock. */
  lemma UpSucceeds(vms: map<string, VM>, next: Int64, p: UpParams, env: Env, now: int)
    requires UpOn(vms, next, p, env, now).2.Ok?
    ensures var (w, n, r) := UpOn(vms, next, p, env, now);
      && n == Inc64(next) && n != next
      && w == vms[r.value.name := Stamped(r.value, now)]
      && KeyPath(p.sshKeyPath, env.home, env.stat) != ""
      && (PrepareKeepsIdentity(env.prepare) ==>
            && r.value.name == NameFor(next) && r.value.hostname == NameFor(next)
            && r.value.status == StatusStopped
            && (env.clock.Some? ==> r.value.createdAt == env.clock.value))
  {
    var absImage := env.abs(p.imagePath).value;
    var v0 := NewRecord(NameFor(next), absImage, p, env.clock);
    assert env.prepare(v0).Ok?;
  }

  /** With no key given and none of the default keys present, `Up` fails
      with "no SSH public key found" only after the name has been taken and
      `Prepare` has run: the counter has moved on, and a `Prepare` error
      would have been reported instead. Nothing is saved. */
  lemma UpWithoutKey(vms: map<string, VM>, next: Int64, p: UpParams, env: Env, now: int)
    requires env.abs(p.imagePath).Ok? && env.stat(env.abs(p.imagePath).value) == Nil
    requires p.sshKeyPath == ""
    requires forall c :: c in KeyCandidates(env.home) ==> env.stat(c).Fail?
    ensures var absImage := env.abs(p.imagePath).value;
      var prepared := env.prepare(NewRecord(NameFor(next), absImage, p, env.clock));
      UpOn(vms, next, p, env, now) ==
        (vms, Inc64(next), if prepared.Err? then Err(prepared.error) else Err(NoSshPublicKey))
  {
    var cs := KeyCandidates(env.home);
    assert env.stat(cs[0]).Fail? && env.stat(cs[1]).Fail?;
    assert cs[1..][1..] == [];
  }

  // ---------------------------------------------------------------------------
  // Start

  function StartOn(vms: map<string, VM>, key: string, shim: Shim, now: int): (map<string, VM>, Result<VM>) {
    match Lookup(vms, key)
    case Err(e) => (vms, Err(e))
    case Ok(vm) =>
      match shim.startDetached(vm)
      case Err(e) => (vms, Err(e))
      case Ok(_) =>
        match shim.waitReady(vm.name)
        case Err(e) => (vms, Err(e))
        case Ok(pid) =>
          var v := vm.(pid := pid, status := StatusRunning);
          (vms[v.name := Stamped(v, now)], Ok(v))
  }

  /** A successful `Start` returns and saves the record as "running" with
      the pid the readiness wait reported; any error saves nothing. */
  lemma StartRecordsWaitedPid(vms: map<string, VM>, key: string, shim: Shim, now: int)
    requires KeyedByName(vms)
    ensures var (w, r) := StartOn(vms, key, shim, now);
      && (r.Err? ==> w == vms)
      && (r.Ok? ==>
            && key in vms
            && r.value == vms[key].(pid := shim.waitReady(key).value, status := StatusRunning)
            && w == vms[key := Stamped(r.value, now)]
            && KeyedByName(w))
  {
  }

  /** The pid `StartDetached` returns is never used: any other successful
      answer gives the same outcome. */
  lemma StartIgnoresSpawnPid(vms: map<string, VM>, key: string, shim: Shim, spawn: VM -> Result<Int64>, now: int)
    requires forall v :: spawn(v).Ok? <==> shim.startDetached(v).Ok?
    requires forall v :: spawn(v).Err? ==> spawn(v) == shim.startDetached(v)
    ensures StartOn(vms, key, shim.(startDetached := spawn), now) == StartOn(vms, key, shim, now)
  {
    if key in vms {
      var vm := vms[key];
      if shim.startDetached(vm).Err? {
        assert spawn(vm) == shim.startDetached(vm);
      }
    }
  }

  /** `Start` fails exactly when the record is missing, the spawn fails or
      the wait fails, with the first of those errors. */
  lemma StartErrors(vms: map<string, VM>, key: string, shim: Shim, now: int)
    ensures var r := StartOn(vms, key, shim, now).1;
      && (key !in vms ==> r == Err(VmNotFound(key)))
      && (key in vms && shim.startDetached(vms[key]).Err? ==> r == Err(shim.startDetached(vms[key]).error))
      && (key in vms && shim.startDetached(vms[key]).Ok? && shim.waitReady(vms[key].name).Err? ==>
            r == Err(shim.waitReady(vms[key].name).error))
  {
  }

  // ---------------------------------------------------------------------------
  // Stop

  function StopOn(vms: map<string, VM>, key: string, shim: Shim, now: int): (map<string, VM>, Outcome) {
    match Lookup(vms, key)
    case Err(e) => (vms, Fail(e))
    case Ok(vm) =>
      if vm.pid == 0 && shim.getPid(vm.name).Err? then (vms, Nil)
      else
        var pid := if vm.pid == 0 then shim.getPid(vm.name).value else vm.pid;
        match shim.stop(pid)
        case Fail(e) => (vms, Fail(e))
        case Nil =>
          var v := vm.(pid := 0, status := StatusStopped);
          (vms[v.name := Stamped(v, now)], Nil)
  }

  /** The pid `Stop` signals: the stored one when nonzero, else the shim's
      pid file. */
  function StopTarget(vm: VM, shim: Shim): Result<int> {
    if vm.pid != 0 then Ok(vm.pid)
    else match shim.getPid(vm.name)
      case Err(e) => Err(e)
      case Ok(p) => Ok(p)
  }

  /** With no stored pid and no readable pid file, `Stop` succeeds without
      signalling anything (any answer of the signal gives the same outcome)
      and without saving. */
  lemma StopWithoutPid(vms: map<string, VM>, key: string, shim: Shim, stop: int -> Outcome, now: int)
    requires key in vms && vms[key].pid == 0 && shim.getPid(vms[key].name).Err?
    ensures StopOn(vms, key, shim, now) == (vms, Nil)
    ensures StopOn(vms, key, shim.(stop := stop), now) == (vms, Nil)
  {
  }

  /** A nonzero stored pid is signalled as it is, without consulting
      `GetPID`: any pid-file answer gives the same outcome. */
  lemma StopUsesStoredPid(vms: map<string, VM>, key: string, shim: Shim, getPid: string -> Result<Int64>, now: int)
    requires key in vms && vms[key].pid != 0
    ensures StopOn(vms, key, shim.(getPid := getPid), now) == StopOn(vms, key, shim, now)
    ensures StopTarget(vms[key], shim) == Ok(vms[key].pid)
  {
  }

  /** `Stop` signals `StopTarget` and then either returns the signal's error
      with the record unchanged, or saves the record as "stopped" with pid
      0. */
  lemma StopOutcome(vms: map<string, VM>, key: string, shim: Shim, now: int)
    requires KeyedByName(vms) && key in vms && StopTarget(vms[key], shim).Ok?
    ensures var pid := StopTarget(vms[key], shim).value; var (w, e) := StopOn(vms, key, shim, now);
      && (shim.stop(pid).Fail? ==> w == vms && e == shim.stop(pid))
      && (shim.stop(pid).Nil? ==>
            && e == Nil
            && w == vms[key := Stamped(vms[key].(pid := 0, status := StatusStopped), now)]
            && w[key].pid == 0 && w[key].status == StatusStopped
            && KeyedByName(w))
  {
  }

  // ---------------------------------------------------------------------------
  // Delete

  /** Whether `Delete` considers the VM running: its pid file holds a
      positive pid. */
  predicate Running(vm: VM, shim: Shim) {
    shim.getPid(vm.name).Ok? && shim.getPid(vm.name).value > 0
  }

  function DeleteOn(vms: map<string, VM>, key: string, force: bool, shim: Shim, now: int): (map<string, VM>, Outcome) {
    match Lookup(vms, key)
    case Err(e) => (vms, Fail(e))
    case Ok(vm) =>
      if Running(vm, shim) && !force then (vms, Fail(VmRunning(vm.name)))
      else
        var (w, e) := if Running(vm, shim) then StopOn(vms, vm.name, shim, now) else (vms, Nil);
        if e.Fail? then (w, e) else (w - {vm.name}, Nil)
  }

  /** A running VM is not deleted without `force`. */
  lemma DeleteRunningRefused(vms: map<string, VM>, key: string, shim: Shim, now: int)
    requires KeyedByName(vms) && key in vms && Running(vms[key], shim)
    ensures DeleteOn(vms, key, false, shim, now) == (vms, Fail(VmRunning(key)))
  {
  }

  /** A successful `Delete` removes exactly that record: a later `Load`
      fails, and every other record is as before. */
  lemma DeleteRemoves(vms: map<string, VM>, key: string, force: bool, shim: Shim, now: int)
    requires KeyedByName(vms)
    requires DeleteOn(vms, key, force, shim, now).1 == Nil
    ensures var w := DeleteOn(vms, key, force, shim, now).0;
      && Lookup(w, key) == Err(VmNotFound(key))
      && (forall k :: k != key ==> Lookup(w, k) == Lookup(vms, k))
      && KeyedByName(w)
  {
    var vm := vms[key];
    if Running(vm, shim) {
      StopOutcome(vms, key, shim, now);
    }
  }

  /** A VM that is not running is deleted whatever `force` says. */
  lemma DeleteStopped(vms: map<string, VM>, key: string, force: bool, shim: Shim, now: int)
    requires KeyedByName(vms) && key in vms && !Running(vms[key], shim)
    ensures DeleteOn(vms, key, force, shim, now) == (vms - {key}, Nil)
  {
  }

  /** With `force`, a running VM is stopped first. `Stop` reloads the record
      and signals the stored pid when there is one, not the pid just read;
      a failing signal keeps the record and returns the signal's error. */
  lemma ForceDeleteStops(vms: map<string, VM>, key: string, shim: Shim, now: int)
    requires KeyedByName(vms) && key in vms && Running(vms[key], shim)
    ensures var pid := if vms[key].pid != 0 then vms[key].pid else shim.getPid(key).value;
      && (shim.stop(pid).Fail? ==> DeleteOn(vms, key, true, shim, now) == (vms, shim.stop(pid)))
      && (shim.stop(pid).Nil? ==> DeleteOn(vms, key, true, shim, now) == (vms - {key}, Nil))
  {
    StopOutcome(vms, key, shim, now);
    var w := vms[key := Stamped(vms[key].(pid := 0, status := StatusStopped), now)];
    assert w - {key} == vms - {key};
  }

  // ---------------------------------------------------------------------------
  // Status

  function StatusOf(vms: map<string, VM>, key: string, shim: Shim): Result<(bool, int)> {
    match Lookup(vms, key)
    case Err(e) => Err(e)
    case Ok(vm) => if Running(vm, shim) then Ok((true, shim.getPid(vm.name).value)) else Ok((false, 0))
  }

  /** `Status` reports running, with the pid, exactly when the pid file holds
      a positive pid, and `(false, 0)` otherwise; the stored `Status` and
      `PID` fields play no part. */
  lemma StatusFromPidFile(vms: map<string, VM>, key: string, shim: Shim, status: string, pid: int)
    requires KeyedByName(vms) && key in vms
    ensures var p := shim.getPid(key); var s := StatusOf(vms, key, shim);
      && s.Ok?
      && (s.value.0 <==> p.Ok? && p.value > 0)
      && (s.value.0 ==> s.value.1 == p.value)
      && (!s.value.0 ==> s.value.1 == 0)
    ensures StatusOf(vms[key := vms[key].(status := status, pid := pid)], key, shim) == StatusOf(vms, key, shim)
  {
  }

  // ---------------------------------------------------------------------------
  // IP

  /** `ip.To4() != nil`: four bytes, or sixteen in the IPv4-mapped form. */
  predicate IsV4(a: Addr) {
    || |a.bytes| == 4
    || (&& |a.bytes| == 16
        && (forall i :: 0 <= i < 10 ==> a.bytes[i] == 0)
        && a.bytes[10] == 0xff && a.bytes[11] == 0xff)
  }

  /** The index of the first IPv4 address, or `|addrs|` when there is
      none. */
  function FirstV4(addrs: seq<Addr>): (i: nat)
    ensures i <= |addrs|
    ensures i < |addrs| ==> IsV4(addrs[i])
    ensures forall j :: 0 <= j < i ==> !IsV4(addrs[j])
  {
    if addrs == [] then 0
    else if IsV4(addrs[0]) then 0
    else 1 + FirstV4(addrs[1..])
  }

  /** The selection loop of `IP`: the first IPv4 address, else the first
      address, else "no IP found". */
  method SelectAddress(host: string, addrs: seq<Addr>) returns (r: Result<string>)
    ensures FirstV4(addrs) < |addrs| ==> r == Ok(addrs[FirstV4(addrs)].text)
    ensures FirstV4(addrs) == |addrs| && addrs != [] ==> r == Ok(addrs[0].text)
    ensures addrs == [] ==> r == Err(NoIpFound(host))
  {
    for i := 0 to |addrs|
      invariant forall j :: 0 <= j < i ==> !IsV4(addrs[j])
    {
      if IsV4(addrs[i]) {
        return Ok(addrs[i].text);
      }
    }
    if |addrs| > 0 {
      return Ok(addrs[0].text);
    }
    return Err(NoIpFound(host));
  }

  // ---------------------------------------------------------------------------
  // The application

  class App {
    const store: MemStore.Store
    const shim: Shim

    constructor(store: MemStore.Store, shim: Shim)
      ensures this.store == store && this.shim == shim
    {
      this.store := store;
      this.shim := shim;
    }

    method Up(p: UpParams, env: Env, now: int) returns (r: Result<VM>)
      requires store.Valid()
      modifies store
      ensures store.Valid()
      ensures (store.vms, store.next, r) == UpOn(old(store.vms), old(store.next), p, env, now)
    {
      var absImage := env.abs(p.imagePath);
      if absImage.Err? {
        return Err(absImage.error);
      }
      var st := env.stat(absImage.value);
      if st.Fail? {
        return Err(ImagePathInvalid(st.error));
      }
      var sshKeyPath := p.sshKeyPath;
      if sshKeyPath == "" {
        sshKeyPath := FindKey(KeyCandidates(env.home), env.stat);
      }
      var name := store.NextName();
      var vm := NewRecord(name, absImage.value, p, env.clock);
      var prepared := env.prepare(vm);
      if prepared.Err? {
        return Err(prepared.error);
      }
      vm := prepared.value;
      if sshKeyPath == "" {
        return Err(NoSshPublicKey);
      }
      var kb := env.readFile(sshKeyPath);
      if kb.Err? {
        return Err(ReadingSshKey(kb.error));
      }
      var e := env.generateSeed(vm, kb.value, vm.seedIsoPath);
      if e.Fail? {
        return Err(e.error);
      }
      store.Save(vm, now);
      return Ok(vm);
    }

    /** The default-key loop of `Up`: the first candidate `Stat` finds. */
    static method FindKey(cs: seq<string>, stat: string -> Outcome) returns (r: string)
      ensures r == FirstExisting(cs, stat)
    {
      r := "";
      var i := 0;
      while i < |cs|
        invariant 0 <= i <= |cs|
        invariant FirstExisting(cs, stat) == FirstExisting(cs[i..], stat)
      {
        if stat(cs[i]) == Nil {
          r := cs[i];
          return;
        }
        assert cs[i..][1..] == cs[i + 1..];
        i := i + 1;
      }
    }

    method ListVMs() returns (r: seq<VM>)
      requires store.Valid()
      ensures SortedByCreatedAt(r) && |r| == |store.vms|
      ensures forall v :: v in r <==> v in store.vms.Values
    {
      r := store.List();
    }

    /** `now` is the store's `time.Now()`; the store's `Save` cannot
        fail, so ignoring its error loses nothing. */
    method Start(key: string, now: int) returns (r: Result<VM>)
      requires store.Valid()
      modifies store
      ensures store.Valid() && store.next == old(store.next)
      ensures (store.vms, r) == StartOn(old(store.vms), key, shim, now)
    {
      var vm := store.Load(key);
      if vm.Err? {
        return Err(vm.error);
      }
      var v := vm.value;
      var spawned := shim.startDetached(v);
      if spawned.Err? {
        return Err(spawned.error);
      }
      var pid := shim.waitReady(v.name);
      if pid.Err? {
        return Err(pid.error);
      }
      v := v.(pid := pid.value, status := StatusRunning);
      store.Save(v, now);
      return Ok(v);
    }

    method Stop(key: string, now: int) returns (e: Outcome)
      requires store.Valid()
      modifies store
      ensures store.Valid() && store.next == old(store.next)
      ensures (store.vms, e) == StopOn(old(store.vms), key, shim, now)
    {
      var vm := store.Load(key);
      if vm.Err? {
        return Fail(vm.error);
      }
      var v := vm.value;
      if v.pid == 0 {
        var p := shim.getPid(v.name);
        if p.Err? {
          return Nil;
        }
        v := v.(pid := p.value);
      }
      e := shim.stop(v.pid);
      if e.Fail? {
        return;
      }
      v := v.(pid := 0, status := StatusStopped);
      store.Save(v, now);
    }

    method Delete(key: string, force: bool, now: int) returns (e: Outcome)
      requires store.Valid()
      modifies store
      ensures store.Valid() && store.next == old(store.next)
      ensures (store.vms, e) == DeleteOn(old(store.vms), key, force, shim, now)
    {
      var vm := store.Load(key);
      if vm.Err? {
        return Fail(vm.error);
      }
      var v := vm.value;
      var running := false;
      var p := shim.getPid(v.name);
      if p.Ok? && p.value > 0 {
        running := true;
        v := v.(pid := p.value);
      }
      if running {
        if !force {
          return Fail(VmRunning(v.name));
        }
        e := Stop(v.name, now);
        if e.Fail? {
          return;
        }
      }
      store.Delete(v.name);
      return Nil;
    }

    method Status(key: string) returns (r: Result<(bool, int)>)
      requires store.Valid()
      ensures r == StatusOf(store.vms, key, shim)
    {
      var vm := store.Load(key);
      if vm.Err? {
        return Err(vm.error);
      }
      var p := shim.getPid(vm.value.name);
      if p.Ok? && p.value > 0 {
        return Ok((true, p.value));
      }
      return Ok((false, 0));
    }

    /** Looks up `<name>.local` (`lookup` is `net.LookupIP`) and selects an
        address. */
    method IP(key: string, lookup: string -> Result<seq<Addr>>) returns (r: Result<string>)
      requires store.Valid()
      ensures key !in store.vms ==> r == Err(VmNotFound(key))
      ensures key in store.vms && lookup(key + ".local").Err? ==> r == Err(lookup(key + ".local").error)
      ensures key in store.vms && lookup(key + ".local").Ok? ==>
        var addrs := lookup(key + ".local").value;
        && (FirstV4(addrs) < |addrs| ==> r == Ok(addrs[FirstV4(addrs)].text))
        && (FirstV4(addrs) == |addrs| && addrs != [] ==> r == Ok(addrs[0].text))
        && (addrs == [] ==> r == Err(NoIpFound(key + ".local")))
    {
      var vm := store.Load(key);
      if vm.Err? {
        return Err(vm.error);
      }
      var host := vm.value.name + ".local";
      var addrs := lookup(host);
      if addrs.Err? {
        return Err(addrs.error);
      }
      r := SelectAddress(host, addrs.value);
    }
  }
}
