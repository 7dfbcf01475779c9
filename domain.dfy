/** The persisted VM record, the runtime path layout a store resolves for a
    VM, and the `CreatedAt` ordering both stores list records in. */
module Domain {
  import opened Base
  import opened Text

  const StatusRunning: string := "running"
  const StatusStopped: string := "stopped"

  /** A VM's desired and last-known runtime state (`domain.VM`). `PID` is 0
      when no running shim is known. `CreatedAt` is in nanoseconds. */
  datatype VM = VM(
    id: string,
    name: string,
    createdAt: int,
    cpus: int,
    memoryMiB: int,
    diskPath: string,
    diskSizeGiB: int,
    efiVarsPath: string,
    seedIsoPath: string,
    macAddress: string,
    hostname: string,
    baseImageRef: string,
    pid: int,
    consoleSock: string,
    status: string)

  /** Where the ephemeral runtime artifacts of one VM live. */
  datatype RuntimePaths = RuntimePaths(
    dir: Path,
    pidFile: Path,
    readyFile: Path,
    lockDir: Path,
    consoleSock: Path)

  /** The name both stores allocate for counter value `next`:
      `fmt.Sprintf("vm-%03d", next)`. */
  function NameFor(next: int): string { "vm-" + Format03d(next) }

  /** Different counter values give different names, and the first is
      `vm-001`. */
  lemma NameForInjective(a: int, b: int)
    ensures NameFor(a) == NameFor(b) <==> a == b
    ensures NameFor(1) == "vm-001"
  {
    if NameFor(a) == NameFor(b) {
      assert Format03d(a) == NameFor(a)[3..];
      assert Format03d(b) == NameFor(b)[3..];
      Format03dInjective(a, b);
    }
    assert Format03d(1) == Zeros(2) + "1";
    assert Zeros(2) == "00";
  }

  /** What `Store.Save` writes: the record, with `CreatedAt` taken from the
      clock when it is still zero. */
  function Stamped(vm: VM, now: int): (v: VM)
    ensures v.createdAt != 0 || now == 0
    ensures v.createdAt != vm.createdAt ==> vm.createdAt == 0 && v.createdAt == now
    ensures v.(createdAt := vm.createdAt) == vm
  {
    if vm.createdAt == 0 then vm.(createdAt := now) else vm
  }

  predicate SortedByCreatedAt(s: seq<VM>) {
    forall i, j :: 0 <= i < j < |s| ==> s[i].createdAt <= s[j].createdAt
  }

  /** `sort.Slice(vms, func(i, j int) bool { return vms[i].CreatedAt <
      vms[j].CreatedAt })`. Go's sort is not stable; this insertion sort is
      one of the orders it may produce. */
  function SortByCreatedAt(s: seq<VM>): (r: seq<VM>)
    ensures SortedByCreatedAt(r)
    ensures multiset(r) == multiset(s)
  {
    if s == [] then []
    else
      var t := SortByCreatedAt(s[1..]);
      assert s == [s[0]] + s[1..];
      Insert(s[0], t)
  }

  function Insert(v: VM, s: seq<VM>): (r: seq<VM>)
    requires SortedByCreatedAt(s)
    ensures SortedByCreatedAt(r)
    ensures multiset(r) == multiset(s) + multiset{v}
    ensures |r| > 0 && (r[0] == v || (s != [] && r[0] == s[0]))
  {
    if s == [] then [v]
    else if v.createdAt <= s[0].createdAt then
      ConsSorted(v, s);
      [v] + s
    else
      SortedTail(s);
      var t := Insert(v, s[1..]);
      ConsSorted(s[0], t);
      [s[0]] + t
  }

  /** The tail of a sorted, non-empty list is sorted and starts no earlier
      than its head. */
  lemma SortedTail(s: seq<VM>)
    requires SortedByCreatedAt(s) && s != []
    ensures SortedByCreatedAt(s[1..]) && s == [s[0]] + s[1..]
    ensures |s| > 1 ==> s[0].createdAt <= s[1].createdAt
  {
    var t := s[1..];
    forall i, j | 0 <= i < j < |t| ensures t[i].createdAt <= t[j].createdAt {
      assert t[i] == s[i + 1] && t[j] == s[j + 1];
    }
  }

  lemma ConsSorted(x: VM, t: seq<VM>)
    requires SortedByCreatedAt(t) && (t == [] || x.createdAt <= t[0].createdAt)
    ensures SortedByCreatedAt([x] + t)
  {
    var r := [x] + t;
    forall i, j | 0 <= i < j < |r| ensures r[i].createdAt <= r[j].createdAt {
      assert r[j] == t[j - 1];
      if i > 0 {
        assert r[i] == t[i - 1];
      }
    }
  }

  /** Sorting keeps every record, as often as it occurs. */
  /** The records of `s + [x]` are those of `s` and `x`. */
  lemma AppendMembers(s: seq<VM>, x: VM)
    ensures forall v :: v in s + [x] <==> v in s || v == x
  {
  }

  lemma SortKeepsRecords(s: seq<VM>)
    ensures |SortByCreatedAt(s)| == |s|
    ensures forall v :: v in SortByCreatedAt(s) <==> v in s
  {
    var r := SortByCreatedAt(s);
    assert |r| == |multiset(r)| == |multiset(s)| == |s|;
    assert forall v :: v in r <==> v in multiset(r);
  }
}
