/** The in-memory VM store (`internal/vmstore/mem`): a map from VM name to
    record and a name counter, guarded by a mutex that this sequential model
    leaves out. None of its operations can fail. */
module MemStore {
  import opened Base
  import opened Text
  import opened Domain

  /** `Save` files every record under its own name. */
  predicate KeyedByName(vms: map<string, VM>) {
    forall k :: k in vms ==> vms[k].name == k
  }

  /** The record `Load(nameOrID)` finds: only an exact name matches. */
  function Lookup(vms: map<string, VM>, key: string): (r: Result<VM>)
    ensures r.Ok? <==> key in vms
    ensures r.Ok? ==> r.value == vms[key]
    ensures r.Err? ==> r.error == VmNotFound(key)
  {
    if key in vms then Ok(vms[key]) else Err(VmNotFound(key))
  }

  /** `RuntimePaths`: fixed paths under `/mem/<name>`, which nothing
      creates. */
  function RuntimePathsOf(name: string): RuntimePaths {
    var dir := ["mem", name];
    RuntimePaths(dir, dir + ["vm.pid"], dir + ["vm.ready"], dir + ["vm.lock.d"], dir + ["console.sock"])
  }

  /** The runtime paths render as the strings the store builds,
      `"/mem/" + name + "/vm.pid"` and so on, and are pairwise distinct
      children of the VM's directory. */
  lemma RuntimePathsText(name: string)
    ensures var r := RuntimePathsOf(name);
      && Render(r.dir) == "/mem/" + name
      && Render(r.pidFile) == "/mem/" + name + "/vm.pid"
      && Render(r.readyFile) == "/mem/" + name + "/vm.ready"
      && Render(r.lockDir) == "/mem/" + name + "/vm.lock.d"
      && Render(r.consoleSock) == "/mem/" + name + "/console.sock"
      && |{r.pidFile, r.readyFile, r.lockDir, r.consoleSock}| == 4
  {
    var r := RuntimePathsOf(name);
    assert Render(["mem"]) == "/mem" by {
      assert ["mem"][..0] == [];
    }
    assert r.dir[..1] == ["mem"];
    assert r.pidFile[..2] == r.dir && r.readyFile[..2] == r.dir;
    assert r.lockDir[..2] == r.dir && r.consoleSock[..2] == r.dir;
    assert r.pidFile[2] == "vm.pid" && r.readyFile[2] == "vm.ready";
    assert r.lockDir[2] == "vm.lock.d" && r.consoleSock[2] == "console.sock";
  }

  /** Two records stored under different names are different records, so
      the map holds as many distinct records as names. */
  lemma DistinctRecords(vms: map<string, VM>)
    requires KeyedByName(vms)
    ensures |vms.Values| == |vms|
  {
    if vms != map[] {
      var k :| k in vms;
      var rest := vms - {k};
      DistinctRecords(rest);
      forall v | v in vms.Values ensures v in rest.Values + {vms[k]} {
        var j :| j in vms && vms[j] == v;
        if j != k {
          assert rest[j] == v;
        }
      }
      forall v | v in rest.Values ensures v in vms.Values {
        var j :| j in rest && rest[j] == v;
        assert vms[j] == v;
      }
      assert vms.Values == rest.Values + {vms[k]};
      forall j | j in rest ensures rest[j] != vms[k] {
        assert rest[j].name == j;
      }
      assert vms[k] !in rest.Values;
      assert vms.Keys == rest.Keys + {k};
    }
  }

  /** The loop of `List`: one record per key, keys taken in some order. */
  method Collect(all: map<string, VM>) returns (acc: seq<VM>)
    ensures |acc| == |all|
    ensures forall v :: v in acc <==> v in all.Values
  {
    var rest := all.Keys;
    ghost var seen: set<string> := {};
    acc := [];
    while rest != {}
      invariant rest + seen == all.Keys && rest !! seen
      invariant |acc| == |seen|
      invariant forall v :: v in acc <==> exists s :: s in seen && all[s] == v
      decreases |rest|
    {
      var k :| k in rest;
      AppendMembers(acc, all[k]);
      acc := acc + [all[k]];
      rest := rest - {k};
      seen := seen + {k};
    }
  }

  class Store {
    var vms: map<string, VM>
    var next: Int64

    ghost predicate Valid()
      reads this
    {
      KeyedByName(vms)
    }

    /** `New`: empty, counting from 1. */
    constructor()
      ensures Valid() && vms == map[] && next == 1
    {
      vms := map[];
      next := 1;
    }

    /** Returns the name of the current counter value and advances the
        counter, wrapping as a Go `int` does. */
    method NextName() returns (r: string)
      requires Valid()
      modifies this
      ensures Valid()
      ensures r == NameFor(old(next)) && next == Inc64(old(next))
      ensures vms == old(vms)
      ensures r != NameFor(next)
    {
      r := NameFor(next);
      next := Inc64(next);
      NameForInjective(old(next), next);
    }

    /** Files the record under its name, stamping `CreatedAt` with `now`
        (`time.Now().UnixNano()`) when it is zero; an existing record of that
        name is replaced. */
    method Save(vm: VM, now: int)
      requires Valid()
      modifies this
      ensures Valid()
      ensures vms == old(vms)[vm.name := Stamped(vm, now)] && next == old(next)
      ensures Lookup(vms, vm.name) == Ok(Stamped(vm, now))
      ensures forall k :: k != vm.name ==> Lookup(vms, k) == Lookup(old(vms), k)
    {
      vms := vms[vm.name := Stamped(vm, now)];
    }

    method Load(key: string) returns (r: Result<VM>)
      requires Valid()
      ensures r == Lookup(vms, key)
      ensures r.Ok? ==> r.value.name == key
    {
      if key in vms {
        r := Ok(vms[key]);
      } else {
        r := Err(VmNotFound(key));
      }
    }

    /** Removes the record of that name, if any; deleting twice is the same
        as deleting once. */
    method Delete(key: string)
      requires Valid()
      modifies this
      ensures Valid()
      ensures vms == old(vms) - {key} && next == old(next)
      ensures Lookup(vms, key) == Err(VmNotFound(key))
      ensures forall k :: k != key ==> Lookup(vms, k) == Lookup(old(vms), k)
    {
      vms := vms - {key};
    }

    /** Every record once, in the map's (unspecified) iteration order, then
        sorted by `CreatedAt`. */
    method List() returns (r: seq<VM>)
      requires Valid()
      ensures SortedByCreatedAt(r)
      ensures |r| == |vms| == |vms.Values|
      ensures forall v :: v in r <==> v in vms.Values
    {
      var acc := Collect(vms);
      DistinctRecords(vms);
      SortKeepsRecords(acc);
      r := SortByCreatedAt(acc);
    }
  }
}
