/** An abstract POSIX filesystem: the files (with their contents) and the
    directories, each named by its path. The root `[]` is always a directory.
    Every primitive below is one atomic step, as `mkdir(2)`, `rename(2)` and
    `unlink(2)` are; `Host` is the one filesystem every process of the tool
    shares, with the sequence of states it has gone through. */
module FileSystem {
  import opened Base
  import opened Text
  import opened Domain

  /** What a file holds. JSON documents are kept as the values they encode. */
  datatype Content =
    | Text(text: string)
    | VmJson(vm: VM)          // a `config.json` written by the file store
    | NamesJson(next: Int64)  // a `names.json` holding `{"Next": next}`

  datatype Fs = Fs(files: map<Path, Content>, dirs: set<Path>) {

    predicate IsDir(p: Path) { p == [] || p in dirs }
    predicate IsFile(p: Path) { p in files }
    predicate Exists(p: Path) { IsDir(p) || IsFile(p) }

    /** A tree: files and directories are disjoint and every entry's parent is
        a directory. */
    ghost predicate Valid() {
      && files.Keys !! dirs
      && (forall p :: p in files ==> p != [] && IsDir(Parent(p)))
      && (forall p :: p in dirs ==> p != [] && IsDir(Parent(p)))
    }

    /** The error for a path that does not exist: ENOTDIR when one of its
        ancestors is a file, as path resolution in `open(2)` and `mkdir(2)`
        reports it; ENOENT otherwise. */
    function Missing(p: Path): Error {
      if exists i :: 0 < i < |p| && IsFile(p[..i]) then NotADirectory(p) else NotExist(p)
    }

    /** `os.Mkdir`. */
    function Mkdir(p: Path): (r: Result<Fs>)
      ensures r.Ok? <==> !Exists(p) && IsDir(Parent(p))
      ensures r.Ok? ==> r.value == this.(dirs := dirs + {p})
      ensures r.Err? && Exists(p) ==> r.error == AlreadyExists(p)
      ensures Valid() && r.Ok? ==> r.value.Valid()
    {
      if Exists(p) then Err(AlreadyExists(p))
      else if !IsDir(Parent(p)) then Err(Missing(p))
      else Ok(this.(dirs := dirs + {p}))
    }

    /** `os.MkdirAll`: `p` and every missing ancestor become directories. */
    function MkdirAll(p: Path): (r: Result<Fs>)
      ensures r.Ok? ==> r.value.files == files && dirs <= r.value.dirs && r.value.IsDir(p)
      ensures r.Ok? ==> forall q :: q in r.value.dirs && q !in dirs ==> q <= p
      ensures r.Err? ==> exists i :: 0 < i <= |p| && IsFile(p[..i])
      ensures IsDir(p) ==> r == Ok(this)
      ensures Valid() && r.Ok? ==> r.value.Valid()
      decreases |p|
    {
      if IsDir(p) then Ok(this)
      else if IsFile(p) then
        assert p[..|p|] == p;
        Err(NotADirectory(p))
      else
        match MkdirAll(Parent(p))
        case Err(e) =>
          assert forall i :: 0 < i <= |p| - 1 ==> Parent(p)[..i] == p[..i];
          Err(e)
        case Ok(f) => Ok(f.(dirs := f.dirs + {p}))
    }

    /** `os.WriteFile` / `OpenFile(O_CREATE|O_TRUNC|O_WRONLY)` followed by the
        write: `p` becomes a file holding `c`. */
    function WriteFile(p: Path, c: Content): (r: Result<Fs>)
      ensures r.Ok? <==> !IsDir(p) && IsDir(Parent(p))
      ensures r.Ok? ==> r.value == this.(files := files[p := c])
      ensures Valid() && r.Ok? ==> r.value.Valid()
    {
      if IsDir(p) then Err(IsADirectory(p))
      else if !IsDir(Parent(p)) then Err(Missing(p))
      else Ok(this.(files := files[p := c]))
    }

    /** `os.Rename` of a regular file: atomically replaces `dst`. */
    function Rename(src: Path, dst: Path): (r: Result<Fs>)
      ensures r.Ok? <==> IsFile(src) && !IsDir(dst) && IsDir(Parent(dst))
      ensures r.Ok? ==> r.value == this.(files := (files - {src})[dst := files[src]])
      ensures Valid() && r.Ok? ==> r.value.Valid()
    {
      if !IsFile(src) then Err(if IsDir(src) then IsADirectory(src) else Missing(src))
      else if IsDir(dst) then Err(IsADirectory(dst))
      else if !IsDir(Parent(dst)) then Err(Missing(dst))
      else Ok(this.(files := (files - {src})[dst := files[src]]))
    }

    predicate HasEntriesBelow(p: Path) {
      (exists q :: q in files && p < q) || (exists q :: q in dirs && p < q)
    }

    /** `os.Remove`: a file, or an empty directory. */
    function Remove(p: Path): (r: Result<Fs>)
      ensures IsFile(p) ==> r == Ok(this.(files := files - {p}))
      ensures !Exists(p) ==> r.Err?
      ensures r.Ok? ==> r.value == this.(files := files - {p}) || r.value == this.(dirs := dirs - {p})
      ensures r.Ok? ==> !r.value.IsFile(p)
      ensures Valid() && r.Ok? ==> !r.value.Exists(p)
      ensures Valid() && r.Ok? ==> r.value.Valid()
    {
      if IsFile(p) then Ok(this.(files := files - {p}))
      else if p == [] || HasEntriesBelow(p) then Err(DirNotEmpty(p))
      else if p in dirs then Ok(this.(dirs := dirs - {p}))
      else Err(Missing(p))
    }

    /** `os.RemoveAll`: `p` and everything below it are gone. */
    function RemoveAll(p: Path): (r: Fs)
      ensures forall q :: q in r.files <==> q in files && !(p <= q)
      ensures forall q :: q in r.files ==> r.files[q] == files[q]
      ensures forall q :: q in r.dirs <==> q in dirs && !(p <= q)
      ensures Valid() ==> r.Valid()
    {
      var r := Fs(map q | q in files && !(p <= q) :: files[q],
                  set q | q in dirs && !(p <= q));
      assert Valid() ==> forall q :: q in r.files ==> r.IsDir(Parent(q)) by {
        if Valid() {
          forall q | q in r.files ensures r.IsDir(Parent(q)) {
            if Parent(q) != [] && p <= Parent(q) { PrefixOfParent(p, q); }
          }
        }
      }
      assert Valid() ==> forall q :: q in r.dirs ==> r.IsDir(Parent(q)) by {
        if Valid() {
          forall q | q in r.dirs ensures r.IsDir(Parent(q)) {
            if Parent(q) != [] && p <= Parent(q) { PrefixOfParent(p, q); }
          }
        }
      }
      r
    }

    /** `os.Remove` whose error is discarded (`_ = os.Remove(p)`). */
    function RemoveIgnoringError(p: Path): (r: Fs)
      ensures !r.IsFile(p)
      ensures Valid() ==> r.Valid()
      ensures Valid() && IsFile(p) ==> !r.Exists(p)
      ensures forall q :: q != p ==> (r.IsFile(q) <==> IsFile(q)) && (r.IsDir(q) <==> IsDir(q))
      ensures forall q :: q in r.files ==> q in files && r.files[q] == files[q]
    {
      match Remove(p)
      case Ok(f) => f
      case Err(_) => this
    }

    /** `os.ReadFile`, or `os.Open` followed by reads. A directory can be
        opened but not read. */
    function ReadFile(p: Path): (r: Result<Content>)
      ensures r.Ok? <==> IsFile(p)
      ensures r.Ok? ==> r.value == files[p]
    {
      if IsFile(p) then Ok(files[p])
      else if IsDir(p) then Err(IsADirectory(p))
      else Err(Missing(p))
    }
  }

  function Parent(p: Path): Path
    requires p != []
  {
    p[..|p| - 1]
  }

  /** In a tree, every proper ancestor of an existing path is a directory. */
  lemma {:induction false} AncestorIsDir(fs: Fs, p: Path, q: Path)
    requires fs.Valid() && p < q
    ensures q in fs.files || q in fs.dirs ==> fs.IsDir(p) && !fs.IsFile(p)
    decreases |q|
  {
    if q in fs.files || q in fs.dirs {
      var pq := Parent(q);
      assert fs.IsDir(pq);
      if pq != p {
        assert p < pq;
        AncestorIsDir(fs, p, pq);
      }
    }
  }

  /** `p + ".tmp"`: the sibling a file is staged in before it is renamed. */
  function TmpPath(p: Path): (t: Path)
    requires p != []
    ensures t != [] && Parent(t) == Parent(p) && t != p
  {
    var t := Parent(p) + [p[|p| - 1] + ".tmp"];
    assert |t[|t| - 1]| != |p[|p| - 1]|;
    t
  }

  lemma PrefixOfParent(p: Path, q: Path)
    requires q != [] && p <= Parent(q)
    ensures p <= q
  {
  }

  /** The state after a step that may fail, and the error it returns. */
  function Apply(fs: Fs, r: Result<Fs>): (Fs, Outcome) {
    match r
    case Ok(f) => (f, Nil)
    case Err(e) => (fs, Fail(e))
  }

  /** The filesystem of the host, shared by every process of the tool. */
  class Host {
    var fs: Fs
    /** Every state the filesystem has been in, oldest first; readers in other
        processes may observe any of them. */
    ghost var history: seq<Fs>

    ghost predicate Valid()
      reads this
    {
      fs.Valid() && history != [] && history[|history| - 1] == fs
    }

    constructor(initial: Fs)
      requires initial.Valid()
      ensures Valid() && fs == initial && history == [initial]
    {
      fs := initial;
      history := [initial];
    }

    /** Performs one step whose effect is `r` on the current state. */
    method Step(r: Result<Fs>) returns (e: Outcome)
      requires Valid()
      requires r.Ok? ==> r.value.Valid()
      modifies this
      ensures Valid()
      ensures (fs, e) == Apply(old(fs), r)
      ensures history == old(history) + [fs]
    {
      var (f, out) := Apply(fs, r);
      fs := f;
      history := history + [f];
      e := out;
    }

    method Mkdir(p: Path) returns (e: Outcome)
      requires Valid()
      modifies this
      ensures Valid()
      ensures (fs, e) == Apply(old(fs), old(fs).Mkdir(p))
      ensures history == old(history) + [fs]
    {
      e := Step(fs.Mkdir(p));
    }

    method MkdirAll(p: Path) returns (e: Outcome)
      requires Valid()
      modifies this
      ensures Valid()
      ensures (fs, e) == Apply(old(fs), old(fs).MkdirAll(p))
      ensures history == old(history) + [fs]
    {
      e := Step(fs.MkdirAll(p));
    }

    method WriteFile(p: Path, c: Content) returns (e: Outcome)
      requires Valid()
      modifies this
      ensures Valid()
      ensures (fs, e) == Apply(old(fs), old(fs).WriteFile(p, c))
      ensures history == old(history) + [fs]
    {
      e := Step(fs.WriteFile(p, c));
    }

    method Rename(src: Path, dst: Path) returns (e: Outcome)
      requires Valid()
      modifies this
      ensures Valid()
      ensures (fs, e) == Apply(old(fs), old(fs).Rename(src, dst))
      ensures history == old(history) + [fs]
    {
      e := Step(fs.Rename(src, dst));
    }

    method Remove(p: Path) returns (e: Outcome)
      requires Valid()
      modifies this
      ensures Valid()
      ensures (fs, e) == Apply(old(fs), old(fs).Remove(p))
      ensures history == old(history) + [fs]
    {
      e := Step(fs.Remove(p));
    }

    method RemoveAll(p: Path)
      requires Valid()
      modifies this
      ensures Valid()
      ensures fs == old(fs).RemoveAll(p)
      ensures history == old(history) + [fs]
    {
      var _ := Step(Ok(fs.RemoveAll(p)));
    }
  }
}
