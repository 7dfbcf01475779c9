/** What the two NoCloud seed generators (`internal/cloudinit/seed` and
    `internal/domain/cloudinit.go`) share: text assembled from
    newline-terminated lines, the meta-data document, and the steps of
    `Generate` (make a work directory, write `user-data` and `meta-data`
    into it, make the destination's directory, build the image, remove the
    work directory on the way out). */
module CloudConfig {
  import opened Base
  import opened Domain
  import opened FileSystem

  // ---------------------------------------------------------------------------
  // Lines

  /** Text with no line break in it. */
  predicate OneLine(s: string) {
    '\n' !in s
  }

  predicate AllOneLine(ls: seq<string>) {
    forall i :: 0 <= i < |ls| ==> OneLine(ls[i])
  }

  /** Each line followed by `"\n"`, as a `strings.Builder` receiving one
      `WriteString` per line produces it. */
  function JoinLines(ls: seq<string>): string {
    if ls == [] then "" else ls[0] + "\n" + JoinLines(ls[1..])
  }

  /** The index of the first line break, or `|s|` when there is none. */
  function LineEnd(s: string): (n: nat)
    ensures n <= |s|
    ensures n < |s| ==> s[n] == '\n'
    ensures forall i :: 0 <= i < n ==> s[i] != '\n'
  {
    if s == [] || s[0] == '\n' then 0 else 1 + LineEnd(s[1..])
  }

  /** The lines of a text, without their line breaks; text after the last
      break is a final line. */
  function SplitLines(s: string): seq<string>
    decreases |s|
  {
    if s == [] then []
    else
      var n := LineEnd(s);
      if n == |s| then [s] else [s[..n]] + SplitLines(s[n + 1..])
  }

  lemma SplitFirst(l: string, rest: string)
    requires OneLine(l)
    ensures SplitLines(l + "\n" + rest) == [l] + SplitLines(rest)
  {
    var s := l + "\n" + rest;
    var n := LineEnd(s);
    assert s[|l|] == '\n';
    assert n == |l|;
    assert s[..n] == l && s[n + 1..] == rest;
  }

  /** Splitting joined lines gives the lines back, when none of them holds a
      line break. */
  lemma {:induction false} SplitJoin(ls: seq<string>)
    requires AllOneLine(ls)
    ensures SplitLines(JoinLines(ls)) == ls
  {
    if ls != [] {
      SplitFirst(ls[0], JoinLines(ls[1..]));
      SplitJoin(ls[1..]);
    }
  }

  lemma {:induction false} JoinAppend(a: seq<string>, b: seq<string>)
    ensures JoinLines(a + b) == JoinLines(a) + JoinLines(b)
  {
    if a == [] {
      assert a + b == b;
    } else {
      assert (a + b)[0] == a[0] && (a + b)[1..] == a[1..] + b;
      JoinAppend(a[1..], b);
      calc {
        JoinLines(a + b);
        a[0] + "\n" + JoinLines(a[1..] + b);
        a[0] + "\n" + (JoinLines(a[1..]) + JoinLines(b));
        (a[0] + "\n" + JoinLines(a[1..])) + JoinLines(b);
      }
    }
  }

  /** The joined text starts with the first line and ends with the last,
      each with its line break. */
  lemma JoinEnds(ls: seq<string>)
    requires ls != []
    ensures ls[0] + "\n" <= JoinLines(ls)
    ensures var t := JoinLines(ls); var last := ls[|ls| - 1] + "\n";
      |last| <= |t| && t[|t| - |last|..] == last
  {
    var k := |ls| - 1;
    assert ls == ls[..k] + [ls[k]];
    JoinAppend(ls[..k], [ls[k]]);
    var t := JoinLines(ls);
    var last := ls[k] + "\n";
    assert JoinLines([ls[k]]) == last;
    assert t == JoinLines(ls[..k]) + last;
  }

  lemma AllOneLineAppend(a: seq<string>, b: seq<string>)
    requires AllOneLine(a) && AllOneLine(b)
    ensures AllOneLine(a + b)
  {
    forall i | 0 <= i < |a + b| ensures OneLine((a + b)[i]) {
      if i >= |a| {
        assert (a + b)[i] == b[i - |a|];
      }
    }
  }

  // ---------------------------------------------------------------------------
  // The user-data lines both generators write

  /** The first five lines of both user-data documents. */
  function HeaderLines(hostname: string): seq<string> {
    ["#cloud-config", "preserve_hostname: false", "hostname: " + hostname, "ssh_pwauth: false", "users:"]
  }

  /** The last six lines of both: the mDNS packages and service. */
  const FooterLines: seq<string> :=
    ["package_update: true", "packages:", "  - avahi", "  - nss-mdns", "runcmd:", "  - [systemctl, enable, --now, avahi-daemon]"]

  /** A user-data document of either generator, whatever its user list,
      starts with `#cloud-config` and ends with the line enabling
      `avahi-daemon`. */
  lemma DocumentEnds(hostname: string, users: seq<string>)
    ensures "#cloud-config" + "\n" <= JoinLines(HeaderLines(hostname) + users + FooterLines)
    ensures var t := JoinLines(HeaderLines(hostname) + users + FooterLines);
      var last := "  - [systemctl, enable, --now, avahi-daemon]" + "\n";
      |last| <= |t| && t[|t| - |last|..] == last
  {
    var ls := HeaderLines(hostname) + users + FooterLines;
    JoinEnds(ls);
    assert ls[|ls| - 1] == FooterLines[5];
  }

  lemma FixedLines(hostname: string)
    requires OneLine(hostname)
    ensures AllOneLine(HeaderLines(hostname)) && AllOneLine(FooterLines)
  {
    HeaderOneLine(hostname);
    FooterOneLine();
  }

  lemma HeaderOneLine(hostname: string)
    requires OneLine(hostname)
    ensures AllOneLine(HeaderLines(hostname))
  {
    assert OneLine("hostname: ");
  }

  lemma FooterOneLine()
    ensures AllOneLine(FooterLines)
  {
    assert OneLine(FooterLines[0]) && OneLine(FooterLines[1]) && OneLine(FooterLines[2]);
    assert OneLine(FooterLines[3]) && OneLine(FooterLines[4]) && OneLine(FooterLines[5]);
  }

  // ---------------------------------------------------------------------------
  // Meta-data

  /** `fmt.Sprintf("instance-id: %s\nlocal-hostname: %s\n", vm.Name,
      vm.Hostname)`. */
  function MetaData(vm: VM): string {
    "instance-id: " + vm.name + "\n" + "local-hostname: " + vm.hostname + "\n"
  }

  /** The meta-data holds exactly two lines, the instance id and the local
      host name, when neither value holds a line break. */
  lemma MetaDataLines(vm: VM)
    requires OneLine(vm.name) && OneLine(vm.hostname)
    ensures SplitLines(MetaData(vm)) == ["instance-id: " + vm.name, "local-hostname: " + vm.hostname]
  {
    var ls := ["instance-id: " + vm.name, "local-hostname: " + vm.hostname];
    assert JoinLines(ls[1..][1..]) == "";
    assert MetaData(vm) == JoinLines(ls);
    assert OneLine("instance-id: ") && OneLine("local-hostname: ");
    SplitJoin(ls);
  }

  // ---------------------------------------------------------------------------
  // Generate

  /** The image builder: given the state it sees, the source directory and
      the destination, whether it fails. What it writes is not modelled. */
  type Builder = (Fs, Path, Path) -> Outcome

  function UserDataPath(workDir: Path): Path { workDir + ["user-data"] }

  function MetaDataPath(workDir: Path): Path { workDir + ["meta-data"] }

  /** `filepath.Dir`. */
  function DirOf(p: Path): Path { if p == [] then [] else Parent(p) }

  /** The writes of `Generate` inside the new work directory, then the
      destination's directory: the state reached and the first error. */
  function StageAt(fs: Fs, workDir: Path, userData: string, metaData: string, dst: Path): (Fs, Outcome) {
    match fs.WriteFile(UserDataPath(workDir), Text(userData))
    case Err(e) => (fs, Fail(e))
    case Ok(f1) =>
      match f1.WriteFile(MetaDataPath(workDir), Text(metaData))
      case Err(e) => (f1, Fail(e))
      case Ok(f2) =>
        match f2.MkdirAll(DirOf(dst))
        case Err(e) => (f2, Fail(e))
        case Ok(f3) => (f3, Nil)
  }

  /** The staging writes of `Generate` on the host's filesystem, stopping at
      the first error. */
  method Stage(host: Host, workDir: Path, userData: string, metaData: string, dst: Path) returns (e: Outcome)
    requires host.Valid()
    modifies host
    ensures host.Valid()
    ensures (host.fs, e) == StageAt(old(host.fs), workDir, userData, metaData, dst)
  {
    e := host.WriteFile(UserDataPath(workDir), Text(userData));
    if e.Nil? {
      e := host.WriteFile(MetaDataPath(workDir), Text(metaData));
      if e.Nil? {
        e := host.MkdirAll(DirOf(dst));
      }
    }
  }

  /** `Generate` with `workDir` as the fresh directory the temporary-directory
      call picks: if it cannot be made, nothing happens; otherwise the files
      are staged, the builder runs when staging succeeded (its error wrapped
      as "hdiutil makehybrid failed"), and the deferred removal of the work
      directory runs in every case. */
  function GenerateAt(fs: Fs, workDir: Path, userData: string, metaData: string, dst: Path, build: Builder): (Fs, Outcome) {
    match fs.Mkdir(workDir)
    case Err(e) => (fs, Fail(e))
    case Ok(f1) =>
      var (f2, e) := StageAt(f1, workDir, userData, metaData, dst);
      if e.Fail? then (f2.RemoveAll(workDir), e)
      else
        match build(f2, workDir, dst)
        case Fail(err) => (f2.RemoveAll(workDir), Fail(MakehybridFailed(err)))
        case Nil => (f2.RemoveAll(workDir), Nil)
  }

  /** The state the builder sees holds both documents in the work directory
      and the destination's directory. */
  lemma StagedForBuild(fs: Fs, workDir: Path, userData: string, metaData: string, dst: Path)
    requires workDir != [] && fs.IsDir(workDir)
    requires StageAt(fs, workDir, userData, metaData, dst).1 == Nil
    ensures var f := StageAt(fs, workDir, userData, metaData, dst).0;
      && f.IsFile(UserDataPath(workDir)) && f.files[UserDataPath(workDir)] == Text(userData)
      && f.IsFile(MetaDataPath(workDir)) && f.files[MetaDataPath(workDir)] == Text(metaData)
      && f.IsDir(DirOf(dst))
  {
    assert UserDataPath(workDir) != MetaDataPath(workDir) by {
      assert UserDataPath(workDir)[|workDir|] != MetaDataPath(workDir)[|workDir|];
    }
  }

  /** The builder runs exactly when the work directory was made and staging
      succeeded; its failure is reported wrapped, and only then does
      `Generate` succeed without it. */
  lemma BuildOutcome(fs: Fs, workDir: Path, userData: string, metaData: string, dst: Path, build: Builder)
    ensures var (f, e) := GenerateAt(fs, workDir, userData, metaData, dst, build);
      && (fs.Mkdir(workDir).Err? ==> f == fs && e == Fail(fs.Mkdir(workDir).error))
      && (fs.Mkdir(workDir).Ok? ==>
            var (g, s) := StageAt(fs.Mkdir(workDir).value, workDir, userData, metaData, dst);
            && (s.Fail? ==> e == s)
            && (s.Nil? && build(g, workDir, dst).Fail? ==> e == Fail(MakehybridFailed(build(g, workDir, dst).error)))
            && (s.Nil? && build(g, workDir, dst).Nil? ==> e == Nil))
  {
  }

  /** Staging writes at most the two documents and adds only
      directories. */
  lemma StageFrame(fs: Fs, workDir: Path, userData: string, metaData: string, dst: Path)
    requires fs.Valid()
    ensures var f := StageAt(fs, workDir, userData, metaData, dst).0;
      && f.Valid()
      && (|| f.files == fs.files
          || f.files == fs.files[UserDataPath(workDir) := Text(userData)]
          || f.files == fs.files[UserDataPath(workDir) := Text(userData)][MetaDataPath(workDir) := Text(metaData)])
  {
  }

  /** Once the work directory has been made, it is gone afterwards with
      everything below it, whatever step failed. */
  lemma WorkDirRemoved(fs: Fs, workDir: Path, userData: string, metaData: string, dst: Path, build: Builder)
    requires fs.Valid() && fs.Mkdir(workDir).Ok?
    ensures var f := GenerateAt(fs, workDir, userData, metaData, dst, build).0;
      && f.Valid()
      && (forall q :: workDir <= q ==> !f.Exists(q))
  {
    var f1 := fs.Mkdir(workDir).value;
    assert workDir != [] by {
      assert fs.IsDir([]);
    }
    StageFrame(f1, workDir, userData, metaData, dst);
    var f2 := StageAt(f1, workDir, userData, metaData, dst).0;
    assert GenerateAt(fs, workDir, userData, metaData, dst, build).0 == f2.RemoveAll(workDir);
  }

  /** Outside the work directory, `Generate` adds, removes or changes no
      file. */
  lemma OutsideUntouched(fs: Fs, workDir: Path, userData: string, metaData: string, dst: Path, build: Builder)
    requires fs.Valid()
    ensures var f := GenerateAt(fs, workDir, userData, metaData, dst, build).0;
      && (forall q :: !(workDir <= q) ==> (q in f.files <==> q in fs.files))
      && (forall q :: q in f.files ==> f.files[q] == fs.files[q])
  {
    if fs.Mkdir(workDir).Ok? {
      var f1 := fs.Mkdir(workDir).value;
      StageFrame(f1, workDir, userData, metaData, dst);
      var f2 := StageAt(f1, workDir, userData, metaData, dst).0;
      assert GenerateAt(fs, workDir, userData, metaData, dst, build).0 == f2.RemoveAll(workDir);
      assert f1.files == fs.files;
      assert workDir <= UserDataPath(workDir) && workDir <= MetaDataPath(workDir);
    }
  }
}
