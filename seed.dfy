/** The seed service `Up` uses (`internal/cloudinit/seed`): user-data with the
    distribution's default user and, when a key is given, its authorized
    key; and `Generate`, which runs `hdiutil makehybrid` (here the builder
    passed in) over a temporary work directory. */
module Seed {
  import opened Base
  import opened Text
  import opened Domain
  import opened FileSystem
  import opened CloudConfig

  /** The authorized-key block, written only for a key that is not blank. */
  function KeyLines(sshKey: string): seq<string> {
    if TrimSpace(sshKey) != "" then ["    ssh_authorized_keys:", "      - " + TrimSpace(sshKey)] else []
  }

  /** `buildUserData`: one line per newline-terminated write. */
  function UserDataLines(hostname: string, sshKey: string): seq<string> {
    HeaderLines(hostname) + ["  - default"] + KeyLines(sshKey) + FooterLines
  }

  function UserData(hostname: string, sshKey: string): string {
    JoinLines(UserDataLines(hostname, sshKey))
  }

  /** The document starts with `#cloud-config` and ends with the line
      enabling `avahi-daemon`. */
  lemma UserDataEnds(hostname: string, sshKey: string)
    ensures "#cloud-config" + "\n" <= UserData(hostname, sshKey)
    ensures var t := UserData(hostname, sshKey); var last := "  - [systemctl, enable, --now, avahi-daemon]" + "\n";
      |last| <= |t| && t[|t| - |last|..] == last
  {
    DocumentEnds(hostname, ["  - default"] + KeyLines(sshKey));
    assert UserDataLines(hostname, sshKey) == HeaderLines(hostname) + (["  - default"] + KeyLines(sshKey)) + FooterLines;
  }

  /** With a hostname and a trimmed key on one line each, the document's
      lines are the header, the default user, the key block for a non-blank
      key, and the footer. */
  lemma UserDataSplits(hostname: string, sshKey: string)
    requires OneLine(hostname) && OneLine(TrimSpace(sshKey))
    ensures SplitLines(UserData(hostname, sshKey)) == UserDataLines(hostname, sshKey)
  {
    FixedLines(hostname);
    var k := KeyLines(sshKey);
    assert AllOneLine(k) by {
      assert OneLine("    ssh_authorized_keys:") && OneLine("      - ");
    }
    AllOneLineAppend(HeaderLines(hostname), ["  - default"]);
    AllOneLineAppend(HeaderLines(hostname) + ["  - default"], k);
    AllOneLineAppend(HeaderLines(hostname) + ["  - default"] + k, FooterLines);
    SplitJoin(UserDataLines(hostname, sshKey));
  }

  /** The hostname line comes directly after `preserve_hostname: false`,
      and the user list is exactly `users:` and `  - default`, followed by
      the key block or else by the footer. */
  lemma UsersBlock(hostname: string, sshKey: string)
    requires OneLine(hostname) && OneLine(TrimSpace(sshKey))
    ensures var ls := SplitLines(UserData(hostname, sshKey)); var key := TrimSpace(sshKey);
      && |ls| > 7
      && ls[..3] == ["#cloud-config", "preserve_hostname: false", "hostname: " + hostname]
      && ls[4..6] == ["users:", "  - default"]
      && (key != "" ==> ls[6..8] == ["    ssh_authorized_keys:", "      - " + key])
      && (key == "" ==> ls[6] == "package_update: true")
  {
    UserDataSplits(hostname, sshKey);
  }

  /** The `ssh_authorized_keys` line appears if and only if the trimmed key
      is not empty. */
  lemma KeyBlockIffKey(hostname: string, sshKey: string)
    requires OneLine(hostname) && OneLine(TrimSpace(sshKey))
    ensures "    ssh_authorized_keys:" in SplitLines(UserData(hostname, sshKey)) <==> TrimSpace(sshKey) != ""
  {
    if TrimSpace(sshKey) == "" {
      NoKeyLine(hostname, sshKey);
    } else {
      UsersBlock(hostname, sshKey);
      assert SplitLines(UserData(hostname, sshKey))[6] == "    ssh_authorized_keys:";
    }
  }

  lemma NoKeyLine(hostname: string, sshKey: string)
    requires OneLine(hostname) && TrimSpace(sshKey) == ""
    ensures "    ssh_authorized_keys:" !in SplitLines(UserData(hostname, sshKey))
  {
    UserDataSplits(hostname, sshKey);
    var ls := UserDataLines(hostname, sshKey);
    assert ls == HeaderLines(hostname) + ["  - default"] + FooterLines;
    // every line but the key line starts with a non-blank or with `  -`
    forall i | 0 <= i < |ls| ensures ls[i] != "    ssh_authorized_keys:" {
      if i == 2 {
        assert ls[2][0] == 'h';
      } else {
        assert |ls[i]| > 2 && (ls[i][0] != ' ' || ls[i][2] == '-');
      }
    }
  }

  /** `Service.Generate` with the work directory `workDir` that
      `os.MkdirTemp` picks and `makehybrid` standing for the `hdiutil`
      command: the steps of `GenerateAt` on this service's documents. */
  method Generate(host: Host, vm: VM, sshKey: string, dst: Path, workDir: Path, makehybrid: Builder) returns (e: Outcome)
    requires host.Valid()
    modifies host
    ensures host.Valid()
    ensures (host.fs, e) == GenerateAt(old(host.fs), workDir, UserData(vm.hostname, sshKey), MetaData(vm), dst, makehybrid)
  {
    e := host.Mkdir(workDir);
    if e.Fail? {
      return;
    }
    e := Stage(host, workDir, UserData(vm.hostname, sshKey), MetaData(vm), dst);
    if e.Nil? {
      var built := makehybrid(host.fs, workDir, dst);
      if built.Fail? {
        e := Fail(MakehybridFailed(built.error));
      }
    }
    host.RemoveAll(workDir);
  }
}
