/** The seed generator of the domain package (`internal/domain/cloudinit.go`):
    user-data that declares a `fedora` user whose authorized-key block is
    always written, and `CloudInit.Generate` over an injected filesystem and
    image builder. */
module CloudInit {
  import opened Base
  import opened Text
  import opened Domain
  import opened FileSystem
  import opened CloudConfig

  /** The `fedora` user's entry, before its keys. */
  const FedoraLines: seq<string> :=
    ["  - name: fedora", "    sudo: ALL=(ALL) NOPASSWD:ALL", "    groups: wheel", "    shell: /bin/bash"]

  /** `buildUserData`: one line per newline-terminated write; the key line
      is written even for a blank key. */
  function UserDataLines(hostname: string, sshKey: string): seq<string> {
    HeaderLines(hostname) + FedoraLines + ["    ssh_authorized_keys:", "      - " + TrimSpace(sshKey)] + FooterLines
  }

  function UserData(hostname: string, sshKey: string): string {
    JoinLines(UserDataLines(hostname, sshKey))
  }

  /** The document starts with `#cloud-config` and ends with the line
      enabling `avahi-daemon`. */
  lemma UserDataEnds(hostname: string, sshKey: string)
    ensures "#cloud-config" + "\n" <= UserData(hostname, sshKey)
    ensures var t := UserData(hostname, sshKey); var last := "  - [systemctl, enable, --now, avahi-daemon]" + "\n";
      |last| <= |t| && t[|t| - |last|..] == last
  {
    DocumentEnds(hostname, FedoraLines + ["    ssh_authorized_keys:", "      - " + TrimSpace(sshKey)]);
    assert UserDataLines(hostname, sshKey) == HeaderLines(hostname) + (FedoraLines + ["    ssh_authorized_keys:", "      - " + TrimSpace(sshKey)]) + FooterLines;
  }

  /** With a hostname and a trimmed key on one line each, the document's
      lines are the header, the `fedora` user, its key block and the
      footer. */
  lemma UserDataSplits(hostname: string, sshKey: string)
    requires OneLine(hostname) && OneLine(TrimSpace(sshKey))
    ensures SplitLines(UserData(hostname, sshKey)) == UserDataLines(hostname, sshKey)
  {
    FixedLines(hostname);
    var k := ["    ssh_authorized_keys:", "      - " + TrimSpace(sshKey)];
    assert AllOneLine(k) by {
      assert OneLine("    ssh_authorized_keys:") && OneLine("      - ");
    }
    FedoraLinesOneLine();
    AllOneLineAppend(HeaderLines(hostname), FedoraLines);
    AllOneLineAppend(HeaderLines(hostname) + FedoraLines, k);
    AllOneLineAppend(HeaderLines(hostname) + FedoraLines + k, FooterLines);
    SplitJoin(UserDataLines(hostname, sshKey));
  }

  /** The third line is the hostname, and the only user is `fedora`, with
      passwordless sudo, group `wheel` and `/bin/bash`. */
  lemma FedoraUser(hostname: string, sshKey: string)
    requires OneLine(hostname) && OneLine(TrimSpace(sshKey))
    ensures var ls := SplitLines(UserData(hostname, sshKey));
      && |ls| == 17
      && ls[2] == "hostname: " + hostname
      && ls[4..9] == ["users:", "  - name: fedora", "    sudo: ALL=(ALL) NOPASSWD:ALL", "    groups: wheel", "    shell: /bin/bash"]
  {
    UserDataSplits(hostname, sshKey);
  }

  /** The key block follows the `fedora` user and holds the trimmed key,
      even when that is empty. */
  lemma KeyBlockAlways(hostname: string, sshKey: string)
    requires OneLine(hostname) && OneLine(TrimSpace(sshKey))
    ensures var ls := SplitLines(UserData(hostname, sshKey));
      |ls| > 10 && ls[9..11] == ["    ssh_authorized_keys:", "      - " + TrimSpace(sshKey)]
  {
    UserDataSplits(hostname, sshKey);
  }

  lemma FedoraLinesOneLine()
    ensures AllOneLine(FedoraLines)
  {
    assert OneLine(FedoraLines[0]) && OneLine(FedoraLines[1]);
    assert OneLine(FedoraLines[2]) && OneLine(FedoraLines[3]);
  }

  class CloudInit {
    const host: Host
    const builder: Builder

    /** `NewCloudInitWithFSAndBuilder`. */
    constructor(host: Host, builder: Builder)
      ensures this.host == host && this.builder == builder
    {
      this.host := host;
      this.builder := builder;
    }

    /** `Generate` with the work directory `workDir` that `TempDir` picks:
        the steps of `GenerateAt` on this generator's documents. */
    method Generate(vm: VM, sshKey: string, dst: Path, workDir: Path) returns (e: Outcome)
      requires host.Valid()
      modifies host
      ensures host.Valid()
      ensures (host.fs, e) == GenerateAt(old(host.fs), workDir, UserData(vm.hostname, sshKey), MetaData(vm), dst, builder)
    {
      e := host.Mkdir(workDir);
      if e.Fail? {
        return;
      }
      e := Stage(host, workDir, UserData(vm.hostname, sshKey), MetaData(vm), dst);
      if e.Nil? {
        var built := builder(host.fs, workDir, dst);
        if built.Fail? {
          e := Fail(MakehybridFailed(built.error));
        }
      }
      host.RemoveAll(workDir);
    }
  }
}
