/** The boot script ("user data") that a freshly launched instance runs as
    root on first boot: it installs the runner agent (or reuses an existing
    installation), registers it with the repository and starts it.

    Every command line whose parts are separated by single spaces is written
    here as its words joined by a space; that is exactly the string the
    template literal produces. Inputs are interpolated verbatim, with no
    quoting or escaping. */
module UserDataScript {
  import opened Text
  import opened Config

  /** The runner agent release that a fresh install downloads; fixed, not configurable. */
  const RunnerVersion: string := "2.283.2"

  /** The operating-system tags the builder knows. */
  const WinX64: string := "win-x64"
  const LinuxX64: string := "linux-x64"
  const LinuxArm: string := "linux-arm"
  const LinuxArm64: string := "linux-arm64"

  /** Which script, if any, an OS tag gets. */
  datatype Platform = Windows | Linux | Unsupported

  function PlatformOf(os: string): Platform
  {
    if os == WinX64 then Windows
    else if os == LinuxX64 || os == LinuxArm || os == LinuxArm64 then Linux
    else Unsupported
  }

  const GitHub: string := "https://github.com/"

  /** A repository's URL; the runner registers with the configured one. */
  function RepoUrl(owner: string, repo: string): string
  {
    GitHub + owner + "/" + repo
  }

  /** The runner's name: the OS tag, a dash, the label. */
  function RunnerName(os: string, runnerLabel: string): string
  {
    os + "-" + runnerLabel
  }

  /** The release archive for an OS tag; `ext` is ".zip" or ".tar.gz". */
  function ArchiveName(os: string, ext: string): string
  {
    "actions-runner-" + os + "-" + RunnerVersion + ext
  }

  /** Where that archive is downloaded from: the release page of the runner
      agent's own repository, `actions/runner`. */
  function ReleaseUrl(os: string, ext: string): string
  {
    RepoUrl("actions", "runner") + "/releases/download/v" + RunnerVersion + "/" + ArchiveName(os, ext)
  }

  /** Change into an existing installation; the directory is put between
      double quotes as it is, without escaping. */
  function CdLine(dir: string): string
  {
    "cd \"" + dir + "\""
  }

  // ---- Windows (PowerShell) lines ----

  const PowerShellOpen: string := "<powershell>"
  const PowerShellClose: string := "</powershell>"
  const WindowsInstallDir: string := "c:/actions-runner"
  const WindowsMkdirLine: string := "mkdir " + WindowsInstallDir + "; cd " + WindowsInstallDir

  /** The saved file name is written with the literal tag "win-x64", not with `os`. */
  function WindowsDownloadLine(os: string): string
  {
    Join(["Invoke-WebRequest", "-Uri", ReleaseUrl(os, ".zip"),
          "-OutFile", "actions-runner-win-x64-" + RunnerVersion + ".zip"], ' ')
  }

  function WindowsExtractLine(os: string): string
  {
    Join(["Expand-Archive", "-Path", ArchiveName(os, ".zip"), "-DestinationPath", "$PWD"], ' ')
  }

  function WindowsConfigLine(os: string, owner: string, repo: string, token: string, runnerLabel: string): string
  {
    Join(["./config.cmd", "--url", RepoUrl(owner, repo), "--token", token,
          "--name", RunnerName(os, runnerLabel), "--labels", runnerLabel,
          "--unattended", "--runasservice"], ' ')
  }

  // ---- Linux (bash) lines ----

  const Shebang: string := "#!/bin/bash"
  const LinuxInstallDir: string := "actions-runner"
  const LinuxMkdirLine: string := "mkdir " + LinuxInstallDir + " && cd " + LinuxInstallDir

  /** Sets an environment flag of the runner agent to 1. */
  function ExportLine(name: string): string
  {
    "export " + name + "=1"
  }

  /** Lets the agent run as root, which boot scripts are run as. */
  const ExportRunAsRoot: string := ExportLine("RUNNER_ALLOW_RUNASROOT")
  /** Lets the agent's .NET runtime start without locale data. */
  const ExportGlobalizationInvariant: string := ExportLine("DOTNET_SYSTEM_GLOBALIZATION_INVARIANT")
  const RunLine: string := "./run.sh"

  function LinuxDownloadLine(os: string): string
  {
    Join(["curl", "-O", "-L", ReleaseUrl(os, ".tar.gz")], ' ')
  }

  function LinuxExtractLine(os: string): string
  {
    Join(["tar", "xzf", "./" + ArchiveName(os, ".tar.gz")], ' ')
  }

  /** Same values as on Windows, but the name comes before the token. */
  function LinuxConfigLine(os: string, owner: string, repo: string, token: string, runnerLabel: string): string
  {
    Join(["./config.sh", "--url", RepoUrl(owner, repo), "--name", RunnerName(os, runnerLabel),
          "--token", token, "--labels", runnerLabel], ' ')
  }

  // ---- The script ----

  /** Create the default directory, download the release archive, unpack it. */
  function InstallLines(os: string): seq<string>
  {
    if PlatformOf(os) == Windows then [WindowsMkdirLine, WindowsDownloadLine(os), WindowsExtractLine(os)]
    else [LinuxMkdirLine, LinuxDownloadLine(os), LinuxExtractLine(os)]
  }

  /** A configured home directory is reused as it is; otherwise a fresh install. */
  function SetupLines(os: string, home: string): seq<string>
  {
    if Truthy(home) then [CdLine(home)] else InstallLines(os)
  }

  /** The script for the configured OS tag, as a list of lines: a PowerShell
      block for Windows, a bash script for the three Linux tags, nothing for
      any other tag. */
  function Script(cfg: Configuration, token: string, runnerLabel: string): (r: seq<string>)
    ensures PlatformOf(cfg.input.ec2BaseOs) == Windows ==>
      |r| == (if Truthy(cfg.input.runnerHomeDir) then 4 else 6) &&
      r[0] == PowerShellOpen && r[|r| - 1] == PowerShellClose &&
      r[|r| - 2] == WindowsConfigLine(cfg.input.ec2BaseOs, cfg.githubContext.owner,
                                      cfg.githubContext.repo, token, runnerLabel)
    ensures PlatformOf(cfg.input.ec2BaseOs) == Linux ==>
      |r| == (if Truthy(cfg.input.runnerHomeDir) then 6 else 8) &&
      r[0] == Shebang &&
      r[|r| - 4..] == [ExportRunAsRoot, ExportGlobalizationInvariant,
                       LinuxConfigLine(cfg.input.ec2BaseOs, cfg.githubContext.owner,
                                       cfg.githubContext.repo, token, runnerLabel),
                       RunLine]
    ensures PlatformOf(cfg.input.ec2BaseOs) == Unsupported ==> r == []
  {
    var os := cfg.input.ec2BaseOs;
    var owner, repo := cfg.githubContext.owner, cfg.githubContext.repo;
    match PlatformOf(os)
    case Windows =>
      [PowerShellOpen] + SetupLines(os, cfg.input.runnerHomeDir)
      + [WindowsConfigLine(os, owner, repo, token, runnerLabel), PowerShellClose]
    case Linux =>
      [Shebang] + SetupLines(os, cfg.input.runnerHomeDir)
      + [ExportRunAsRoot, ExportGlobalizationInvariant,
         LinuxConfigLine(os, owner, repo, token, runnerLabel), RunLine]
    case Unsupported =>
      []
  }

  /** Builds the script by appending line after line, branch by branch. On an
      unsupported tag the source logs an error and returns the empty list. */
  method BuildUserDataScript(cfg: Configuration, githubRegistrationToken: string, runnerLabel: string)
    returns (userData: seq<string>)
    ensures userData == Script(cfg, githubRegistrationToken, runnerLabel)
  {
    userData := [];
    var os := cfg.input.ec2BaseOs;
    var home := cfg.input.runnerHomeDir;
    var owner, repo := cfg.githubContext.owner, cfg.githubContext.repo;

    if os == WinX64 {
      userData := userData + [PowerShellOpen];
      if Truthy(home) {
        userData := userData + [CdLine(home)];
      } else {
        userData := userData + [WindowsMkdirLine, WindowsDownloadLine(os), WindowsExtractLine(os)];
      }
      assert userData == [PowerShellOpen] + SetupLines(os, home);
      userData := userData + [WindowsConfigLine(os, owner, repo, githubRegistrationToken, runnerLabel),
                              PowerShellClose];
    } else if os == LinuxX64 || os == LinuxArm || os == LinuxArm64 {
      userData := userData + [Shebang];
      if Truthy(home) {
        userData := userData + [CdLine(home)];
      } else {
        userData := userData + [LinuxMkdirLine, LinuxDownloadLine(os), LinuxExtractLine(os)];
      }
      assert userData == [Shebang] + SetupLines(os, home);
      userData := userData + [ExportRunAsRoot, ExportGlobalizationInvariant,
                              LinuxConfigLine(os, owner, repo, githubRegistrationToken, runnerLabel),
                              RunLine];
    }
  }

  // ---- Properties of the script ----

  /** With no space in the interpolated values, cutting the `./config.cmd`
      line at single spaces with `Split` gives the words url, token, name,
      labels, then the unattended and service flags, in that order. */
  lemma WindowsConfigArguments(os: string, owner: string, repo: string, token: string, runnerLabel: string)
    requires ' ' !in os && ' ' !in owner && ' ' !in repo && ' ' !in token && ' ' !in runnerLabel
    ensures Split(WindowsConfigLine(os, owner, repo, token, runnerLabel), ' ') ==
      ["./config.cmd", "--url", GitHub + owner + "/" + repo, "--token", token,
       "--name", os + "-" + runnerLabel, "--labels", runnerLabel, "--unattended", "--runasservice"]
  {
    SplitJoin(["./config.cmd", "--url", RepoUrl(owner, repo), "--token", token,
               "--name", RunnerName(os, runnerLabel), "--labels", runnerLabel,
               "--unattended", "--runasservice"], ' ');
  }

  /** With no space in the interpolated values, cutting the `./config.sh`
      line at single spaces with `Split` gives the words url, name, token,
      labels, in that order. */
  lemma LinuxConfigArguments(os: string, owner: string, repo: string, token: string, runnerLabel: string)
    requires ' ' !in os && ' ' !in owner && ' ' !in repo && ' ' !in token && ' ' !in runnerLabel
    ensures Split(LinuxConfigLine(os, owner, repo, token, runnerLabel), ' ') ==
      ["./config.sh", "--url", GitHub + owner + "/" + repo,
       "--name", os + "-" + runnerLabel, "--token", token, "--labels", runnerLabel]
  {
    SplitJoin(["./config.sh", "--url", RepoUrl(owner, repo), "--name", RunnerName(os, runnerLabel),
               "--token", token, "--labels", runnerLabel], ' ');
  }

  /** Right after the header comes the setup: one line changing into a
      configured home directory, or else the three lines of a fresh install
      (create the default directory, download, unpack). With the shape that
      `Script` ensures, this fixes every line of the script. */
  lemma SetupFollowsHeader(cfg: Configuration, token: string, runnerLabel: string)
    requires PlatformOf(cfg.input.ec2BaseOs) != Unsupported
    ensures var r := Script(cfg, token, runnerLabel);
      (Truthy(cfg.input.runnerHomeDir) ==> r[1] == CdLine(cfg.input.runnerHomeDir)) &&
      (!Truthy(cfg.input.runnerHomeDir) ==> r[1..4] == InstallLines(cfg.input.ec2BaseOs))
  {
  }

  /** On Windows the archive is saved under the name that is then unpacked:
      the saved name is written with the literal tag "win-x64", which is the
      tag itself on this branch. The URL names the same archive. */
  lemma WindowsArchiveConsistent(os: string)
    requires PlatformOf(os) == Windows
    ensures Split(WindowsDownloadLine(os), ' ') ==
      ["Invoke-WebRequest", "-Uri", ReleaseUrl(os, ".zip"), "-OutFile", ArchiveName(os, ".zip")]
    ensures Split(WindowsExtractLine(os), ' ') ==
      ["Expand-Archive", "-Path", ArchiveName(os, ".zip"), "-DestinationPath", "$PWD"]
    ensures Last(Split(ReleaseUrl(os, ".zip"), '/')) == ArchiveName(os, ".zip")
  {
    ReleaseUrlAvoids(os, ".zip", ' ');
    SavedNameIsArchive();
    SplitJoin(["Invoke-WebRequest", "-Uri", ReleaseUrl(os, ".zip"), "-OutFile", ArchiveName(os, ".zip")], ' ');
    SplitJoin(["Expand-Archive", "-Path", ArchiveName(os, ".zip"), "-DestinationPath", "$PWD"], ' ');
    ReleaseUrlNamesArchive(os, ".zip");
  }

  /** On Linux `curl -O` saves the archive under the last path segment of its
      URL, which is the archive that `tar` then unpacks. */
  lemma LinuxArchiveConsistent(os: string)
    requires PlatformOf(os) == Linux
    ensures Split(LinuxDownloadLine(os), ' ') == ["curl", "-O", "-L", ReleaseUrl(os, ".tar.gz")]
    ensures Last(Split(ReleaseUrl(os, ".tar.gz"), '/')) == ArchiveName(os, ".tar.gz")
    ensures Split(LinuxExtractLine(os), ' ') == ["tar", "xzf", "./" + ArchiveName(os, ".tar.gz")]
  {
    ReleaseUrlAvoids(os, ".tar.gz", ' ');
    SplitJoin(["curl", "-O", "-L", ReleaseUrl(os, ".tar.gz")], ' ');
    SplitJoin(["tar", "xzf", "./" + ArchiveName(os, ".tar.gz")], ' ');
    ReleaseUrlNamesArchive(os, ".tar.gz");
  }

  /** The last path segment of the release URL is the archive name. */
  lemma ReleaseUrlNamesArchive(os: string, ext: string)
    requires '/' !in os && '/' !in ext
    ensures Last(Split(ReleaseUrl(os, ext), '/')) == ArchiveName(os, ext)
  {
    var base := RepoUrl("actions", "runner") + "/releases/download/v" + RunnerVersion;
    assert ReleaseUrl(os, ext) == base + ['/'] + ArchiveName(os, ext);
    SplitLastPiece(base, ArchiveName(os, ext), '/');
  }

  /** Neither a space nor a line break occurs in the release URL unless the
      tag or the extension brings it. */
  lemma ReleaseUrlAvoids(os: string, ext: string, c: char)
    requires c == ' ' || c == '\n'
    requires c !in os && c !in ext
    ensures c !in ReleaseUrl(os, ext)
  {
    assert c !in GitHub && c !in "/releases/download/v" && c !in RunnerVersion && c !in "actions-runner-";
  }

  /** The file name the Windows download is saved under is the archive name
      for the tag "win-x64". */
  lemma SavedNameIsArchive()
    ensures "actions-runner-win-x64-" + RunnerVersion + ".zip" == ArchiveName(WinX64, ".zip")
  {
    assert "actions-runner-win-x64-" == "actions-runner-" + WinX64 + "-";
  }

  /** When none of the interpolated values contains a line break, cutting
      the newline-joined script at line breaks with `Split` gives back exactly
      the lines that were built. For an unsupported tag the joined script is
      empty. */
  lemma ScriptLinesRecoverable(cfg: Configuration, token: string, runnerLabel: string)
    requires '\n' !in cfg.input.runnerHomeDir
    requires '\n' !in cfg.githubContext.owner && '\n' !in cfg.githubContext.repo
    requires '\n' !in token && '\n' !in runnerLabel
    ensures var r := Script(cfg, token, runnerLabel);
      if PlatformOf(cfg.input.ec2BaseOs) == Unsupported then Join(r, '\n') == ""
      else Split(Join(r, '\n'), '\n') == r
  {
    var r := Script(cfg, token, runnerLabel);
    match PlatformOf(cfg.input.ec2BaseOs)
    case Unsupported =>
    case Windows =>
      WindowsScriptAvoidsNewline(cfg, token, runnerLabel);
      SplitJoin(r, '\n');
    case Linux =>
      LinuxScriptAvoidsNewline(cfg, token, runnerLabel);
      SplitJoin(r, '\n');
  }

  // ---- Line-break freeness: helpers of ScriptLinesRecoverable ----
  // Each lemma below establishes one piece of the single fact that no line
  // of the script holds a line break unless an interpolated value does; they
  // are split this finely to keep each proof small.

  lemma WindowsScriptAvoidsNewline(cfg: Configuration, token: string, runnerLabel: string)
    requires PlatformOf(cfg.input.ec2BaseOs) == Windows
    requires '\n' !in cfg.input.runnerHomeDir
    requires '\n' !in cfg.githubContext.owner && '\n' !in cfg.githubContext.repo
    requires '\n' !in token && '\n' !in runnerLabel
    ensures Free(Script(cfg, token, runnerLabel), '\n')
  {
    var os, home := cfg.input.ec2BaseOs, cfg.input.runnerHomeDir;
    var owner, repo := cfg.githubContext.owner, cfg.githubContext.repo;
    var tail := [WindowsConfigLine(os, owner, repo, token, runnerLabel), PowerShellClose];
    SetupAvoidsNewline(os, home);
    ConfigLineAvoidsNewline(os, owner, repo, token, runnerLabel);
    FixedLinesAvoidNewline();
    FreeConcat([PowerShellOpen], SetupLines(os, home), '\n');
    FreeConcat([PowerShellOpen] + SetupLines(os, home), tail, '\n');
  }

  lemma LinuxScriptAvoidsNewline(cfg: Configuration, token: string, runnerLabel: string)
    requires PlatformOf(cfg.input.ec2BaseOs) == Linux
    requires '\n' !in cfg.input.runnerHomeDir
    requires '\n' !in cfg.githubContext.owner && '\n' !in cfg.githubContext.repo
    requires '\n' !in token && '\n' !in runnerLabel
    ensures Free(Script(cfg, token, runnerLabel), '\n')
  {
    var os, home := cfg.input.ec2BaseOs, cfg.input.runnerHomeDir;
    var owner, repo := cfg.githubContext.owner, cfg.githubContext.repo;
    var tail := [ExportRunAsRoot, ExportGlobalizationInvariant,
                 LinuxConfigLine(os, owner, repo, token, runnerLabel), RunLine];
    SetupAvoidsNewline(os, home);
    ConfigLineAvoidsNewline(os, owner, repo, token, runnerLabel);
    FixedLinesAvoidNewline();
    FreeConcat([Shebang], SetupLines(os, home), '\n');
    FreeConcat([Shebang] + SetupLines(os, home), tail, '\n');
  }

  /** The fixed lines of both scripts hold no line break. */
  lemma FixedLinesAvoidNewline()
    ensures '\n' !in PowerShellOpen && '\n' !in PowerShellClose
    ensures '\n' !in Shebang && '\n' !in RunLine
    ensures '\n' !in ExportRunAsRoot && '\n' !in ExportGlobalizationInvariant
  {
    ExportLineAvoidsNewline("RUNNER_ALLOW_RUNASROOT");
    ExportLineAvoidsNewline("DOTNET_SYSTEM_GLOBALIZATION_INVARIANT");
  }

  lemma ExportLineAvoidsNewline(name: string)
    requires name == "RUNNER_ALLOW_RUNASROOT" || name == "DOTNET_SYSTEM_GLOBALIZATION_INVARIANT"
    ensures '\n' !in ExportLine(name)
  {
    assert '\n' !in name;
  }

  /** The setup lines contain no line break unless the home directory does. */
  lemma SetupAvoidsNewline(os: string, home: string)
    requires PlatformOf(os) != Unsupported && '\n' !in home
    ensures Free(SetupLines(os, home), '\n')
  {
    if !Truthy(home) {
      if PlatformOf(os) == Windows {
        WindowsInstallAvoidsNewline(os);
      } else {
        LinuxInstallAvoidsNewline(os);
      }
    }
  }

  lemma WindowsInstallAvoidsNewline(os: string)
    requires PlatformOf(os) == Windows
    ensures Free(InstallLines(os), '\n')
  {
    ReleaseUrlAvoids(os, ".zip", '\n');
    SavedNameIsArchive();
    WordsAvoidNewline(["Invoke-WebRequest", "-Uri", ReleaseUrl(os, ".zip"), "-OutFile", ArchiveName(os, ".zip")]);
    WordsAvoidNewline(["Expand-Archive", "-Path", ArchiveName(os, ".zip"), "-DestinationPath", "$PWD"]);
  }

  lemma LinuxInstallAvoidsNewline(os: string)
    requires PlatformOf(os) == Linux
    ensures Free(InstallLines(os), '\n')
  {
    TagAvoids(os);
    ReleaseUrlAvoids(os, ".tar.gz", '\n');
    WordsAvoidNewline(["curl", "-O", "-L", ReleaseUrl(os, ".tar.gz")]);
    WordsAvoidNewline(["tar", "xzf", "./" + ArchiveName(os, ".tar.gz")]);
  }

  /** A line made of words free of line breaks has none. */
  lemma WordsAvoidNewline(ws: seq<string>)
    requires Free(ws, '\n')
    ensures '\n' !in Join(ws, ' ')
  {
    JoinKeepsOut(ws, ' ', '\n');
  }

  /** None of the supported tags holds a space, a line break or a slash. */
  lemma TagAvoids(os: string)
    requires PlatformOf(os) != Unsupported
    ensures ' ' !in os && '\n' !in os && '/' !in os
  {
  }

  /** The configuration lines contain no line break unless an interpolated
      value does. */
  lemma ConfigLineAvoidsNewline(os: string, owner: string, repo: string, token: string, runnerLabel: string)
    requires PlatformOf(os) != Unsupported
    requires '\n' !in owner && '\n' !in repo && '\n' !in token && '\n' !in runnerLabel
    ensures '\n' !in WindowsConfigLine(os, owner, repo, token, runnerLabel)
    ensures '\n' !in LinuxConfigLine(os, owner, repo, token, runnerLabel)
  {
    TagAvoids(os);
    assert '\n' !in RepoUrl(owner, repo) && '\n' !in RunnerName(os, runnerLabel);
    WindowsConfigAvoidsNewline(RepoUrl(owner, repo), token, RunnerName(os, runnerLabel), runnerLabel);
    LinuxConfigAvoidsNewline(RepoUrl(owner, repo), token, RunnerName(os, runnerLabel), runnerLabel);
  }

  lemma WindowsConfigAvoidsNewline(url: string, token: string, name: string, runnerLabel: string)
    requires '\n' !in url && '\n' !in token && '\n' !in name && '\n' !in runnerLabel
    ensures '\n' !in Join(["./config.cmd", "--url", url, "--token", token, "--name", name,
                            "--labels", runnerLabel, "--unattended", "--runasservice"], ' ')
  {
    WordsAvoidNewline(["./config.cmd", "--url", url, "--token", token, "--name", name,
                       "--labels", runnerLabel, "--unattended", "--runasservice"]);
  }

  lemma LinuxConfigAvoidsNewline(url: string, token: string, name: string, runnerLabel: string)
    requires '\n' !in url && '\n' !in token && '\n' !in name && '\n' !in runnerLabel
    ensures '\n' !in Join(["./config.sh", "--url", url, "--name", name, "--token", token,
                            "--labels", runnerLabel], ' ')
  {
    WordsAvoidNewline(["./config.sh", "--url", url, "--name", name, "--token", token,
                       "--labels", runnerLabel]);
  }

  /** Whatever characters they hold, the token, the label, the repository URL
      and the runner name appear verbatim in both configuration lines, and the
      home directory verbatim in the line that changes into it: nothing is
      quoted or escaped. */
  lemma ValuesInterpolatedVerbatim(os: string, owner: string, repo: string, token: string,
                                   runnerLabel: string, home: string)
    ensures var w := WindowsConfigLine(os, owner, repo, token, runnerLabel);
      Contains(w, RepoUrl(owner, repo)) && Contains(w, token) &&
      Contains(w, RunnerName(os, runnerLabel)) && Contains(w, runnerLabel)
    ensures var l := LinuxConfigLine(os, owner, repo, token, runnerLabel);
      Contains(l, RepoUrl(owner, repo)) && Contains(l, token) &&
      Contains(l, RunnerName(os, runnerLabel)) && Contains(l, runnerLabel)
    ensures OccursAt(CdLine(home), home, 4)
  {
    var ws := ["./config.cmd", "--url", RepoUrl(owner, repo), "--token", token,
               "--name", RunnerName(os, runnerLabel), "--labels", runnerLabel,
               "--unattended", "--runasservice"];
    JoinContainsPiece(ws, ' ', 2);
    JoinContainsPiece(ws, ' ', 4);
    JoinContainsPiece(ws, ' ', 6);
    JoinContainsPiece(ws, ' ', 8);
    var ls := ["./config.sh", "--url", RepoUrl(owner, repo), "--name", RunnerName(os, runnerLabel),
               "--token", token, "--labels", runnerLabel];
    JoinContainsPiece(ls, ' ', 2);
    JoinContainsPiece(ls, ' ', 4);
    JoinContainsPiece(ls, ' ', 6);
    JoinContainsPiece(ls, ' ', 8);
    assert CdLine(home)[4..4 + |home|] == home;
  }
}
