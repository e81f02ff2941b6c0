/** The SSH driver of a Riak node (RiakNodeSshDriver.java): shell-snippet
    builders, version and path helpers, the shell environment, and the
    lifecycle steps with the flags they set: how Riak was installed, whether
    the `riak` command is on the PATH, and whether the node has joined a
    cluster.

    Running a script over SSH is not modelled: each script the driver runs is
    recorded with its name, body and environment override, and whether it
    succeeded is a parameter. A script built with `failOnNonZeroResultCode`
    that fails throws, so the step stops there. */
module RiakNode {
  import opened Wrappers
  import opened Text

  // ---------------------------------------------------------------------
  // Shell snippets
  // ---------------------------------------------------------------------

  /** A snippet that runs `statement` only when `command` is not found on the
      PATH. */
  function IfNotExecutable(command: string, statement: string): string {
    "{ { test ! -z `which " + command + "`; } || { " + statement + "; } }"
  }

  /** For a given command, the statement can be read back from the snippet:
      between the guard on the command and the closing braces. */
  lemma IfNotExecutableStatement(command: string, statement: string)
    ensures var r := IfNotExecutable(command, statement);
      var head := "{ { test ! -z `which " + command + "`; } || { ";
      && |r| == |head| + |statement| + 5
      && r[..|head|] == head
      && r[|head|..|r| - 5] == statement
      && r[|r| - 5..] == "; } }"
  {
  }

  /** The header line of an if-executable-else block. */
  function IfWhichHeader(command: string): string {
    "if test -z `which " + command + "`; then"
  }

  /** A block whose first branch runs when `which command` prints nothing and
      whose second runs otherwise, one line per element. */
  function IfExecutableElseLines(command: string, ifTrue: seq<string>, otherwise: seq<string>): (r: seq<string>)
    ensures |r| == |ifTrue| + |otherwise| + 3
    ensures r[0] == IfWhichHeader(command)
    ensures r[1..|ifTrue| + 1] == ifTrue
    ensures r[|ifTrue| + 1] == "else"
    ensures r[|ifTrue| + 2..|ifTrue| + |otherwise| + 2] == otherwise
    ensures r[|r| - 1] == "fi"
  {
    [IfWhichHeader(command)] + ifTrue + ["else"] + otherwise + ["fi"]
  }

  /** The one-line-per-branch form, joined with newlines. */
  function IfExecutableElseText(command: string, ifTrue: string, otherwise: string): string {
    Join(IfExecutableElseLines(command, [ifTrue], [otherwise]), '\n')
  }

  /** Splitting the joined form at newlines gives back the five lines, when
      none of the parts holds a newline. */
  lemma IfExecutableElseTextLines(command: string, ifTrue: string, otherwise: string)
    requires '\n' !in command && '\n' !in ifTrue && '\n' !in otherwise
    ensures Split(IfExecutableElseText(command, ifTrue, otherwise), '\n')
            == [IfWhichHeader(command), ifTrue, "else", otherwise, "fi"]
  {
    var lines := IfExecutableElseLines(command, [ifTrue], [otherwise]);
    assert lines == [IfWhichHeader(command), ifTrue, "else", otherwise, "fi"];
    assert '\n' !in IfWhichHeader(command);
    SplitJoin(lines, '\n');
  }

  // ---------------------------------------------------------------------
  // Versions
  // ---------------------------------------------------------------------

  /** The part of a version before its first `.`, or all of it. */
  function OsMajorVersion(osVersion: string): (r: string)
    ensures '.' !in r
    ensures StartsWith(osVersion, r)
    ensures '.' in osVersion ==> |r| < |osVersion| && osVersion[|r|] == '.'
    ensures '.' !in osVersion ==> r == osVersion
  {
    match IndexOf(osVersion, '.')
    case None => osVersion
    case Some(i) => osVersion[..i]
  }

  /** A Riak 1.x version. */
  predicate IsVersion1(version: string) {
    StartsWith(version, "1.")
  }

  /** A version is a 1.x version exactly when its major part is `1` and a
      `.` follows it. */
  lemma IsVersion1MajorPart(version: string)
    ensures IsVersion1(version) <==> '.' in version && OsMajorVersion(version) == "1"
  {
    if IsVersion1(version) {
      assert version == "1" + ['.'] + version[2..];
      IndexOfAfterPrefix("1", '.', version[2..]);
    }
    if '.' in version && OsMajorVersion(version) == "1" {
      assert version[..2] == "1.";
    }
  }

  // ---------------------------------------------------------------------
  // Paths
  // ---------------------------------------------------------------------

  /** `path` without its trailing slashes. */
  function TrimTrailingSlashes(path: string): (r: string)
    ensures StartsWith(path, r)
    ensures |r| > 0 ==> r[|r| - 1] != '/'
  {
    if |path| > 0 && path[|path| - 1] == '/' then TrimTrailingSlashes(path[..|path| - 1]) else path
  }

  /** `Urls.mergePaths(base, relative)` for a relative path without a leading
      slash: one `/` between the two. */
  function MergePaths(base: string, relative: string): string {
    if base == "" then relative else TrimTrailingSlashes(base) + "/" + relative
  }

  /** Paths below the same base with different relative parts differ. */
  lemma SuffixesDiffer(base: string, x: string, y: string)
    requires |x| > 0 && |y| > 0 && (|x| != |y| || x[0] != y[0])
    ensures base + x != base + y
  {
    if |x| == |y| {
      assert (base + x)[|base|] == x[0] && (base + y)[|base|] == y[0];
    }
  }

  const SbinPath := "$PATH:/usr/local/sbin:/usr/local/bin:/usr/sbin:/usr/bin:/sbin:/bin"

  /** `export PATH=` followed by the sbin search path. */
  function AddSbinPathCommand(): string {
    "export PATH=" + SbinPath
  }

  // ---------------------------------------------------------------------
  // Scripts
  // ---------------------------------------------------------------------

  /** The script names the driver uses. */
  datatype ScriptName = INSTALLING | CUSTOMIZING | LAUNCHING | STOPPING | CHECK_RUNNING | Custom(name: string)

  /** One line of a script body; `sudo` when it is wrapped in `BashCommands.sudo`. */
  datatype Command = Command(text: string, sudo: bool)

  /** A script the driver ran: its name, its body, and the environment it
      replaces the default one with, if any. */
  datatype Script = Script(name: ScriptName, body: seq<Command>, environmentReset: Option<map<string, string>>)

  /** The operating systems the install step tells apart. */
  datatype OsFamily = Linux | Mac | Windows | OtherOs

  /** The exceptions of the driver. */
  datatype Error =
    | UnsupportedOperation      // Windows
    | IllegalState              // neither Linux, Mac nor Windows
    | ScriptFailed(name: ScriptName)
    | NullNodeName              // RIAK_NODE_NAME not yet set

  const ErlEpmdPort := "ERL_EPMD_PORT"
  const WaitForErlang := "WAIT_FOR_ERLANG"

  /** The driver of one Riak node, with the attributes of the node it reads
      and writes. */
  class RiakNodeSshDriver {
    var isPackageInstall: bool
    var isRiakOnPath: bool
    /** The expanded install directory, fixed before installation. */
    const expandedInstallDir: string
    /** The run directory of the entity. */
    const runDir: string
    /** The configured Riak version. */
    const version: string
    /** The configured epmd listener port, if any. */
    const epmdListenerPort: Option<int>
    /** The node's RIAK_NODE_NAME attribute (`None` while unset). */
    var riakNodeName: Option<string>
    /** The node's RIAK_NODE_HAS_JOINED_CLUSTER attribute. */
    var hasJoinedCluster: bool
    /** The scripts run so far, oldest first. */
    var scripts: seq<Script>

    constructor (expandedInstallDir: string, runDir: string, version: string, epmdListenerPort: Option<int>)
      ensures isPackageInstall && isRiakOnPath
      ensures this.expandedInstallDir == expandedInstallDir && this.runDir == runDir
      ensures this.version == version && this.epmdListenerPort == epmdListenerPort
      ensures riakNodeName == None && !hasJoinedCluster && scripts == []
    {
      isPackageInstall := true;
      isRiakOnPath := true;
      this.expandedInstallDir := expandedInstallDir;
      this.runDir := runDir;
      this.version := version;
      this.epmdListenerPort := epmdListenerPort;
      riakNodeName := None;
      hasJoinedCluster := false;
      scripts := [];
    }

    /** Riak's configuration directory. */
    function RiakEtcDir(): (r: string)
      reads this`isPackageInstall
      ensures isPackageInstall ==> r == "/etc/riak"
      ensures !isPackageInstall && expandedInstallDir != "" ==>
                r == TrimTrailingSlashes(expandedInstallDir) + "/etc"
      ensures !isPackageInstall && expandedInstallDir == "" ==> r == "etc"
    {
      if isPackageInstall then "/etc/riak" else MergePaths(expandedInstallDir, "etc")
    }

    /** The `riak` command. */
    function RiakCmd(): (r: string)
      reads this`isPackageInstall
      ensures isPackageInstall ==> r == "riak"
      ensures !isPackageInstall && expandedInstallDir != "" ==>
                r == TrimTrailingSlashes(expandedInstallDir) + "/bin/riak"
      ensures !isPackageInstall && expandedInstallDir == "" ==> r == "bin/riak"
    {
      if isPackageInstall then "riak" else MergePaths(expandedInstallDir, "bin/riak")
    }

    /** The `riak-admin` command. */
    function RiakAdminCmd(): (r: string)
      reads this`isPackageInstall
      ensures isPackageInstall ==> r == "riak-admin"
      ensures !isPackageInstall && expandedInstallDir != "" ==>
                r == TrimTrailingSlashes(expandedInstallDir) + "/bin/riak-admin"
      ensures !isPackageInstall && expandedInstallDir == "" ==> r == "bin/riak-admin"
    {
      if isPackageInstall then "riak-admin" else MergePaths(expandedInstallDir, "bin/riak-admin")
    }

    /** The directory holding the ring state. */
    function RingStateDir(): (r: string)
      reads this`isPackageInstall
      ensures isPackageInstall ==> r == "/var/lib/riak/ring"
      ensures !isPackageInstall && expandedInstallDir != "" ==>
                r == TrimTrailingSlashes(expandedInstallDir) + "/lib/ring"
      ensures !isPackageInstall && expandedInstallDir == "" ==> r == "lib/ring"
    {
      if isPackageInstall then "/var/lib/riak/ring" else MergePaths(expandedInstallDir, "lib/ring")
    }

    /** The configuration directory, the two commands and the ring directory
        are four different paths, for either kind of install. */
    lemma InstallPathsDistinct()
      ensures RiakEtcDir() != RiakCmd() && RiakEtcDir() != RiakAdminCmd() && RiakEtcDir() != RingStateDir()
      ensures RiakCmd() != RiakAdminCmd() && RiakCmd() != RingStateDir() && RiakAdminCmd() != RingStateDir()
    {
      if !isPackageInstall {
        var base := if expandedInstallDir == "" then "" else TrimTrailingSlashes(expandedInstallDir) + "/";
        assert RiakEtcDir() == base + "etc" && RiakCmd() == base + "bin/riak";
        assert RiakAdminCmd() == base + "bin/riak-admin" && RingStateDir() == base + "lib/ring";
        SuffixesDiffer(base, "etc", "bin/riak");
        SuffixesDiffer(base, "etc", "bin/riak-admin");
        SuffixesDiffer(base, "etc", "lib/ring");
        SuffixesDiffer(base, "bin/riak", "bin/riak-admin");
        SuffixesDiffer(base, "bin/riak", "lib/ring");
        SuffixesDiffer(base, "bin/riak-admin", "lib/ring");
      }
    }

    /** The environment override of the scripts: the sbin search path when
        `riak` is not on the PATH. */
    function PathReset(): Option<map<string, string>>
      reads this`isRiakOnPath
    {
      if isRiakOnPath then None else Some(map["PATH" := SbinPath])
    }

    /** The base environment with `WAIT_FOR_ERLANG` set to 60 and, when a
        port is configured, `ERL_EPMD_PORT` set to it; every other entry is
        copied. */
    method GetShellEnvironment(base: map<string, string>) returns (env: map<string, string>)
      ensures WaitForErlang in env && env[WaitForErlang] == "60"
      ensures epmdListenerPort.Some? ==>
                ErlEpmdPort in env && env[ErlEpmdPort] == IntToString(epmdListenerPort.value)
      ensures epmdListenerPort.Some? && epmdListenerPort.value >= 0 ==>
                ParseDigits(env[ErlEpmdPort]) == epmdListenerPort.value
      ensures forall k :: k in base && k != WaitForErlang && (k != ErlEpmdPort || epmdListenerPort.None?) ==>
                k in env && env[k] == base[k]
      ensures forall k :: k in env ==> k in base || k == WaitForErlang || (k == ErlEpmdPort && epmdListenerPort.Some?)
    {
      env := base;
      if epmdListenerPort.Some? {
        env := env[ErlEpmdPort := IntToString(epmdListenerPort.value)];
        if epmdListenerPort.value >= 0 {
          ParseDigitsOfDigits(epmdListenerPort.value);
        }
      }
      env := env[WaitForErlang := "60"];
    }

    /** The install step's dispatch on the operating system: a package
        install on Linux, a tarball install on Mac (the flag is cleared
        before the script runs), an error otherwise. The install commands
        themselves are not modelled. */
    method Install(os: OsFamily, installSucceeds: bool) returns (r: Outcome<Error>)
      modifies this`isPackageInstall
      ensures os == Linux ==> isPackageInstall == old(isPackageInstall)
      ensures os == Mac ==> !isPackageInstall
      ensures os == Windows ==> r == Fail(UnsupportedOperation) && isPackageInstall == old(isPackageInstall)
      ensures os == OtherOs ==> r == Fail(IllegalState) && isPackageInstall == old(isPackageInstall)
      ensures os in {Linux, Mac} ==> r == if installSucceeds then Pass else Fail(ScriptFailed(INSTALLING))
    {
      if os == Windows {
        return Fail(UnsupportedOperation);
      } else if os == OtherOs {
        return Fail(IllegalState);
      } else if os == Mac {
        isPackageInstall := false;
      }
      r := if installSucceeds then Pass else Fail(ScriptFailed(INSTALLING));
    }

    /** The commands of the customize script. */
    function CustomizeCommands(os: OsFamily): (r: seq<Command>)
      reads this`isPackageInstall
      ensures var moved := if IsVersion1(version) then 3 else 2;
        |r| == moved + (if os == Mac || (os == Linux && IsVersion1(version)) then 1 else 0)
      ensures r[0] == Command("mkdir -p " + RiakEtcDir(), true)
      ensures IsVersion1(version) ==>
                && r[1] == Command("mv " + MergePaths(runDir, "vm.args") + " " + RiakEtcDir(), true)
                && r[2] == Command("mv " + MergePaths(runDir, "app.config") + " " + RiakEtcDir(), true)
      ensures !IsVersion1(version) ==> r[1] == Command("mv " + MergePaths(runDir, "riak.conf") + " " + RiakEtcDir(), true)
      ensures os == Mac ==> r[|r| - 1] == Command("ulimit -n 4096", false)
      ensures os == Linux && IsVersion1(version) ==> r[|r| - 1] == Command("chown -R riak:riak " + RiakEtcDir(), true)
      ensures forall k :: 0 <= k < |r| ==> r[k].sudo || r[k].text == "ulimit -n 4096"
    {
      var etc := RiakEtcDir();
      [Command("mkdir -p " + etc, true)]
      + (if IsVersion1(version) then
           [Command("mv " + MergePaths(runDir, "vm.args") + " " + etc, true),
            Command("mv " + MergePaths(runDir, "app.config") + " " + etc, true)]
         else [Command("mv " + MergePaths(runDir, "riak.conf") + " " + etc, true)])
      + (if os == Mac then [Command("ulimit -n 4096", false)]
         else if os == Linux && IsVersion1(version) then [Command("chown -R riak:riak " + etc, true)]
         else [])
    }

    /** The `which riak` probe, run only after a package install. */
    function ProbeScripts(): (r: seq<Script>)
      reads this`isPackageInstall
    {
      if isPackageInstall then [Script(Custom("riakOnPath"), [Command("which riak", false)], None)] else []
    }

    /** The customize step: creates the run directory, probes for `riak` on
        the PATH after a package install, runs the configuration commands and
        names the node `riak@<hostname>`. Uploading the rendered templates is
        not modelled. */
    method Customize(os: OsFamily, riakFoundOnPath: bool, subnetHostname: string, customizeSucceeds: bool)
      returns (r: Outcome<Error>)
      modifies this`isRiakOnPath, this`scripts, this`riakNodeName
      ensures isRiakOnPath == (!isPackageInstall || riakFoundOnPath)
      ensures scripts == old(scripts) + [Script(CUSTOMIZING, [], None)] + ProbeScripts()
                         + [Script(CUSTOMIZING, CustomizeCommands(os), PathReset())]
      ensures customizeSucceeds ==> r == Pass && riakNodeName == Some("riak@" + subnetHostname)
      ensures !customizeSucceeds ==> r == Fail(ScriptFailed(CUSTOMIZING)) && riakNodeName == old(riakNodeName)
    {
      var runDirScript := Script(CUSTOMIZING, [], None);
      var probe := ProbeScripts();
      isRiakOnPath := !isPackageInstall || riakFoundOnPath;
      var customizeScript := Script(CUSTOMIZING, CustomizeCommands(os), PathReset());
      scripts := scripts + [runDirScript] + probe + [customizeScript];
      if !customizeSucceeds {
        return Fail(ScriptFailed(CUSTOMIZING));
      }
      riakNodeName := Some("riak@" + subnetHostname);
      r := Pass;
    }

    /** The commands of the launch script. */
    function LaunchCommands(): (r: seq<Command>)
      reads this`isPackageInstall
      ensures isPackageInstall ==> r == [Command(AddSbinPathCommand(), false), Command("service riak start", true)]
      ensures !isPackageInstall ==> |r| == 2 && r[0] == Command("ulimit -n 65536 || true", false)
      ensures !isPackageInstall ==> r[1] == Command(RiakCmd() + " start >/dev/null 2>&1 < /dev/null &", false)
    {
      if isPackageInstall then [Command(AddSbinPathCommand(), false), Command("service riak start", true)]
      else [Command("ulimit -n 65536 || true", false),
            Command(RiakCmd() + " start >/dev/null 2>&1 < /dev/null &", false)]
    }

    /** The launch step. */
    method Launch(launchSucceeds: bool) returns (r: Outcome<Error>)
      modifies this`scripts
      ensures scripts == old(scripts) + [Script(LAUNCHING, LaunchCommands(), PathReset())]
      ensures r == if launchSucceeds then Pass else Fail(ScriptFailed(LAUNCHING))
    {
      scripts := scripts + [Script(LAUNCHING, LaunchCommands(), PathReset())];
      r := if launchSucceeds then Pass else Fail(ScriptFailed(LAUNCHING));
    }

    /** The stop command, under sudo exactly for a package install. */
    function StopCommand(): (r: Command)
      reads this`isPackageInstall
      ensures r.sudo == isPackageInstall
      ensures r.text == RiakCmd() + " stop"
    {
      Command(RiakCmd() + " stop", isPackageInstall)
    }

    /** The stop step: leaves the cluster first, then stops Riak. */
    method Stop(leaveSucceeds: bool, stopSucceeds: bool) returns (r: Outcome<Error>)
      modifies this`scripts, this`hasJoinedCluster
      ensures var leave := if old(hasJoinedCluster) then [LeaveScript()] else [];
        && (old(hasJoinedCluster) && !leaveSucceeds ==>
              r == Fail(ScriptFailed(Custom("leaveCluster"))) && hasJoinedCluster && scripts == old(scripts) + leave)
        && (!old(hasJoinedCluster) || leaveSucceeds ==>
              && !hasJoinedCluster
              && scripts == old(scripts) + leave + [Script(STOPPING, [StopCommand()], PathReset())]
              && r == if stopSucceeds then Pass else Fail(ScriptFailed(STOPPING)))
    {
      r := LeaveCluster(leaveSucceeds);
      if r.Fail? {
        return;
      }
      var command := StopCommand();
      scripts := scripts + [Script(STOPPING, [command], PathReset())];
      r := if stopSucceeds then Pass else Fail(ScriptFailed(STOPPING));
    }

    /** The running check: `riak ping` under sudo. */
    method IsRunning(pingSucceeds: bool) returns (running: bool)
      modifies this`scripts
      ensures scripts == old(scripts) + [Script(CHECK_RUNNING, [Command(RiakCmd() + " ping", true)], PathReset())]
      ensures running == pingSucceeds
    {
      scripts := scripts + [Script(CHECK_RUNNING, [Command(RiakCmd() + " ping", true)], PathReset())];
      running := pingSucceeds;
    }

    /** The script that joins the cluster through `nodeName`. */
    function JoinScript(nodeName: string): Script
      reads this`isPackageInstall, this`isRiakOnPath
    {
      Script(Custom("joinCluster"), [Command(RiakAdminCmd() + " cluster join " + nodeName, true)], PathReset())
    }

    /** Planning and committing the pending cluster changes, under sudo. */
    function PlanAndCommit(): seq<Command>
      reads this`isPackageInstall
    {
      [Command(RiakAdminCmd() + " cluster plan", true), Command(RiakAdminCmd() + " cluster commit", true)]
    }

    /** The script that leaves the cluster and commits the change. */
    function LeaveScript(): Script
      reads this`isPackageInstall, this`isRiakOnPath
    {
      Script(Custom("leaveCluster"), [Command(RiakAdminCmd() + " cluster leave", true)] + PlanAndCommit(), PathReset())
    }

    /** Joins the cluster through `nodeName`, unless that is this node itself
        or the node has already joined. */
    method JoinCluster(nodeName: string, joinSucceeds: bool) returns (r: Outcome<Error>)
      modifies this`scripts, this`hasJoinedCluster
      ensures riakNodeName.None? ==> r == Fail(NullNodeName) && unchanged(this)
      ensures riakNodeName == Some(nodeName) ==> r == Pass && unchanged(this)
      ensures riakNodeName.Some? && riakNodeName.value != nodeName && old(hasJoinedCluster) ==>
                r == Pass && unchanged(this)
      ensures riakNodeName.Some? && riakNodeName.value != nodeName && !old(hasJoinedCluster) ==>
                && scripts == old(scripts) + [JoinScript(nodeName)]
                && hasJoinedCluster == joinSucceeds
                && r == if joinSucceeds then Pass else Fail(ScriptFailed(Custom("joinCluster")))
    {
      if riakNodeName.None? {
        return Fail(NullNodeName);
      }
      if riakNodeName.value == nodeName {
        return Pass;
      }
      if !hasJoinedCluster {
        scripts := scripts + [JoinScript(nodeName)];
        if !joinSucceeds {
          return Fail(ScriptFailed(Custom("joinCluster")));
        }
        hasJoinedCluster := true;
      }
      r := Pass;
    }

    /** Leaves the cluster when the node has joined one; otherwise does
        nothing. */
    method LeaveCluster(leaveSucceeds: bool) returns (r: Outcome<Error>)
      modifies this`scripts, this`hasJoinedCluster
      ensures !old(hasJoinedCluster) ==> r == Pass && unchanged(this)
      ensures old(hasJoinedCluster) ==>
                && scripts == old(scripts) + [LeaveScript()]
                && hasJoinedCluster == !leaveSucceeds
                && r == if leaveSucceeds then Pass else Fail(ScriptFailed(Custom("leaveCluster")))
    {
      if hasJoinedCluster {
        scripts := scripts + [LeaveScript()];
        if !leaveSucceeds {
          return Fail(ScriptFailed(Custom("leaveCluster")));
        }
        hasJoinedCluster := false;
      }
      r := Pass;
    }

    /** Plans and commits pending cluster changes when the node has joined. */
    method CommitCluster(commitSucceeds: bool) returns (r: Outcome<Error>)
      modifies this`scripts
      ensures !hasJoinedCluster ==> r == Pass && scripts == old(scripts)
      ensures hasJoinedCluster ==>
                && scripts == old(scripts) + [Script(Custom("commitCluster"), PlanAndCommit(), PathReset())]
                && r == if commitSucceeds then Pass else Fail(ScriptFailed(Custom("commitCluster")))
    {
      if hasJoinedCluster {
        scripts := scripts + [Script(Custom("commitCluster"), PlanAndCommit(), PathReset())];
        if !commitSucceeds {
          return Fail(ScriptFailed(Custom("commitCluster")));
        }
      }
      r := Pass;
    }

    /** The commands that rebuild this failed node and rejoin it through
        `nodeName`. A null node name is formatted as `null`. */
    function RecoverCommands(nodeName: string): (r: seq<Command>)
      reads this`isPackageInstall, this`riakNodeName
      ensures |r| == 7
      ensures r[0] == StopCommand()
      ensures riakNodeName.Some? ==> r[1] == Command(RiakAdminCmd() + " down " + riakNodeName.value, false)
      ensures riakNodeName.None? ==> r[1] == Command(RiakAdminCmd() + " down null", false)
      ensures r[2] == Command("rm -rf " + RingStateDir(), true)
      ensures r[3] == Command(RiakCmd() + " start >/dev/null 2>&1 < /dev/null &", isPackageInstall)
      ensures r[4] == Command(RiakAdminCmd() + " cluster join " + nodeName, true)
      ensures r[5..] == PlanAndCommit()
      ensures !r[1].sudo && forall k :: 2 <= k < 7 && k != 3 ==> r[k].sudo
    {
      var failedNodeName := if riakNodeName.Some? then riakNodeName.value else "null";
      var admin := RiakAdminCmd();
      var planAndCommit := PlanAndCommit();
      [StopCommand(),
       Command(admin + " down " + failedNodeName, false),
       Command("rm -rf " + RingStateDir(), true),
       Command(RiakCmd() + " start >/dev/null 2>&1 < /dev/null &", isPackageInstall),
       Command(admin + " cluster join " + nodeName, true),
       planAndCommit[0], planAndCommit[1]]
    }

    /** Recovery restarts a tarball install the way the launch step starts
        it, and rejoins with the join script's command; its last two
        commands are those of a commit. */
    lemma RecoverRestartsAsLaunch(nodeName: string)
      ensures !isPackageInstall ==> RecoverCommands(nodeName)[3] == LaunchCommands()[1]
      ensures RecoverCommands(nodeName)[4..5] == JoinScript(nodeName).body
      ensures RecoverCommands(nodeName)[5..] == LeaveScript().body[1..]
    {
    }

    /** Recovers this node after a failure, when it has joined a cluster. */
    method RecoverFailedNode(nodeName: string, recoverSucceeds: bool) returns (r: Outcome<Error>)
      modifies this`scripts
      ensures !hasJoinedCluster ==> r == Pass && scripts == old(scripts)
      ensures hasJoinedCluster ==>
                && scripts == old(scripts) + [Script(Custom("recoverNode"), RecoverCommands(nodeName), PathReset())]
                && r == if recoverSucceeds then Pass else Fail(ScriptFailed(Custom("recoverNode")))
    {
      if hasJoinedCluster {
        scripts := scripts + [Script(Custom("recoverNode"), RecoverCommands(nodeName), PathReset())];
        if !recoverSucceeds {
          return Fail(ScriptFailed(Custom("recoverNode")));
        }
      }
      r := Pass;
    }
  }
}
