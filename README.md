# Salt highstate, Salt start planning and the Riak node driver, in Dafny

This project models three pieces of sequential logic from Apache Brooklyn's
Salt and Riak integrations and proves properties about them.

- **Salt highstate folding** (`salt_highstate.dfy`, module `SaltHighstate`).
  A highstate report is a list of YAML documents. Each document maps scopes to
  states, each state maps modules to entry lists, and each entry is a settings
  mapping or a plain value that names the module's method. Applying it to an
  entity does two things:
  - every state is registered in the entity's `STATES` list, once;
  - every module whose name does not start with `__` and that has settings
    publishes one map-valued sensor, `state.module.method`, holding its merged
    settings.

  The entity is a class (`SaltEntity`) whose two fields the methods update in
  place. Each method is proved equal to a fold over the input (`ApplyDocuments`,
  `ApplyScopes`, `ApplyStates`, `ApplyModules`). Lemmas then prove what the fold
  does: registration, no duplicates, order kept, which sensors exist and where
  their values come from. A hand-built three-state Apache tree is worked
  through as an example.
  The Python-tag rewriting that runs before parsing is a pure function.
- **Salt start planning** (`salt_lifecycle.dfy`, module `SaltLifecycle`).
  Starting a Salt entity checks the configured mode (MASTERLESS by default). It
  then appends a fixed, ordered sequence of opaque task descriptors to the
  effector's queue. A formula phase follows when formulas are configured, and
  it fails part-way when a formula has no URL.
- **Riak node SSH driver** (`riak_node_ssh_driver.dfy`, module `RiakNode`).
  It covers:
  - the shell-snippet builders;
  - the major-version and 1.x-version helpers;
  - the paths and commands chosen by `isPackageInstall`;
  - the shell environment;
  - the install, customize, launch, stop, running-check, join, leave, commit
    and recover steps.

  Each step records the scripts it runs: name, body, and PATH override. The
  steps also set the driver's `isPackageInstall`/`isRiakOnPath` flags and the
  node's name and joined-cluster attributes. Whether a script succeeds is a
  parameter.

Shared pieces:
- `wrappers.dfy`: `Option`, `Result`, `Outcome`.
- `text.dfy`: the Java string operations the core uses:
  - `replaceAll` of a literal;
  - joining on a character (`Split` is its inverse, used only in proofs);
  - `indexOf`, `startsWith`;
  - `Integer.toString`, with a parse-back lemma.

The maps the fold iterates over (documents, scopes, states, modules) are
sequences of (key, value) pairs here, so their document order is kept. A
module's settings and a `Dict` value are Dafny `map`s, so the key order of a
published settings map is not kept; no property here depends on it. A Java
`null` is `None`, and an exception is a `Failure`/`Fail` value.

## Model

| member | source | states |
|---|---|---|
| SaltHighstate.AdaptForSaltYamlTypes | brooklyn-server/software/cm/salt/src/main/java/org/apache/brooklyn/cm/salt/impl/SaltHighstate.java:69-71 | no `!!python/unicode` tag is left in the result, and text without the tag is returned unchanged |
| SaltHighstate.AdaptReplacesFirstTag | brooklyn-server/software/cm/salt/src/main/java/org/apache/brooklyn/cm/salt/impl/SaltHighstate.java:69-71 | the first `!!python/unicode` tag becomes `!!java.lang.String`, the text before it is kept and the rest is rewritten in turn; with the no-tag case this fixes the result |
| SaltHighstate.MethodOfIsLastNonMapping | brooklyn-server/software/cm/salt/src/main/java/org/apache/brooklyn/cm/salt/impl/SaltHighstate.java:82-90 | a module's method is `""` when all its entries are mappings, otherwise the text of a non-mapping entry after which only mappings follow (the last one wins) |
| SaltHighstate.SettingsOfMerges | brooklyn-server/software/cm/salt/src/main/java/org/apache/brooklyn/cm/salt/impl/SaltHighstate.java:83-90 | a key is in the merged settings iff some mapping entry holds it; its value is the one of the last mapping holding it |
| SaltHighstate.ReadModuleEntries | brooklyn-server/software/cm/salt/src/main/java/org/apache/brooklyn/cm/salt/impl/SaltHighstate.java:82-90 | the entry loop computes exactly that method and those merged settings |
| SaltHighstate.AddState | brooklyn-server/software/cm/salt/src/main/java/org/apache/brooklyn/cm/salt/impl/SaltHighstate.java:111-120 | the state ends up in `STATES`; an absent list becomes `[state]`; the old list is kept as a prefix; nothing but the state is added; no duplicate is created; module sensors are untouched |
| SaltHighstate.AddStateIdempotent | brooklyn-server/software/cm/salt/src/main/java/org/apache/brooklyn/cm/salt/impl/SaltHighstate.java:113 | registering a state a second time changes nothing |
| SaltHighstate.AddStateSensor | brooklyn-server/software/cm/salt/src/main/java/org/apache/brooklyn/cm/salt/impl/SaltHighstate.java:111-120 | the entity's new sensors are `AddState` of its old ones |
| SaltHighstate.SensorNameSplits | brooklyn-server/software/cm/salt/src/main/java/org/apache/brooklyn/cm/salt/impl/SaltHighstate.java:103 | `SensorName` is `state`, `module` and `method` joined with `.`; when none of them holds a `.`, splitting the name gives the three back |
| SaltHighstate.SaltInternalModules | brooklyn-server/software/cm/salt/src/main/java/org/apache/brooklyn/cm/salt/impl/SaltHighstate.java:123-125 | `IsSaltInternal`: a module is internal iff its name starts with `__`; applying an internal module changes no sensor |
| SaltHighstate.AddModuleSensors | brooklyn-server/software/cm/salt/src/main/java/org/apache/brooklyn/cm/salt/impl/SaltHighstate.java:100-109 | sets exactly the sensor `state.module.method` to the given settings; `STATES` is untouched |
| SaltHighstate.ApplyStateSensors | brooklyn-server/software/cm/salt/src/main/java/org/apache/brooklyn/cm/salt/impl/SaltHighstate.java:74-98 | registers the state first, then applies its modules in order, per `ApplyState` |
| SaltHighstate.ApplyStateScope | brooklyn-server/software/cm/salt/src/main/java/org/apache/brooklyn/cm/salt/impl/SaltHighstate.java:59-66 | applies every state of every scope in order, per `ApplyScopes` |
| SaltHighstate.ApplyHighstate | brooklyn-server/software/cm/salt/src/main/java/org/apache/brooklyn/cm/salt/impl/SaltHighstate.java:53-56 | applies every document in order, per `ApplyDocuments` |
| SaltHighstate.ApplyStatesAppend | brooklyn-server/software/cm/salt/src/main/java/org/apache/brooklyn/cm/salt/impl/SaltHighstate.java:59-66 | applying two runs of states in turn equals applying their concatenation |
| SaltHighstate.ApplyScopesFlattens | brooklyn-server/software/cm/salt/src/main/java/org/apache/brooklyn/cm/salt/impl/SaltHighstate.java:59-66 | a document is applied as the single run of its scopes' states |
| SaltHighstate.ApplyDocumentsFlattens | brooklyn-server/software/cm/salt/src/main/java/org/apache/brooklyn/cm/salt/impl/SaltHighstate.java:47-57 | a whole highstate is applied as one run of states, document after document |
| SaltHighstate.ApplyModulesKeepsStates | brooklyn-server/software/cm/salt/src/main/java/org/apache/brooklyn/cm/salt/impl/SaltHighstate.java:77-97 | the module walk never changes `STATES` |
| SaltHighstate.ApplyStatesRegisters | brooklyn-server/software/cm/salt/src/main/java/org/apache/brooklyn/cm/salt/impl/SaltHighstate.java:75 | every state of a run is registered, whatever its modules are; only those states enter `STATES`; the old list stays a prefix; no duplicates arise |
| SaltHighstate.ApplyModulesSensors | brooklyn-server/software/cm/salt/src/main/java/org/apache/brooklyn/cm/salt/impl/SaltHighstate.java:77-98 | every non-internal module with settings has its `state.module.method` sensor; every changed sensor holds the merged settings of such a module; so `__` modules and modules without settings publish nothing; other sensors keep their values |
| SaltHighstate.ApplyStatesSensors | brooklyn-server/software/cm/salt/src/main/java/org/apache/brooklyn/cm/salt/impl/SaltHighstate.java:59-66 | the same three promises over every module of every state of a run |
| SaltHighstate.ApplyModulesLastPublisher | brooklyn-server/software/cm/salt/src/main/java/org/apache/brooklyn/cm/salt/impl/SaltHighstate.java:91-108 | the sensor of the last module of a state that publishes under a name holds that module's merged settings, overwriting any earlier value |
| SaltHighstate.ApplyStatesLastPublisher | brooklyn-server/software/cm/salt/src/main/java/org/apache/brooklyn/cm/salt/impl/SaltHighstate.java:59-66 | over a run of states, the sensor of the last module visited that publishes under a name holds that module's merged settings |
| SaltHighstate.SampleHighstateStates | brooklyn-server/software/cm/salt/src/test/java/org/apache/brooklyn/cm/salt/HighstateTest.java:65-69 | applying a hand-built Apache highstate tree with the test's three states to a fresh entity gives `STATES` = `apache`, `apache-reload`, `apache-restart` |
| SaltHighstate.SampleApachePackageSensor | brooklyn-server/software/cm/salt/src/main/java/org/apache/brooklyn/cm/salt/impl/SaltHighstate.java:93-108 | in that hand-built tree, the `pkg` module publishes `apache.pkg.installed` = {name: apache2, order: 10000} |
| SaltLifecycle.ConfiguredSaltMode | brooklyn-server/software/cm/salt/src/main/java/org/apache/brooklyn/cm/salt/SaltConfig.java:48-50 | an unset mode is MASTERLESS; a set one (possibly null) is kept |
| SaltLifecycle.DetectSaltMode | brooklyn-server/software/cm/salt/src/main/java/org/apache/brooklyn/cm/salt/impl/SaltLifecycleEffectorTasks.java:69-73 | succeeds iff the mode is not null, with that mode; fails with the null-mode error otherwise |
| SaltLifecycle.FormulaTasksAllUrls | brooklyn-server/software/cm/salt/src/main/java/org/apache/brooklyn/cm/salt/impl/SaltLifecycleEffectorTasks.java:91-98 | with every URL present, one install task per formula, in order, carrying that formula's URL |
| SaltLifecycle.FormulaTasksMissingUrl | brooklyn-server/software/cm/salt/src/main/java/org/apache/brooklyn/cm/salt/impl/SaltLifecycleEffectorTasks.java:93-95 | the failure names the first formula whose URL is null |
| SaltLifecycle.CollectFormulaTasks | brooklyn-server/software/cm/salt/src/main/java/org/apache/brooklyn/cm/salt/impl/SaltLifecycleEffectorTasks.java:90-99 | the formula loop, which stops at the first null URL, computes `FormulaTasks` |
| SaltLifecycle.StartWithSshPlanFirstTasks | brooklyn-server/software/cm/salt/src/main/java/org/apache/brooklyn/cm/salt/impl/SaltLifecycleEffectorTasks.java:83-88 | install Salt, configure for masterless, install top file always come first, in order; with no formulas exactly these three are queued and nothing fails |
| SaltLifecycle.StartWithSshPlanFormulas | brooklyn-server/software/cm/salt/src/main/java/org/apache/brooklyn/cm/salt/impl/SaltLifecycleEffectorTasks.java:88-100 | with formulas that all have URLs: file roots next, then one "installing formulas" group with one install task per formula carrying its URL |
| SaltLifecycle.StartWithSshPlanMissingUrl | brooklyn-server/software/cm/salt/src/main/java/org/apache/brooklyn/cm/salt/impl/SaltLifecycleEffectorTasks.java:89-99 | a null URL fails with that formula's name; the four tasks queued before stay queued and the group is never queued |
| SaltLifecycle.SaltLifecycleEffectorTasks.StartWithSshAsync | brooklyn-server/software/cm/salt/src/main/java/org/apache/brooklyn/cm/salt/impl/SaltLifecycleEffectorTasks.java:75-102 | appends the plan's tasks to the queue and reports the plan's outcome |
| SaltLifecycle.SaltLifecycleEffectorTasks.StartProcessesAtMachine | brooklyn-server/software/cm/salt/src/main/java/org/apache/brooklyn/cm/salt/impl/SaltLifecycleEffectorTasks.java:45-56 | a null mode or a mode other than MASTERLESS fails with nothing queued; MASTERLESS queues the plan and returns "salt tasks submitted (MASTERLESS)" unless the plan fails |
| SaltLifecycle.SaltLifecycleEffectorTasks.StopProcessesAtMachine | brooklyn-server/software/cm/salt/src/main/java/org/apache/brooklyn/cm/salt/impl/SaltLifecycleEffectorTasks.java:58-62 | returns null and changes nothing |
| SaltLifecycle.SaltLifecycleEffectorTasks.PostStartCustom | brooklyn-server/software/cm/salt/src/main/java/org/apache/brooklyn/cm/salt/impl/SaltLifecycleEffectorTasks.java:104-107 | SERVICE_UP becomes true |
| RiakNode.IfNotExecutableStatement | software/nosql/src/main/java/brooklyn/entity/nosql/riak/RiakNodeSshDriver.java:152-154 | `IfNotExecutable` is the `which` guard on the command, then the statement, then `; } }`, so the statement can be read back |
| RiakNode.IfExecutableElseLines | software/nosql/src/main/java/brooklyn/entity/nosql/riak/RiakNodeSshDriver.java:161-169 | |T|+|O|+3 lines: the `if test -z` header, T, `else`, O, `fi`, each at its position |
| RiakNode.IfExecutableElseTextLines | software/nosql/src/main/java/brooklyn/entity/nosql/riak/RiakNodeSshDriver.java:156-159 | splitting `IfExecutableElseText`, the string form, at newlines gives back the five lines of the list form |
| RiakNode.OsMajorVersion | software/nosql/src/main/java/brooklyn/entity/nosql/riak/RiakNodeSshDriver.java:449-453 | the result has no `.`, is a prefix of the version, is followed by `.` when the version has one, and is the whole version otherwise |
| RiakNode.IsVersion1MajorPart | software/nosql/src/main/java/brooklyn/entity/nosql/riak/RiakNodeSshDriver.java:444-446 | `IsVersion1`: a version starts with `1.` iff it has a `.` and its major part is `1` |
| RiakNode.RiakNodeSshDriver.RiakEtcDir | software/nosql/src/main/java/brooklyn/entity/nosql/riak/RiakNodeSshDriver.java:298-300 | `/etc/riak` for a package install; otherwise `<dir>/etc` for the expanded install dir without its trailing slashes, or `etc` when that dir is empty |
| RiakNode.RiakNodeSshDriver.RiakCmd | software/nosql/src/main/java/brooklyn/entity/nosql/riak/RiakNodeSshDriver.java:302-304 | `riak` for a package install; otherwise `<dir>/bin/riak` for the expanded install dir without its trailing slashes, or `bin/riak` when that dir is empty |
| RiakNode.RiakNodeSshDriver.RiakAdminCmd | software/nosql/src/main/java/brooklyn/entity/nosql/riak/RiakNodeSshDriver.java:306-308 | `riak-admin` for a package install; otherwise `<dir>/bin/riak-admin` for the expanded install dir without its trailing slashes, or `bin/riak-admin` when that dir is empty |
| RiakNode.RiakNodeSshDriver.InstallPathsDistinct | software/nosql/src/main/java/brooklyn/entity/nosql/riak/RiakNodeSshDriver.java:298-308 | the etc dir, the `riak` and `riak-admin` commands and the ring dir are four different paths, for either kind of install |
| RiakNode.RiakNodeSshDriver.RingStateDir | software/nosql/src/main/java/brooklyn/entity/nosql/riak/RiakNodeSshDriver.java:439-442 | `/var/lib/riak/ring` for a package install; otherwise `<dir>/lib/ring` for the expanded install dir without its trailing slashes, or `lib/ring` when that dir is empty |
| RiakNode.RiakNodeSshDriver.GetShellEnvironment | software/nosql/src/main/java/brooklyn/entity/nosql/riak/RiakNodeSshDriver.java:66-75 | `WAIT_FOR_ERLANG` is 60; `ERL_EPMD_PORT` is the configured port, which parses back to it, and is set only when a port is configured; every other base entry is copied and nothing else is added |
| RiakNode.RiakNodeSshDriver.Install | software/nosql/src/main/java/brooklyn/entity/nosql/riak/RiakNodeSshDriver.java:84-107 | Linux keeps `isPackageInstall`; Mac clears it; Windows fails as unsupported and any other OS as an illegal state, both with the flag unchanged; otherwise the install script's result is the outcome |
| RiakNode.RiakNodeSshDriver.CustomizeCommands | software/nosql/src/main/java/brooklyn/entity/nosql/riak/RiakNodeSshDriver.java:190-221 | the whole list: mkdir of the etc dir; for 1.x the moves of `vm.args` then `app.config` there, otherwise of `riak.conf`; then `ulimit -n 4096` on Mac, `chown` on Linux 1.x, nothing else otherwise; every command but `ulimit` under sudo |
| RiakNode.RiakNodeSshDriver.Customize | software/nosql/src/main/java/brooklyn/entity/nosql/riak/RiakNodeSshDriver.java:183-236 | runs the empty script, the `which riak` probe only after a package install, then the commands with the PATH override; `isRiakOnPath` is the probe's result or true; the node is named `riak@host` only when the script succeeds |
| RiakNode.RiakNodeSshDriver.LaunchCommands | software/nosql/src/main/java/brooklyn/entity/nosql/riak/RiakNodeSshDriver.java:240-249 | a package install extends PATH and runs `service riak start` under sudo; otherwise `ulimit -n 65536 || true`, then `riak start` in the background, both without sudo |
| RiakNode.RiakNodeSshDriver.Launch | software/nosql/src/main/java/brooklyn/entity/nosql/riak/RiakNodeSshDriver.java:239-260 | runs the launch script with the PATH override; its failure is the outcome |
| RiakNode.RiakNodeSshDriver.StopCommand | software/nosql/src/main/java/brooklyn/entity/nosql/riak/RiakNodeSshDriver.java:266-267 | `riak stop`, under sudo iff the install was a package install |
| RiakNode.RiakNodeSshDriver.Stop | software/nosql/src/main/java/brooklyn/entity/nosql/riak/RiakNodeSshDriver.java:263-282 | leaves the cluster first (a failed leave stops it there, still joined); then runs the stop command, with the node no longer joined |
| RiakNode.RiakNodeSshDriver.IsRunning | software/nosql/src/main/java/brooklyn/entity/nosql/riak/RiakNodeSshDriver.java:285-296 | runs `riak ping` under sudo; running iff it succeeds |
| RiakNode.RiakNodeSshDriver.JoinCluster | software/nosql/src/main/java/brooklyn/entity/nosql/riak/RiakNodeSshDriver.java:311-336 | an unset own name fails; joining through the node itself, or after joining, changes nothing; otherwise the join script runs and the node is joined iff it succeeds |
| RiakNode.RiakNodeSshDriver.LeaveCluster | software/nosql/src/main/java/brooklyn/entity/nosql/riak/RiakNodeSshDriver.java:339-363 | when joined, runs leave, plan, commit under sudo and is no longer joined iff it succeeds; otherwise changes nothing |
| RiakNode.RiakNodeSshDriver.CommitCluster | software/nosql/src/main/java/brooklyn/entity/nosql/riak/RiakNodeSshDriver.java:366-383 | when joined, runs plan and commit under sudo; otherwise runs nothing |
| RiakNode.RiakNodeSshDriver.RecoverCommands | software/nosql/src/main/java/brooklyn/entity/nosql/riak/RiakNodeSshDriver.java:388-409 | seven commands: `riak stop`; `riak-admin down <failed node>` (`null` when unset) without sudo; removal of the ring dir; `riak start` in the background; `cluster join <node>`; `cluster plan`; `cluster commit`; stop and start under sudo iff package install, the others from the ring removal on under sudo |
| RiakNode.RiakNodeSshDriver.RecoverRestartsAsLaunch | software/nosql/src/main/java/brooklyn/entity/nosql/riak/RiakNodeSshDriver.java:397-409 | recovery starts a tarball install with the launch step's start command, rejoins with the join script's command and ends with the commit commands of the leave script |
| RiakNode.RiakNodeSshDriver.RecoverFailedNode | software/nosql/src/main/java/brooklyn/entity/nosql/riak/RiakNodeSshDriver.java:386-423 | when joined, runs the recovery script; otherwise runs nothing |

## Left out

- YAML parsing (`Yamls.parseAll`, `Yamls.getAs`) is not modelled. `ApplyHighstate` takes the parsed documents, and the tag rewriting is the separate `AdaptForSaltYamlTypes`. A tree whose nodes have the wrong types, which throws `ClassCastException` in Java, cannot be expressed.
- Entries that are not mappings are used only through their `toString`, which each entry carries as text.
- `addStateSensor` appends to the list object it read from the sensor, then sets the sensor again. The model treats the list as a value, so sharing that list with other readers is not captured.
- The inner loop of `applyStateSensors` writes the same sensor once per settings key. The model keeps the loop. The sensor's description text and its type token are not modelled.
- The `STATES` sensor's declaration (`SaltEntityImpl`) is not part of this model; `STATES` is a field of `SaltEntity`.
- HighstateTest.java lines 71-82 expect a `salt.state.apache` sensor of a `STATE_FUNCTION_TYPE` that `SaltHighstate.java` does not define. The model follows the code, which publishes `apache.pkg.installed` (see `SampleApachePackageSensor`).
- The Salt tasks (`installSalt`, `configureForMasterlessOperation`, `installTopFile`, `enableFileRoots`, `installSaltFormula`) are opaque descriptors. What they run over SSH is not modelled. Three of them are not defined in SaltSshTasks.java.
- `DynamicTasks.queue` is a sequence the tasks are appended to. Running the tasks, and the `machineS` parameter, are not modelled.
- The `force` flag of the formula install tasks is always false, so it is not modelled.
- The null check in `detectSaltMode` and the unknown-mode check in `startProcessesAtMachine` throw Java exceptions. These are `Error` values here.
- Running scripts over SSH is a success parameter per script. A failing script with `failOnNonZeroResultCode` ends the step. Script flags such as `USE_PID_FILE`, and the exit code itself, are not modelled.
- The `if (result != 0)` fallback of `stop` (RiakNodeSshDriver.java:278-281) cannot be reached once `failOnNonZeroResultCode` has thrown, so it is absent.
- `BashCommands.sudo` is not part of this model. A command records whether it is wrapped in sudo as a flag, not as the wrapped text.
- The install commands (`installFromPackageCloud`, `installCurl`, `installMac`, the download) are not modelled, and `Install` records no script.
- OS detection is not modelled: the OS family and version come in as parameters.
- `preInstall` and the download resolver are not modelled. The expanded install dir, run dir, version and epmd port are fixed when the driver is built.
- `processTemplate`, and uploading the rendered `vm.args`, `app.config` and `riak.conf`, are not modelled.
- `Urls.mergePaths` is not part of this model. `MergePaths` joins a relative path to a base with exactly one `/`, which is what the call sites need.
- `RiakNode.hasJoinedCluster` and the `RIAK_NODE_NAME` attribute are fields of the driver class. The entity that holds them in Java is not modelled.
- `JoinCluster`: an unset `RIAK_NODE_NAME` throws `NullPointerException` in Java. The model reports `NullNodeName`.
- `RecoverCommands`: an unset node name is formatted as `null`, as `String.format` does.
- `JoinCluster`: the `nodeName` argument is a string and cannot be null. In Java a null argument is never equal to the node's own name, and the join command then ends in `cluster join null` (RiakNodeSshDriver.java:314, 320).
- Logging is not modelled.
- Java nulls inside the highstate tree cannot be expressed: `Value` and `Entry` have no null case. In Java they throw `NullPointerException` part-way, with earlier updates already made. A null document or scope value throws at `keySet()` (SaltHighstate.java:54-55, 61-62). A null entry list or null entry throws while the entries are read (SaltHighstate.java:82-88). A null setting value throws in the eagerly evaluated debug call (SaltHighstate.java:94); by then `STATES`, the sensors of earlier modules and possibly this module's sensor are already set. The model covers only trees without nulls.
- The Apache highstate of the sample lemmas is built by hand in `salt_highstate.dfy`. HighstateTest.java reads its input from `test-highstate.yaml` (line 88), which is not part of this model, and asserts only that the three state names are contained in `STATES`.
- DslAndRebindYamlTest.java and EntityConfigResource.java are not part of this model. They exercise the DSL, rebind and REST code, whose implementations are not among the modelled files.
