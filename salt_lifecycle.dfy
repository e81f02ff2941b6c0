/** Planning the start of a Salt entity (SaltLifecycleEffectorTasks.java, with
    the mode enumeration and its default from SaltConfig.java).

    Starting queues a fixed, ordered sequence of task descriptors on the
    effector's task queue. What each task runs over SSH is not modelled: a
    task is an opaque descriptor carrying the arguments it was built from. */
module SaltLifecycle {
  import opened Wrappers

  /** `SaltConfig.SaltMode`. */
  datatype SaltMode = MASTER | MINION | MASTERLESS

  /** The default of the `brooklyn.salt.mode` configuration key. */
  const DefaultSaltMode := MASTERLESS

  /** The enumeration's `toString`, its constant's name. */
  function ModeName(mode: SaltMode): string {
    match mode
    case MASTER => "MASTER"
    case MINION => "MINION"
    case MASTERLESS => "MASTERLESS"
  }

  /** The task descriptors the start sequence queues. */
  datatype Task =
    | InstallSalt
    | ConfigureForMasterlessOperation
    | InstallTopFile(runList: set<string>)
    | EnableFileRoots
    | InstallSaltFormula(formula: string, url: string)
    | TaskGroup(displayName: string, children: seq<Task>)

  /** The exceptions of the start sequence. */
  datatype Error =
    | SaltModeNotProvided               // NullPointerException from checkNotNull
    | UnknownSaltMode(mode: SaltMode)   // IllegalStateException
    | NoUrlSupplied(formula: string)    // FatalConfigurationRuntimeException

  /** The mode an entity's configuration yields: the default when the key is
      unset (`None`), otherwise the value it was set to, which may be null
      (`Some(None)`). */
  function ConfiguredSaltMode(setting: Option<Option<SaltMode>>): (r: Option<SaltMode>)
    ensures setting.None? ==> r == Some(MASTERLESS)
    ensures setting.Some? ==> r == setting.value
  {
    match setting
    case None => Some(DefaultSaltMode)
    case Some(value) => value
  }

  /** `detectSaltMode`: the configured mode, failing when it is null. */
  function DetectSaltMode(mode: Option<SaltMode>): (r: Result<SaltMode, Error>)
    ensures r.Success? <==> mode.Some?
    ensures r.Success? ==> r.value == mode.value
    ensures r.Failure? ==> r.error == SaltModeNotProvided
  {
    match mode
    case None => Failure(SaltModeNotProvided)
    case Some(m) => Success(m)
  }

  /** The formula install tasks, one per formula in order, or the failure for
      the first formula whose URL is null. A formula's URL is `None` when it
      is null. */
  function FormulaTasks(formulas: seq<(string, Option<string>)>): Result<seq<Task>, Error>
    decreases |formulas|
  {
    if formulas == [] then Success([])
    else
      var (formula, url) := formulas[|formulas| - 1];
      match FormulaTasks(formulas[..|formulas| - 1])
      case Failure(e) => Failure(e)
      case Success(tasks) =>
        if url.None? then Failure(NoUrlSupplied(formula))
        else Success(tasks + [InstallSaltFormula(formula, url.value)])
  }

  /** With every URL present there is one install task per formula, in order,
      carrying that formula's URL. */
  lemma {:induction false} FormulaTasksAllUrls(formulas: seq<(string, Option<string>)>)
    requires forall i :: 0 <= i < |formulas| ==> formulas[i].1.Some?
    ensures FormulaTasks(formulas).Success?
    ensures |FormulaTasks(formulas).value| == |formulas|
    ensures forall i :: 0 <= i < |formulas| ==>
              FormulaTasks(formulas).value[i] == InstallSaltFormula(formulas[i].0, formulas[i].1.value)
    decreases |formulas|
  {
    if formulas != [] {
      var n := |formulas| - 1;
      var front := formulas[..n];
      assert forall i :: 0 <= i < n ==> front[i] == formulas[i];
      FormulaTasksAllUrls(front);
      var tasks := FormulaTasks(front).value;
      assert FormulaTasks(formulas) == Success(tasks + [InstallSaltFormula(formulas[n].0, formulas[n].1.value)]);
    }
  }

  /** The failure names the first formula without a URL. */
  lemma {:induction false} FormulaTasksMissingUrl(formulas: seq<(string, Option<string>)>, k: nat)
    requires k < |formulas| && formulas[k].1.None?
    requires forall i :: 0 <= i < k ==> formulas[i].1.Some?
    ensures FormulaTasks(formulas) == Failure(NoUrlSupplied(formulas[k].0))
    decreases |formulas|
  {
    var n := |formulas| - 1;
    var front := formulas[..n];
    assert forall i :: 0 <= i < n ==> front[i] == formulas[i];
    if k == n {
      FormulaTasksAllUrls(front);
    } else {
      FormulaTasksMissingUrl(front, k);
    }
  }

  /** The loop that adds one install task per formula to the "installing
      formulas" task builder, stopping at the first formula without a URL. */
  method CollectFormulaTasks(formulas: seq<(string, Option<string>)>) returns (r: Result<seq<Task>, Error>)
    ensures r == FormulaTasks(formulas)
  {
    var tasks: seq<Task> := [];
    for i := 0 to |formulas|
      invariant FormulaTasks(formulas[..i]) == Success(tasks)
      invariant forall j :: 0 <= j < i ==> formulas[j].1.Some?
    {
      assert formulas[..i + 1][..i] == formulas[..i];
      var (formula, url) := formulas[i];
      if url.None? {
        FormulaTasksMissingUrl(formulas, i);
        return Failure(NoUrlSupplied(formula));
      }
      tasks := tasks + [InstallSaltFormula(formula, url.value)];
    }
    assert formulas[..|formulas|] == formulas;
    return Success(tasks);
  }

  /** What starting over SSH queues, and whether it throws. */
  datatype Plan = Plan(queued: seq<Task>, outcome: Outcome<Error>)

  /** `startWithSshAsync`: install Salt, configure it for masterless
      operation and install the top file; then, when there are formulas,
      enable file roots and install the formulas as one group. */
  function StartWithSshPlan(runList: set<string>, formulas: seq<(string, Option<string>)>): Plan {
    var first := [InstallSalt, ConfigureForMasterlessOperation, InstallTopFile(runList)];
    if |formulas| == 0 then Plan(first, Pass)
    else
      match FormulaTasks(formulas)
      case Failure(e) => Plan(first + [EnableFileRoots], Fail(e))
      case Success(tasks) => Plan(first + [EnableFileRoots, TaskGroup("installing formulas", tasks)], Pass)
  }

  /** The three fixed tasks always come first, in order; with no formulas
      nothing else is queued and nothing fails. */
  lemma StartWithSshPlanFirstTasks(runList: set<string>, formulas: seq<(string, Option<string>)>)
    ensures var plan := StartWithSshPlan(runList, formulas);
      && |plan.queued| >= 3
      && plan.queued[..3] == [InstallSalt, ConfigureForMasterlessOperation, InstallTopFile(runList)]
      && (|formulas| == 0 ==> |plan.queued| == 3 && plan.outcome == Pass)
  {
  }

  /** With formulas that all have a URL, file roots are enabled next and one
      "installing formulas" group holds one install task per formula, in
      order, carrying that formula's URL. */
  lemma StartWithSshPlanFormulas(runList: set<string>, formulas: seq<(string, Option<string>)>)
    requires |formulas| > 0 && forall i :: 0 <= i < |formulas| ==> formulas[i].1.Some?
    ensures var plan := StartWithSshPlan(runList, formulas);
      && plan.outcome == Pass && |plan.queued| == 5 && plan.queued[3] == EnableFileRoots
      && plan.queued[4].TaskGroup? && plan.queued[4].displayName == "installing formulas"
      && |plan.queued[4].children| == |formulas|
      && forall i :: 0 <= i < |formulas| ==>
           plan.queued[4].children[i] == InstallSaltFormula(formulas[i].0, formulas[i].1.value)
  {
    FormulaTasksAllUrls(formulas);
  }

  /** A formula without a URL fails the sequence after file roots were
      enabled: the four tasks queued before stay queued and the group is
      never queued. */
  lemma StartWithSshPlanMissingUrl(runList: set<string>, formulas: seq<(string, Option<string>)>, k: nat)
    requires k < |formulas| && formulas[k].1.None?
    requires forall i :: 0 <= i < k ==> formulas[i].1.Some?
    ensures var plan := StartWithSshPlan(runList, formulas);
      && plan.outcome == Fail(NoUrlSupplied(formulas[k].0))
      && plan.queued == [InstallSalt, ConfigureForMasterlessOperation, InstallTopFile(runList), EnableFileRoots]
  {
    FormulaTasksMissingUrl(formulas, k);
  }

  /** The effector tasks of one Salt entity: its configuration, the task
      queue of the running effector, and its SERVICE_UP sensor. */
  class SaltLifecycleEffectorTasks {
    const saltMode: Option<SaltMode>
    const runList: set<string>
    const formulas: seq<(string, Option<string>)>
    var queue: seq<Task>
    var serviceUp: Option<bool>

    constructor (modeSetting: Option<Option<SaltMode>>, runList: set<string>, formulas: seq<(string, Option<string>)>)
      ensures saltMode == ConfiguredSaltMode(modeSetting)
      ensures this.runList == runList && this.formulas == formulas
      ensures queue == [] && serviceUp == None
    {
      saltMode := ConfiguredSaltMode(modeSetting);
      this.runList := runList;
      this.formulas := formulas;
      queue := [];
      serviceUp := None;
    }

    /** `startWithSshAsync`: queues the start sequence, and throws when a
        formula has no URL, leaving what it queued before in the queue. */
    method StartWithSshAsync() returns (outcome: Outcome<Error>)
      modifies this`queue
      ensures queue == old(queue) + StartWithSshPlan(runList, formulas).queued
      ensures outcome == StartWithSshPlan(runList, formulas).outcome
    {
      queue := queue + [InstallSalt, ConfigureForMasterlessOperation, InstallTopFile(runList)];
      if |formulas| > 0 {
        queue := queue + [EnableFileRoots];
        var formulaTasks := CollectFormulaTasks(formulas);
        if formulaTasks.Failure? {
          return Fail(formulaTasks.error);
        }
        queue := queue + [TaskGroup("installing formulas", formulaTasks.value)];
      }
      return Pass;
    }

    /** `startProcessesAtMachine`: in MASTERLESS mode, queues the start
        sequence and reports it; a null mode or any other mode throws before
        anything is queued. */
    method StartProcessesAtMachine() returns (r: Result<string, Error>)
      modifies this`queue
      ensures saltMode.None? ==> r == Failure(SaltModeNotProvided) && queue == old(queue)
      ensures saltMode.Some? && saltMode.value != MASTERLESS ==>
                r == Failure(UnknownSaltMode(saltMode.value)) && queue == old(queue)
      ensures saltMode == Some(MASTERLESS) ==>
                && queue == old(queue) + StartWithSshPlan(runList, formulas).queued
                && (StartWithSshPlan(runList, formulas).outcome.Fail? ==>
                      r == Failure(StartWithSshPlan(runList, formulas).outcome.error))
                && (StartWithSshPlan(runList, formulas).outcome.Pass? ==>
                      r == Success("salt tasks submitted (MASTERLESS)"))
    {
      var detected := DetectSaltMode(saltMode);
      if detected.Failure? {
        return Failure(detected.error);
      }
      var mode := detected.value;
      if mode == MASTERLESS {
        var outcome := StartWithSshAsync();
        if outcome.Fail? {
          return Failure(outcome.error);
        }
      } else {
        return Failure(UnknownSaltMode(mode));
      }
      assert "salt tasks submitted (" + ModeName(MASTERLESS) + ")" == "salt tasks submitted (MASTERLESS)";
      return Success("salt tasks submitted (" + ModeName(mode) + ")");
    }

    /** `stopProcessesAtMachine`: queues nothing and returns null. */
    method StopProcessesAtMachine() returns (r: Option<string>)
      ensures r == None
    {
      return None;
    }

    /** `postStartCustom`: marks the service as up. */
    method PostStartCustom()
      modifies this`serviceUp
      ensures serviceUp == Some(true)
    {
      serviceUp := Some(true);
    }
  }
}
