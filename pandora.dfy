/**
  The driver: the parsed-argument namespace, the per-sub-command argument
  resolution that updates it in place, and the two sub-commands, each of
  which builds its three tables and runs the selected steps.
 */
module Pandora {
  import opened Wrappers
  import opened PyValues
  import opened ConfigResolver
  import opened Validator
  import opened CommandBuilder
  import opened JobChain

  datatype Subcommand = Scan | Aggregate

  /** The namespace as a value: its attributes, the step string and the overrides. */
  datatype Args = Args(vars: Vars, steps: string, qparam: map<char, string>)

  /** How a run of the driver ends. */
  datatype Exit =
    | ArgsRejected(argError: ArgError)      // a required argument is missing
    | FilesRejected(fileError: FileError)   // an input-file check failed
    | TablesRejected(tableError: TableError) // a thread count is not an integer
    | Ready(plan: Plan, steps: string)       // the tables are built: the steps are run with them

  /** The attributes the argument resolution of a sub-command reads. */
  predicate Shaped(which: Subcommand, vars: Vars) {
    match which
    case Scan => Covers(vars, ScanRules) && FlagsTyped(vars, IntFlags)
    case Aggregate => Covers(vars, AggregateRules)
  }

  // ---------------------------------------------------------------------
  // Argument resolution, as values

  /**
    The config-file step: nothing without --config; otherwise the merge, and
    for the scan sub-command the per-step overrides.
   */
  function Configure(a: Args, config: Option<ConfigFile>, rules: seq<MergeRule>, readOverrides: bool): (b: Args)
    requires Covers(a.vars, rules)
    ensures b.steps == a.steps
    ensures config.None? ==> b == a
    ensures !readOverrides ==> b.qparam == a.qparam
  {
    match config
    case None => a
    case Some(cfg) =>
      Args(Merge(a.vars, cfg, rules), a.steps,
           if readOverrides then ReadQparams(cfg, a.qparam, QparamSteps) else a.qparam)
  }

  /** The boolean options are not config-file options, so the merge leaves them as they were. */
  lemma FlagsSurviveMerge(vars: Vars, cfg: ConfigFile)
    requires Covers(vars, ScanRules) && FlagsTyped(vars, IntFlags)
    ensures Covers(Merge(vars, cfg, ScanRules), ScanRules)
    ensures forall k :: k in IntFlags && k in vars ==> k in Merge(vars, cfg, ScanRules) && Merge(vars, cfg, ScanRules)[k] == vars[k]
    ensures FlagsTyped(Merge(vars, cfg, ScanRules), IntFlags)
  {
    RuleTablesDistinct();
    MergeSpec(vars, cfg, ScanRules);
    forall k | k in IntFlags && k in vars
      ensures Merge(vars, cfg, ScanRules)[k] == vars[k]
    {
      FlagsAreNotMergeOptions(k);
    }
  }

  lemma FlagsSurviveConfigure(a: Args, config: Option<ConfigFile>)
    requires Shaped(Scan, a.vars)
    ensures Shaped(Scan, Configure(a, config, ScanRules, true).vars)
  {
    if config.Some? {
      FlagsSurviveMerge(a.vars, config.value);
    }
  }

  /** `os.path.abspath(os.path.expanduser(bam))` when an alignment input is given; `abspath` stands for it. */
  function AbsoluteBam(vars: Vars, abspath: string -> string): (r: Vars)
    ensures r.Keys == vars.Keys
    ensures forall k :: k in vars && k != "bam" ==> r[k] == vars[k]
    ensures Set(vars, "bam") ==> r["bam"] == PyStr(abspath(Text(vars["bam"])))
    ensures !Set(vars, "bam") ==> r == vars
  {
    if Set(vars, "bam") then vars["bam" := PyStr(abspath(Text(vars["bam"])))] else vars
  }

  /**
    The scan sub-command's argument resolution: configure, check the required
    arguments, and only when they pass expand the steps, cast the flags and
    make the alignment path absolute.
   */
  function PrepareScan(a: Args, config: Option<ConfigFile>, abspath: string -> string): (r: (Result<bool, ArgError>, Args))
    requires Shaped(Scan, a.vars)
    ensures r.0 == CheckScanArgs(Configure(a, config, ScanRules, true).vars, a.steps)
    ensures r.0.Success? ==> r.1.steps == ExpandSteps(a.steps)
    ensures r.1.qparam == Configure(a, config, ScanRules, true).qparam
  {
    FlagsSurviveConfigure(a, config);
    var b := Configure(a, config, ScanRules, true);
    match CheckScanArgs(b.vars, b.steps)
    case Failure(e) => (Failure(e), b)
    case Success(warn) =>
      (Success(warn), Args(AbsoluteBam(CastFlags(b.vars, IntFlags), abspath), ExpandSteps(b.steps), b.qparam))
  }

  /** When the required-argument check fails, the namespace is left as configured. */
  lemma PrepareScanRejects(a: Args, config: Option<ConfigFile>, abspath: string -> string, e: ArgError)
    requires Shaped(Scan, a.vars)
    requires CheckScanArgs(Configure(a, config, ScanRules, true).vars, a.steps) == Failure(e)
    ensures PrepareScan(a, config, abspath) == (Failure(e), Configure(a, config, ScanRules, true))
  {
  }

  /** When the required-argument check passes, the flags are cast, the alignment path made absolute and the steps expanded. */
  lemma PrepareScanAccepts(a: Args, config: Option<ConfigFile>, abspath: string -> string, warn: bool)
    requires Shaped(Scan, a.vars)
    requires CheckScanArgs(Configure(a, config, ScanRules, true).vars, a.steps) == Success(warn)
    ensures Shaped(Scan, Configure(a, config, ScanRules, true).vars)
    ensures var b := Configure(a, config, ScanRules, true);
      PrepareScan(a, config, abspath) ==
        (Success(warn), Args(AbsoluteBam(CastFlags(b.vars, IntFlags), abspath), ExpandSteps(a.steps), b.qparam))
  {
    FlagsSurviveConfigure(a, config);
    var b := Configure(a, config, ScanRules, true);
    assert b.steps == a.steps;
    assert CheckScanArgs(b.vars, b.steps) == Success(warn);
  }

  // ---------------------------------------------------------------------
  // The sub-commands, as values

  /** The scan sub-command's tables and switches, from the resolved namespace. */
  function ScanPlan(a: Args, clusterparams: map<char, string>, python: string): Plan {
    Plan(ScanQ(python, a.vars), clusterparams, ScanPayloads(a.vars), a.qparam,
         Set(a.vars, "hpc"), Set(a.vars, "noSGE"), python)
  }

  function AggregatePlan(a: Args, python: string): Plan {
    Plan(AggregateQ(python, a.vars), AggregateClusterParams(), AggregatePayloads(a.vars), a.qparam,
         Set(a.vars, "hpc"), Set(a.vars, "noSGE"), python)
  }

  /** The scan sub-command up to its first step: file checks unless --noerror, then the tables. */
  function ScanRun(a: Args, onDisk: string -> bool, python: string): (r: Exit)
    ensures !r.ArgsRejected?
    ensures r.FilesRejected? <==> !Set(a.vars, "noerror") && CheckError(a.vars, onDisk).Fail?
    ensures r.FilesRejected? ==> r.fileError == CheckError(a.vars, onDisk).error
    ensures r.Ready? <==> (Set(a.vars, "noerror") || CheckError(a.vars, onDisk).Pass?) && ScanClusterParams(a.vars).Success?
    ensures r.Ready? ==> r.steps == a.steps && r.plan.qparam == a.qparam && r.plan.python == python
  {
    if !Set(a.vars, "noerror") && CheckError(a.vars, onDisk).Fail? then FilesRejected(CheckError(a.vars, onDisk).error)
    else
      match ScanClusterParams(a.vars)
      case Failure(e) => TablesRejected(e)
      case Success(clusterparams) => Ready(ScanPlan(a, clusterparams, python), a.steps)
  }

  function AggregateRun(a: Args, python: string): Exit {
    Ready(AggregatePlan(a, python), a.steps)
  }

  /** The whole driver up to its first step: resolve the arguments of the chosen sub-command, build its tables. */
  function Driver(which: Subcommand, a: Args, config: Option<ConfigFile>, onDisk: string -> bool,
                  abspath: string -> string, python: string): (r: Exit)
    requires Shaped(which, a.vars)
    ensures which == Scan ==>
      var checked := PrepareScan(a, config, abspath).0;
      (r.ArgsRejected? <==> checked.Failure?) &&
      (checked.Failure? ==> r == ArgsRejected(checked.error)) &&
      (checked.Success? ==> r == ScanRun(PrepareScan(a, config, abspath).1, onDisk, python))
  {
    match which
    case Scan =>
      var (checked, b) := PrepareScan(a, config, abspath);
      if checked.Failure? then ArgsRejected(checked.error) else ScanRun(b, onDisk, python)
    case Aggregate =>
      AggregateRun(Configure(a, config, AggregateRules, false), python)
  }

  /** The commands issued: none when the run was rejected, else the chain of the planned steps. */
  function Issued(exit: Exit, answer: nat -> Reply): (r: Option<Run>)
    ensures r.Some? <==> exit.Ready?
  {
    if exit.Ready? then Some(Chain(exit.plan, exit.steps, answer)) else None
  }

  // ---------------------------------------------------------------------
  // Properties of the driver

  /**
    The scan sub-command's argument resolution fails exactly when a selected
    step lacks what it needs after the config file has filled in its options;
    the failure names such a step.
   */
  lemma ScanRejectedIffStepUnready(a: Args, config: Option<ConfigFile>, abspath: string -> string)
    requires Shaped(Scan, a.vars)
    ensures var b := Configure(a, config, ScanRules, true);
      PrepareScan(a, config, abspath).0.Failure? <==>
      exists i :: 0 <= i < |a.steps| && !StepReady(b.vars, a.steps[i])
    ensures var b := Configure(a, config, ScanRules, true);
      var checked := PrepareScan(a, config, abspath).0;
      checked.Failure? ==> ErrorStep(checked.error) in a.steps && !StepReady(b.vars, ErrorStep(checked.error))
  {
    var b := Configure(a, config, ScanRules, true);
    CheckScanArgsSpec(b.vars, b.steps);
  }

  /**
    Without --noerror, a failed input-file check ends the scan with that
    error before any command is issued, whatever the scheduler would reply.
   */
  lemma FileErrorIssuesNothing(a: Args, onDisk: string -> bool, python: string, answer: nat -> Reply)
    requires !Set(a.vars, "noerror") && CheckError(a.vars, onDisk).Fail?
    ensures ScanRun(a, onDisk, python) == FilesRejected(CheckError(a.vars, onDisk).error)
    ensures Issued(ScanRun(a, onDisk, python), answer).None?
  {
  }

  /**
    --noerror skips the input-file checks: the run is stopped, if at all,
    only by a thread count that is not an integer.
   */
  lemma NoErrorSkipsFileChecks(a: Args, onDisk: string -> bool, python: string)
    requires Set(a.vars, "noerror")
    ensures !ScanRun(a, onDisk, python).FilesRejected?
    ensures ScanRun(a, onDisk, python).TablesRejected? <==> ScanClusterParams(a.vars).Failure?
  {
  }

  /**
    A scan run that gets past its checks issues the selected steps followed
    by the second report whenever the report step was selected; when every
    command completes, the last entry is that second report.
   */
  lemma ScanRunsExpandedSteps(a: Args, config: Option<ConfigFile>, onDisk: string -> bool,
                              abspath: string -> string, python: string, answer: nat -> Reply)
    requires Shaped(Scan, a.vars)
    ensures var exit := Driver(Scan, a, config, onDisk, abspath, python);
      exit.Ready? ==> exit.steps == ExpandSteps(a.steps)
    ensures var exit := Driver(Scan, a, config, onDisk, abspath, python);
      exit.Ready? && Issued(exit, answer).value.end.Completed? && '5' in a.steps ==>
        |Issued(exit, answer).value.trace| == |a.steps| + 1 && Issued(exit, answer).value.trace[|a.steps|].step == '6'
  {
    var exit := Driver(Scan, a, config, onDisk, abspath, python);
    if exit.Ready? && Issued(exit, answer).value.end.Completed? {
      CompletedRunCoversSteps(exit.plan, exit.steps, answer);
    }
  }

  /**
    Under the grid engine, a scan step whose `Step<code>` section gives a
    `qparam` is submitted with that string verbatim as its prefix, in place of
    the table's prefix and whatever the cluster profile would add.
   */
  lemma ConfigOverrideReachesSubmission(a: Args, cfg: ConfigFile, onDisk: string -> bool,
                                        abspath: string -> string, python: string, answer: nat -> Reply, k: nat)
    requires Shaped(Scan, a.vars) && a.qparam == map[]
    requires var exit := Driver(Scan, a, Some(cfg), onDisk, abspath, python);
      exit.Ready? && !exit.plan.noSGE && k < |Chain(exit.plan, exit.steps, answer).trace|
    ensures var exit := Driver(Scan, a, Some(cfg), onDisk, abspath, python);
      var e := Chain(exit.plan, exit.steps, answer).trace[k];
      e.step in QparamSteps && "qparam" in Section(cfg, StepSection(e.step)) ==>
        e.step in exit.plan.d &&
        e.cmd == SubmitLine(python, Section(cfg, StepSection(e.step))["qparam"], e.hold, exit.plan.d[e.step])
  {
    var exit := Driver(Scan, a, Some(cfg), onDisk, abspath, python);
    OverridesOnlyForScanSteps(cfg);
    assert exit.plan.qparam == ReadQparams(cfg, map[], QparamSteps) && exit.plan.python == python;
    OverrideUsedVerbatim(exit.plan, exit.steps, answer, k);
  }

  /**
    The aggregate sub-command reads no overrides: its steps are submitted
    with the overrides the namespace started with, none for a fresh one.
   */
  lemma AggregateReadsNoOverrides(a: Args, config: Option<ConfigFile>, onDisk: string -> bool,
                                  abspath: string -> string, python: string)
    requires Shaped(Aggregate, a.vars)
    ensures var exit := Driver(Aggregate, a, config, onDisk, abspath, python);
      exit.Ready? && exit.plan.qparam == a.qparam && exit.steps == a.steps
  {
  }

  /**
    In the shell, no command of either sub-command waits on another, each
    leaves the sentinel job, and each is the payload of its own step.
   */
  lemma LocalRunsIssuePayloads(exit: Exit, answer: nat -> Reply)
    requires exit.Ready? && exit.plan.noSGE
    ensures forall e :: e in Issued(exit, answer).value.trace ==>
      e.hold.None? && e.jid == NoJob && e.step in exit.plan.d && e.cmd == exit.plan.d[e.step]
  {
    var trace := ChainFrom(exit.plan, exit.steps, answer, 0, NoJob).trace;
    forall e | e in trace
      ensures e.hold.None? && e.jid == NoJob && e.step in exit.plan.d && e.cmd == exit.plan.d[e.step]
    {
      var k :| 0 <= k < |trace| && trace[k] == e;
      LocalRunNeverChains(exit.plan, exit.steps, answer, 0, NoJob, k);
      assert 0 + k == k;
    }
  }

  // ---------------------------------------------------------------------
  // The namespace, updated in place

  class Namespace {
    const which: Subcommand
    var vars: Vars
    var steps: string
    var qparam: map<char, string>

    /** The namespace as parsed, with no overrides yet. */
    constructor (which: Subcommand, vars: Vars, steps: string)
      ensures this.which == which && this.vars == vars && this.steps == steps && this.qparam == map[]
    {
      this.which := which;
      this.vars := vars;
      this.steps := steps;
      this.qparam := map[];
    }

    function State(): Args
      reads this
    {
      Args(vars, steps, qparam)
    }

    /**
      Fills each option named by `rules` whose command-line value was falsy
      from its section of the config file. The values tested are those the
      options held before the first rule ran.
     */
    method MergeConfig(cfg: ConfigFile, rules: seq<MergeRule>)
      requires Covers(vars, rules)
      modifies this
      ensures vars == Merge(old(vars), cfg, rules)
      ensures steps == old(steps) && qparam == old(qparam)
    {
      var given := vars;
      for i := 0 to |rules|
        invariant Fill(given, given, cfg, rules) == Fill(given, vars, cfg, rules[i..])
        invariant steps == old(steps) && qparam == old(qparam)
      {
        var (option, section) := rules[i];
        assert rules[i..][0] == rules[i] && rules[i..][1..] == rules[i + 1..];
        if !Truthy(given[option]) && option in Section(cfg, section) {
          vars := vars[option := PyStr(Section(cfg, section)[option])];
        }
      }
    }

    /** Records the `qparam` of each of the sections `Step1` to `Step5` that has one. */
    method ReadOverrides(cfg: ConfigFile)
      modifies this
      ensures qparam == ReadQparams(cfg, old(qparam), QparamSteps)
      ensures vars == old(vars) && steps == old(steps)
    {
      for i := 0 to |QparamSteps|
        invariant ReadQparams(cfg, old(qparam), QparamSteps) == ReadQparams(cfg, qparam, QparamSteps[i..])
        invariant vars == old(vars) && steps == old(steps)
      {
        var section := Section(cfg, StepSection(QparamSteps[i]));
        assert QparamSteps[i..][0] == QparamSteps[i] && QparamSteps[i..][1..] == QparamSteps[i + 1..];
        if "qparam" in section {
          qparam := qparam[QparamSteps[i] := section["qparam"]];
        }
      }
    }

    /** Replaces each of the boolean options `names` by the int 0 or 1, adding those the namespace lacks as 0. */
    method CastToInt(names: seq<string>)
      requires FlagsTyped(vars, names)
      modifies this
      ensures vars == CastFlags(old(vars), names)
      ensures steps == old(steps) && qparam == old(qparam)
    {
      for i := 0 to |names|
        invariant FlagsTyped(vars, names[i..])
        invariant CastFlags(old(vars), names) == CastFlags(vars, names[i..])
        invariant steps == old(steps) && qparam == old(qparam)
      {
        var name := names[i];
        assert names[i..][0] == name && names[i..][1..] == names[i + 1..];
        var value := if name in vars then vars[name] else PyInt(0);
        var n := if value.PyBool? then (if value.b then 1 else 0) else value.i;
        vars := vars[name := PyInt(n)];
      }
    }

    /**
      The scan sub-command's argument resolution. On failure the namespace
      holds what the checks saw; the run ends there.
     */
    method CheckArgScan(config: Option<ConfigFile>, abspath: string -> string) returns (r: Result<bool, ArgError>)
      requires which == Scan && Shaped(Scan, vars)
      modifies this
      ensures (r, State()) == PrepareScan(old(State()), config, abspath)
    {
      ghost var a := State();
      if config.Some? {
        FlagsSurviveMerge(vars, config.value);
        MergeConfig(config.value, ScanRules);
        ReadOverrides(config.value);
      }
      ghost var b := State();
      assert b == Configure(a, config, ScanRules, true);
      FlagsSurviveConfigure(a, config);
      r := CheckScanArgs(vars, steps);
      if r.Failure? {
        PrepareScanRejects(a, config, abspath, r.error);
        return;
      }
      PrepareScanAccepts(a, config, abspath, r.value);
      FinishScan(abspath);
    }

    /** What the scan resolution does once the checks pass: expand the steps, cast the flags, make the alignment path absolute. */
    method FinishScan(abspath: string -> string)
      requires FlagsTyped(vars, IntFlags)
      modifies this
      ensures vars == AbsoluteBam(CastFlags(old(vars), IntFlags), abspath)
      ensures steps == ExpandSteps(old(steps)) && qparam == old(qparam)
    {
      if '5' in steps {
        steps := steps + "6";
      }
      CastToInt(IntFlags);
      if Set(vars, "bam") {
        vars := vars["bam" := PyStr(abspath(Text(vars["bam"])))];
      }
    }

    /** The aggregate sub-command's argument resolution: the config-file merge only. */
    method CheckArgAggregate(config: Option<ConfigFile>)
      requires which == Aggregate && Shaped(Aggregate, vars)
      modifies this
      ensures State() == Configure(old(State()), config, AggregateRules, false)
    {
      if config.Some? {
        MergeConfig(config.value, AggregateRules);
      }
    }

    /** The scan sub-command on the resolved namespace. */
    method ScanMain(onDisk: string -> bool, python: string, answer: nat -> Reply) returns (exit: Exit, run: Option<Run>)
      ensures exit == ScanRun(State(), onDisk, python)
      ensures run == Issued(exit, answer)
    {
      if !Set(vars, "noerror") {
        var checked := CheckError(vars, onDisk);
        if checked.Fail? {
          return FilesRejected(checked.error), None;
        }
      }
      var q := ScanQ(python, vars);
      var clusterparams := ScanClusterParams(vars);
      if clusterparams.Failure? {
        return TablesRejected(clusterparams.error), None;
      }
      var d := ScanPayloads(vars);
      var p := Plan(q, clusterparams.value, d, qparam, Set(vars, "hpc"), Set(vars, "noSGE"), python);
      var end, trace := RunSteps(p, steps, answer);
      exit, run := Ready(p, steps), Some(Run(end, trace));
    }

    /** The aggregate sub-command on the resolved namespace. */
    method AggregateMain(python: string, answer: nat -> Reply) returns (exit: Exit, run: Option<Run>)
      ensures exit == AggregateRun(State(), python)
      ensures run == Issued(exit, answer)
    {
      var p := Plan(AggregateQ(python, vars), AggregateClusterParams(), AggregatePayloads(vars), qparam,
                    Set(vars, "hpc"), Set(vars, "noSGE"), python);
      var end, trace := RunSteps(p, steps, answer);
      exit, run := Ready(p, steps), Some(Run(end, trace));
    }

    /** Resolves the arguments of the chosen sub-command, then runs it. */
    method Dispatch(config: Option<ConfigFile>, onDisk: string -> bool, abspath: string -> string,
                    python: string, answer: nat -> Reply) returns (exit: Exit, run: Option<Run>)
      requires Shaped(which, vars)
      modifies this
      ensures exit == Driver(which, old(State()), config, onDisk, abspath, python)
      ensures run == Issued(exit, answer)
    {
      if which == Scan {
        var checked := CheckArgScan(config, abspath);
        if checked.Failure? {
          return ArgsRejected(checked.error), None;
        }
        exit, run := ScanMain(onDisk, python, answer);
      } else {
        CheckArgAggregate(config);
        exit, run := AggregateMain(python, answer);
      }
    }
  }
}
