/**
  Filling unset command-line options from the sections of a config file,
  reading the per-step scheduler overrides, and the small rewrites the
  scan sub-command applies afterwards (steps expansion, flag casts).
 */
module ConfigResolver {
  import opened Wrappers
  import opened PyValues

  /** A config file as read: section name to (option name to value). */
  type ConfigFile = map<string, map<string, string>>

  /** The attributes of the parsed-argument namespace, by name. */
  type Vars = map<string, PyVal>

  /** The options of one section; a section the file lacks has none. */
  function Section(cfg: ConfigFile, name: string): map<string, string> {
    if name in cfg then cfg[name] else map[]
  }

  /** (option, section): the option may be filled from that section of the file. */
  type MergeRule = (string, string)

  const ScanRules: seq<MergeRule> := [
    ("refstar", "Step1"), ("refbowtie", "Step1"), ("gtf", "Step1"),
    ("blastdb", "Step3"), ("pblastdb", "Step4"),
    ("blacklist", "Step5"), ("taxid2names", "Step5")]

  const AggregateRules: seq<MergeRule> := [
    ("taxid2names", "StepA1"), ("taxid2nodes", "StepA1"), ("accblacklist", "StepA1")]

  predicate DistinctOptions(rules: seq<MergeRule>) {
    forall i, j :: 0 <= i < j < |rules| ==> rules[i].0 != rules[j].0
  }

  /** Every option a rule names is an attribute of the namespace. */
  predicate Covers(vars: Vars, rules: seq<MergeRule>) {
    forall i :: 0 <= i < |rules| ==> rules[i].0 in vars
  }

  /**
    One rule applied to `cur`: the option is taken from the file when the value
    it had before the merge began (`orig`) is falsy and the section has it.
   */
  function ApplyRule(orig: Vars, cur: Vars, cfg: ConfigFile, rule: MergeRule): Vars
    requires rule.0 in orig
  {
    var (option, section) := rule;
    if !Truthy(orig[option]) && option in Section(cfg, section)
    then cur[option := PyStr(Section(cfg, section)[option])]
    else cur
  }

  /**
    The rules applied left to right. The command-line values are read from
    `orig`, captured before the first rule runs, as the source builds its
    list of (value, option, section) triples before looping over it.
   */
  function Fill(orig: Vars, cur: Vars, cfg: ConfigFile, rules: seq<MergeRule>): Vars
    requires Covers(orig, rules)
    decreases |rules|
  {
    if rules == [] then cur
    else Fill(orig, ApplyRule(orig, cur, cfg, rules[0]), cfg, rules[1..])
  }

  function Merge(vars: Vars, cfg: ConfigFile, rules: seq<MergeRule>): Vars
    requires Covers(vars, rules)
  {
    Fill(vars, vars, cfg, rules)
  }

  /** The section the first rule naming `option` reads it from. */
  function RuleFor(rules: seq<MergeRule>, option: string): (r: Option<string>)
    ensures r.Some? ==>
      exists i :: 0 <= i < |rules| && rules[i] == (option, r.value) &&
        (forall j :: 0 <= j < i ==> rules[j].0 != option)
    ensures r.None? ==> forall i :: 0 <= i < |rules| ==> rules[i].0 != option
  {
    if rules == [] then None
    else if rules[0].0 == option then Some(rules[0].1)
    else
      var r := RuleFor(rules[1..], option);
      assert r.Some? ==>
        exists i :: 0 <= i < |rules| && rules[i] == (option, r.value) &&
          (forall j :: 0 <= j < i ==> rules[j].0 != option) by {
        if r.Some? {
          var i :| 0 <= i < |rules[1..]| && rules[1..][i] == (option, r.value) &&
            forall j :: 0 <= j < i ==> rules[1..][j].0 != option;
          assert rules[i + 1] == (option, r.value);
          forall j | 0 <= j < i + 1 ensures rules[j].0 != option {
            if j > 0 { assert rules[j] == rules[1..][j - 1]; }
          }
        }
      }
      r
  }

  /** What a merge leaves in `option`, stated without reference to the order of the rules. */
  function Merged(vars: Vars, cfg: ConfigFile, rules: seq<MergeRule>, option: string): PyVal
    requires option in vars
  {
    match RuleFor(rules, option)
    case Some(section) =>
      if !Truthy(vars[option]) && option in Section(cfg, section)
      then PyStr(Section(cfg, section)[option])
      else vars[option]
    case None => vars[option]
  }

  lemma {:induction false} FillSpec(orig: Vars, cur: Vars, cfg: ConfigFile, rules: seq<MergeRule>)
    requires Covers(orig, rules) && DistinctOptions(rules) && cur.Keys == orig.Keys
    ensures Fill(orig, cur, cfg, rules).Keys == orig.Keys
    ensures forall k :: k in orig ==> (Fill(orig, cur, cfg, rules)[k] ==
      match RuleFor(rules, k)
      case Some(section) =>
        if !Truthy(orig[k]) && k in Section(cfg, section) then PyStr(Section(cfg, section)[k]) else cur[k]
      case None => cur[k])
    decreases |rules|
  {
    if rules != [] {
      var next := ApplyRule(orig, cur, cfg, rules[0]);
      var rest := rules[1..];
      assert Covers(orig, rest) && DistinctOptions(rest);
      FillSpec(orig, next, cfg, rest);
      forall k | k in orig
        ensures Fill(orig, cur, cfg, rules)[k] ==
          match RuleFor(rules, k)
          case Some(section) =>
            if !Truthy(orig[k]) && k in Section(cfg, section) then PyStr(Section(cfg, section)[k]) else cur[k]
          case None => cur[k]
      {
        if k == rules[0].0 {
          assert RuleFor(rest, k).None? by {
            forall i | 0 <= i < |rest| ensures rest[i].0 != k {
              assert rest[i] == rules[i + 1];
            }
          }
        }
      }
    }
  }

  /**
    The merge rule: every attribute keeps its value except an option some
    rule names, whose value was falsy and whose section supplies it; that one
    takes the file's string. No attribute is added or removed.
   */
  lemma MergeSpec(vars: Vars, cfg: ConfigFile, rules: seq<MergeRule>)
    requires Covers(vars, rules) && DistinctOptions(rules)
    ensures Merge(vars, cfg, rules).Keys == vars.Keys
    ensures forall k :: k in vars ==> Merge(vars, cfg, rules)[k] == Merged(vars, cfg, rules, k)
  {
    FillSpec(vars, vars, cfg, rules);
  }

  /** A truthy command-line value is never overridden by the file. */
  lemma TruthyValueWins(vars: Vars, cfg: ConfigFile, rules: seq<MergeRule>, option: string)
    requires Covers(vars, rules) && DistinctOptions(rules)
    requires option in vars && Truthy(vars[option])
    ensures option in Merge(vars, cfg, rules) && Merge(vars, cfg, rules)[option] == vars[option]
  {
    MergeSpec(vars, cfg, rules);
  }

  /**
    An attribute changes exactly when a rule names it, its value is falsy and
    its section holds the option; it then holds the section's string.
   */
  lemma FilledOnlyFromSection(vars: Vars, cfg: ConfigFile, rules: seq<MergeRule>, option: string)
    requires Covers(vars, rules) && DistinctOptions(rules) && option in vars
    ensures option in Merge(vars, cfg, rules)
    ensures Merge(vars, cfg, rules)[option] != vars[option] ==>
      !Truthy(vars[option]) && RuleFor(rules, option).Some? &&
      option in Section(cfg, RuleFor(rules, option).value) &&
      Merge(vars, cfg, rules)[option] == PyStr(Section(cfg, RuleFor(rules, option).value)[option])
    ensures (!Truthy(vars[option]) && RuleFor(rules, option).Some? &&
             option in Section(cfg, RuleFor(rules, option).value)) ==>
      Merge(vars, cfg, rules)[option] == PyStr(Section(cfg, RuleFor(rules, option).value)[option])
  {
    MergeSpec(vars, cfg, rules);
  }

  /** Merging an already merged namespace changes nothing. */
  lemma MergeIdempotent(vars: Vars, cfg: ConfigFile, rules: seq<MergeRule>)
    requires Covers(vars, rules) && DistinctOptions(rules)
    ensures Covers(Merge(vars, cfg, rules), rules)
    ensures Merge(Merge(vars, cfg, rules), cfg, rules) == Merge(vars, cfg, rules)
  {
    var once := Merge(vars, cfg, rules);
    MergeSpec(vars, cfg, rules);
    assert Covers(once, rules);
    MergeSpec(once, cfg, rules);
    var twice := Merge(once, cfg, rules);
    forall k | k in once
      ensures twice[k] == once[k]
    {
      assert twice[k] == Merged(once, cfg, rules, k);
    }
  }

  lemma RuleTablesDistinct()
    ensures DistinctOptions(ScanRules) && DistinctOptions(AggregateRules)
  {
  }

  // ---------------------------------------------------------------------
  // Scheduler overrides

  /** The config section that holds the overrides for scan step `code`. */
  function StepSection(code: char): string {
    "Step" + [code]
  }

  /** For each code in turn: when its section has a `qparam` option, record it as that step's override. */
  function ReadQparams(cfg: ConfigFile, qparam: map<char, string>, codes: string): map<char, string>
    decreases |codes|
  {
    if codes == [] then qparam
    else
      var section := Section(cfg, StepSection(codes[0]));
      var next := if "qparam" in section then qparam[codes[0] := section["qparam"]] else qparam;
      ReadQparams(cfg, next, codes[1..])
  }

  /** The step codes whose sections are searched for overrides: '1' to '5'. */
  const QparamSteps: string := "12345"

  lemma {:induction false} ReadQparamsSpec(cfg: ConfigFile, qparam: map<char, string>, codes: string)
    ensures forall c :: c in ReadQparams(cfg, qparam, codes) <==>
      c in qparam || (c in codes && "qparam" in Section(cfg, StepSection(c)))
    ensures forall c :: c in ReadQparams(cfg, qparam, codes) ==> (ReadQparams(cfg, qparam, codes)[c] ==
      if c in codes && "qparam" in Section(cfg, StepSection(c)) then Section(cfg, StepSection(c))["qparam"]
      else qparam[c])
    decreases |codes|
  {
    if codes != [] {
      var section := Section(cfg, StepSection(codes[0]));
      var next := if "qparam" in section then qparam[codes[0] := section["qparam"]] else qparam;
      ReadQparamsSpec(cfg, next, codes[1..]);
      assert forall c :: c in codes <==> c == codes[0] || c in codes[1..];
    }
  }

  /**
    Starting from no overrides, a step has one exactly when it is '1' to '5'
    and its section `Step<code>` has a `qparam` option, and the override is
    that option's value: steps '6' and '7' never get one.
   */
  lemma OverridesOnlyForScanSteps(cfg: ConfigFile)
    ensures forall c :: c in ReadQparams(cfg, map[], QparamSteps) <==>
      c in QparamSteps && "qparam" in Section(cfg, StepSection(c))
    ensures forall c :: c in ReadQparams(cfg, map[], QparamSteps) ==>
      ReadQparams(cfg, map[], QparamSteps)[c] == Section(cfg, StepSection(c))["qparam"]
    ensures '6' !in ReadQparams(cfg, map[], QparamSteps) && '7' !in ReadQparams(cfg, map[], QparamSteps)
  {
    ReadQparamsSpec(cfg, map[], QparamSteps);
  }

  // ---------------------------------------------------------------------
  // Steps expansion and flag casts

  /** The report step '5' brings the second report '6' with it, appended once at the end. */
  function ExpandSteps(steps: string): (r: string)
    ensures |r| == |steps| + (if '5' in steps then 1 else 0)
    ensures r[..|steps|] == steps
    ensures '5' in steps ==> r[|steps|] == '6'
    ensures multiset(r) == multiset(steps) + (if '5' in steps then multiset{'6'} else multiset{})
    ensures forall c :: c in r <==> c in steps || (c == '6' && '5' in steps)
  {
    if '5' in steps then steps + "6" else steps
  }

  /** The expansion is not idempotent: each application appends another '6'. */
  lemma ExpandStepsNotIdempotent(steps: string)
    requires '5' in steps
    ensures ExpandSteps(ExpandSteps(steps)) == steps + "66"
  {
  }

  /** The boolean options the scan sub-command casts to 0/1 before building its commands. */
  const IntFlags: seq<string> := ["gzip", "verbose", "noclean", "noSGE", "orfblast", "hpc"]

  /** A store_true option as argparse leaves it, or after the cast. */
  predicate IsFlagValue(v: PyVal) {
    v.PyBool? || v.PyInt?
  }

  /** The integer a flag is cast to: 1 or 0 for a boolean, an integer unchanged, 0 when the attribute is absent. */
  function CastFlag(vars: Vars, name: string): (v: PyVal)
    requires name in vars ==> IsFlagValue(vars[name])
    ensures v.PyInt?
  {
    if name !in vars then PyInt(0)
    else match vars[name]
      case PyBool(b) => PyInt(if b then 1 else 0)
      case PyInt(i) => PyInt(i)
  }

  predicate FlagsTyped(vars: Vars, names: seq<string>) {
    forall k :: k in names && k in vars ==> IsFlagValue(vars[k])
  }

  /** Each named flag, in turn, replaced by its integer cast; a missing flag is added as 0. */
  function CastFlags(vars: Vars, names: seq<string>): Vars
    requires FlagsTyped(vars, names)
    decreases |names|
  {
    if names == [] then vars
    else CastFlags(vars[names[0] := CastFlag(vars, names[0])], names[1..])
  }

  lemma {:induction false} CastFlagsSpec(vars: Vars, names: seq<string>)
    requires FlagsTyped(vars, names)
    ensures forall k :: k in CastFlags(vars, names) <==> k in vars || k in names
    ensures forall k :: k in names ==> CastFlags(vars, names)[k] == CastFlag(vars, k)
    ensures forall k :: k in vars && k !in names ==> CastFlags(vars, names)[k] == vars[k]
    decreases |names|
  {
    if names != [] {
      var next := vars[names[0] := CastFlag(vars, names[0])];
      var rest := names[1..];
      CastFlagsSpec(next, rest);
      assert forall k :: k in names <==> k == names[0] || k in rest;
    }
  }

  /** No boolean option is one the config file can fill in. */
  lemma FlagsAreNotMergeOptions(name: string)
    requires name in IntFlags
    ensures RuleFor(ScanRules, name).None?
  {
    assert |name| > 1 && name[0] in "gvnoh" && name != "gtf";
    forall i | 0 <= i < |ScanRules| ensures ScanRules[i].0 != name {
      assert ScanRules[i].0 == "gtf" || (|ScanRules[i].0| > 1 && ScanRules[i].0[0] in "rbpt");
    }
  }

  /** The cast keeps each flag's truth value and makes it an int. */
  lemma CastFlagKeepsTruth(vars: Vars, name: string)
    requires name in vars && IsFlagValue(vars[name])
    ensures CastFlag(vars, name).PyInt? && Truthy(CastFlag(vars, name)) == Truthy(vars[name])
  {
  }

  /**
    After the cast every flag renders as "0" or "1" in a command, with the
    truth value the option had; everything else is left as it was.
   */
  lemma CastFlagsRenderAsBits(vars: Vars, names: seq<string>, name: string)
    requires FlagsTyped(vars, names) && name in names
    requires name in vars ==> vars[name].PyBool?
    ensures name in CastFlags(vars, names)
    ensures Show(CastFlags(vars, names)[name]) == (if name in vars && Truthy(vars[name]) then "1" else "0")
  {
    CastFlagsSpec(vars, names);
  }
}
