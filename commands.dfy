/**
  The three per-step tables each sub-command builds before running its steps:
  the scheduler submission prefix (`q`), the extra resource request used on
  the hpc cluster (`clusterparams`), and the payload command line (`d`).
 */
module CommandBuilder {
  import opened Wrappers
  import opened PyValues
  import opened ConfigResolver
  import opened Validator

  /** Every submission writes to the same two log files. */
  const LogFlags: string := " -V -cwd -o log.out -e log.err"

  /** A submission prefix: interpreter, job name `<stage>_<identifier>`, shared logs. */
  function JobPrefix(shell: string, stage: string, id: string): string {
    "-S " + shell + " -N " + stage + "_" + id + LogFlags
  }

  /** The stage name in the job name of scan step `code`. */
  function ScanStage(code: char): string {
    match code
    case '1' => "hsep"
    case '2' => "asm"
    case '3' => "blst"
    case '4' => "orf"
    case '5' => "rep"
    case '6' => "rep2"
    case _ => "blst_unass"
  }

  const ScanCodes: set<char> := {'1', '2', '3', '4', '5', '6', '7'}
  const AggregateCodes: set<char> := {'1', '2'}

  /** The interpreter of scan step `code`: the shell script of step 7 runs under /bin/bash. */
  function ScanShell(code: char, python: string): string {
    if code == '7' then "/bin/bash" else python
  }

  /** `q` of the scan sub-command; `python` is the running interpreter's path. */
  function ScanQ(python: string, vars: Vars): map<char, string> {
    map c | c in ScanCodes :: JobPrefix(ScanShell(c, python), ScanStage(c), Show(Attr(vars, "identifier")))
  }

  /** `q` of the aggregate sub-command. */
  function AggregateQ(python: string, vars: Vars): map<char, string> {
    map c | c in AggregateCodes ::
      JobPrefix(python, if c == '1' then "agg_preproc" else "agg_report", Show(Attr(vars, "identifier")))
  }

  /** Every submission prefix of either sub-command ends with the shared log.out / log.err. */
  lemma SubmissionsShareLogs(python: string, vars: Vars)
    ensures ScanQ(python, vars).Keys == ScanCodes && AggregateQ(python, vars).Keys == AggregateCodes
    ensures forall c :: c in ScanCodes ==> EndsWith(ScanQ(python, vars)[c], LogFlags)
    ensures forall c :: c in AggregateCodes ==> EndsWith(AggregateQ(python, vars)[c], LogFlags)
  {
    var id := Show(Attr(vars, "identifier"));
    forall c | c in ScanCodes
      ensures EndsWith(ScanQ(python, vars)[c], LogFlags)
    {
      EndsWithAppend("-S " + ScanShell(c, python) + " -N " + ScanStage(c) + "_" + id, LogFlags);
    }
    forall c | c in AggregateCodes
      ensures EndsWith(AggregateQ(python, vars)[c], LogFlags)
    {
      var stage := if c == '1' then "agg_preproc" else "agg_report";
      EndsWithAppend("-S " + python + " -N " + stage + "_" + id, LogFlags);
    }
  }

  /**
    The job name a prefix built for interpreter `shell` gives the scheduler:
    what stands between `-S <shell> -N ` and the log flags.
   */
  function JobName(prefix: string, shell: string): Option<string> {
    var head := "-S " + shell + " -N ";
    if |head| + |LogFlags| <= |prefix| && prefix[..|head|] == head && EndsWith(prefix, LogFlags) then
      Some(prefix[|head|..|prefix| - |LogFlags|])
    else None
  }

  /** The job name read back from a prefix is `<stage>_<identifier>`. */
  lemma JobNameReadsBack(shell: string, stage: string, id: string)
    ensures JobName(JobPrefix(shell, stage, id), shell) == Some(stage + "_" + id)
  {
    var head, name := "-S " + shell + " -N ", stage + "_" + id;
    var prefix := JobPrefix(shell, stage, id);
    assert prefix == head + name + LogFlags;
    EndsWithAppend(head + name, LogFlags);
    assert prefix[..|head|] == head;
    assert prefix[|head|..|prefix| - |LogFlags|] == name;
  }

  /** Every prefix of the scan `q` names its job after the step's stage and the sample identifier. */
  lemma ScanJobNamesCarryIdentifier(python: string, vars: Vars)
    ensures forall c :: c in ScanCodes ==>
      JobName(ScanQ(python, vars)[c], ScanShell(c, python)) ==
        Some(ScanStage(c) + "_" + Show(Attr(vars, "identifier")))
  {
    var id := Show(Attr(vars, "identifier"));
    forall c | c in ScanCodes
      ensures JobName(ScanQ(python, vars)[c], ScanShell(c, python)) == Some(ScanStage(c) + "_" + id)
    {
      JobNameReadsBack(ScanShell(c, python), ScanStage(c), id);
    }
  }

  /** Both prefixes of the aggregate `q` name their job after the step and the identifier. */
  lemma AggregateJobNamesCarryIdentifier(python: string, vars: Vars)
    ensures forall c :: c in AggregateCodes ==>
      JobName(AggregateQ(python, vars)[c], python) ==
        Some((if c == '1' then "agg_preproc" else "agg_report") + "_" + Show(Attr(vars, "identifier")))
  {
    var id := Show(Attr(vars, "identifier"));
    forall c | c in AggregateCodes
      ensures JobName(AggregateQ(python, vars)[c], python) ==
        Some((if c == '1' then "agg_preproc" else "agg_report") + "_" + id)
    {
      JobNameReadsBack(python, if c == '1' then "agg_preproc" else "agg_report", id);
    }
  }

  /** Two different scan steps of one sample are submitted under different job names. */
  lemma ScanJobNamesDistinct(python: string, vars: Vars, c1: char, c2: char)
    requires c1 in ScanCodes && c2 in ScanCodes && c1 != c2
    ensures JobName(ScanQ(python, vars)[c1], ScanShell(c1, python)) !=
            JobName(ScanQ(python, vars)[c2], ScanShell(c2, python))
  {
    var id := Show(Attr(vars, "identifier"));
    JobNameReadsBack(ScanShell(c1, python), ScanStage(c1), id);
    JobNameReadsBack(ScanShell(c2, python), ScanStage(c2), id);
    var a, b := ScanStage(c1) + "_" + id, ScanStage(c2) + "_" + id;
    if |ScanStage(c1)| == |ScanStage(c2)| {
      assert a[0] == ScanStage(c1)[0] && b[0] == ScanStage(c2)[0];
      assert a[0] != b[0];
    } else {
      assert |a| != |b|;
    }
  }

  // ---------------------------------------------------------------------
  // Resource requests

  datatype TableError = BadInteger(option: string)  // `int()` of the option raises

  const MemHead: string := " -l mem="

  /** The leftmost position of `c` in `s`, as `str.index` finds it. */
  function IndexOf(s: string, c: char): (r: Option<nat>)
    ensures r.Some? ==> r.value < |s|
    decreases |s|
  {
    if s == [] then None
    else if s[0] == c then Some(0)
    else match IndexOf(s[1..], c)
      case None => None
      case Some(k) => Some(k + 1)
  }

  /** The position found holds `c` and none before it does; None means `c` does not occur. */
  lemma {:induction false} IndexOfFindsFirst(s: string, c: char)
    ensures IndexOf(s, c).Some? ==>
      IndexOf(s, c).value < |s| && s[IndexOf(s, c).value] == c &&
      forall j :: 0 <= j < IndexOf(s, c).value ==> s[j] != c
    ensures IndexOf(s, c).None? ==> forall j :: 0 <= j < |s| ==> s[j] != c
    decreases |s|
  {
    if s != [] && s[0] != c {
      IndexOfFindsFirst(s[1..], c);
      assert forall j :: 0 < j < |s| ==> s[j] == s[1..][j - 1];
    }
  }

  /** The memory, in gigabytes, a resource fragment ` -l mem=<n>G,...` asks for. */
  function MemoryRequest(fragment: string): Option<int> {
    if |MemHead| <= |fragment| && fragment[..|MemHead|] == MemHead then
      var rest := fragment[|MemHead|..];
      match IndexOf(rest, 'G')
      case Some(k) => ParseInt(rest[..k])
      case None => None
    else None
  }

  /** A fragment that writes `str(n)` after ` -l mem=` and then the unit reads back as n. */
  lemma MemoryRequestReadsBack(n: int, tail: string)
    ensures MemoryRequest(MemoryFragment(n, tail)) == Some(n)
  {
    var num := IntToString(n);
    var fragment := MemHead + num + "G" + tail;
    var rest := fragment[|MemHead|..];
    assert fragment[..|MemHead|] == MemHead;
    assert rest == num + "G" + tail;
    NumeralHasOnlyDigitsAndMinus(n, 'G');
    assert rest[|num|] == 'G';
    assert forall j :: 0 <= j < |num| ==> rest[j] == num[j];
    IndexOfFindsFirst(rest, 'G');
    assert IndexOf(rest, 'G') == Some(|num|);
    assert rest[..|num|] == num;
    ParseIntOfIntToString(n);
  }

  /** ` -l mem=<n>G` followed by the rest of the request. */
  function MemoryFragment(n: int, tail: string): string {
    MemHead + IntToString(n) + "G" + tail
  }

  /**
    The memory, in gigabytes, scan step `code` asks for: 16 per alignment
    thread for step 1, 12 per assembly core for step 2, and a constant of the
    step for every other step.
   */
  function ScanMemory(code: char, threads: int, cores: int): int {
    match code
    case '1' => threads * 16
    case '2' => cores * 12
    case '4' => 2
    case '7' => 1
    case _ => 4
  }

  /** What follows the memory size in scan step `code`'s request: its run time and, for 1 and 2, its slots. */
  function ScanTail(code: char, vars: Vars): string {
    match code
    case '1' => ",time=12:: -pe smp " + Show(Attr(vars, "map_threads")) + " -R y"
    case '2' => ",time=12:: -pe smp " + Show(Attr(vars, "trinitycores")) + " -R y"
    case '3' => ",time=8::"
    case '4' => ",time=2::"
    case '7' => ",time=12::"
    case _ => ",time=1::"
  }

  /** The resource fragment of scan step `code`, given the two parsed counts. */
  function ScanFragment(code: char, vars: Vars, threads: int, cores: int): string {
    MemoryFragment(ScanMemory(code, threads, cores), ScanTail(code, vars))
  }

  /** Outside steps 1 and 2 a step's fragment is fixed: no option and neither count changes it. */
  lemma FixedFragmentsIgnoreCounts(code: char, vars: Vars, vars': Vars, threads: int, cores: int, threads': int, cores': int)
    requires code != '1' && code != '2'
    ensures ScanFragment(code, vars, threads, cores) == ScanFragment(code, vars', threads', cores')
  {
  }

  /**
    `clusterparams` of the scan sub-command. `int()` of both counts is taken
    whether or not the cluster profile is used, so a count that is not a
    number stops the run before any step.
   */
  function ScanClusterParams(vars: Vars): Result<map<char, string>, TableError> {
    match IntOf(Attr(vars, "map_threads"))
    case None => Failure(BadInteger("map_threads"))
    case Some(threads) =>
      match IntOf(Attr(vars, "trinitycores"))
      case None => Failure(BadInteger("trinitycores"))
      case Some(cores) => Success(map c | c in ScanCodes :: ScanFragment(c, vars, threads, cores))
  }

  /** `clusterparams` of the aggregate sub-command. */
  function AggregateClusterParams(): map<char, string> {
    map c | c in AggregateCodes :: MemoryFragment(4, ",time=4::")
  }

  /**
    The scan table is built exactly when both counts are integers, and then
    every step's fragment asks for the memory `ScanMemory` gives for it.
   */
  lemma ScanMemoryRequests(vars: Vars)
    ensures ScanClusterParams(vars).Success? <==>
      IntOf(Attr(vars, "map_threads")).Some? && IntOf(Attr(vars, "trinitycores")).Some?
    ensures ScanClusterParams(vars).Success? ==>
      ScanClusterParams(vars).value.Keys == ScanCodes &&
      forall c :: c in ScanClusterParams(vars).value ==>
        MemoryRequest(ScanClusterParams(vars).value[c]) ==
          Some(ScanMemory(c, IntOf(Attr(vars, "map_threads")).value, IntOf(Attr(vars, "trinitycores")).value))
  {
    if ScanClusterParams(vars).Success? {
      var cp := ScanClusterParams(vars).value;
      var t := IntOf(Attr(vars, "map_threads")).value;
      var k := IntOf(Attr(vars, "trinitycores")).value;
      forall c | c in cp
        ensures MemoryRequest(cp[c]) == Some(ScanMemory(c, t, k))
      {
        MemoryRequestReadsBack(ScanMemory(c, t, k), ScanTail(c, vars));
      }
    }
  }

  /** Both aggregate steps ask for 4G. */
  lemma AggregateMemoryRequests()
    ensures AggregateClusterParams().Keys == AggregateCodes
    ensures forall c :: c in AggregateCodes ==> MemoryRequest(AggregateClusterParams()[c]) == Some(4)
  {
    MemoryRequestReadsBack(4, ",time=4::");
  }

  // ---------------------------------------------------------------------
  // Payload commands

  /** ` <flag> <value>` as the format strings write one option. */
  function Opt(flag: string, v: PyVal): string {
    " " + flag + " " + Show(v)
  }

  /** `<scripts>/scripts/<name>` */
  function Program(vars: Vars, name: string): string {
    Show(Attr(vars, "scripts")) + "/scripts/" + name
  }

  /** The program scan step `code` runs. */
  function ScanScript(code: char): string {
    match code
    case '1' => "host_separation.py"
    case '2' => "assembly.py"
    case '3' => "blast_wrapper.py"
    case '4' => "orf_discovery.py"
    case '5' => "makereport.py"
    case '6' => "makereport.py"
    case _ => "blast_unassembled_reads.sh"
  }

  /** The arguments of host separation (step 1). */
  function HostSeparationArgs(vars: Vars): string {
    Opt("--scripts", Attr(vars, "scripts")) + Opt("-1", Attr(vars, "mate1")) + Opt("-2", Attr(vars, "mate2")) +
    Opt("--bam", Attr(vars, "bam")) + Opt("--threads", Attr(vars, "map_threads")) +
    Opt("--single", Attr(vars, "single")) + Opt("--refstar", Attr(vars, "refstar")) +
    Opt("--refbowtie", Attr(vars, "refbowtie")) + Opt("--gzip", Attr(vars, "gzip")) +
    Opt("--verbose", Attr(vars, "verbose")) + Opt("--noclean", Attr(vars, "noclean")) + Opt("--gtf", Attr(vars, "gtf"))
  }

  /** The arguments of assembly (step 2). */
  function AssemblyArgs(vars: Vars): string {
    Opt("--scripts", Attr(vars, "scripts")) + Opt("--single", Attr(vars, "single")) +
    Opt("--trinitymem", Attr(vars, "trinitymem")) + Opt("--trinitycores", Attr(vars, "trinitycores")) +
    Opt("--trinitythreshold", Attr(vars, "trinitycontigthreshold")) +
    Opt("--verbose", Attr(vars, "verbose")) + Opt("--noclean", Attr(vars, "noclean"))
  }

  /** The arguments of the contig BLAST (step 3). */
  function BlastArgs(vars: Vars): string {
    Opt("--scripts", Attr(vars, "scripts")) + Opt("--threshold", Attr(vars, "contigthreshold")) +
    Opt("--db", Attr(vars, "blastdb")) + Opt("--threads", Attr(vars, "blast_threads")) +
    Opt("--id", Attr(vars, "identifier")) + Opt("--filelength", Attr(vars, "blastchunk")) +
    Opt("--verbose", Attr(vars, "verbose")) + Opt("--noclean", Attr(vars, "noclean")) +
    Opt("--nosge", Attr(vars, "noSGE")) + Opt("--hpc", Attr(vars, "hpc")) +
    Opt("--btime", Attr(vars, "btime")) + Opt("--bmem", Attr(vars, "bmem"))
  }

  /** The arguments of ORF discovery (step 4). */
  function OrfArgs(vars: Vars): string {
    Opt("--scripts", Attr(vars, "scripts")) + Opt("--id", Attr(vars, "identifier")) +
    Opt("--threshold", Attr(vars, "orfthreshold")) + Opt("--db", Attr(vars, "pblastdb")) +
    Opt("--blast", Attr(vars, "orfblast")) + Opt("--verbose", Attr(vars, "verbose")) +
    Opt("--noclean", Attr(vars, "noclean"))
  }

  /** The arguments of the report (step 5). */
  function ReportArgs(vars: Vars): string {
    Opt("--scripts", Attr(vars, "scripts")) + Opt("--id", Attr(vars, "identifier")) +
    Opt("--verbose", Attr(vars, "verbose")) + Opt("--blacklist", Attr(vars, "blacklist")) +
    Opt("--taxid2names", Attr(vars, "taxid2names")) + Opt("--hpc", Attr(vars, "hpc"))
  }

  /** The second report (step 6) is the report run on the filtered hits, into its own directory. */
  const SecondReportHead: string := " --outputdir report_ifilter --input blast/ifilter.concat.txt"

  /** The arguments of the BLAST of unassembled reads (step 7), positional for the shell script. */
  function UnassembledArgs(vars: Vars): string {
    " assembly/reads2contigs.bam blast_unassembled_reads " + Show(Attr(vars, "scripts")) + " " +
    Show(Attr(vars, "blastdb")) + " " + Show(Attr(vars, "blacklist")) + " " +
    Show(Attr(vars, "taxid2names")) + " " + Show(Attr(vars, "scripts")) + "/resources/blast.header"
  }

  /** What follows the program on the command line of scan step `code`. */
  function ScanArguments(vars: Vars, code: char): string {
    match code
    case '1' => HostSeparationArgs(vars)
    case '2' => AssemblyArgs(vars)
    case '3' => BlastArgs(vars)
    case '4' => OrfArgs(vars)
    case '5' => ReportArgs(vars)
    case '6' => SecondReportHead + ReportArgs(vars)
    case _ => UnassembledArgs(vars)
  }

  /** The attributes the command line of scan step `code` writes. */
  function ScanReads(code: char): seq<string> {
    match code
    case '1' => ["scripts", "mate1", "mate2", "bam", "map_threads", "single", "refstar", "refbowtie",
                 "gzip", "verbose", "noclean", "gtf"]
    case '2' => ["scripts", "single", "trinitymem", "trinitycores", "trinitycontigthreshold", "verbose", "noclean"]
    case '3' => ["scripts", "contigthreshold", "blastdb", "blast_threads", "identifier", "blastchunk",
                 "verbose", "noclean", "noSGE", "hpc", "btime", "bmem"]
    case '4' => ["scripts", "identifier", "orfthreshold", "pblastdb", "orfblast", "verbose", "noclean"]
    case '5' | '6' => ["scripts", "identifier", "verbose", "blacklist", "taxid2names", "hpc"]
    case _ => ["scripts", "blastdb", "blacklist", "taxid2names"]
  }

  /** `d` of the scan sub-command. */
  function ScanPayloads(vars: Vars): map<char, string> {
    map c | c in ScanCodes :: Program(vars, ScanScript(c)) + ScanArguments(vars, c)
  }

  /** The arguments of step 1 change only with the attributes `ScanReads` lists for it. */
  lemma HostSeparationReadsOnly(vars: Vars, vars': Vars)
    requires forall i :: 0 <= i < |ScanReads('1')| ==> Attr(vars, ScanReads('1')[i]) == Attr(vars', ScanReads('1')[i])
    ensures HostSeparationArgs(vars) == HostSeparationArgs(vars')
  {
    assert Attr(vars, ScanReads('1')[0]) == Attr(vars', ScanReads('1')[0]);
    assert Attr(vars, ScanReads('1')[1]) == Attr(vars', ScanReads('1')[1]);
    assert Attr(vars, ScanReads('1')[2]) == Attr(vars', ScanReads('1')[2]);
    assert Attr(vars, ScanReads('1')[3]) == Attr(vars', ScanReads('1')[3]);
    assert Attr(vars, ScanReads('1')[4]) == Attr(vars', ScanReads('1')[4]);
    assert Attr(vars, ScanReads('1')[5]) == Attr(vars', ScanReads('1')[5]);
    assert Attr(vars, ScanReads('1')[6]) == Attr(vars', ScanReads('1')[6]);
    assert Attr(vars, ScanReads('1')[7]) == Attr(vars', ScanReads('1')[7]);
    assert Attr(vars, ScanReads('1')[8]) == Attr(vars', ScanReads('1')[8]);
    assert Attr(vars, ScanReads('1')[9]) == Attr(vars', ScanReads('1')[9]);
    assert Attr(vars, ScanReads('1')[10]) == Attr(vars', ScanReads('1')[10]);
    assert Attr(vars, ScanReads('1')[11]) == Attr(vars', ScanReads('1')[11]);
  }

  /** The arguments of step 2 change only with the attributes `ScanReads` lists for it. */
  lemma AssemblyReadsOnly(vars: Vars, vars': Vars)
    requires forall i :: 0 <= i < |ScanReads('2')| ==> Attr(vars, ScanReads('2')[i]) == Attr(vars', ScanReads('2')[i])
    ensures AssemblyArgs(vars) == AssemblyArgs(vars')
  {
    assert Attr(vars, ScanReads('2')[0]) == Attr(vars', ScanReads('2')[0]);
    assert Attr(vars, ScanReads('2')[1]) == Attr(vars', ScanReads('2')[1]);
    assert Attr(vars, ScanReads('2')[2]) == Attr(vars', ScanReads('2')[2]);
    assert Attr(vars, ScanReads('2')[3]) == Attr(vars', ScanReads('2')[3]);
    assert Attr(vars, ScanReads('2')[4]) == Attr(vars', ScanReads('2')[4]);
    assert Attr(vars, ScanReads('2')[5]) == Attr(vars', ScanReads('2')[5]);
    assert Attr(vars, ScanReads('2')[6]) == Attr(vars', ScanReads('2')[6]);
  }

  /** The arguments of step 3 change only with the attributes `ScanReads` lists for it. */
  lemma BlastReadsOnly(vars: Vars, vars': Vars)
    requires forall i :: 0 <= i < |ScanReads('3')| ==> Attr(vars, ScanReads('3')[i]) == Attr(vars', ScanReads('3')[i])
    ensures BlastArgs(vars) == BlastArgs(vars')
  {
    assert Attr(vars, ScanReads('3')[0]) == Attr(vars', ScanReads('3')[0]);
    assert Attr(vars, ScanReads('3')[1]) == Attr(vars', ScanReads('3')[1]);
    assert Attr(vars, ScanReads('3')[2]) == Attr(vars', ScanReads('3')[2]);
    assert Attr(vars, ScanReads('3')[3]) == Attr(vars', ScanReads('3')[3]);
    assert Attr(vars, ScanReads('3')[4]) == Attr(vars', ScanReads('3')[4]);
    assert Attr(vars, ScanReads('3')[5]) == Attr(vars', ScanReads('3')[5]);
    assert Attr(vars, ScanReads('3')[6]) == Attr(vars', ScanReads('3')[6]);
    assert Attr(vars, ScanReads('3')[7]) == Attr(vars', ScanReads('3')[7]);
    assert Attr(vars, ScanReads('3')[8]) == Attr(vars', ScanReads('3')[8]);
    assert Attr(vars, ScanReads('3')[9]) == Attr(vars', ScanReads('3')[9]);
    assert Attr(vars, ScanReads('3')[10]) == Attr(vars', ScanReads('3')[10]);
    assert Attr(vars, ScanReads('3')[11]) == Attr(vars', ScanReads('3')[11]);
  }

  /** The arguments of step 4 change only with the attributes `ScanReads` lists for it. */
  lemma OrfReadsOnly(vars: Vars, vars': Vars)
    requires forall i :: 0 <= i < |ScanReads('4')| ==> Attr(vars, ScanReads('4')[i]) == Attr(vars', ScanReads('4')[i])
    ensures OrfArgs(vars) == OrfArgs(vars')
  {
    assert Attr(vars, ScanReads('4')[0]) == Attr(vars', ScanReads('4')[0]);
    assert Attr(vars, ScanReads('4')[1]) == Attr(vars', ScanReads('4')[1]);
    assert Attr(vars, ScanReads('4')[2]) == Attr(vars', ScanReads('4')[2]);
    assert Attr(vars, ScanReads('4')[3]) == Attr(vars', ScanReads('4')[3]);
    assert Attr(vars, ScanReads('4')[4]) == Attr(vars', ScanReads('4')[4]);
    assert Attr(vars, ScanReads('4')[5]) == Attr(vars', ScanReads('4')[5]);
    assert Attr(vars, ScanReads('4')[6]) == Attr(vars', ScanReads('4')[6]);
  }

  /** The arguments of steps 5 and 6 change only with the attributes `ScanReads` lists for it. */
  lemma ReportReadsOnly(vars: Vars, vars': Vars)
    requires forall i :: 0 <= i < |ScanReads('5')| ==> Attr(vars, ScanReads('5')[i]) == Attr(vars', ScanReads('5')[i])
    ensures ReportArgs(vars) == ReportArgs(vars')
  {
    assert Attr(vars, ScanReads('5')[0]) == Attr(vars', ScanReads('5')[0]);
    assert Attr(vars, ScanReads('5')[1]) == Attr(vars', ScanReads('5')[1]);
    assert Attr(vars, ScanReads('5')[2]) == Attr(vars', ScanReads('5')[2]);
    assert Attr(vars, ScanReads('5')[3]) == Attr(vars', ScanReads('5')[3]);
    assert Attr(vars, ScanReads('5')[4]) == Attr(vars', ScanReads('5')[4]);
    assert Attr(vars, ScanReads('5')[5]) == Attr(vars', ScanReads('5')[5]);
  }

  /** The arguments of step 7 change only with the attributes `ScanReads` lists for it. */
  lemma UnassembledReadsOnly(vars: Vars, vars': Vars)
    requires forall i :: 0 <= i < |ScanReads('7')| ==> Attr(vars, ScanReads('7')[i]) == Attr(vars', ScanReads('7')[i])
    ensures UnassembledArgs(vars) == UnassembledArgs(vars')
  {
    assert Attr(vars, ScanReads('7')[0]) == Attr(vars', ScanReads('7')[0]);
    assert Attr(vars, ScanReads('7')[1]) == Attr(vars', ScanReads('7')[1]);
    assert Attr(vars, ScanReads('7')[2]) == Attr(vars', ScanReads('7')[2]);
    assert Attr(vars, ScanReads('7')[3]) == Attr(vars', ScanReads('7')[3]);
  }

  /**
    Two namespaces that agree on the attributes a scan step reads give that
    step the same arguments: no other option reaches its command line.
   */
  lemma ScanArgumentsReadsOnly(vars: Vars, vars': Vars, code: char)
    requires code in ScanCodes
    requires forall i :: 0 <= i < |ScanReads(code)| ==> Attr(vars, ScanReads(code)[i]) == Attr(vars', ScanReads(code)[i])
    ensures ScanArguments(vars, code) == ScanArguments(vars', code)
  {
    match code
    case '1' => HostSeparationReadsOnly(vars, vars');
    case '2' => AssemblyReadsOnly(vars, vars');
    case '3' => BlastReadsOnly(vars, vars');
    case '4' => OrfReadsOnly(vars, vars');
    case '5' => ReportReadsOnly(vars, vars');
    case '6' =>
      assert ScanReads('6') == ScanReads('5');
      ReportReadsOnly(vars, vars');
    case _ => UnassembledReadsOnly(vars, vars');
  }

  /** What follows the program on the command line of aggregate step `code`. */
  function AggregateArguments(vars: Vars, code: char): string {
    if code == '1' then
      Opt("--scripts", Attr(vars, "scripts")) + Opt("--samples", Attr(vars, "samples")) +
      Opt("--taxid2names", Attr(vars, "taxid2names")) + Opt("--taxid2nodes", Attr(vars, "taxid2nodes")) +
      Opt("--batchdir", Attr(vars, "batchdir")) +
      Opt("--suffixreport", Attr(vars, "suffixreport")) + Opt("--suffixstats", Attr(vars, "suffixstats")) +
      Opt("--accblacklist", Attr(vars, "accblacklist"))
    else
      Opt("--scripts", Attr(vars, "scripts")) + Opt("--samples", Attr(vars, "samples")) + " "
  }

  /** `d` of the aggregate sub-command. */
  function AggregatePayloads(vars: Vars): map<char, string> {
    map c | c in AggregateCodes ::
      Program(vars, if c == '1' then "aggregate_preprocess.py" else "aggregate_report.py") +
      AggregateArguments(vars, c)
  }

  /** The attributes the command line of aggregate step `code` writes. */
  function AggregateReads(code: char): seq<string> {
    if code == '1' then
      ["scripts", "samples", "taxid2names", "taxid2nodes", "batchdir", "suffixreport", "suffixstats", "accblacklist"]
    else ["scripts", "samples"]
  }

  /** An aggregate step's command line depends on the attributes `AggregateReads` lists and on no other. */
  lemma AggregatePayloadReadsOnly(vars: Vars, vars': Vars, code: char)
    requires code in AggregateCodes
    requires forall i :: 0 <= i < |AggregateReads(code)| ==> Attr(vars, AggregateReads(code)[i]) == Attr(vars', AggregateReads(code)[i])
    ensures AggregatePayloads(vars)[code] == AggregatePayloads(vars')[code]
  {
    if code == '1' {
      assert Attr(vars, AggregateReads('1')[0]) == Attr(vars', AggregateReads('1')[0]);
      assert Attr(vars, AggregateReads('1')[1]) == Attr(vars', AggregateReads('1')[1]);
      assert Attr(vars, AggregateReads('1')[2]) == Attr(vars', AggregateReads('1')[2]);
      assert Attr(vars, AggregateReads('1')[3]) == Attr(vars', AggregateReads('1')[3]);
      assert Attr(vars, AggregateReads('1')[4]) == Attr(vars', AggregateReads('1')[4]);
      assert Attr(vars, AggregateReads('1')[5]) == Attr(vars', AggregateReads('1')[5]);
      assert Attr(vars, AggregateReads('1')[6]) == Attr(vars', AggregateReads('1')[6]);
      assert Attr(vars, AggregateReads('1')[7]) == Attr(vars', AggregateReads('1')[7]);
    } else {
      assert Attr(vars, AggregateReads('2')[0]) == Attr(vars', AggregateReads('2')[0]);
      assert Attr(vars, AggregateReads('2')[1]) == Attr(vars', AggregateReads('2')[1]);
    }
  }

  predicate StartsWith(s: string, prefix: string) {
    |prefix| <= |s| && s[..|prefix|] == prefix
  }

  /** The `n` characters of `s` from position `k`. */
  function Slice(s: string, k: nat, n: nat): string
    requires k + n <= |s|
  {
    s[k..k + n]
  }

  /** `s` holds `part` at some position. */
  predicate Contains(s: string, part: string) {
    exists k: nat :: k + |part| <= |s| && Slice(s, k, |part|) == part
  }

  lemma ContainsSelf(s: string)
    ensures Contains(s, s)
  {
    assert Slice(s, 0, |s|) == s;
  }

  lemma ContainsPrefix(u: string, s: string, part: string)
    requires Contains(s, part)
    ensures Contains(u + s, part)
  {
    var k: nat :| k + |part| <= |s| && Slice(s, k, |part|) == part;
    assert Slice(u + s, |u| + k, |part|) == Slice(s, k, |part|);
  }

  lemma ContainsSuffix(s: string, u: string, part: string)
    requires Contains(s, part)
    ensures Contains(s + u, part)
  {
    var k: nat :| k + |part| <= |s| && Slice(s, k, |part|) == part;
    assert Slice(s + u, k, |part|) == Slice(s, k, |part|);
  }

  /** A piece written third among twelve is found in their concatenation. */
  lemma ThirdOfTwelve(a1: string, a2: string, a3: string, a4: string, a5: string, a6: string,
                      a7: string, a8: string, a9: string, a10: string, a11: string, a12: string)
    ensures Contains(a1 + a2 + a3 + a4 + a5 + a6 + a7 + a8 + a9 + a10 + a11 + a12, a3)
  {
    ContainsSelf(a3);
    ContainsPrefix(a1 + a2, a3, a3);
    var acc := a1 + a2 + a3;
    ContainsSuffix(acc, a4, a3);
    ContainsSuffix(acc + a4, a5, a3);
    ContainsSuffix(acc + a4 + a5, a6, a3);
    ContainsSuffix(acc + a4 + a5 + a6, a7, a3);
    ContainsSuffix(acc + a4 + a5 + a6 + a7, a8, a3);
    ContainsSuffix(acc + a4 + a5 + a6 + a7 + a8, a9, a3);
    ContainsSuffix(acc + a4 + a5 + a6 + a7 + a8 + a9, a10, a3);
    ContainsSuffix(acc + a4 + a5 + a6 + a7 + a8 + a9 + a10, a11, a3);
    ContainsSuffix(acc + a4 + a5 + a6 + a7 + a8 + a9 + a10 + a11, a12, a3);
  }

  /** A piece written fourth among ten is found in their concatenation. */
  lemma FourthOfTen(a1: string, a2: string, a3: string, a4: string, a5: string, a6: string,
                    a7: string, a8: string, a9: string, a10: string)
    ensures Contains(a1 + a2 + a3 + a4 + a5 + a6 + a7 + a8 + a9 + a10, a4)
  {
    ContainsSelf(a4);
    ContainsPrefix(a1 + a2 + a3, a4, a4);
    var acc := a1 + a2 + a3 + a4;
    ContainsSuffix(acc, a5, a4);
    ContainsSuffix(acc + a5, a6, a4);
    ContainsSuffix(acc + a5 + a6, a7, a4);
    ContainsSuffix(acc + a5 + a6 + a7, a8, a4);
    ContainsSuffix(acc + a5 + a6 + a7 + a8, a9, a4);
    ContainsSuffix(acc + a5 + a6 + a7 + a8 + a9, a10, a4);
  }

  /** The payload of scan step `code` is its program followed by its arguments. */
  lemma ScanPayloadOf(vars: Vars, code: char)
    requires code in ScanCodes
    ensures ScanPayloads(vars)[code] == Program(vars, ScanScript(code)) + ScanArguments(vars, code)
  {
  }

  /** The `--db` option of step 3's arguments carries --blastdb. */
  lemma BlastArgsHoldDatabase(vars: Vars)
    ensures Contains(BlastArgs(vars), Opt("--db", Attr(vars, "blastdb")))
  {
    ThirdOfTwelve(Opt("--scripts", Attr(vars, "scripts")), Opt("--threshold", Attr(vars, "contigthreshold")),
                  Opt("--db", Attr(vars, "blastdb")), Opt("--threads", Attr(vars, "blast_threads")),
                  Opt("--id", Attr(vars, "identifier")), Opt("--filelength", Attr(vars, "blastchunk")),
                  Opt("--verbose", Attr(vars, "verbose")), Opt("--noclean", Attr(vars, "noclean")),
                  Opt("--nosge", Attr(vars, "noSGE")), Opt("--hpc", Attr(vars, "hpc")),
                  Opt("--btime", Attr(vars, "btime")), Opt("--bmem", Attr(vars, "bmem")));
  }

  /** The database given with --blastdb reaches step 3 verbatim, as the value of its `--db` option. */
  lemma BlastStepNamesDatabase(vars: Vars)
    ensures Contains(ScanPayloads(vars)['3'], Opt("--db", Attr(vars, "blastdb")))
  {
    BlastArgsHoldDatabase(vars);
    ScanPayloadOf(vars, '3');
    assert ScanArguments(vars, '3') == BlastArgs(vars);
    ContainsPrefix(Program(vars, ScanScript('3')), BlastArgs(vars), Opt("--db", Attr(vars, "blastdb")));
  }

  /** The fourth argument of step 7's script is --blastdb. */
  lemma UnassembledArgsHoldDatabase(vars: Vars)
    ensures Contains(UnassembledArgs(vars), Show(Attr(vars, "blastdb")))
  {
    FourthOfTen(" assembly/reads2contigs.bam blast_unassembled_reads ", Show(Attr(vars, "scripts")), " ",
                Show(Attr(vars, "blastdb")), " ", Show(Attr(vars, "blacklist")), " ",
                Show(Attr(vars, "taxid2names")), " ", Show(Attr(vars, "scripts")) + "/resources/blast.header");
    assert UnassembledArgs(vars) ==
      " assembly/reads2contigs.bam blast_unassembled_reads " + Show(Attr(vars, "scripts")) + " " +
      Show(Attr(vars, "blastdb")) + " " + Show(Attr(vars, "blacklist")) + " " +
      Show(Attr(vars, "taxid2names")) + " " + (Show(Attr(vars, "scripts")) + "/resources/blast.header");
  }

  /** The database given with --blastdb reaches step 7 verbatim, as an argument of its script. */
  lemma UnassembledStepNamesDatabase(vars: Vars)
    ensures Contains(ScanPayloads(vars)['7'], Show(Attr(vars, "blastdb")))
  {
    UnassembledArgsHoldDatabase(vars);
    ScanPayloadOf(vars, '7');
    assert ScanArguments(vars, '7') == UnassembledArgs(vars);
    ContainsPrefix(Program(vars, ScanScript('7')), UnassembledArgs(vars), Show(Attr(vars, "blastdb")));
  }

  lemma ProgramComesFirst(vars: Vars, name: string, rest: string)
    ensures StartsWith(Program(vars, name) + rest, Show(Attr(vars, "scripts")) + "/scripts/")
  {
    var root := Show(Attr(vars, "scripts")) + "/scripts/";
    assert Program(vars, name) + rest == root + (name + rest);
  }

  /** Every scan step runs a program from the `scripts` directory, and `d` covers the steps `q` does. */
  lemma ScanPayloadsRunPipelineScripts(vars: Vars)
    ensures ScanPayloads(vars).Keys == ScanCodes
    ensures forall c :: c in ScanCodes ==>
      StartsWith(ScanPayloads(vars)[c], Show(Attr(vars, "scripts")) + "/scripts/")
  {
    assert forall c :: c in ScanPayloads(vars) <==> c in ScanCodes;
    forall c | c in ScanCodes
      ensures StartsWith(ScanPayloads(vars)[c], Show(Attr(vars, "scripts")) + "/scripts/")
    {
      ProgramComesFirst(vars, ScanScript(c), ScanArguments(vars, c));
    }
  }

  /** Every aggregate step runs a program from the `scripts` directory, and `d` covers the steps `q` does. */
  lemma AggregatePayloadsRunPipelineScripts(vars: Vars)
    ensures AggregatePayloads(vars).Keys == AggregateCodes
    ensures forall c :: c in AggregateCodes ==>
      StartsWith(AggregatePayloads(vars)[c], Show(Attr(vars, "scripts")) + "/scripts/")
  {
    forall c | c in AggregateCodes
      ensures StartsWith(AggregatePayloads(vars)[c], Show(Attr(vars, "scripts")) + "/scripts/")
    {
      ProgramComesFirst(vars, if c == '1' then "aggregate_preprocess.py" else "aggregate_report.py",
                        AggregateArguments(vars, c));
    }
  }
}
