/**
  The checks that stop a run before any step is started: the per-step
  required arguments of the scan sub-command, and the input-file checks
  (existence, gzip flag against the ".gz" suffix, ".bam" extension).
 */
module Validator {
  import opened Wrappers
  import opened PyValues
  import opened ConfigResolver

  /** Truthiness of an attribute; one the namespace lacks reads as unset. */
  predicate Set(vars: Vars, key: string) {
    key in vars && Truthy(vars[key])
  }

  /** The fatal errors of the required-argument checks, in the order they are tried. */
  datatype ArgError =
    | MissingReads          // step 1 without usable read input
    | MissingHostReferences // step 1 from fastq without both host references
    | MissingBlastDb        // step 3 without a nucleotide database
    | MissingProteinDb      // step 4 blasting ORFs without a protein database

  /** The step whose requirement an error reports. */
  function ErrorStep(e: ArgError): char {
    match e
    case MissingReads => '1'
    case MissingHostReferences => '1'
    case MissingBlastDb => '3'
    case MissingProteinDb => '4'
  }

  /**
    The required-argument checks of the scan sub-command, first failure wins.
    On success the value says whether the protein-database warning is printed.
   */
  function CheckScanArgs(vars: Vars, steps: string): Result<bool, ArgError> {
    if '1' in steps && !((Set(vars, "mate1") && Set(vars, "mate2")) || Set(vars, "bam") ||
                         (Set(vars, "single") && (Set(vars, "mate1") || Set(vars, "bam")))) then
      Failure(MissingReads)
    else if '1' in steps && !Set(vars, "bam") && (!Set(vars, "refstar") || !Set(vars, "refbowtie")) then
      Failure(MissingHostReferences)
    else if '3' in steps && !Set(vars, "blastdb") then
      Failure(MissingBlastDb)
    else if '4' in steps && Set(vars, "orfblast") && !Set(vars, "pblastdb") then
      Failure(MissingProteinDb)
    else
      Success('4' in steps && !Set(vars, "orfblast") && Set(vars, "pblastdb"))
  }

  /** Reads for step 1: both mates, an alignment file, or one single-end mate. */
  predicate HasReads(vars: Vars) {
    (Set(vars, "mate1") && Set(vars, "mate2")) || Set(vars, "bam") || (Set(vars, "single") && Set(vars, "mate1"))
  }

  /** What step `code` needs before it can run, step by step. */
  predicate StepReady(vars: Vars, code: char) {
    match code
    case '1' => HasReads(vars) && (Set(vars, "bam") || (Set(vars, "refstar") && Set(vars, "refbowtie")))
    case '3' => Set(vars, "blastdb")
    case '4' => Set(vars, "orfblast") ==> Set(vars, "pblastdb")
    case _ => true
  }

  /**
    The checks pass exactly when every selected step has what it needs; a
    failure names a selected step that does not, and the warning is printed
    exactly when step 4 has a protein database but will not use it.
   */
  lemma CheckScanArgsSpec(vars: Vars, steps: string)
    ensures CheckScanArgs(vars, steps).Success? <==> forall i :: 0 <= i < |steps| ==> StepReady(vars, steps[i])
    ensures CheckScanArgs(vars, steps).Failure? ==>
      var e := CheckScanArgs(vars, steps).error;
      ErrorStep(e) in steps && !StepReady(vars, ErrorStep(e))
    ensures CheckScanArgs(vars, steps).Success? ==>
      (CheckScanArgs(vars, steps).value <==> '4' in steps && !Set(vars, "orfblast") && Set(vars, "pblastdb"))
  {
    if CheckScanArgs(vars, steps).Success? {
      forall i | 0 <= i < |steps| ensures StepReady(vars, steps[i]) {
        assert steps[i] in steps;
      }
    } else {
      var e := CheckScanArgs(vars, steps).error;
      match e
      case MissingReads => assert !HasReads(vars);
      case MissingHostReferences => assert !StepReady(vars, '1');
      case MissingBlastDb => assert !StepReady(vars, '3');
      case MissingProteinDb => assert !StepReady(vars, '4');
    }
  }

  /** A missing protein database without ORF blasting only warns: it never stops the run. */
  lemma UnusedProteinDbOnlyWarns(vars: Vars, steps: string)
    requires !Set(vars, "orfblast") && Set(vars, "pblastdb") && '4' in steps
    requires forall i :: 0 <= i < |steps| && steps[i] != '4' ==> StepReady(vars, steps[i])
    ensures CheckScanArgs(vars, steps) == Success(true)
  {
    CheckScanArgsSpec(vars, steps);
  }

  // ---------------------------------------------------------------------
  // Input-file checks

  datatype FileError =
    | MissingPath(path: string)  // an input named on the command line does not exist
    | GzipWithoutSuffix          // --gzip, but a mate lacks the .gz extension
    | SuffixWithoutGzip          // a mate has the .gz extension, but no --gzip
    | GzipMismatch               // single-end: --gzip and the mate's extension disagree
    | NotBam(path: string)       // the --bam input lacks the .bam extension

  /** The first truthy path the file system does not hold. */
  function FirstMissing(paths: seq<PyVal>, onDisk: string -> bool): (r: Option<string>)
    ensures r.Some? ==> !onDisk(r.value)
    ensures r.Some? ==>
      exists i :: 0 <= i < |paths| && Truthy(paths[i]) && Show(paths[i]) == r.value &&
        (forall j :: 0 <= j < i && Truthy(paths[j]) ==> onDisk(Show(paths[j])))
    ensures r.None? <==> forall i :: 0 <= i < |paths| && Truthy(paths[i]) ==> onDisk(Show(paths[i]))
  {
    if paths == [] then None
    else if Truthy(paths[0]) && !onDisk(Show(paths[0])) then Some(Show(paths[0]))
    else
      var r := FirstMissing(paths[1..], onDisk);
      assert forall i :: 0 < i < |paths| ==> paths[i] == paths[1..][i - 1];
      r
  }

  predicate Gz(vars: Vars, key: string) {
    key in vars && EndsWith(Text(vars[key]), ".gz")
  }

  /** The compression check over the read inputs. */
  function CheckGzip(vars: Vars): Outcome<FileError> {
    if Set(vars, "mate1") && Set(vars, "mate2") then
      if Set(vars, "gzip") && !(Gz(vars, "mate1") && Gz(vars, "mate2")) then Fail(GzipWithoutSuffix)
      else if (Gz(vars, "mate1") || Gz(vars, "mate2")) && !Set(vars, "gzip") then Fail(SuffixWithoutGzip)
      else Pass
    else if Set(vars, "mate1") && Set(vars, "single") then
      if (Set(vars, "gzip") && !Gz(vars, "mate1")) || (Gz(vars, "mate1") && !Set(vars, "gzip")) then Fail(GzipMismatch)
      else Pass
    else Pass
  }

  /**
    Paired input passes exactly when --gzip implies two ".gz" mates and a
    ".gz" mate implies --gzip; single-end input passes exactly when --gzip
    and the mate's ".gz" extension agree; with no mate 1 nothing is checked.
   */
  lemma GzipConsistency(vars: Vars)
    ensures Set(vars, "mate1") && Set(vars, "mate2") ==>
      (CheckGzip(vars).Pass? <==>
        (Set(vars, "gzip") ==> Gz(vars, "mate1") && Gz(vars, "mate2")) &&
        (Gz(vars, "mate1") || Gz(vars, "mate2") ==> Set(vars, "gzip")))
    ensures Set(vars, "mate1") && !Set(vars, "mate2") && Set(vars, "single") ==>
      (CheckGzip(vars).Pass? <==> (Set(vars, "gzip") <==> Gz(vars, "mate1")))
    ensures !Set(vars, "mate1") ==> CheckGzip(vars).Pass?
    ensures !Set(vars, "mate1") || (!Set(vars, "mate2") && !Set(vars, "single")) ==> CheckGzip(vars).Pass?
  {
  }

  /** The extension check on an alignment input. */
  function CheckBam(vars: Vars): (r: Outcome<FileError>)
    ensures r.Pass? <==> !Set(vars, "bam") || EndsWith(Text(vars["bam"]), ".bam")
    ensures r.Fail? ==> r.error == NotBam(Text(vars["bam"]))
  {
    if Set(vars, "bam") && !EndsWith(Text(vars["bam"]), ".bam") then Fail(NotBam(Text(vars["bam"]))) else Pass
  }

  function Attr(vars: Vars, key: string): PyVal {
    if key in vars then vars[key] else PyNone
  }

  /** The inputs whose existence is checked, in the order they are checked. */
  const InputKeys := ["mate1", "mate2", "bam", "blacklist"]

  function InputPaths(vars: Vars): (paths: seq<PyVal>)
    ensures |paths| == |InputKeys| && forall i :: 0 <= i < |paths| ==> paths[i] == Attr(vars, InputKeys[i])
  {
    [Attr(vars, "mate1"), Attr(vars, "mate2"), Attr(vars, "bam"), Attr(vars, "blacklist")]
  }

  /** No input path is reported missing exactly when every input that is set exists. */
  lemma NoInputMissing(vars: Vars, onDisk: string -> bool)
    ensures FirstMissing(InputPaths(vars), onDisk).None? <==>
      forall key :: key in InputKeys && Set(vars, key) ==> onDisk(Show(vars[key]))
  {
    var paths := InputPaths(vars);
    forall key | key in InputKeys
      ensures exists i :: 0 <= i < |paths| && InputKeys[i] == key
    {
      var i :| 0 <= i < |InputKeys| && InputKeys[i] == key;
    }
  }

  /**
    The input-file checks in the order they are made: existence of the mates,
    the alignment file and the blacklist, then compression, then extension.
    `onDisk` stands for the file-system test the path check makes.
   */
  function CheckError(vars: Vars, onDisk: string -> bool): (r: Outcome<FileError>)
    ensures r.Pass? <==>
      (forall key :: key in InputKeys && Set(vars, key) ==> onDisk(Show(vars[key]))) &&
      CheckGzip(vars).Pass? && CheckBam(vars).Pass?
    ensures r.Fail? && r.error.MissingPath? ==> !onDisk(r.error.path)
  {
    var paths := InputPaths(vars);
    NoInputMissing(vars, onDisk);
    match FirstMissing(paths, onDisk)
    case Some(path) => Fail(MissingPath(path))
    case None =>
      match CheckGzip(vars)
      case Fail(e) => Fail(e)
      case Pass => CheckBam(vars)
  }
}
