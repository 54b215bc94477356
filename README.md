# Pandora driver: step selection and job chaining

This project models the driver of the Pandora pathogen-discovery pipeline
(`pandora.py`). It covers how the driver turns a parsed command line and an
optional config file into a sequence of commands, and how it issues them one
after another. The commands run either in the shell or as Sun Grid Engine
submissions, each held on the job before it.

The model follows the driver's own stages.

- **`ConfigResolver`** (`config.dfy`) covers the config-file merge of both
  sub-commands. An option is filled from its section only when its
  command-line value is falsy and the section holds it.
  - It also reads the per-step `qparam` overrides from sections `Step1` to `Step5`.
  - It covers the expansion of `steps`: a selected report step `5` appends the
    second report `6`.
  - It covers the cast of the six boolean options to `int`.
- **`Validator`** (`validate.dfy`) covers the per-step required-argument checks
  of the scan sub-command and the input-file checks of `check_error`. The
  file checks are existence, the `--gzip` flag against the `.gz` suffix, and
  the `.bam` extension.
- **`CommandBuilder`** (`commands.dfy`) covers the three tables each
  sub-command builds:
  - `q`: submission prefixes;
  - `clusterparams`: resource requests under the hpc profile;
  - `d`: payload command lines.
- **`JobChain`** (`chain.dfy`) covers `docmd` and `run_steps`.
  - `ChainFrom` and `Chain` are the reference definition of a run. A run is the
    list of issued commands (step, hold, job id, text) and how it ended.
  - `RunSteps` is the loop, proved equal to that definition.
  - The scheduler's and the shell's replies are an oracle `answer`, indexed by
    command number.
- **`Pandora`** (`pandora.dfy`) covers the rest of the driver.
  - The parsed-argument namespace is a class whose fields the argument
    resolution updates in place.
  - The two sub-commands build their tables and call `RunSteps`.
  - `Driver` and `Issued` state the whole path from arguments to issued commands.

Python values are modelled in `PyValues` (`pyvalues.dfy`):
- truthiness;
- what `str.format` writes for a value;
- the slice test `s[-3:] == '.gz'`;
- `int()` and `str()` on integers.

## Model

| member | source | states |
|---|---|---|
| PyValues.LastCharsIsSuffixTest | pandora.py:217-230 | The slice comparison `s[-n:] == suffix` holds exactly when `s` ends with `suffix`, for strings shorter than the suffix as well. |
| PyValues.ParseIntOfIntToString | pandora.py:347-352 | `ParseInt` (`int()` of a string) inverts `str()`: `int(str(i)) == i` for every integer, so the memory size written into a request reads back as the number computed. |
| PyValues.ShowReadsBack | pandora.py:347-352 | `IntOf` (`int()`) of what `Show` (`str.format`) writes is `int(v)` for an integer or a string; a boolean or `None` is written as a word `int()` rejects. |
| PyValues.NumeralHasOnlyDigitsAndMinus | pandora.py:351-352 | A decimal numeral holds only digits and a minus sign, so the unit `G` after it marks where it ends. |
| PyValues.SpaceAfterSignAccepted | pandora.py:347-348 | `ParseInt` (`int()` of a thread count) reads whitespace, `-`, more whitespace, `str(n)` and trailing whitespace as `-n`: whitespace between the sign and the digits is accepted. |
| ConfigResolver.MergeSpec | pandora.py:137-148 | `Merge`: a merge keeps every attribute and adds none. An attribute changes only when a rule names it, its value was falsy and its section holds the option; it then takes the file's string. Rules are applied to the values captured before the loop. |
| ConfigResolver.FillSpec | pandora.py:140-148 | The loop over the rule list, from any intermediate state, gives each option the value its own rule prescribes. |
| ConfigResolver.TruthyValueWins | pandora.py:147 | A truthy command-line value is never replaced by the config file. |
| ConfigResolver.FilledOnlyFromSection | pandora.py:147-148 | Both directions: an option changes exactly when its value is falsy and its section holds it, and then it holds the section's string. |
| ConfigResolver.MergeIdempotent | pandora.py:137-148 | Merging the same file a second time changes nothing. |
| ConfigResolver.RuleTablesDistinct | pandora.py:140-146 | No option appears twice in either sub-command's rule list. |
| ConfigResolver.ReadQparamsSpec | pandora.py:151-153 | `ReadQparams`: after reading, a step has an override exactly when it had one before or its `Step<code>` section has `qparam`. A section's value wins over the earlier override. |
| ConfigResolver.OverridesOnlyForScanSteps | pandora.py:124-153 | Starting from no overrides, only steps 1 to 5 can receive one, each being its section's `qparam`. Steps 6 and 7 never do. |
| ConfigResolver.ExpandSteps | pandora.py:171-173 | If `5` is selected, the result is the selection followed by one `6`; otherwise the selection is unchanged. Stated as length, prefix, multiset and membership. |
| ConfigResolver.ExpandStepsNotIdempotent | pandora.py:172-173 | The `6` is appended even when already present: expanding twice appends `66`. |
| ConfigResolver.CastFlagsSpec | pandora.py:176-177 | `CastFlags`: after the cast every named flag holds its cast value, the namespace gains exactly the missing names, and every other attribute is unchanged. |
| ConfigResolver.FlagsAreNotMergeOptions | pandora.py:140-146 | None of the six cast flags is an option the config file can fill. |
| ConfigResolver.CastFlagKeepsTruth | pandora.py:177 | The cast keeps a flag's truth value. |
| ConfigResolver.CastFlagsRenderAsBits | pandora.py:176-177 | After the cast a boolean flag is written into commands as `1` or `0`, according to its truth value. |
| ConfigResolver.RuleFor | pandora.py:140-146 | The section found is the one the first rule naming the option pairs with it; None means no rule names it. |
| Validator.CheckScanArgsSpec | pandora.py:155-169 | `CheckScanArgs`: the scan checks pass exactly when every selected step has what it needs. A failure names a selected step that lacks it. The warning is printed exactly when step 4 has a protein database it will not use. |
| Validator.UnusedProteinDbOnlyWarns | pandora.py:165-169 | `--pblastdb` without `--orfblast` never stops the run. |
| Validator.FirstMissing | pandora.py:211-213 | The path reported is a truthy input that is not on disk, and every truthy input before it is on disk; no report means every truthy input is on disk. |
| Validator.NoInputMissing | pandora.py:211-213 | Over `mate1`, `mate2`, `bam` and `blacklist` in that order, no path is reported missing exactly when every one of them that is set exists. |
| Validator.GzipConsistency | pandora.py:216-226 | `CheckGzip`: paired input passes iff `--gzip` implies both mates end in `.gz` and a `.gz` mate implies `--gzip`. Single-end input passes iff `--gzip` and the mate's `.gz` agree. Nothing is checked without a first mate. |
| Validator.CheckBam | pandora.py:229-232 | An alignment input passes exactly when absent or ending in `.bam`; otherwise the error carries that path. |
| Validator.CheckError | pandora.py:204-232 | The file checks pass exactly when every given input exists, the compression check passes and the extension check passes. A missing-path error names a path not on disk. |
| CommandBuilder.SubmissionsShareLogs | pandora.py:332-340 | `ScanQ` has exactly the steps 1-7 and `AggregateQ` exactly 1-2, and every prefix ends with the shared `-V -cwd -o log.out -e log.err`. |
| CommandBuilder.JobNameReadsBack | pandora.py:333-339 | `JobName` reads back what stands between `-S <shell> -N ` and the log flags of a prefix; for a prefix built from a stage and an identifier it gives `<stage>_<identifier>`. |
| CommandBuilder.ScanJobNamesCarryIdentifier | pandora.py:332-340 | `ScanQ` (`q` of `scan_main`): the job name read back from every step's prefix is that step's stage (`hsep`, `asm`, `blst`, `orf`, `rep`, `rep2`, `blst_unass`), `_`, and the formatted identifier. |
| CommandBuilder.AggregateJobNamesCarryIdentifier | pandora.py:379-382 | `AggregateQ` (`q` of `agg_main`): the job names read back are `agg_preproc_<identifier>` and `agg_report_<identifier>`. |
| CommandBuilder.ScanJobNamesDistinct | pandora.py:333-339 | Two different steps of `ScanQ` carry different `-N` job names, read back with `JobName`, for one sample. |
| CommandBuilder.MemoryRequestReadsBack | pandora.py:347-352 | A fragment that writes `str(n)` after ` -l mem=` and before `G` asks for exactly n gigabytes: `MemoryRequest` reads the number up to the first `G` and parses it with `int()`, and gets n back. |
| CommandBuilder.FixedFragmentsIgnoreCounts | pandora.py:353-357 | The request of every step other than 1 and 2 is the same whatever the options and thread counts. |
| CommandBuilder.ScanMemoryRequests | pandora.py:347-358 | `ScanClusterParams` (`clusterparams` of `scan_main`) exists exactly when both counts are integers. It then covers steps 1-7, with memory `16 * map_threads` for step 1, `12 * trinitycores` for step 2, and the step's constant elsewhere. |
| CommandBuilder.AggregateMemoryRequests | pandora.py:385-388 | `AggregateClusterParams` covers steps 1-2, and both ask for 4 gigabytes. |
| CommandBuilder.ScanPayloadsRunPipelineScripts | pandora.py:361-369 | `ScanPayloads` (`d` of `scan_main`) covers steps 1-7, and every payload starts with `<scripts>/scripts/`. |
| CommandBuilder.BlastStepNamesDatabase | pandora.py:364 | The step 3 payload of `ScanPayloads` contains ` --db <blastdb>`: the database given with `--blastdb` reaches the command line verbatim. |
| CommandBuilder.UnassembledStepNamesDatabase | pandora.py:368 | The step 7 payload of `ScanPayloads` contains the `--blastdb` value verbatim, as an argument of its script. |
| CommandBuilder.ScanArgumentsReadsOnly | pandora.py:361-369 | `ScanArguments`, the part of a scan payload after its program: two namespaces that agree on the attributes `ScanReads` lists for a step give that step the same arguments, so no other option reaches its command line. |
| CommandBuilder.HostSeparationReadsOnly | pandora.py:362 | The step 1 arguments depend only on `scripts`, the mates, `bam`, `map_threads`, `single`, both references, `gzip`, `verbose`, `noclean` and `gtf`. |
| CommandBuilder.AssemblyReadsOnly | pandora.py:363 | The step 2 arguments depend only on `scripts`, `single`, the three Trinity options, `verbose` and `noclean`. |
| CommandBuilder.BlastReadsOnly | pandora.py:364 | The step 3 arguments depend only on the twelve attributes they format, the identifier among them. |
| CommandBuilder.OrfReadsOnly | pandora.py:365 | The step 4 arguments depend only on `scripts`, the identifier, `orfthreshold`, `pblastdb`, `orfblast`, `verbose` and `noclean`. |
| CommandBuilder.ReportReadsOnly | pandora.py:366-367 | The arguments of both report steps depend only on `scripts`, the identifier, `verbose`, `blacklist`, `taxid2names` and `hpc`; step 6 adds only a fixed head. |
| CommandBuilder.UnassembledReadsOnly | pandora.py:368 | The step 7 arguments depend only on `scripts`, `blastdb`, `blacklist` and `taxid2names`. |
| CommandBuilder.AggregatePayloadsRunPipelineScripts | pandora.py:391-394 | `AggregatePayloads` (`d` of `agg_main`) covers steps 1-2, and every payload starts with `<scripts>/scripts/`. |
| CommandBuilder.AggregatePayloadReadsOnly | pandora.py:391-394 | An aggregate payload depends only on the attributes `AggregateReads` lists for its step. |
| JobChain.OverrideIgnoresHpc | pandora.py:309-310 | An override is used verbatim: the hpc profile adds nothing to it. |
| JobChain.HpcAppendsFragment | pandora.py:312-316 | Without an override the prefix is `q[i]`, with `clusterparams[i]` appended exactly when hpc is on. |
| JobChain.Prefix | pandora.py:309-316 | A step gets a submission prefix only when it also has a payload in `d`. |
| JobChain.HoldOn | pandora.py:281-282 | A hold is added exactly when the previous job id is not the sentinel `0`, and it names that id. |
| JobChain.SubmissionReadsBack | pandora.py:279-284 | `SubmitLine`: a submission starts with `qsub -S <python> <prefix> ` and ends with the payload. Between the two stands `-hold_jid <jid> ` when the previous job id is not `0`, and nothing when it is. |
| JobChain.ChainEntries | pandora.py:304-316 | In either backend, entry k of the run from step index i is the entry of step i+k after the job of the entry before it (the starting job for the first), with the reply to its own command. That step's lookup succeeded and its command completed. |
| JobChain.ChainInOrder | pandora.py:304-316 | Entry k of the run from step index i is step i+k: its prefix lookup succeeded and its command completed. Steps are issued in the order selected, each occurrence once. |
| JobChain.ChainLength | pandora.py:304-316 | The run from step index i issues at most the remaining steps, and completes exactly when it issues all of them. |
| JobChain.ChainStops | pandora.py:304-316 | An aborted run stops at the step right after the last one issued, and nothing after it is issued. The error names that step: as an unknown step exactly when its lookup failed, otherwise with the status its command failed with. |
| JobChain.ChainLinks | pandora.py:279-316 | Under the grid engine, entry k of the run carries the scheduler's reply to its own submission. It is held on the previous entry's job (the starting job for the first), and its text is the submission of its prefix and payload. |
| JobChain.HoldsOnImmediatePredecessor | pandora.py:279-316 | Under the grid engine, and provided the scheduler never replies with the job id `0`, the first submission is held on nothing and each later one on exactly the job of the one before. If job ids are also distinct, no submission is held on an earlier job. |
| JobChain.CompletedRunCoversSteps | pandora.py:307 | A run that completes has issued exactly the selected steps, in order, duplicates included. |
| JobChain.OverrideUsedVerbatim | pandora.py:309-310 | Under the grid engine, a step with an override is submitted with the override as its whole prefix. |
| JobChain.LocalRunNeverChains | pandora.py:272-316 | In the shell every command is the step's payload itself, is held on nothing, and leaves the job id `0`. |
| JobChain.DoCmd | pandora.py:263-289 | In the shell the command is the payload and the job id returned is `0`. Under the grid engine it is the submission of prefix and payload, held when the job id is not `0`, and returns the scheduler's reply. A failure returns its status. |
| JobChain.LookupPrefix | pandora.py:309-316 | The lookup made by the loop gives the prefix `Prefix` defines, or a KeyError. |
| JobChain.RunSteps | pandora.py:293-320 | The loop issues exactly the run `Chain` defines. |
| Pandora.Configure | pandora.py:137-200 | Without a config file the namespace is unchanged. The merge never touches the steps, and the aggregate resolution never touches the overrides. |
| Pandora.FlagsSurviveMerge | pandora.py:137-177 | The scan merge keeps every cast flag as it was, so the cast after it is well defined. |
| Pandora.AbsoluteBam | pandora.py:179-181 | Only `bam` changes, and only when it is set: it becomes the absolute form of its path. |
| Pandora.PrepareScan | pandora.py:130-181 | The checks see the namespace after the config file. When they pass the steps are expanded, and the overrides are those the config file gave. |
| Pandora.PrepareScanRejects | pandora.py:155-167 | When a required-argument check fails, `check_arg_scan` stops with that error and the namespace exactly as the config step left it. |
| Pandora.PrepareScanAccepts | pandora.py:171-181 | When the checks pass, the resolved namespace has the config step's attributes cast and made absolute, the expanded steps, and the config step's overrides. |
| Pandora.ScanRun | pandora.py:324-371 | `scan_main` never reports an argument error. Without `--noerror`, a failing `check_error` stops it before any table is built or command issued, with that error; it reaches its steps exactly when the file checks pass or are skipped and both thread counts are integers. It then runs the namespace's steps and overrides with the running interpreter. |
| Pandora.Driver | pandora.py:236-259 | The scan sub-command stops with an argument error exactly when its checks fail, and otherwise continues with the resolved namespace. |
| Pandora.Issued | pandora.py:371-396 | Commands are issued exactly when the driver reached its steps. |
| Pandora.ScanRejectedIffStepUnready | pandora.py:137-169 | Scan argument resolution fails exactly when a selected step lacks what it needs after the config file filled its options, and the error names such a step. |
| Pandora.NoErrorSkipsFileChecks | pandora.py:327-348 | With `--noerror` the file checks are skipped. Only a thread count that is not an integer can then stop the run. |
| Pandora.ScanRunsExpandedSteps | pandora.py:171-173 | A scan that reaches its steps runs the expanded selection. When all commands complete and `5` was selected, the last entry is the second report `6`. |
| Pandora.ConfigOverrideReachesSubmission | pandora.py:150-153 | Under the grid engine, a scan step 1-5 whose `Step<code>` section has `qparam` is submitted with exactly that string as its prefix. |
| Pandora.AggregateReadsNoOverrides | pandora.py:193-200 | The aggregate sub-command always reaches its steps, with the steps and overrides it started with: none for a fresh namespace. |
| Pandora.LocalRunsIssuePayloads | pandora.py:272-274 | In the shell, every command either sub-command issues is its step's payload, held on nothing, leaving job id `0`. |
| Pandora.Namespace.constructor | pandora.py:122-126 | A fresh namespace has the parsed attributes and steps and no overrides. |
| Pandora.Namespace.MergeConfig | pandora.py:137-148 | The in-place merge loop leaves the attributes `Merge` defines and nothing else changed. |
| Pandora.Namespace.ReadOverrides | pandora.py:150-153 | The in-place loop leaves the overrides `ReadQparams` defines. |
| Pandora.Namespace.CastToInt | pandora.py:175-177 | The in-place cast loop leaves the attributes `CastFlags` defines. |
| Pandora.Namespace.CheckArgScan | pandora.py:130-181 | `check_arg_scan` updates the namespace and returns the check's outcome exactly as `PrepareScan` defines. On failure it stops before expansion, cast and path rewriting. |
| Pandora.Namespace.FinishScan | pandora.py:171-181 | Once the checks pass, the steps become `ExpandSteps` of the old steps, the attributes become `AbsoluteBam` of `CastFlags` of the old ones, and the overrides are unchanged. |
| Pandora.Namespace.CheckArgAggregate | pandora.py:185-200 | `check_arg_aggregate` leaves the namespace `Configure` defines for the aggregate rules. |
| Pandora.Namespace.ScanMain | pandora.py:324-371 | `scan_main` stops or runs exactly as `ScanRun` defines, and issues the run `Chain` defines when it reaches its steps. |
| Pandora.Namespace.AggregateMain | pandora.py:375-396 | `agg_main` always runs its steps with the aggregate tables, issuing the run `Chain` defines. |
| Pandora.Namespace.Dispatch | pandora.py:236-259 | `main` resolves the arguments of the chosen sub-command and runs it, ending as `Driver` defines and issuing what `Issued` defines. |

## Left out

- Argument parsing (`get_arg`) is not part of this model. The parsed namespace is the input: a map from attribute name to value, the steps string, and the chosen sub-command. The `scripts` directory is an attribute like the others.
- `helpers.config_section_map` is not part of this model. A config file is its parsed form, a map from section to options. A section the file lacks reads as empty. ConfigParser's interpolation, option-name lowercasing and `[DEFAULT]` handling are not modelled.
- `helpers.check_path` is not part of this model. Its file-system test is a parameter, `onDisk`, and a path it rejects is reported as `MissingPath`. Its own messages are not modelled.
- `helpers.run_log_cmd`, `helpers.getjid` and `subprocess.check_output` are replaced by the oracle `answer`. The k-th command's reply is either a job id or a failure status, and a failure ends the run in both backends. The body of `run_log_cmd` is not part of this model, so what it does on a nonzero exit is taken to be fatal.
- `sys.executable` and `os.path.abspath(os.path.expanduser(...))` are parameters (`python`, `abspath`).
- Printing is not modelled: the namespace dump, the verbose echo of the submission, the per-step `Step i, jid = ...` line and the `--pblastdb` warning. The warning is kept as the boolean the checks return.
- `int()` is modelled on integers, booleans and base-10 byte strings, as Python 2 reads them (the program is Python 2: it imports `ConfigParser` at pandora.py:17). Such a string is ASCII whitespace, an optional sign, more whitespace, one or more ASCII digits, then whitespace. Floats are not modelled.
- Attributes the tables read but the namespace lacks are written as `None` rather than raising `AttributeError`; argparse defines them all.
- Every `sys.exit(1)` is an `Exit` value of the driver (`ArgsRejected`, `FilesRejected`) rather than a process exit. `TablesRejected` stands for the uncaught `ValueError` that `int()` raises at pandora.py:347-348 when a thread count is not an integer; the program then ends with a traceback. A `KeyError` for a step with no table entry ends the run as `Aborted(UnknownStep)` after the steps before it were issued.
- The helper scripts under `scripts/` are not part of this model.

### Behaviour kept as the code has it

- The identifier's help text asks for five characters or fewer (pandora.py:25), and nothing checks it.
- The `.gz` mismatch messages name no file (pandora.py:218, 221 and 225).
- `--pblastdb` without `--orfblast` only prints a warning and the run goes on (pandora.py:168-169).
- The second report `6` is appended whenever `5` is selected, even when `6` is already present (pandora.py:172-173; `ExpandStepsNotIdempotent`).
- Each check calls `sys.exit(1)` on its own failure (pandora.py:156-167 and 216-232), so the first failing check stops the run and later failures are not reported.
