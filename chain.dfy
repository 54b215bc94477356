/**
  Running the selected steps one after another: each step is either run in
  the shell or submitted to the grid engine, and under the grid engine each
  submission is held on the job the previous submission created.
 */
module JobChain {
  import opened Wrappers

  /** The job id that stands for "no previous job". */
  const NoJob: string := "0"

  /** What a run needs besides its steps: the three tables, the overrides and the backend switches. */
  datatype Plan = Plan(
    q: map<char, string>,              // submission prefix per step
    clusterparams: map<char, string>,  // extra resource request per step, under hpc
    d: map<char, string>,              // payload command per step
    qparam: map<char, string>,         // per-step submission prefix from the config file
    hpc: bool,
    noSGE: bool,
    python: string)                    // the running interpreter's path

  /**
    What the shell or the scheduler answered to the k-th command: the job id
    read from a successful submission (ignored when run in the shell), or the
    failure status that ends the run.
   */
  datatype Reply = Done(out: string) | Failed(status: int)

  /** One command issued: its step, the job it was held on, the job id it left, and its text. */
  datatype Entry = Entry(step: char, hold: Option<string>, jid: string, cmd: string)

  datatype StepError =
    | UnknownStep(code: char)                           // a table has no entry for the step
    | StepFailed(code: char, cmd: string, status: int)  // the command failed

  datatype ChainEnd = Completed | Aborted(error: StepError)

  /**
    The submission prefix of a step: the override verbatim when the config
    file gives one, else the table's prefix followed by the cluster fragment
    under hpc. None where a lookup the source makes has no entry.
   */
  function Prefix(p: Plan, code: char): (r: Option<string>)
    ensures r.Some? ==> code in p.d
  {
    if code in p.qparam then
      if code in p.d then Some(p.qparam[code]) else None
    else if code in p.q && (p.hpc ==> code in p.clusterparams) && code in p.d then
      Some(p.q[code] + (if p.hpc then p.clusterparams[code] else ""))
    else None
  }

  /** An override is used as it is: switching hpc on adds nothing to it. */
  lemma OverrideIgnoresHpc(p: Plan, code: char)
    requires code in p.qparam
    ensures Prefix(p.(hpc := true), code) == Prefix(p.(hpc := false), code)
    ensures code in p.d ==> Prefix(p, code) == Some(p.qparam[code])
  {
  }

  /** Without an override, hpc appends exactly the step's cluster fragment to its prefix. */
  lemma HpcAppendsFragment(p: Plan, code: char)
    requires code !in p.qparam && code in p.q && code in p.d && code in p.clusterparams
    ensures Prefix(p.(hpc := false), code) == Some(p.q[code])
    ensures Prefix(p.(hpc := true), code) == Some(p.q[code] + p.clusterparams[code])
  {
    assert p.q[code] + "" == p.q[code];
  }

  /** The hold a submission carries after the job `jid`: none after the sentinel. */
  function HoldOn(jid: string): (r: Option<string>)
    ensures r.None? <==> jid == NoJob
    ensures r.Some? ==> r.value == jid
  {
    if jid == NoJob then None else Some(jid)
  }

  /** The text of a grid-engine submission. */
  function SubmitLine(python: string, prefix: string, hold: Option<string>, payload: string): string {
    "qsub -S " + python + " " + prefix + " " +
    (match hold case None => "" case Some(j) => "-hold_jid " + j + " ") +
    payload
  }

  /**
    Read back, a submission starts with `qsub -S <python> <prefix> `, ends
    with the payload, and between the two holds exactly the hold on the
    previous job: nothing when there is none.
   */
  lemma SubmissionReadsBack(python: string, prefix: string, jid: string, payload: string)
    ensures var line, head := SubmitLine(python, prefix, HoldOn(jid), payload), "qsub -S " + python + " " + prefix + " ";
      |head| + |payload| <= |line| && line[..|head|] == head && line[|line| - |payload|..] == payload &&
      line[|head|..|line| - |payload|] == (if jid == NoJob then "" else "-hold_jid " + jid + " ")
  {
    var head, hold := "qsub -S " + python + " " + prefix + " ", if jid == NoJob then "" else "-hold_jid " + jid + " ";
    var line := SubmitLine(python, prefix, HoldOn(jid), payload);
    assert line == head + hold + payload;
    assert line[..|head|] == head;
    assert line[|line| - |payload|..] == payload;
    assert line[|head|..|line| - |payload|] == hold;
  }

  /** The entries of the commands that completed, and how the run ended. */
  datatype Run = Run(end: ChainEnd, trace: seq<Entry>)

  /** The entry of a step that completed, after the job `jid`, with reply `out`. */
  function StepEntry(p: Plan, code: char, prefix: string, jid: string, out: string): Entry
    requires code in p.d
  {
    if p.noSGE then Entry(code, None, NoJob, p.d[code])
    else Entry(code, HoldOn(jid), out, SubmitLine(p.python, prefix, HoldOn(jid), p.d[code]))
  }

  /**
    The run from step index i on, after the job `jid`. `answer(k)` is the
    reply to the k-th command of the run.
   */
  function ChainFrom(p: Plan, steps: string, answer: nat -> Reply, i: nat, jid: string): Run
    requires i <= |steps|
    decreases |steps| - i
  {
    if i == |steps| then Run(Completed, [])
    else
      var code := steps[i];
      match Prefix(p, code)
      case None => Run(Aborted(UnknownStep(code)), [])
      case Some(prefix) =>
        match answer(i)
        case Failed(status) =>
          var cmd := if p.noSGE then p.d[code] else SubmitLine(p.python, prefix, HoldOn(jid), p.d[code]);
          Run(Aborted(StepFailed(code, cmd, status)), [])
        case Done(out) =>
          var e := StepEntry(p, code, prefix, jid, out);
          var rest := ChainFrom(p, steps, answer, i + 1, e.jid);
          Run(rest.end, [e] + rest.trace)
  }

  /** The whole run, starting from no previous job. */
  function Chain(p: Plan, steps: string, answer: nat -> Reply): Run {
    ChainFrom(p, steps, answer, 0, NoJob)
  }

  /** The step an error stopped at. */
  function ErrorCode(e: StepError): char {
    match e
    case UnknownStep(c) => c
    case StepFailed(c, _, _) => c
  }

  /** A run from index i with an entry began with step i, whose lookup succeeded and whose command completed. */
  lemma ChainFromCons(p: Plan, steps: string, answer: nat -> Reply, i: nat, jid: string)
    requires i <= |steps| && |ChainFrom(p, steps, answer, i, jid).trace| > 0
    ensures i < |steps| && Prefix(p, steps[i]).Some? && answer(i).Done?
    ensures var e := StepEntry(p, steps[i], Prefix(p, steps[i]).value, jid, answer(i).out);
      ChainFrom(p, steps, answer, i, jid).trace == [e] + ChainFrom(p, steps, answer, i + 1, e.jid).trace
  {
  }

  /** Past its first entry, a run from index i is the run from index i + 1 after the first entry's job. */
  lemma ChainFromShift(p: Plan, steps: string, answer: nat -> Reply, i: nat, jid: string, k: nat)
    requires i <= |steps| && 0 < k < |ChainFrom(p, steps, answer, i, jid).trace|
    ensures i < |steps| && Prefix(p, steps[i]).Some? && answer(i).Done?
    ensures var e := StepEntry(p, steps[i], Prefix(p, steps[i]).value, jid, answer(i).out);
      k - 1 < |ChainFrom(p, steps, answer, i + 1, e.jid).trace| &&
      ChainFrom(p, steps, answer, i, jid).trace[k] == ChainFrom(p, steps, answer, i + 1, e.jid).trace[k - 1]
  {
    ChainFromCons(p, steps, answer, i, jid);
  }

  /**
    Entry k of a run from index i is the (i+k)-th selected step, whose
    lookups succeeded and whose command completed.
   */
  predicate IssuedAt(p: Plan, steps: string, answer: nat -> Reply, i: nat, trace: seq<Entry>, k: nat)
    requires k < |trace|
  {
    i + k < |steps| && trace[k].step == steps[i + k] && Prefix(p, steps[i + k]).Some? && answer(i + k).Done?
  }


  /** A run from index i has at most one entry per remaining step, and completes exactly when it has one for each. */
  lemma {:induction false} ChainLength(p: Plan, steps: string, answer: nat -> Reply, i: nat, jid: string)
    requires i <= |steps|
    ensures var r := ChainFrom(p, steps, answer, i, jid);
      i + |r.trace| <= |steps| && (r.end.Completed? <==> i + |r.trace| == |steps|)
    decreases |steps| - i
  {
    if i < |steps| {
      if Prefix(p, steps[i]).None? {
        ChainFromUnknown(p, steps, answer, i, jid);
      } else if answer(i).Failed? {
        ChainFromFailed(p, steps, answer, i, jid);
      } else {
        ChainFromDone(p, steps, answer, i, jid);
        var e := StepEntry(p, steps[i], Prefix(p, steps[i]).value, jid, answer(i).out);
        ChainLength(p, steps, answer, i + 1, e.jid);
        var rest := ChainFrom(p, steps, answer, i + 1, e.jid);
        assert |ChainFrom(p, steps, answer, i, jid).trace| == 1 + |rest.trace|;
      }
    }
  }

  /**
    A run stopped by `error` at step index n: n is a selected step, the error
    names it, and it is an unknown step exactly when the lookup failed,
    otherwise the command's failure with the status the scheduler returned.
   */
  predicate StoppedAt(p: Plan, steps: string, answer: nat -> Reply, n: nat, error: StepError) {
    n < |steps| && ErrorCode(error) == steps[n] &&
    (error.UnknownStep? <==> Prefix(p, steps[n]).None?) &&
    (error.StepFailed? ==> answer(n) == Failed(error.status))
  }

  /** A run from index i that aborts stops at the step right after its last entry, for the reason its error gives. */
  predicate StopsWhereItEnds(p: Plan, steps: string, answer: nat -> Reply, i: nat, r: Run) {
    r.end.Aborted? ==> StoppedAt(p, steps, answer, i + |r.trace|, r.end.error)
  }

  /** Putting one entry in front of a run from index i + 1 gives a run from index i that stops at the same step. */
  lemma StopsWhereItEndsCons(p: Plan, steps: string, answer: nat -> Reply, i: nat, e: Entry, rest: Run)
    requires StopsWhereItEnds(p, steps, answer, i + 1, rest)
    ensures StopsWhereItEnds(p, steps, answer, i, Run(rest.end, [e] + rest.trace))
  {
    assert i + |[e] + rest.trace| == (i + 1) + |rest.trace|;
  }

  lemma {:induction false} ChainStops(p: Plan, steps: string, answer: nat -> Reply, i: nat, jid: string)
    requires i <= |steps|
    ensures StopsWhereItEnds(p, steps, answer, i, ChainFrom(p, steps, answer, i, jid))
    decreases |steps| - i
  {
    if i < |steps| {
      if Prefix(p, steps[i]).None? {
        ChainFromUnknown(p, steps, answer, i, jid);
      } else if answer(i).Failed? {
        ChainFromFailed(p, steps, answer, i, jid);
      } else {
        ChainFromDone(p, steps, answer, i, jid);
        var e := StepEntry(p, steps[i], Prefix(p, steps[i]).value, jid, answer(i).out);
        ChainStops(p, steps, answer, i + 1, e.jid);
        StopsWhereItEndsCons(p, steps, answer, i, e, ChainFrom(p, steps, answer, i + 1, e.jid));
      }
    }
  }

  /**
    Entry k of a grid-engine run from index i after job `jid`: it carries the
    scheduler's reply to its own submission, it is held on `jid` when first and
    otherwise on the job of the entry before it (none after the sentinel), and
    its command is the submission of the step's prefix and payload with that hold.
   */
  predicate LinkedAt(p: Plan, steps: string, answer: nat -> Reply, i: nat, jid: string, trace: seq<Entry>, k: nat)
    requires k < |trace|
  {
    i + k < |steps| && Prefix(p, steps[i + k]).Some? && answer(i + k).Done? &&
    trace[k].jid == answer(i + k).out &&
    trace[k].hold == HoldOn(if k == 0 then jid else trace[k - 1].jid) &&
    trace[k].cmd == SubmitLine(p.python, Prefix(p, steps[i + k]).value, trace[k].hold, p.d[steps[i + k]])
  }

  /**
    Entry k of a run from index i after job `jid` is the entry `StepEntry`
    builds for step i+k, after the job of the entry before it (`jid` for the
    first), with the reply to its own command.
   */
  predicate EntryAt(p: Plan, steps: string, answer: nat -> Reply, i: nat, jid: string, trace: seq<Entry>, k: nat)
    requires k < |trace|
  {
    i + k < |steps| && Prefix(p, steps[i + k]).Some? && answer(i + k).Done? &&
    trace[k] == StepEntry(p, steps[i + k], Prefix(p, steps[i + k]).value,
                          if k == 0 then jid else trace[k - 1].jid, answer(i + k).out)
  }

  /** Every entry of a run is built from the step, the job before it and its own reply. */
  lemma {:induction false} ChainEntries(p: Plan, steps: string, answer: nat -> Reply, i: nat, jid: string, k: nat)
    requires i <= |steps| && k < |ChainFrom(p, steps, answer, i, jid).trace|
    ensures EntryAt(p, steps, answer, i, jid, ChainFrom(p, steps, answer, i, jid).trace, k)
    decreases k
  {
    var trace := ChainFrom(p, steps, answer, i, jid).trace;
    if k == 0 {
      ChainFromCons(p, steps, answer, i, jid);
    } else {
      ChainFromShift(p, steps, answer, i, jid, k);
      var e := StepEntry(p, steps[i], Prefix(p, steps[i]).value, jid, answer(i).out);
      var rest := ChainFrom(p, steps, answer, i + 1, e.jid).trace;
      ChainEntries(p, steps, answer, i + 1, e.jid, k - 1);
      var n, before := i + k, if k == 1 then e.jid else rest[k - 2].jid;
      assert (i + 1) + (k - 1) == n;
      assert EntryAt(p, steps, answer, i + 1, e.jid, rest, k - 1);
      assert rest[k - 1] == StepEntry(p, steps[n], Prefix(p, steps[n]).value, before, answer(n).out);
      if k == 1 {
        ChainFromCons(p, steps, answer, i, jid);
      } else {
        ChainFromShift(p, steps, answer, i, jid, k - 1);
      }
      assert trace[k - 1].jid == before;
    }
  }

  /** Steps run strictly in the order given, each occurrence once. */
  lemma ChainInOrder(p: Plan, steps: string, answer: nat -> Reply, i: nat, jid: string, k: nat)
    requires i <= |steps| && k < |ChainFrom(p, steps, answer, i, jid).trace|
    ensures IssuedAt(p, steps, answer, i, ChainFrom(p, steps, answer, i, jid).trace, k)
  {
    ChainEntries(p, steps, answer, i, jid, k);
  }

  /** The grid-engine chain is linear: every entry is linked to the one before it. */
  lemma ChainLinks(p: Plan, steps: string, answer: nat -> Reply, i: nat, jid: string, k: nat)
    requires i <= |steps| && !p.noSGE && k < |ChainFrom(p, steps, answer, i, jid).trace|
    ensures LinkedAt(p, steps, answer, i, jid, ChainFrom(p, steps, answer, i, jid).trace, k)
  {
    ChainEntries(p, steps, answer, i, jid, k);
  }

  /**
    Under the grid engine, when no reply is the sentinel, the first submission
    holds on nothing and the k-th on exactly the job of the (k-1)-th; when the
    scheduler's job ids are also distinct, never on any earlier job.
   */
  lemma HoldsOnImmediatePredecessor(p: Plan, steps: string, answer: nat -> Reply)
    requires !p.noSGE
    requires forall k :: answer(k).Done? ==> answer(k).out != NoJob
    ensures |Chain(p, steps, answer).trace| > 0 ==> Chain(p, steps, answer).trace[0].hold.None?
    ensures forall k :: 0 < k < |Chain(p, steps, answer).trace| ==>
      Chain(p, steps, answer).trace[k].hold == Some(Chain(p, steps, answer).trace[k - 1].jid)
    ensures (forall a, b :: a != b && answer(a).Done? && answer(b).Done? ==> answer(a).out != answer(b).out) ==>
      forall j, k :: 0 <= j < k - 1 && k < |Chain(p, steps, answer).trace| ==>
        Chain(p, steps, answer).trace[k].hold != Some(Chain(p, steps, answer).trace[j].jid)
  {
    var trace := Chain(p, steps, answer).trace;
    forall k | 0 <= k < |trace|
      ensures answer(k).Done? && trace[k].jid == answer(k).out
      ensures trace[k].hold == HoldOn(if k == 0 then NoJob else trace[k - 1].jid)
    {
      ChainLinks(p, steps, answer, 0, NoJob, k);
      assert LinkedAt(p, steps, answer, 0, NoJob, trace, k);
    }
    if forall a, b :: a != b && answer(a).Done? && answer(b).Done? ==> answer(a).out != answer(b).out {
      forall j, k | 0 <= j < k - 1 && k < |trace|
        ensures trace[k].hold != Some(trace[j].jid)
      {
        assert answer(k - 1).out != answer(j).out;
      }
    }
  }

  /** A run that completes has issued every step, one entry each, in the order given. */
  lemma CompletedRunCoversSteps(p: Plan, steps: string, answer: nat -> Reply)
    requires Chain(p, steps, answer).end.Completed?
    ensures |Chain(p, steps, answer).trace| == |steps|
    ensures forall k :: 0 <= k < |steps| ==> Chain(p, steps, answer).trace[k].step == steps[k]
  {
    ChainLength(p, steps, answer, 0, NoJob);
    var trace := Chain(p, steps, answer).trace;
    forall k | 0 <= k < |steps| ensures trace[k].step == steps[k] {
      ChainInOrder(p, steps, answer, 0, NoJob, k);
      assert IssuedAt(p, steps, answer, 0, trace, k);
    }
  }

  /** Under the grid engine, a step with an override is submitted with the override as its whole prefix. */
  lemma OverrideUsedVerbatim(p: Plan, steps: string, answer: nat -> Reply, k: nat)
    requires !p.noSGE && k < |Chain(p, steps, answer).trace|
    ensures var e := Chain(p, steps, answer).trace[k];
      e.step in p.qparam ==> e.step in p.d && e.cmd == SubmitLine(p.python, p.qparam[e.step], e.hold, p.d[e.step])
  {
    var trace := Chain(p, steps, answer).trace;
    ChainLinks(p, steps, answer, 0, NoJob, k);
    ChainInOrder(p, steps, answer, 0, NoJob, k);
    assert LinkedAt(p, steps, answer, 0, NoJob, trace, k);
    assert IssuedAt(p, steps, answer, 0, trace, k);
  }

  /**
    In the shell every step reports the sentinel job, no command is held on
    anything, and the command run is the step's payload itself: the k-th
    entry from step index i on is step i + k's payload.
   */
  lemma LocalRunNeverChains(p: Plan, steps: string, answer: nat -> Reply, i: nat, jid: string, k: nat)
    requires i <= |steps| && p.noSGE && k < |ChainFrom(p, steps, answer, i, jid).trace|
    ensures i + k < |steps| && steps[i + k] in p.d
    ensures ChainFrom(p, steps, answer, i, jid).trace[k] == Entry(steps[i + k], None, NoJob, p.d[steps[i + k]])
  {
    ChainEntries(p, steps, answer, i, jid, k);
  }

  // ---------------------------------------------------------------------
  // The executor

  /**
    Runs one step: in the shell, the payload itself, leaving the sentinel job;
    under the grid engine, a submission held on `jid` unless it is the
    sentinel, leaving the job id the scheduler replies with.
   */
  method DoCmd(qcmd: string, mycmd: string, jid: string, noSGE: bool, python: string, reply: Reply)
    returns (r: Result<string, int>, cmd: string)
    ensures noSGE ==> cmd == mycmd
    ensures !noSGE ==> cmd == SubmitLine(python, qcmd, HoldOn(jid), mycmd)
    ensures reply.Failed? ==> r == Failure(reply.status)
    ensures reply.Done? ==> r == Success(if noSGE then NoJob else reply.out)
  {
    if noSGE {
      cmd := mycmd;
      r := if reply.Failed? then Failure(reply.status) else Success(NoJob);
      return;
    }
    cmd := "qsub -S " + python + " " + qcmd + " ";
    if jid != NoJob {
      cmd := cmd + "-hold_jid " + jid + " ";
    }
    cmd := cmd + mycmd;
    r := if reply.Failed? then Failure(reply.status) else Success(reply.out);
  }

  /** A step whose lookup fails ends the run from it, with nothing issued. */
  lemma ChainFromUnknown(p: Plan, steps: string, answer: nat -> Reply, i: nat, jid: string)
    requires i < |steps| && Prefix(p, steps[i]).None?
    ensures ChainFrom(p, steps, answer, i, jid) == Run(Aborted(UnknownStep(steps[i])), [])
  {
  }

  /** A step whose command fails ends the run from it with that command and status, with nothing issued. */
  lemma ChainFromFailed(p: Plan, steps: string, answer: nat -> Reply, i: nat, jid: string)
    requires i < |steps| && Prefix(p, steps[i]).Some? && answer(i).Failed?
    ensures var cmd := if p.noSGE then p.d[steps[i]]
                       else SubmitLine(p.python, Prefix(p, steps[i]).value, HoldOn(jid), p.d[steps[i]]);
      ChainFrom(p, steps, answer, i, jid) == Run(Aborted(StepFailed(steps[i], cmd, answer(i).status)), [])
  {
  }

  /** A step that completes contributes its entry and hands its job id to the next step. */
  lemma ChainFromDone(p: Plan, steps: string, answer: nat -> Reply, i: nat, jid: string)
    requires i < |steps| && Prefix(p, steps[i]).Some? && answer(i).Done?
    ensures var e := StepEntry(p, steps[i], Prefix(p, steps[i]).value, jid, answer(i).out);
      var rest := ChainFrom(p, steps, answer, i + 1, e.jid);
      ChainFrom(p, steps, answer, i, jid) == Run(rest.end, [e] + rest.trace)
  {
  }

  /**
    One completed step of the loop: the trace so far, followed by the step's
    entry, still extends to the whole run once the rest of the chain is added.
   */
  lemma ChainKeepsPace(p: Plan, steps: string, answer: nat -> Reply, i: nat, jid: string,
                       trace: seq<Entry>, entry: Entry)
    requires i < |steps| && Prefix(p, steps[i]).Some? && answer(i).Done?
    requires entry == StepEntry(p, steps[i], Prefix(p, steps[i]).value, jid, answer(i).out)
    requires Chain(p, steps, answer) ==
      Run(ChainFrom(p, steps, answer, i, jid).end, trace + ChainFrom(p, steps, answer, i, jid).trace)
    ensures Chain(p, steps, answer) ==
      Run(ChainFrom(p, steps, answer, i + 1, entry.jid).end,
          (trace + [entry]) + ChainFrom(p, steps, answer, i + 1, entry.jid).trace)
  {
    ChainFromDone(p, steps, answer, i, jid);
    var rest := ChainFrom(p, steps, answer, i + 1, entry.jid);
    assert trace + ([entry] + rest.trace) == (trace + [entry]) + rest.trace;
  }

  /**
    The submission prefix of one step, looked up as the source does: the
    override if there is one, else the default with the cluster fragment
    appended under hpc. None where a lookup raises KeyError.
   */
  method LookupPrefix(p: Plan, code: char) returns (prefix: Option<string>)
    ensures prefix == Prefix(p, code)
  {
    if code in p.qparam {
      if code !in p.d {
        return None;
      }
      return Some(p.qparam[code]);
    }
    if code !in p.q || (p.hpc && code !in p.clusterparams) || code !in p.d {
      return None;
    }
    var qprefix := p.q[code];
    if p.hpc {
      qprefix := qprefix + p.clusterparams[code];
    } else {
      assert qprefix + "" == qprefix;
    }
    return Some(qprefix);
  }

  /**
    Runs the steps in order, threading the job id of each submission into
    the next, and records an entry for every command that completed.
   */
  method RunSteps(p: Plan, steps: string, answer: nat -> Reply) returns (end: ChainEnd, trace: seq<Entry>)
    ensures Run(end, trace) == Chain(p, steps, answer)
  {
    var jid := NoJob;
    trace := [];
    for i := 0 to |steps|
      invariant Chain(p, steps, answer) ==
        Run(ChainFrom(p, steps, answer, i, jid).end, trace + ChainFrom(p, steps, answer, i, jid).trace)
    {
      var code := steps[i];
      var prefix := LookupPrefix(p, code);
      if prefix.None? {
        ChainFromUnknown(p, steps, answer, i, jid);
        return Aborted(UnknownStep(code)), trace;
      }
      var r, cmd := DoCmd(prefix.value, p.d[code], jid, p.noSGE, p.python, answer(i));
      if r.Failure? {
        ChainFromFailed(p, steps, answer, i, jid);
        return Aborted(StepFailed(code, cmd, r.error)), trace;
      }
      var entry := Entry(code, if p.noSGE then None else HoldOn(jid), r.value, cmd);
      ChainKeepsPace(p, steps, answer, i, jid, trace, entry);
      trace := trace + [entry];
      jid := r.value;
    }
    end := Completed;
  }
}
