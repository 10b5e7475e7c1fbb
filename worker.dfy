/**
 * The worker side of scripts/main.py: `runJob`, which runs in its own process,
 * reports its progress to the dispatcher over a one-way pipe, and ends either
 * by sending 0 and then the performance flag or by exiting with an error code.
 *
 * Everything the worker learns from the file system and from the programs it
 * runs is given as a `JobRun`; the values it sends are collected in order.
 */
module Worker {
  import opened Wrappers
  import opened PyText

  // Exit codes passed to jobError (scripts/main.py:345-395).
  const ERR_MODEL_MISSING := 11
  const ERR_SCRIPT_MISSING := 12
  const ERR_NO_CFG := 13
  const ERR_MANY_CFG := 14
  const ERR_EXTRACT := 16
  const ERR_RESULTS := 18
  /** The exit code of a `multiprocessing` child that ends with an uncaught exception. */
  const CRASH := 1

  /** The exit status the dispatcher reads back for `sys.exit(code)`: the low eight bits. */
  function ExitStatus(code: int): (s: int)
    ensures 0 <= s < 256
    ensures 0 <= code < 256 ==> s == code
  {
    code % 256
  }

  /** A POSIX `Popen.returncode`: an exit status, or minus the number of the killing signal. */
  predicate IsReturnCode(rc: int) {
    -255 <= rc <= 255
  }

  // ---------------------------------------------------------------- archive switch

  /** `s_tarball.split('.', 1)[1]`; None where Python raises IndexError (no '.'). */
  function ArchiveExt(tarball: string): (r: Option<string>)
    ensures r.None? <==> '.' !in tarball
  {
    AfterFirst(tarball, '.')
  }

  /** The command that unpacks a model archive with extension `ext`; None for an unsupported one. */
  function Extractor(ext: string): (r: Option<seq<string>>)
    ensures r.Some? <==> ext == "zip" || ext == "tar" || ext == "tar.gz" || ext == "xml"
    ensures r.Some? ==> |r.value| >= 1
  {
    if ext == "zip" then Some(["unzip"])
    else if ext == "tar" || ext == "tar.gz" then Some(["tar", "-xf"])
    else if ext == "xml" then Some(["../../scripts/common/gbXMLconv/gbXMLconv.sh"])
    else None
  }

  /** A model file named `stem.ext` with a dot-free stem is recognised by all of `ext`. */
  lemma ArchiveExtOfName(stem: string, ext: string)
    requires '.' !in stem
    ensures ArchiveExt(stem + "." + ext) == Some(ext)
  {
    AfterFirstOf(stem, '.', ext);
  }

  // ---------------------------------------------------------------- arguments and paths

  /** `'X' if a is None else a` for one assessment criterion. */
  function CriterionArg(a: Option<string>): string {
    if a.None? then "X" else a.value
  }

  /** The inverse reading of one argument: "X" stands for an absent criterion. */
  function CriterionOf(arg: string): Option<string> {
    if arg == "X" then None else Some(arg)
  }

  /** The argument list of the assessment script (scripts/main.py:207-210). */
  function AssessmentArgs(cfg: string, criteria: seq<Option<string>>): (args: seq<string>)
    ensures |args| == 9 + |criteria|
    ensures args[..9] == ["-d", "tmp", "-f", "simulation_results", "-r", "outputs/feedback.pdf",
                          "-P", "tmp/preamble.txt", cfg]
    ensures forall k :: 0 <= k < |criteria| ==> args[9 + k] == CriterionArg(criteria[k])
  {
    ["-d", "tmp", "-f", "simulation_results", "-r", "outputs/feedback.pdf", "-P", "tmp/preamble.txt", cfg]
    + seq(|criteria|, k requires 0 <= k < |criteria| => CriterionArg(criteria[k]))
  }

  /** The criteria an assessment script reads back from its trailing arguments. */
  function CriteriaOf(args: seq<string>): (cs: seq<Option<string>>)
    ensures |cs| == |args|
  {
    seq(|args|, k requires 0 <= k < |args| => CriterionOf(args[k]))
  }

  /** The criteria survive the argument list exactly when none of them is the text "X"
      itself, which would be read back as an absent criterion. */
  lemma CriteriaRoundTrip(cfg: string, criteria: seq<Option<string>>)
    ensures CriteriaOf(AssessmentArgs(cfg, criteria)[9..]) == criteria
            <==> forall k :: 0 <= k < |criteria| ==> criteria[k] != Some("X")
  {
    var back := CriteriaOf(AssessmentArgs(cfg, criteria)[9..]);
    if back == criteria {
      forall k | 0 <= k < |criteria| ensures criteria[k] != Some("X") {
        assert back[k] == CriterionOf(CriterionArg(criteria[k]));
      }
    }
    if forall k :: 0 <= k < |criteria| ==> criteria[k] != Some("X") {
      forall k | 0 <= k < |criteria| ensures back[k] == criteria[k] {
        assert back[k] == CriterionOf(CriterionArg(criteria[k]));
      }
    }
  }

  /** `s.replace(from, to)` for single characters. */
  function ReplaceChar(s: string, from: char, to: char): (r: string)
    ensures |r| == |s|
    ensures forall k :: 0 <= k < |s| ==> r[k] == (if s[k] == from then to else s[k])
  {
    if s == [] then [] else [if s[0] == from then to else s[0]] + ReplaceChar(s[1..], from, to)
  }

  const ASSESSMENTS_DIR := "../../scripts/assessments/"

  /** The assessment script for an estate type (scripts/main.py:200-201). */
  function AssessmentScript(estateType: string): (path: string)
    ensures StartsWith(path, ASSESSMENTS_DIR)
    ensures ' ' !in path[|ASSESSMENTS_DIR|..]
    ensures |path| == |ASSESSMENTS_DIR| + |estateType|
  {
    var name := ReplaceChar(estateType, ' ', '_');
    assert (ASSESSMENTS_DIR + name)[|ASSESSMENTS_DIR|..] == name;
    ASSESSMENTS_DIR + name
  }

  /** getJobDir (scripts/main.py:420-422): `scriptDir` is the directory holding main.py. */
  function JobDir(scriptDir: string, jobId: int): (dir: string)
    ensures StartsWith(dir, scriptDir + "/../jobs/job_")
  {
    scriptDir + "/../jobs/job_" + IntToString(jobId)
  }

  /** The cancellation marker the front end creates inside a job directory. */
  function KillMarker(scriptDir: string, jobId: int): (path: string)
    ensures StartsWith(path, JobDir(scriptDir, jobId))
  {
    JobDir(scriptDir, jobId) + "/kill.it"
  }

  /** Different jobs get different directories, so no two workers share one. */
  lemma {:induction false} JobDirInjective(scriptDir: string, a: int, b: int)
    requires JobDir(scriptDir, a) == JobDir(scriptDir, b)
    ensures a == b
  {
    var p := scriptDir + "/../jobs/job_";
    assert IntToString(a) == JobDir(scriptDir, a)[|p|..];
    assert IntToString(b) == JobDir(scriptDir, b)[|p|..];
    IntToStringInjective(a, b);
  }

  // ---------------------------------------------------------------- progress forwarding

  /** What one look at tmp/progress.txt finds: no file, or the file's first line. */
  datatype Reading = Missing | Present(firstLine: string)

  /** What one look means once `int()` has been applied to the first line. */
  datatype Look = NoFile | Value(v: int) | Unreadable

  /** `int(f_prg.readline().strip())` on a look that found the file. */
  function LookAt(r: Reading): Look {
    match r
    case Missing => NoFile
    case Present(line) => match ParseInt(line) case None => Unreadable case Some(v) => Value(v)
  }

  /** A first line holding `str(n)`, followed by any whitespace, is read as `n`. */
  lemma LookAtPrinted(n: int, rest: string)
    requires forall i :: 0 <= i < |rest| ==> IsSpace(rest[i])
    ensures LookAt(Present(IntToString(n) + rest)) == Value(n)
  {
    ParseIntTrailingSpace(IntToString(n), rest);
    ParseIntToString(n);
  }

  function Looks(rs: seq<Reading>): (ls: seq<Look>)
    ensures |ls| == |rs| && forall k :: 0 <= k < |rs| ==> ls[k] == LookAt(rs[k])
  {
    seq(|rs|, k requires 0 <= k < |rs| => LookAt(rs[k]))
  }

  /** The progress values forwarded, and whether `int()` raised on a reading. */
  datatype Progress = Progress(sent: seq<int>, crashed: bool)

  /** The values forwarded from `ls` when `floor` is the last value sent: each value that
      exceeds everything sent so far is sent; an unreadable look ends the worker. */
  function Forward(ls: seq<Look>, floor: int): Progress
  {
    if ls == [] then Progress([], false)
    else match ls[0]
      case NoFile => Forward(ls[1..], floor)
      case Unreadable => Progress([], true)
      case Value(v) =>
        if v > floor then var p := Forward(ls[1..], v); Progress([v] + p.sent, p.crashed)
        else Forward(ls[1..], floor)
  }

  /** `s` is strictly increasing and every element exceeds `floor`. */
  predicate IncreasingAbove(s: seq<int>, floor: int) {
    && (forall k :: 0 <= k < |s| ==> s[k] > floor)
    && (forall k, l :: 0 <= k < l < |s| ==> s[k] < s[l])
  }

  /** The forwarded values are strictly increasing and exceed `floor`. */
  lemma {:induction false} ForwardIncreasing(ls: seq<Look>, floor: int)
    ensures IncreasingAbove(Forward(ls, floor).sent, floor)
  {
    if ls != [] {
      match ls[0]
      case NoFile =>
        assert Forward(ls, floor) == Forward(ls[1..], floor);
        ForwardIncreasing(ls[1..], floor);
      case Unreadable =>
      case Value(v) =>
        if v > floor {
          var t := Forward(ls[1..], v).sent;
          ForwardIncreasing(ls[1..], v);
          assert Forward(ls, floor).sent == [v] + t;
        } else {
          assert Forward(ls, floor) == Forward(ls[1..], floor);
          ForwardIncreasing(ls[1..], floor);
        }
    }
  }

  /** Every forwarded value is a value that was read. */
  lemma {:induction false} ForwardReadValues(ls: seq<Look>, floor: int)
    ensures forall v :: v in Forward(ls, floor).sent ==> Value(v) in ls
  {
    if ls != [] {
      var next := if ls[0].Value? && ls[0].v > floor then ls[0].v else floor;
      ForwardReadValues(ls[1..], next);
      assert forall l :: l in ls[1..] ==> l in ls;
    }
  }

  /** The worker crashes in the progress loop exactly when some look is unreadable. */
  lemma {:induction false} ForwardCrashes(ls: seq<Look>, floor: int)
    ensures Forward(ls, floor).crashed <==> Unreadable in ls
  {
    if ls != [] && ls[0] != Unreadable {
      ForwardCrashes(ls[1..], if ls[0].Value? && ls[0].v > floor then ls[0].v else floor);
      assert ls == [ls[0]] + ls[1..];
    }
  }

  /** What the worker forwards from the looks taken while the assessment runs and the final one. */
  function ProgressOf(readings: seq<Reading>, final: Reading): Progress {
    Forward(Looks(readings + [final]), 2)
  }

  /** The values forwarded while the assessment runs are strictly increasing and above 2. */
  lemma ProgressOfIncreasing(readings: seq<Reading>, final: Reading)
    ensures IncreasingAbove(ProgressOf(readings, final).sent, 2)
  {
    ForwardIncreasing(Looks(readings + [final]), 2);
  }

  /** The polling loop and the final look (scripts/main.py:241-259): `readings` are the looks
      taken while the assessment runs, one a second, and `final` the look after it exits. */
  method ForwardProgress(readings: seq<Reading>, final: Reading) returns (sent: seq<int>, crashed: bool)
    ensures Progress(sent, crashed) == ProgressOf(readings, final)
  {
    ghost var all := Looks(readings + [final]);
    var prgv := 2;
    var prgp := prgv;
    sent := [];
    var i := 0;
    while i < |readings|
      invariant 0 <= i <= |readings|
      invariant prgv <= prgp
      invariant var rest := Forward(all[i..], prgp);
        Forward(all, 2) == Progress(sent + rest.sent, rest.crashed)
    {
      var look := LookAt(readings[i]);
      assert all[i..][1..] == all[i + 1..] && all[i..][0] == look;
      match look {
        case Unreadable =>
          crashed := true;
          return;
        case Value(v) =>
          prgv := v;
        case NoFile =>
      }
      if prgv > prgp {
        sent := sent + [prgv];
        prgp := prgv;
      }
      i := i + 1;
    }
    assert all[i..] == [LookAt(final)];
    match LookAt(final) {
      case Unreadable =>
        crashed := true;
        return;
      case Value(v) =>
        prgv := v;
      case NoFile =>
    }
    if prgv > prgp {
      sent := sent + [prgv];
    }
    crashed := false;
  }

  // ---------------------------------------------------------------- the job

  /** What `isfile`/`isdir` say about one entry of outputs/. */
  datatype OutputKind = RegularFile | Directory | Neither

  /** Everything runJob observes while it runs. */
  datatype JobRun = JobRun(
    tarball: string,            // the model file name from the queue
    debug: bool,                // b_debug: the dispatcher's -d switch
    copyOk: bool,               // copyfile of the model into the job directory succeeded
    extractOk: bool,            // the extractor and the removal of the archive succeeded
    moveOk: bool,               // moving the model directories into model/ succeeded
    cfgCount: nat,              // len(glob('model/cfg/*.cfg'))
    scriptExists: bool,         // isfile(AssessmentScript(estateType))
    readings: seq<Reading>,     // the looks at tmp/progress.txt while the assessment runs
    finalReading: Reading,      // the look after it exits
    returncode: int,            // the assessment's returncode
    flagOutput: string,         // the decoded stdout of get_performanceFlag.awk
    tarOk: bool,                // the results tarball was created
    outputs: seq<OutputKind>    // the entries of outputs/
  )

  /** The values the worker sent, in order, and its exit status. */
  datatype Outcome = Outcome(sent: seq<int>, status: int)

  /** The performance flag, where get_performanceFlag.awk printed "0" or "1". */
  function ParseFlag(output: string): Option<int> {
    var s := Strip(output);
    if s == "0" then Some(0) else if s == "1" then Some(1) else None
  }

  /** The exit status of the first step that fails in getting the model ready: the extension
      split, the copy, the extraction and move, the cfg count (lines 95-169). */
  function ModelFailure(j: JobRun): Option<int> {
    match ArchiveExt(j.tarball)
    case None => Some(CRASH)
    case Some(ext) =>
      if !j.copyOk then Some(ERR_MODEL_MISSING)
      else if Extractor(ext).None? || !j.extractOk || !j.moveOk then Some(ERR_EXTRACT)
      else if j.cfgCount == 0 then Some(ERR_NO_CFG)
      else if j.cfgCount > 1 then Some(ERR_MANY_CFG)
      else None
  }

  /** The exit status of the first setup step that fails before the assessment starts: the
      model, then the assessment script (lines 200-203). */
  function SetupFailure(j: JobRun): Option<int> {
    if ModelFailure(j).Some? then ModelFailure(j)
    else if !j.scriptExists then Some(ERR_SCRIPT_MISSING)
    else None
  }

  /** The sends and the exit status after an assessment that returned 0: the flag, the
      uploading signal 9, the results tarball for a failing model, the copy of outputs/. */
  function Completion(j: JobRun): (seq<int>, int) {
    match ParseFlag(j.flagOutput)
    case None => ([], ERR_RESULTS)
    case Some(flag) =>
      if (flag == 1 && !j.tarOk) || Neither in j.outputs then ([9], ERR_RESULTS)
      else ([9, 0, flag], 0)
  }

  /** runJob, stage by stage, once the assessment's progress stream `p` is known: the first
      failing stage decides the exit status. */
  function Run(j: JobRun, p: Progress): (o: Outcome)
    ensures |o.sent| >= 1 && o.sent[0] == 1
  {
    if SetupFailure(j).Some? then Outcome([1], SetupFailure(j).value)
    else
      var running := [1, 2] + p.sent;
      if p.crashed then Outcome(running, CRASH)
      else if j.returncode != 0 then Outcome(running, ExitStatus(j.returncode))
      else Outcome(running + Completion(j).0, Completion(j).1)
  }

  /** runJob as a whole. */
  function Expected(j: JobRun): Outcome {
    Run(j, ProgressOf(j.readings, j.finalReading))
  }

  /** runJob (scripts/main.py:59-337), with every jobError modelled as an exit with its code. */
  method RunJob(j: JobRun) returns (sent: seq<int>, status: int)
    ensures Outcome(sent, status) == Expected(j)
  {
    sent := [1];
    var ext := ArchiveExt(j.tarball);
    if ext.None? {
      return sent, CRASH;
    }
    if !j.copyOk {
      return sent, ERR_MODEL_MISSING;
    }
    var extract := Extractor(ext.value);
    if extract.None? || !j.extractOk || !j.moveOk {
      return sent, ERR_EXTRACT;
    }
    if j.cfgCount == 0 {
      return sent, ERR_NO_CFG;
    } else if j.cfgCount > 1 {
      return sent, ERR_MANY_CFG;
    }
    if !j.scriptExists {
      return sent, ERR_SCRIPT_MISSING;
    }
    sent := sent + [2];
    var progress, crashed := ForwardProgress(j.readings, j.finalReading);
    ghost var running := [1, 2] + progress;
    sent := sent + progress;
    assert sent == running;
    if crashed {
      return sent, CRASH;
    }
    if j.returncode != 0 {
      return sent, ExitStatus(j.returncode);
    }
    var flag := ParseFlag(j.flagOutput);
    if flag.None? {
      return sent, ERR_RESULTS;
    }
    sent := sent + [9];
    if flag.value == 1 && !j.tarOk {
      return sent, ERR_RESULTS;
    }
    if Neither in j.outputs {
      return sent, ERR_RESULTS;
    }
    sent := sent + [0, flag.value];
    assert sent == running + [9, 0, flag.value];
    status := 0;
  }

  /** A worker's sends end with 0 and then the flag (0 or 1) exactly when it exits 0, and
      no other send is 0. */
  predicate ProperEnding(o: Outcome) {
    var n := |o.sent|;
    && (o.status == 0 <==> n >= 2 && o.sent[n - 2] == 0)
    && (o.status == 0 ==> (o.sent[n - 1] == 0 || o.sent[n - 1] == 1) && 0 !in o.sent[..n - 2])
    && (o.status != 0 ==> 0 !in o.sent)
  }

  lemma EndingOf(running: seq<int>, more: seq<int>, status: int)
    requires 0 !in running
    requires status == 0 ==> exists f :: (f == 0 || f == 1) && more == [9, 0, f]
    requires status != 0 ==> 0 !in more
    ensures ProperEnding(Outcome(running + more, status))
  {
    var s := running + more;
    if status == 0 {
      var f :| (f == 0 || f == 1) && more == [9, 0, f];
      assert s[..|s| - 2] == running + [9];
    } else {
      assert forall x :: x in s ==> x in running || x in more;
    }
  }

  /** The sends and status of a job whose setup succeeded and whose assessment returned 0. */
  lemma RunCompleted(j: JobRun, p: Progress)
    requires SetupFailure(j).None? && !p.crashed && j.returncode == 0
    ensures Run(j, p) == Outcome([1, 2] + p.sent + Completion(j).0, Completion(j).1)
  {
  }

  /** The completion tail holds for every progress stream the polling loop can forward. */
  lemma CompletionTail(j: JobRun, p: Progress)
    requires IsReturnCode(j.returncode) && IncreasingAbove(p.sent, 2)
    ensures ProperEnding(Run(j, p))
  {
    if SetupFailure(j).Some? {
      EndingOf([1], [], SetupFailure(j).value);
    } else {
      var running := [1, 2] + p.sent;
      assert 0 !in running;
      if p.crashed {
        EndingOf(running, [], CRASH);
      } else if j.returncode != 0 {
        EndingOf(running, [], ExitStatus(j.returncode));
      } else {
        RunCompleted(j, p);
        var (more, status) := Completion(j);
        if status == 0 {
          assert more == [9, 0, more[2]];
        }
        EndingOf(running, more, status);
      }
    }
  }

  /** A job that exits 0 reports flag 0 exactly when get_performanceFlag.awk printed "0". */
  lemma FlagMeaning(j: JobRun, p: Progress)
    requires IsReturnCode(j.returncode) && Run(j, p).status == 0
    ensures var o := Run(j, p); o.sent[|o.sent| - 1] == 0 <==> Strip(j.flagOutput) == "0"
  {
    assert SetupFailure(j).None? && !p.crashed && j.returncode == 0;
    RunCompleted(j, p);
    var f := ParseFlag(j.flagOutput).value;
    assert Completion(j).0 == [9, 0, f];
  }

  /** The statuses a worker can end with. */
  lemma ExitStatuses(j: JobRun, p: Progress)
    ensures var s := Run(j, p).status;
      s in {0, CRASH, ERR_MODEL_MISSING, ERR_SCRIPT_MISSING, ERR_NO_CFG, ERR_MANY_CFG, ERR_EXTRACT, ERR_RESULTS}
      || s == ExitStatus(j.returncode)
  {
  }

  /** Once the assessment starts, the sends are 1, 2, the progress stream, and then the tail. */
  lemma ProgressIncreasing(j: JobRun, p: Progress)
    requires SetupFailure(j).None? && IncreasingAbove(p.sent, 2)
    ensures var o := Run(j, p);
      |o.sent| >= 2 + |p.sent| && o.sent[..2 + |p.sent|] == [1, 2] + p.sent
      && forall k, l :: 1 <= k < l < 2 + |p.sent| ==> o.sent[k] < o.sent[l]
  {
    var running := [1, 2] + p.sent;
    var o := Run(j, p);
    assert o.sent[..|running|] == running;
    forall k, l | 1 <= k < l < |running| ensures o.sent[k] < o.sent[l] {
      assert o.sent[k] == running[k] && o.sent[l] == running[l];
      if k >= 2 {
        assert running[k] == p.sent[k - 2] && running[l] == p.sent[l - 2];
      }
    }
  }

  /** The whole job: its sends end with 0 and the flag exactly when it exits 0. */
  lemma JobCompletionTail(j: JobRun)
    requires IsReturnCode(j.returncode)
    ensures ProperEnding(Expected(j))
  {
    ProgressOfIncreasing(j.readings, j.finalReading);
    CompletionTail(j, ProgressOf(j.readings, j.finalReading));
  }

  // ---------------------------------------------------------------- the undated job (lines 75-81, 173-176)

  /** runJob as written: `curDateTime` is assigned under `if b_debug:` (line 77) and again at
      line 315, so it is local to runJob, and without the debug switch the preamble's
      `curDateTime.strftime` (line 175) raises UnboundLocalError once the cfg file is found;
      the worker process then exits 1. */
  function RunAsWritten(j: JobRun, p: Progress): Outcome {
    if ModelFailure(j).None? && !j.debug then Outcome([1], CRASH) else Run(j, p)
  }

  /** As written, a job whose model is ready but that runs without the debug switch sends only
      1 and crashes, where the dated job goes on to its assessment script. */
  lemma UndatedJobCrashes(j: JobRun, p: Progress)
    requires ModelFailure(j).None? && !j.debug
    ensures RunAsWritten(j, p) == Outcome([1], CRASH)
    ensures j.scriptExists ==> |Run(j, p).sent| >= 2 && Run(j, p).sent[..2] == [1, 2]
    ensures !j.scriptExists ==> Run(j, p) == Outcome([1], ERR_SCRIPT_MISSING)
  {
  }

  /** With the debug switch the job as written is the job of Run; Run itself, which dates every
      job, does not depend on the switch. */
  lemma DatedJobAsWritten(j: JobRun, p: Progress)
    ensures j.debug ==> RunAsWritten(j, p) == Run(j, p)
    ensures Run(j.(debug := !j.debug), p) == Run(j, p)
  {
  }
}
