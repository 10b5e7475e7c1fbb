/**
 * The pipe protocol between a worker (module Worker) and the dispatcher (module
 * Dispatch): whatever the dispatcher drained in the cycles before, the values a
 * worker sends lead to the queue code that reports how the job ended.
 */
module Protocol {
  import opened Wrappers
  import opened PyText
  import opened Dispatch
  import opened Worker

  /** The code that reports a finished job: 3 when the flag text was "0", 2 when it was "1". */
  function ReportedCode(j: JobRun): int {
    if Strip(j.flagOutput) == "0" then PASSED else FAILED
  }

  /** Earlier cycles that drained `o.sent[..k]` have not yet seen the worker's 0. */
  predicate NotYetDone(o: Outcome, k: nat) {
    k <= |o.sent| && 0 !in o.sent[..k]
  }

  /** A job that has exited leaves the rest of its sends in the pipe; the dead poll then writes
      3 or 2 after a finished job, as the flag says, and 9 after any other exit. */
  lemma DeadPollReportsOutcome(j: JobRun, p: Progress, k: nat, probe: Probe)
    requires IsReturnCode(j.returncode) && IncreasingAbove(p.sent, 2)
    requires NotYetDone(Run(j, p), k)
    requires probe.buffered == Run(j, p).sent[k..] && probe.exitcode == Run(j, p).status
    ensures DeadPoll(probe) == if Run(j, p).status == 0 then ReportedCode(j) else JOB_ERROR
  {
    var o := Run(j, p);
    CompletionTail(j, p);
    if o.status == 0 {
      FlagMeaning(j, p);
      var n := |o.sent|;
      assert probe.buffered[n - 2 - k] == 0;
      assert LastOr(probe.buffered, -1) == o.sent[n - 1];
    }
  }

  /** As written, the dispatcher reports every undated job whose model is ready as a job
      error (9), whatever it drained before. */
  lemma UndatedJobIsJobError(j: JobRun, p: Progress, k: nat, probe: Probe)
    requires ModelFailure(j).None? && !j.debug && k <= 1
    requires probe.buffered == RunAsWritten(j, p).sent[k..] && probe.exitcode == RunAsWritten(j, p).status
    ensures DeadPoll(probe) == JOB_ERROR
  {
    UndatedJobCrashes(j, p);
  }

  /** Before its 0, a worker whose progress file only holds checkpoints below 10 sends only
      values from 1 to 9. */
  lemma SendsBeforeDone(j: JobRun, p: Progress, i: nat)
    requires IncreasingAbove(p.sent, 2) && forall v :: v in p.sent ==> v < 10
    requires i < |Run(j, p).sent| && 0 !in Run(j, p).sent[..i + 1]
    ensures 0 < Run(j, p).sent[i] < 10
  {
    var o := Run(j, p);
    assert o.sent[..i + 1][i] == o.sent[i];
    if SetupFailure(j).None? {
      var running := [1, 2] + p.sent;
      var more := if !p.crashed && j.returncode == 0 then Completion(j).0 else [];
      assert o.sent == running + more;
      if i < |running| {
        assert o.sent[i] == running[i];
        if i >= 2 {
          assert running[i] == p.sent[i - 2];
          assert p.sent[i - 2] in p.sent;
        }
      } else {
        assert o.sent[i] == more[i - |running|];
      }
    }
  }

  /** While the worker runs, every poll that drains some of its sends before the 0 writes
      10 plus the latest value, which is again a running code, provided the progress file
      only ever holds checkpoints below 10. */
  lemma RunningPollShowsProgress(j: JobRun, p: Progress, k: nat, m: nat, c: int, probe: Probe)
    requires IncreasingAbove(p.sent, 2) && forall v :: v in p.sent ==> v < 10
    requires k < m && NotYetDone(Run(j, p), m)
    requires IsRunningCode(c) && !probe.killMarker && probe.alive
    requires probe.buffered == Run(j, p).sent[k..m]
    ensures var code := 10 + Run(j, p).sent[m - 1];
      && Dispatch.Expected(true, Some(c), false, probe) == Decision(Some(code), NoEffect, Keep)
      && IsRunningCode(code)
  {
    var sent := Run(j, p).sent;
    assert sent[..m][..m] == sent[..m];
    assert sent[..m] == sent[..m - 1 + 1];
    SendsBeforeDone(j, p, m - 1);
    assert 0 !in probe.buffered by {
      assert forall x :: x in probe.buffered ==> x in sent[..m];
    }
    assert LastOr(probe.buffered, -1) == sent[m - 1];
  }

  /** The poll that drains the worker's 0 while it is still alive, after which the worker
      exits 0 within the half-second recheck: the flag, drained alongside or received just
      after, decides the code. */
  lemma AlivePollSeesCompletion(j: JobRun, p: Progress, k: nat, m: nat, probe: Probe)
    requires IsReturnCode(j.returncode) && IncreasingAbove(p.sent, 2)
    requires Run(j, p).status == 0
    requires NotYetDone(Run(j, p), k) && k <= |Run(j, p).sent| - 2 < m <= |Run(j, p).sent|
    requires probe.buffered == Run(j, p).sent[k..m]
    requires !probe.aliveAfterWait && probe.exitcode == 0
    requires m < |Run(j, p).sent| ==> probe.lateFlag == Some(Run(j, p).sent[m])
    requires m == |Run(j, p).sent| ==> probe.lateFlag.None?
    ensures AlivePoll(probe) == Decision(Some(ReportedCode(j)), Reaped, Unregister)
  {
    var o := Run(j, p);
    var n := |o.sent|;
    CompletionTail(j, p);
    FlagMeaning(j, p);
    assert probe.buffered[n - 2 - k] == 0;
    assert LastOr(probe.buffered, -1) == o.sent[m - 1];
  }

  /** As written, a cancel request that arrives after the worker has finished is recorded as
      a pass or a fail only when the value 4 is among the undrained sends; otherwise the
      finished job is recorded as an error. */
  lemma CancelAfterFinishAsWritten(j: JobRun, p: Progress, k: nat, probe: Probe)
    requires IsReturnCode(j.returncode) && IncreasingAbove(p.sent, 2)
    requires Run(j, p).status == 0 && NotYetDone(Run(j, p), k)
    requires probe.buffered == Run(j, p).sent[k..] && probe.exitcode == 0
    ensures 4 in probe.buffered ==> CancelDeadPoll(probe) == ReportedCode(j)
    ensures 4 !in probe.buffered ==> CancelDeadPoll(probe) == JOB_ERROR
  {
    var o := Run(j, p);
    var n := |o.sent|;
    CompletionTail(j, p);
    FlagMeaning(j, p);
    assert LastOr(probe.buffered, 0) == o.sent[n - 1];
  }
}
