/**
 * The dispatcher of scripts/main.py: each dispatch cycle maps every queue row's
 * `result` code, together with what the dispatcher can observe about the job's
 * worker process, onto the code written back to the queue. Running workers are
 * tracked in two tables keyed by job ID, `dict_proc` (the Process objects) and
 * `dict_pipe` (the receiving and sending ends of each worker's Pipe).
 *
 * Processes, pipes, the kill marker and the clock are not simulated: what one
 * reconciliation observes of them is given as a `Probe`.
 */
module Dispatch {
  import opened Wrappers

  type JobId = int

  // Queue `result` codes (the legend at scripts/main.py:660-672).
  const RUN_REQUESTED := 0
  const RUNNING := 1
  const FAILED := 2            // complete, performance flag 1
  const PASSED := 3            // complete, performance flag 0
  const CANCEL_REQUESTED := 7
  const CANCELLED := 8
  const JOB_ERROR := 9

  /** 1 (running) or 11..19 (running with progress indicator). */
  predicate IsRunningCode(c: int) {
    c == RUNNING || (10 < c < 20)
  }

  /** A `multiprocessing.Process` kept in `dict_proc`. */
  datatype ProcHandle = ProcHandle(pid: nat)

  /** The `(con, sender)` pair kept in `dict_pipe`. */
  datatype PipeHandle = PipeHandle(channel: nat)

  /** What one reconciliation observes of a job's worker and working directory. */
  datatype Probe = Probe(
    killMarker: bool,       // isfile(getJobDir(jobID) + '/kill.it')
    alive: bool,            // proc.is_alive() when first asked
    buffered: seq<int>,     // the values waiting in the pipe, oldest first
    writerClosed: bool,     // every send end is closed: a receive past `buffered` raises EOFError
    aliveAfterWait: bool,   // proc.is_alive() after the half-second recheck
    lateFlag: Option<int>,  // a value that reached the pipe during that half second
    exitcode: int,          // proc.exitcode once the process is dead
    aliveChecks: nat        // after proc.terminate(), how many liveness checks still see it alive
  )

  /** What reconciling one row did to the job's worker process. */
  datatype Effect =
    | NoEffect
    | Spawned                           // a new Pipe and Process, started and registered
    | KilledWithFire                    // killItWithFire: SIGKILL, job directory removed, entries deleted
    | Terminated(checks: nat, zombie: bool)  // proc.terminate() and the bounded wait for it to exit
    | Reaped                            // pipe closed and entries deleted; the process had finished

  /** How one reconciliation changes the two tables. */
  datatype Registration = Keep | Register | Unregister

  datatype Decision = Decision(write: Option<int>, effect: Effect, registration: Registration)

  // ---------------------------------------------------------------- specification

  /** What `i_tmp` holds after receiving every value of `signals`, starting from `init`. */
  function LastOr(signals: seq<int>, init: int): int {
    if signals == [] then init else signals[|signals| - 1]
  }

  /** The meaning of a performance flag: 0 passes, 1 fails, anything else is an error. */
  function FlagCode(flag: int): (c: int)
    ensures c == PASSED <==> flag == 0
    ensures c == FAILED <==> flag == 1
    ensures c == PASSED || c == FAILED || c == JOB_ERROR
  {
    if flag == 0 then PASSED else if flag == 1 then FAILED else JOB_ERROR
  }

  /** A registered running job whose worker is alive (scripts/main.py:760-820), as intended:
      when the worker is still alive after the recheck it is killed and the job errored. */
  function AlivePoll(p: Probe): Decision {
    var last := LastOr(p.buffered, -1);
    if 0 in p.buffered then
      if p.aliveAfterWait then Decision(Some(JOB_ERROR), KilledWithFire, Unregister)
      else if p.exitcode != 0 then Decision(Some(JOB_ERROR), Reaped, Unregister)
      else
        // a missing flag after a final 0 is logged, yet the code still ends as for flag 0
        var flag := if last == 0 then p.lateFlag.GetOr(0) else last;
        Decision(Some(FlagCode(flag)), Reaped, Unregister)
    else if 0 < last < 10 then Decision(Some(10 + last), NoEffect, Keep)
    else if last == -1 then Decision(None, NoEffect, Keep)
    else Decision(Some(JOB_ERROR), KilledWithFire, Unregister)
  }

  /** A registered running job whose worker is dead (scripts/main.py:821-857). */
  function DeadPoll(p: Probe): int {
    if 0 in p.buffered && p.exitcode == 0 then FlagCode(LastOr(p.buffered, -1)) else JOB_ERROR
  }

  /** A cancel request for a job whose worker is already dead (scripts/main.py:908-944):
      completion is recognised on the value 4, and `i_tmp` starts at 0. */
  function CancelDeadPoll(p: Probe): int {
    if 4 in p.buffered && p.exitcode == 0 then FlagCode(LastOr(p.buffered, 0)) else JOB_ERROR
  }

  /** The zombie wait: the number of liveness checks and whether the process was given up on. */
  function TerminateEffect(aliveChecks: nat): Effect {
    if aliveChecks > 50 then Terminated(51, true) else Terminated(aliveChecks + 1, false)
  }

  /** The reconciliation of one queue row (scripts/main.py:587-954), as a decision table over
      the row's code, whether the job is registered, and the probe. */
  function Expected(registered: bool, code: Option<int>, fetchFailed: bool, p: Probe): Decision {
    if fetchFailed then Decision(Some(JOB_ERROR), NoEffect, Keep)
    else if code.None? then Decision(None, NoEffect, Keep)
    else if code.value == RUN_REQUESTED then
      if registered then Decision(Some(RUNNING), NoEffect, Keep)
      else Decision(Some(RUNNING), Spawned, Register)
    else if IsRunningCode(code.value) then
      if !registered then
        if p.killMarker then Decision(Some(CANCELLED), NoEffect, Keep)
        else Decision(None, Spawned, Register)
      else if p.killMarker then Decision(Some(CANCELLED), KilledWithFire, Unregister)
      else if p.alive then AlivePoll(p)
      else Decision(Some(DeadPoll(p)), Reaped, Unregister)
    else if code.value == CANCEL_REQUESTED then
      if !registered then Decision(Some(CANCELLED), NoEffect, Keep)
      else if p.alive then Decision(Some(CANCELLED), TerminateEffect(p.aliveChecks), Unregister)
      else Decision(Some(CancelDeadPoll(p)), Reaped, Unregister)
    else Decision(None, NoEffect, Keep)
  }

  /** The registered set after one decision. */
  function Registered(reg: set<JobId>, id: JobId, r: Registration): set<JobId> {
    match r
    case Keep => reg
    case Register => reg + {id}
    case Unregister => reg - {id}
  }

  datatype Row = Row(id: JobId, code: Option<int>, fetchFailed: bool)

  /** The writes of a dispatch cycle over `rows`, in list order, the registered set after it,
      and the jobs it starts a worker for, in order. */
  function Cycle(reg: set<JobId>, rows: seq<Row>, probes: seq<Probe>): (seq<(JobId, int)>, set<JobId>, seq<JobId>)
    requires |probes| == |rows|
  {
    if rows == [] then ([], reg, [])
    else
      var n := |rows| - 1;
      var (writes, reg', started) := Cycle(reg, rows[..n], probes[..n]);
      var d := Expected(rows[n].id in reg', rows[n].code, rows[n].fetchFailed, probes[n]);
      (if d.write.Some? then writes + [(rows[n].id, d.write.value)] else writes,
       Registered(reg', rows[n].id, d.registration),
       if d.registration == Register then started + [rows[n].id] else started)
  }

  /** A row that can start a worker: its details were fetched and it asks to run or is running. */
  predicate AsksForWorker(r: Row) {
    !r.fetchFailed && r.code.Some? && (r.code.value == RUN_REQUESTED || IsRunningCode(r.code.value))
  }

  /** A worker is started only for an unregistered job whose row asks for one, and always
      for an unregistered run request. */
  lemma StartsOnlyAsked(registered: bool, code: Option<int>, fetchFailed: bool, p: Probe)
    ensures Expected(registered, code, fetchFailed, p).registration == Register <==>
      && !registered && AsksForWorker(Row(0, code, fetchFailed))
      && (code.value != RUN_REQUESTED ==> !p.killMarker)
  {
  }

  /** Every job of `started` has a row that asks for a worker. */
  predicate AllAsked(started: seq<JobId>, rows: seq<Row>) {
    forall k :: 0 <= k < |started| ==> AskedFor(started[k], rows)
  }

  /** Some row of `rows` for job `id` asks for a worker. */
  predicate AskedFor(id: JobId, rows: seq<Row>) {
    exists i :: 0 <= i < |rows| && rows[i].id == id && AsksForWorker(rows[i])
  }

  /** A cycle starts at most one worker per row, each for a job whose row asks for one. */
  lemma {:induction false} CycleStartsAsked(reg: set<JobId>, rows: seq<Row>, probes: seq<Probe>)
    requires |probes| == |rows|
    ensures |Cycle(reg, rows, probes).2| <= |rows| && AllAsked(Cycle(reg, rows, probes).2, rows)
  {
    if rows != [] {
      var n := |rows| - 1;
      CycleStartsAsked(reg, rows[..n], probes[..n]);
      var (writes, reg', started) := Cycle(reg, rows[..n], probes[..n]);
      var d := Expected(rows[n].id in reg', rows[n].code, rows[n].fetchFailed, probes[n]);
      StartsOnlyAsked(rows[n].id in reg', rows[n].code, rows[n].fetchFailed, probes[n]);
      var all := Cycle(reg, rows, probes).2;
      assert all == if d.registration == Register then started + [rows[n].id] else started;
      forall k | 0 <= k < |all|
        ensures AskedFor(all[k], rows)
      {
        if k < |started| {
          var i :| 0 <= i < n && rows[..n][i].id == started[k] && AsksForWorker(rows[..n][i]);
          assert rows[i] == rows[..n][i];
        } else {
          assert rows[n].id == all[k];
        }
      }
      assert AllAsked(all, rows);
    }
  }

  /** The codes a reconciliation can write. */
  predicate IsWrittenCode(c: int) {
    c == RUNNING || c == FAILED || c == PASSED || c == CANCELLED || c == JOB_ERROR || 10 < c < 20
  }

  /** Every write is a queue code; a running job is never moved back to "run requested". */
  lemma ExpectedWritesCodes(registered: bool, code: Option<int>, fetchFailed: bool, p: Probe)
    ensures var d := Expected(registered, code, fetchFailed, p);
      d.write.Some? ==> IsWrittenCode(d.write.value)
  {
  }

  /** A quiet poll of a running job changes nothing and writes nothing, so it may be repeated. */
  lemma QuietPollIsIdempotent(c: int, p: Probe)
    requires IsRunningCode(c) && !p.killMarker && p.alive && p.buffered == []
    ensures Expected(true, Some(c), false, p) == Decision(None, NoEffect, Keep)
  {
  }

  /** Every write of a cycle is a queue code, and a cycle writes at most once per row. */
  lemma {:induction false} CycleWritesCodes(reg: set<JobId>, rows: seq<Row>, probes: seq<Probe>)
    requires |probes| == |rows|
    ensures var writes := Cycle(reg, rows, probes).0;
      |writes| <= |rows| && forall k :: 0 <= k < |writes| ==> IsWrittenCode(writes[k].1)
  {
    if rows != [] {
      var n := |rows| - 1;
      CycleWritesCodes(reg, rows[..n], probes[..n]);
      var (writes, reg', _) := Cycle(reg, rows[..n], probes[..n]);
      var d := Expected(rows[n].id in reg', rows[n].code, rows[n].fetchFailed, probes[n]);
      ExpectedWritesCodes(rows[n].id in reg', rows[n].code, rows[n].fetchFailed, probes[n]);
      if d.write.Some? {
        assert Cycle(reg, rows, probes).0 == writes + [(rows[n].id, d.write.value)];
      }
    }
  }

  /** Python's `del m[k]`: None where it raises KeyError. */
  function Del<V>(m: map<JobId, V>, k: JobId): (r: Option<map<JobId, V>>)
    ensures r.Some? <==> k in m
    ensures r.Some? ==> r.value == m - {k}
  {
    if k in m then Some(m - {k}) else None
  }

  /** The two tables at the end of the alive branch once a 0 was drained, as written
      (scripts/main.py:778-809): when the worker is still alive after the recheck,
      killItWithFire has already deleted both entries, and the deletions at 808-809 run
      regardless. None is the KeyError they raise, which ends the dispatcher before the
      queue is written. */
  function AliveDoneTablesAsWritten(procs: map<JobId, ProcHandle>, pipes: map<JobId, PipeHandle>,
                                    id: JobId, aliveAfterWait: bool)
    : Option<(map<JobId, ProcHandle>, map<JobId, PipeHandle>)>
  {
    var procs1 := if aliveAfterWait then procs - {id} else procs;
    var pipes1 := if aliveAfterWait then pipes - {id} else pipes;
    match Del(procs1, id)
    case None => None
    case Some(procs2) =>
      match Del(pipes1, id)
      case None => None
      case Some(pipes2) => Some((procs2, pipes2))
  }

  /** As written, a worker still alive after sending 0 crashes the dispatcher; one that has
      exited is simply unregistered. */
  lemma AliveDoneAsWrittenCrashes(procs: map<JobId, ProcHandle>, pipes: map<JobId, PipeHandle>, id: JobId)
    requires id in procs && id in pipes
    ensures AliveDoneTablesAsWritten(procs, pipes, id, true) == None
    ensures AliveDoneTablesAsWritten(procs, pipes, id, false) == Some((procs - {id}, pipes - {id}))
  {
  }

  /** As intended, that worker is killed, unregistered and the job errored. */
  lemma AliveAfterExitSignalIsKilled(p: Probe)
    requires 0 in p.buffered && p.aliveAfterWait
    ensures AlivePoll(p) == Decision(Some(JOB_ERROR), KilledWithFire, Unregister)
  {
  }

  // ---------------------------------------------------------------- the loops

  /** A `while con.poll(): i_tmp = con.recv()` drain (765-773, 827-837, 914-924): receives every
      buffered value, flags `done` on `doneMark`; past the buffer a closed pipe raises EOFError,
      which is trapped and ends the drain with the previous value. */
  method Drain(buffered: seq<int>, writerClosed: bool, init: int, doneMark: int)
    returns (last: int, done: bool, received: nat)
    ensures last == LastOr(buffered, init)
    ensures done <==> doneMark in buffered
    ensures received == |buffered|
  {
    last, done, received := init, false, 0;
    var faulted := false;
    while !faulted && (received < |buffered| || writerClosed)
      invariant received <= |buffered|
      invariant last == LastOr(buffered[..received], init)
      invariant done <==> doneMark in buffered[..received]
      invariant faulted ==> received == |buffered|
      decreases |buffered| - received, if faulted then 0 else 1
    {
      var prev := last;
      if received < |buffered| {
        last := buffered[received];
        assert buffered[..received + 1] == buffered[..received] + [last];
        received := received + 1;
        if last == doneMark {
          done := true;
        }
      } else {
        // EOFError: keep the previous value and leave the loop
        last := prev;
        faulted := true;
      }
    }
    assert buffered[..received] == buffered;
  }

  /** The wait after proc.terminate() (892-900): one liveness check, then a check every 0.1 s,
      giving up once `slept > 50`. */
  method AwaitExit(aliveChecks: nat) returns (checks: nat, slept: nat, zombie: bool)
    ensures zombie <==> aliveChecks > 50
    ensures checks <= 51
    ensures slept == if zombie then 51 else aliveChecks
    ensures checks == if zombie then 51 else aliveChecks + 1
  {
    checks, slept, zombie := 1, 0, false;
    var alive := checks <= aliveChecks;
    while alive
      invariant slept <= 50 && checks == slept + 1 && slept <= aliveChecks
      invariant alive == (checks <= aliveChecks)
      decreases 51 - slept
    {
      slept := slept + 1;
      if slept > 50 {
        zombie := true;
        break;
      }
      checks := checks + 1;
      alive := checks <= aliveChecks;
    }
  }

  // ---------------------------------------------------------------- the dispatcher

  class Dispatcher {
    var procs: map<JobId, ProcHandle>   // dict_proc
    var pipes: map<JobId, PipeHandle>   // dict_pipe
    var nextHandle: nat                 // how many processes have been created
    var started: seq<JobId>             // the job of every Process.start(), in order

    /** Both tables have the same keys, every registered job has its own process, and each
        pipe belongs with the process it was created with. */
    ghost predicate Valid()
      reads this
    {
      && procs.Keys == pipes.Keys
      && (forall id :: id in procs ==> procs[id].pid < nextHandle && pipes[id].channel == procs[id].pid)
      && (forall a, b :: a in procs && b in procs && a != b ==> procs[a] != procs[b])
    }

    constructor ()
      ensures Valid()
      ensures procs == map[] && pipes == map[] && started == [] && nextHandle == 0
    {
      procs, pipes, nextHandle, started := map[], map[], 0, [];
    }

    /** Open a pipe, start a worker for `id` and register both ends (699-708, 738-747). */
    method Spawn(id: JobId)
      requires Valid()
      modifies this
      ensures Valid()
      ensures procs == old(procs)[id := ProcHandle(old(nextHandle))]
      ensures pipes == old(pipes)[id := PipeHandle(old(nextHandle))]
      ensures started == old(started) + [id] && nextHandle == old(nextHandle) + 1
    {
      procs := procs[id := ProcHandle(nextHandle)];
      pipes := pipes[id := PipeHandle(nextHandle)];
      started := started + [id];
      nextHandle := nextHandle + 1;
    }

    /** killItWithFire (520-528): SIGKILL the worker, remove its job directory, close both
        pipe ends and delete both entries. Assumes the job is registered. */
    method KillItWithFire(id: JobId)
      requires Valid() && id in procs && id in pipes
      modifies this
      ensures Valid()
      ensures procs == old(procs) - {id} && pipes == old(pipes) - {id}
      ensures started == old(started) && nextHandle == old(nextHandle)
    {
      procs := procs - {id};
      pipes := pipes - {id};
    }

    /** Reconcile one queue row: `code` is its `result` column, `fetchFailed` says that one of
        the model, estate or preset queries failed, and `write` is the code passed to
        sql_update (None when there is no write). */
    method Reconcile(id: JobId, code: Option<int>, fetchFailed: bool, p: Probe)
      returns (write: Option<int>, effect: Effect)
      requires Valid()
      modifies this
      ensures Valid()
      ensures var d := Expected(id in old(procs), code, fetchFailed, p);
        && write == d.write && effect == d.effect
        && (d.registration == Keep ==>
              procs == old(procs) && pipes == old(pipes)
              && started == old(started) && nextHandle == old(nextHandle))
        && (d.registration == Register ==>
              procs == old(procs)[id := ProcHandle(old(nextHandle))]
              && pipes == old(pipes)[id := PipeHandle(old(nextHandle))]
              && started == old(started) + [id] && nextHandle == old(nextHandle) + 1)
        && (d.registration == Unregister ==>
              procs == old(procs) - {id} && pipes == old(pipes) - {id}
              && started == old(started) && nextHandle == old(nextHandle))
    {
      effect := NoEffect;
      if fetchFailed {
        write := Some(JOB_ERROR);
        return;
      }
      if code.None? {
        write := None;
        return;
      }
      var c := code.value;
      var update := -1;
      if c == RUN_REQUESTED {
        if id in procs {
          write := Some(RUNNING);
          return;
        }
        Spawn(id);
        effect := Spawned;
        update := RUNNING;
      } else if IsRunningCode(c) {
        if !(id in procs && id in pipes) {
          if p.killMarker {
            write := Some(CANCELLED);
            return;
          }
          Spawn(id);
          effect := Spawned;
          write := None;
          return;
        }
        if p.killMarker {
          KillItWithFire(id);
          effect := KilledWithFire;
          write := Some(CANCELLED);
          return;
        }
        if p.alive {
          var last, done, _ := Drain(p.buffered, false, -1, 0);
          if done {
            if p.aliveAfterWait {
              KillItWithFire(id);
              effect := KilledWithFire;
              update := JOB_ERROR;
            } else {
              if p.exitcode == 0 {
                if last == 0 {
                  if p.lateFlag.Some? {
                    last := p.lateFlag.value;
                  } else {
                    update := JOB_ERROR;
                  }
                }
                if last == 0 {
                  update := PASSED;
                } else if last == 1 {
                  update := FAILED;
                } else {
                  update := JOB_ERROR;
                }
              } else {
                update := JOB_ERROR;
              }
              effect := Reaped;
              procs := procs - {id};
              pipes := pipes - {id};
            }
          } else if 0 < last < 10 {
            update := 10 + last;
          } else if last == -1 {
            update := 0;
          } else {
            KillItWithFire(id);
            effect := KilledWithFire;
            update := JOB_ERROR;
          }
        } else {
          var last, done, _ := Drain(p.buffered, p.writerClosed, -1, 0);
          if done && p.exitcode == 0 {
            update := if last == 0 then PASSED else if last == 1 then FAILED else JOB_ERROR;
          } else {
            update := JOB_ERROR;
          }
          effect := Reaped;
          procs := procs - {id};
          pipes := pipes - {id};
        }
      } else if c == CANCEL_REQUESTED {
        if !(id in procs && id in pipes) {
          write := Some(CANCELLED);
          return;
        }
        if p.alive {
          var checks, _, zombie := AwaitExit(p.aliveChecks);
          effect := Terminated(checks, zombie);
          procs := procs - {id};
          pipes := pipes - {id};
          update := CANCELLED;
        } else {
          var last, done, _ := Drain(p.buffered, p.writerClosed, 0, 4);
          if done && p.exitcode == 0 {
            update := if last == 0 then PASSED else if last == 1 then FAILED else JOB_ERROR;
          } else {
            update := JOB_ERROR;
          }
          effect := Reaped;
          procs := procs - {id};
          pipes := pipes - {id};
        }
      }
      write := if update > 0 then Some(update) else None;
    }

    /** One dispatch cycle over the listed rows (584-954); `connected` is false when the
        connection or the job listing failed, and the cycle is then skipped. */
    method DispatchCycle(connected: bool, rows: seq<Row>, probes: seq<Probe>)
      returns (writes: seq<(JobId, int)>)
      requires Valid() && |probes| == |rows|
      modifies this
      ensures Valid()
      ensures !connected ==>
        && writes == [] && procs == old(procs) && pipes == old(pipes)
        && started == old(started) && nextHandle == old(nextHandle)
      ensures connected ==> var c := Cycle(old(procs.Keys), rows, probes);
        && writes == c.0 && procs.Keys == c.1
        && started == old(started) + c.2 && nextHandle == old(nextHandle) + |c.2|
    {
      writes := [];
      if !connected {
        return;
      }
      ghost var reg0, started0, next0 := procs.Keys, started, nextHandle;
      var i := 0;
      while i < |rows|
        invariant 0 <= i <= |rows|
        invariant Valid()
        invariant var c := Cycle(reg0, rows[..i], probes[..i]);
          && writes == c.0 && procs.Keys == c.1
          && started == started0 + c.2 && nextHandle == next0 + |c.2|
      {
        var row := rows[i];
        assert rows[..i + 1][..i] == rows[..i] && probes[..i + 1][..i] == probes[..i];
        ghost var before, startedBefore := procs.Keys, started;
        ghost var d := Expected(row.id in procs, row.code, row.fetchFailed, probes[i]);
        var w, _ := Reconcile(row.id, row.code, row.fetchFailed, probes[i]);
        assert procs.Keys == Registered(before, row.id, d.registration);
        assert started == if d.registration == Register then startedBefore + [row.id] else startedBefore;
        if w.Some? {
          writes := writes + [(row.id, w.value)];
        }
        i := i + 1;
      }
      assert rows[..i] == rows && probes[..i] == probes;
    }
  }
}
