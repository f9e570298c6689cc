/** The manager of the service under test: the code inside its lock, and the part of stop that runs
    after the lock is given back. What concurrent calls can do to each other is the subject of module
    SutOwnership; here the exit of a process may show up in its channel at any time. */
module SutManager {
  import opened SutTypes
  import SutReady

  datatype StartTime = Zero | At(time: int)

  datatype Error =
    | NoError
    | PlanError(code: nat)             // no command, no workdir, no log file, or it cannot be started
    | SetupError                       // started, but its process control could not be set up
    | NotReady(verdict: SutReady.Verdict)
    | ExitError(code: nat)
    | ContextDone

  /** What a receive finds: nothing yet, the exit result (0 stands for success), or the end. */
  datatype Receipt = NothingYet | Value(code: nat) | Ended

  datatype Stage = Waiting | Sent | Closed

  /** The channel with room for one exit result, and how far the goroutine that fills it has come. */
  class ExitChannel {
    var stage: Stage
    var buffer: seq<nat>
    ghost var received: nat

    /** The result is sent once, so it is received at most once. */
    ghost predicate Valid()
      reads this
    {
      received + |buffer| == if stage.Waiting? then 0 else 1
    }

    constructor ()
      ensures Valid() && stage == Waiting
    {
      stage, buffer, received := Waiting, [], 0;
    }

    /** A receive would not block. */
    predicate Readable()
      reads this
    {
      buffer != [] || stage.Closed?
    }

    /** The goroutine goes on until a receive does not block: it reports the exit, for which there is
        room, or closes the channel. */
    method WaiterReports()
      requires Valid()
      modifies this
      ensures Valid() && received == old(received) && Readable()
      ensures !old(stage).Waiting? ==> buffer == old(buffer)
    {
      var code: nat := *;
      if stage.Waiting? {
        buffer, stage := [code], Sent;
      } else if buffer == [] {
        stage := Closed;
      }
    }

    method TryReceive() returns (r: Receipt)
      requires Valid()
      modifies this
      ensures Valid() && stage == old(stage)
      ensures r == if old(buffer) != [] then Value(old(buffer)[0]) else if stage.Closed? then Ended else NothingYet
      ensures r.NothingYet? ==> unchanged(this)
      ensures !r.NothingYet? ==> buffer == [] && !stage.Waiting?
    {
      if |buffer| > 0 {
        r := Value(buffer[0]);
        buffer := buffer[1..];
        received := received + 1;
      } else {
        r := if stage == Closed then Ended else NothingYet;
      }
    }
  }

  /** The processes spawned so far have the numbers below `next`; some were told to terminate by force. */
  class Processes {
    var next: ProcId
    ghost var killed: set<ProcId>

    constructor ()
      ensures next == 0 && killed == {}
    {
      next, killed := 0, {};
    }

    method Spawn() returns (p: ProcId)
      modifies this
      ensures p == old(next) && next == p + 1 && killed == old(killed)
    {
      p, next := next, next + 1;
    }

    method Kill(p: ProcId)
      modifies this
      ensures killed == old(killed) + {p} && next == old(next)
    {
      killed := killed + {p};
    }
  }

  const TERMINATE_WAIT := 5_000
  const DEFAULT_GRACE_PERIOD := 4_000

  /** Request the termination by force, and give the process some time to be waited for. The channel is
      readable from the moment `exit` on. */
  method TerminateProcess(procs: Processes, p: ProcId, ch: ExitChannel?, start: int, exit: SutReady.Moment)
    returns (now: int)
    requires ch != null ==> ch.Valid()
    modifies procs, ch
    ensures procs.killed == old(procs.killed) + {p} && procs.next == old(procs.next)
    ensures ch != null ==> ch.Valid()
    ensures start <= now <= start + TERMINATE_WAIT
    ensures ch != null && now < start + TERMINATE_WAIT ==> SutReady.Reached(exit, now) && !ch.stage.Waiting?
  {
    procs.Kill(p);
    if ch == null {
      return start;
    }
    now := if exit.At? && exit.time <= start then start else start + TERMINATE_WAIT;
    if exit.At? && exit.time < now {
      now := SutReady.NotBefore(start, exit);
    }
    if SutReady.Reached(exit, now) {
      ch.WaiterReports();
      var r := ch.TryReceive();
    }
  }

  /** The time that is configured, or four seconds. */
  function GracePeriod(configured: int): (grace: int)
    ensures grace > 0 && (configured > 0 ==> grace == configured) && (configured <= 0 ==> grace == 4_000)
  {
    if configured > 0 then configured else DEFAULT_GRACE_PERIOD
  }

  /** Why the second part of stop went on. */
  datatype StopCause = ExitNoticed | GraceOver | Cancelled

  /** How far the launch of a process gets before the readiness probe. */
  datatype Launch = NoCommand(code: nat) | NoSetup | Launched

  class Manager {
    const enabled: bool
    const procs: Processes
    var cmd: Ref
    var waitCh: ExitChannel?
    var startedAt: StartTime
    var restartCount: nat
    var lastErr: Error
    ghost var starts: nat              // successful starts so far

    ghost predicate Valid()
      reads this, procs, waitCh
    {
      && (cmd.Of? <==> waitCh != null)
      && (cmd.Of? ==> cmd.id < procs.next)
      && (waitCh != null ==> waitCh.Valid())
      // every start but the first is a restart
      && restartCount == (if starts == 0 then 0 else starts - 1)
      && (startedAt.Zero? <==> starts == 0)
    }

    constructor (enabled: bool, procs: Processes)
      ensures Valid() && this.enabled == enabled && this.procs == procs && cmd == Nil && starts == 0
    {
      this.enabled, this.procs := enabled, procs;
      cmd, waitCh, startedAt, restartCount, lastErr, starts := Nil, null, Zero, 0, NoError, 0;
    }

    /** The tracked process has reported its exit by now. */
    ghost predicate ExitIsIn()
      reads this, waitCh
    {
      waitCh != null && (waitCh.buffer != [] || waitCh.stage.Closed?)
    }

    method IsRunningLocked() returns (running: bool)
      requires Valid()
      modifies this, waitCh
      ensures Valid()
      ensures running == old(cmd.Of? && !ExitIsIn())
      ensures running ==> unchanged(this) && unchanged(waitCh)
      ensures !running ==> cmd == Nil
      ensures startedAt == old(startedAt) && restartCount == old(restartCount) && starts == old(starts)
      ensures lastErr == old(if waitCh != null && waitCh.buffer != [] && waitCh.buffer[0] != 0
                             then ExitError(waitCh.buffer[0]) else lastErr)
    {
      if cmd == Nil || waitCh == null {
        return false;
      }
      var r := waitCh.TryReceive();
      match r {
        case NothingYet =>
          return true;
        case Value(code) =>
          if code != 0 {
            lastErr := ExitError(code);
          }
        case Ended =>
      }
      cmd, waitCh := Nil, null;
      return false;
    }

    /** The middle part of starting: spawn a process and wait until it is ready. On failure the process,
        if there is one, has been told to terminate. */
    method LaunchLocked(launch: Launch, dials: (SutReady.Addr, int) -> SutReady.Dial, addrs: seq<SutReady.Addr>,
                        readyTimeout: int, start: int, exit: SutReady.Moment, cancel: SutReady.Moment)
      returns (p: Ref, ch: ExitChannel?, err: Error, now: int,
               ghost verdict: SutReady.Verdict, ghost probed: int, ghost rounds: nat)
      requires forall a, t :: 0 <= dials(a, t).took <= SutReady.DIAL_LIMIT
      modifies procs
      ensures p == (if err == NoError then Of(old(procs.next)) else Nil)
      ensures procs.next == (if launch.NoCommand? then old(procs.next) else old(procs.next) + 1)
      ensures procs.killed == (if launch.NoCommand? || err == NoError then old(procs.killed)
                               else old(procs.killed) + {old(procs.next)})
      ensures err == NoError ==> launch.Launched? && ch != null && fresh(ch) && ch.Valid() && now == probed
      ensures err == NoError ==> (ch.Readable() <==> SutReady.Reached(exit, now))
      ensures launch.Launched? ==>
                && SutReady.Outcome(dials, addrs, readyTimeout, start, exit, cancel, verdict, probed, rounds)
                && (err == NoError <==> verdict.Ready?)
      ensures start <= now <= start + SutReady.Longest(addrs, readyTimeout) + TERMINATE_WAIT
    {
      p, ch, now, verdict, probed, rounds := Nil, null, start, SutReady.TimedOut, start, 0;
      if launch.NoCommand? {
        err := PlanError(launch.code);
        return;
      }
      var id := procs.Spawn();
      if launch.NoSetup? {
        err := SetupError;
        now := TerminateProcess(procs, id, null, now, exit);
        return;
      }
      ch := new ExitChannel();
      var found;
      found, now, rounds := SutReady.WaitSUTReady(dials, addrs, readyTimeout, start, exit, cancel);
      verdict, probed := found, now;
      if SutReady.Reached(exit, now) {
        ch.WaiterReports();
      }
      if found.Ready? {
        p, err := Of(id), NoError;
        return;
      }
      err := NotReady(found);
      if found.ProcessExited? {
        var r := ch.TryReceive();
      }
      now := TerminateProcess(procs, id, ch, now, exit);
    }

    /** Start the service unless it runs, and wait until it is ready. On success exactly the new process
        is tracked, and it was found ready: all addresses answered in one single round, or without
        addresses it had not exited when the settling time was over. On failure nothing is tracked, and a
        process that was already spawned has been told to terminate. A process that is tracked and has
        not exited is never replaced. The manager's lock is held for a bounded time. The new channel is
        readable from the moment `exit` on. */
    method EnsureStarted(launch: Launch, dials: (SutReady.Addr, int) -> SutReady.Dial, addrs: seq<SutReady.Addr>,
                         readyTimeout: int, start: int, exit: SutReady.Moment, cancel: SutReady.Moment)
      returns (err: Error, now: int, ghost verdict: SutReady.Verdict, ghost probed: int, ghost rounds: nat)
      requires Valid()
      requires forall a, t :: 0 <= dials(a, t).took <= SutReady.DIAL_LIMIT
      modifies this, waitCh, procs
      ensures Valid()
      ensures !enabled || old(cmd.Of? && !ExitIsIn()) ==> err == NoError && unchanged(this) && unchanged(procs)
      ensures enabled && !old(cmd.Of? && !ExitIsIn()) ==>
                && (err == NoError ==> launch.Launched?)
                && procs.next == (if launch.NoCommand? then old(procs.next) else old(procs.next) + 1)
                && procs.killed == (if launch.NoCommand? || err == NoError then old(procs.killed)
                                    else old(procs.killed) + {old(procs.next)})
                && lastErr == err
                && cmd == (if err == NoError then Of(old(procs.next)) else Nil)
                && startedAt == (if err == NoError then At(now) else old(startedAt))
                && restartCount == old(restartCount) + (if err == NoError && !old(startedAt).Zero? then 1 else 0)
                && starts == old(starts) + (if err == NoError then 1 else 0)
                && (err == NoError ==> (ExitIsIn() <==> SutReady.Reached(exit, now)))
      ensures enabled && !old(cmd.Of? && !ExitIsIn()) && launch.Launched? ==>
                && SutReady.Outcome(dials, addrs, readyTimeout, start, exit, cancel, verdict, probed, rounds)
                && (err == NoError <==> verdict.Ready?) && (err == NoError ==> now == probed)
      ensures enabled && !old(cmd.Of? && !ExitIsIn()) && err == NoError && addrs != [] ==>
                SutReady.RoundSucceeds(dials, addrs, start, rounds)
      ensures start <= now <= start + SutReady.Longest(addrs, readyTimeout) + TERMINATE_WAIT
    {
      now, verdict, probed, rounds := start, SutReady.TimedOut, start, 0;
      err := NoError;
      if !enabled {
        return;
      }
      var running := IsRunningLocked();
      if running {
        return;
      }
      var p, ch;
      p, ch, err, now, verdict, probed, rounds := LaunchLocked(launch, dials, addrs, readyTimeout, start, exit, cancel);
      lastErr := err;
      if err != NoError {
        return;
      }
      if startedAt != Zero {
        restartCount := restartCount + 1;
      }
      cmd := p;
      waitCh := ch;
      startedAt := At(now);
      starts := starts + 1;
    }

    /** The part of stop under the lock: afterwards no process is tracked, and the caller has the one
        that was running, if any. */
    method TakeForStop() returns (p: Ref, ch: ExitChannel?)
      requires Valid()
      modifies this, waitCh
      ensures Valid()
      ensures !enabled ==> p == Nil && ch == null && unchanged(this)
      ensures enabled ==> cmd == Nil
      ensures enabled ==> p == (if old(cmd.Of? && !ExitIsIn()) then old(cmd) else Nil)
      ensures p.Of? <==> ch != null
      ensures ch != null ==> ch == old(waitCh) && ch.Valid()
      ensures startedAt == old(startedAt) && restartCount == old(restartCount) && starts == old(starts)
    {
      if !enabled {
        return Nil, null;
      }
      var running := IsRunningLocked();
      if !running {
        cmd, waitCh := Nil, null;
        return Nil, null;
      }
      p, ch := cmd, waitCh;
      cmd, waitCh := Nil, null;
    }

    /** The part of stop after the lock is given back: interrupt the process and wait for it, but not
        beyond the grace period or the caller's context. Whichever of the three comes first decides, at
        the same moment any of them. Unless its exit was noticed, the process has been told to terminate
        by force. The channel is readable from the moment `exit` on, whatever the reason for the exit. */
    method FinishStop(p: ProcId, ch: ExitChannel, grace: int, start: int, exit: SutReady.Moment, cancel: SutReady.Moment)
      returns (err: Error, now: int, ghost cause: StopCause)
      requires Valid() && ch.Valid() && ch != waitCh
      modifies this`lastErr, procs, ch
      ensures Valid() && ch.Valid() && procs.next == old(procs.next)
      ensures start <= now <= start + GracePeriod(grace) + TERMINATE_WAIT
      ensures cause.ExitNoticed? ==>
                && procs.killed == old(procs.killed) && err == NoError && lastErr == old(lastErr)
                && now <= start + GracePeriod(grace) && SutReady.Reached(exit, now) && !ch.stage.Waiting?
                && (now > start ==> !SutReady.Reached(exit, now - 1) && !SutReady.Reached(cancel, now - 1))
      ensures cause.GraceOver? ==>
                && procs.killed == old(procs.killed) + {p} && err == NoError && lastErr == old(lastErr)
                && now >= start + GracePeriod(grace)
                && !SutReady.Reached(exit, start + GracePeriod(grace) - 1)
                && !SutReady.Reached(cancel, start + GracePeriod(grace) - 1)
      ensures cause.Cancelled? ==>
                && procs.killed == old(procs.killed) + {p} && err == ContextDone && lastErr == ContextDone
                && SutReady.Reached(cancel, start + GracePeriod(grace)) && cancel.time <= now
                && (cancel.time > start ==> !SutReady.Reached(exit, cancel.time - 1))
    {
      now := start + GracePeriod(grace);
      cause := GraceOver;
      var exited, cancelled := false, false;
      var tie: bool := *;
      if exit.At? && (SutReady.NotBefore(start, exit) < now || (exit.time == now && tie)) {
        now, exited := SutReady.NotBefore(start, exit), true;
      }
      tie := *;
      if cancel.At? && (SutReady.NotBefore(start, cancel) < now || (SutReady.NotBefore(start, cancel) == now && tie)) {
        now, cancelled := SutReady.NotBefore(start, cancel), true;
      }
      if cancelled {
        cause := Cancelled;
        now := TerminateProcess(procs, p, ch, now, exit);
        lastErr := ContextDone;
        return ContextDone, now, cause;
      }
      if exited {
        cause := ExitNoticed;
        ch.WaiterReports();
        var r := ch.TryReceive();
        return NoError, now, cause;
      }
      now := TerminateProcess(procs, p, ch, now, exit);
      return NoError, now, cause;
    }
  }
}
