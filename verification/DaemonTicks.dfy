/** The reaper's tick in the concurrent daemon refines the reaper's loop: its two timers say what the
    ticks that it has read say, so it stops the service and shuts down exactly where the loop would. */
module DaemonTicks {
  import opened DaemonCore
  import opened Leases
  import Reaper

  /** The tick has read everything, but the daemon's own timer is not looked at yet. */
  predicate HalfDecided(p: Phase) { p.StopSut? || p.IdleCheck? }

  predicate ShuttingDown(p: Phase) {
    p.ShutSut? || p.ShutInfra? || p.StoppingInfra? || p.ClearingFlag? || p.ShutHttp? || p.Down?
  }

  /** The part of the daemon that the reaper's timers are about. */
  datatype Clock = Clock(sutTTL: int, idleTTL: int, time: int, idleSince: Reaper.Timer, sutIdleSince: Reaper.Timer,
                         phase: Phase, ticks: seq<Reaper.Tick>)

  function ClockOf(s: Daemon): Clock {
    Clock(s.sutTTL, s.idleTTL, s.time, s.idleSince, s.sutIdleSince, s.phase, s.ticks)
  }

  /** How many ticks are settled: no shutdown was due at them. */
  function Settled(s: Clock): int {
    if HalfDecided(s.phase) || ShuttingDown(s.phase) then |s.ticks| - 1 else |s.ticks|
  }

  predicate Past(s: Clock, now: int) { s.ticks != [] ==> s.ticks[|s.ticks| - 1].now <= now }

  predicate LastIdle(s: Clock, now: int) {
    s.ticks != [] && s.ticks[|s.ticks| - 1].now == now && !Reaper.Busy(s.ticks[|s.ticks| - 1])
  }

  predicate TicksInv(s: Clock) {
    && Reaper.Ordered(s.ticks) && Past(s, s.time)
    && (match s.phase
        case Counting(now) => now <= s.time && Past(s, now)
        case CheckInFlight(now) => now <= s.time && Past(s, now)
        case StopSut(now) => now <= s.time && LastIdle(s, now)
        case IdleCheck(now) => now <= s.time && LastIdle(s, now)
        case Waiting => true
        case _ => s.ticks != [])
  }

  /** The timers say what the ticks say; the daemon's own lags behind by one until it is looked at. */
  predicate TimersInv(s: Clock) {
    && s.sutIdleSince == Reaper.IdleSince(s.ticks)
    && s.idleSince == Reaper.IdleSince(if HalfDecided(s.phase) && s.ticks != [] then s.ticks[..|s.ticks| - 1] else s.ticks)
  }

  predicate DueInv(s: Clock) {
    && (forall i :: 0 <= i < Settled(s) ==> !Reaper.Due(s.ticks, i, s.idleTTL))
    && (ShuttingDown(s.phase) && s.ticks != [] ==> Reaper.Due(s.ticks, |s.ticks| - 1, s.idleTTL))
    && (s.phase.StopSut? && s.ticks != [] ==> Reaper.Due(s.ticks, |s.ticks| - 1, s.sutTTL))
  }

  predicate Inv(s: Clock) {
    s.sutTTL > 0 && s.idleTTL > 0 && TicksInv(s) && TimersInv(s) && DueInv(s)
  }

  /** What one more tick does to the idle timer and to what is due. */
  lemma NextTick(ticks: seq<Reaper.Tick>, tick: Reaper.Tick, ttl: int)
    requires ttl > 0
    ensures Reaper.IdleSince(ticks + [tick]) ==
              if Reaper.Busy(tick) then Reaper.Zero
              else if Reaper.IdleSince(ticks).Zero? then Reaper.Since(tick.now) else Reaper.IdleSince(ticks)
    ensures forall i :: 0 <= i < |ticks| ==> Reaper.Due(ticks + [tick], i, ttl) == Reaper.Due(ticks, i, ttl)
    ensures Reaper.Due(ticks + [tick], |ticks|, ttl) <==>
              !Reaper.Busy(tick) && Elapsed(Reaper.IdleSince(ticks), tick.now, ttl)
  {
    forall i | 0 <= i < |ticks| ensures Reaper.IdleSpan(ticks + [tick], i) == Reaper.IdleSpan(ticks, i) {
      Reaper.SpanPrefix(ticks, [tick], i);
    }
    if ticks != [] {
      assert (ticks + [tick])[|ticks| - 1] == ticks[|ticks| - 1];
    }
  }

  predicate InTick(p: Phase) { p.Counting? || p.CheckInFlight? }

  /** What the read of a whole tick does to the timers and the phase. */
  function AfterTick(s: Clock, tick: Reaper.Tick): Clock {
    if Reaper.Busy(tick)
    then s.(idleSince := Reaper.Zero, sutIdleSince := Reaper.Zero, phase := Waiting, ticks := s.ticks + [tick])
    else s.(sutIdleSince := if s.sutIdleSince.Zero? then Reaper.Since(tick.now) else s.sutIdleSince,
            phase := if Elapsed(s.sutIdleSince, tick.now, s.sutTTL) then StopSut(tick.now) else IdleCheck(tick.now),
            ticks := s.ticks + [tick])
  }

  lemma TickKeepsTimers(s: Clock, tick: Reaper.Tick)
    requires Inv(s) && InTick(s.phase) && tick.now == s.phase.now
    ensures TicksInv(AfterTick(s, tick)) && TimersInv(AfterTick(s, tick))
  {
    NextTick(s.ticks, tick, s.sutTTL);
    assert (s.ticks + [tick])[..|s.ticks|] == s.ticks;
  }

  lemma TickKeepsDue(s: Clock, tick: Reaper.Tick)
    requires Inv(s) && InTick(s.phase) && tick.now == s.phase.now
    ensures DueInv(AfterTick(s, tick))
  {
    NextTick(s.ticks, tick, s.idleTTL);
    NextTick(s.ticks, tick, s.sutTTL);
  }

  lemma TickKeeps(s: Clock, tick: Reaper.Tick)
    requires Inv(s) && InTick(s.phase) && tick.now == s.phase.now
    ensures Inv(AfterTick(s, tick))
  {
    TickKeepsTimers(s, tick);
    TickKeepsDue(s, tick);
  }

  /** The look at the daemon's timer. */
  function AfterCheck(s: Clock): Clock
    requires s.phase.IdleCheck?
  {
    s.(idleSince := if s.idleSince.Zero? then Reaper.Since(s.phase.now) else s.idleSince,
       phase := if Elapsed(s.idleSince, s.phase.now, s.idleTTL) then ShutSut else Waiting)
  }

  lemma CheckKeeps(s: Clock)
    requires Inv(s) && s.phase.IdleCheck?
    ensures Inv(AfterCheck(s))
  {
    var n := |s.ticks| - 1;
    assert s.ticks == s.ticks[..n] + [s.ticks[n]];
    NextTick(s.ticks[..n], s.ticks[n], s.idleTTL);
  }

  /** The moves in which neither a tick is completed nor a timer looked at. */
  predicate MovesOn(p: Phase, q: Phase, time: int) {
    match p
    case Waiting => q == Counting(time)
    case Counting(now) => q == CheckInFlight(now)
    case StopSut(now) => q == IdleCheck(now)
    case ShutSut => q == ShutInfra
    case ShutInfra => q == StoppingInfra
    case StoppingInfra => q == ClearingFlag || q == ShutHttp
    case ClearingFlag => q == ShutHttp
    case ShutHttp => q == Down
    case _ => false
  }

  lemma MoveKeeps(s: Clock, time: int, phase: Phase)
    requires Inv(s) && time >= s.time && (phase == s.phase || MovesOn(s.phase, phase, s.time))
    ensures Inv(s.(time := time, phase := phase))
  {
  }

  ghost predicate ClockStep(c: Clock, d: Clock) {
    || (exists tick: Reaper.Tick :: InTick(c.phase) && tick.now == c.phase.now && d == AfterTick(c, tick))
    || (c.phase.IdleCheck? && d == AfterCheck(c))
    || (d == c.(time := d.time, phase := d.phase) && d.time >= c.time
        && (d.phase == c.phase || MovesOn(c.phase, d.phase, c.time)))
  }

  lemma ReadStep(s: Daemon, a: Action)
    requires Enabled(s, a) && (a.ReadActive? || a.ReadInFlight?)
    ensures ClockStep(ClockOf(s), ClockOf(Do(s, a)))
  {
    var c, d, now := ClockOf(s), ClockOf(Do(s, a)), s.phase.now;
    if a.ReadInFlight? {
      assert d == AfterTick(c, Reaper.Tick(now, 0, if s.inFlight <= 0 then 0 else s.inFlight));
    } else if ActiveIds(s.leases, now) != {} {
      assert d == AfterTick(c, Reaper.Tick(now, |ActiveIds(s.leases, now)|, 0));
    }
  }

  lemma EveryStep(s: Daemon, a: Action)
    requires Enabled(s, a)
    ensures ClockStep(ClockOf(s), ClockOf(Do(s, a)))
  {
    if a.ReadActive? || a.ReadInFlight? {
      ReadStep(s, a);
    }
  }

  lemma ClockKeeps(c: Clock, d: Clock)
    requires Inv(c) && ClockStep(c, d)
    ensures Inv(d)
  {
    if tick: Reaper.Tick :| InTick(c.phase) && tick.now == c.phase.now && d == AfterTick(c, tick) {
      TickKeeps(c, tick);
    } else if c.phase.IdleCheck? && d == AfterCheck(c) {
      CheckKeeps(c);
    } else {
      MoveKeeps(c, d.time, d.phase);
    }
  }

  lemma TTLsStay(s: Daemon, a: Action)
    ensures Step(s, a).sutTTL == s.sutTTL && Step(s, a).idleTTL == s.idleTTL
  {
  }

  lemma {:induction false} RunTicks(sutTTL: int, idleTTL: int, acts: seq<Action>)
    requires sutTTL > 0 && idleTTL > 0
    ensures Inv(ClockOf(After(Initial(sutTTL, idleTTL), acts)))
    ensures After(Initial(sutTTL, idleTTL), acts).sutTTL == sutTTL
    ensures After(Initial(sutTTL, idleTTL), acts).idleTTL == idleTTL
  {
    if acts != [] {
      var s, a := After(Initial(sutTTL, idleTTL), acts[..|acts| - 1]), acts[|acts| - 1];
      RunTicks(sutTTL, idleTTL, acts[..|acts| - 1]);
      TTLsStay(s, a);
      if Enabled(s, a) {
        EveryStep(s, a);
        ClockKeeps(ClockOf(s), ClockOf(Do(s, a)));
      }
    }
  }

  /** In every run: the daemon shuts down only at the first tick at which the idle stretch has lasted its
      TTL, and the reaper stops the service only at a tick at which it has lasted the service's. */
  lemma TicksRefineLoop(sutTTL: int, idleTTL: int, acts: seq<Action>)
    requires sutTTL > 0 && idleTTL > 0
    ensures var s := After(Initial(sutTTL, idleTTL), acts);
      && Reaper.Ordered(s.ticks)
      && (ShuttingDown(s.phase) ==> s.ticks != [] && Reaper.FirstDue(s.ticks, |s.ticks| - 1, idleTTL))
      && (!ShuttingDown(s.phase) && !HalfDecided(s.phase) ==>
            forall i :: 0 <= i < |s.ticks| ==> !Reaper.Due(s.ticks, i, idleTTL))
      && (s.phase.StopSut? ==> s.ticks != [] && Reaper.Due(s.ticks, |s.ticks| - 1, sutTTL))
  {
    RunTicks(sutTTL, idleTTL, acts);
  }

  lemma ReadActsIffDue(c: Clock)
    requires Inv(c) && c.phase.CheckInFlight?
    ensures var d := AfterTick(c, Reaper.Tick(c.phase.now, 0, 0));
      d.phase.StopSut? <==> Reaper.Due(d.ticks, |c.ticks|, c.sutTTL)
  {
    NextTick(c.ticks, Reaper.Tick(c.phase.now, 0, 0), c.sutTTL);
  }

  lemma CheckActsIffDue(c: Clock)
    requires Inv(c) && c.phase.IdleCheck?
    ensures c.ticks != [] && (AfterCheck(c).phase.ShutSut? <==> Reaper.Due(c.ticks, |c.ticks| - 1, c.idleTTL))
  {
    var n := |c.ticks| - 1;
    assert c.ticks == c.ticks[..n] + [c.ticks[n]];
    NextTick(c.ticks[..n], c.ticks[n], c.idleTTL);
  }

  lemma IdleRead(s: Daemon)
    requires s.phase.CheckInFlight? && s.inFlight <= 0
    ensures ClockOf(Do(s, ReadInFlight)) == AfterTick(ClockOf(s), Reaper.Tick(s.phase.now, 0, 0))
  {
  }

  lemma IdleLook(s: Daemon)
    requires s.phase.IdleCheck?
    ensures ClockOf(Do(s, ReaperChecksIdle)) == AfterCheck(ClockOf(s))
  {
  }

  /** And it never misses one: a tick that finds nothing goes on to stop the service if and only if that
      is due, and to the shutdown if and only if that is. */
  lemma TickActsIffDue(sutTTL: int, idleTTL: int, acts: seq<Action>, s: Daemon)
    requires sutTTL > 0 && idleTTL > 0 && s == After(Initial(sutTTL, idleTTL), acts)
    ensures s.phase.CheckInFlight? && s.inFlight <= 0 ==>
              var t := Do(s, ReadInFlight); t.phase.StopSut? <==> Reaper.Due(t.ticks, |s.ticks|, sutTTL)
    ensures s.phase.IdleCheck? && s.ticks != [] ==>
              (Do(s, ReaperChecksIdle).phase.ShutSut? <==> Reaper.Due(s.ticks, |s.ticks| - 1, idleTTL))
  {
    RunTicks(sutTTL, idleTTL, acts);
    if s.phase.CheckInFlight? && s.inFlight <= 0 {
      ReadActsIffDue(ClockOf(s));
      IdleRead(s);
    }
    if s.phase.IdleCheck? {
      CheckActsIffDue(ClockOf(s));
      IdleLook(s);
    }
  }
}
