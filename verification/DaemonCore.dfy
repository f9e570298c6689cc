/** The daemon under any number of concurrent requests: Acquire handlers, heartbeats and releases, the
    reaper's tick with its separate reads, and the idle shutdown that a tick can lead to.

    A step is one critical section or one atomic access; any sequence of actions is a run, in which an
    action that is not enabled does nothing. */
module DaemonCore {
  import opened Leases
  import Reaper

  type HandlerId = nat

  /** What the environment of a request has been through: how often the reaper had stopped the
      containers, and the service under test, when they were found or made ready for it. */
  datatype Marks = Marks(infra: nat, sut: nat)

  /** Where an Acquire handler is. */
  datatype Handler =
    | Entered                          // counted, the request is being decoded
    | Locked                           // has the start lock, and is about to look at the flag
    | Starting                         // the containers are being started, still under the lock
    | Started                          // they are up, the flag is not set yet
    | Refused                          // they could not be started; the lock is given back
    | InfraReady(infra: nat)           // ensureInfraStarted succeeded; the lock is given back
    | SutReady(marks: Marks)           // ensureSUTStarted succeeded
    | Stamped(marks: Marks, stamp: int)  // the lease's time is read, the store's lock is not taken yet
    | Granted                          // the lease is stored, the counter is not yet decremented

  /** Where the reaper is in its tick; `now` is the time that the tick read at its start. */
  datatype Phase =
    | Waiting
    | Counting(now: int)               // garbage is collected, the active leases are to be counted
    | CheckInFlight(now: int)          // none was active, the in-flight counter is to be read
    | StopSut(now: int)                // it was zero too, and the service has been idle for its TTL
    | IdleCheck(now: int)
    | ShutSut                          // shutting down: stop the service, then the containers
    | ShutInfra                        // waiting for the start lock
    | StoppingInfra                    // has the start lock
    | ClearingFlag                     // the containers are stopped, the flag is still set
    | ShutHttp
    | Down

  /** The lock that serialises starts and stops of the containers. */
  datatype StartLock = Unlocked | ByHandler(h: HandlerId) | ByReaper

  /** The lock, the daemon's flag, and whether the containers are up; and, as history, how often they
      were started successfully and stopped. */
  datatype Infra = Infra(lock: StartLock, flag: bool, up: bool, starts: nat, stops: nat)

  datatype Daemon = Daemon(
    sutTTL: int,
    idleTTL: int,
    time: int,
    handlers: map<HandlerId, Handler>,
    inFlight: int,
    leases: Store,
    infra: Infra,
    idleSince: Reaper.Timer,
    sutIdleSince: Reaper.Timer,
    phase: Phase,
    // history
    sutStops: nat,                     // times the reaper stopped the service
    marks: map<LeaseId, Marks>,        // the marks of the handler that granted each lease
    live: set<LeaseId>,                // leases neither released nor expired since they were granted
    late: set<LeaseId>,                // leases granted since a tick last found none active
    newcomers: set<HandlerId>,         // handlers that entered since a tick last found none in flight
    ticks: seq<Reaper.Tick>            // what the ticks have read so far
  )

  /** What a handler does on its way to the lease. */
  datatype Progress =
    | TakeLock
    | FindInfra                        // the flag is set
    | BeginStart                       // it is not
    | StartSucceeds
    | StartFails
    | SetFlag
    | SutOk
    | Stamp

  datatype Action =
    | Enter(h: HandlerId)
    | Abort(h: HandlerId)              // bad request, or a failed start
    | Advance(h: HandlerId, progress: Progress)
    | Grant(h: HandlerId, id: LeaseId, pid: int)
    | Leave(h: HandlerId)
    | Beat(id: LeaseId)
    | Free(id: LeaseId)
    | Elapse(to: int)
    | TickGc
    | ReadActive
    | ReadInFlight
    | ReaperStopsSut
    | ReaperChecksIdle
    | ShutdownStopsSut
    | ShutdownTakesLock
    | ShutdownStopsInfra(failed: bool)
    | ShutdownClearsFlag
    | CloseServer

  function Initial(sutTTL: int, idleTTL: int): Daemon {
    Daemon(sutTTL, idleTTL, 0, map[], 0, map[], Infra(Unlocked, false, false, 0, 0), Reaper.Zero, Reaper.Zero, Waiting,
           0, map[], {}, {}, {}, [])
  }

  predicate CanAdvance(s: Daemon, h: HandlerId, progress: Progress)
    requires h in s.handlers
  {
    match progress
    case TakeLock => s.handlers[h].Entered? && s.infra.lock.Unlocked?
    case FindInfra => s.handlers[h].Locked? && s.infra.flag
    case BeginStart => s.handlers[h].Locked? && !s.infra.flag
    case StartSucceeds => s.handlers[h].Starting?
    case StartFails => s.handlers[h].Starting?
    case SetFlag => s.handlers[h].Started?
    case SutOk => s.handlers[h].InfraReady?
    case Stamp => s.handlers[h].SutReady?
  }

  function NextHandler(s: Daemon, h: HandlerId, progress: Progress): Handler
    requires h in s.handlers && CanAdvance(s, h, progress)
  {
    match progress
    case TakeLock => Locked
    case FindInfra => InfraReady(s.infra.stops)
    case BeginStart => Starting
    case StartSucceeds => Started
    case StartFails => Refused
    case SetFlag => InfraReady(s.infra.stops)
    case SutOk => SutReady(Marks(s.handlers[h].infra, s.sutStops))
    case Stamp => Stamped(s.handlers[h].marks, s.time)
  }

  function NextInfra(infra: Infra, h: HandlerId, progress: Progress): Infra {
    match progress
    case TakeLock => infra.(lock := ByHandler(h))
    case FindInfra => infra.(lock := Unlocked)
    case StartSucceeds => infra.(up := true, starts := infra.starts + 1)
    case StartFails => infra.(lock := Unlocked)
    case SetFlag => infra.(flag := true, lock := Unlocked)
    case _ => infra
  }

  predicate Enabled(s: Daemon, a: Action) {
    match a
    case Enter(h) => h !in s.handlers && !s.phase.Down?
    case Abort(h) => h in s.handlers && (s.handlers[h].Entered? || s.handlers[h].Refused? || s.handlers[h].InfraReady?)
    case Advance(h, progress) => h in s.handlers && CanAdvance(s, h, progress)
    case Grant(h, id, _) => h in s.handlers && s.handlers[h].Stamped? && id !in s.marks
    case Leave(h) => h in s.handlers && s.handlers[h].Granted?
    case Beat(_) => !s.phase.Down?
    case Free(_) => !s.phase.Down?
    case Elapse(to) => to > s.time
    case TickGc => s.phase.Waiting?
    case ReadActive => s.phase.Counting?
    case ReadInFlight => s.phase.CheckInFlight?
    case ReaperStopsSut => s.phase.StopSut?
    case ReaperChecksIdle => s.phase.IdleCheck?
    case ShutdownStopsSut => s.phase.ShutSut?
    case ShutdownTakesLock => s.phase.ShutInfra? && s.infra.lock.Unlocked?
    case ShutdownStopsInfra(_) => s.phase.StoppingInfra?
    case ShutdownClearsFlag => s.phase.ClearingFlag?
    case CloseServer => s.phase.ShutHttp?
  }

  predicate Elapsed(timer: Reaper.Timer, now: int, ttl: int) {
    timer.Since? && now - timer.start >= ttl
  }

  function Do(s: Daemon, a: Action): Daemon
    requires Enabled(s, a)
  {
    match a
    case Enter(h) =>
      s.(handlers := s.handlers[h := Entered], inFlight := s.inFlight + 1, newcomers := s.newcomers + {h})
    case Abort(h) => s.(handlers := s.handlers - {h}, inFlight := s.inFlight - 1)
    case Advance(h, progress) =>
      s.(handlers := s.handlers[h := NextHandler(s, h, progress)], infra := NextInfra(s.infra, h, progress))
    case Grant(h, id, pid) =>
      var stamp := s.handlers[h].stamp;
      s.(handlers := s.handlers[h := Granted],
         leases := Apply(s.leases, Acquire(id, pid, stamp)),
         marks := s.marks[id := s.handlers[h].marks],
         live := if stamp + LEASE_TTL > s.time then s.live + {id} else s.live,
         late := s.late + {id})
    case Leave(h) => s.(handlers := s.handlers - {h}, inFlight := s.inFlight - 1)
    case Beat(id) => s.(leases := Apply(s.leases, Heartbeat(id, s.time)))
    case Free(id) => s.(leases := Apply(s.leases, Release(id)), live := s.live - {id})
    case Elapse(to) => s.(time := to, live := set id | id in s.live && id in s.leases && s.leases[id].expireAt > to)
    case TickGc => s.(leases := Apply(s.leases, Gc(s.time)), phase := Counting(s.time))
    case ReadActive =>
      if ActiveIds(s.leases, s.phase.now) != {}
      then s.(idleSince := Reaper.Zero, sutIdleSince := Reaper.Zero, phase := Waiting,
              ticks := s.ticks + [Reaper.Tick(s.phase.now, |ActiveIds(s.leases, s.phase.now)|, 0)])
      else s.(phase := CheckInFlight(s.phase.now), late := {})
    case ReadInFlight =>
      if s.inFlight > 0
      then s.(idleSince := Reaper.Zero, sutIdleSince := Reaper.Zero, phase := Waiting,
              ticks := s.ticks + [Reaper.Tick(s.phase.now, 0, s.inFlight)])
      else s.(newcomers := {}, ticks := s.ticks + [Reaper.Tick(s.phase.now, 0, 0)],
              sutIdleSince := if s.sutIdleSince.Zero? then Reaper.Since(s.phase.now) else s.sutIdleSince,
              phase := if Elapsed(s.sutIdleSince, s.phase.now, s.sutTTL)
                       then StopSut(s.phase.now) else IdleCheck(s.phase.now))
    case ReaperStopsSut => s.(sutStops := s.sutStops + 1, phase := IdleCheck(s.phase.now))
    case ReaperChecksIdle =>
      s.(idleSince := if s.idleSince.Zero? then Reaper.Since(s.phase.now) else s.idleSince,
         phase := if Elapsed(s.idleSince, s.phase.now, s.idleTTL) then ShutSut else Waiting)
    case ShutdownStopsSut => s.(sutStops := s.sutStops + 1, phase := ShutInfra)
    case ShutdownTakesLock => s.(infra := s.infra.(lock := ByReaper), phase := StoppingInfra)
    case ShutdownStopsInfra(failed) =>
      if s.infra.flag && !failed
      then s.(infra := s.infra.(stops := s.infra.stops + 1, up := false), phase := ClearingFlag)
      else s.(infra := s.infra.(stops := s.infra.stops + 1, lock := Unlocked), phase := ShutHttp)
    case ShutdownClearsFlag => s.(infra := s.infra.(flag := false, lock := Unlocked), phase := ShutHttp)
    case CloseServer => s.(phase := Down)
  }

  function Step(s: Daemon, a: Action): Daemon {
    if Enabled(s, a) then Do(s, a) else s
  }

  function After(s: Daemon, acts: seq<Action>): Daemon {
    if acts == [] then s else Step(After(s, acts[..|acts| - 1]), acts[|acts| - 1])
  }

  // ---------------------------------------------------------------------------------------------
  // What holds in every run

  predicate TickTimeOk(s: Daemon) {
    match s.phase
    case Counting(now) => now <= s.time
    case CheckInFlight(now) => now <= s.time
    case StopSut(now) => now <= s.time
    case IdleCheck(now) => now <= s.time
    case _ => true
  }

  /** The tick has found the in-flight counter at zero, and the teardown it may lead to is not over. */
  predicate Committed(p: Phase) { p.StopSut? || p.IdleCheck? || p.ShutSut? || p.ShutInfra? || p.StoppingInfra? }

  predicate CountedNone(p: Phase) { p.CheckInFlight? || Committed(p) }

  predicate PastInfra(h: Handler) { h.InfraReady? || h.SutReady? || h.Stamped? || h.Granted? }

  /** The in-flight counter counts the handlers. */
  predicate HandlerInv(s: Daemon) {
    && s.inFlight == |s.handlers.Keys|
    && (Committed(s.phase) ==> s.handlers.Keys <= s.newcomers)
  }

  predicate LeaseInv(s: Daemon) {
    && TickTimeOk(s)
    && (forall id :: id in s.live ==> id in s.leases && id in s.marks && s.leases[id].expireAt > s.time)
    && (CountedNone(s.phase) ==> s.live <= s.late)
  }

  predicate InLock(h: Handler) { h.Locked? || h.Starting? || h.Started? }

  /** One handler at a time is inside the start lock, or the shutdown. */
  predicate LockInv(s: Daemon) {
    && (forall h :: h in s.handlers ==> (InLock(s.handlers[h]) <==> s.infra.lock == ByHandler(h)))
    && (s.infra.lock.ByHandler? ==> s.infra.lock.h in s.handlers)
    && (s.infra.lock.ByReaper? <==> s.phase.StoppingInfra? || s.phase.ClearingFlag?)
  }

  predicate SomebodyStarted(s: Daemon) {
    s.infra.lock.ByHandler? && s.infra.lock.h in s.handlers && s.handlers[s.infra.lock.h].Started?
  }

  /** The flag says whether the containers are up, except inside the lock: between their start or stop
      and the assignment to the flag. */
  predicate FlagInv(s: Daemon) {
    && (s.infra.up <==> (s.infra.flag || SomebodyStarted(s)) && !s.phase.ClearingFlag?)
    && (s.phase.ClearingFlag? ==> s.infra.flag)
    && (forall h :: h in s.handlers && (s.handlers[h].Starting? || s.handlers[h].Started?) ==> !s.infra.flag)
  }

  predicate StopsInv(s: Daemon) {
    && s.infra.stops == (if s.phase.ClearingFlag? || s.phase.ShutHttp? || s.phase.Down? then 1 else 0)
    && (s.phase.ShutInfra? || s.phase.StoppingInfra? || s.infra.stops == 1 ==> s.sutStops > 0)
  }

  predicate StartsInv(s: Daemon) {
    s.infra.stops == 0 ==>
      && s.infra.starts == (if s.infra.up then 1 else 0)
      && (s.marks != map[] ==> s.infra.flag)
      && (forall h :: h in s.handlers && PastInfra(s.handlers[h]) ==> s.infra.flag)
  }

  predicate InfraInv(s: Daemon) { LockInv(s) && FlagInv(s) && StopsInv(s) && StartsInv(s) }

  predicate StampInv(s: Daemon) {
    forall h :: h in s.handlers && s.handlers[h].Stamped? ==> s.handlers[h].stamp <= s.time
  }

  predicate Inv(s: Daemon) { HandlerInv(s) && LeaseInv(s) && InfraInv(s) && StampInv(s) }

  /** Which handlers there are changes when one enters or leaves, and at no other step. */
  lemma HandlersAfter(s: Daemon, a: Action)
    requires Enabled(s, a)
    ensures Do(s, a).handlers.Keys == match a
                                      case Enter(h) => s.handlers.Keys + {h}
                                      case Abort(h) => s.handlers.Keys - {h}
                                      case Leave(h) => s.handlers.Keys - {h}
                                      case _ => s.handlers.Keys
  {
  }

  lemma CounterStep(s: Daemon, a: Action)
    requires Enabled(s, a) && s.inFlight == |s.handlers.Keys|
    ensures Do(s, a).inFlight == |Do(s, a).handlers.Keys|
  {
    HandlersAfter(s, a);
  }

  lemma HandlerStep(s: Daemon, a: Action)
    requires HandlerInv(s)
    ensures HandlerInv(Step(s, a))
  {
    if Enabled(s, a) {
      CounterStep(s, a);
      HandlersAfter(s, a);
    }
  }

  predicate OfHandler(a: Action) { a.Enter? || a.Abort? || a.Advance? || a.Leave? }

  lemma HandlersLeaveLeases(s: Daemon, a: Action)
    requires LeaseInv(s) && OfHandler(a)
    ensures LeaseInv(Step(s, a))
  {
  }

  predicate OfStore(a: Action) { a.Grant? || a.Beat? || a.Free? || a.TickGc? }

  lemma StoreKeepsLeases(s: Daemon, a: Action)
    requires LeaseInv(s) && OfStore(a)
    ensures LeaseInv(Step(s, a))
  {
  }

  lemma ReaperKeepsLeases(s: Daemon, a: Action)
    requires LeaseInv(s) && !OfHandler(a) && !OfStore(a)
    ensures LeaseInv(Step(s, a))
  {
    if a.ReadActive? && s.phase.Counting? {
      assert s.live <= ActiveIds(s.leases, s.phase.now);
    }
  }

  lemma LeaseStep(s: Daemon, a: Action)
    requires LeaseInv(s)
    ensures LeaseInv(Step(s, a))
  {
    if OfHandler(a) {
      HandlersLeaveLeases(s, a);
    } else if OfStore(a) {
      StoreKeepsLeases(s, a);
    } else {
      ReaperKeepsLeases(s, a);
    }
  }

  lemma AdvanceKeepsLock(s: Daemon, h: HandlerId, progress: Progress)
    requires LockInv(s) && Enabled(s, Advance(h, progress))
    ensures LockInv(Do(s, Advance(h, progress)))
  {
  }

  lemma LockStep(s: Daemon, a: Action)
    requires LockInv(s)
    ensures LockInv(Step(s, a))
  {
    if a.Advance? && Enabled(s, a) {
      AdvanceKeepsLock(s, a.h, a.progress);
    }
  }

  lemma AdvanceKeepsFlag(s: Daemon, h: HandlerId, progress: Progress)
    requires LockInv(s) && FlagInv(s) && Enabled(s, Advance(h, progress))
    ensures FlagInv(Do(s, Advance(h, progress)))
  {
  }

  lemma FlagStep(s: Daemon, a: Action)
    requires LockInv(s) && FlagInv(s)
    ensures FlagInv(Step(s, a))
  {
    if a.Advance? && Enabled(s, a) {
      AdvanceKeepsFlag(s, a.h, a.progress);
    }
  }

  lemma StopsStep(s: Daemon, a: Action)
    requires StopsInv(s)
    ensures StopsInv(Step(s, a))
  {
  }

  lemma StartsStep(s: Daemon, a: Action)
    requires LockInv(s) && FlagInv(s) && StopsInv(s) && StartsInv(s)
    ensures StartsInv(Step(s, a))
  {
  }

  lemma StampStep(s: Daemon, a: Action)
    requires StampInv(s)
    ensures StampInv(Step(s, a))
  {
  }

  lemma {:induction false} RunInv(sutTTL: int, idleTTL: int, acts: seq<Action>)
    ensures Inv(After(Initial(sutTTL, idleTTL), acts))
  {
    if acts != [] {
      RunInv(sutTTL, idleTTL, acts[..|acts| - 1]);
      var s, a := After(Initial(sutTTL, idleTTL), acts[..|acts| - 1]), acts[|acts| - 1];
      HandlerStep(s, a);
      LeaseStep(s, a);
      LockStep(s, a);
      FlagStep(s, a);
      StopsStep(s, a);
      StartsStep(s, a);
      StampStep(s, a);
    }
  }

  /** Starts and stops of the containers do not overlap, and whenever nobody is inside the start lock the
      flag says whether they are up. At most one start succeeds before the shutdown stops them, and
      every lease granted before that was granted while they were up. */
  lemma OneInfrastructure(sutTTL: int, idleTTL: int, acts: seq<Action>)
    ensures var s := After(Initial(sutTTL, idleTTL), acts);
      && (forall g, h :: g in s.handlers && h in s.handlers && InLock(s.handlers[g]) && InLock(s.handlers[h]) ==> g == h)
      && (forall h :: h in s.handlers && InLock(s.handlers[h]) ==> !s.phase.StoppingInfra? && !s.phase.ClearingFlag?)
      && (s.infra.lock.Unlocked? ==> (s.infra.flag <==> s.infra.up))
      && s.infra.stops <= 1
      && (s.infra.stops == 0 ==>
            s.infra.starts <= 1 && (s.marks != map[] ==> s.infra.flag && s.infra.up && s.infra.starts == 1))
  {
    RunInv(sutTTL, idleTTL, acts);
  }

  /** The in-flight counter is the number of handlers inside handleAcquire. */
  lemma InFlightCountsHandlers(sutTTL: int, idleTTL: int, acts: seq<Action>, s: Daemon)
    requires s == After(Initial(sutTTL, idleTTL), acts)
    ensures s.inFlight == |s.handlers.Keys|
  {
    RunInv(sutTTL, idleTTL, acts);
  }

  // ---------------------------------------------------------------------------------------------
  // How a request ends

  predicate RefusedUntilAbort(h: HandlerId, t: Daemon, acts: seq<Action>) {
    Abort(h) in acts || (h in t.handlers && t.handlers[h].Refused?)
  }

  lemma RefusedStep(h: HandlerId, t: Daemon, acts: seq<Action>, a: Action)
    requires RefusedUntilAbort(h, t, acts)
    ensures RefusedUntilAbort(h, Step(t, a), acts + [a])
  {
  }

  /** A request for which the containers could not be started is answered with an error: in every run it
      is not retried and gets no lease. */
  lemma {:induction false} FailedStartIsFinal(s: Daemon, h: HandlerId, acts: seq<Action>)
    requires Enabled(s, Advance(h, StartFails))
    ensures RefusedUntilAbort(h, After(Do(s, Advance(h, StartFails)), acts), acts)
  {
    if acts != [] {
      var n := |acts| - 1;
      FailedStartIsFinal(s, h, acts[..n]);
      assert acts == acts[..n] + [acts[n]];
      RefusedStep(h, After(Do(s, Advance(h, StartFails)), acts[..n]), acts[..n], acts[n]);
    }
  }

  predicate ReadyUntilGrant(h: HandlerId, t: Daemon, acts: seq<Action>) {
    IsGranted(h, acts) || (h in t.handlers && HasSut(t.handlers[h]))
  }

  predicate IsGranted(h: HandlerId, acts: seq<Action>) {
    exists i :: 0 <= i < |acts| && acts[i].Grant? && acts[i].h == h
  }

  lemma ReadyStep(h: HandlerId, t: Daemon, acts: seq<Action>, a: Action)
    requires ReadyUntilGrant(h, t, acts)
    ensures ReadyUntilGrant(h, Step(t, a), acts + [a])
  {
    if IsGranted(h, acts) {
      var i :| 0 <= i < |acts| && acts[i].Grant? && acts[i].h == h;
      assert (acts + [a])[i] == acts[i];
    } else if a.Grant? && a.h == h {
      assert (acts + [a])[|acts|] == a;
    }
  }

  /** A request for which everything is ready is not given up before its lease is granted. */
  lemma {:induction false} ReadyIsGranted(s: Daemon, h: HandlerId, acts: seq<Action>)
    requires Enabled(s, Advance(h, SutOk))
    ensures ReadyUntilGrant(h, After(Do(s, Advance(h, SutOk)), acts), acts)
  {
    if acts != [] {
      var n := |acts| - 1;
      ReadyIsGranted(s, h, acts[..n]);
      assert acts == acts[..n] + [acts[n]];
      ReadyStep(h, After(Do(s, Advance(h, SutOk)), acts[..n]), acts[..n], acts[n]);
    }
  }

  /** How many steps a handler has still got at most. */
  function StepsLeft(h: Handler): nat {
    match h
    case Entered => 8
    case Locked => 7
    case Starting => 6
    case Started => 5
    case InfraReady(_) => 4
    case SutReady(_) => 3
    case Stamped(_, _) => 2
    case Refused => 1
    case Granted => 1
  }

  predicate CanGoOn(s: Daemon, h: HandlerId, id: LeaseId)
    requires h in s.handlers
  {
    match s.handlers[h]
    case Entered => Enabled(s, Advance(h, TakeLock))
    case Locked => Enabled(s, Advance(h, FindInfra)) || Enabled(s, Advance(h, BeginStart))
    case Starting => Enabled(s, Advance(h, StartSucceeds)) && Enabled(s, Advance(h, StartFails))
    case Started => Enabled(s, Advance(h, SetFlag))
    case Refused => Enabled(s, Abort(h))
    case InfraReady(_) => Enabled(s, Advance(h, SutOk)) && Enabled(s, Abort(h))
    case SutReady(_) => Enabled(s, Advance(h, Stamp))
    case Stamped(_, _) => Enabled(s, Grant(h, id, 0))
    case Granted => Enabled(s, Leave(h))
  }

  /** No request is stuck: in every run, a handler can go on, or it waits for the start lock and the one
      that has it can go on; and each step of its own brings it nearer to its end. */
  lemma NobodyIsStuck(sutTTL: int, idleTTL: int, acts: seq<Action>, s: Daemon, h: HandlerId, id: LeaseId)
    requires s == After(Initial(sutTTL, idleTTL), acts) && h in s.handlers && id !in s.marks
    ensures CanGoOn(s, h, id) || (s.handlers[h].Entered? && !s.infra.lock.Unlocked?)
    ensures s.infra.lock.ByHandler? ==> s.infra.lock.h in s.handlers && CanGoOn(s, s.infra.lock.h, id)
    ensures s.infra.lock.ByReaper? ==> Enabled(s, ShutdownStopsInfra(false)) || Enabled(s, ShutdownClearsFlag)
    ensures forall progress :: CanAdvance(s, h, progress) ==>
              StepsLeft(NextHandler(s, h, progress)) < StepsLeft(s.handlers[h])
  {
    GoesOnOrWaits(s, h, id);
    OwnStepsAreFew(s, h);
    RunInv(sutTTL, idleTTL, acts);
    LockIsMovedOn(s, id);
  }

  lemma GoesOnOrWaits(s: Daemon, h: HandlerId, id: LeaseId)
    requires h in s.handlers && id !in s.marks
    ensures CanGoOn(s, h, id) || (s.handlers[h].Entered? && !s.infra.lock.Unlocked?)
  {
  }

  lemma OwnStepsAreFew(s: Daemon, h: HandlerId)
    requires h in s.handlers
    ensures forall progress :: CanAdvance(s, h, progress) ==>
              StepsLeft(NextHandler(s, h, progress)) < StepsLeft(s.handlers[h])
  {
  }

  lemma LockIsMovedOn(s: Daemon, id: LeaseId)
    requires LockInv(s) && id !in s.marks
    ensures s.infra.lock.ByHandler? ==> s.infra.lock.h in s.handlers && CanGoOn(s, s.infra.lock.h, id)
    ensures s.infra.lock.ByReaper? ==> Enabled(s, ShutdownStopsInfra(false)) || Enabled(s, ShutdownClearsFlag)
  {
  }

  // ---------------------------------------------------------------------------------------------
  // After the shutdown

  lemma {:induction false} AfterBoth(s: Daemon, acts: seq<Action>, more: seq<Action>)
    ensures After(s, acts + more) == After(After(s, acts), more)
  {
    if more == [] {
      assert acts + more == acts;
    } else {
      AfterBoth(s, acts, more[..|more| - 1]);
      assert (acts + more)[..|acts + more| - 1] == acts + more[..|more| - 1];
    }
  }

  lemma AfterThis(s: Daemon, acts: seq<Action>, a: Action, more: seq<Action>)
    ensures After(s, acts + [a] + more) == After(Step(After(s, acts), a), more)
  {
    AfterBoth(s, acts + [a], more);
    assert (acts + [a])[..|acts + [a]| - 1] == acts;
  }

  /** Nobody gets in any more, and those who were inside may finish. */
  predicate StillClosed(s: Daemon, t: Daemon) {
    && t.phase.Down? && t.handlers.Keys <= s.handlers.Keys
    && t.infra.stops == s.infra.stops && t.sutStops == s.sutStops && t.ticks == s.ticks
    && (s.handlers == map[] ==> t.infra == s.infra && t.leases == s.leases && t.marks == s.marks)
  }

  /** A step of time, or of a handler that is inside already. */
  predicate GoesOnInside(s: Daemon, a: Action) {
    match a
    case Elapse(_) => true
    case Abort(h) => h in s.handlers
    case Advance(h, _) => h in s.handlers
    case Grant(h, _, _) => h in s.handlers
    case Leave(h) => h in s.handlers
    case _ => false
  }

  lemma ClosedStep(s: Daemon, t: Daemon, a: Action)
    requires StillClosed(s, t)
    ensures StillClosed(s, Step(t, a))
  {
  }

  lemma {:induction false} RunClosed(s: Daemon, more: seq<Action>)
    requires s.phase.Down?
    ensures StillClosed(s, After(s, more))
  {
    if more != [] {
      RunClosed(s, more[..|more| - 1]);
      ClosedStep(s, After(s, more[..|more| - 1]), more[|more| - 1]);
    }
  }

  /** The shutdown closes the server after it has stopped the service and the containers, and from then
      on, in every run, no request is let in and the reaper does nothing. Only handlers that were inside
      already go on; if there was none, containers and leases stay as they are for good. */
  lemma ServerStaysClosed(sutTTL: int, idleTTL: int, acts: seq<Action>, more: seq<Action>, a: Action)
    requires Enabled(After(Initial(sutTTL, idleTTL), acts), CloseServer)
    ensures var s := After(Initial(sutTTL, idleTTL), acts);
            var t := After(Initial(sutTTL, idleTTL), acts + [CloseServer] + more);
      && s.sutStops > 0 && s.infra.stops == 1
      && t.handlers.Keys <= s.handlers.Keys && t.infra.stops == 1 && t.sutStops == s.sutStops && t.ticks == s.ticks
      && (s.handlers == map[] ==> t.infra == s.infra && t.leases == s.leases && t.marks == s.marks)
      && (Enabled(t, a) ==> GoesOnInside(s, a))
  {
    var s0 := Initial(sutTTL, idleTTL);
    RunInv(sutTTL, idleTTL, acts);
    AfterThis(s0, acts, CloseServer, more);
    RunClosed(Do(After(s0, acts), CloseServer), more);
  }

  /** Once the shutdown has stopped the containers, they are down, unless a start has succeeded since. */
  predicate DownSince(starts: nat, t: Daemon) {
    t.infra.starts > starts || (t.infra.starts == starts && !t.infra.up)
  }

  lemma DownStep(starts: nat, t: Daemon, a: Action)
    requires DownSince(starts, t)
    ensures DownSince(starts, Step(t, a))
  {
  }

  lemma StoppedNow(s: Daemon)
    requires FlagInv(s) && LockInv(s) && Enabled(s, ShutdownStopsInfra(false))
    ensures DownSince(s.infra.starts, Do(s, ShutdownStopsInfra(false)))
  {
  }

  lemma {:induction false} RunDown(starts: nat, s: Daemon, more: seq<Action>)
    requires DownSince(starts, s)
    ensures DownSince(starts, After(s, more))
  {
    if more != [] {
      RunDown(starts, s, more[..|more| - 1]);
      DownStep(starts, After(s, more[..|more| - 1]), more[|more| - 1]);
    }
  }

  /** So an idle shutdown that succeeds leaves no containers behind, if no start succeeds during it. */
  lemma ContainersStayDown(sutTTL: int, idleTTL: int, acts: seq<Action>, more: seq<Action>)
    requires Enabled(After(Initial(sutTTL, idleTTL), acts), ShutdownStopsInfra(false))
    ensures var s := After(Initial(sutTTL, idleTTL), acts);
            var t := After(Initial(sutTTL, idleTTL), acts + [ShutdownStopsInfra(false)] + more);
      t.infra.up ==> t.infra.starts > s.infra.starts
  {
    var s := After(Initial(sutTTL, idleTTL), acts);
    RunInv(sutTTL, idleTTL, acts);
    AfterThis(Initial(sutTTL, idleTTL), acts, ShutdownStopsInfra(false), more);
    StoppedNow(s);
    RunDown(s.infra.starts, Do(s, ShutdownStopsInfra(false)), more);
  }

  // ---------------------------------------------------------------------------------------------
  // A grant follows readiness

  /** Step i of the run, and a step that was enabled, was this one of handler h. */
  predicate DidAt(s0: Daemon, acts: seq<Action>, i: nat, h: HandlerId, progress: Progress) {
    && i < |acts| && acts[i] == Advance(h, progress)
    && h in After(s0, acts[..i]).handlers && CanAdvance(After(s0, acts[..i]), h, progress)
  }

  predicate HasSut(h: Handler) { h.SutReady? || h.Stamped? }

  /** Ever since that step, handler h has been in this part of its way. */
  predicate HasSutSince(s0: Daemon, acts: seq<Action>, i: nat, h: HandlerId) {
    forall m :: i < m <= |acts| ==> h in After(s0, acts[..m]).handlers && HasSut(After(s0, acts[..m]).handlers[h])
  }

  predicate HasInfraSince(s0: Daemon, acts: seq<Action>, i: nat, n: nat, h: HandlerId)
    requires n <= |acts|
  {
    forall m :: i < m <= n ==> h in After(s0, acts[..m]).handlers && After(s0, acts[..m]).handlers[h].InfraReady?
  }

  lemma BecomesReady(s: Daemon, a: Action, h: HandlerId)
    requires Enabled(s, a) && h in Do(s, a).handlers
    ensures HasSut(Do(s, a).handlers[h]) ==> a == Advance(h, SutOk) || (h in s.handlers && HasSut(s.handlers[h]))
    ensures Do(s, a).handlers[h].InfraReady? ==>
              a == Advance(h, FindInfra) || a == Advance(h, SetFlag) || (h in s.handlers && s.handlers[h].InfraReady?)
  {
  }

  lemma {:induction false} SutWasReady(s0: Daemon, acts: seq<Action>, h: HandlerId) returns (i: nat)
    requires s0.handlers == map[] && h in After(s0, acts).handlers && HasSut(After(s0, acts).handlers[h])
    ensures DidAt(s0, acts, i, h, SutOk) && HasSutSince(s0, acts, i, h)
  {
    var n := |acts| - 1;
    var before, s := acts[..n], After(s0, acts[..n]);
    assert acts[..|acts|] == acts;
    if h in s.handlers && HasSut(s.handlers[h]) {
      i := SutWasReady(s0, before, h);
      assert before[..i] == acts[..i];
      forall m | i < m <= n ensures After(s0, acts[..m]) == After(s0, before[..m]) {
        assert before[..m] == acts[..m];
      }
    } else {
      i := n;
      BecomesReady(s, acts[n], h);
    }
  }

  lemma {:induction false} InfraWasReady(s0: Daemon, acts: seq<Action>, h: HandlerId) returns (j: nat)
    requires s0.handlers == map[] && h in After(s0, acts).handlers && After(s0, acts).handlers[h].InfraReady?
    ensures DidAt(s0, acts, j, h, FindInfra) || DidAt(s0, acts, j, h, SetFlag)
    ensures HasInfraSince(s0, acts, j, |acts|, h)
  {
    var n := |acts| - 1;
    var before, s := acts[..n], After(s0, acts[..n]);
    assert acts[..|acts|] == acts;
    if h in s.handlers && s.handlers[h].InfraReady? {
      j := InfraWasReady(s0, before, h);
      assert before[..j] == acts[..j];
      forall m | j < m <= n ensures After(s0, acts[..m]) == After(s0, before[..m]) {
        assert before[..m] == acts[..m];
      }
    } else {
      j := n;
      BecomesReady(s, acts[n], h);
    }
  }

  lemma BecomesStamped(s: Daemon, a: Action, h: HandlerId)
    requires Enabled(s, a) && h in Do(s, a).handlers && Do(s, a).handlers[h].Stamped?
    ensures (h in s.handlers && s.handlers[h] == Do(s, a).handlers[h])
            || (a == Advance(h, Stamp) && Do(s, a).handlers[h].stamp == s.time)
  {
  }

  /** The stamp of a lease to be granted was read after everything was ready. */
  lemma {:induction false} StampWasRead(s0: Daemon, acts: seq<Action>, h: HandlerId) returns (k: nat)
    requires s0.handlers == map[] && h in After(s0, acts).handlers && After(s0, acts).handlers[h].Stamped?
    ensures DidAt(s0, acts, k, h, Stamp) && After(s0, acts).handlers[h].stamp == After(s0, acts[..k]).time
  {
    var n := |acts| - 1;
    var s := After(s0, acts[..n]);
    if h in s.handlers && s.handlers[h] == After(s0, acts).handlers[h] {
      k := StampWasRead(s0, acts[..n], h);
      assert acts[..n][..k] == acts[..k];
    } else {
      k := n;
      BecomesStamped(s, acts[n], h);
    }
  }

  /** Whenever a handler can grant a lease, it has before found the containers up, or started them, and
      after that the service was made ready for it; and it has been on its way ever since. */
  lemma GrantFollowsReadiness(sutTTL: int, idleTTL: int, acts: seq<Action>, h: HandlerId, id: LeaseId, pid: int)
    returns (j: nat, i: nat)
    requires Enabled(After(Initial(sutTTL, idleTTL), acts), Grant(h, id, pid))
    ensures var s0 := Initial(sutTTL, idleTTL);
      && DidAt(s0, acts, i, h, SutOk) && HasSutSince(s0, acts, i, h)
      && j < i && (DidAt(s0, acts, j, h, FindInfra) || DidAt(s0, acts, j, h, SetFlag)) && HasInfraSince(s0, acts, j, i, h)
  {
    var s0 := Initial(sutTTL, idleTTL);
    i := SutWasReady(s0, acts, h);
    var before := acts[..i];
    j := InfraWasReady(s0, before, h);
    assert before[..j] == acts[..j];
    forall m | j < m <= i
      ensures h in After(s0, acts[..m]).handlers && After(s0, acts[..m]).handlers[h].InfraReady?
    {
      assert before[..m] == acts[..m];
    }
  }

  // ---------------------------------------------------------------------------------------------
  // Teardown under the clients' feet

  predicate IsTeardown(a: Action) { a.ReaperStopsSut? || a.ShutdownStopsSut? || a.ShutdownStopsInfra? }

  /** The handler counts on what the teardown step takes away. */
  predicate CountsOn(h: Handler, a: Action) {
    h.SutReady? || h.Stamped? || (h.InfraReady? && a.ShutdownStopsInfra?)
  }

  predicate MarkOk(s: Daemon, h: Handler) {
    match h
    case InfraReady(infra) => infra == s.infra.stops
    case SutReady(marks) => marks == Marks(s.infra.stops, s.sutStops)
    case Stamped(marks, _) => marks == Marks(s.infra.stops, s.sutStops)
    case _ => true
  }

  /** The protected interval: since the containers, and the service, were made ready for a handler,
      the reaper has not stopped them, as long as the handler runs, and then as long as the lease that
      it granted is neither released nor expired. */
  predicate Protected(s: Daemon) {
    && (forall h :: h in s.handlers ==> MarkOk(s, s.handlers[h]))
    && (forall id :: id in s.live ==> id in s.marks && s.marks[id] == Marks(s.infra.stops, s.sutStops))
  }

  /** A teardown step meets a lease that was granted after the tick had counted the active leases, or
      a handler that entered after the tick had read the in-flight counter. */
  predicate MeetsLatecomer(s: Daemon, a: Action) {
    && IsTeardown(a)
    && (|| (exists id :: id in s.late && id in s.live)
        || (exists h :: h in s.newcomers && h in s.handlers && CountsOn(s.handlers[h], a)))
  }

  /** Somebody has a live lease, or counts on what the step takes away. */
  predicate InUse(s: Daemon, a: Action) {
    s.live != {} || exists h :: h in s.handlers && CountsOn(s.handlers[h], a)
  }

  lemma TeardownBreaksIff(s: Daemon, a: Action)
    requires Enabled(s, a) && IsTeardown(a) && Protected(s)
    ensures Protected(Do(s, a)) <==>
              !InUse(s, a)
  {
    var t := Do(s, a);
    if id :| id in s.live {
      assert id in t.live && t.marks[id] == s.marks[id];
    }
    forall h | h in s.handlers ensures MarkOk(t, t.handlers[h]) <==> !CountsOn(s.handlers[h], a) {
      assert MarkOk(s, s.handlers[h]);
    }
  }

  lemma OtherStepsProtect(s: Daemon, a: Action)
    requires Enabled(s, a) && !IsTeardown(a) && Protected(s)
    ensures Protected(Do(s, a))
  {
    var t := Do(s, a);
    forall h | h in t.handlers ensures MarkOk(t, t.handlers[h]) {
      if h in s.handlers {
        assert MarkOk(s, s.handlers[h]);
      }
    }
  }

  /** The boundary, exactly: in any run, the next step takes service or containers away from a live
      lease or from a handler that counts on them if and only if it is a teardown step that meets a
      latecomer. */
  lemma TakesAwayIffLatecomer(sutTTL: int, idleTTL: int, acts: seq<Action>, s: Daemon, a: Action)
    requires s == After(Initial(sutTTL, idleTTL), acts) && Enabled(s, a)
    ensures IsTeardown(a) && InUse(s, a) <==> MeetsLatecomer(s, a)
  {
    RunInv(sutTTL, idleTTL, acts);
    if IsTeardown(a) {
      UsersAreLate(s, a);
    }
  }

  /** And no other step breaks the protected interval of anybody. */
  lemma BrokenIffLatecomer(sutTTL: int, idleTTL: int, acts: seq<Action>, s: Daemon, a: Action)
    requires s == After(Initial(sutTTL, idleTTL), acts) && Enabled(s, a) && Protected(s)
    ensures Protected(Do(s, a)) <==> !MeetsLatecomer(s, a)
  {
    TakesAwayIffLatecomer(sutTTL, idleTTL, acts, s, a);
    if IsTeardown(a) {
      TeardownBreaksIff(s, a);
    } else {
      OtherStepsProtect(s, a);
    }
  }

  lemma UsersAreLate(s: Daemon, a: Action)
    requires Inv(s) && Enabled(s, a) && IsTeardown(a)
    ensures InUse(s, a) <==> MeetsLatecomer(s, a)
  {
    if id :| id in s.live {
      assert id in s.late;
    }
    if h :| h in s.handlers && CountsOn(s.handlers[h], a) {
      assert h in s.newcomers;
    }
  }

  /** A step that does not come between the reads of a tick, or between its last read and the teardown
      it leads to: no lease is granted between the two reads, and no handler enters after them. */
  predicate Undisturbed(s: Daemon, a: Action) {
    && (a.Enter? ==> !Committed(s.phase))
    && (a.Grant? ==> !s.phase.CheckInFlight?)
  }

  predicate QuietRun(s: Daemon, acts: seq<Action>) {
    acts == [] ||
    (QuietRun(s, acts[..|acts| - 1]) && Undisturbed(After(s, acts[..|acts| - 1]), acts[|acts| - 1]))
  }

  predicate NoLatecomers(s: Daemon) {
    && (CountedNone(s.phase) ==> s.late == {})
    && (Committed(s.phase) ==> s.newcomers == {})
  }

  lemma NoLatecomersStep(s: Daemon, a: Action)
    requires Inv(s) && NoLatecomers(s) && Undisturbed(s, a)
    ensures NoLatecomers(Step(s, a))
  {
  }

  /** With atomic ticks there are no latecomers: from the moment the environment is ready for a handler
      until the lease that it grants is released or expires, the reaper never stops the containers or
      the service. */
  lemma {:induction false} ProtectedInterval(sutTTL: int, idleTTL: int, acts: seq<Action>)
    requires QuietRun(Initial(sutTTL, idleTTL), acts)
    ensures Protected(After(Initial(sutTTL, idleTTL), acts)) && NoLatecomers(After(Initial(sutTTL, idleTTL), acts))
  {
    if acts != [] {
      var before := acts[..|acts| - 1];
      var s := After(Initial(sutTTL, idleTTL), before);
      ProtectedInterval(sutTTL, idleTTL, before);
      RunInv(sutTTL, idleTTL, before);
      NoLatecomersStep(s, acts[|acts| - 1]);
      if Enabled(s, acts[|acts| - 1]) {
        BrokenIffLatecomer(sutTTL, idleTTL, before, s, acts[|acts| - 1]);
      }
    }
  }

  lemma Then(s0: Daemon, acts: seq<Action>, s: Daemon, a: Action, t: Daemon) returns (more: seq<Action>)
    requires After(s0, acts) == s && Step(s, a) == t
    ensures After(s0, more) == t
  {
    more := acts + [a];
    assert more[..|more| - 1] == acts;
  }

  /** A first, idle tick: both idle timers start. */
  lemma IdleTick(sutTTL: int, idleTTL: int) returns (acts: seq<Action>)
    ensures After(Initial(sutTTL, idleTTL), acts) ==
              Initial(sutTTL, idleTTL).(idleSince := Reaper.Since(0), sutIdleSince := Reaper.Since(0),
                                        ticks := [Reaper.Tick(0, 0, 0)])
  {
    var s0 := Initial(sutTTL, idleTTL);
    acts := FindsNoLease(s0, [], s0);
    var s2 := s0.(phase := CheckInFlight(0));
    var s3 := s0.(phase := IdleCheck(0), sutIdleSince := Reaper.Since(0), ticks := [Reaper.Tick(0, 0, 0)]);
    var s4 := s0.(sutIdleSince := Reaper.Since(0), idleSince := Reaper.Since(0), ticks := [Reaper.Tick(0, 0, 0)]);
    acts := Then(s0, acts, s2, ReadInFlight, s3);
    acts := Then(s0, acts, s3, ReaperChecksIdle, s4);
  }

  lemma FindsNoLease(s0: Daemon, before: seq<Action>, s: Daemon) returns (acts: seq<Action>)
    requires After(s0, before) == s && s.phase.Waiting? && s.leases == map[] && s.late == {}
    ensures After(s0, acts) == s.(phase := CheckInFlight(s.time))
  {
    var s1 := s.(phase := Counting(s.time));
    acts := Then(s0, before, s, TickGc, s1);
    acts := Then(s0, acts, s1, ReadActive, s.(phase := CheckInFlight(s.time)));
  }

  lemma Advances(s0: Daemon, before: seq<Action>, s: Daemon, progress: Progress) returns (acts: seq<Action>, t: Daemon)
    requires After(s0, before) == s && 0 in s.handlers && CanAdvance(s, 0, progress)
    ensures After(s0, acts) == t
    ensures t == s.(handlers := s.handlers[0 := NextHandler(s, 0, progress)], infra := NextInfra(s.infra, 0, progress))
  {
    t := Do(s, Advance(0, progress));
    acts := Then(s0, before, s, Advance(0, progress), t);
  }

  /** The handler that comes in first starts the containers. */
  lemma StartsInfra(s0: Daemon, before: seq<Action>, s: Daemon) returns (acts: seq<Action>)
    requires After(s0, before) == s && s.handlers == map[0 := Entered] && s.infra.lock.Unlocked? && !s.infra.flag
    ensures After(s0, acts) == s.(handlers := map[0 := InfraReady(s.infra.stops)],
                                  infra := Infra(Unlocked, true, true, s.infra.starts + 1, s.infra.stops))
  {
    var t;
    acts, t := Advances(s0, before, s, TakeLock);
    acts, t := Advances(s0, acts, t, BeginStart);
    acts := FinishesStart(s0, acts, t);
  }

  lemma FinishesStart(s0: Daemon, before: seq<Action>, s: Daemon) returns (acts: seq<Action>)
    requires After(s0, before) == s && s.handlers == map[0 := Starting]
    ensures After(s0, acts) == s.(handlers := map[0 := InfraReady(s.infra.stops)],
                                  infra := Infra(Unlocked, true, true, s.infra.starts + 1, s.infra.stops))
  {
    var t;
    acts, t := Advances(s0, before, s, StartSucceeds);
    acts, t := Advances(s0, acts, t, SetFlag);
  }

  /** Then, once both timers are overdue, a handler comes in and makes everything ready. */
  lemma HandlerComesIn(sutTTL: int, idleTTL: int) returns (acts: seq<Action>)
    requires sutTTL > 0 && idleTTL > 0
    ensures After(Initial(sutTTL, idleTTL), acts) == WithHandler(sutTTL, idleTTL)
  {
    var s0 := Initial(sutTTL, idleTTL);
    acts := IdleTick(sutTTL, idleTTL);
    var s1 := s0.(idleSince := Reaper.Since(0), sutIdleSince := Reaper.Since(0), ticks := [Reaper.Tick(0, 0, 0)]);
    var s2 := s1.(time := sutTTL + idleTTL);
    var s3 := s2.(handlers := map[0 := Entered], inFlight := 1, newcomers := {0});
    acts := Then(s0, acts, s1, Elapse(sutTTL + idleTTL), s2);
    acts := Then(s0, acts, s2, Enter(0), s3);
    acts := StartsInfra(s0, acts, s3);
    acts := GetsStamp(s0, acts, s3.(handlers := map[0 := InfraReady(0)], infra := Infra(Unlocked, true, true, 1, 0)));
  }

  lemma GetsStamp(s0: Daemon, before: seq<Action>, s: Daemon) returns (acts: seq<Action>)
    requires After(s0, before) == s && s.handlers == map[0 := InfraReady(0)] && s.sutStops == 0
    ensures After(s0, acts) == s.(handlers := map[0 := Stamped(Marks(0, 0), s.time)])
  {
    var t;
    acts, t := Advances(s0, before, s, SutOk);
    acts, t := Advances(s0, acts, t, Stamp);
  }

  function WithHandler(sutTTL: int, idleTTL: int): Daemon {
    Initial(sutTTL, idleTTL).(
      time := sutTTL + idleTTL, idleSince := Reaper.Since(0), sutIdleSince := Reaper.Since(0),
      infra := Infra(Unlocked, true, true, 1, 0), ticks := [Reaper.Tick(0, 0, 0)],
      handlers := map[0 := Stamped(Marks(0, 0), sutTTL + idleTTL)], inFlight := 1, newcomers := {0})
  }

  /** Without atomic ticks the guarantee fails, whatever the TTLs: a handler that grants its lease and
      leaves between the tick's two reads loses service and containers at once. */
  lemma SplitTickRace(sutTTL: int, idleTTL: int) returns (acts: seq<Action>)
    requires sutTTL > 0 && idleTTL > 0
    ensures var s := After(Initial(sutTTL, idleTTL), acts);
      s.live == {0} && s.marks == map[0 := Marks(0, 0)] && s.infra.stops == 1 && s.sutStops == 2 && !s.infra.up
  {
    var s0 := Initial(sutTTL, idleTTL);
    var now := sutTTL + idleTTL;
    acts := HandlerComesIn(sutTTL, idleTTL);
    var s1 := WithHandler(sutTTL, idleTTL);
    var s3 := s1.(phase := CheckInFlight(now));
    var s4 := s3.(handlers := map[0 := Granted], leases := map[0 := Lease(7, now, now + LEASE_TTL)],
                  marks := map[0 := Marks(0, 0)], live := {0}, late := {0});
    var s5 := s4.(handlers := map[], inFlight := 0);
    acts := FindsNoLease(s0, acts, s1);
    acts := Then(s0, acts, s3, Grant(0, 0, 7), s4);
    acts := Then(s0, acts, s4, Leave(0), s5);
    acts := TearItDown(s0, acts, s5, now);
  }

  lemma TearItDown(s0: Daemon, before: seq<Action>, s: Daemon, now: int) returns (acts: seq<Action>)
    requires After(s0, before) == s && s.phase == CheckInFlight(now) && s.inFlight == 0
    requires Elapsed(s.sutIdleSince, now, s.sutTTL) && Elapsed(s.idleSince, now, s.idleTTL)
    requires s.infra.lock.Unlocked? && s.infra.flag
    ensures After(s0, acts) == s.(newcomers := {}, sutStops := s.sutStops + 2, phase := ShutHttp,
                                  ticks := s.ticks + [Reaper.Tick(now, 0, 0)],
                                  infra := Infra(Unlocked, false, false, s.infra.starts, s.infra.stops + 1))
  {
    var s1 := s.(newcomers := {}, sutStops := s.sutStops + 1, phase := IdleCheck(now),
                 ticks := s.ticks + [Reaper.Tick(now, 0, 0)]);
    acts := ServiceGoesDown(s0, before, s, now);
    acts := Then(s0, acts, s1, ReaperChecksIdle, s1.(phase := ShutSut));
    acts := ShutsDown(s0, acts, s1.(phase := ShutSut));
  }

  lemma ServiceGoesDown(s0: Daemon, before: seq<Action>, s: Daemon, now: int) returns (acts: seq<Action>)
    requires After(s0, before) == s && s.phase == CheckInFlight(now) && s.inFlight == 0
    requires Elapsed(s.sutIdleSince, now, s.sutTTL)
    ensures After(s0, acts) == s.(newcomers := {}, sutStops := s.sutStops + 1, phase := IdleCheck(now),
                                  ticks := s.ticks + [Reaper.Tick(now, 0, 0)])
  {
    var s1 := s.(newcomers := {}, phase := StopSut(now), ticks := s.ticks + [Reaper.Tick(now, 0, 0)]);
    acts := Then(s0, before, s, ReadInFlight, s1);
    acts := Then(s0, acts, s1, ReaperStopsSut, s1.(sutStops := s.sutStops + 1, phase := IdleCheck(now)));
  }

  lemma ShutsDown(s0: Daemon, before: seq<Action>, s: Daemon) returns (acts: seq<Action>)
    requires After(s0, before) == s && s.phase == ShutSut && s.infra.lock.Unlocked? && s.infra.flag
    ensures After(s0, acts) == s.(sutStops := s.sutStops + 1, phase := ShutHttp,
                                  infra := Infra(Unlocked, false, false, s.infra.starts, s.infra.stops + 1))
  {
    var s1 := s.(sutStops := s.sutStops + 1, phase := ShutInfra);
    acts := Then(s0, before, s, ShutdownStopsSut, s1);
    acts := StopsInfra(s0, acts, s1);
  }

  lemma StopsInfra(s0: Daemon, before: seq<Action>, s: Daemon) returns (acts: seq<Action>)
    requires After(s0, before) == s && s.phase == ShutInfra && s.infra.lock.Unlocked? && s.infra.flag
    ensures After(s0, acts) == s.(phase := ShutHttp,
                                  infra := Infra(Unlocked, false, false, s.infra.starts, s.infra.stops + 1))
  {
    var s1 := s.(infra := s.infra.(lock := ByReaper), phase := StoppingInfra);
    acts := Then(s0, before, s, ShutdownTakesLock, s1);
    acts := EmptiesInfra(s0, acts, s1);
  }

  lemma EmptiesInfra(s0: Daemon, before: seq<Action>, s: Daemon) returns (acts: seq<Action>)
    requires After(s0, before) == s && s.phase == StoppingInfra && s.infra.flag
    ensures After(s0, acts) == s.(phase := ShutHttp,
                                  infra := Infra(Unlocked, false, false, s.infra.starts, s.infra.stops + 1))
  {
    var s1 := s.(infra := s.infra.(stops := s.infra.stops + 1, up := false), phase := ClearingFlag);
    acts := Then(s0, before, s, ShutdownStopsInfra(false), s1);
    acts := Then(s0, acts, s1, ShutdownClearsFlag,
                 s1.(infra := s1.infra.(flag := false, lock := Unlocked), phase := ShutHttp));
  }

  // ---------------------------------------------------------------------------------------------
  // The proviso of ContainersStayDown is needed

  /** A handler that enters after the containers were stopped and before the server is closed starts them
      again; the daemon goes down without anybody left to stop them. */
  lemma StartDuringShutdown(sutTTL: int, idleTTL: int) returns (acts: seq<Action>)
    requires sutTTL > 0 && idleTTL > 0
    ensures var s := After(Initial(sutTTL, idleTTL), acts);
      s.phase.Down? && s.handlers == map[] && s.infra.up && s.infra.stops == 1
  {
    var s0, now := Initial(sutTTL, idleTTL), sutTTL + idleTTL;
    acts := IdleTick(sutTTL, idleTTL);
    var s1 := s0.(idleSince := Reaper.Since(0), sutIdleSince := Reaper.Since(0), ticks := [Reaper.Tick(0, 0, 0)]);
    var s2 := s1.(time := now);
    acts := Then(s0, acts, s1, Elapse(now), s2);
    acts := FindsNoLease(s0, acts, s2);
    var s;
    acts, s := EmptyShutdown(s0, acts, s2.(phase := CheckInFlight(now)), now);
    acts := ComesTooLate(s0, acts, s);
  }

  /** The shutdown of a daemon without containers, up to the point where it is about to close the server. */
  lemma EmptyShutdown(s0: Daemon, before: seq<Action>, s: Daemon, now: int) returns (acts: seq<Action>, t: Daemon)
    requires After(s0, before) == s && s.phase == CheckInFlight(now) && s.inFlight == 0 && s.infra.stops == 0
    requires Elapsed(s.sutIdleSince, now, s.sutTTL) && Elapsed(s.idleSince, now, s.idleTTL)
    requires s.infra.lock.Unlocked? && !s.infra.flag && s.handlers == map[]
    ensures After(s0, acts) == t && t.phase.ShutHttp? && t.infra == s.infra.(stops := 1) && t.handlers == map[]
  {
    var s1 := s.(newcomers := {}, sutStops := s.sutStops + 1, phase := IdleCheck(now),
                 ticks := s.ticks + [Reaper.Tick(now, 0, 0)]);
    acts := ServiceGoesDown(s0, before, s, now);
    acts := Then(s0, acts, s1, ReaperChecksIdle, s1.(phase := ShutSut));
    var s2 := s1.(sutStops := s1.sutStops + 1, phase := ShutInfra);
    acts := Then(s0, acts, s1.(phase := ShutSut), ShutdownStopsSut, s2);
    acts, t := FindsNothingToStop(s0, acts, s2);
  }

  lemma FindsNothingToStop(s0: Daemon, before: seq<Action>, s: Daemon) returns (acts: seq<Action>, t: Daemon)
    requires After(s0, before) == s && s.phase.ShutInfra? && s.infra.lock.Unlocked? && !s.infra.flag
    ensures After(s0, acts) == t && t == s.(phase := ShutHttp, infra := s.infra.(stops := s.infra.stops + 1))
  {
    var s1 := s.(infra := s.infra.(lock := ByReaper), phase := StoppingInfra);
    t := s.(phase := ShutHttp, infra := s.infra.(stops := s.infra.stops + 1));
    acts := Then(s0, before, s, ShutdownTakesLock, s1);
    acts := Then(s0, acts, s1, ShutdownStopsInfra(false), t);
  }

  lemma ComesTooLate(s0: Daemon, before: seq<Action>, s: Daemon) returns (acts: seq<Action>)
    requires After(s0, before) == s && s.phase.ShutHttp? && s.infra.lock.Unlocked? && !s.infra.flag
    requires s.handlers == map[] && s.infra.stops == 1
    ensures var t := After(s0, acts); t.phase.Down? && t.handlers == map[] && t.infra.up && t.infra.stops == 1
  {
    var s1 := s.(handlers := map[0 := Entered], inFlight := s.inFlight + 1, newcomers := s.newcomers + {0});
    acts := Then(s0, before, s, Enter(0), s1);
    acts := StartsInfra(s0, acts, s1);
    var s2 := s1.(handlers := map[0 := InfraReady(1)], infra := Infra(Unlocked, true, true, s.infra.starts + 1, 1));
    acts := Then(s0, acts, s2, CloseServer, s2.(phase := Down));
    acts := Then(s0, acts, s2.(phase := Down), Abort(0), s2.(phase := Down, handlers := map[], inFlight := s.inFlight));
  }
}
