/** The reaper loop of the daemon and its two idle timers, against a specification in terms of the
    ticks that the loop has seen. */
module Reaper {
  import opened Leases

  const REAP_PERIOD: int := 2000

  /** What one tick reads: the clock, the number of active leases, the number of Acquire handlers. */
  datatype Tick = Tick(now: int, active: nat, inFlight: nat)

  datatype Timer = Zero | Since(start: int)

  datatype Shutdown = Never | At(tick: nat)

  predicate Busy(t: Tick) { t.active > 0 || t.inFlight > 0 }

  predicate Ordered(ticks: seq<Tick>) {
    forall i, j :: 0 <= i < j < |ticks| ==> ticks[i].now <= ticks[j].now
  }

  predicate IdleFrom(ticks: seq<Tick>, r: nat, i: nat) {
    r <= i < |ticks| && forall j :: r <= j <= i ==> !Busy(ticks[j])
  }

  /** At tick i, the daemon has looked idle at every tick of the last ttl milliseconds or more. */
  predicate IdleFor(ticks: seq<Tick>, i: nat, ttl: int) {
    i < |ticks| && exists r :: 0 <= r <= i && IdleFrom(ticks, r, i) && ticks[i].now - ticks[r].now >= ttl
  }

  /** How long the idle stretch that ends at tick i has lasted; -1 at a busy tick. */
  function IdleSpan(ticks: seq<Tick>, i: nat): int
    requires i < |ticks|
  {
    if Busy(ticks[i]) then -1
    else if i == 0 || Busy(ticks[i - 1]) then 0
    else IdleSpan(ticks, i - 1) + ticks[i].now - ticks[i - 1].now
  }

  predicate Due(ticks: seq<Tick>, i: nat, ttl: int) { i < |ticks| && IdleSpan(ticks, i) >= ttl }

  predicate FirstDue(ticks: seq<Tick>, i: nat, ttl: int) {
    Due(ticks, i, ttl) && forall j :: 0 <= j < i ==> !Due(ticks, j, ttl)
  }

  lemma {:induction false} IdleSpanSpans(ticks: seq<Tick>, i: nat) returns (r: nat)
    requires Ordered(ticks) && i < |ticks| && !Busy(ticks[i])
    ensures IdleFrom(ticks, r, i) && IdleSpan(ticks, i) == ticks[i].now - ticks[r].now >= 0
    ensures r == 0 || Busy(ticks[r - 1])
  {
    r := i;
    if i > 0 && !Busy(ticks[i - 1]) {
      r := IdleSpanSpans(ticks, i - 1);
    }
  }

  /** Being due at a tick means that every tick of some stretch up to it, at least ttl long, was idle. */
  lemma DueIffIdleFor(ticks: seq<Tick>, i: nat, ttl: int)
    requires Ordered(ticks) && i < |ticks| && ttl > 0
    ensures Due(ticks, i, ttl) <==> IdleFor(ticks, i, ttl)
  {
    if Busy(ticks[i]) {
      forall q | 0 <= q <= i ensures !IdleFrom(ticks, q, i) {}
    } else {
      var r := IdleSpanSpans(ticks, i);
      forall q | 0 <= q <= i && IdleFrom(ticks, q, i) ensures q >= r {}
    }
  }

  function StopTicks(ticks: seq<Tick>, n: nat, ttl: int): seq<nat>
    requires n <= |ticks|
  {
    if n == 0 then [] else StopTicks(ticks, n - 1, ttl) + if Due(ticks, n - 1, ttl) then [n - 1] else []
  }

  lemma {:induction false} StopTicksAre(ticks: seq<Tick>, n: nat, ttl: int)
    requires n <= |ticks|
    ensures var stops := StopTicks(ticks, n, ttl);
      && (forall i :: i in stops <==> 0 <= i < n && Due(ticks, i, ttl))
      && (forall a :: 0 <= a < |stops| ==> stops[a] < n)
      && (forall a, b :: 0 <= a < b < |stops| ==> stops[a] < stops[b])
  {
    if n > 0 {
      StopTicksAre(ticks, n - 1, ttl);
    }
  }

  /** The loop over the ticks that arrive before the daemon is told to stop. It reports the ticks at
      which it stops the service under test and the tick, if any, at which it shuts the daemon down:
      a stop at exactly the ticks where the running idle stretch has lasted the service's TTL, up to
      the shutdown, which comes at the first tick where it has lasted the daemon's. */
  method LoopReaper(ticks: seq<Tick>, sutTTL: int, idleTTL: int) returns (sutStops: seq<nat>, shutdown: Shutdown)
    requires sutTTL > 0 && idleTTL > 0
    ensures shutdown.Never? ==> forall i :: 0 <= i < |ticks| ==> !Due(ticks, i, idleTTL)
    ensures shutdown.At? ==> FirstDue(ticks, shutdown.tick, idleTTL)
    ensures forall i :: i in sutStops <==>
              0 <= i < |ticks| && (shutdown.At? ==> i <= shutdown.tick) && Due(ticks, i, sutTTL)
    ensures forall a, b :: 0 <= a < b < |sutStops| ==> sutStops[a] < sutStops[b]
  {
    var idleSince, sutIdleSince := Zero, Zero;
    sutStops, shutdown := [], Never;
    var i := 0;
    while i < |ticks|
      invariant 0 <= i <= |ticks|
      invariant idleSince == sutIdleSince
      invariant idleSince == if i == 0 || Busy(ticks[i - 1]) then Zero
                             else Since(ticks[i - 1].now - IdleSpan(ticks, i - 1))
      invariant forall j :: 0 <= j < i ==> !Due(ticks, j, idleTTL)
      invariant sutStops == StopTicks(ticks, i, sutTTL)
      invariant shutdown == Never
    {
      var now := ticks[i].now;
      i := i + 1;
      if ticks[i - 1].active > 0 {
        idleSince := Zero;
        sutIdleSince := Zero;
        continue;
      }
      if ticks[i - 1].inFlight > 0 {
        idleSince := Zero;
        sutIdleSince := Zero;
        continue;
      }
      if sutIdleSince == Zero {
        sutIdleSince := Since(now);
      } else if now - sutIdleSince.start >= sutTTL {
        sutStops := sutStops + [i - 1];
      }
      if idleSince == Zero {
        idleSince := Since(now);
        continue;
      }
      if now - idleSince.start >= idleTTL {
        assert sutStops == StopTicks(ticks, i, sutTTL);
        shutdown := At(i - 1);
        StopTicksAre(ticks, i, sutTTL);
        return;
      }
    }
    StopTicksAre(ticks, i, sutTTL);
  }

  // ---------------------------------------------------------------------------------------------
  // From the stop of the service to the shutdown

  ghost predicate Spaced(ticks: seq<Tick>, period: int) {
    forall i, j :: 0 <= i < j < |ticks| && j == i + 1 ==> ticks[j].now - ticks[i].now <= period
  }

  /** In one idle stretch, the service is first stopped at tick j and the daemon shuts down at tick k. */
  predicate StopsThenShuts(ticks: seq<Tick>, sutTTL: int, idleTTL: int, j: nat, k: nat) {
    && Ordered(ticks) && FirstDue(ticks, k, idleTTL)
    && IdleFrom(ticks, j, k) && Due(ticks, j, sutTTL) && (j == 0 || !Due(ticks, j - 1, sutTTL))
  }

  /** The shutdown follows the first stop of the service by the difference of the two TTLs, up to one
      tick distance in each direction. */
  lemma StopToShutdown(ticks: seq<Tick>, sutTTL: int, idleTTL: int, period: int, j: nat, k: nat)
    requires sutTTL > 0 && idleTTL > 0 && StopsThenShuts(ticks, sutTTL, idleTTL, j, k) && Spaced(ticks, period)
    ensures var gap := ticks[k].now - ticks[j].now;
      0 <= gap && idleTTL - sutTTL - period < gap < idleTTL - sutTTL + period
  {
    var r := IdleSpanSpans(ticks, j);
    StretchGoesOn(ticks, r, j, k);
    NotYet(ticks, r, j - 1, sutTTL);
    NotYet(ticks, r, k - 1, idleTTL);
    assert ticks[j].now - ticks[j - 1].now <= period && ticks[k].now - ticks[k - 1].now <= period;
  }

  lemma {:induction false} StretchGoesOn(ticks: seq<Tick>, r: nat, j: nat, k: nat)
    requires Ordered(ticks) && IdleFrom(ticks, r, j) && IdleFrom(ticks, j, k)
    requires IdleSpan(ticks, j) == ticks[j].now - ticks[r].now
    ensures IdleFrom(ticks, r, k) && IdleSpan(ticks, k) == ticks[k].now - ticks[r].now
  {
    if k > j {
      StretchGoesOn(ticks, r, j, k - 1);
    }
  }

  lemma NotYet(ticks: seq<Tick>, r: nat, i: nat, ttl: int)
    requires Ordered(ticks) && ttl > 0 && r <= i < |ticks| && IdleFrom(ticks, r, i) && !Due(ticks, i, ttl)
    ensures ticks[i].now - ticks[r].now < ttl
  {
    DueIffIdleFor(ticks, i, ttl);
  }

  /** The documentation's rule, that the containers are destroyed the daemon's TTL after the service was
      stopped, fails for all TTLs: with ticks at the stop of the service and at the shutdown, the daemon
      shuts down sooner. */
  lemma ShutdownTooSoon(sutTTL: int, idleTTL: int) returns (ticks: seq<Tick>, k: nat)
    requires sutTTL > 0 && idleTTL > 0
    ensures StopsThenShuts(ticks, sutTTL, idleTTL, 1, k)
    ensures ticks[k].now - ticks[1].now == (if idleTTL > sutTTL then idleTTL - sutTTL else 0) < idleTTL
  {
    var last := if idleTTL > sutTTL then idleTTL else sutTTL;
    ticks := [Tick(0, 0, 0), Tick(sutTTL, 0, 0), Tick(last, 0, 0)];
    k := if idleTTL > sutTTL then 2 else 1;
    assert IdleSpan(ticks, 0) == 0 && IdleSpan(ticks, 1) == sutTTL && IdleSpan(ticks, 2) == last;
  }

  // The reaper's ticker fires once per period, and its channel holds one tick. All ticks are handled at
  // once, but the one that stops the service, which can take longer than a period.

  function Later(x: int, y: int): int { if x < y then y else x }

  /** When the ticker fires next after t; it fires at the multiples of the period. */
  function NextFire(t: int): int { t - t % REAP_PERIOD + REAP_PERIOD }

  /** The first tick of an idle stretch at which the service's TTL has passed; later ones find it stopped. */
  predicate StopsService(ticks: seq<Tick>, i: nat, sutTTL: int) {
    Due(ticks, i, sutTTL) && (i == 0 || !Due(ticks, i - 1, sutTTL))
  }

  /** Tick j follows tick i, if stopping the service takes at most so long. */
  predicate Follows(ticks: seq<Tick>, i: nat, j: nat, sutTTL: int, longest: int)
    requires i < |ticks| && j < |ticks|
  {
    || ticks[j].now == NextFire(ticks[i].now)
    || (StopsService(ticks, i, sutTTL) && NextFire(ticks[i].now) <= ticks[j].now <= ticks[i].now + longest)
  }

  ghost predicate TickerTicks(ticks: seq<Tick>, sutTTL: int, longest: int) {
    && (ticks != [] ==> ticks[0].now % REAP_PERIOD == 0)
    && forall i, j :: 0 <= i < j < |ticks| && j == i + 1 ==> Follows(ticks, i, j, sutTTL, longest)
  }

  /** Unless tick i stops the service, the next one comes with the ticker. */
  lemma ComesSoon(ticks: seq<Tick>, i: nat, j: nat, sutTTL: int, longest: int)
    requires i < |ticks| && j < |ticks| && Follows(ticks, i, j, sutTTL, longest)
    ensures StopsService(ticks, i, sutTTL) ==> ticks[j].now <= ticks[i].now + Later(REAP_PERIOD, longest)
    ensures !StopsService(ticks, i, sutTTL) ==> ticks[j].now <= ticks[i].now + REAP_PERIOD
  {
  }

  lemma NextFireIsFirst(t: int, u: int)
    requires u % REAP_PERIOD == 0 && u > t
    ensures u >= NextFire(t)
  {
  }

  /** In an idle stretch, up to the tick that stops the service, the ticks come with the ticker. */
  lemma {:induction false} TicksWithTicker(ticks: seq<Tick>, sutTTL: int, longest: int, r: nat, i: nat)
    requires TickerTicks(ticks, sutTTL, longest) && sutTTL > 0
    requires IdleFrom(ticks, r, i) && (r == 0 || Busy(ticks[r - 1]))
    requires forall m :: r <= m < i ==> !Due(ticks, m, sutTTL)
    ensures ticks[i].now % REAP_PERIOD == 0 && (i > r ==> ticks[i].now >= ticks[r].now + REAP_PERIOD)
  {
    if i > r {
      TicksWithTicker(ticks, sutTTL, longest, r, i - 1);
      assert Follows(ticks, i - 1, i, sutTTL, longest);
    } else if r > 0 {
      assert Follows(ticks, r - 1, r, sutTTL, longest);
    }
  }

  /** Being due lasts as long as the idle stretch. */
  lemma {:induction false} StaysDue(ticks: seq<Tick>, i: nat, j: nat, ttl: int)
    requires Ordered(ticks) && ttl > 0 && IdleFrom(ticks, i, j) && Due(ticks, i, ttl)
    ensures Due(ticks, j, ttl)
  {
    if j > i {
      StaysDue(ticks, i, j - 1, ttl);
    }
  }

  /** Some ticks of the ticker for which the documentation's rule holds. */
  ghost predicate DocumentedGap(sutTTL: int, idleTTL: int, longest: int) {
    exists ticks: seq<Tick>, j: nat, k: nat ::
      && StopsThenShuts(ticks, sutTTL, idleTTL, j, k) && TickerTicks(ticks, sutTTL, longest)
      && ticks[k].now - ticks[j].now >= idleTTL
  }

  /** It can hold only if stopping the service takes the daemon's whole TTL, so that the next tick is so
      late; and it holds then, unless the daemon's TTL has passed at the tick that stops the service. */
  lemma DocumentedGapIff(sutTTL: int, idleTTL: int, longest: int)
    requires sutTTL > 0 && idleTTL > 0
    ensures DocumentedGap(sutTTL, idleTTL, longest) <==> NextFire(sutTTL - 1) < idleTTL <= longest
  {
    if NextFire(sutTTL - 1) < idleTTL <= longest {
      SlowStopGap(sutTTL, idleTTL, longest);
    }
    if DocumentedGap(sutTTL, idleTTL, longest) {
      var ticks: seq<Tick>, j: nat, k: nat :|
        && StopsThenShuts(ticks, sutTTL, idleTTL, j, k) && TickerTicks(ticks, sutTTL, longest)
        && ticks[k].now - ticks[j].now >= idleTTL;
      GapNeedsSlowStop(ticks, sutTTL, idleTTL, longest, j, k);
    }
  }

  lemma GapNeedsSlowStop(ticks: seq<Tick>, sutTTL: int, idleTTL: int, longest: int, j: nat, k: nat)
    requires sutTTL > 0 && idleTTL > 0
    requires StopsThenShuts(ticks, sutTTL, idleTTL, j, k) && TickerTicks(ticks, sutTTL, longest)
    requires ticks[k].now - ticks[j].now >= idleTTL
    ensures NextFire(sutTTL - 1) < idleTTL <= longest
  {
    var r := IdleSpanSpans(ticks, j);
    NotDueBefore(ticks, sutTTL, r, j);
    TicksWithTicker(ticks, sutTTL, longest, r, j);
    TicksWithTicker(ticks, sutTTL, longest, r, r);
    var span := ticks[j].now - ticks[r].now;
    NextFireIsFirst(sutTTL - 1, span);
    assert j < k && !Due(ticks, j, idleTTL);
    var i := k - 1;
    assert Follows(ticks, i, k, sutTTL, longest);
    if i == j {
      ComesSoon(ticks, j, k, sutTTL, longest);
    } else {
      AfterStop(ticks, sutTTL, idleTTL, longest, r, j, i, k);
    }
  }

  lemma NotDueBefore(ticks: seq<Tick>, ttl: int, r: nat, j: nat)
    requires Ordered(ticks) && ttl > 0 && IdleFrom(ticks, r, j) && (j == 0 || !Due(ticks, j - 1, ttl))
    ensures forall m :: r <= m < j ==> !Due(ticks, m, ttl)
  {
    forall m | r <= m < j ensures !Due(ticks, m, ttl) {
      if Due(ticks, m, ttl) {
        StaysDue(ticks, m, j - 1, ttl);
      }
    }
  }

  /** After the stop at tick j, the shutdown comes with the next tick, or with the ticker again: the tick i
      before it is the one that stops the service, or the ticker goes on. */
  lemma AfterStop(ticks: seq<Tick>, sutTTL: int, idleTTL: int, longest: int, r: nat, j: nat, i: nat, k: nat)
    requires sutTTL > 0 && idleTTL > 0 && Ordered(ticks) && j < i < |ticks| && k < |ticks| && IdleFrom(ticks, j, i)
    requires Due(ticks, j, sutTTL) && !Due(ticks, i, idleTTL) && Follows(ticks, i, k, sutTTL, longest)
    requires IdleFrom(ticks, r, j) && IdleSpan(ticks, j) == ticks[j].now - ticks[r].now
    ensures ticks[k].now < ticks[r].now + idleTTL + REAP_PERIOD
  {
    StoppedBefore(ticks, sutTTL, j, i);
    LastButOne(ticks, idleTTL, r, j, i);
    ComesSoon(ticks, i, k, sutTTL, longest);
  }

  lemma StoppedBefore(ticks: seq<Tick>, sutTTL: int, j: nat, i: nat)
    requires Ordered(ticks) && sutTTL > 0 && j < i && IdleFrom(ticks, j, i) && Due(ticks, j, sutTTL)
    ensures !StopsService(ticks, i, sutTTL)
  {
    StaysDue(ticks, j, i - 1, sutTTL);
  }

  lemma LastButOne(ticks: seq<Tick>, idleTTL: int, r: nat, j: nat, i: nat)
    requires idleTTL > 0 && Ordered(ticks) && IdleFrom(ticks, j, i) && !Due(ticks, i, idleTTL)
    requires IdleFrom(ticks, r, j) && IdleSpan(ticks, j) == ticks[j].now - ticks[r].now
    ensures ticks[i].now < ticks[r].now + idleTTL
  {
    StretchGoesOn(ticks, r, j, i);
  }

  /** Idle ticks at the multiples of the period. */
  function UpTo(last: int): (ticks: seq<Tick>)
    requires last >= 0 && last % REAP_PERIOD == 0
    ensures ticks != [] && ticks[0] == Tick(0, 0, 0) && ticks[|ticks| - 1] == Tick(last, 0, 0)
    ensures forall i :: 0 <= i < |ticks| ==> !Busy(ticks[i]) && 0 <= ticks[i].now <= last && ticks[i].now % REAP_PERIOD == 0
    ensures forall i, j :: 0 <= i < j < |ticks| && j == i + 1 ==> ticks[j].now == ticks[i].now + REAP_PERIOD
    decreases last
  {
    if last == 0 then [Tick(0, 0, 0)] else UpTo(last - REAP_PERIOD) + [Tick(last, 0, 0)]
  }

  /** Ticks with the ticker up to the stop, which then takes the daemon's TTL. */
  function SlowStop(stop: int, idleTTL: int): (ticks: seq<Tick>)
    requires stop > 0 && stop % REAP_PERIOD == 0 && idleTTL > 0
    ensures |ticks| >= 2 && ticks[0].now == 0 && ticks[|ticks| - 2].now == stop && ticks[|ticks| - 1].now == stop + idleTTL
    ensures forall i :: 0 <= i < |ticks| ==> !Busy(ticks[i])
    ensures forall i :: 0 <= i < |ticks| - 1 ==> 0 <= ticks[i].now <= stop && ticks[i].now % REAP_PERIOD == 0
    ensures forall i, j :: 0 <= i < j < |ticks| - 1 && j == i + 1 ==> ticks[j].now == ticks[i].now + REAP_PERIOD
  {
    UpTo(stop) + [Tick(stop + idleTTL, 0, 0)]
  }

  lemma SlowStopGap(sutTTL: int, idleTTL: int, longest: int)
    requires sutTTL > 0 && idleTTL > 0 && NextFire(sutTTL - 1) < idleTTL <= longest
    ensures DocumentedGap(sutTTL, idleTTL, longest)
  {
    var stop := NextFire(sutTTL - 1);
    var ticks := SlowStop(stop, idleTTL);
    var n := |ticks| - 2;
    GridOrdered(ticks, n);
    forall i | 0 <= i <= n + 1 ensures IdleSpan(ticks, i) == ticks[i].now {
      SpanFromZero(ticks, i);
    }
    SlowStopIsTicks(ticks, n, sutTTL, idleTTL, longest);
    assert StopsThenShuts(ticks, sutTTL, idleTTL, n, n + 1);
  }

  lemma SlowStopIsTicks(ticks: seq<Tick>, n: nat, sutTTL: int, idleTTL: int, longest: int)
    requires sutTTL > 0 && |ticks| == n + 2 && ticks[0].now == 0
    requires Due(ticks, n, sutTTL) && (n == 0 || !Due(ticks, n - 1, sutTTL))
    requires forall i, j :: 0 <= i < j <= n && j == i + 1 ==> ticks[j].now == ticks[i].now + REAP_PERIOD
    requires forall i :: 0 <= i <= n ==> ticks[i].now % REAP_PERIOD == 0
    requires REAP_PERIOD < idleTTL <= longest && ticks[n + 1].now == ticks[n].now + idleTTL
    ensures TickerTicks(ticks, sutTTL, longest)
  {
    forall i, j | 0 <= i < j < |ticks| && j == i + 1 ensures Follows(ticks, i, j, sutTTL, longest) {
    }
  }

  lemma GridOrdered(ticks: seq<Tick>, n: nat)
    requires |ticks| == n + 2 && ticks[n + 1].now >= ticks[n].now
    requires forall i, j :: 0 <= i < j <= n && j == i + 1 ==> ticks[j].now == ticks[i].now + REAP_PERIOD
    ensures Ordered(ticks)
  {
    forall i, j | 0 <= i < j < |ticks| ensures ticks[i].now <= ticks[j].now {
      GridStep(ticks, n, i, if j <= n then j else n);
    }
  }

  lemma {:induction false} GridStep(ticks: seq<Tick>, n: nat, i: nat, j: nat)
    requires |ticks| == n + 2 && i <= j <= n
    requires forall a, b :: 0 <= a < b <= n && b == a + 1 ==> ticks[b].now == ticks[a].now + REAP_PERIOD
    ensures ticks[i].now <= ticks[j].now
  {
    if i < j {
      GridStep(ticks, n, i, j - 1);
      assert ticks[j].now == ticks[j - 1].now + REAP_PERIOD;
    }
  }

  /** So it never holds when the ticks are one period apart. */
  lemma EvenTicksNever(ticks: seq<Tick>, sutTTL: int, idleTTL: int, j: nat, k: nat)
    requires sutTTL > 0 && idleTTL > 0
    requires StopsThenShuts(ticks, sutTTL, idleTTL, j, k) && TickerTicks(ticks, sutTTL, REAP_PERIOD)
    ensures ticks[k].now - ticks[j].now < idleTTL
  {
    if ticks[k].now - ticks[j].now >= idleTTL {
      GapNeedsSlowStop(ticks, sutTTL, idleTTL, REAP_PERIOD, j, k);
    }
  }

  lemma {:induction false} SpanFromZero(ticks: seq<Tick>, i: nat)
    requires i < |ticks| && ticks[0].now == 0 && forall j :: 0 <= j <= i ==> !Busy(ticks[j])
    ensures IdleSpan(ticks, i) == ticks[i].now
  {
    if i > 0 {
      SpanFromZero(ticks, i - 1);
    }
  }

  // ---------------------------------------------------------------------------------------------
  // How soon an abandoned daemon is reclaimed

  /** The ticks that the reaper sees when nobody touches the store any more: each one collects, and
      then counts what is left. */
  function QuietTicks(s: Store, times: seq<int>): (ticks: seq<Tick>)
    ensures |ticks| == |times|
    ensures forall i :: 0 <= i < |times| ==> ticks[i].now == times[i] && ticks[i].inFlight == 0
  {
    if times == [] then [] else
    var left := Collected(s, times[0]);
    [Tick(times[0], |ActiveIds(left, times[0])|, 0)] + QuietTicks(left, times[1..])
  }

  predicate OrderedTimes(times: seq<int>) {
    forall i, j :: 0 <= i < j < |times| ==> times[i] <= times[j]
  }

  lemma {:induction false} QuietTickIsBusyIff(s: Store, times: seq<int>, i: nat)
    requires OrderedTimes(times) && i < |times|
    ensures Busy(QuietTicks(s, times)[i]) <==> exists id :: id in s && s[id].expireAt > times[i]
  {
    var left := Collected(s, times[0]);
    if i == 0 {
      assert ActiveIds(left, times[0]) == ActiveIds(s, times[0]);
      if id :| id in s && s[id].expireAt > times[0] {
        assert id in ActiveIds(s, times[0]);
      }
    } else {
      QuietTickIsBusyIff(left, times[1..], i - 1);
      assert forall id :: id in s && s[id].expireAt > times[i] ==> id in left && left[id].expireAt > times[i];
    }
  }

  /** The last lease expires then, or before. */
  predicate ExpiredBy(s: Store, expiry: int) {
    forall id :: id in s ==> s[id].expireAt <= expiry
  }

  predicate LastExpiry(s: Store, expiry: int) {
    ExpiredBy(s, expiry) && exists id :: id in s && s[id].expireAt == expiry
  }

  lemma QuietTail(before: seq<Tick>, s: Store, times: seq<int>, expiry: int, i: nat)
    requires Ordered(before + QuietTicks(s, times)) && |before| <= i < |before| + |times|
    ensures ExpiredBy(s, expiry) && times[i - |before|] >= expiry ==> !Busy((before + QuietTicks(s, times))[i])
    ensures LastExpiry(s, expiry) && times[i - |before|] < expiry ==> Busy((before + QuietTicks(s, times))[i])
  {
    var ticks := before + QuietTicks(s, times);
    assert forall j :: 0 <= j < |times| ==> ticks[|before| + j].now == times[j];
    QuietTickIsBusyIff(s, times, i - |before|);
  }

  // The whole life of a daemon up to its shutdown: some ticks before the last activity on the store, at
  // time `last`, and the quiet ticks after it.

  predicate Abandoned(before: seq<Tick>, s: Store, times: seq<int>, last: int) {
    && Ordered(before + QuietTicks(s, times))
    && (forall i :: 0 <= i < |before| ==> before[i].now <= last)
    && (forall i :: 0 <= i < |times| ==> last <= times[i])
  }

  /** A daemon that nobody uses any more is shut down less than its TTL and two tick distances after the
      last activity and the last expiry. */
  lemma ReclaimedInTime(before: seq<Tick>, s: Store, times: seq<int>, last: int, expiry: int,
                                           period: int, idleTTL: int, k: nat)
    requires Abandoned(before, s, times, last) && ExpiredBy(s, expiry) && idleTTL > 0
    requires times != [] && times[0] <= last + period && Spaced(before + QuietTicks(s, times), period)
    requires FirstDue(before + QuietTicks(s, times), k, idleTTL)
    ensures (before + QuietTicks(s, times))[k].now < Later(last, expiry) + idleTTL + 2 * period
  {
    var ticks := before + QuietTicks(s, times);
    if ticks[k].now > Later(last, expiry) + period {
      var f := FirstIdle(before, s, times, last, expiry, period, k);
      NotYet(ticks, f, k - 1, idleTTL);
      assert ticks[k].now - ticks[k - 1].now <= period;
    }
  }

  /** The first tick after the last activity and the last expiry comes within a tick distance. */
  lemma FirstIdle(before: seq<Tick>, s: Store, times: seq<int>, last: int, expiry: int, period: int, k: nat)
    returns (f: nat)
    requires Abandoned(before, s, times, last) && ExpiredBy(s, expiry)
    requires times != [] && times[0] <= last + period && Spaced(before + QuietTicks(s, times), period)
    requires k < |before| + |times| && (before + QuietTicks(s, times))[k].now > Later(last, expiry) + period
    ensures |before| <= f < k && (before + QuietTicks(s, times))[f].now <= Later(last, expiry) + period
    ensures IdleFrom(before + QuietTicks(s, times), f, k)
  {
    var ticks := before + QuietTicks(s, times);
    f := FirstNotBefore(ticks, |before|, k, expiry);
    assert ticks[|before|].now == times[0];
    if f > |before| {
      assert ticks[f].now - ticks[f - 1].now <= period;
    }
    TimesAreOrdered(before, s, times);
    assert ticks[f] == QuietTicks(s, times)[f - |before|];
    AllIdle(before, s, times, expiry, f, k);
  }

  lemma {:induction false} FirstNotBefore(ticks: seq<Tick>, n: nat, k: nat, expiry: int) returns (f: nat)
    requires n <= k < |ticks| && expiry <= ticks[k].now
    ensures n <= f <= k && expiry <= ticks[f].now && (f == n || ticks[f - 1].now < expiry)
  {
    f := k;
    if k > n && ticks[k - 1].now >= expiry {
      f := FirstNotBefore(ticks, n, k - 1, expiry);
    }
  }

  lemma AllIdle(before: seq<Tick>, s: Store, times: seq<int>, expiry: int, f: nat, k: nat)
    requires OrderedTimes(times) && ExpiredBy(s, expiry)
    requires |before| <= f <= k < |before| + |times| && times[f - |before|] >= expiry
    ensures IdleFrom(before + QuietTicks(s, times), f, k)
  {
    forall i | f - |before| <= i < |times| ensures !Busy(QuietTicks(s, times)[i]) {
      QuietTickIsBusyIff(s, times, i);
    }
    IdleAppended(before, QuietTicks(s, times), f, k);
  }

  lemma IdleAppended(before: seq<Tick>, quiet: seq<Tick>, f: nat, k: nat)
    requires |before| <= f <= k < |before| + |quiet|
    requires forall i :: f - |before| <= i < |quiet| ==> !Busy(quiet[i])
    ensures IdleFrom(before + quiet, f, k)
  {
    forall i | f <= i <= k ensures !Busy((before + quiet)[i]) {
      assert (before + quiet)[i] == quiet[i - |before|];
    }
  }

  lemma TimesAreOrdered(before: seq<Tick>, s: Store, times: seq<int>)
    requires Ordered(before + QuietTicks(s, times))
    ensures OrderedTimes(times)
  {
    var ticks := before + QuietTicks(s, times);
    forall i, j | 0 <= i < j < |times| ensures times[i] <= times[j] {
      assert ticks[|before| + i].now == times[i] && ticks[|before| + j].now == times[j];
    }
  }

  /** And that shutdown does happen, if the ticks go on for long enough. */
  lemma Reclaimed(before: seq<Tick>, s: Store, times: seq<int>, last: int, expiry: int, period: int,
                                     idleTTL: int)
    returns (k: nat)
    requires Abandoned(before, s, times, last) && ExpiredBy(s, expiry) && idleTTL > 0
    requires times != [] && times[0] <= last + period && Spaced(before + QuietTicks(s, times), period)
    requires times[|times| - 1] >= Later(last, expiry) + period + idleTTL
    ensures FirstDue(before + QuietTicks(s, times), k, idleTTL)
  {
    var ticks := before + QuietTicks(s, times);
    var n := |before| + |times| - 1;
    assert ticks[n] == QuietTicks(s, times)[|times| - 1];
    var f := FirstIdle(before, s, times, last, expiry, period, n);
    k := EarliestDue(ticks, f, n, idleTTL);
  }

  lemma EarliestDue(ticks: seq<Tick>, f: nat, n: nat, ttl: int) returns (k: nat)
    requires Ordered(ticks) && ttl > 0 && IdleFrom(ticks, f, n) && ticks[n].now - ticks[f].now >= ttl
    ensures k <= n && FirstDue(ticks, k, ttl)
  {
    DueIffIdleFor(ticks, n, ttl);
    k := 0;
    while !Due(ticks, k, ttl)
      invariant 0 <= k <= n
      invariant forall j :: 0 <= j < k ==> !Due(ticks, j, ttl)
      decreases n - k
    {
      k := k + 1;
    }
  }

  /** When the idle timers started that are running after some ticks; none is running after a busy one. */
  function IdleSince(before: seq<Tick>): Timer {
    if before == [] || Busy(before[|before| - 1]) then Zero
    else Since(before[|before| - 1].now - IdleSpan(before, |before| - 1))
  }

  ghost predicate SpacedTimes(times: seq<int>, period: int) {
    forall i, j :: 0 <= i < j < |times| && j == i + 1 ==> times[j] - times[i] <= period
  }

  predicate ShutAt(before: seq<Tick>, s: Store, times: seq<int>, k: nat, idleTTL: int) {
    Ordered(before + QuietTicks(s, times)) && FirstDue(before + QuietTicks(s, times), k, idleTTL)
  }

  /** However the ticks go on, at most a period apart: the shutdown does not come before idleTTL after
      the last expiry. */
  ghost predicate NeverTooEarly(before: seq<Tick>, s: Store, next: int, expiry: int, period: int, idleTTL: int) {
    forall times: seq<int>, k: nat ::
      times != [] && times[0] == next && SpacedTimes(times, period) && ShutAt(before, s, times, k, idleTTL) ==>
        (before + QuietTicks(s, times))[k].now >= expiry + idleTTL
  }

  /** The next tick still sees the last lease, or the idle timer is not running from before its expiry;
      or the next tick comes so late that no harm is done. */
  predicate LeaseSeen(before: seq<Tick>, next: int, expiry: int, idleTTL: int) {
    || next < expiry
    || IdleSince(before).Zero? || IdleSince(before).start >= expiry
    || next >= expiry + idleTTL
  }

  lemma {:induction false} SpanPrefix(a: seq<Tick>, b: seq<Tick>, i: nat)
    requires i < |a|
    ensures IdleSpan(a + b, i) == IdleSpan(a, i)
  {
    assert (a + b)[i] == a[i];
    if i > 0 {
      SpanPrefix(a, b, i - 1);
      assert (a + b)[i - 1] == a[i - 1];
    }
  }

  lemma {:induction false} SpanFrom(ticks: seq<Tick>, r: nat, i: nat)
    requires IdleFrom(ticks, r, i) && (r == 0 || Busy(ticks[r - 1]))
    ensures IdleSpan(ticks, i) == ticks[i].now - ticks[r].now
  {
    if i > r {
      SpanFrom(ticks, r, i - 1);
    }
  }

  /** The idle timer that runs after the earlier ticks goes on running through idle quiet ticks. */
  lemma {:induction false} TimerGoesOn(before: seq<Tick>, quiet: seq<Tick>, i: nat)
    requires IdleSince(before).Since? && i < |quiet| && forall j :: 0 <= j <= i ==> !Busy(quiet[j])
    ensures IdleSpan(before + quiet, |before| + i) == quiet[i].now - IdleSince(before).start
  {
    var ticks := before + quiet;
    assert ticks[|before| + i] == quiet[i];
    if i == 0 {
      SpanPrefix(before, quiet, |before| - 1);
      assert ticks[|before| - 1] == before[|before| - 1];
    } else {
      TimerGoesOn(before, quiet, i - 1);
      assert ticks[|before| + i - 1] == quiet[i - 1];
    }
  }

  predicate NoneDue(before: seq<Tick>, ttl: int) {
    forall i :: 0 <= i < |before| ==> !Due(before, i, ttl)
  }

  lemma NoneDueStill(before: seq<Tick>, quiet: seq<Tick>, ttl: int)
    requires NoneDue(before, ttl)
    ensures forall j :: 0 <= j < |before| ==> !Due(before + quiet, j, ttl)
  {
    forall j | 0 <= j < |before| ensures !Due(before + quiet, j, ttl) {
      assert !Due(before, j, ttl);
      SpanPrefix(before, quiet, j);
    }
  }

  /** The idle stretch in which the daemon shuts down began at or after the last expiry. */
  lemma StretchStart(before: seq<Tick>, s: Store, times: seq<int>, expiry: int, idleTTL: int, r: nat, k: nat)
    requires LastExpiry(s, expiry) && times != [] && times[0] < expiry + idleTTL
    requires LeaseSeen(before, times[0], expiry, idleTTL)
    requires Ordered(before + QuietTicks(s, times)) && |before| <= k && IdleFrom(before + QuietTicks(s, times), r, k)
    requires r == 0 || Busy((before + QuietTicks(s, times))[r - 1])
    ensures (before + QuietTicks(s, times))[r].now >= expiry
  {
    var n, quiet := |before|, QuietTicks(s, times);
    var ticks := before + quiet;
    if r >= n {
      assert ticks[r] == quiet[r - n];
      QuietTail(before, s, times, expiry, r);
    } else {
      QuietTail(before, s, times, expiry, n);
      assert !Busy(ticks[n]) && ticks[n - 1] == before[n - 1] && ticks[n] == quiet[0];
      SpanFrom(ticks, r, n - 1);
      SpanPrefix(before, quiet, n - 1);
    }
  }

  lemma NotTooEarly(before: seq<Tick>, s: Store, times: seq<int>, expiry: int, idleTTL: int, k: nat)
    requires LastExpiry(s, expiry) && idleTTL > 0 && times != [] && LeaseSeen(before, times[0], expiry, idleTTL)
    requires NoneDue(before, idleTTL) && ShutAt(before, s, times, k, idleTTL)
    ensures (before + QuietTicks(s, times))[k].now >= expiry + idleTTL
  {
    var ticks := before + QuietTicks(s, times);
    NoneDueStill(before, QuietTicks(s, times), idleTTL);
    assert k >= |before| && ticks[|before|] == QuietTicks(s, times)[0];
    if times[0] < expiry + idleTTL {
      var r := IdleSpanSpans(ticks, k);
      StretchStart(before, s, times, expiry, idleTTL, r, k);
    }
  }

  /** A tick every millisecond. */
  function DenseTimes(next: int, m: nat): (times: seq<int>)
    ensures |times| == m + 1 && times[0] == next && OrderedTimes(times) && forall i :: 0 <= i <= m ==> times[i] == next + i
  {
    seq(m + 1, i => next + i)
  }

  lemma OrderedTail(before: seq<Tick>, s: Store, times: seq<int>)
    requires Ordered(before) && OrderedTimes(times) && times != []
    requires forall i :: 0 <= i < |before| ==> before[i].now <= times[0]
    ensures Ordered(before + QuietTicks(s, times))
  {
  }

  /** It brings the shutdown too early, if the idle timer has run since before the last expiry and no
      tick has seen the lease. */
  lemma TooEarly(before: seq<Tick>, s: Store, next: int, expiry: int, idleTTL: int) returns (times: seq<int>, k: nat)
    requires LastExpiry(s, expiry) && idleTTL > 0 && Ordered(before) && !LeaseSeen(before, next, expiry, idleTTL)
    requires NoneDue(before, idleTTL) && forall i :: 0 <= i < |before| ==> before[i].now <= next
    ensures times != [] && times[0] == next && SpacedTimes(times, 1) && ShutAt(before, s, times, k, idleTTL)
    ensures (before + QuietTicks(s, times))[k].now < expiry + idleTTL
  {
    var end := IdleSince(before).start + idleTTL;
    var m: nat := if next < end then end - next else 0;
    times, k := DenseTimes(next, m), |before| + m;
    OrderedTail(before, s, times);
    ShutWhenDue(before, s, next, m, expiry, idleTTL);
  }

  lemma ShutWhenDue(before: seq<Tick>, s: Store, next: int, m: nat, expiry: int, idleTTL: int)
    requires NoneDue(before, idleTTL) && IdleSince(before).Since? && ExpiredBy(s, expiry) && next >= expiry
    requires next + m >= IdleSince(before).start + idleTTL && (m > 0 ==> next + m == IdleSince(before).start + idleTTL)
    ensures var quiet := QuietTicks(s, DenseTimes(next, m));
      FirstDue(before + quiet, |before| + m, idleTTL) && (before + quiet)[|before| + m].now == next + m
  {
    NothingSeen(s, DenseTimes(next, m), expiry);
    DueAtLast(before, QuietTicks(s, DenseTimes(next, m)), m, idleTTL);
  }

  lemma NothingSeen(s: Store, times: seq<int>, expiry: int)
    requires OrderedTimes(times) && ExpiredBy(s, expiry) && forall i :: 0 <= i < |times| ==> times[i] >= expiry
    ensures forall i :: 0 <= i < |times| ==> !Busy(QuietTicks(s, times)[i])
  {
    forall i | 0 <= i < |times| ensures !Busy(QuietTicks(s, times)[i]) {
      QuietTickIsBusyIff(s, times, i);
    }
  }

  lemma DueAtLast(before: seq<Tick>, quiet: seq<Tick>, m: nat, idleTTL: int)
    requires NoneDue(before, idleTTL) && IdleSince(before).Since? && m < |quiet|
    requires forall i :: 0 <= i <= m ==> !Busy(quiet[i])
    requires forall i :: 0 <= i < m ==> quiet[i].now < IdleSince(before).start + idleTTL
    requires quiet[m].now >= IdleSince(before).start + idleTTL
    ensures FirstDue(before + quiet, |before| + m, idleTTL)
  {
    NoneDueStill(before, quiet, idleTTL);
    forall j | |before| <= j < |before| + m ensures !Due(before + quiet, j, idleTTL) {
      TimerGoesOn(before, quiet, j - |before|);
    }
    TimerGoesOn(before, quiet, m);
  }

  /** A daemon that is still up and is abandoned now stays up for its TTL after the last expiry, however
      the ticks go on, if and only if the lease is seen. */
  lemma ReclaimedNotTooEarlyIff(before: seq<Tick>, s: Store, next: int, expiry: int, period: int, idleTTL: int)
    requires LastExpiry(s, expiry) && idleTTL > 0 && period > 0 && Ordered(before)
    requires NoneDue(before, idleTTL) && forall i :: 0 <= i < |before| ==> before[i].now <= next
    ensures NeverTooEarly(before, s, next, expiry, period, idleTTL) <==> LeaseSeen(before, next, expiry, idleTTL)
  {
    if LeaseSeen(before, next, expiry, idleTTL) {
      forall times: seq<int>, k: nat |
        times != [] && times[0] == next && SpacedTimes(times, period) && ShutAt(before, s, times, k, idleTTL)
        ensures (before + QuietTicks(s, times))[k].now >= expiry + idleTTL
      {
        NotTooEarly(before, s, times, expiry, idleTTL, k);
      }
    } else {
      var times, k := TooEarly(before, s, next, expiry, idleTTL);
      assert SpacedTimes(times, period);
    }
  }

  /** If the ticks come more often than leases run out, the lease is always seen. */
  lemma FrequentTicksSee(before: seq<Tick>, s: Store, next: int, last: int, period: int, idleTTL: int)
    requires LastExpiry(s, last + LEASE_TTL) && period < LEASE_TTL
    requires forall i :: 0 <= i < |before| ==> before[i].now <= last
    requires before != [] ==> next - before[|before| - 1].now <= period
    ensures LeaseSeen(before, next, last + LEASE_TTL, idleTTL)
  {
  }

  /** They do not. Whenever the idle timer runs out by the next tick, a lease that is granted just after
      the last one, and never beaten, has run out unseen when the next tick comes a period later; the
      daemon is then shut down at once, and not its TTL after the expiry. */
  lemma UnseenLease(before: seq<Tick>, id: LeaseId, pid: int, idleTTL: int)
    requires idleTTL > 0 && Ordered(before) && IdleSince(before).Since?
    requires NoneDue(before, idleTTL)
    requires IdleSince(before).start + idleTTL <= before[|before| - 1].now + REAP_PERIOD
    ensures var t := before[|before| - 1].now;
      && LastExpiry(Apply(map[], Acquire(id, pid, t)), t + LEASE_TTL)
      && ShutAt(before, Apply(map[], Acquire(id, pid, t)), [t + REAP_PERIOD], |before|, idleTTL)
      && t + REAP_PERIOD < t + LEASE_TTL + idleTTL
  {
    var t := before[|before| - 1].now;
    var s := Apply(map[], Acquire(id, pid, t));
    var quiet := QuietTicks(s, [t + REAP_PERIOD]);
    assert id in s && s[id].expireAt == t + LEASE_TTL;
    QuietTickIsBusyIff(s, [t + REAP_PERIOD], 0);
    TimerGoesOn(before, quiet, 0);
    NoneDueStill(before, quiet, idleTTL);
  }
}
