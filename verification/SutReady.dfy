/** The readiness probe of the service under test. */
module SutReady {

  const DIAL_LIMIT := 500
  const PROBE_PAUSE := 150
  const SETTLE := 400
  const DEFAULT_READY_TIMEOUT := 8_000

  type Addr = nat

  /** The answer to a dial of an address at some time, and how long it took. */
  datatype Dial = Dial(ok: bool, took: int)

  /** What the process and the caller do: from when on the exit channel is readable, and from when on
      the caller's context is cancelled; None is never. */
  datatype Moment = Never | At(time: int)

  predicate Reached(m: Moment, now: int) { m.At? && m.time <= now }

  /** When an event that is waited for from `start` on is noticed. */
  function NotBefore(start: int, m: Moment): int
    requires m.At?
  {
    if m.time < start then start else m.time
  }

  datatype Verdict = Ready | ContextDone | ProcessExited | TimedOut

  /** When the dial of address i of a round begins, if the round begins at `start`. */
  function DialStart(dials: (Addr, int) -> Dial, addrs: seq<Addr>, start: int, i: nat): int
    requires i <= |addrs|
  {
    if i == 0 then start
    else DialStart(dials, addrs, start, i - 1) + dials(addrs[i - 1], DialStart(dials, addrs, start, i - 1)).took
  }

  predicate Answers(dials: (Addr, int) -> Dial, addrs: seq<Addr>, start: int, i: nat)
    requires i < |addrs|
  {
    dials(addrs[i], DialStart(dials, addrs, start, i)).ok
  }

  /** Every address answers in the one round that begins at `start`. */
  predicate AllAnswer(dials: (Addr, int) -> Dial, addrs: seq<Addr>, start: int) {
    forall i :: 0 <= i < |addrs| ==> Answers(dials, addrs, start, i)
  }

  /** The addresses among the first i that fail in that round, in order. */
  function FailedIn(dials: (Addr, int) -> Dial, addrs: seq<Addr>, start: int, i: nat): seq<Addr>
    requires i <= |addrs|
  {
    if i == 0 then []
    else
      var before := FailedIn(dials, addrs, start, i - 1);
      if Answers(dials, addrs, start, i - 1) then before else before + [addrs[i - 1]]
  }

  lemma {:induction false} NoneFailedIff(dials: (Addr, int) -> Dial, addrs: seq<Addr>, start: int, i: nat)
    requires i <= |addrs|
    ensures FailedIn(dials, addrs, start, i) == [] <==>
              forall j :: 0 <= j < i ==> Answers(dials, addrs, start, j)
  {
    if i > 0 {
      NoneFailedIff(dials, addrs, start, i - 1);
    }
  }

  /** One round over the addresses: which of them failed. */
  method Round(dials: (Addr, int) -> Dial, addrs: seq<Addr>, start: int) returns (failed: seq<Addr>, now: int)
    requires forall a, t :: 0 <= dials(a, t).took <= DIAL_LIMIT
    ensures failed == [] <==> AllAnswer(dials, addrs, start)
    ensures failed == FailedIn(dials, addrs, start, |addrs|)
    ensures now == DialStart(dials, addrs, start, |addrs|)
    ensures start <= now <= start + |addrs| * DIAL_LIMIT
  {
    failed, now := [], start;
    for i := 0 to |addrs|
      invariant now == DialStart(dials, addrs, start, i) && start <= now <= start + i * DIAL_LIMIT
      invariant failed == FailedIn(dials, addrs, start, i)
    {
      var dial := dials(addrs[i], now);
      now := now + dial.took;
      if !dial.ok {
        failed := failed + [addrs[i]];
      }
    }
    NoneFailedIff(dials, addrs, start, |addrs|);
  }

  /** When the k-th round begins, if none before it was the last. */
  function RoundStart(dials: (Addr, int) -> Dial, addrs: seq<Addr>, start: int, k: nat): int {
    if k == 0 then start
    else DialStart(dials, addrs, RoundStart(dials, addrs, start, k - 1), |addrs|) + PROBE_PAUSE
  }

  function RoundEnd(dials: (Addr, int) -> Dial, addrs: seq<Addr>, start: int, k: nat): int {
    DialStart(dials, addrs, RoundStart(dials, addrs, start, k), |addrs|)
  }

  /** All addresses answer in the k-th round. */
  predicate RoundSucceeds(dials: (Addr, int) -> Dial, addrs: seq<Addr>, start: int, k: nat) {
    AllAnswer(dials, addrs, RoundStart(dials, addrs, start, k))
  }

  /** After the k-th round, which failed, the wait goes on: there is time left, and neither the exit of
      the process nor a cancellation has been noticed. */
  predicate GoesOn(dials: (Addr, int) -> Dial, addrs: seq<Addr>, start: int, k: nat, readyTimeout: int,
                   exit: Moment, cancel: Moment) {
    var end := RoundEnd(dials, addrs, start, k);
    && !RoundSucceeds(dials, addrs, start, k)
    && end <= start + Timeout(readyTimeout) && !Reached(exit, end) && !Reached(cancel, end)
  }

  /** The time that is configured, or eight seconds. */
  function Timeout(readyTimeout: int): (timeout: int)
    ensures timeout > 0 && (readyTimeout > 0 ==> timeout == readyTimeout) && (readyTimeout <= 0 ==> timeout == 8_000)
  {
    if readyTimeout <= 0 then DEFAULT_READY_TIMEOUT else readyTimeout
  }

  /** How long the wait may take. */
  function Longest(addrs: seq<Addr>, readyTimeout: int): int {
    if addrs == [] then SETTLE else Timeout(readyTimeout) + PROBE_PAUSE + |addrs| * DIAL_LIMIT
  }

  /** Without addresses to probe: a short while in which the process must not exit. Whichever of the
      three events comes first decides; at the same moment, any of them. */
  method WaitSettled(start: int, exit: Moment, cancel: Moment) returns (verdict: Verdict, now: int)
    ensures start <= now <= start + SETTLE && !verdict.TimedOut?
    ensures verdict.Ready? ==> now == start + SETTLE && !Reached(exit, now - 1) && !Reached(cancel, now - 1)
    ensures !Reached(exit, start + SETTLE) && !Reached(cancel, start + SETTLE) ==> verdict.Ready?
    ensures verdict.ProcessExited? ==> Reached(exit, now) && (now > start ==> !Reached(cancel, now - 1))
    ensures verdict.ContextDone? ==> Reached(cancel, now) && (now > start ==> !Reached(exit, now - 1))
  {
    verdict, now := Ready, start + SETTLE;
    var tie: bool := *;
    if exit.At? && (NotBefore(start, exit) < now || (exit.time == now && tie)) {
      verdict, now := ProcessExited, NotBefore(start, exit);
    }
    tie := *;
    if cancel.At? && (NotBefore(start, cancel) < now || (NotBefore(start, cancel) == now && tie)) {
      verdict, now := ContextDone, NotBefore(start, cancel);
    }
  }

  /** What the wait may end with. With addresses to probe, success comes only after one single round in
      which all of them answered, and at the first such round; the wait goes on for as long as it may. */
  predicate Outcome(dials: (Addr, int) -> Dial, addrs: seq<Addr>, readyTimeout: int, start: int,
                    exit: Moment, cancel: Moment, verdict: Verdict, now: int, rounds: nat) {
    && (verdict.ProcessExited? ==> Reached(exit, now))
    && (verdict.ContextDone? ==> Reached(cancel, now))
    && (addrs == [] ==>
          && !verdict.TimedOut?
          && (verdict.Ready? ==> now == start + SETTLE && !Reached(exit, now - 1) && !Reached(cancel, now - 1)))
    && (addrs == [] && !Reached(exit, start + SETTLE) && !Reached(cancel, start + SETTLE) ==> verdict.Ready?)
    && (addrs != [] ==>
          && now == RoundEnd(dials, addrs, start, rounds)
          && (verdict.Ready? <==> RoundSucceeds(dials, addrs, start, rounds))
          && (forall k :: 0 <= k < rounds ==> GoesOn(dials, addrs, start, k, readyTimeout, exit, cancel))
          && (verdict.TimedOut? ==> now > start + Timeout(readyTimeout)))
  }

  /** The wait, which is over within a fixed time. */
  method WaitSUTReady(dials: (Addr, int) -> Dial, addrs: seq<Addr>, readyTimeout: int, start: int,
                      exit: Moment, cancel: Moment)
    returns (verdict: Verdict, now: int, rounds: nat)
    requires forall a, t :: 0 <= dials(a, t).took <= DIAL_LIMIT
    ensures Outcome(dials, addrs, readyTimeout, start, exit, cancel, verdict, now, rounds)
    ensures start <= now <= start + Longest(addrs, readyTimeout)
  {
    now, rounds := start, 0;
    if |addrs| == 0 {
      verdict, now := WaitSettled(start, exit, cancel);
      return;
    }
    var deadline := start + Timeout(readyTimeout);
    while true
      invariant start <= now <= deadline + PROBE_PAUSE
      invariant now == RoundStart(dials, addrs, start, rounds)
      invariant forall k :: 0 <= k < rounds ==> GoesOn(dials, addrs, start, k, readyTimeout, exit, cancel)
      decreases deadline + PROBE_PAUSE - now
    {
      var failed;
      failed, now := Round(dials, addrs, now);
      if |failed| == 0 {
        return Ready, now, rounds;
      }
      var chooseContext: bool := *;
      if Reached(cancel, now) && (chooseContext || !Reached(exit, now)) {
        return ContextDone, now, rounds;
      }
      if Reached(exit, now) {
        return ProcessExited, now, rounds;
      }
      if now > deadline {
        return TimedOut, now, rounds;
      }
      now := now + PROBE_PAUSE;
      rounds := rounds + 1;
    }
  }
}
