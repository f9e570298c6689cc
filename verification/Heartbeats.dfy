/** The client's heartbeat ticker against the daemon's lease store: a client that keeps beating, over
    a connection that is fast enough, never loses its lease, however long it runs and whatever all
    the other clients and the collector do to the store in between. */
module Heartbeats {
  import opened Leases

  const HEARTBEAT_INTERVAL: int := LEASE_TTL / 2

  /** The ticker never beats more often than once a second. */
  function TickInterval(): (t: int)
    ensures t == 1000
  {
    if HEARTBEAT_INTERVAL < 1000 then 1000 else HEARTBEAT_INTERVAL
  }

  /** One heartbeat: when it was sent, when it reached the daemon, and when its answer was back. */
  datatype Beat = Beat(sent: int, arrives: int, done: int)

  /** How far apart two beats can be: a tick interval, or a beat that takes longer than that. */
  function Gap(maxRoundTrip: nat): int {
    if maxRoundTrip < TickInterval() then TickInterval() else maxRoundTrip
  }

  /** The first tick after a given time. The ticker ticks on while a beat is under way, but its channel
      holds one tick, so the others are dropped. */
  function NextTick(start: int, last: int): (tick: int)
    requires start <= last
    ensures last < tick <= last + 1000 && (tick - start) % 1000 == 0
    ensures (last - start) % 1000 == 0 ==> tick == last + 1000
  {
    start + ((last - start) / 1000 + 1) * 1000
  }

  function Later(x: int, y: int): int { if x < y then y else x }

  /** The beat before the i-th, or the start of the loop. */
  function Previous(beats: seq<Beat>, i: nat, start: int): Beat
    requires i <= |beats|
  {
    if i == 0 then Beat(start, start, start) else beats[i - 1]
  }

  /** The i-th beat is for the first tick after the one before it was sent, at once or as soon as that
      one is answered. After the stop there is none, but for a tick that was waiting then. */
  predicate BeatOk(beats: seq<Beat>, i: nat, start: int, stop: int, maxDelay: nat, maxRoundTrip: nat)
    requires i < |beats|
  {
    var last, beat := Previous(beats, i, start), beats[i];
    && start <= last.sent && beat.sent == Later(NextTick(start, last.sent), last.done)
    && beat.sent <= beat.arrives <= beat.sent + maxDelay && beat.arrives <= beat.done <= beat.sent + maxRoundTrip
    && (beat.sent > stop ==> beat.sent == last.done)
  }

  ghost predicate TickerBeats(beats: seq<Beat>, start: int, stop: int, maxDelay: nat, maxRoundTrip: nat) {
    && (forall i :: 0 <= i < |beats| ==> BeatOk(beats, i, start, stop, maxDelay, maxRoundTrip))
    // the loop ends only when it is stopped: the next beat would not have come before
    && var last := Previous(beats, |beats|, start);
       start <= last.sent && Later(NextTick(start, last.sent), last.done) >= stop
  }

  /** The ticker loop, from the moment it starts until the returned stop function is called. A beat is
      synchronous: it reaches the daemon at most maxDelay after it is sent, and the loop waits for the
      answer. If a tick is waiting when the loop comes back after the stop, either may be picked. */
  method StartHeartbeat(start: int, stop: int, maxDelay: nat, maxRoundTrip: nat) returns (beats: seq<Beat>)
    ensures TickerBeats(beats, start, stop, maxDelay, maxRoundTrip)
  {
    beats := [];
    var last, free := start, start;
    var unlucky: nat := *;
    while true
      invariant last == Previous(beats, |beats|, start).sent && free == Previous(beats, |beats|, start).done
      invariant start <= last <= free
      invariant forall i :: 0 <= i < |beats| ==> BeatOk(beats, i, start, stop, maxDelay, maxRoundTrip)
      decreases unlucky, stop - last
    {
      var ticked, cancelled := Later(NextTick(start, last), free), Later(stop, free);
      if cancelled < ticked {
        return;
      }
      if cancelled == ticked {
        if unlucky == 0 {
          return;
        }
        unlucky := unlucky - 1;
      }
      var arrives: int :| ticked <= arrives <= ticked + maxDelay && arrives <= ticked + maxRoundTrip;
      var done: int :| arrives <= done <= ticked + maxRoundTrip;
      ghost var before := beats;
      beats := beats + [Beat(ticked, arrives, done)];
      forall i | 0 <= i < |beats| ensures BeatOk(beats, i, start, stop, maxDelay, maxRoundTrip) {
        assert i < |before| ==> BeatOk(before, i, start, stop, maxDelay, maxRoundTrip);
      }
      last, free := ticked, done;
    }
  }

  predicate SentWithin(beats: seq<Beat>, t: int, gap: int) {
    exists i :: 0 <= i < |beats| && t < beats[i].sent <= t + gap
  }

  /** Until it is stopped, the loop sends a beat in every interval of the gap's length. */
  lemma BeatInEveryGap(beats: seq<Beat>, start: int, stop: int, maxDelay: nat, maxRoundTrip: nat, t: int)
    requires TickerBeats(beats, start, stop, maxDelay, maxRoundTrip)
    requires start <= t && t + Gap(maxRoundTrip) < stop
    ensures SentWithin(beats, t, Gap(maxRoundTrip))
  {
    var i: nat := 0;
    while i < |beats| && beats[i].sent <= t
      invariant 0 <= i <= |beats| && start <= Previous(beats, i, start).sent <= t
      invariant Previous(beats, i, start).done <= Previous(beats, i, start).sent + maxRoundTrip
    {
      assert BeatOk(beats, i, start, stop, maxDelay, maxRoundTrip);
      i := i + 1;
    }
    if i < |beats| {
      assert BeatOk(beats, i, start, stop, maxDelay, maxRoundTrip);
    }
  }

  /** If every beat is answered before the next tick, no tick is dropped and no beat is late: the k-th
      beat goes out with the k-th tick, for every tick before the stop, and there are no others later. */
  lemma {:induction false} PromptBeatsFollowTicks(beats: seq<Beat>, start: int, stop: int, maxDelay: nat, maxRoundTrip: nat,
                                                  k: int)
    requires TickerBeats(beats, start, stop, maxDelay, maxRoundTrip) && maxRoundTrip < 1000 && k >= 1
    ensures k <= |beats| ==> beats[k - 1].sent == start + k * 1000 <= stop
    ensures start + k * 1000 < stop ==> k <= |beats|
  {
    if k > 1 {
      PromptBeatsFollowTicks(beats, start, stop, maxDelay, maxRoundTrip, k - 1);
    }
    if k <= |beats| {
      if k > 1 {
        assert BeatOk(beats, k - 2, start, stop, maxDelay, maxRoundTrip);
      }
      assert BeatOk(beats, k - 1, start, stop, maxDelay, maxRoundTrip);
    } else if k == |beats| + 1 && k > 1 {
      assert BeatOk(beats, k - 2, start, stop, maxDelay, maxRoundTrip);
    }
  }

  /** A store operation and the moment at which it takes effect. */
  datatype Timed = Timed(time: int, op: Op)

  predicate WellTimed(h: seq<Timed>) {
    && (forall i, j :: 0 <= i < j < |h| ==> h[i].time <= h[j].time)
    && (forall i :: 0 <= i < |h| ==>
          match h[i].op
          case Acquire(_, _, stamp) => stamp <= h[i].time
          case Heartbeat(_, at) => at == h[i].time
          case Release(_) => true
          case Gc(stamp) => stamp <= h[i].time)
  }

  function StoreAt(h: seq<Timed>, j: nat): Store
    requires j <= |h|
  {
    if j == 0 then map[] else Apply(StoreAt(h, j - 1), h[j - 1].op)
  }

  predicate IsBeat(e: Timed, id: LeaseId) { e.op.Heartbeat? && e.op.id == id }

  /** A beat reached the store after the lease was granted at position i0, soon after t. */
  predicate BeatArrived(h: seq<Timed>, i0: nat, id: LeaseId, t: int, gap: int, maxDelay: int) {
    exists b :: i0 < b < |h| && IsBeat(h[b], id) && t < h[b].time <= t + gap + maxDelay
  }

  /** In every gap between the start and the stop of the ticker a beat was sent, and those that were due
      before `now` arrived. */
  ghost predicate OnSchedule(h: seq<Timed>, i0: nat, id: LeaseId, start: int, stop: int, gap: int, maxDelay: int, now: int) {
    forall t :: start <= t && t + gap < stop && t + gap + maxDelay < now ==>
      BeatArrived(h, i0, id, t, gap, maxDelay)
  }

  predicate Delivered(h: seq<Timed>, i0: nat, id: LeaseId, t: int) {
    exists b :: i0 < b < |h| && IsBeat(h[b], id) && h[b].time == t
  }

  /** The ticker loop's beats are on schedule once they have all been delivered to the store. */
  lemma DeliveredIsOnSchedule(h: seq<Timed>, i0: nat, id: LeaseId, start: int, stop: int, maxDelay: nat, maxRoundTrip: nat,
                              now: int, beats: seq<Beat>)
    requires TickerBeats(beats, start, stop, maxDelay, maxRoundTrip)
    requires forall i :: 0 <= i < |beats| && beats[i].arrives < now ==> Delivered(h, i0, id, beats[i].arrives)
    ensures OnSchedule(h, i0, id, start, stop, Gap(maxRoundTrip), maxDelay, now)
  {
    var gap := Gap(maxRoundTrip);
    forall t | start <= t && t + gap < stop && t + gap + maxDelay < now
      ensures BeatArrived(h, i0, id, t, gap, maxDelay)
    {
      BeatInEveryGap(beats, start, stop, maxDelay, maxRoundTrip, t);
      var i :| 0 <= i < |beats| && t < beats[i].sent <= t + gap;
      assert BeatOk(beats, i, start, stop, maxDelay, maxRoundTrip);
      assert Delivered(h, i0, id, beats[i].arrives);
    }
  }

  /** The first j operations are those that take effect by `now`, and the others come later. */
  predicate SplitsAt(h: seq<Timed>, j: nat, now: int) {
    && j <= |h|
    && (forall i :: 0 <= i < j ==> h[i].time <= now)
    && (forall i :: j <= i < |h| ==> h[i].time >= now)
  }

  /** The lease granted at position i0 with stamp a is in the store, and active, at every moment up to
      the arrival of its release: the release is sent when the ticker stops, so it arrives no later
      than stop + maxDelay. `start` is when the client starts its ticker, at most `response` after
      the stamp. */
  lemma {:induction false} HeartbeatKeepsLease(
    h: seq<Timed>, i0: nat, id: LeaseId, start: int, stop: int, response: nat, gap: nat, maxDelay: nat, j: nat, now: int)
    requires WellTimed(h) && i0 < j && SplitsAt(h, j, now)
    requires h[i0].op.Acquire? && h[i0].op.id == id
    requires h[i0].op.stamp <= start <= h[i0].op.stamp + response
    requires forall i :: i0 < i < j ==> !(h[i].op.Acquire? && h[i].op.id == id) && h[i].op != Release(id)
    requires response + gap + maxDelay < LEASE_TTL
    requires OnSchedule(h, i0, id, start, stop, gap, maxDelay, now) && now <= stop + maxDelay
    ensures id in StoreAt(h, j) && id in ActiveIds(StoreAt(h, j), now)
    ensures StoreAt(h, j)[id].expireAt >= h[i0].op.stamp + LEASE_TTL
    ensures forall b :: i0 < b < j && IsBeat(h[b], id) ==> StoreAt(h, j)[id].expireAt >= h[b].time + LEASE_TTL
    decreases j
  {
    if j > i0 + 1 {
      HeartbeatKeepsLease(h, i0, id, start, stop, response, gap, maxDelay, j - 1, h[j - 1].time);
    }
    var expireAt := StoreAt(h, j)[id].expireAt;
    var t := now - gap - maxDelay - 1;
    if t >= start {
      assert BeatArrived(h, i0, id, t, gap, maxDelay);
      var b :| i0 < b < |h| && IsBeat(h[b], id) && t < h[b].time <= t + gap + maxDelay;
      assert b < j;
      assert expireAt >= h[b].time + LEASE_TTL;
    }
  }
}
