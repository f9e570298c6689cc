/** The two halves of the promise to a client, put together: its heartbeats keep the lease alive, and the
    daemon takes nothing away from a live lease. */
module EndToEnd {
  import opened Leases
  import opened DaemonCore
  import opened Heartbeats

  /** What a step of the daemon does to the lease store, and when. */
  function StoreEvents(s: Daemon, a: Action): seq<Timed> {
    if !Enabled(s, a) then [] else
    match a
    case Grant(h, id, pid) => [Timed(s.time, Op.Acquire(id, pid, s.handlers[h].stamp))]
    case Beat(id) => [Timed(s.time, Op.Heartbeat(id, s.time))]
    case Free(id) => [Timed(s.time, Op.Release(id))]
    case TickGc => [Timed(s.time, Op.Gc(s.time))]
    case _ => []
  }

  function History(s0: Daemon, acts: seq<Action>): seq<Timed> {
    if acts == [] then [] else
    History(s0, acts[..|acts| - 1]) + StoreEvents(After(s0, acts[..|acts| - 1]), acts[|acts| - 1])
  }

  lemma {:induction false} StorePrefix(h: seq<Timed>, more: seq<Timed>, j: nat)
    requires j <= |h|
    ensures StoreAt(h + more, j) == StoreAt(h, j)
  {
    if j > 0 {
      StorePrefix(h, more, j - 1);
      assert (h + more)[j - 1] == h[j - 1];
    }
  }

  lemma StoreAfter(h: seq<Timed>, e: Timed)
    ensures StoreAt(h + [e], |h| + 1) == Apply(StoreAt(h, |h|), e.op)
  {
    StorePrefix(h, [e], |h|);
  }

  lemma StoreStep(s: Daemon, a: Action)
    requires Enabled(s, a) && StampInv(s)
    ensures Do(s, a).leases == if StoreEvents(s, a) == [] then s.leases else Apply(s.leases, StoreEvents(s, a)[0].op)
    ensures |StoreEvents(s, a)| <= 1 && Do(s, a).time >= s.time && WellTimed(StoreEvents(s, a))
    ensures StoreEvents(s, a) != [] ==> StoreEvents(s, a)[0].time == s.time == Do(s, a).time
  {
  }

  /** The store is what the history makes of an empty one, and the history is well timed. */
  predicate Recorded(h: seq<Timed>, leases: Store, time: int) {
    StoreAt(h, |h|) == leases && WellTimed(h) && SplitsAt(h, |h|, time)
  }

  lemma NextRecorded(h: seq<Timed>, leases: Store, e: Timed)
    requires Recorded(h, leases, e.time) && WellTimed([e])
    ensures Recorded(h + [e], Apply(leases, e.op), e.time)
  {
    assert [e][0] == e;
    StoreAfter(h, e);
  }

  lemma LaterRecorded(h: seq<Timed>, leases: Store, time: int, later: int)
    requires Recorded(h, leases, time) && later >= time
    ensures Recorded(h, leases, later)
  {
  }

  lemma RecordedStep(h: seq<Timed>, s: Daemon, a: Action)
    requires Recorded(h, s.leases, s.time) && Enabled(s, a) && StampInv(s)
    ensures Recorded(h + StoreEvents(s, a), Do(s, a).leases, Do(s, a).time)
  {
    var t, es := Do(s, a), StoreEvents(s, a);
    StoreStep(s, a);
    if es == [] {
      assert h + es == h;
      LaterRecorded(h, s.leases, s.time, t.time);
    } else {
      assert es == [es[0]];
      NextRecorded(h, s.leases, es[0]);
    }
  }

  lemma {:induction false} HistoryIsTrue(sutTTL: int, idleTTL: int, acts: seq<Action>)
    ensures var s := After(Initial(sutTTL, idleTTL), acts);
      Recorded(History(Initial(sutTTL, idleTTL), acts), s.leases, s.time)
  {
    if acts != [] {
      var n := |acts| - 1;
      var s0 := Initial(sutTTL, idleTTL);
      var s := After(s0, acts[..n]);
      HistoryIsTrue(sutTTL, idleTTL, acts[..n]);
      RunInv(sutTTL, idleTTL, acts[..n]);
      if Enabled(s, acts[n]) {
        RecordedStep(History(s0, acts[..n]), s, acts[n]);
      } else {
        assert History(s0, acts) == History(s0, acts[..n]);
      }
    }
  }

  // ---------------------------------------------------------------------------------------------
  // The life of one lease

  /** Step g of the run grants this lease, which is not released afterwards. */
  predicate GrantedAt(s0: Daemon, acts: seq<Action>, g: nat, id: LeaseId, stamp: int) {
    && g < |acts| && acts[g].Grant? && acts[g].id == id && Enabled(After(s0, acts[..g]), acts[g])
    && After(s0, acts[..g]).handlers[acts[g].h].stamp == stamp
    && forall i :: g < i < |acts| ==> acts[i] != Free(id)
  }

  function GrantPosition(s0: Daemon, acts: seq<Action>, g: nat): nat
    requires g <= |acts|
  {
    |History(s0, acts[..g])|
  }

  /** In the history: the grant at position i0, and afterwards no other grant and no release. */
  predicate OneGrant(h: seq<Timed>, i0: nat, id: LeaseId, stamp: int) {
    && i0 < |h| && h[i0].op.Acquire? && h[i0].op.id == id && h[i0].op.stamp == stamp
    && forall i :: i0 < i < |h| ==> !(h[i].op.Acquire? && h[i].op.id == id) && h[i].op != Release(id)
  }

  lemma NoSecondGrant(s: Daemon, a: Action, id: LeaseId)
    requires id in s.marks && a != Free(id)
    ensures id in Step(s, a).marks
    ensures forall i :: 0 <= i < |StoreEvents(s, a)| ==>
              var op := StoreEvents(s, a)[i].op; !(op.Acquire? && op.id == id) && op != Release(id)
  {
  }

  lemma {:induction false} GrantInHistory(s0: Daemon, acts: seq<Action>, g: nat, id: LeaseId, stamp: int)
    requires GrantedAt(s0, acts, g, id, stamp)
    ensures id in After(s0, acts).marks && OneGrant(History(s0, acts), GrantPosition(s0, acts, g), id, stamp)
  {
    var n := |acts| - 1;
    var before := acts[..n];
    if g < n {
      assert before[..g] == acts[..g];
      GrantInHistory(s0, before, g, id, stamp);
      NoSecondGrant(After(s0, before), acts[n], id);
    }
  }

  /** Beats that are on schedule were so before the last step. */
  lemma OnScheduleBefore(h: seq<Timed>, more: seq<Timed>, i0: nat, id: LeaseId, start: int, stop: int, gap: int,
                         maxDelay: int, earlier: int, now: int)
    requires OnSchedule(h + more, i0, id, start, stop, gap, maxDelay, now) && earlier <= now
    requires forall i :: 0 <= i < |more| ==> more[i].time >= earlier
    ensures OnSchedule(h, i0, id, start, stop, gap, maxDelay, earlier)
  {
    forall t | start <= t && t + gap < stop && t + gap + maxDelay < earlier
      ensures BeatArrived(h, i0, id, t, gap, maxDelay)
    {
      assert BeatArrived(h + more, i0, id, t, gap, maxDelay);
      var b :| i0 < b < |h + more| && IsBeat((h + more)[b], id) && t < (h + more)[b].time <= t + gap + maxDelay;
      assert b < |h| && (h + more)[b] == h[b];
    }
  }

  lemma LiveStep(s: Daemon, a: Action, id: LeaseId)
    requires id in s.live && a != Free(id)
    requires a.Elapse? && Enabled(s, a) ==> id in ActiveIds(s.leases, a.to)
    ensures id in Step(s, a).live
  {
  }

  /** What the client does: it starts its ticker soon after the grant, its beats are on schedule up to
      this point of the run, and its release is not overdue. */
  ghost predicate ClientBeats(s0: Daemon, acts: seq<Action>, g: nat, id: LeaseId, stamp: int, start: int, stop: int,
                              response: nat, gap: nat, maxDelay: nat)
  {
    && GrantedAt(s0, acts, g, id, stamp)
    && stamp <= start <= stamp + response && response + gap + maxDelay < LEASE_TTL
    && After(s0, acts).time <= stop + maxDelay
    && OnSchedule(History(s0, acts), GrantPosition(s0, acts, g), id, start, stop, gap, maxDelay, After(s0, acts).time)
  }

  /** The lease is active at the end of the run, and up to any moment that time can pass to. */
  lemma ActiveNow(sutTTL: int, idleTTL: int, acts: seq<Action>, g: nat, id: LeaseId, stamp: int, start: int, stop: int,
                  response: nat, gap: nat, maxDelay: nat, now: int)
    requires ClientBeats(Initial(sutTTL, idleTTL), acts, g, id, stamp, start, stop, response, gap, maxDelay)
    requires After(Initial(sutTTL, idleTTL), acts).time <= now <= stop + maxDelay
    requires OnSchedule(History(Initial(sutTTL, idleTTL), acts), GrantPosition(Initial(sutTTL, idleTTL), acts, g), id,
                        start, stop, gap, maxDelay, now)
    ensures id in ActiveIds(After(Initial(sutTTL, idleTTL), acts).leases, now)
  {
    var s0 := Initial(sutTTL, idleTTL);
    var h, i0 := History(s0, acts), GrantPosition(s0, acts, g);
    HistoryIsTrue(sutTTL, idleTTL, acts);
    GrantInHistory(s0, acts, g, id, stamp);
    HeartbeatKeepsLease(h, i0, id, start, stop, response, gap, maxDelay, |h|, now);
  }

  /** What the client did up to the last step. */
  lemma BeatsBefore(s0: Daemon, acts: seq<Action>, g: nat, id: LeaseId, stamp: int, start: int, stop: int, response: nat,
                    gap: nat, maxDelay: nat)
    requires ClientBeats(s0, acts, g, id, stamp, start, stop, response, gap, maxDelay) && g < |acts| - 1
    ensures ClientBeats(s0, acts[..|acts| - 1], g, id, stamp, start, stop, response, gap, maxDelay)
    ensures acts[|acts| - 1] != Free(id)
    ensures GrantPosition(s0, acts, g) == GrantPosition(s0, acts[..|acts| - 1], g)
  {
    var n := |acts| - 1;
    var before, s := acts[..n], After(s0, acts[..n]);
    assert before[..g] == acts[..g];
    EventsNotEarly(s, acts[n]);
    OnScheduleBefore(History(s0, before), StoreEvents(s, acts[n]), GrantPosition(s0, acts, g), id, start, stop, gap,
                     maxDelay, s.time, After(s0, acts).time);
  }

  /** The lease is still active when time has passed in the last step. */
  lemma ActiveAfterElapse(sutTTL: int, idleTTL: int, acts: seq<Action>, g: nat, id: LeaseId, stamp: int, start: int,
                          stop: int, response: nat, gap: nat, maxDelay: nat, to: int)
    requires ClientBeats(Initial(sutTTL, idleTTL), acts, g, id, stamp, start, stop, response, gap, maxDelay)
    requires g < |acts| - 1 && acts[|acts| - 1] == Elapse(to)
    requires Enabled(After(Initial(sutTTL, idleTTL), acts[..|acts| - 1]), Elapse(to))
    ensures id in ActiveIds(After(Initial(sutTTL, idleTTL), acts[..|acts| - 1]).leases, to)
  {
    var s0, before := Initial(sutTTL, idleTTL), acts[..|acts| - 1];
    BeatsBefore(s0, acts, g, id, stamp, start, stop, response, gap, maxDelay);
    assert History(s0, acts) == History(s0, before) && After(s0, acts).time == to;
    ActiveNow(sutTTL, idleTTL, before, g, id, stamp, start, stop, response, gap, maxDelay, to);
  }

  lemma {:induction false} StaysLive(sutTTL: int, idleTTL: int, acts: seq<Action>, g: nat, id: LeaseId, stamp: int,
                                     start: int, stop: int, response: nat, gap: nat, maxDelay: nat)
    requires ClientBeats(Initial(sutTTL, idleTTL), acts, g, id, stamp, start, stop, response, gap, maxDelay)
    ensures id in After(Initial(sutTTL, idleTTL), acts).live
  {
    var s0, n := Initial(sutTTL, idleTTL), |acts| - 1;
    var s, a := After(s0, acts[..n]), acts[n];
    if g == n {
      ActiveNow(sutTTL, idleTTL, acts, g, id, stamp, start, stop, response, gap, maxDelay, After(s0, acts).time);
      GrantIsLive(s, a.h, id, a.pid);
    } else {
      BeatsBefore(s0, acts, g, id, stamp, start, stop, response, gap, maxDelay);
      StaysLive(sutTTL, idleTTL, acts[..n], g, id, stamp, start, stop, response, gap, maxDelay);
      if a.Elapse? && Enabled(s, a) {
        ActiveAfterElapse(sutTTL, idleTTL, acts, g, id, stamp, start, stop, response, gap, maxDelay, a.to);
      }
      LiveStep(s, a, id);
    }
  }

  lemma GrantIsLive(s: Daemon, h: HandlerId, id: LeaseId, pid: int)
    requires Enabled(s, Grant(h, id, pid))
    requires id in ActiveIds(Do(s, Grant(h, id, pid)).leases, Do(s, Grant(h, id, pid)).time)
    ensures id in Do(s, Grant(h, id, pid)).live
  {
  }

  lemma EventsNotEarly(s: Daemon, a: Action)
    ensures Step(s, a).time >= s.time
    ensures forall i :: 0 <= i < |StoreEvents(s, a)| ==> StoreEvents(s, a)[i].time >= s.time
  {
  }

  /** The promise to a client: from the grant until its release arrives, a client that keeps beating keeps
      its environment. In every run in which nothing disturbs the reaper's ticks, the containers and the
      service that were made ready for it have not been stopped since, whatever the other clients do. */
  lemma ClientKeepsEnvironment(sutTTL: int, idleTTL: int, acts: seq<Action>, g: nat, id: LeaseId, stamp: int,
                               start: int, stop: int, response: nat, gap: nat, maxDelay: nat)
    requires ClientBeats(Initial(sutTTL, idleTTL), acts, g, id, stamp, start, stop, response, gap, maxDelay)
    requires QuietRun(Initial(sutTTL, idleTTL), acts)
    ensures var s := After(Initial(sutTTL, idleTTL), acts);
      id in s.live && id in s.marks && s.marks[id] == Marks(s.infra.stops, s.sutStops)
  {
    StaysLive(sutTTL, idleTTL, acts, g, id, stamp, start, stop, response, gap, maxDelay);
    ProtectedInterval(sutTTL, idleTTL, acts);
  }
}
