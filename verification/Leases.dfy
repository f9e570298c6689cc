/** The lease store: the map that the daemon keeps of its clients' leases, the code that changes it
    under the store's lock, and what a sequence of store operations means to the clients.

    Times are integers (milliseconds). A time stamp is read before the store's lock is taken in
    Acquire, ActiveCount and Gc, so their stamps may lie behind the moment of the operation;
    Heartbeat reads the clock while it holds the lock. */
module Leases {

  const LEASE_TTL: int := 2000

  type LeaseId = nat

  datatype Lease = Lease(pid: int, lastBeatAt: int, expireAt: int)

  type Store = map<LeaseId, Lease>

  /** The leases that count as active at a given time: those that expire strictly later. */
  function ActiveIds(s: Store, now: int): set<LeaseId> {
    set id | id in s && s[id].expireAt > now
  }

  function Collected(s: Store, now: int): Store {
    map id | id in s && s[id].expireAt > now :: s[id]
  }

  datatype Op =
    | Acquire(id: LeaseId, pid: int, stamp: int)
    | Heartbeat(id: LeaseId, at: int)
    | Release(id: LeaseId)
    | Gc(stamp: int)

  function Apply(s: Store, op: Op): Store {
    match op
    case Acquire(id, pid, stamp) => s[id := Lease(pid, stamp, stamp + LEASE_TTL)]
    case Heartbeat(id, at) => if id in s then s[id := Lease(s[id].pid, at, at + LEASE_TTL)] else s
    case Release(id) => s - {id}
    case Gc(stamp) => Collected(s, stamp)
  }

  /** What the caller of an operation is told. */
  predicate Reply(s: Store, op: Op) {
    match op
    case Acquire(_, _, _) => true
    case Heartbeat(id, _) => id in s
    case Release(id) => id in s
    case Gc(_) => true
  }

  class LeaseStore {
    var leases: Store

    constructor ()
      ensures leases == map[]
    {
      leases := map[];
    }

    method Acquire(id: LeaseId, pid: int, now: int, ttl: int) returns (l: Lease)
      modifies this
      ensures l == Lease(pid, now, now + ttl)
      ensures leases == old(leases)[id := l]
      ensures ttl == LEASE_TTL ==> leases == Apply(old(leases), Op.Acquire(id, pid, now))
    {
      l := Lease(pid, now, now + ttl);
      leases := leases[id := l];
    }

    method Heartbeat(id: LeaseId, now: int, ttl: int) returns (ok: bool)
      modifies this
      ensures ok == Reply(old(leases), Op.Heartbeat(id, now))
      ensures !ok ==> leases == old(leases)
      ensures ok ==> leases == old(leases)[id := Lease(old(leases)[id].pid, now, now + ttl)]
      ensures ttl == LEASE_TTL ==> leases == Apply(old(leases), Op.Heartbeat(id, now))
    {
      ok := id in leases;
      if !ok {
        return;
      }
      var l := leases[id];
      l := l.(lastBeatAt := now);
      l := l.(expireAt := now + ttl);
      leases := leases[id := l];
    }

    method Release(id: LeaseId) returns (ok: bool)
      modifies this
      ensures ok == Reply(old(leases), Op.Release(id))
      ensures leases == Apply(old(leases), Op.Release(id))
    {
      ok := id in leases;
      if ok {
        leases := leases - {id};
      }
    }

    method ActiveCount(now: int) returns (count: nat)
      ensures count == |ActiveIds(leases, now)|
    {
      count := 0;
      var todo := leases.Keys;
      ghost var counted: set<LeaseId> := {};
      while todo != {}
        invariant todo <= leases.Keys
        invariant counted == ActiveIds(leases, now) - todo
        invariant count == |counted|
        decreases |todo|
      {
        var id :| id in todo;
        if leases[id].expireAt > now {
          count := count + 1;
          counted := counted + {id};
        }
        todo := todo - {id};
      }
      assert counted == ActiveIds(leases, now);
    }

    method Gc(now: int)
      modifies this
      ensures leases == Apply(old(leases), Op.Gc(now))
    {
      var todo := leases.Keys;
      while todo != {}
        invariant todo <= leases.Keys <= old(leases).Keys
        invariant forall id :: id in leases ==> leases[id] == old(leases)[id]
        invariant forall id :: id in old(leases) && id !in leases ==> old(leases)[id].expireAt <= now
        invariant forall id :: id in leases && id !in todo ==> leases[id].expireAt > now
        decreases |todo|
      {
        var id :| id in todo;
        if leases[id].expireAt <= now {
          leases := leases - {id};
        }
        todo := todo - {id};
      }
    }
  }

  // ---------------------------------------------------------------------------------------------
  // Whole histories

  function RunFrom(s: Store, ops: seq<Op>): Store {
    if ops == [] then s else Apply(RunFrom(s, ops[..|ops| - 1]), ops[|ops| - 1])
  }

  function Run(ops: seq<Op>): Store { RunFrom(map[], ops) }

  /** An operation together with the answer its caller received. */
  datatype Event = Event(op: Op, ok: bool)

  function Ops(h: seq<Event>): seq<Op> { seq(|h|, i requires 0 <= i < |h| => h[i].op) }

  /** h is a history that the store can produce, in the order in which its lock was taken. */
  predicate Genuine(h: seq<Event>) {
    h == [] ||
    var prefix := h[..|h| - 1];
    && Genuine(prefix)
    && h[|h| - 1].ok == Reply(Run(Ops(prefix)), h[|h| - 1].op)
  }

  /** The stamp of the last beat of a lease that its client saw accepted, unless the client released
      the lease afterwards. This looks at the clients' requests and answers alone: it knows nothing
      of the map, of expiry or of garbage collection. */
  function LastBeat(h: seq<Event>, id: LeaseId): (stamp: Option) {
    if h == [] then None else
    var e := h[|h| - 1];
    match e.op
    case Acquire(i, _, t) => if i == id then Some(t) else LastBeat(h[..|h| - 1], id)
    case Heartbeat(i, t) => if i == id && e.ok then Some(t) else LastBeat(h[..|h| - 1], id)
    case Release(i) => if i == id then None else LastBeat(h[..|h| - 1], id)
    case Gc(_) => LastBeat(h[..|h| - 1], id)
  }

  datatype Option = None | Some(value: int)

  function AcquiredIds(h: seq<Event>): set<LeaseId> {
    set e | e in h && e.op.Acquire? :: e.op.id
  }

  predicate GcsUpTo(h: seq<Event>, now: int) {
    forall e :: e in h && e.op.Gc? ==> e.op.stamp <= now
  }

  lemma OpsOfPrefix(h: seq<Event>)
    requires h != []
    ensures Ops(h)[..|h| - 1] == Ops(h[..|h| - 1]) && Ops(h)[|h| - 1] == h[|h| - 1].op
  {
  }

  /** What the map holds about one lease after a genuine history. */
  lemma {:induction false} Tracks(h: seq<Event>, id: LeaseId, now: int)
    requires Genuine(h) && GcsUpTo(h, now)
    ensures var s := Run(Ops(h)); var b := LastBeat(h, id);
      && (id in s ==> b.Some? && s[id].expireAt == b.value + LEASE_TTL)
      && (id !in s && b.Some? ==> b.value + LEASE_TTL <= now)
  {
    if h != [] {
      Tracks(h[..|h| - 1], id, now);
      OpsOfPrefix(h);
    }
  }

  lemma {:induction false} BeatsWereAcquired(h: seq<Event>, id: LeaseId)
    requires Genuine(h)
    ensures id in Run(Ops(h)) ==> id in AcquiredIds(h)
  {
    if h != [] {
      OpsOfPrefix(h);
      BeatsWereAcquired(h[..|h| - 1], id);
      assert AcquiredIds(h[..|h| - 1]) <= AcquiredIds(h);
      if h[|h| - 1].op.Acquire? {
        assert h[|h| - 1] in h;
      }
    }
  }

  /** Lazy collection is invisible: at any time not before the collections so far, the active leases
      are exactly the acquired, unreleased ones whose last accepted beat is younger than the TTL. */
  lemma ActiveMatchesHistory(h: seq<Event>, now: int)
    requires Genuine(h) && GcsUpTo(h, now)
    ensures ActiveIds(Run(Ops(h)), now)
         == set id | id in AcquiredIds(h) && LastBeat(h, id).Some? && LastBeat(h, id).value + LEASE_TTL > now
  {
    var spec := set id | id in AcquiredIds(h) && LastBeat(h, id).Some? && LastBeat(h, id).value + LEASE_TTL > now;
    forall id ensures id in ActiveIds(Run(Ops(h)), now) <==> id in spec {
      Tracks(h, id, now);
      BeatsWereAcquired(h, id);
    }
  }

  /** Since its last accepted beat, a collection ran with a stamp at or after the lease's expiry. */
  predicate CollectedSince(h: seq<Event>, id: LeaseId) {
    h != [] &&
    var e := h[|h| - 1];
    var b := LastBeat(h[..|h| - 1], id);
    match e.op
    case Acquire(i, _, _) => i != id && CollectedSince(h[..|h| - 1], id)
    case Heartbeat(i, _) => (i == id ==> !e.ok) && CollectedSince(h[..|h| - 1], id)
    case Release(i) => i != id && CollectedSince(h[..|h| - 1], id)
    case Gc(t) => (b.Some? && t >= b.value + LEASE_TTL) || CollectedSince(h[..|h| - 1], id)
  }

  /** Exactly when a heartbeat or a release is accepted: some beat was accepted before it and, since then,
      the lease was neither released nor collected at or after its expiry. In particular a lease that
      has expired but was not collected yet is revived. */
  lemma {:induction false} HeartbeatAcceptedIff(h: seq<Event>, id: LeaseId, at: int)
    requires Genuine(h)
    ensures Reply(Run(Ops(h)), Op.Heartbeat(id, at)) <==> LastBeat(h, id).Some? && !CollectedSince(h, id)
    ensures Reply(Run(Ops(h)), Op.Release(id)) <==> LastBeat(h, id).Some? && !CollectedSince(h, id)
    ensures id in Run(Ops(h)) ==> Run(Ops(h))[id].expireAt == LastBeat(h, id).value + LEASE_TTL
  {
    if h != [] {
      OpsOfPrefix(h);
      HeartbeatAcceptedIff(h[..|h| - 1], id, at);
    }
  }

  /** A lease that is gone (released or collected) stays gone, and every later heartbeat or release
      of it is refused, until its id is handed out again. Ids are random, so that never happens. */
  lemma {:induction false} GoneStaysGone(s: Store, ops: seq<Op>, id: LeaseId, k: nat)
    requires id !in s && k <= |ops|
    requires forall i :: 0 <= i < |ops| && ops[i].Acquire? ==> ops[i].id != id
    ensures id !in RunFrom(s, ops[..k])
    ensures k < |ops| && (ops[k].Heartbeat? || ops[k].Release?) && ops[k].id == id ==>
              !Reply(RunFrom(s, ops[..k]), ops[k])
  {
    if k > 0 {
      GoneStaysGone(s, ops, id, k - 1);
      assert ops[..k][..k - 1] == ops[..k - 1];
    }
  }

  // ---------------------------------------------------------------------------------------------
  // Inserting a collection into a run

  function ExpiredIds(s: Store, now: int): set<LeaseId> {
    set id | id in s && s[id].expireAt <= now
  }

  predicate Beaten(ops: seq<Op>, id: LeaseId) {
    exists i :: 0 <= i < |ops| && ops[i].Heartbeat? && ops[i].id == id
  }

  predicate Within(lean: Store, kept: Store) {
    forall id :: id in lean ==> id in kept && kept[id] == lean[id]
  }

  /** How a run with an extra Gc(t) relates to the run without it. */
  lemma {:induction false} ExtraGc(s: Store, t: int, ops: seq<Op>)
    ensures var kept := RunFrom(s, ops); var lean := RunFrom(Collected(s, t), ops);
      && Within(lean, kept)
      && (forall id :: id in kept && id !in lean ==>
            id in ExpiredIds(s, t) && (kept[id].expireAt <= t || Beaten(ops, id)))
  {
    if ops != [] {
      var prefix := ops[..|ops| - 1];
      ExtraGc(s, t, prefix);
      forall id | Beaten(prefix, id) ensures Beaten(ops, id) {
        var i :| 0 <= i < |prefix| && prefix[i].Heartbeat? && prefix[i].id == id;
        assert ops[i] == prefix[i];
      }
      var op := ops[|ops| - 1];
      ExtraGcStep(RunFrom(s, prefix), RunFrom(Collected(s, t), prefix), op);
      if op.Heartbeat? {
        assert Beaten(ops, op.id);
      }
    }
  }

  lemma ExtraGcStep(kept: Store, lean: Store, op: Op)
    requires Within(lean, kept)
    ensures Within(Apply(lean, op), Apply(kept, op))
    ensures forall id :: id in Apply(kept, op) && id !in Apply(lean, op) ==>
              id in kept && id !in lean && (Apply(kept, op)[id] == kept[id] || (op.Heartbeat? && op.id == id))
  {
  }

  /** When no lease that had expired at t is beaten later, collecting at t never changes what is
      active at t or later; in general it can only take away the expired leases that are beaten. */
  lemma GcIsInvisible(s: Store, t: int, ops: seq<Op>, now: int)
    requires t <= now
    ensures var with := ActiveIds(RunFrom(Collected(s, t), ops), now);
            var without := ActiveIds(RunFrom(s, ops), now);
      && with <= without
      && (forall id :: id in without - with ==> id in ExpiredIds(s, t) && Beaten(ops, id))
      && ((forall id :: id in ExpiredIds(s, t) ==> !Beaten(ops, id)) ==> with == without)
  {
    ExtraGc(s, t, ops);
  }

  lemma RunOne(s: Store, op: Op)
    ensures RunFrom(s, [op]) == Apply(s, op)
  {
    assert [op][..|[op]| - 1] == [];
    assert RunFrom(s, []) == s;
  }

  /** The proviso is needed: an uncollected expired lease comes back to life with a late beat, so
      there a collection in between is visible. */
  lemma LateBeatRevives(id: LeaseId, pid: int, b: int, t: int, late: int)
    requires b + LEASE_TTL <= t <= late
    ensures var s := Run([Op.Acquire(id, pid, b)]);
      && id !in ActiveIds(s, t)
      && id in ActiveIds(RunFrom(s, [Op.Heartbeat(id, late)]), late)
      && id !in ActiveIds(RunFrom(Collected(s, t), [Op.Heartbeat(id, late)]), late)
  {
    RunOne(map[], Op.Acquire(id, pid, b));
    var s := Run([Op.Acquire(id, pid, b)]);
    RunOne(s, Op.Heartbeat(id, late));
    RunOne(Collected(s, t), Op.Heartbeat(id, late));
  }
}
