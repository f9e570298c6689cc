/** The start lock alone: how long an owner's section can last, whatever is in the runtime file, whoever
    removes it, and however late the daemons are. */
module StartLock {
  import opened StartRace

  /** How old the lock is when the owner leaves this place, at the latest. */
  predicate InBudget(s: State, p: Pid)
    requires p in s.clients && s.lock.Held?
  {
    var b, t := s.bounds, s.lock.mtime;
    match s.clients[p]
    case OwnRead(_, limit) => limit <= t + b.op
    case OwnProbe(_, _, until, limit) => limit <= until + REDIAL <= t + b.op + PROBE_LIMIT
    case OwnDrop(_, limit) => limit <= t + 2 * b.op + PROBE_LIMIT
    case OwnSpawn(_, limit) => limit <= t + 2 * b.op + PROBE_LIMIT + b.build
    case OwnSpawnFailed(_, until, limit) =>
      limit <= until + POLL <= t + 2 * b.op + PROBE_LIMIT + b.build + SPAWN_FAILED_LIMIT
    case OwnWait(_, _, until, limit) => limit <= until + POLL <= t + 2 * b.op + PROBE_LIMIT + b.build + WAIT_LIMIT
    case OwnProbeAgain(_, _, until, limit) =>
      limit <= until + REDIAL <= t + 2 * b.op + PROBE_LIMIT + b.build + WAIT_LIMIT + SECOND_PROBE_LIMIT
    case OwnRelease(_, _, limit) =>
      limit <= t + 3 * b.op + PROBE_LIMIT + b.build + WAIT_LIMIT + SECOND_PROBE_LIMIT
    case _ => true
  }

  /** The client's section is its own, and nobody has found a stale lock. */
  predicate Keeps(s: State, p: Pid)
    requires p in s.clients
  {
    && (Owner(s.clients[p]) ==>
          s.lock.Held? && s.lock.owner == p && s.now <= s.clients[p].limit && InBudget(s, p))
    && !s.clients[p].StaleRead? && !s.clients[p].StaleDrop?
  }

  predicate LockHasOwner(s: State) {
    s.lock.Held? ==> s.lock.owner in s.clients && Owner(s.clients[s.lock.owner])
  }

  predicate Inv(s: State) {
    PromptWhatever(s.bounds) && LockHasOwner(s) && forall p :: p in s.clients ==> Keeps(s, p)
  }

  lemma LockIsYoung(s: State)
    requires Inv(s)
    ensures Young(s)
  {
    if s.lock.Held? {
      assert Keeps(s, s.lock.owner);
    }
  }

  lemma OwnerKeeps(s: State, p: Pid, answer: Answer, id: DaemonId)
    requires PromptWhatever(s.bounds) && Enabled(s, ClientStep(p, answer, id)) && Keeps(s, p) && Owner(s.clients[p])
    ensures Keeps(Do(s, ClientStep(p, answer, id)), p)
  {
    assert Do(s, ClientStep(p, answer, id)).clients[p] == NextOwner(s, p, answer, id);
  }

  lemma OtherKeeps(s: State, p: Pid, answer: Answer, id: DaemonId)
    requires Enabled(s, ClientStep(p, answer, id)) && Keeps(s, p) && !Owner(s.clients[p]) && Young(s)
    ensures Keeps(Do(s, ClientStep(p, answer, id)), p)
  {
  }

  lemma BystanderKeeps(s: State, p: Pid, answer: Answer, id: DaemonId, q: Pid)
    requires Enabled(s, ClientStep(p, answer, id)) && q in s.clients && q != p && Keeps(s, p) && Keeps(s, q)
    ensures Keeps(Do(s, ClientStep(p, answer, id)), q)
  {
  }

  lemma OneKeeps(s: State, a: Action, q: Pid)
    requires PromptWhatever(s.bounds) && Enabled(s, a) && q in s.clients && Keeps(s, q) && Young(s)
    requires a.ClientStep? ==> Keeps(s, a.p)
    ensures Keeps(Do(s, a), q)
  {
    if a.ClientStep? {
      if q != a.p {
        BystanderKeeps(s, a.p, a.answer, a.id, q);
      } else if Owner(s.clients[q]) {
        OwnerKeeps(s, q, a.answer, a.id);
      } else {
        OtherKeeps(s, q, a.answer, a.id);
      }
    }
  }

  lemma OwnerStays(s: State, a: Action)
    requires LockHasOwner(s) && Enabled(s, a)
    requires a.ClientStep? ==> Keeps(s, a.p)
    ensures LockHasOwner(Do(s, a))
  {
  }

  lemma StepInv(s: State, a: Action)
    requires Inv(s)
    ensures Inv(Step(s, a))
  {
    if Enabled(s, a) {
      LockIsYoung(s);
      OwnerStays(s, a);
      forall q | q in Do(s, a).clients ensures Keeps(Do(s, a), q) {
        OneKeeps(s, a, q);
      }
    }
  }

  /** If the owner's section is short even when it probes two dead addresses for as long as it probes any,
      then from every start, with any number of clients and however late the daemons: the lock never
      looks stale, its owner keeps it, and nobody else is in the owner's section. */
  lemma {:induction false} LockIsKept(s0: State, acts: seq<Action>)
    requires Start(s0) && PromptWhatever(s0.bounds)
    ensures Inv(After(s0, acts)) && Young(After(s0, acts)) && Exclusive(After(s0, acts))
  {
    if acts != [] {
      LockIsKept(s0, acts[..|acts| - 1]);
      StepInv(After(s0, acts[..|acts| - 1]), acts[|acts| - 1]);
    }
    var s := After(s0, acts);
    LockIsYoung(s);
    forall p | p in s.clients ensures Keeps(s, p) {}
  }
}
