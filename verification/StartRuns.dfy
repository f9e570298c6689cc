/** Pieces of runs of the start race, from which the runs beyond its guarantees are put together. */
module StartRuns {
  import opened StartRace

  lemma Then(s0: State, acts: seq<Action>, s: State, a: Action, t: State) returns (more: seq<Action>)
    requires After(s0, acts) == s && Step(s, a) == t
    ensures After(s0, more) == t
  {
    more := acts + [a];
    assert more[..|more| - 1] == acts;
  }

  lemma Goes(s0: State, acts: seq<Action>, s: State, p: Pid, answer: Answer, id: DaemonId)
    returns (more: seq<Action>, t: State)
    requires After(s0, acts) == s && Enabled(s, ClientStep(p, answer, id))
    ensures After(s0, more) == t
    ensures t == s.(clients := s.clients[p := NextClient(s, p, answer, id)], lock := NextLock(s, p),
                    main := NextMain(s, p), daemons := NextDaemons(s, p, answer, id))
  {
    t := Do(s, ClientStep(p, answer, id));
    more := Then(s0, acts, s, ClientStep(p, answer, id), t);
  }

  /** No owner but p, and no daemon, keeps time from passing until then. */
  predicate OthersMayWait(s: State, p: Pid, to: int) {
    && (forall r :: r in s.clients && Owner(s.clients[r]) && r != p ==> to <= s.clients[r].limit)
    && (forall d :: d in s.daemons && Pending(s.daemons[d]) ==> to <= s.daemons[d].spawnedAt + s.bounds.publish)
  }

  predicate MayWait(s: State, p: Pid, to: int) {
    s.now <= to && OthersMayWait(s, p, to) && (p in s.clients && Owner(s.clients[p]) ==> to <= s.clients[p].limit)
  }

  lemma Waits(s0: State, acts: seq<Action>, s: State, p: Pid, to: int) returns (more: seq<Action>, t: State)
    requires After(s0, acts) == s && MayWait(s, p, to)
    ensures After(s0, more) == t && t == s.(now := to)
  {
    t := s.(now := to);
    more := Then(s0, acts, s, Elapse(to), t);
  }

  function Min(x: int, y: int): int { if x < y then x else y }

  predicate NoOwnerBut(s: State, p: Pid) {
    forall r :: r in s.clients && Owner(s.clients[r]) ==> r == p
  }

  /** The same, but for when the client takes its next step. */
  predicate Same(c: Client, d: Client) {
    match c
    case OwnWait(a, spawned, until, _) => d.OwnWait? && d == OwnWait(a, spawned, until, d.limit)
    case OwnSpawnFailed(a, until, _) => d.OwnSpawnFailed? && d == OwnSpawnFailed(a, until, d.limit)
    case OwnProbe(a, info, until, _) => d.OwnProbe? && d == OwnProbe(a, info, until, d.limit)
    case OwnProbeAgain(a, info, until, _) => d.OwnProbeAgain? && d == OwnProbeAgain(a, info, until, d.limit)
    case _ => c == d
  }

  predicate Polls(c: Client) { c.OwnWait? || c.OwnSpawnFailed? }

  /** While there is no runtime file, the owner goes on polling, up to one poll after its time is up. */
  lemma {:induction false} KeepsPolling(s0: State, acts: seq<Action>, s: State, p: Pid, to: int)
    returns (more: seq<Action>, t: State)
    requires After(s0, acts) == s && p in s.clients && Polls(s.clients[p]) && !s.main.Whole?
    requires s.now <= s.clients[p].limit && s.now <= to <= s.clients[p].until + POLL && OthersMayWait(s, p, to)
    requires s.now <= s.clients[p].until || to <= s.clients[p].limit
    ensures After(s0, more) == t && p in t.clients && Same(s.clients[p], t.clients[p]) && t.clients[p].limit >= to
    ensures t == s.(now := to, clients := s.clients[p := t.clients[p]])
    decreases if to > s.clients[p].limit then to - s.clients[p].limit else 0
  {
    if to <= s.clients[p].limit {
      more, t := Waits(s0, acts, s, p, to);
      assert t.clients == t.clients[p := t.clients[p]];
    } else {
      more, t := OnePoll(s0, acts, s, p, to);
      more, t := KeepsPolling(s0, more, t, p, to);
    }
  }

  lemma OnePoll(s0: State, acts: seq<Action>, s: State, p: Pid, to: int) returns (more: seq<Action>, t: State)
    requires After(s0, acts) == s && p in s.clients && Polls(s.clients[p]) && !s.main.Whole?
    requires s.now <= s.clients[p].limit < to <= s.clients[p].until + POLL && OthersMayWait(s, p, to)
    requires s.now <= s.clients[p].until
    ensures After(s0, more) == t && p in t.clients && Same(s.clients[p], t.clients[p])
    ensures t == s.(now := t.now, clients := s.clients[p := t.clients[p]])
    ensures s.now <= t.now <= to && t.now <= s.clients[p].until && t.clients[p].limit == t.now + POLL
    ensures t.clients[p].limit >= to || t.clients[p].limit > s.clients[p].limit
  {
    var at := Min(s.clients[p].until, s.clients[p].limit);
    more, t := Waits(s0, acts, s, p, at);
    more, t := Goes(s0, more, t, p, Good, 0);
  }

  predicate Dials(s: State, c: Client) {
    (c.OwnProbe? || c.OwnProbeAgain?) && !IsListening(s, c.info.daemon)
  }

  /** An owner goes on dialing a dead address, up to one dial after its time is up. */
  lemma {:induction false} DialsInVain(s0: State, acts: seq<Action>, s: State, p: Pid, to: int)
    returns (more: seq<Action>, t: State)
    requires After(s0, acts) == s && p in s.clients && Dials(s, s.clients[p])
    requires s.now <= s.clients[p].limit && s.now <= to <= s.clients[p].until + REDIAL && OthersMayWait(s, p, to)
    requires s.now <= s.clients[p].until || to <= s.clients[p].limit
    ensures After(s0, more) == t && p in t.clients && Same(s.clients[p], t.clients[p]) && t.clients[p].limit >= to
    ensures t == s.(now := to, clients := s.clients[p := t.clients[p]])
    decreases if to > s.clients[p].limit then to - s.clients[p].limit else 0
  {
    if to <= s.clients[p].limit {
      more, t := Waits(s0, acts, s, p, to);
      assert t.clients == t.clients[p := t.clients[p]];
    } else {
      more, t := OneDial(s0, acts, s, p, to);
      more, t := DialsInVain(s0, more, t, p, to);
    }
  }

  lemma OneDial(s0: State, acts: seq<Action>, s: State, p: Pid, to: int) returns (more: seq<Action>, t: State)
    requires After(s0, acts) == s && p in s.clients && Dials(s, s.clients[p])
    requires s.now <= s.clients[p].limit < to <= s.clients[p].until + REDIAL && OthersMayWait(s, p, to)
    requires s.now <= s.clients[p].until
    ensures After(s0, more) == t && p in t.clients && Same(s.clients[p], t.clients[p])
    ensures t == s.(now := t.now, clients := s.clients[p := t.clients[p]])
    ensures s.now <= t.now <= to && t.now <= s.clients[p].until && t.clients[p].limit == t.now + REDIAL
    ensures t.clients[p].limit >= to || t.clients[p].limit > s.clients[p].limit
  {
    var at := Min(s.clients[p].until, s.clients[p].limit);
    more, t := Waits(s0, acts, s, p, at);
    more, t := Goes(s0, more, t, p, Bad, 0);
  }

  // ---------------------------------------------------------------------------------------------
  // Before the lock

  lemma GivesUpOnTheFile(s0: State, acts: seq<Action>, s: State, q: Pid) returns (more: seq<Action>, t: State)
    requires After(s0, acts) == s && q in s.clients && s.clients[q] == Connect(0)
    requires s.main.Whole? && !IsListening(s, s.main.info.daemon)
    ensures After(s0, more) == t && t == s.(clients := s.clients[q := DropFirst(0)])
  {
    more, t := Goes(s0, acts, s, q, Good, 0);
    more, t := Goes(s0, more, t, q, Bad, 0);
  }

  /** The client goes past the runtime file, removing a stale one. */
  lemma PassesFile(s0: State, acts: seq<Action>, s: State, p: Pid) returns (more: seq<Action>, t: State)
    requires After(s0, acts) == s && p in s.clients && s.clients[p] == Connect(0) && s.daemons == map[]
    ensures After(s0, more) == t
    ensures t == s.(clients := s.clients[p := TryLock(0, s.now + START_DEADLINE)],
                    main := if s.main.Whole? then Missing else s.main)
  {
    if s.main.Whole? {
      more, t := GivesUpOnTheFile(s0, acts, s, p);
      more, t := Goes(s0, more, t, p, Good, 0);
    } else {
      more, t := Goes(s0, acts, s, p, Good, 0);
    }
  }

  /** Client p has just taken the lock; nobody else is in the owner's section. */
  predicate JustLocked(s: State, p: Pid) {
    && p in s.clients && s.clients[p] == OwnRead(0, s.now + s.bounds.op) && NoOwnerBut(s, p)
    && s.lock == Held(p, s.now) && !s.main.Whole? && s.daemons == map[]
  }

  lemma TakesLock(s0: State, acts: seq<Action>, s: State, p: Pid) returns (more: seq<Action>, t: State)
    requires After(s0, acts) == s && p in s.clients && s.clients[p] == Connect(0) && s.lock.Free? && s.daemons == map[]
    requires NoOwnerBut(s, p)
    ensures After(s0, more) == t && JustLocked(t, p)
    ensures t == s.(clients := s.clients[p := t.clients[p]], lock := t.lock,
                    main := if s.main.Whole? then Missing else s.main)
  {
    more, t := PassesFile(s0, acts, s, p);
    more, t := Goes(s0, more, t, p, Good, 0);
  }

  lemma FindsLockHeld(s0: State, acts: seq<Action>, s: State, q: Pid) returns (more: seq<Action>, t: State)
    requires After(s0, acts) == s && q in s.clients && s.clients[q] == Connect(0) && !s.main.Whole? && s.lock.Held?
    ensures After(s0, more) == t
    ensures t == s.(clients := s.clients[q := WaitOther(0, s.now + START_DEADLINE, s.now + OTHER_WAIT)])
  {
    more, t := Goes(s0, acts, s, q, Good, 0);
    more, t := Goes(s0, more, t, q, Good, 0);
  }

  /** A client that has found the runtime file unreachable removes it at last, and then waits for the owner. */
  lemma WaitsForOwner(s0: State, acts: seq<Action>, s: State, q: Pid) returns (more: seq<Action>, t: State)
    requires After(s0, acts) == s && q in s.clients && s.clients[q] == DropFirst(0) && s.lock.Held?
    ensures After(s0, more) == t
    ensures t == s.(main := Missing, clients := s.clients[q := WaitOther(0, s.now + START_DEADLINE, s.now + OTHER_WAIT)])
  {
    more, t := Goes(s0, acts, s, q, Good, 0);
    more, t := Goes(s0, more, t, q, Good, 0);
  }

  /** A client waits for the owner, its time is up, and the lock looks stale to it. */
  predicate FindsStale(s: State, q: Pid) {
    && q in s.clients && s.clients[q].WaitOther? && s.now > s.clients[q].until
    && !s.main.Whole? && s.lock.Held? && s.now - s.lock.mtime >= STALE_AFTER
  }

  /** It removes the lock, and takes the free lock. */
  lemma TakesStaleLock(s0: State, acts: seq<Action>, s: State, q: Pid) returns (more: seq<Action>, t: State)
    requires After(s0, acts) == s && FindsStale(s, q)
    ensures After(s0, more) == t && t == s.(clients := s.clients[q := OwnRead(s.clients[q].a, s.now + s.bounds.op)],
                                            lock := Held(q, s.now))
  {
    more, t := DropsStaleLock(s0, acts, s, q);
    more, t := Goes(s0, more, t, q, Good, 0);
  }

  lemma DropsStaleLock(s0: State, acts: seq<Action>, s: State, q: Pid) returns (more: seq<Action>, t: State)
    requires After(s0, acts) == s && FindsStale(s, q)
    ensures After(s0, more) == t
    ensures t == s.(clients := s.clients[q := TryLock(s.clients[q].a, s.clients[q].deadline)], lock := Free)
  {
    more, t := LooksAtLock(s0, acts, s, q);
    more, t := Goes(s0, more, t, q, Good, 0);
    more, t := Goes(s0, more, t, q, Good, 0);
  }

  lemma LooksAtLock(s0: State, acts: seq<Action>, s: State, q: Pid) returns (more: seq<Action>, t: State)
    requires After(s0, acts) == s && FindsStale(s, q)
    ensures After(s0, more) == t
    ensures t == s.(clients := s.clients[q := StaleRead(s.clients[q].a, s.clients[q].deadline)])
  {
    more, t := Goes(s0, acts, s, q, Good, 0);
    more, t := Goes(s0, more, t, q, Good, 0);
  }

  lemma TwoOwners(s0: State, acts: seq<Action>, s: State, p: Pid, q: Pid) returns (more: seq<Action>, t: State)
    requires After(s0, acts) == s && FindsStale(s, q) && p in s.clients && Owner(s.clients[p]) && p != q
    ensures After(s0, more) == t && !Exclusive(t)
    ensures t == s.(clients := s.clients[q := OwnRead(s.clients[q].a, s.now + s.bounds.op)], lock := Held(q, s.now))
  {
    more, t := TakesStaleLock(s0, acts, s, q);
    assert Owner(t.clients[p]) && Owner(t.clients[q]);
  }

  // ---------------------------------------------------------------------------------------------
  // In the owner's section

  /** An owner that has found no runtime file spawns a daemon at once. */
  lemma SpawnsNow(s0: State, acts: seq<Action>, s: State, q: Pid, id: DaemonId) returns (more: seq<Action>, t: State)
    requires After(s0, acts) == s && q in s.clients && s.clients[q].OwnRead? && !s.main.Whole? && id !in s.daemons
    ensures After(s0, more) == t
    ensures t == s.(clients := s.clients[q := OwnWait(s.clients[q].a, id, s.now + PUBLISH_WAIT, s.now)],
                    daemons := s.daemons[id := Daemon(s.now, Spawned)])
  {
    more, t := Goes(s0, acts, s, q, Good, id);
    more, t := Goes(s0, more, t, q, Good, id);
  }

  /** A client that finds the lock free and no runtime file does so, too. */
  lemma OwnerSpawns(s0: State, acts: seq<Action>, s: State, p: Pid, id: DaemonId) returns (more: seq<Action>, t: State)
    requires After(s0, acts) == s && p in s.clients && s.clients[p].TryLock?
    requires s.lock.Free? && !s.main.Whole? && id !in s.daemons
    ensures After(s0, more) == t
    ensures t == s.(clients := s.clients[p := OwnWait(s.clients[p].a, id, s.now + PUBLISH_WAIT, s.now)],
                    lock := Held(p, s.now), daemons := s.daemons[id := Daemon(s.now, Spawned)])
  {
    more, t := Goes(s0, acts, s, p, Good, id);
    more, t := SpawnsNow(s0, more, t, p, id);
  }

  lemma DaemonPublishes(s0: State, acts: seq<Action>, s: State, id: DaemonId) returns (more: seq<Action>, t: State)
    requires After(s0, acts) == s && id in s.daemons && s.daemons[id].stage.Spawned?
    ensures After(s0, more) == t
    ensures t == s.(daemons := s.daemons[id := Daemon(s.daemons[id].spawnedAt, Published)],
                    main := Whole(Info(id)), tmp := Missing)
  {
    more, t := DaemonWrites(s0, acts, s, id);
    var at := s.daemons[id].spawnedAt;
    var u := s.(daemons := s.daemons[id := Daemon(at, Published)], main := Whole(Info(id)), tmp := Missing);
    more := Then(s0, more, t, DaemonStep(id), u);
    t := u;
  }

  lemma DaemonWrites(s0: State, acts: seq<Action>, s: State, id: DaemonId) returns (more: seq<Action>, t: State)
    requires After(s0, acts) == s && id in s.daemons && s.daemons[id].stage.Spawned?
    ensures After(s0, more) == t
    ensures t == s.(daemons := s.daemons[id := Daemon(s.daemons[id].spawnedAt, Written)], tmp := Whole(Info(id)))
  {
    var at := s.daemons[id].spawnedAt;
    var s1 := s.(daemons := s.daemons[id := Daemon(at, Listening)]);
    var s2 := s.(daemons := s.daemons[id := Daemon(at, Writing)], tmp := Torn);
    t := s.(daemons := s.daemons[id := Daemon(at, Written)], tmp := Whole(Info(id)));
    more := Then(s0, acts, s, DaemonStep(id), s1);
    more := Then(s0, more, s1, DaemonStep(id), s2);
    more := Then(s0, more, s2, DaemonStep(id), t);
  }

  /** The owner sees the runtime file, reaches the daemon, and gives the lock back. */
  lemma OwnerReturns(s0: State, acts: seq<Action>, s: State, p: Pid) returns (more: seq<Action>, t: State)
    requires After(s0, acts) == s && p in s.clients && s.clients[p].OwnWait? && s.clients[p].a == 0
    requires s.main.Whole?
    ensures After(s0, more) == t
    ensures t == s.(clients := s.clients[p := WaitFinal(0, s.now + 12_000)], lock := Free)
  {
    more, t := Goes(s0, acts, s, p, Good, 0);
    more, t := Goes(s0, more, t, p, Good, 0);
    more, t := Goes(s0, more, t, p, Good, 0);
  }

  /** Its wait is in vain, and it gives the lock back. */
  lemma Released(s0: State, acts: seq<Action>, s: State, p: Pid) returns (more: seq<Action>, t: State)
    requires After(s0, acts) == s && p in s.clients && s.clients[p].OwnWait?
    requires s.now > s.clients[p].until && !s.main.Whole?
    ensures After(s0, more) == t
    ensures t == s.(lock := Free, clients := s.clients[p := Recover(s.clients[p].a, s.now + RECOVER_WAIT)])
  {
    more, t := Goes(s0, acts, s, p, Good, 0);
    more, t := Goes(s0, more, t, p, Good, 0);
  }

  /** A client spawns a daemon, which stays silent until the client's wait is over. */
  lemma SpawnsInVain(s0: State, acts: seq<Action>, s: State, p: Pid, id: DaemonId) returns (more: seq<Action>, t: State)
    requires After(s0, acts) == s && p in s.clients && s.clients[p].TryLock?
    requires s.lock.Free? && !s.main.Whole? && id !in s.daemons && NoOwnerBut(s, p)
    requires OthersMayWait(s, p, s.now + PUBLISH_WAIT + 1) && s.bounds.publish > PUBLISH_WAIT
    ensures After(s0, more) == t
    ensures t == s.(now := s.now + PUBLISH_WAIT + 1, daemons := s.daemons[id := Daemon(s.now, Spawned)],
                    clients := s.clients[p := Recover(s.clients[p].a, s.now + PUBLISH_WAIT + 1 + RECOVER_WAIT)])
  {
    more, t := OwnerSpawns(s0, acts, s, p, id);
    more, t := KeepsPolling(s0, more, t, p, s.now + PUBLISH_WAIT + 1);
    more, t := Released(s0, more, t, p);
  }

  lemma SecondAttempt(s0: State, acts: seq<Action>, s: State, p: Pid) returns (more: seq<Action>, t: State)
    requires After(s0, acts) == s && p in s.clients && s.clients[p].Recover? && s.clients[p].a == 0
    requires s.clients[p].until < s.now && !s.main.Whole?
    ensures After(s0, more) == t && t == s.(clients := s.clients[p := TryLock(1, s.now + START_DEADLINE)])
  {
    more, t := Goes(s0, acts, s, p, Good, 0);
    more, t := Goes(s0, more, t, p, Good, 0);
  }

  lemma Connects(s0: State, acts: seq<Action>, s: State, p: Pid) returns (more: seq<Action>, t: State)
    requires After(s0, acts) == s && p in s.clients && s.clients[p].WaitFinal? && s.main.Whole?
    ensures After(s0, more) == t && t == s.(clients := s.clients[p := Connected(s.main.info)])
  {
    more, t := Goes(s0, acts, s, p, Good, 0);
    more, t := Goes(s0, more, t, p, Good, 0);
  }

  // ---------------------------------------------------------------------------------------------
  // A slow owner

  /** When the owner p, which has just taken the lock, is as slow as it may be, but no slower than the
      lock takes to look stale, it spawns then. */
  function BuiltAt(s: State): int { Min(s.now + s.bounds.op + s.bounds.build, s.now + STALE_AFTER) }

  lemma BuildsSlowly(s0: State, acts: seq<Action>, s: State, p: Pid) returns (more: seq<Action>, t: State)
    requires After(s0, acts) == s && JustLocked(s, p)
    ensures After(s0, more) == t && p in t.clients && t.clients[p].OwnSpawn? && t.clients[p].a == 0
    ensures t == s.(now := BuiltAt(s), clients := s.clients[p := t.clients[p]])
  {
    more, t := Waits(s0, acts, s, p, s.now + Min(s.bounds.op, STALE_AFTER));
    more, t := Goes(s0, more, t, p, Good, 0);
    more, t := Waits(s0, more, t, p, BuiltAt(s));
  }

  lemma SpawnsSlowly(s0: State, acts: seq<Action>, s: State, p: Pid) returns (more: seq<Action>, t: State)
    requires After(s0, acts) == s && JustLocked(s, p)
    ensures After(s0, more) == t
    ensures t == s.(now := BuiltAt(s), clients := s.clients[p := OwnWait(0, 0, BuiltAt(s) + PUBLISH_WAIT, BuiltAt(s))],
                    daemons := map[0 := Daemon(BuiltAt(s), Spawned)])
  {
    more, t := BuildsSlowly(s0, acts, s, p);
    more, t := Goes(s0, more, t, p, Good, 0);
  }
}
