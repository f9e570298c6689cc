/** Where the guarantees of the start race end: runs for every start and all bounds outside the conditions
    of `StartSafety` and `StartRemoval`, and the resulting equivalences. */
module StartBoundary {
  import opened StartRace
  import opened StartRuns
  import StartSafety
  import StartRemoval

  // ---------------------------------------------------------------------------------------------
  // A slow owner

  /** Client p still has the lock when it looks stale. */
  predicate HoldsOldLock(s: State, p: Pid) {
    p in s.clients && Owner(s.clients[p]) && s.lock.Held? && s.now - s.lock.mtime >= STALE_AFTER
  }

  /** Its daemon is still silent then. */
  lemma SilentDaemon(s0: State, acts: seq<Action>, s: State, p: Pid) returns (more: seq<Action>, t: State)
    requires After(s0, acts) == s && JustLocked(s, p)
    requires s.bounds.publish <= PUBLISH_WAIT && s.bounds.op + s.bounds.build + s.bounds.publish >= STALE_AFTER
    ensures After(s0, more) == t && p in t.clients && t.clients[p].OwnWait?
    ensures t == s.(now := s.now + STALE_AFTER, clients := s.clients[p := t.clients[p]],
                    daemons := map[0 := Daemon(BuiltAt(s), Spawned)])
  {
    more, t := SpawnsSlowly(s0, acts, s, p);
    more, t := KeepsPolling(s0, more, t, p, s.now + STALE_AFTER);
  }

  /** Or its spawn has failed, and it waits for somebody else's file or still has to give the lock back. */
  predicate SpawnFailed(s: State, p: Pid) {
    && p in s.clients
    && (|| (s.clients[p].OwnSpawnFailed? && s.now <= s.clients[p].limit && s.now <= s.clients[p].until <= s.now + 3_000)
        || (s.clients[p].OwnRelease? && !s.clients[p].ok))
    && s.clients[p].a == 0
  }

  lemma FailedSpawn(s0: State, acts: seq<Action>, s: State, p: Pid) returns (more: seq<Action>, t: State)
    requires After(s0, acts) == s && JustLocked(s, p)
    requires s.bounds.op + s.bounds.build < STALE_AFTER
    requires 2 * s.bounds.op + s.bounds.build + SPAWN_FAILED_LIMIT >= STALE_AFTER
    ensures After(s0, more) == t && SpawnFailed(t, p)
    ensures t == s.(now := s.now + STALE_AFTER, clients := s.clients[p := t.clients[p]])
  {
    var end := s.now + STALE_AFTER;
    more, t := BuildsSlowly(s0, acts, s, p);
    more, t := Goes(s0, more, t, p, Bad, 0);
    more, t := KeepsPolling(s0, more, t, p, Min(t.now + SPAWN_FAILED_LIMIT, end));
    if t.now > t.clients[p].until {
      more, t := Goes(s0, more, t, p, Good, 0);
      more, t := Waits(s0, more, t, p, end);
    }
  }

  /** Or its daemon publishes as late as it may, and only then, at the next poll, the owner sees that. */
  lemma PublishesLate(s0: State, acts: seq<Action>, s: State, p: Pid, at: int) returns (more: seq<Action>, t: State)
    requires After(s0, acts) == s && JustLocked(s, p) && BuiltAt(s) <= at <= BuiltAt(s) + s.bounds.publish
    requires s.bounds.publish <= PUBLISH_WAIT
    ensures After(s0, more) == t && p in t.clients
    ensures t.clients[p] == OwnWait(0, 0, BuiltAt(s) + PUBLISH_WAIT, at + POLL)
    ensures t == s.(now := at, clients := s.clients[p := t.clients[p]], main := Whole(Info(0)), tmp := Missing,
                    daemons := map[0 := Daemon(BuiltAt(s), Published)])
  {
    more, t := SpawnsSlowly(s0, acts, s, p);
    more, t := KeepsPolling(s0, more, t, p, at);
    more, t := Goes(s0, more, t, p, Good, 0);
    more, t := DaemonPublishes(s0, more, t, 0);
  }

  /** It has just seen that, and dials. */
  predicate Reaches(s: State, p: Pid) {
    && p in s.clients && s.clients[p].OwnProbeAgain? && s.clients[p].limit == s.now + DIAL && NoOwnerBut(s, p)
    && s.lock.Held? && (forall d :: d in s.daemons ==> s.daemons[d].stage.Published?)
  }

  lemma ReachesLate(s0: State, acts: seq<Action>, s: State, p: Pid) returns (more: seq<Action>, t: State)
    requires After(s0, acts) == s && JustLocked(s, p) && s.bounds.publish <= PUBLISH_WAIT
    requires s.bounds.op + s.bounds.build + s.bounds.publish + POLL < STALE_AFTER
    ensures After(s0, more) == t && Reaches(t, p)
    ensures t == s.(now := s.now + s.bounds.op + s.bounds.build + s.bounds.publish + POLL,
                    clients := s.clients[p := t.clients[p]], main := Whole(Info(0)), tmp := Missing, daemons := t.daemons)
  {
    more, t := PublishesLate(s0, acts, s, p, BuiltAt(s) + s.bounds.publish);
    more, t := Waits(s0, more, t, p, t.now + POLL);
    more, t := Goes(s0, more, t, p, Good, 0);
  }

  /** It takes its time to reach the daemon and to give the lock back. */
  lemma ReleasesLate(s0: State, acts: seq<Action>, s: State, p: Pid, to: int) returns (more: seq<Action>, t: State)
    requires After(s0, acts) == s && p in s.clients && s.clients[p].OwnProbeAgain? && NoOwnerBut(s, p)
    requires s.clients[p].limit == s.now + DIAL && s.now <= to <= s.now + DIAL + s.bounds.op
    requires forall d :: d in s.daemons ==> s.daemons[d].stage.Published?
    ensures After(s0, more) == t && p in t.clients && Owner(t.clients[p])
    ensures t == s.(now := to, clients := s.clients[p := t.clients[p]])
  {
    more, t := Waits(s0, acts, s, p, Min(to, s.now + DIAL));
    if t.now < to {
      more, t := Goes(s0, more, t, p, Good, 0);
      more, t := Waits(s0, more, t, p, to);
    }
  }

  /** A single client can hold the lock until it looks stale. */
  lemma OldLock(s0: State, p: Pid) returns (acts: seq<Action>)
    requires Start(s0) && p in s0.clients && s0.bounds.publish <= PUBLISH_WAIT && !PromptThroughout(s0.bounds)
    ensures HoldsOldLock(After(s0, acts), p)
  {
    var b := s0.bounds;
    var s;
    acts, s := TakesLock(s0, [], s0, p);
    var end := s.now + STALE_AFTER;
    if b.op + b.build >= STALE_AFTER {
      acts, s := BuildsSlowly(s0, acts, s, p);
    } else if 2 * b.op + b.build + SPAWN_FAILED_LIMIT >= STALE_AFTER {
      acts, s := FailedSpawn(s0, acts, s, p);
    } else if b.op + b.build + b.publish + POLL < STALE_AFTER {
      acts, s := ReachesLate(s0, acts, s, p);
      acts, s := ReleasesLate(s0, acts, s, p, end);
    } else {
      acts, s := PublishesLate(s0, acts, s, p, Min(BuiltAt(s) + b.publish, end));
      acts, s := Waits(s0, acts, s, p, end);
    }
  }

  // ---------------------------------------------------------------------------------------------
  // A slow owner and a rival

  /** Client p has just taken the lock, and client q waits for it. */
  predicate Contended(s: State, p: Pid, q: Pid) {
    && p != q && JustLocked(s, p)
    && q in s.clients && s.clients[q].WaitOther? && s.clients[q].until == s.now + OTHER_WAIT
  }

  lemma Contends(s0: State, p: Pid, q: Pid) returns (acts: seq<Action>, s: State)
    requires Start(s0) && p in s0.clients && q in s0.clients && p != q
    ensures After(s0, acts) == s && Contended(s, p, q) && s.bounds == s0.bounds
  {
    acts, s := TakesLock(s0, [], s0, p);
    acts, s := FindsLockHeld(s0, acts, s, q);
  }

  /** The rival takes the lock away while the owner's daemon is silent, and spawns another. */
  lemma SilentDaemonRace(s0: State, acts: seq<Action>, s: State, p: Pid, q: Pid)
    returns (both: seq<Action>, more: seq<Action>)
    requires After(s0, acts) == s && Contended(s, p, q)
    requires s.bounds.publish <= PUBLISH_WAIT && s.bounds.op + s.bounds.build + s.bounds.publish >= STALE_AFTER
    ensures !Exclusive(After(s0, both)) && After(s0, more).daemons.Keys == {0, 1}
  {
    var t;
    both, t := SilentDaemon(s0, acts, s, p);
    both, t := TwoOwners(s0, both, t, p, q);
    more, t := SpawnsNow(s0, both, t, q, 1);
  }

  /** The new owner has some time to go before it must spawn. */
  predicate StillAtWork(s: State, q: Pid, until: int) {
    q in s.clients && (s.clients[q].OwnRead? || s.clients[q].OwnSpawn?) && s.clients[q].limit >= until
  }

  lemma StaysAtWork(s0: State, acts: seq<Action>, s: State, q: Pid) returns (more: seq<Action>, t: State)
    requires After(s0, acts) == s && q in s.clients && s.clients[q].OwnRead? && s.clients[q].limit == s.now + s.bounds.op
    requires !s.main.Whole? && 2 * s.bounds.op + s.bounds.build >= 20_000
    ensures After(s0, more) == t && StillAtWork(t, q, s.now + 6_002)
    ensures t == s.(clients := s.clients[q := t.clients[q]])
  {
    if s.bounds.op >= 6_002 {
      return acts, s;
    }
    more, t := Goes(s0, acts, s, q, Good, 0);
  }

  lemma SpawnsAtLast(s0: State, acts: seq<Action>, s: State, q: Pid, id: DaemonId) returns (more: seq<Action>, t: State)
    requires After(s0, acts) == s && StillAtWork(s, q, s.now) && !s.main.Whole? && id !in s.daemons
    ensures After(s0, more) == t && t.daemons.Keys == s.daemons.Keys + {id}
  {
    if s.clients[q].OwnRead? {
      more, t := SpawnsNow(s0, acts, s, q, id);
    } else {
      more, t := Goes(s0, acts, s, q, Good, id);
    }
  }

  predicate NoOwnersBut(s: State, p: Pid, q: Pid) {
    forall r :: r in s.clients && Owner(s.clients[r]) ==> r == p || r == q
  }

  /** The first owner's failed attempt comes to its end, and so removes the rival's lock. */
  lemma RemovesRivalsLock(s0: State, acts: seq<Action>, s: State, p: Pid, q: Pid) returns (more: seq<Action>, t: State)
    requires After(s0, acts) == s && p != q && SpawnFailed(s, p) && StillAtWork(s, q, s.now + 6_002)
    requires !s.main.Whole? && s.daemons == map[] && NoOwnersBut(s, p, q)
    ensures After(s0, more) == t && s.now <= t.now <= s.now + 3_001
    ensures t == s.(now := t.now, lock := Free, clients := s.clients[p := Recover(0, t.now + RECOVER_WAIT)])
  {
    more, t := acts, s;
    if s.clients[p].OwnSpawnFailed? {
      more, t := KeepsPolling(s0, more, t, p, s.clients[p].until + 1);
      more, t := Goes(s0, more, t, p, Good, 0);
    }
    more, t := Goes(s0, more, t, p, Good, 0);
  }

  /** The rival takes the lock away before the owner, whose spawn failed, has given it back; the owner
      then removes the rival's lock, and on its second attempt spawns beside it. */
  lemma FailedSpawnRace(s0: State, acts: seq<Action>, s: State, p: Pid, q: Pid)
    returns (both: seq<Action>, more: seq<Action>)
    requires After(s0, acts) == s && Contended(s, p, q)
    requires s.bounds.op + s.bounds.build < STALE_AFTER
    requires 2 * s.bounds.op + s.bounds.build + SPAWN_FAILED_LIMIT >= STALE_AFTER
    ensures !Exclusive(After(s0, both)) && After(s0, more).daemons.Keys == {0, 1}
  {
    var t;
    both, t := FailedSpawn(s0, acts, s, p);
    both, t := TwoOwners(s0, both, t, p, q);
    more, t := StaysAtWork(s0, both, t, q);
    more := BothSpawn(s0, more, t, p, q);
  }

  lemma BothSpawn(s0: State, acts: seq<Action>, s: State, p: Pid, q: Pid) returns (more: seq<Action>)
    requires After(s0, acts) == s && p != q && SpawnFailed(s, p) && StillAtWork(s, q, s.now + 6_002)
    requires !s.main.Whole? && s.daemons == map[] && NoOwnersBut(s, p, q)
    ensures After(s0, more).daemons.Keys == {0, 1}
  {
    var t;
    more, t := RemovesRivalsLock(s0, acts, s, p, q);
    more, t := Waits(s0, more, t, p, t.now + 3_001);
    more, t := SecondAttempt(s0, more, t, p);
    more, t := OwnerSpawns(s0, more, t, p, 1);
    more, t := SpawnsAtLast(s0, more, t, q, 0);
  }

  /** For every owner that is too slow, and whatever other clients there are, some run has two owners, and
      some run two daemons. */
  lemma SlowOwnerRace(s0: State, p: Pid, q: Pid) returns (both: seq<Action>, more: seq<Action>)
    requires Start(s0) && p in s0.clients && q in s0.clients && p != q
    requires s0.bounds.publish <= PUBLISH_WAIT && !Prompt(s0.bounds)
    ensures !Exclusive(After(s0, both)) && After(s0, more).daemons.Keys == {0, 1}
  {
    var acts, s := Contends(s0, p, q);
    if s.bounds.op + s.bounds.build + s.bounds.publish >= STALE_AFTER {
      both, more := SilentDaemonRace(s0, acts, s, p, q);
    } else {
      both, more := FailedSpawnRace(s0, acts, s, p, q);
    }
  }

  // ---------------------------------------------------------------------------------------------
  // A late daemon

  lemma GivesUp(s0: State, p: Pid) returns (acts: seq<Action>, s: State)
    requires Start(s0) && p in s0.clients && s0.bounds.publish > PUBLISH_WAIT
    ensures After(s0, acts) == s && !s.main.Whole?
    ensures s == State(s0.bounds, s0.now + PUBLISH_WAIT + 1, Free, s.main, s0.tmp, map[0 := Daemon(s0.now, Spawned)],
                       s0.clients[p := Recover(0, s0.now + PUBLISH_WAIT + 1 + RECOVER_WAIT)])
  {
    acts, s := PassesFile(s0, [], s0, p);
    acts, s := SpawnsInVain(s0, acts, s, p, 0);
  }

  /** The owner's wait is over and its daemon is still silent. Another client, which finds the lock free
      and no runtime file, spawns a second daemon. */
  lemma LateDaemonRace(s0: State, p: Pid, q: Pid) returns (acts: seq<Action>)
    requires Start(s0) && p in s0.clients && q in s0.clients && p != q && s0.bounds.publish > PUBLISH_WAIT
    ensures After(s0, acts).daemons.Keys == {0, 1}
  {
    var s;
    acts, s := GivesUp(s0, p);
    acts, s := Goes(s0, acts, s, q, Good, 0);
    acts, s := OwnerSpawns(s0, acts, s, q, 1);
  }

  /** Later still, a client alone does so itself in its second attempt. */
  lemma VeryLateDaemon(s0: State, p: Pid) returns (acts: seq<Action>)
    requires Start(s0) && p in s0.clients && !InTime(s0.bounds)
    requires forall r :: r in s0.clients ==> r == p
    ensures After(s0, acts).daemons.Keys == {0, 1}
  {
    var s;
    acts, s := GivesUp(s0, p);
    acts, s := Waits(s0, acts, s, p, s.now + RECOVER_WAIT + 1);
    acts, s := SecondAttempt(s0, acts, s, p);
    acts, s := OwnerSpawns(s0, acts, s, p, 1);
  }

  // ---------------------------------------------------------------------------------------------
  // A stale runtime file

  /** A client that has found a stale file unreachable removes it without the lock; if it is slow, it
      removes the file of the daemon that another client has started in the meantime, and then starts a
      second one. Any other clients may be there, and the owner may be as prompt as you like. */
  lemma StaleFileRace(s0: State, p: Pid, q: Pid) returns (acts: seq<Action>)
    requires Start(s0) && p in s0.clients && q in s0.clients && p != q && s0.main.Whole?
    ensures After(s0, acts).daemons.Keys == {0, 1}
  {
    var s;
    acts, s := GivesUpOnTheFile(s0, [], s0, q);
    acts, s := TakesLock(s0, acts, s, p);
    acts, s := SpawnsNow(s0, acts, s, p, 0);
    acts, s := DaemonPublishes(s0, acts, s, 0);
    acts, s := OwnerReturns(s0, acts, s, p);
    acts, s := Goes(s0, acts, s, q, Good, 0);
    acts, s := OwnerSpawns(s0, acts, s, q, 1);
  }

  /** The remover q is about to remove the file, and the owner p has just taken the lock. */
  predicate RemoverWaits(s: State, p: Pid, q: Pid) {
    p != q && JustLocked(s, p) && q in s.clients && s.clients[q] == DropFirst(0)
  }

  lemma RemoverIsSlow(s0: State, p: Pid, q: Pid) returns (acts: seq<Action>, s: State)
    requires Start(s0) && p in s0.clients && q in s0.clients && p != q && s0.main.Whole?
    ensures After(s0, acts) == s && RemoverWaits(s, p, q) && s.bounds == s0.bounds && s.clients.Keys == s0.clients.Keys
    ensures forall r :: r in s0.clients && r != p && r != q ==> s.clients[r] == Connect(0)
  {
    acts, s := GivesUpOnTheFile(s0, [], s0, q);
    acts, s := TakesLock(s0, acts, s, p);
  }

  /** The file of the owner's daemon is removed before the next poll, so the owner waits in vain. */
  lemma FileVanishes(s0: State, acts: seq<Action>, s: State, p: Pid, q: Pid) returns (more: seq<Action>, t: State)
    requires After(s0, acts) == s && RemoverWaits(s, p, q)
    ensures After(s0, more) == t
    ensures t == s.(now := BuiltAt(s), tmp := Missing, main := Missing,
                    clients := s.clients[p := OwnWait(0, 0, BuiltAt(s) + PUBLISH_WAIT, BuiltAt(s))]
                                        [q := WaitOther(0, BuiltAt(s) + START_DEADLINE, BuiltAt(s) + OTHER_WAIT)],
                    daemons := map[0 := Daemon(BuiltAt(s), Published)])
  {
    more, t := SpawnsSlowly(s0, acts, s, p);
    more, t := DaemonPublishes(s0, more, t, 0);
    more, t := WaitsForOwner(s0, more, t, q);
  }

  /** So the lock can come to look stale to the client that has removed the file. */
  lemma VainWait(s0: State, acts: seq<Action>, s: State, p: Pid, q: Pid) returns (more: seq<Action>, t: State)
    requires After(s0, acts) == s && RemoverWaits(s, p, q) && !PromptInVain(s.bounds)
    ensures After(s0, more) == t && HoldsOldLock(t, p) && FindsStale(t, q)
  {
    more, t := FileVanishes(s0, acts, s, p, q);
    var to := if t.now + OTHER_WAIT + 1 < s.now + STALE_AFTER then s.now + STALE_AFTER else t.now + OTHER_WAIT + 1;
    more, t := OwnerStaysUntil(s0, more, t, p, to);
  }

  lemma OwnerStaysUntil(s0: State, acts: seq<Action>, s: State, p: Pid, to: int) returns (more: seq<Action>, t: State)
    requires After(s0, acts) == s && p in s.clients && s.clients[p].OwnWait? && NoOwnerBut(s, p) && !s.main.Whole?
    requires s.clients[p].until == s.now + PUBLISH_WAIT && s.clients[p].limit == s.now
    requires s.now <= to <= s.now + WAIT_LIMIT + s.bounds.op
    requires forall d :: d in s.daemons && Pending(s.daemons[d]) ==> to <= s.daemons[d].spawnedAt + s.bounds.publish
    ensures After(s0, more) == t && p in t.clients && Owner(t.clients[p])
    ensures t == s.(now := to, clients := s.clients[p := t.clients[p]])
  {
    more, t := KeepsPolling(s0, acts, s, p, Min(to, s.now + WAIT_LIMIT));
    if t.now < to {
      more, t := Goes(s0, more, t, p, Good, 0);
      more, t := Waits(s0, more, t, p, to);
    }
  }

  /** Or the file is removed when the owner has just seen it; the lock can come to look stale while the
      owner dials and gives it back, to a third client that waits for the lock ... */
  lemma ThirdFindsStale(s0: State, acts: seq<Action>, s: State, p: Pid, q: Pid, r: Pid) returns (more: seq<Action>, t: State)
    requires After(s0, acts) == s && RemoverWaits(s, p, q) && s.bounds.publish <= PUBLISH_WAIT
    requires PromptInVain(s.bounds) && 2 * s.bounds.op + s.bounds.build + s.bounds.publish + SEEN_AND_REACHED >= STALE_AFTER
    requires r in s.clients && s.clients[r] == Connect(0) && r != p && r != q
    ensures After(s0, more) == t && HoldsOldLock(t, p) && FindsStale(t, r)
  {
    more, t := FindsLockHeld(s0, acts, s, r);
    more, t := ReachesLate(s0, more, t, p);
    more, t := Goes(s0, more, t, q, Good, 0);
    more, t := ReleasesLate(s0, more, t, p, s.now + STALE_AFTER);
  }

  /** ... or to the client that has removed the file, if the owner is slow enough for it to have waited. */
  lemma RemoverFindsStale(s0: State, acts: seq<Action>, s: State, p: Pid, q: Pid) returns (more: seq<Action>, t: State)
    requires After(s0, acts) == s && RemoverWaits(s, p, q) && s.bounds.publish <= PUBLISH_WAIT
    requires PromptInVain(s.bounds) && 2 * s.bounds.op + s.bounds.build + s.bounds.publish + SEEN_AND_REACHED >= STALE_AFTER
    requires s.bounds.op > StartRemoval.HEAD_START
    ensures After(s0, more) == t && HoldsOldLock(t, p) && FindsStale(t, q)
  {
    more, t := ReachesLate(s0, acts, s, p);
    more, t := WaitsForOwner(s0, more, t, q);
    var to := if t.now + OTHER_WAIT + 1 < s.now + STALE_AFTER then s.now + STALE_AFTER else t.now + OTHER_WAIT + 1;
    more, t := ReleasesLate(s0, more, t, p, to);
  }

  /** With a stale file and at least two clients, some run has two owners, unless the owner is prompt. */
  lemma SlowRemoverRace(s0: State) returns (acts: seq<Action>)
    requires Start(s0) && s0.main.Whole? && !Lone(s0) && s0.bounds.publish <= PUBLISH_WAIT && !StartRemoval.Prompt(s0)
    ensures !Exclusive(After(s0, acts))
  {
    var p, q, s;
    if !PromptInVain(s0.bounds) {
      p, q :| p in s0.clients && q in s0.clients && p != q;
      acts, s := RemoverIsSlow(s0, p, q);
      acts, s := VainWait(s0, acts, s, p, q);
      acts, s := TwoOwners(s0, acts, s, p, q);
    } else if s0.bounds.op > StartRemoval.HEAD_START {
      p, q :| p in s0.clients && q in s0.clients && p != q;
      acts, s := RemoverIsSlow(s0, p, q);
      acts, s := RemoverFindsStale(s0, acts, s, p, q);
      acts, s := TwoOwners(s0, acts, s, p, q);
    } else {
      var r;
      p, q, r :| p in s0.clients && q in s0.clients && r in s0.clients && p != q && q != r && p != r;
      acts, s := RemoverIsSlow(s0, p, q);
      acts, s := ThirdFindsStale(s0, acts, s, p, q, r);
      acts, s := TwoOwners(s0, acts, s, p, r);
    }
  }

  /** And in some run its lock comes to look stale. */
  lemma OldLockInVain(s0: State) returns (acts: seq<Action>)
    requires Start(s0) && s0.main.Whole? && !Lone(s0) && !PromptInVain(s0.bounds)
    ensures !Young(After(s0, acts))
  {
    var p, q :| p in s0.clients && q in s0.clients && p != q;
    var s;
    acts, s := RemoverIsSlow(s0, p, q);
    acts, s := VainWait(s0, acts, s, p, q);
  }

  lemma StartsDaemon(s0: State, p: Pid) returns (acts: seq<Action>, s: State)
    requires Start(s0) && p in s0.clients
    ensures After(s0, acts) == s && p in s.clients && s.clients[p].OwnWait? && s.clients[p].a == 0
    ensures s.main == Whole(Info(0)) && s.daemons.Keys == {0} && IsListening(s, 0)
  {
    acts, s := TakesLock(s0, [], s0, p);
    acts, s := SpawnsNow(s0, acts, s, p, 0);
    acts, s := DaemonPublishes(s0, acts, s, 0);
  }

  /** Any client can be the one that starts the daemon and connects to it. */
  lemma SomeRunConnects(s0: State, p: Pid) returns (acts: seq<Action>)
    requires Start(s0) && p in s0.clients
    ensures var s := After(s0, acts);
      p in s.clients && s.clients[p] == Connected(Info(0)) && s.daemons.Keys == {0} && IsListening(s, 0)
  {
    var s;
    acts, s := StartsDaemon(s0, p);
    acts, s := OwnerReturns(s0, acts, s, p);
    acts, s := Connects(s0, acts, s, p);
  }

  // ---------------------------------------------------------------------------------------------
  // The equivalences

  ghost predicate AlwaysExclusive(s0: State) {
    forall acts :: Exclusive(After(s0, acts))
  }

  ghost predicate AlwaysSingle(s0: State) {
    forall acts :: |After(s0, acts).daemons| <= 1
  }

  ghost predicate AlwaysYoung(s0: State) {
    forall acts :: Young(After(s0, acts))
  }

  /** From every start, with any number of clients, if daemons publish within their owners' wait: the start
      lock excludes in every run if and only if there is but one client; or the owner is prompt and there
      is no stale runtime file; or there is one, and the owner is prompt also when its wait is in vain,
      and throughout, unless there are only two clients and its file operations are short. */
  lemma ExclusiveIff(s0: State)
    requires Start(s0) && s0.bounds.publish <= PUBLISH_WAIT
    ensures AlwaysExclusive(s0) <==>
      || Lone(s0)
      || (if !s0.main.Whole? then Prompt(s0.bounds)
          else PromptInVain(s0.bounds)
               && (PromptThroughout(s0.bounds) || (Pair(s0) && s0.bounds.op <= StartRemoval.HEAD_START)))
  {
    if Lone(s0) || (if s0.main.Whole? then StartRemoval.Prompt(s0) else Prompt(s0.bounds)) {
      forall acts ensures Exclusive(After(s0, acts)) {
        if Lone(s0) || !s0.main.Whole? {
          StartSafety.StartLockExcludes(s0, acts);
        } else {
          StartRemoval.ExclusiveDespiteRemoval(s0, acts);
        }
      }
    } else {
      var acts;
      if s0.main.Whole? {
        acts := SlowRemoverRace(s0);
      } else {
        var p, q :| p in s0.clients && q in s0.clients && p != q;
        var more;
        acts, more := SlowOwnerRace(s0, p, q);
      }
      assert !Exclusive(After(s0, acts));
    }
  }

  /** From every start, with any number of clients and all bounds: never more than one daemon is spawned
      if and only if there is but one client and the daemon publishes before its second attempt, or the
      owner is prompt and there is no stale runtime file. */
  lemma SingleDaemonIff(s0: State)
    requires Start(s0) && s0.clients != map[]
    ensures AlwaysSingle(s0) <==> (Lone(s0) && InTime(s0.bounds)) || (Prompt(s0.bounds) && !s0.main.Whole?)
  {
    if StartSafety.Single(s0) {
      forall acts ensures |After(s0, acts).daemons| <= 1 {
        StartSafety.SingleDaemon(s0, acts);
      }
    } else {
      var acts := SomeRunOfTwo(s0);
      TwoDaemons(After(s0, acts));
    }
  }

  lemma SomeRunOfTwo(s0: State) returns (acts: seq<Action>)
    requires Start(s0) && s0.clients != map[] && !StartSafety.Single(s0)
    ensures After(s0, acts).daemons.Keys == {0, 1}
  {
    if Lone(s0) {
      var p :| p in s0.clients;
      acts := VeryLateDaemon(s0, p);
    } else {
      var p, q :| p in s0.clients && q in s0.clients && p != q;
      if s0.main.Whole? {
        acts := StaleFileRace(s0, p, q);
      } else if s0.bounds.publish > PUBLISH_WAIT {
        acts := LateDaemonRace(s0, p, q);
      } else {
        var both;
        both, acts := SlowOwnerRace(s0, p, q);
      }
    }
  }

  lemma TwoDaemons(s: State)
    requires s.daemons.Keys == {0, 1}
    ensures |s.daemons| > 1
  {
    assert |s.daemons| == |s.daemons.Keys|;
  }

  /** From every start with a client, if daemons publish within their owners' wait: the lock never looks
      stale if and only if the owner is prompt throughout, and, where a stale runtime file may be removed
      late, also when its wait is in vain. */
  lemma LooksStaleIff(s0: State)
    requires Start(s0) && s0.clients != map[] && s0.bounds.publish <= PUBLISH_WAIT
    ensures AlwaysYoung(s0) <==>
      PromptThroughout(s0.bounds) && (s0.main.Whole? && !Lone(s0) ==> PromptInVain(s0.bounds))
  {
    if !PromptThroughout(s0.bounds) {
      var p :| p in s0.clients;
      var acts := OldLock(s0, p);
      assert !Young(After(s0, acts));
    } else if s0.main.Whole? && !Lone(s0) && !PromptInVain(s0.bounds) {
      var acts := OldLockInVain(s0);
    } else {
      forall acts ensures Young(After(s0, acts)) {
        if s0.main.Whole? && !Lone(s0) {
          StartRemoval.YoungDespiteRemoval(s0, acts);
        } else {
          StartSafety.LockStaysYoung(s0, acts);
        }
      }
    }
  }
}
