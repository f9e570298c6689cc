/** Daemons that publish much later than their owners wait: several of them then share the temporary file.
    One renames what another has written, the other one's renaming fails, and it exits; the runtime file
    holds a dead address. An owner can find one such file and be led to another one, and its section then
    lasts as long as it can. */
module StartLate {
  import opened StartRace
  import opened StartRuns
  import opened StartBoundary
  import StartLock

  /** Long enough for daemons to stay silent throughout somebody else's section. */
  const VERY_LATE := 100_000

  /** Daemon x renames what daemon y has written; y fails to rename it, and exits. */
  lemma RenameRace(s0: State, acts: seq<Action>, s: State, x: DaemonId, y: DaemonId) returns (more: seq<Action>, t: State)
    requires After(s0, acts) == s && x != y && x in s.daemons && y in s.daemons
    requires s.daemons[x].stage.Spawned? && s.daemons[y].stage.Spawned?
    ensures After(s0, more) == t
    ensures t == s.(daemons := s.daemons[x := Daemon(s.daemons[x].spawnedAt, Published)]
                                        [y := Daemon(s.daemons[y].spawnedAt, Gone)],
                    main := Whole(Info(y)), tmp := Missing)
  {
    more, t := DaemonWrites(s0, acts, s, x);
    more, t := DaemonWrites(s0, more, t, y);
    more, t := BothRename(s0, more, t, x, y);
  }

  lemma BothRename(s0: State, acts: seq<Action>, s: State, x: DaemonId, y: DaemonId) returns (more: seq<Action>, t: State)
    requires After(s0, acts) == s && x != y && x in s.daemons && y in s.daemons
    requires s.daemons[x].stage.Written? && s.daemons[y].stage.Written? && s.tmp == Whole(Info(y))
    ensures After(s0, more) == t
    ensures t == s.(daemons := s.daemons[x := Daemon(s.daemons[x].spawnedAt, Published)]
                                        [y := Daemon(s.daemons[y].spawnedAt, Gone)],
                    main := Whole(Info(y)), tmp := Missing)
  {
    var u := s.(daemons := s.daemons[x := Daemon(s.daemons[x].spawnedAt, Published)],
                main := Whole(Info(y)), tmp := Missing);
    t := u.(daemons := u.daemons[y := Daemon(s.daemons[y].spawnedAt, Gone)]);
    more := Then(s0, acts, s, DaemonStep(x), u);
    more := Then(s0, more, u, DaemonStep(y), t);
  }

  // ---------------------------------------------------------------------------------------------
  // Three daemons are spawned in vain

  const GIVE_UP := PUBLISH_WAIT + 1

  /** Clients p and q have spawned daemons 0, 1 and 2 in turn, all still silent; q is about to try the lock
      again, and r has not begun. */
  predicate ThreeSilent(s: State, p: Pid, q: Pid, r: Pid, t0: int) {
    && p != q && q != r && p != r && p in s.clients && q in s.clients && r in s.clients
    && s.now == t0 + 3 * GIVE_UP && s.lock.Free? && !s.main.Whole? && s.bounds.publish >= VERY_LATE
    && s.daemons == map[0 := Daemon(t0, Spawned), 1 := Daemon(t0 + GIVE_UP, Spawned),
                        2 := Daemon(t0 + 2 * GIVE_UP, Spawned)]
    && s.clients[q].TryLock? && s.clients[q].a == 1 && s.clients[r] == Connect(0)
    && forall c :: c in s.clients ==> !Owner(s.clients[c])
  }

  lemma TwoInVain(s0: State, p: Pid, q: Pid) returns (acts: seq<Action>, s: State)
    requires Start(s0) && p in s0.clients && q in s0.clients && p != q && s0.bounds.publish >= VERY_LATE
    ensures After(s0, acts) == s && !s.main.Whole?
    ensures s == State(s0.bounds, s0.now + 2 * GIVE_UP, Free, s.main, s0.tmp,
                       map[0 := Daemon(s0.now, Spawned), 1 := Daemon(s0.now + GIVE_UP, Spawned)],
                       s0.clients[p := Recover(0, s0.now + GIVE_UP + RECOVER_WAIT)]
                                 [q := Recover(0, s0.now + 2 * GIVE_UP + RECOVER_WAIT)])
  {
    acts, s := GivesUp(s0, p);
    acts, s := Goes(s0, acts, s, q, Good, 0);
    acts, s := SpawnsInVain(s0, acts, s, q, 1);
  }

  lemma ThreeInVain(s0: State, p: Pid, q: Pid, r: Pid) returns (acts: seq<Action>, s: State)
    requires Start(s0) && p in s0.clients && q in s0.clients && r in s0.clients && p != q && q != r && p != r
    requires s0.bounds.publish >= VERY_LATE
    ensures After(s0, acts) == s && ThreeSilent(s, p, q, r, s0.now) && s.bounds == s0.bounds
  {
    acts, s := TwoInVain(s0, p, q);
    acts, s := SecondAttempt(s0, acts, s, p);
    acts, s := SpawnsInVain(s0, acts, s, p, 2);
    acts, s := SecondAttempt(s0, acts, s, q);
  }

  // ---------------------------------------------------------------------------------------------
  // The section of an owner that meets two dead addresses

  /** Owner q has taken the lock at t, the runtime file holds a dead address, daemon 2 is silent. */
  predicate MeetsDeadFile(s: State, q: Pid, r: Pid, t: int) {
    && q != r && q in s.clients && r in s.clients && s.clients[r] == Connect(0) && NoOwnerBut(s, q)
    && s.lock == Held(q, t) && s.main == Whole(Info(1)) && s.bounds.publish >= VERY_LATE
    && s.daemons.Keys == {0, 1, 2} && s.daemons[0].stage.Published? && s.daemons[1].stage.Gone?
    && s.daemons[2] == Daemon(t - GIVE_UP, Spawned)
  }

  lemma FindsDeadFile(s0: State, acts: seq<Action>, s: State, p: Pid, q: Pid, r: Pid, t0: int)
    returns (more: seq<Action>, t: State)
    requires After(s0, acts) == s && ThreeSilent(s, p, q, r, t0)
    ensures After(s0, more) == t && MeetsDeadFile(t, q, r, s.now) && t.now == s.now && t.bounds == s.bounds
    ensures t.clients[q] == OwnRead(1, s.now + s.bounds.op)
  {
    more, t := RenameRace(s0, acts, s, 0, 1);
    more, t := Goes(s0, more, t, q, Good, 0);
  }

  /** It probes the first dead address for as long as it probes any, and removes the file. */
  lemma DropsDeadFile(s0: State, acts: seq<Action>, s: State, q: Pid, r: Pid) returns (more: seq<Action>, t: State)
    requires After(s0, acts) == s && MeetsDeadFile(s, q, r, s.now) && s.clients[q] == OwnRead(1, s.now + s.bounds.op)
    requires PromptInVain(s.bounds)
    ensures After(s0, more) == t && q in t.clients
    ensures t.clients[q] == OwnSpawn(1, s.now + 2 * s.bounds.op + PROBE_LIMIT + s.bounds.build)
    ensures t == s.(now := s.now + 2 * s.bounds.op + PROBE_LIMIT, main := Missing, clients := s.clients[q := t.clients[q]])
  {
    more, t := ProbesDeadFile(s0, acts, s, q, r);
    more, t := RemovesDeadFile(s0, more, t, q);
  }

  lemma RemovesDeadFile(s0: State, acts: seq<Action>, s: State, q: Pid) returns (more: seq<Action>, t: State)
    requires After(s0, acts) == s && q in s.clients && s.clients[q].OwnProbe? && s.now > s.clients[q].until
    requires Dials(s, s.clients[q]) && NoOwnerBut(s, q)
    requires forall d :: d in s.daemons && Pending(s.daemons[d]) ==>
               s.now + s.bounds.op <= s.daemons[d].spawnedAt + s.bounds.publish
    ensures After(s0, more) == t
    ensures t == s.(now := s.now + s.bounds.op, main := Missing,
                    clients := s.clients[q := OwnSpawn(s.clients[q].a, s.now + s.bounds.op + s.bounds.build)])
  {
    more, t := Goes(s0, acts, s, q, Bad, 0);
    more, t := Waits(s0, more, t, q, s.now + s.bounds.op);
    more, t := Goes(s0, more, t, q, Good, 0);
  }

  lemma ProbesDeadFile(s0: State, acts: seq<Action>, s: State, q: Pid, r: Pid) returns (more: seq<Action>, t: State)
    requires After(s0, acts) == s && MeetsDeadFile(s, q, r, s.now) && s.clients[q] == OwnRead(1, s.now + s.bounds.op)
    requires PromptInVain(s.bounds)
    ensures After(s0, more) == t && q in t.clients && t.clients[q].OwnProbe? && t.clients[q].a == 1
    ensures t.clients[q].until == s.now + s.bounds.op + PROBE_TIME && t.clients[q].info == Info(1)
    ensures t == s.(now := s.now + s.bounds.op + PROBE_LIMIT, clients := s.clients[q := t.clients[q]])
  {
    more, t := Waits(s0, acts, s, q, s.now + s.bounds.op);
    more, t := Goes(s0, more, t, q, Good, 0);
    more, t := DialsInVain(s0, more, t, q, t.now + PROBE_LIMIT);
  }

  /** When it sees its own daemon's file, which is dead too: late, but early enough for a rival to wait. */
  function SeenAt(b: Bounds, t: int): int {
    Min(t + 2 * b.op + PROBE_LIMIT + b.build + WAIT_LIMIT, t + STALE_AFTER - 5_000)
  }

  /** It spawns daemon 3, and waits. */
  lemma WaitsForDeadFile(s0: State, acts: seq<Action>, s: State, q: Pid, r: Pid, t0: int)
    returns (more: seq<Action>, t: State)
    requires After(s0, acts) == s && PromptInVain(s.bounds) && s.bounds.publish >= VERY_LATE && NoOwnerBut(s, q)
    requires q in s.clients && s.now == t0 + 2 * s.bounds.op + PROBE_LIMIT && !s.main.Whole?
    requires s.clients[q] == OwnSpawn(1, s.now + s.bounds.build)
    requires s.daemons.Keys == {0, 1, 2} && s.daemons[0].stage.Published? && s.daemons[1].stage.Gone?
    requires s.daemons[2] == Daemon(t0 - GIVE_UP, Spawned)
    ensures After(s0, more) == t && q in t.clients && t.clients[q].OwnWait? && t.clients[q].a == 1
    ensures t.now <= t.clients[q].limit
    ensures t == s.(now := SeenAt(s.bounds, t0), clients := s.clients[q := t.clients[q]],
                    daemons := s.daemons[3 := Daemon(s.now + s.bounds.build, Spawned)])
  {
    more, t := Waits(s0, acts, s, q, s.now + s.bounds.build);
    more, t := Goes(s0, more, t, q, Good, 3);
    more, t := KeepsPolling(s0, more, t, q, SeenAt(s.bounds, t0));
  }

  /** A dead file again, and the owner q begins to probe it. */
  lemma SeesDeadFile(s0: State, acts: seq<Action>, s: State, q: Pid) returns (more: seq<Action>, t: State)
    requires After(s0, acts) == s && q in s.clients && s.clients[q].OwnWait?
    requires 2 in s.daemons && 3 in s.daemons && s.daemons[2].stage.Spawned? && s.daemons[3].stage.Spawned?
    requires forall d :: d in s.daemons && d != 2 && d != 3 ==> !Pending(s.daemons[d])
    ensures After(s0, more) == t && !IsListening(t, 3) && forall d :: d in t.daemons ==> !Pending(t.daemons[d])
    ensures t == s.(main := Whole(Info(3)), tmp := Missing, daemons := t.daemons,
                    clients := s.clients[q := OwnProbeAgain(s.clients[q].a, Info(3), s.now + SECOND_PROBE_TIME,
                                                            s.now + DIAL)])
  {
    more, t := RenameRace(s0, acts, s, 2, 3);
    more, t := Goes(s0, more, t, q, Good, 0);
  }

  /** Client r, which finds it dead, too, removes it and waits for the lock. */
  lemma RemovedAgain(s0: State, acts: seq<Action>, s: State, r: Pid) returns (more: seq<Action>, t: State)
    requires After(s0, acts) == s && r in s.clients && s.clients[r] == Connect(0)
    requires s.main == Whole(Info(3)) && !IsListening(s, 3) && s.lock.Held?
    ensures After(s0, more) == t
    ensures t == s.(main := Missing, clients := s.clients[r := WaitOther(0, s.now + START_DEADLINE, s.now + OTHER_WAIT)])
  {
    more, t := GivesUpOnTheFile(s0, acts, s, r);
    more, t := WaitsForOwner(s0, more, t, r);
  }

  /** The owner probes on and gives the lock back as late as it can. */
  lemma StaysToTheEnd(s0: State, acts: seq<Action>, s: State, q: Pid, to: int) returns (more: seq<Action>, t: State)
    requires After(s0, acts) == s && q in s.clients && NoOwnerBut(s, q) && Dials(s, s.clients[q])
    requires s.clients[q].OwnProbeAgain?
    requires s.clients[q].until == s.now + SECOND_PROBE_TIME && s.clients[q].limit == s.now + DIAL
    requires s.now <= to <= s.now + SECOND_PROBE_LIMIT + s.bounds.op
    requires forall d :: d in s.daemons ==> !Pending(s.daemons[d])
    ensures After(s0, more) == t && q in t.clients && Owner(t.clients[q])
    ensures t == s.(now := to, clients := s.clients[q := t.clients[q]])
  {
    more, t := DialsInVain(s0, acts, s, q, Min(to, s.now + SECOND_PROBE_LIMIT));
    if t.now < to {
      more, t := Goes(s0, more, t, q, Bad, 0);
      more, t := Waits(s0, more, t, q, to);
    }
  }

  /** Three clients, and daemons that publish very late: some run has two owners, if the owner's section
      can last long enough by any means. */
  lemma DeadFileRace(s0: State, p: Pid, q: Pid, r: Pid) returns (acts: seq<Action>)
    requires Start(s0) && p in s0.clients && q in s0.clients && r in s0.clients && p != q && q != r && p != r
    requires s0.bounds.publish >= VERY_LATE && PromptInVain(s0.bounds) && !PromptWhatever(s0.bounds)
    ensures !Exclusive(After(s0, acts)) && exists before :: !Young(After(s0, before))
  {
    var s;
    acts, s := ThreeInVain(s0, p, q, r);
    acts, s := FindsDeadFile(s0, acts, s, p, q, r, s0.now);
    var t := s.now;
    acts, s := DropsDeadFile(s0, acts, s, q, r);
    acts, s := WaitsForDeadFile(s0, acts, s, q, r, t);
    acts, s := SeesDeadFile(s0, acts, s, q);
    acts, s := RemovedAgain(s0, acts, s, r);
    acts, s := StaysToTheEnd(s0, acts, s, q, t + STALE_AFTER);
    assert !Young(After(s0, acts));
    acts, s := TwoOwners(s0, acts, s, q, r);
  }

  /** A very late daemon alone is enough if the owner's wait in vain takes long enough. */
  lemma SilenceRace(s0: State, p: Pid, q: Pid) returns (acts: seq<Action>)
    requires Start(s0) && p in s0.clients && q in s0.clients && p != q
    requires s0.bounds.publish >= VERY_LATE && !PromptInVain(s0.bounds)
    ensures !Exclusive(After(s0, acts)) && exists before :: !Young(After(s0, before))
  {
    var s;
    acts, s := Contends(s0, p, q);
    var t := s.now;
    acts, s := SpawnsSlowly(s0, acts, s, p);
    acts, s := OwnerStaysUntil(s0, acts, s, p, t + STALE_AFTER);
    assert !Young(After(s0, acts));
    acts, s := TwoOwners(s0, acts, s, p, q);
  }

  /** From every start with at least three clients, if daemons can publish very late: the start lock
      excludes in every run if and only if no lock ever looks stale, and that is so if and only if the
      owner's section is short even when it probes two dead addresses for as long as it probes any. */
  lemma LateIff(s0: State)
    requires Start(s0) && !Pair(s0) && s0.bounds.publish >= VERY_LATE
    ensures AlwaysExclusive(s0) <==> PromptWhatever(s0.bounds)
    ensures AlwaysYoung(s0) <==> PromptWhatever(s0.bounds)
  {
    if PromptWhatever(s0.bounds) {
      forall acts ensures Exclusive(After(s0, acts)) && Young(After(s0, acts)) {
        StartLock.LockIsKept(s0, acts);
      }
    } else {
      var p, q, r :| p in s0.clients && q in s0.clients && r in s0.clients && p != q && q != r && p != r;
      var acts;
      if PromptInVain(s0.bounds) {
        acts := DeadFileRace(s0, p, q, r);
      } else {
        acts := SilenceRace(s0, p, q);
      }
      assert !Exclusive(After(s0, acts));
    }
  }
}
