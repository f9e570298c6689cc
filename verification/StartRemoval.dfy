/** Runs from a stale runtime file. A client that has found it unreachable removes it without the lock,
    and if it is slow, it removes the file of a daemon that another client has started meanwhile. What the
    start lock still guarantees then. */
module StartRemoval {
  import opened StartRace

  /** How much longer a client waits for the lock than an owner needs to reach a daemon. */
  const HEAD_START := OTHER_WAIT - DIAL

  /** The owner is prompt also when its wait is in vain; and prompt throughout, too, unless the client that
      removes the file is the only other one, so that it has to wait for the lock after that. */
  predicate Prompt(s: State) {
    && s.bounds.publish <= PUBLISH_WAIT && PromptInVain(s.bounds)
    && (PromptThroughout(s.bounds) || (Pair(s) && s.bounds.op <= HEAD_START))
  }

  /** This client is about to remove the runtime file. */
  predicate Remover(s: State, p: Pid)
    requires p in s.clients
  {
    s.clients[p].DropFirst? || (s.clients[p].ProbeFirst? && !IsPublished(s, s.clients[p].info))
  }

  predicate NoPending(s: State) { forall d :: d in s.daemons ==> !Pending(s.daemons[d]) }

  /** The owner leaves its place in time. */
  predicate Timely(s: State, p: Pid)
    requires p in s.clients && s.lock.Held?
  {
    var b, t := s.bounds, s.lock.mtime;
    match s.clients[p]
    case OwnRead(_, limit) => limit <= t + b.op
    case OwnProbe(_, _, _, limit) => limit <= t + b.op + DIAL
    case OwnSpawn(_, limit) => limit <= t + b.op + b.build
    case OwnSpawnFailed(_, until, limit) => limit <= until + POLL <= t + b.op + b.build + SPAWN_FAILED_LIMIT
    case OwnWait(_, _, until, limit) =>
      && limit <= until + POLL <= t + b.op + b.build + WAIT_LIMIT
      && limit <= s.now + POLL
      && (s.main.Whole? ==> limit <= until - PUBLISH_WAIT + b.publish + POLL)
    case OwnProbeAgain(_, _, _, limit) =>
      limit <= s.now + DIAL && limit <= t + b.op + b.build + b.publish + SEEN_AND_REACHED
    case OwnRelease(_, ok, limit) =>
      && limit <= s.now + b.op
      && limit <= t + 2 * b.op + b.build + (if ok then b.publish + SEEN_AND_REACHED else WAIT_LIMIT)
    case _ => true
  }

  /** What each place stands for. */
  predicate PlaceOk(s: State, p: Pid)
    requires p in s.clients
  {
    match s.clients[p]
    case OwnProbe(_, info, _, _) => IsPublished(s, info)
    case OwnDrop(_, _) => false
    case OwnSpawn(_, _) => !s.main.Whole? && NoPending(s)
    case OwnSpawnFailed(_, _, _) => !s.main.Whole? && NoPending(s)
    case OwnWait(_, d, until, _) => d in s.daemons && until == s.daemons[d].spawnedAt + PUBLISH_WAIT
    case OwnProbeAgain(_, info, _, _) => IsPublished(s, info)
    case ProbeFinal(_, info) => IsPublished(s, info)
    case DropFinal(_) => false
    case StaleRead(_, _) => s.main.Whole? && forall q :: q in s.clients ==> !Remover(s, q)
    case StaleDrop(_, _) => false
    case _ => true
  }

  predicate OwnerOk(s: State, p: Pid)
    requires p in s.clients
  {
    Owner(s.clients[p]) ==> s.lock.Held? && s.lock.owner == p && s.now <= s.clients[p].limit && Timely(s, p)
  }

  /** When an owner that has seen the runtime file gives the lock back, at the latest. */
  function End(s: State, p: Pid): int
    requires p in s.clients
  {
    match s.clients[p]
    case OwnProbeAgain(_, _, _, limit) => limit + s.bounds.op
    case OwnRelease(_, _, limit) => limit
    case _ => 0
  }

  predicate HasSeen(c: Client) { c.OwnProbeAgain? || (c.OwnRelease? && c.ok) }

  /** If the file was removed after the owner p had seen it, and its lock may come to look stale, then
      client q is not ready to find that. */
  predicate NotReady(s: State, p: Pid, q: Pid)
    requires p in s.clients && q in s.clients && s.lock.Held?
  {
    HasSeen(s.clients[p]) && !s.main.Whole? && End(s, p) >= s.lock.mtime + STALE_AFTER && q != p ==>
      !s.clients[q].StaleStat? && (s.clients[q].WaitOther? ==> End(s, p) <= s.clients[q].until)
  }

  /** A daemon that has not published is the one that the owner of the lock waits for. */
  predicate DaemonOk(s: State, d: DaemonId)
    requires d in s.daemons
  {
    && !s.daemons[d].stage.Gone?
    && (Pending(s.daemons[d]) ==>
          && !s.main.Whole?
          && (s.daemons[d].stage.Writing? ==> !s.tmp.Missing?)
          && (s.daemons[d].stage.Written? ==> s.tmp == Whole(Info(d)))
          && s.now <= s.daemons[d].spawnedAt + s.bounds.publish
          && s.lock.Held? && s.lock.owner in s.clients && s.clients[s.lock.owner].OwnWait?
          && s.clients[s.lock.owner].spawned == d)
  }

  predicate FilesOk(s: State) {
    && (s.main.Whole? ==> IsPublished(s, s.main.info) || Fading(s))
    && (s.lock.Held? ==> s.lock.owner in s.clients && Owner(s.clients[s.lock.owner]))
  }

  predicate Inv(s: State) {
    && Prompt(s) && FilesOk(s)
    && (forall d :: d in s.daemons ==> DaemonOk(s, d))
    && (forall p :: p in s.clients ==> OwnerOk(s, p))
    && (forall p :: p in s.clients ==> PlaceOk(s, p))
    && (forall q :: q in s.clients && s.lock.Held? ==> NotReady(s, s.lock.owner, q))
  }

  // ---------------------------------------------------------------------------------------------
  // What a client's next step rests on

  predicate Grounds(s: State, p: Pid)
    requires p in s.clients
  {
    && (s.main.Whole? && !AtOutset(s.clients[p]) ==> IsPublished(s, s.main.info))
    && (s.clients[p].OwnRead? && !s.main.Whole? ==> NoPending(s))
    && (s.clients[p].StaleStat? && s.lock.Held? && s.now - s.lock.mtime >= STALE_AFTER ==>
          s.main.Whole? && forall q :: q in s.clients ==> !Remover(s, q))
  }

  /** Whoever finds the lock stale finds a runtime file that nobody removes any more. */
  lemma StaleLockHasFile(s: State, q: Pid)
    requires Prompt(s) && FilesOk(s) && q in s.clients && s.clients[q].StaleStat?
    requires s.lock.Held? && s.now - s.lock.mtime >= STALE_AFTER
    requires OwnerOk(s, s.lock.owner) && PlaceOk(s, s.lock.owner) && NotReady(s, s.lock.owner, q)
    ensures s.main.Whole? && Pair(s)
  {
  }

  lemma AllGrounded(s: State, p: Pid)
    requires Inv(s) && p in s.clients
    ensures Grounds(s, p)
  {
    assert OwnerOk(s, p) && PlaceOk(s, p);
    if s.clients[p].OwnRead? && !s.main.Whole? {
      assert forall d :: d in s.daemons ==> DaemonOk(s, d);
    }
    if s.clients[p].StaleStat? && s.lock.Held? && s.now - s.lock.mtime >= STALE_AFTER {
      var o := s.lock.owner;
      assert OwnerOk(s, o) && PlaceOk(s, o) && NotReady(s, o, p);
      StaleLockHasFile(s, p);
      forall q | q in s.clients ensures !Remover(s, q) {
        assert q == o || q == p;
      }
    }
  }

  predicate Sound(s: State, p: Pid)
    requires p in s.clients
  {
    OwnerOk(s, p) && PlaceOk(s, p) && Grounds(s, p)
  }

  // ---------------------------------------------------------------------------------------------
  // Steps of a client

  lemma OwnerIsTimely(s: State, p: Pid, answer: Answer, id: DaemonId)
    requires Prompt(s) && Enabled(s, ClientStep(p, answer, id)) && Owner(s.clients[p]) && Sound(s, p)
    ensures OwnerOk(Do(s, ClientStep(p, answer, id)), p)
  {
    assert Do(s, ClientStep(p, answer, id)).clients[p] == NextOwner(s, p, answer, id);
  }

  lemma OwnerIsInPlace(s: State, p: Pid, answer: Answer, id: DaemonId)
    requires Prompt(s) && Enabled(s, ClientStep(p, answer, id)) && Owner(s.clients[p]) && Sound(s, p)
    ensures PlaceOk(Do(s, ClientStep(p, answer, id)), p)
  {
    assert Do(s, ClientStep(p, answer, id)).clients[p] == NextOwner(s, p, answer, id);
  }

  lemma OtherIsOk(s: State, p: Pid, answer: Answer, id: DaemonId)
    requires Enabled(s, ClientStep(p, answer, id)) && !Owner(s.clients[p]) && Sound(s, p)
    ensures OwnerOk(Do(s, ClientStep(p, answer, id)), p) && PlaceOk(Do(s, ClientStep(p, answer, id)), p)
  {
  }

  lemma BystanderOwns(s: State, p: Pid, answer: Answer, id: DaemonId, q: Pid)
    requires Enabled(s, ClientStep(p, answer, id)) && q in s.clients && q != p && Sound(s, p) && Sound(s, q)
    ensures OwnerOk(Do(s, ClientStep(p, answer, id)), q)
  {
  }

  lemma NoNewRemover(s: State, p: Pid, answer: Answer, id: DaemonId, r: Pid)
    requires Enabled(s, ClientStep(p, answer, id)) && Sound(s, p) && r in s.clients && !Remover(s, r)
    requires s.main.Whole? && IsPublished(s, s.main.info)
    ensures !Remover(Do(s, ClientStep(p, answer, id)), r)
  {
  }

  lemma BystanderReads(s: State, p: Pid, answer: Answer, id: DaemonId, q: Pid)
    requires Enabled(s, ClientStep(p, answer, id)) && q in s.clients && q != p && Sound(s, p) && Sound(s, q)
    requires s.clients[q].StaleRead?
    ensures PlaceOk(Do(s, ClientStep(p, answer, id)), q)
  {
    var t := Do(s, ClientStep(p, answer, id));
    assert !Remover(s, p) && t.main == s.main;
    forall r | r in t.clients ensures !Remover(t, r) {
      NoNewRemover(s, p, answer, id, r);
    }
  }

  lemma BystanderIsInPlace(s: State, p: Pid, answer: Answer, id: DaemonId, q: Pid)
    requires Enabled(s, ClientStep(p, answer, id)) && q in s.clients && q != p && Sound(s, p) && Sound(s, q)
    ensures PlaceOk(Do(s, ClientStep(p, answer, id)), q)
  {
    if s.clients[q].StaleRead? {
      BystanderReads(s, p, answer, id, q);
    }
  }

  /** The owner's own step leaves everybody as unready as before. */
  lemma OwnerLeavesUnready(s: State, p: Pid, answer: Answer, id: DaemonId, q: Pid)
    requires Prompt(s) && Enabled(s, ClientStep(p, answer, id)) && Sound(s, p) && Owner(s.clients[p])
    requires q in s.clients && NotReady(s, p, q)
    ensures var t := Do(s, ClientStep(p, answer, id)); t.lock.Held? ==> NotReady(t, p, q)
  {
    assert Do(s, ClientStep(p, answer, id)).clients[p] == NextOwner(s, p, answer, id);
  }

  /** A client that removes the file has to wait for the lock for longer than the owner has still got. */
  lemma ClientIsNotReady(s: State, p: Pid, answer: Answer, id: DaemonId, q: Pid)
    requires Prompt(s) && Enabled(s, ClientStep(p, answer, id)) && Sound(s, p) && !Owner(s.clients[p])
    requires s.lock.Held? && s.lock.owner in s.clients && Owner(s.clients[s.lock.owner]) && OwnerOk(s, s.lock.owner)
    requires q in s.clients && NotReady(s, s.lock.owner, q)
    ensures var t := Do(s, ClientStep(p, answer, id)); t.lock == s.lock && NotReady(t, s.lock.owner, q)
  {
  }

  lemma UnreadyStep(s: State, p: Pid, answer: Answer, id: DaemonId, q: Pid)
    requires Prompt(s) && FilesOk(s) && Enabled(s, ClientStep(p, answer, id)) && Sound(s, p) && q in s.clients
    requires s.lock.Held? ==> OwnerOk(s, s.lock.owner) && NotReady(s, s.lock.owner, q)
    ensures var t := Do(s, ClientStep(p, answer, id));
      t.lock.Held? ==> t.lock.owner in t.clients && NotReady(t, t.lock.owner, q)
  {
    if Owner(s.clients[p]) {
      OwnerLeavesUnready(s, p, answer, id, q);
    } else if s.lock.Held? {
      ClientIsNotReady(s, p, answer, id, q);
    }
  }

  lemma FilesStep(s: State, p: Pid, answer: Answer, id: DaemonId)
    requires FilesOk(s) && Enabled(s, ClientStep(p, answer, id)) && Sound(s, p)
    ensures FilesOk(Do(s, ClientStep(p, answer, id)))
  {
  }

  lemma DaemonKeeps(s: State, p: Pid, answer: Answer, id: DaemonId, d: DaemonId)
    requires Prompt(s) && Enabled(s, ClientStep(p, answer, id)) && Sound(s, p)
    requires d in s.daemons ==> DaemonOk(s, d)
    requires d in Do(s, ClientStep(p, answer, id)).daemons
    ensures DaemonOk(Do(s, ClientStep(p, answer, id)), d)
  {
  }

  lemma ClientStepInv(s: State, p: Pid, answer: Answer, id: DaemonId)
    requires Inv(s) && Enabled(s, ClientStep(p, answer, id))
    ensures Inv(Do(s, ClientStep(p, answer, id)))
  {
    var t := Do(s, ClientStep(p, answer, id));
    AllGrounded(s, p);
    assert Sound(s, p);
    FilesStep(s, p, answer, id);
    forall d | d in t.daemons ensures DaemonOk(t, d) {
      assert d in s.daemons ==> DaemonOk(s, d);
      DaemonKeeps(s, p, answer, id, d);
    }
    forall q | q in t.clients ensures OwnerOk(t, q) && PlaceOk(t, q) && (t.lock.Held? ==> NotReady(t, t.lock.owner, q)) {
      AllGrounded(s, q);
      OneClient(s, p, answer, id, q);
      assert s.lock.Held? ==> OwnerOk(s, s.lock.owner) && NotReady(s, s.lock.owner, q);
      UnreadyStep(s, p, answer, id, q);
    }
  }

  lemma OneClient(s: State, p: Pid, answer: Answer, id: DaemonId, q: Pid)
    requires Prompt(s) && Enabled(s, ClientStep(p, answer, id)) && q in s.clients && Sound(s, p) && Sound(s, q)
    ensures OwnerOk(Do(s, ClientStep(p, answer, id)), q) && PlaceOk(Do(s, ClientStep(p, answer, id)), q)
  {
    if q != p {
      BystanderOwns(s, p, answer, id, q);
      BystanderIsInPlace(s, p, answer, id, q);
    } else if Owner(s.clients[p]) {
      OwnerIsTimely(s, p, answer, id);
      OwnerIsInPlace(s, p, answer, id);
    } else {
      OtherIsOk(s, p, answer, id);
    }
  }

  // ---------------------------------------------------------------------------------------------
  // The other steps

  lemma ClientsMeanwhile(s: State, d: DaemonId, q: Pid)
    requires Enabled(s, DaemonStep(d)) && DaemonOk(s, d) && q in s.clients && OwnerOk(s, q) && PlaceOk(s, q)
    ensures OwnerOk(Do(s, DaemonStep(d)), q) && PlaceOk(Do(s, DaemonStep(d)), q)
  {
  }

  lemma DaemonsMeanwhile(s: State, d: DaemonId, e: DaemonId)
    requires Enabled(s, DaemonStep(d)) && DaemonOk(s, d) && e in s.daemons && DaemonOk(s, e)
    ensures e in Do(s, DaemonStep(d)).daemons && DaemonOk(Do(s, DaemonStep(d)), e)
  {
  }

  lemma DaemonStepInv(s: State, d: DaemonId)
    requires Inv(s) && Enabled(s, DaemonStep(d))
    ensures Inv(Do(s, DaemonStep(d)))
  {
    var t := Do(s, DaemonStep(d));
    assert DaemonOk(s, d);
    forall e | e in t.daemons ensures DaemonOk(t, e) {
      assert DaemonOk(s, e);
      DaemonsMeanwhile(s, d, e);
    }
    forall q | q in t.clients ensures OwnerOk(t, q) && PlaceOk(t, q) && (t.lock.Held? ==> NotReady(t, t.lock.owner, q)) {
      assert OwnerOk(s, q) && PlaceOk(s, q);
      ClientsMeanwhile(s, d, q);
      assert s.lock.Held? ==> NotReady(s, s.lock.owner, q);
    }
  }

  lemma ClientsLater(s: State, to: int, q: Pid)
    requires Enabled(s, Elapse(to)) && q in s.clients && OwnerOk(s, q) && PlaceOk(s, q)
    ensures OwnerOk(s.(now := to), q) && PlaceOk(s.(now := to), q)
  {
  }

  lemma ElapseInv(s: State, to: int)
    requires Inv(s) && Enabled(s, Elapse(to))
    ensures Inv(Do(s, Elapse(to)))
  {
    var t := s.(now := to);
    forall e | e in t.daemons ensures DaemonOk(t, e) {
      assert DaemonOk(s, e);
    }
    forall q | q in t.clients ensures OwnerOk(t, q) && PlaceOk(t, q) && (t.lock.Held? ==> NotReady(t, t.lock.owner, q)) {
      assert OwnerOk(s, q) && PlaceOk(s, q);
      ClientsLater(s, to, q);
      assert s.lock.Held? ==> NotReady(s, s.lock.owner, q);
    }
  }

  lemma ClientsInError(s: State, p: Pid, q: Pid)
    requires Enabled(s, LockError(p)) && q in s.clients && OwnerOk(s, q) && PlaceOk(s, q)
    ensures OwnerOk(Do(s, LockError(p)), q) && PlaceOk(Do(s, LockError(p)), q)
  {
  }

  lemma LockErrorInv(s: State, p: Pid)
    requires Inv(s) && Enabled(s, LockError(p))
    ensures Inv(Do(s, LockError(p)))
  {
    var t := Do(s, LockError(p));
    forall e | e in t.daemons ensures DaemonOk(t, e) {
      assert DaemonOk(s, e);
    }
    forall q | q in t.clients ensures OwnerOk(t, q) && PlaceOk(t, q) && (t.lock.Held? ==> NotReady(t, t.lock.owner, q)) {
      assert OwnerOk(s, q) && PlaceOk(s, q);
      ClientsInError(s, p, q);
      assert s.lock.Held? ==> NotReady(s, s.lock.owner, q);
    }
  }

  lemma StepInv(s: State, a: Action)
    requires Inv(s)
    ensures Inv(Step(s, a))
  {
    if Enabled(s, a) {
      match a
      case ClientStep(p, answer, id) => ClientStepInv(s, p, answer, id);
      case DaemonStep(d) => DaemonStepInv(s, d);
      case LockError(p) => LockErrorInv(s, p);
      case Elapse(to) => ElapseInv(s, to);
    }
  }

  lemma {:induction false} RunInv(s: State, acts: seq<Action>)
    requires Inv(s)
    ensures Inv(After(s, acts))
  {
    if acts != [] {
      RunInv(s, acts[..|acts| - 1]);
      StepInv(After(s, acts[..|acts| - 1]), acts[|acts| - 1]);
    }
  }

  lemma StartInv(s: State)
    requires Start(s) && Prompt(s)
    ensures Inv(s)
  {
    assert forall p :: p in s.clients ==> s.clients[p].Connect?;
  }

  /** From every start: at most one client is in the owner's section, and nobody takes its lock away,
      although somebody may take its runtime file away. */
  lemma ExclusiveDespiteRemoval(s0: State, acts: seq<Action>)
    requires Start(s0) && Prompt(s0)
    ensures var s := After(s0, acts);
      Exclusive(s) && forall p :: p in s.clients ==> !s.clients[p].StaleDrop?
  {
    StartInv(s0);
    RunInv(s0, acts);
    var s := After(s0, acts);
    forall p | p in s.clients ensures OwnerOk(s, p) && PlaceOk(s, p) {}
  }

  /** And if the owner is prompt throughout, its lock never looks stale. */
  lemma YoungDespiteRemoval(s0: State, acts: seq<Action>)
    requires Start(s0) && Prompt(s0) && PromptThroughout(s0.bounds)
    ensures Young(After(s0, acts))
  {
    StartInv(s0);
    RunInv(s0, acts);
    RunClients(s0, acts);
    var s := After(s0, acts);
    if s.lock.Held? {
      assert OwnerOk(s, s.lock.owner) && PlaceOk(s, s.lock.owner);
    }
  }
}
