/** What every run of the start race keeps as long as nobody removes a runtime file that matters: one
    daemon at most is spawned, if the owner of the lock is prompt or the client is alone; and if the owner
    is prompt throughout, its lock never looks stale. */
module StartSafety {

  import opened StartRace

  // ---------------------------------------------------------------------------------------------
  // The invariant of runs without a stale runtime file, with one client or a prompt owner

  /** When the owner leaves this place at the latest. */
  function LatestEnd(c: Client): int {
    match c
    case OwnRead(_, limit) => limit
    case OwnProbe(_, _, until, _) => until + REDIAL
    case OwnDrop(_, limit) => limit
    case OwnSpawn(_, limit) => limit
    case OwnSpawnFailed(_, until, _) => until + POLL
    case OwnWait(_, _, until, _) => until + POLL
    case OwnProbeAgain(_, _, until, _) => until + REDIAL
    case OwnRelease(_, _, limit) => limit
    case _ => 0
  }

  /** How old the lock can be then, when there is no runtime file. */
  function Budget(b: Bounds, c: Client): int {
    match c
    case OwnRead(_, _) => b.op
    case OwnSpawn(_, _) => b.op + b.build
    case OwnSpawnFailed(_, _, _) => b.op + b.build + SPAWN_FAILED_LIMIT
    case OwnWait(_, _, _, _) => b.op + b.build + WAIT_LIMIT
    case _ => 2 * b.op + b.build + SPAWN_FAILED_LIMIT
  }

  predicate OwnerOk(s: State, p: Pid)
    requires p in s.clients
  {
    Owner(s.clients[p]) ==>
      && s.lock.Held? && s.lock.owner == p
      && s.now <= s.clients[p].limit <= LatestEnd(s.clients[p])
      && (Prompt(s.bounds) && !s.main.Whole? ==> LatestEnd(s.clients[p]) <= s.lock.mtime + Budget(s.bounds, s.clients[p]))
  }

  /** A client only ever holds the address of a daemon that is up, and is never about to remove the
      runtime file or somebody else's lock. */
  predicate PlaceOk(s: State, p: Pid)
    requires p in s.clients
  {
    match s.clients[p]
    case ProbeFirst(_, info) => IsPublished(s, info)
    case OwnProbe(_, info, _, _) => IsPublished(s, info)
    case OwnProbeAgain(_, info, _, _) => IsPublished(s, info)
    case ProbeFinal(_, info) => IsPublished(s, info)
    case Connected(info) => IsPublished(s, info)
    case OwnSpawn(_, _) => s.daemons == map[]
    case OwnWait(_, d, until, _) => d in s.daemons && until == s.daemons[d].spawnedAt + PUBLISH_WAIT
    case DropFirst(_) => false
    case OwnDrop(_, _) => false
    case WaitOther(_, _, _) => Prompt(s.bounds)
    case StaleStat(_, _) => Prompt(s.bounds)
    case StaleRead(_, _) => s.main.Whole?
    case StaleDrop(_, _) => false
    case DropFinal(_) => false
    case _ => true
  }

  /** This client waits for the daemon's runtime file: as the owner of the lock, or, if it is alone, after
      the owner's wait is over. */
  predicate Minds(s: State, p: Pid, d: DaemonId)
    requires p in s.clients && d in s.daemons
  {
    match s.clients[p]
    case OwnWait(_, spawned, _, _) => s.lock.Held? && s.lock.owner == p && spawned == d
    case OwnRelease(_, ok, _) => Lone(s) && !ok && s.now > s.daemons[d].spawnedAt + PUBLISH_WAIT
    case Recover(_, until) => Lone(s) && until > s.daemons[d].spawnedAt + PUBLISH_WAIT + RECOVER_WAIT
    case _ => false
  }

  /** A daemon's runtime file is in place once it is published; until then its spawner waits for it. */
  predicate DaemonOk(s: State, d: DaemonId)
    requires d in s.daemons
  {
    match s.daemons[d].stage
    case Published => s.main == Whole(Info(d))
    case Gone => false
    case stage =>
      && !s.main.Whole?
      && (stage.Writing? ==> !s.tmp.Missing?)
      && (stage.Written? ==> s.tmp == Whole(Info(d)))
      && s.now <= s.daemons[d].spawnedAt + s.bounds.publish
      && exists p :: p in s.clients && Minds(s, p, d)
  }

  predicate FilesOk(s: State) {
    && (s.main.Whole? ==> IsPublished(s, s.main.info))
    && (s.lock.Held? ==> s.lock.owner in s.clients && Owner(s.clients[s.lock.owner]))
  }

  predicate Inv(s: State) {
    && ((Lone(s) && InTime(s.bounds)) || Prompt(s.bounds))
    && FilesOk(s)
    && (forall d, e :: d in s.daemons && e in s.daemons ==> d == e)
    && (forall d :: d in s.daemons ==> DaemonOk(s, d))
    && (forall p :: p in s.clients ==> OwnerOk(s, p))
    && (forall p :: p in s.clients ==> PlaceOk(s, p))
  }

  /** While it waits for its daemon, there is time left for that; and what it probes is up. */
  predicate InPlace(s: State, p: Pid)
    requires p in s.clients
  {
    match s.clients[p]
    case OwnWait(_, d, _, _) => !s.main.Whole? ==> d in s.daemons && s.now <= s.daemons[d].spawnedAt + s.bounds.publish
    case OwnProbe(_, _, _, _) => s.main.Whole?
    case OwnProbeAgain(_, _, _, _) => s.main.Whole?
    case _ => true
  }

  lemma PlacesAreLive(s: State, p: Pid)
    requires Inv(s) && p in s.clients
    ensures InPlace(s, p)
  {
    assert PlaceOk(s, p);
    if s.clients[p].OwnWait? {
      assert DaemonOk(s, s.clients[p].spawned);
    }
    if s.clients[p].OwnProbe? || s.clients[p].OwnProbeAgain? {
      assert DaemonOk(s, s.clients[p].info.daemon);
    }
  }

  lemma OwnOwner(s: State, p: Pid, answer: Answer, id: DaemonId)
    requires Enabled(s, ClientStep(p, answer, id)) && OwnerOk(s, p) && PlaceOk(s, p) && InPlace(s, p)
    ensures OwnerOk(Do(s, ClientStep(p, answer, id)), p)
  {
  }

  lemma OthersOwner(s: State, p: Pid, answer: Answer, id: DaemonId, q: Pid)
    requires Enabled(s, ClientStep(p, answer, id)) && q in s.clients && q != p
    requires OwnerOk(s, p) && PlaceOk(s, p) && OwnerOk(s, q)
    ensures OwnerOk(Do(s, ClientStep(p, answer, id)), q)
  {
  }

  lemma OwnerStep(s: State, a: Action, q: Pid)
    requires Inv(s) && Enabled(s, a) && q in s.clients
    ensures OwnerOk(Do(s, a), q)
  {
    assert OwnerOk(s, q);
    if a.ClientStep? {
      assert OwnerOk(s, a.p) && PlaceOk(s, a.p);
      if q == a.p {
        PlacesAreLive(s, q);
        OwnOwner(s, q, a.answer, a.id);
      } else {
        OthersOwner(s, a.p, a.answer, a.id, q);
      }
    }
  }

  /** While there is no runtime file, the lock does not look stale. */
  lemma FreshWithoutFile(s: State)
    requires Inv(s) && Prompt(s.bounds) && s.lock.Held? && !s.main.Whole?
    ensures s.now - s.lock.mtime < STALE_AFTER
  {
    var p := s.lock.owner;
    assert OwnerOk(s, p) && PlaceOk(s, p);
    if s.clients[p].OwnWait? {
      assert DaemonOk(s, s.clients[p].spawned);
    }
  }

  /** What the client's next step rests on. */
  predicate Grounds(s: State, p: Pid)
    requires p in s.clients
  {
    && (s.main.Whole? ==> IsPublished(s, s.main.info))
    && (s.lock.Held? && Prompt(s.bounds) && !s.main.Whole? ==> s.now - s.lock.mtime < STALE_AFTER)
    && (s.clients[p].OwnRead? && !s.main.Whole? ==> s.daemons == map[])
    && (s.clients[p].TryLock? && s.lock.Held? ==> Prompt(s.bounds))
  }

  lemma AllGrounded(s: State, p: Pid)
    requires Inv(s) && p in s.clients
    ensures Grounds(s, p)
  {
    assert OwnerOk(s, p);
    if s.lock.Held? && Prompt(s.bounds) && !s.main.Whole? {
      FreshWithoutFile(s);
    }
    if s.clients[p].OwnRead? && !s.main.Whole? {
      assert forall d :: d !in s.daemons;
    }
  }

  lemma OwnPlace(s: State, p: Pid, answer: Answer, id: DaemonId)
    requires Enabled(s, ClientStep(p, answer, id)) && PlaceOk(s, p) && OwnerOk(s, p) && Grounds(s, p)
    ensures PlaceOk(Do(s, ClientStep(p, answer, id)), p)
  {
  }

  lemma OthersPlace(s: State, p: Pid, answer: Answer, id: DaemonId, q: Pid)
    requires Enabled(s, ClientStep(p, answer, id)) && q in s.clients && q != p
    requires PlaceOk(s, p) && OwnerOk(s, p) && PlaceOk(s, q) && OwnerOk(s, q)
    ensures PlaceOk(Do(s, ClientStep(p, answer, id)), q)
  {
  }

  lemma PlaceStep(s: State, a: Action, q: Pid)
    requires Inv(s) && Enabled(s, a) && q in s.clients
    ensures PlaceOk(Do(s, a), q)
  {
    assert PlaceOk(s, q) && OwnerOk(s, q);
    if a.ClientStep? {
      assert PlaceOk(s, a.p) && OwnerOk(s, a.p);
      if q == a.p {
        AllGrounded(s, q);
        OwnPlace(s, q, a.answer, a.id);
      } else {
        OthersPlace(s, a.p, a.answer, a.id, q);
      }
    }
  }

  /** The heart of it: an owner that is about to spawn has found no runtime file under the lock. A
      daemon that was spawned before would either have published one, which nobody removes, or still
      have its spawner in the owner's section. */
  lemma OnlyDaemon(s: State, a: Action)
    requires Inv(s) && Enabled(s, a)
    ensures forall d, e :: d in Do(s, a).daemons && e in Do(s, a).daemons ==> d == e
  {
  }

  /** Whoever minds a daemon goes on minding it until it is published: the owner that waits does not
      give up before, or is alone; and a lone client does not begin a second attempt before. */
  lemma MinderStays(s: State, a: Action, d: DaemonId, p: Pid)
    requires Inv(s) && Enabled(s, a) && d in s.daemons && !s.daemons[d].stage.Published?
    requires p in s.clients && Minds(s, p, d) && d in Do(s, a).daemons
    ensures !Do(s, a).daemons[d].stage.Published? ==> Minds(Do(s, a), p, d)
  {
    assert DaemonOk(s, d) && PlaceOk(s, p) && OwnerOk(s, p);
    if a.ClientStep? {
      assert PlaceOk(s, a.p) && OwnerOk(s, a.p);
    }
  }

  /** The runtime file of a published daemon stays. */
  lemma PublishedStays(s: State, a: Action, d: DaemonId)
    requires Inv(s) && Enabled(s, a) && d in s.daemons && s.daemons[d].stage.Published?
    ensures d in Do(s, a).daemons && DaemonOk(Do(s, a), d)
  {
    assert DaemonOk(s, d);
    if a.ClientStep? {
      assert PlaceOk(s, a.p);
    }
  }

  lemma PendingGoesOn(s: State, a: Action, d: DaemonId)
    requires Inv(s) && Enabled(s, a) && d in s.daemons && !s.daemons[d].stage.Published?
    ensures d in Do(s, a).daemons && DaemonOk(Do(s, a), d)
  {
    assert DaemonOk(s, d);
    var p :| p in s.clients && Minds(s, p, d);
    MinderStays(s, a, d, p);
    assert p in Do(s, a).clients;
  }

  lemma DaemonKeeps(s: State, a: Action, d: DaemonId)
    requires Inv(s) && Enabled(s, a) && d in Do(s, a).daemons
    ensures DaemonOk(Do(s, a), d)
  {
    if d !in s.daemons {
      assert PlaceOk(s, a.p) && OwnerOk(s, a.p);
      assert Minds(Do(s, a), a.p, d);
    } else if s.daemons[d].stage.Published? {
      PublishedStays(s, a, d);
    } else {
      PendingGoesOn(s, a, d);
    }
  }

  lemma FilesStep(s: State, a: Action)
    requires Inv(s) && Enabled(s, a)
    ensures FilesOk(Do(s, a))
  {
  }

  lemma StepInv(s: State, a: Action)
    requires Inv(s)
    ensures Inv(Step(s, a))
  {
    if Enabled(s, a) {
      var t := Do(s, a);
      FilesStep(s, a);
      OnlyDaemon(s, a);
      forall d | d in t.daemons ensures DaemonOk(t, d) {
        DaemonKeeps(s, a, d);
      }
      forall p | p in t.clients ensures OwnerOk(t, p) && PlaceOk(t, p) {
        OwnerStep(s, a, p);
        PlaceStep(s, a, p);
      }
    }
  }

  lemma StartInv(s: State)
    requires Start(s) && !s.main.Whole? && ((Lone(s) && InTime(s.bounds)) || Prompt(s.bounds))
    ensures Inv(s)
  {
    assert forall p :: p in s.clients ==> s.clients[p].Connect?;
  }

  lemma {:induction false} RunInv(s: State, acts: seq<Action>)
    requires Inv(s)
    ensures Inv(After(s, acts))
  {
    if acts != [] {
      RunInv(s, acts[..|acts| - 1]);
      StepInv(After(s, acts[..|acts| - 1]), acts[|acts| - 1]);
    }
  }

  // ---------------------------------------------------------------------------------------------
  // How old the lock gets, when nobody removes the runtime file

  predicate PromptAndInTime(b: Bounds) { b.publish <= PUBLISH_WAIT && PromptThroughout(b) }

  /** The owner leaves its place soon enough. */
  predicate Aged(s: State, p: Pid)
    requires p in s.clients
  {
    var b := s.bounds;
    s.lock.Held? ==>
      var t := s.lock.mtime;
      match s.clients[p]
      case OwnRead(_, limit) => limit <= t + b.op
      case OwnProbe(_, _, _, limit) => limit <= t + b.op + DIAL
      case OwnSpawn(_, limit) => limit <= t + b.op + b.build
      case OwnSpawnFailed(_, until, limit) => limit <= until + POLL <= t + b.op + b.build + SPAWN_FAILED_LIMIT
      case OwnWait(_, _, until, limit) =>
        until <= t + b.op + b.build + PUBLISH_WAIT && limit <= until - PUBLISH_WAIT + b.publish + POLL
      case OwnProbeAgain(_, _, _, limit) => limit <= t + b.op + b.build + b.publish + SEEN_AND_REACHED
      case OwnRelease(_, _, limit) =>
        || limit <= t + 2 * b.op + b.build + SPAWN_FAILED_LIMIT
        || limit <= t + 2 * b.op + b.build + b.publish + SEEN_AND_REACHED
      case _ => true
  }

  predicate AgedInv(s: State) {
    Inv(s) && PromptAndInTime(s.bounds) && forall p :: p in s.clients ==> Aged(s, p)
  }

  lemma OwnerAges(s: State, p: Pid, answer: Answer, id: DaemonId)
    requires PromptAndInTime(s.bounds) && Enabled(s, ClientStep(p, answer, id)) && Owner(s.clients[p])
    requires Aged(s, p) && OwnerOk(s, p) && PlaceOk(s, p) && InPlace(s, p)
    ensures Aged(Do(s, ClientStep(p, answer, id)), p)
  {
    var next := NextOwner(s, p, answer, id);
    assert Do(s, ClientStep(p, answer, id)).clients[p] == next;
    match s.clients[p]
    case OwnRead(_, _) =>
    case OwnSpawn(_, _) =>
    case OwnWait(_, _, _, _) =>
    case _ =>
  }

  lemma OtherAges(s: State, p: Pid, answer: Answer, id: DaemonId)
    requires Enabled(s, ClientStep(p, answer, id)) && !Owner(s.clients[p])
    ensures Aged(Do(s, ClientStep(p, answer, id)), p)
  {
  }

  lemma BystanderAged(s: State, p: Pid, answer: Answer, id: DaemonId, q: Pid)
    requires Enabled(s, ClientStep(p, answer, id)) && q in s.clients && q != p
    requires Aged(s, q) && OwnerOk(s, q) && OwnerOk(s, p) && PlaceOk(s, p)
    ensures Aged(Do(s, ClientStep(p, answer, id)), q)
  {
  }

  predicate Sound(s: State, p: Pid)
    requires p in s.clients
  {
    Aged(s, p) && OwnerOk(s, p) && PlaceOk(s, p) && InPlace(s, p)
  }

  lemma OneAged(s: State, a: Action, q: Pid)
    requires PromptAndInTime(s.bounds) && Enabled(s, a) && q in s.clients && Sound(s, q)
    requires a.ClientStep? ==> Sound(s, a.p)
    ensures Aged(Do(s, a), q)
  {
    if a.ClientStep? {
      if q != a.p {
        BystanderAged(s, a.p, a.answer, a.id, q);
      } else if Owner(s.clients[q]) {
        OwnerAges(s, q, a.answer, a.id);
      } else {
        OtherAges(s, q, a.answer, a.id);
      }
    }
  }

  lemma AllSound(s: State, p: Pid)
    requires AgedInv(s) && p in s.clients
    ensures Sound(s, p)
  {
    PlacesAreLive(s, p);
  }

  lemma AgedStep(s: State, a: Action)
    requires AgedInv(s)
    ensures AgedInv(Step(s, a))
  {
    StepInv(s, a);
    if Enabled(s, a) {
      forall q | q in Do(s, a).clients ensures Aged(Do(s, a), q) {
        AllSound(s, q);
        if a.ClientStep? {
          AllSound(s, a.p);
        }
        OneAged(s, a, q);
      }
    }
  }

  lemma {:induction false} RunAged(s: State, acts: seq<Action>)
    requires AgedInv(s)
    ensures AgedInv(After(s, acts))
  {
    if acts != [] {
      RunAged(s, acts[..|acts| - 1]);
      AgedStep(After(s, acts[..|acts| - 1]), acts[|acts| - 1]);
    }
  }

  // ---------------------------------------------------------------------------------------------
  // One client alone, with a stale runtime file

  lemma FirstDrop(s: State, p: Pid, answer: Answer, id: DaemonId)
    requires Lone(s) && InTime(s.bounds) && Fading(s) && Enabled(s, ClientStep(p, answer, id))
    requires s.clients[p].DropFirst? || (s.clients[p] == Connect(0) && !s.main.Whole?)
    ensures var t := Do(s, ClientStep(p, answer, id));
      Inv(t) && forall q :: q in t.clients ==> Aged(t, q)
  {
    var t := Do(s, ClientStep(p, answer, id));
    assert forall q :: q in t.clients ==> t.clients[q].TryLock?;
  }

  lemma LoneStep(s: State, a: Action)
    requires Lone(s) && InTime(s.bounds) && (Fading(s) || Inv(s))
    ensures Lone(Step(s, a)) && InTime(Step(s, a).bounds) && (Fading(Step(s, a)) || Inv(Step(s, a)))
    ensures PromptAndInTime(s.bounds) && (Fading(s) || AgedInv(s)) ==> Fading(Step(s, a)) || AgedInv(Step(s, a))
  {
    if Inv(s) {
      StepInv(s, a);
      if AgedInv(s) {
        AgedStep(s, a);
      }
    }
    if Fading(s) && Enabled(s, a) && a.ClientStep? && !s.clients[a.p].ProbeFirst?
       && !(s.clients[a.p].Connect? && s.main.Whole?) {
      FirstDrop(s, a.p, a.answer, a.id);
    }
  }

  lemma {:induction false} RunLone(s: State, acts: seq<Action>)
    requires Lone(s) && InTime(s.bounds) && Fading(s)
    ensures var t := After(s, acts);
      && Lone(t) && InTime(t.bounds) && t.bounds == s.bounds && (Fading(t) || Inv(t))
      && (PromptAndInTime(s.bounds) ==> Fading(t) || AgedInv(t))
  {
    RunClients(s, acts);
    if acts != [] {
      RunLone(s, acts[..|acts| - 1]);
      RunClients(s, acts[..|acts| - 1]);
      LoneStep(After(s, acts[..|acts| - 1]), acts[|acts| - 1]);
    }
  }

  // ---------------------------------------------------------------------------------------------
  // The guarantees

  predicate Single(s: State) {
    (Lone(s) && InTime(s.bounds)) || (Prompt(s.bounds) && !s.main.Whole?)
  }

  /** At most one client is in the owner's section. */
  lemma StartLockExcludes(s0: State, acts: seq<Action>)
    requires Start(s0) && (Lone(s0) || (Prompt(s0.bounds) && !s0.main.Whole?))
    ensures Exclusive(After(s0, acts))
  {
    var s := After(s0, acts);
    if Lone(s0) {
      RunClients(s0, acts);
    } else {
      StartInv(s0);
      RunInv(s0, acts);
      forall p | p in s.clients ensures OwnerOk(s, p) {}
    }
  }

  /** The owner of the lock keeps it: whoever finds it stale finds a runtime file, too. */
  lemma OwnerKeepsLock(s0: State, acts: seq<Action>, p: Pid)
    requires Start(s0) && !s0.main.Whole? && Single(s0) && p in After(s0, acts).clients
    ensures var s := After(s0, acts);
      && (Owner(s.clients[p]) ==> s.lock.Held? && s.lock.owner == p)
      && (s.clients[p].StaleRead? ==> s.main.Whole?) && !s.clients[p].StaleDrop?
  {
    StartInv(s0);
    RunInv(s0, acts);
    var s := After(s0, acts);
    assert OwnerOk(s, p) && PlaceOk(s, p);
  }

  lemma AgedIsYoung(s: State)
    requires AgedInv(s)
    ensures Young(s)
  {
    if s.lock.Held? {
      AllSound(s, s.lock.owner);
    }
  }

  /** With an owner that is prompt throughout, no lock ever looks stale, unless there are others who may
      remove a stale runtime file late. */
  lemma LockStaysYoung(s0: State, acts: seq<Action>)
    requires Start(s0) && PromptAndInTime(s0.bounds) && (Lone(s0) || !s0.main.Whole?)
    ensures Young(After(s0, acts))
  {
    if s0.main.Whole? {
      RunLone(s0, acts);
    } else {
      StartInv(s0);
      RunAged(s0, acts);
    }
    if AgedInv(After(s0, acts)) {
      AgedIsYoung(After(s0, acts));
    }
  }

  lemma AtMostOne(s: State)
    requires forall d, e :: d in s.daemons && e in s.daemons ==> d == e
    ensures |s.daemons| <= 1
  {
    if d :| d in s.daemons {
      assert s.daemons.Keys == {d};
      assert |s.daemons| == |s.daemons.Keys|;
    }
  }

  /** Never more than one daemon is spawned. */
  lemma SingleDaemon(s0: State, acts: seq<Action>)
    requires Start(s0) && Single(s0)
    ensures |After(s0, acts).daemons| <= 1
  {
    if s0.main.Whole? {
      RunLone(s0, acts);
    } else {
      StartInv(s0);
      RunInv(s0, acts);
    }
    AtMostOne(After(s0, acts));
  }

  /** Every client that connects ends with the address and the token of the one daemon, which listens.
      Nobody ever removes the runtime file. */
  lemma ConnectedToDaemon(s0: State, acts: seq<Action>, p: Pid)
    requires Start(s0) && !s0.main.Whole? && Single(s0) && p in After(s0, acts).clients
    ensures var s := After(s0, acts);
      && (s.clients[p].Connected? ==>
            s.daemons.Keys == {s.clients[p].info.daemon} && IsListening(s, s.clients[p].info.daemon))
      && !s.clients[p].DropFirst? && !s.clients[p].OwnDrop? && !s.clients[p].DropFinal?
  {
    StartInv(s0);
    RunInv(s0, acts);
    assert PlaceOk(After(s0, acts), p);
  }

  /** No reader ever sees a half-written runtime file, because it is renamed into place: what is there
      is what was there at the start, or the whole file of a daemon that listens. */
  lemma {:induction false} RuntimeFileIsNeverTorn(s0: State, acts: seq<Action>)
    requires Start(s0) && !s0.main.Whole? && Single(s0)
    ensures var s := After(s0, acts);
      s.main == s0.main || (s.main.Whole? && IsListening(s, s.main.info.daemon))
  {
    StartInv(s0);
    if acts != [] {
      var before := acts[..|acts| - 1];
      RuntimeFileIsNeverTorn(s0, before);
      RunInv(s0, before);
      RunInv(s0, acts);
      var s, a := After(s0, before), acts[|acts| - 1];
      if a.ClientStep? && a.p in s.clients {
        assert PlaceOk(s, a.p);
      }
      if a.DaemonStep? && a.d in s.daemons {
        assert DaemonOk(s, a.d);
      }
    }
  }
}
