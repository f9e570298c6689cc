/** Any number of client processes race to find or start the one daemon, over a lock file that is
    created exclusively and a runtime file that the daemon publishes by renaming.

    A step is one file operation, one dial, one spawn, or the passing of time; any sequence of actions
    is a run, in which an action that is not enabled does nothing. The runs are crash-free and timed:
    time does not pass beyond the owner's next step (the next poll of the runtime file, the end of a
    dial, or of its untimed work), nor beyond the moment by which a spawned daemon publishes its runtime
    file. Times are in milliseconds. */
module StartRace {

  const START_DEADLINE := 180_000
  const STALE_AFTER := 90_000
  const PUBLISH_WAIT := 10_000
  const RECOVER_WAIT := 3_000

  const POLL := 120                    // between two looks at the runtime file
  const DIAL := 1_200                  // how long a dial can take
  const PROBE_PAUSE := 200             // after a dial that failed
  const REDIAL := PROBE_PAUSE + DIAL
  const PROBE_TIME := 3_000
  const SECOND_PROBE_TIME := 5_000
  const SPAWN_FAILED_WAIT := 3_000
  const OTHER_WAIT := 1_500

  // How long the owner's timed calls can take: the timeout, and one more poll or dial.
  const PROBE_LIMIT := PROBE_TIME + REDIAL
  const SECOND_PROBE_LIMIT := SECOND_PROBE_TIME + REDIAL
  const WAIT_LIMIT := PUBLISH_WAIT + POLL
  const SPAWN_FAILED_LIMIT := SPAWN_FAILED_WAIT + POLL

  type Pid = nat

  type DaemonId = nat

  /** The address and the token in a runtime file: they are those of the daemon that wrote it. */
  datatype Info = Info(daemon: DaemonId)

  datatype File = Missing | Torn | Whole(info: Info)

  datatype Lock = Free | Held(owner: Pid, mtime: int)

  /** A daemon listens, opens the temporary file, writes it and renames it; when the file is not there
      any more, the renaming fails, and the daemon exits. */
  datatype Stage = Spawned | Listening | Writing | Written | Published | Gone

  datatype Daemon = Daemon(spawnedAt: int, stage: Stage)

  /** Where a client is in connectOrStart (attempt a) and in autoStartDaemon. A wait or a probe goes on
      until some time; an owner takes its next step at `limit` or before. */
  datatype Client =
    | Connect(a: nat)
    | ProbeFirst(a: nat, info: Info)
    | DropFirst(a: nat)
    | TryLock(a: nat, deadline: int)
    | OwnRead(a: nat, limit: int)
    | OwnProbe(a: nat, info: Info, until: int, limit: int)
    | OwnDrop(a: nat, limit: int)
    | OwnSpawn(a: nat, limit: int)
    | OwnSpawnFailed(a: nat, until: int, limit: int)
    | OwnWait(a: nat, spawned: DaemonId, until: int, limit: int)
    | OwnProbeAgain(a: nat, info: Info, until: int, limit: int)
    | OwnRelease(a: nat, ok: bool, limit: int)
    | WaitOther(a: nat, deadline: int, until: int)
    | StaleStat(a: nat, deadline: int)
    | StaleRead(a: nat, deadline: int)
    | StaleDrop(a: nat, deadline: int)
    | CheckDeadline(a: nat, deadline: int)
    | Recover(a: nat, until: int)
    | WaitFinal(a: nat, until: int)
    | ProbeFinal(a: nat, info: Info)
    | DropFinal(a: nat)
    | Connected(info: Info)
    | GaveUp

  /** Bounds on what the environment does untimed: a file operation of an owner, building and spawning
      the daemon's process, and the time from the spawn until the daemon has published its file. */
  datatype Bounds = Bounds(op: nat, build: nat, publish: nat)

  datatype State = State(
    bounds: Bounds,
    now: int,
    lock: Lock,
    main: File,                        // the runtime file
    tmp: File,                         // the file that is renamed to it
    daemons: map<DaemonId, Daemon>,
    clients: map<Pid, Client>
  )

  /** How the environment answers: a dial or a spawn succeeds, fails, or (a spawn) fails early. */
  datatype Answer = Good | Bad | Early

  datatype Action =
    | ClientStep(p: Pid, answer: Answer, id: DaemonId)
    | LockError(p: Pid)
    | DaemonStep(d: DaemonId)
    | Elapse(to: int)

  predicate Owner(c: Client) {
    c.OwnRead? || c.OwnProbe? || c.OwnDrop? || c.OwnSpawn? || c.OwnSpawnFailed? || c.OwnWait? || c.OwnProbeAgain?
    || c.OwnRelease?
  }

  function NextAttempt(a: nat): Client { if a == 0 then Connect(1) else GaveUp }

  predicate IsListening(s: State, d: DaemonId) {
    d in s.daemons && !s.daemons[d].stage.Spawned? && !s.daemons[d].stage.Gone?
  }

  /** The daemon has not published its runtime file yet, and may still do so. */
  predicate Pending(d: Daemon) { !d.stage.Published? && !d.stage.Gone? }

  predicate Enabled(s: State, a: Action) {
    match a
    case ClientStep(p, answer, id) =>
      && p in s.clients
      && (match s.clients[p]
          // a dial to an open listener succeeds
          case ProbeFirst(_, info) => IsListening(s, info.daemon) ==> answer.Good?
          case OwnProbe(_, info, _, _) => IsListening(s, info.daemon) ==> answer.Good?
          case OwnProbeAgain(_, info, _, _) => IsListening(s, info.daemon) ==> answer.Good?
          case ProbeFinal(_, info) => IsListening(s, info.daemon) ==> answer.Good?
          // a wait ends when the file is readable, or when its time is up
          case WaitOther(_, _, until) => s.main.Whole? || s.now > until
          case Recover(_, until) => s.main.Whole? || s.now > until
          case WaitFinal(_, until) => s.main.Whole? || s.now > until
          case OwnSpawn(_, _) => id !in s.daemons
          case Connected(_) => false
          case GaveUp => false
          case _ => true)
    case LockError(p) => p in s.clients && s.clients[p].TryLock?
    case DaemonStep(d) => d in s.daemons && Pending(s.daemons[d])
    case Elapse(to) =>
      && to > s.now
      && (forall p :: p in s.clients && Owner(s.clients[p]) ==> to <= s.clients[p].limit)
      && (forall d :: d in s.daemons && Pending(s.daemons[d]) ==> to <= s.daemons[d].spawnedAt + s.bounds.publish)
  }

  /** Where the owner p of the lock goes next. */
  function NextOwner(s: State, p: Pid, answer: Answer, id: DaemonId): Client
    requires p in s.clients && Owner(s.clients[p])
  {
    var op := s.now + s.bounds.op;
    match s.clients[p]
    case OwnRead(a, _) =>
      if s.main.Whole? then OwnProbe(a, s.main.info, s.now + PROBE_TIME, s.now + DIAL)
      else OwnSpawn(a, s.now + s.bounds.build)
    case OwnProbe(a, info, until, _) =>
      if answer.Good? then OwnRelease(a, true, op)
      else if s.now > until then OwnDrop(a, op)
      else OwnProbe(a, info, until, s.now + REDIAL)
    case OwnDrop(a, _) => OwnSpawn(a, s.now + s.bounds.build)
    case OwnSpawn(a, _) =>
      (match answer
       case Good => OwnWait(a, id, s.now + PUBLISH_WAIT, s.now)
       case Bad => OwnSpawnFailed(a, s.now + SPAWN_FAILED_WAIT, s.now)
       case Early => OwnRelease(a, false, op))
    case OwnSpawnFailed(a, until, _) =>
      if s.main.Whole? || s.now > until then OwnRelease(a, s.main.Whole?, op)
      else OwnSpawnFailed(a, until, s.now + POLL)
    case OwnWait(a, spawned, until, _) =>
      if s.main.Whole? then OwnProbeAgain(a, s.main.info, s.now + SECOND_PROBE_TIME, s.now + DIAL)
      else if s.now > until then OwnRelease(a, false, op)
      else OwnWait(a, spawned, until, s.now + POLL)
    case OwnProbeAgain(a, info, until, _) =>
      if answer.Good? || s.now > until then OwnRelease(a, answer.Good?, op)
      else OwnProbeAgain(a, info, until, s.now + REDIAL)
    case OwnRelease(a, ok, _) => if ok then WaitFinal(a, s.now + 12_000) else Recover(a, s.now + RECOVER_WAIT)
  }

  /** Where client p goes next. */
  function NextClient(s: State, p: Pid, answer: Answer, id: DaemonId): Client
    requires p in s.clients
  {
    if Owner(s.clients[p]) then NextOwner(s, p, answer, id) else
    match s.clients[p]
    case Connect(a) => if s.main.Whole? then ProbeFirst(a, s.main.info) else TryLock(a, s.now + START_DEADLINE)
    case ProbeFirst(a, info) => if answer.Good? then Connected(info) else DropFirst(a)
    case DropFirst(a) => TryLock(a, s.now + START_DEADLINE)
    case TryLock(a, deadline) =>
      if s.lock.Free? then OwnRead(a, s.now + s.bounds.op) else WaitOther(a, deadline, s.now + OTHER_WAIT)
    case WaitOther(a, deadline, _) => if s.main.Whole? then WaitFinal(a, s.now + 12_000) else StaleStat(a, deadline)
    case StaleStat(a, deadline) =>
      if s.lock.Held? && s.now - s.lock.mtime >= STALE_AFTER then StaleRead(a, deadline) else CheckDeadline(a, deadline)
    case StaleRead(a, deadline) => if s.main.Whole? then CheckDeadline(a, deadline) else StaleDrop(a, deadline)
    case StaleDrop(a, deadline) => TryLock(a, deadline)
    case CheckDeadline(a, deadline) => if s.now > deadline then Recover(a, s.now + RECOVER_WAIT) else TryLock(a, deadline)
    case Recover(a, _) => if s.main.Whole? then WaitFinal(a, s.now + 12_000) else NextAttempt(a)
    case WaitFinal(a, _) => if s.main.Whole? then ProbeFinal(a, s.main.info) else NextAttempt(a)
    case ProbeFinal(a, info) => if answer.Good? then Connected(info) else DropFinal(a)
    case DropFinal(a) => NextAttempt(a)
    case _ => s.clients[p]
  }

  function NextLock(s: State, p: Pid): Lock
    requires p in s.clients
  {
    match s.clients[p]
    case TryLock(_, _) => if s.lock.Free? then Held(p, s.now) else s.lock
    case OwnRelease(_, _, _) => Free
    case StaleDrop(_, _) => Free
    case _ => s.lock
  }

  function NextMain(s: State, p: Pid): File
    requires p in s.clients
  {
    match s.clients[p]
    case DropFirst(_) => Missing
    case OwnDrop(_, _) => Missing
    case DropFinal(_) => Missing
    case _ => s.main
  }

  function NextDaemons(s: State, p: Pid, answer: Answer, id: DaemonId): map<DaemonId, Daemon>
    requires p in s.clients
  {
    if s.clients[p].OwnSpawn? && answer.Good? then s.daemons[id := Daemon(s.now, Spawned)] else s.daemons
  }

  /** The next step of a daemon. When the temporary file that it has opened was renamed by another one,
      it writes into the runtime file. */
  function DaemonGoesOn(s: State, d: DaemonId, at: int): State
    requires d in s.daemons
  {
    match s.daemons[d].stage
    case Spawned => s.(daemons := s.daemons[d := Daemon(at, Listening)])
    case Listening => s.(daemons := s.daemons[d := Daemon(at, Writing)], tmp := Torn)
    case Writing =>
      if s.tmp.Missing?
      then s.(daemons := s.daemons[d := Daemon(at, Written)], main := if s.main.Torn? then Whole(Info(d)) else s.main)
      else s.(daemons := s.daemons[d := Daemon(at, Written)], tmp := Whole(Info(d)))
    case Written =>
      if s.tmp.Missing?
      then s.(daemons := s.daemons[d := Daemon(at, Gone)])
      else s.(daemons := s.daemons[d := Daemon(at, Published)], main := s.tmp, tmp := Missing)
    case _ => s
  }

  function Do(s: State, a: Action): State
    requires Enabled(s, a)
  {
    match a
    case ClientStep(p, answer, id) =>
      s.(clients := s.clients[p := NextClient(s, p, answer, id)], lock := NextLock(s, p), main := NextMain(s, p),
         daemons := NextDaemons(s, p, answer, id))
    case LockError(p) => s.(clients := s.clients[p := Recover(s.clients[p].a, s.now + RECOVER_WAIT)])
    case DaemonStep(d) => DaemonGoesOn(s, d, s.daemons[d].spawnedAt)
    case Elapse(to) => s.(now := to)
  }

  function Step(s: State, a: Action): State {
    if Enabled(s, a) then Do(s, a) else s
  }

  function After(s: State, acts: seq<Action>): State {
    if acts == [] then s else Step(After(s, acts[..|acts| - 1]), acts[|acts| - 1])
  }

  /** All clients are about to begin, and there is no lock and no daemon. The runtime file may be
      missing, unreadable, or one that an earlier daemon has left behind. */
  predicate Start(s: State) {
    && s.lock.Free? && s.daemons == map[]
    && forall p :: p in s.clients ==> s.clients[p] == Connect(0)
  }

  predicate Lone(s: State) {
    forall p, q :: p in s.clients && q in s.clients ==> p == q
  }

  /** The daemon publishes before its owner gives up, and the owner's untimed work is so short that its
      lock cannot look stale as long as there is no runtime file: neither until its daemon has published
      one, nor until a failed spawn is over. */
  predicate Prompt(b: Bounds) {
    && b.publish <= PUBLISH_WAIT
    && b.op + b.build + b.publish < STALE_AFTER
    && 2 * b.op + b.build + SPAWN_FAILED_LIMIT < STALE_AFTER
  }

  /** The daemon publishes before a lone client's second attempt. */
  predicate InTime(b: Bounds) { b.publish <= PUBLISH_WAIT + RECOVER_WAIT + 1 }

  /** Its wait for the daemon ends at the first poll that finds the runtime file, and then a dial. */
  const SEEN_AND_REACHED := POLL + DIAL

  /** The untimed work is so short that the lock cannot look stale before it is given back, as long as
      nobody removes the runtime file. */
  predicate PromptThroughout(b: Bounds) {
    && 2 * b.op + b.build + b.publish + SEEN_AND_REACHED < STALE_AFTER
    && 2 * b.op + b.build + SPAWN_FAILED_LIMIT < STALE_AFTER
  }

  /** Nor if somebody removes it before the owner has seen it, so that the owner's wait is in vain. */
  predicate PromptInVain(b: Bounds) { 2 * b.op + b.build + WAIT_LIMIT < STALE_AFTER }

  /** Nor if, besides, both the file that the owner finds and the one that it waits for are those of
      daemons that are gone. */
  predicate PromptWhatever(b: Bounds) {
    3 * b.op + b.build + PROBE_LIMIT + WAIT_LIMIT + SECOND_PROBE_LIMIT < STALE_AFTER
  }

  /** There are at most two clients. */
  predicate Pair(s: State) {
    forall p, q, r :: p in s.clients && q in s.clients && r in s.clients ==> p == q || q == r || p == r
  }

  // ---------------------------------------------------------------------------------------------
  // What is stated about the files and the lock

  predicate IsPublished(s: State, info: Info) {
    info.daemon in s.daemons && s.daemons[info.daemon].stage.Published?
  }

  predicate AtOutset(c: Client) { c == Connect(0) || c.ProbeFirst? || c.DropFirst? || c.Connected? }

  /** The runtime file may still be the one from the start: nobody has got further than to remove it. */
  predicate Fading(s: State) {
    s.lock.Free? && s.daemons == map[] && forall p :: p in s.clients ==> AtOutset(s.clients[p])
  }

  /** The lock, if there is one, does not look stale. */
  predicate Young(s: State) { s.lock.Held? ==> s.now - s.lock.mtime < STALE_AFTER }

  /** At most one client is in the owner's section. */
  predicate Exclusive(s: State) {
    forall p, q :: p in s.clients && q in s.clients && Owner(s.clients[p]) && Owner(s.clients[q]) ==> p == q
  }

  lemma {:induction false} RunClients(s: State, acts: seq<Action>)
    ensures After(s, acts).clients.Keys == s.clients.Keys && After(s, acts).bounds == s.bounds
  {
    if acts != [] {
      RunClients(s, acts[..|acts| - 1]);
    }
  }
}
