/** The timed loops behind the start of the daemon, for one client process: polling the runtime file,
    probing an address, the owner's section, and the retry loop over the start lock.

    The client lives in a `World`: what it finds in the files, and what becomes of its dials, builds and
    launches. What is in the files can depend on the time and on everything that the client itself has
    done to them so far, its `Deed`s, and is arbitrary otherwise: other processes may do what they like. */
module AutoStart {
  import opened StartRace

  const RETRY_PAUSE := 150
  const FINAL_WAIT := 12_000

  /** What this client has done that others can notice. */
  datatype Deed =
    | LockTaken(at: int)
    | LockReleased(at: int)
    | StaleLockRemoved(at: int)
    | FileRemoved(at: int)
    | DaemonSpawned(at: int)

  /** A dial or a build: whether it succeeds, and how long it takes. */
  datatype Try = Try(ok: bool, took: int)

  datatype World = World(
    file: (int, seq<Deed>) -> File,
    lock: (int, seq<Deed>) -> Lock,
    lockError: int -> bool,            // no lock file can be created, but not because there is one
    dial: (Info, int) -> Try,
    build: int -> Try,
    launch: int -> bool
  )

  /** Dials and builds take their time; and a lock file that is there after this client has removed a
      stale one bears the time of its creation. */
  ghost predicate Timed(world: World, work: nat) {
    && (forall info, t :: 0 <= world.dial(info, t).took <= DIAL)
    && (forall t :: 0 <= world.build(t).took <= work)
    && (forall t, deeds, at :: world.lock(t, deeds + [StaleLockRemoved(at)]).Held? ==>
          world.lock(t, deeds + [StaleLockRemoved(at)]).mtime >= at)
  }

  /** The runtime file over time, after these deeds. */
  function View(world: World, deeds: seq<Deed>): int -> File { t => world.file(t, deeds) }

  /** The outcomes of dialing the address in a runtime file. */
  function Address(world: World, info: Info): int -> Try { t => world.dial(info, t) }

  // ---------------------------------------------------------------------------------------------
  // Waiting and probing

  /** When a wait polls for the k-th time. */
  function PollTime(from: int, k: nat): int { from + POLL * k }

  /** All polls of such a wait were in vain, the last one when its time was up. */
  ghost predicate VainWait(file: int -> File, from: int, to: int, timeout: nat) {
    to > from + timeout && !file(to).Whole? && forall k :: 0 <= k && PollTime(from, k) <= to ==> !file(PollTime(from, k)).Whole?
  }

  /** Poll the runtime file until it is readable or the time is up. The file is read once more after
      the deadline before the wait gives up: a file that appears in time is never missed. */
  method Wait(file: int -> File, start: int, timeout: nat) returns (found: bool, now: int, polls: nat)
    ensures now == PollTime(start, polls)
    ensures forall k :: 0 <= k < polls ==> !file(PollTime(start, k)).Whole?
    ensures found == file(now).Whole?
    ensures !found ==> VainWait(file, start, now, timeout)
    ensures start <= now <= start + timeout + POLL
  {
    var deadline := start + timeout;
    now, polls := start, 0;
    while true
      invariant now == PollTime(start, polls) && now <= deadline + POLL
      invariant forall k :: 0 <= k < polls ==> !file(PollTime(start, k)).Whole?
      decreases deadline + POLL - now
    {
      if file(now).Whole? {
        return true, now, polls;
      }
      if now > deadline {
        return false, now, polls;
      }
      now := now + POLL;
      polls := polls + 1;
    }
  }

  /** In particular, a file that is readable throughout some interval of one polling period before the
      deadline is found. */
  lemma WaitFinds(file: int -> File, start: int, timeout: nat, from: int, found: bool, now: int, polls: nat)
    requires now == PollTime(start, polls) && found == file(now).Whole? && (!found ==> now > start + timeout)
    requires forall k :: 0 <= k < polls ==> !file(PollTime(start, k)).Whole?
    requires start <= from <= start + timeout && forall t :: from <= t <= from + POLL ==> file(t).Whole?
    ensures found && now <= from + POLL
  {
    var k := (from - start + POLL - 1) / POLL;
    assert from <= start + POLL * k <= from + POLL;
    assert file(PollTime(start, k)).Whole?;
  }

  /** And no wait is in vain if the file is there from some time before its deadline on. */
  lemma NoVainWait(file: int -> File, start: int, now: int, timeout: nat, from: int)
    requires from <= start + timeout && forall t :: from <= t ==> file(t).Whole?
    ensures !VainWait(file, start, now, timeout)
  {
  }

  /** When the n-th dial begins, if all the dials before it failed. */
  function DialTime(dials: int -> Try, start: int, n: nat): int {
    if n == 0 then start
    else DialTime(dials, start, n - 1) + dials(DialTime(dials, start, n - 1)).took + PROBE_PAUSE
  }

  function DialEnd(dials: int -> Try, start: int, n: nat): int {
    DialTime(dials, start, n) + dials(DialTime(dials, start, n)).took
  }

  /** All the dials of such a probe failed, the last one when its time was up. */
  ghost predicate Unreachable(dials: int -> Try, start: int, timeout: nat, now: int) {
    now > start + timeout &&
    exists n: nat :: now == DialEnd(dials, start, n) && forall k :: 0 <= k <= n ==> !dials(DialTime(dials, start, k)).ok
  }

  /** Dial until it succeeds or the time is up: the result is that of the last dial, and all the
      earlier ones failed. */
  method WaitRuntimeAlive(dials: int -> Try, start: int, timeout: nat) returns (alive: bool, now: int, tries: nat)
    requires forall t :: 0 <= dials(t).took <= DIAL
    ensures var last := DialTime(dials, start, tries);
      start <= last && alive == dials(last).ok && now == last + dials(last).took
    ensures forall k :: 0 <= k < tries ==> !dials(DialTime(dials, start, k)).ok
    ensures !alive ==> Unreachable(dials, start, timeout, now)
    ensures start <= now <= start + timeout + PROBE_PAUSE + DIAL
  {
    var deadline := start + timeout;
    tries, now := 0, start;
    while true
      invariant start <= now <= deadline + PROBE_PAUSE
      invariant now == DialTime(dials, start, tries)
      invariant forall k :: 0 <= k < tries ==> !dials(DialTime(dials, start, k)).ok
      decreases deadline + PROBE_PAUSE - now
    {
      var dial := dials(now);
      now := now + dial.took;
      if dial.ok {
        return true, now, tries;
      }
      if now > deadline {
        assert now == DialEnd(dials, start, tries);
        return false, now, tries;
      }
      now := now + PROBE_PAUSE;
      tries := tries + 1;
    }
  }

  // ---------------------------------------------------------------------------------------------
  // Which deeds there are, and why

  /** The client has taken the lock and not given it back. */
  predicate Owns(deeds: seq<Deed>) {
    deeds != [] &&
    match deeds[|deeds| - 1]
    case LockTaken(_) => true
    case LockReleased(_) => false
    case _ => Owns(deeds[..|deeds| - 1])
  }

  predicate HasSpawned(deeds: seq<Deed>) { exists i :: 0 <= i < |deeds| && deeds[i].DaemonSpawned? }

  predicate HasRemoved(deeds: seq<Deed>) { exists i :: 0 <= i < |deeds| && deeds[i].FileRemoved? }

  function Spawns(deeds: seq<Deed>): nat {
    if deeds == [] then 0 else Spawns(deeds[..|deeds| - 1]) + if deeds[|deeds| - 1].DaemonSpawned? then 1 else 0
  }

  function Removals(deeds: seq<Deed>): nat {
    if deeds == [] then 0 else Removals(deeds[..|deeds| - 1]) + if deeds[|deeds| - 1].FileRemoved? then 1 else 0
  }

  /** A runtime file read at time t, whose address answered at time u. */
  predicate Answers(world: World, deeds: seq<Deed>, t: int, u: int) {
    t <= u && world.file(t, deeds).Whole? && world.dial(world.file(t, deeds).info, u).ok
  }

  /** A runtime file read at time t, and a dial of its address from time u on, that failed. */
  predicate Fails(world: World, deeds: seq<Deed>, t: int, u: int, now: int) {
    && t <= u && world.file(t, deeds).Whole? && !world.dial(world.file(t, deeds).info, u).ok
    && now == u + world.dial(world.file(t, deeds).info, u).took
  }

  ghost predicate JustFailed(world: World, deeds: seq<Deed>, now: int) {
    exists t, u :: Fails(world, deeds, t, u, now)
  }

  /** What the client has found before its i-th deed: the lock is taken when it is free, and given back by
      its owner; it is removed when it is 90 s old and there is no runtime file; the runtime file is
      removed when its address has just failed to answer; and a daemon is spawned by the lock's owner. */
  ghost predicate Justified(world: World, deeds: seq<Deed>, i: nat)
    requires i < |deeds|
  {
    var before := deeds[..i];
    match deeds[i]
    case LockTaken(at) => !Owns(before) && world.lock(at, before).Free? && !world.lockError(at)
    case LockReleased(_) => Owns(before)
    case StaleLockRemoved(at) =>
      && !Owns(before) && world.lock(at, before).Held? && at - world.lock(at, before).mtime >= STALE_AFTER
      && !world.file(at, before).Whole?
    case FileRemoved(at) => JustFailed(world, before, at)
    case DaemonSpawned(at) => Owns(before) && world.launch(at)
  }

  ghost predicate Proper(world: World, before: seq<Deed>, deeds: seq<Deed>) {
    before <= deeds && forall i :: |before| <= i < |deeds| ==> Justified(world, deeds, i)
  }

  lemma ProperNext(world: World, before: seq<Deed>, deeds: seq<Deed>, deed: Deed)
    requires Proper(world, before, deeds) && Justified(world, deeds + [deed], |deeds|)
    ensures Proper(world, before, deeds + [deed])
  {
    forall i | |before| <= i < |deeds| ensures Justified(world, deeds + [deed], i) {
      assert (deeds + [deed])[..i] == deeds[..i];
      assert Justified(world, deeds, i);
    }
  }

  lemma ProperInTurn(world: World, a: seq<Deed>, b: seq<Deed>, c: seq<Deed>)
    requires Proper(world, a, b) && Proper(world, b, c)
    ensures Proper(world, a, c)
  {
    forall i | |a| <= i < |c| ensures Justified(world, c, i) {
      if i < |b| {
        assert c[..i] == b[..i] && c[i] == b[i];
        assert Justified(world, b, i);
      }
    }
  }

  // ---------------------------------------------------------------------------------------------
  // The owner's section

  /** How the start of a daemon can end: somebody's daemon answered; the process could not be built, or
      not be launched; it was spawned; the lock's holder published a runtime file; the lock file could
      not be created; or nothing came of it before the deadline. With the time of the deciding event. */
  datatype Ending =
    | Reused
    | BuildFailed(at: int)
    | LaunchFailed(at: int)
    | Launched(at: int)
    | SawFile(at: int)
    | LockFailed(at: int)
    | TimedOut(at: int)

  /** How long the owner can hold the lock, when everything but its timed waits takes at most `work`. */
  function OwnerLimit(work: nat): int {
    PROBE_LIMIT + work + WAIT_LIMIT + SECOND_PROBE_LIMIT
  }

  /** There is no runtime file, or the owner has removed it, every dial of three seconds having failed. */
  ghost predicate Cleared(world: World, start: int, taken: seq<Deed>, cleared: seq<Deed>) {
    if world.file(start, taken).Whole? then
      && |cleared| == |taken| + 1 && taken <= cleared && cleared[|taken|].FileRemoved?
      && Unreachable(Address(world, world.file(start, taken).info), start, PROBE_TIME, cleared[|taken|].at)
    else
      cleared == taken
  }

  /** The daemon that was launched at some time was reached, or waited for in vain, or dialed in vain. */
  ghost predicate Awaited(world: World, inside: seq<Deed>, at: int, ok: bool, now: int) {
    if ok then
      exists t, u :: at <= t && u <= now && Answers(world, inside, t, u)
    else
      VainWait(View(world, inside), at, now, PUBLISH_WAIT) || exists t :: at <= t && DialedInVain(world, inside, t, now)
  }

  /** The address in the runtime file read at time t was dialed in vain for five seconds. */
  ghost predicate DialedInVain(world: World, inside: seq<Deed>, t: int, now: int) {
    && world.file(t, inside).Whole?
    && Unreachable(Address(world, world.file(t, inside).info), t, SECOND_PROBE_TIME, now)
  }

  /** The owner's section from the taking of the lock at `start` to its release at `now`. */
  ghost predicate Section(world: World, start: int, before: seq<Deed>, ok: bool, how: Ending, now: int,
                          deeds: seq<Deed>) {
    var taken := before + [LockTaken(start)];
    && |deeds| > |taken| && taken <= deeds && deeds[|deeds| - 1] == LockReleased(now)
    && var inside := deeds[..|deeds| - 1];
       match how
       case Reused => ok && inside == taken && exists u :: u <= now && Answers(world, taken, start, u)
       case BuildFailed(at) => !ok && !world.build(at).ok && Cleared(world, start, taken, inside)
       case LaunchFailed(at) =>
         && !world.launch(at) && Cleared(world, start, taken, inside)
         && (if ok then world.file(now, inside).Whole? else VainWait(View(world, inside), at, now, SPAWN_FAILED_WAIT))
       case Launched(at) =>
         && world.launch(at) && inside[|inside| - 1] == DaemonSpawned(at)
         && Cleared(world, start, taken, inside[..|inside| - 1]) && Awaited(world, inside, at, ok, now)
       case _ => false
  }

  /** The owner's look at the runtime file that it finds: if its address does not answer within three
      seconds, the file is removed. */
  method ReuseOrRemove(world: World, start: int, taken: seq<Deed>, ghost work: nat)
    returns (alive: bool, now: int, deeds: seq<Deed>)
    requires Timed(world, work)
    ensures start <= now <= start + PROBE_LIMIT
    ensures Proper(world, taken, deeds) && Owns(deeds) == Owns(taken)
    ensures alive ==> deeds == taken && exists u :: u <= now && Answers(world, taken, start, u)
    ensures !alive ==> Cleared(world, start, taken, deeds)
  {
    alive, now, deeds := false, start, taken;
    var found := world.file(start, taken);
    if found.Whole? {
      var tries;
      alive, now, tries := WaitRuntimeAlive(Address(world, found.info), start, PROBE_TIME);
      ghost var last := DialTime(Address(world, found.info), start, tries);
      if alive {
        assert Answers(world, taken, start, last);
      } else {
        assert Fails(world, taken, start, last, now);
        deeds := taken + [FileRemoved(now)];
        assert deeds[..|taken|] == taken;
        ProperNext(world, taken, taken, FileRemoved(now));
      }
    }
  }

  /** From the launch of the daemon on: wait for its runtime file, and reach it. */
  method Await(world: World, at: int, inside: seq<Deed>, ghost work: nat) returns (ok: bool, now: int)
    requires Timed(world, work)
    ensures at <= now <= at + WAIT_LIMIT + SECOND_PROBE_LIMIT
    ensures Awaited(world, inside, at, ok, now)
  {
    var polls, tries;
    ok, now, polls := Wait(View(world, inside), at, PUBLISH_WAIT);
    if ok {
      ghost var read := now;
      var info := world.file(now, inside).info;
      ok, now, tries := WaitRuntimeAlive(Address(world, info), now, SECOND_PROBE_TIME);
      if ok {
        assert Answers(world, inside, read, DialTime(Address(world, info), read, tries));
      } else {
        assert DialedInVain(world, inside, read, now);
      }
    }
  }

  /** What the owner of the lock does, from the creation of the lock file to its removal. It reuses the
      daemon of the runtime file if that answers within three seconds. Otherwise it spawns one, and
      succeeds only if that, or somebody's, publishes a runtime file and answers. */
  method OwnerSection(world: World, start: int, work: nat, before: seq<Deed>)
    returns (ok: bool, how: Ending, now: int, deeds: seq<Deed>)
    requires Timed(world, work) && !Owns(before) && world.lock(start, before).Free? && !world.lockError(start)
    ensures start <= now <= start + OwnerLimit(work)
    ensures Proper(world, before, deeds) && !Owns(deeds)
    ensures Section(world, start, before, ok, how, now, deeds)
  {
    deeds := before + [LockTaken(start)];
    assert deeds[..|before|] == before;
    ProperNext(world, before, before, LockTaken(start));
    ghost var taken := deeds;
    ok, now, deeds := ReuseOrRemove(world, start, deeds, work);
    ProperInTurn(world, before, taken, deeds);
    if ok {
      how := Reused;
      deeds := GiveBack(world, before, deeds, now);
      return;
    }
    var build := world.build(now);
    how := BuildFailed(now);
    now := now + build.took;
    if !build.ok {
      deeds := GiveBack(world, before, deeds, now);
      return;
    }
    if !world.launch(now) {
      var polls;
      how := LaunchFailed(now);
      ok, now, polls := Wait(View(world, deeds), now, SPAWN_FAILED_WAIT);
      deeds := GiveBack(world, before, deeds, now);
      return;
    }
    how := Launched(now);
    ghost var cleared := deeds;
    deeds := deeds + [DaemonSpawned(now)];
    assert deeds[..|cleared|] == cleared;
    ProperNext(world, before, cleared, DaemonSpawned(now));
    ok, now := Await(world, now, deeds, work);
    deeds := GiveBack(world, before, deeds, now);
  }

  method GiveBack(ghost world: World, ghost before: seq<Deed>, inside: seq<Deed>, now: int) returns (deeds: seq<Deed>)
    requires Proper(world, before, inside) && Owns(inside)
    ensures deeds == inside + [LockReleased(now)] && deeds[..|inside|] == inside
    ensures Proper(world, before, deeds) && !Owns(deeds)
  {
    deeds := inside + [LockReleased(now)];
    assert deeds[..|inside|] == inside;
    ProperNext(world, before, inside, LockReleased(now));
  }

  // ---------------------------------------------------------------------------------------------
  // The retry loop over the start lock

  /** One call of autoStartDaemon: when it began and after which deeds, and how it ended. */
  datatype Trial = Trial(start: int, before: seq<Deed>, ok: bool, how: Ending, end: int, deeds: seq<Deed>)

  ghost predicate OnlyStaleLocks(before: seq<Deed>, deeds: seq<Deed>) {
    before <= deeds && forall i :: |before| <= i < |deeds| ==> deeds[i].StaleLockRemoved?
  }

  /** What stands behind the way it ended: the client became the owner of the lock and did what an owner
      does; or the lock was somebody else's when it tried last, and a runtime file appeared, or the time
      was up; or there was no way to create the lock file. */
  ghost predicate Tried(world: World, trial: Trial) {
    && trial.before <= trial.deeds && trial.start <= trial.end
    && match trial.how
       case LockFailed(at) =>
         !trial.ok && trial.start <= at && world.lockError(at) && OnlyStaleLocks(trial.before, trial.deeds)
       case SawFile(at) =>
         && trial.ok && trial.start <= at && world.lock(at, trial.deeds).Held?
         && world.file(trial.end, trial.deeds).Whole? && OnlyStaleLocks(trial.before, trial.deeds)
       case TimedOut(at) =>
         && !trial.ok && trial.end > trial.start + START_DEADLINE && trial.start <= at
         && world.lock(at, trial.deeds).Held? && VainWait(View(world, trial.deeds), at, trial.end, OTHER_WAIT)
         && OnlyStaleLocks(trial.before, trial.deeds)
       case _ => exists entered, mid :: trial.start <= entered && Entered(world, trial, entered, mid)
  }

  ghost predicate Entered(world: World, trial: Trial, entered: int, mid: seq<Deed>) {
    OnlyStaleLocks(trial.before, mid) && Section(world, entered, mid, trial.ok, trial.how, trial.end, trial.deeds)
  }

  /** How long one round of the loop takes, when the lock is somebody else's. */
  const ROUND := OTHER_WAIT + POLL

  function AutoStartLimit(work: nat): int { START_DEADLINE + RETRY_PAUSE + ROUND + OwnerLimit(work) }

  /** The retry loop ends, no later than the deadline and a constant, although the branch that removes a
      stale lock skips the deadline check: a lock that appears after a removal is too young to look
      stale in the next round, so that round reaches the check. (Removing the stale lock succeeds.) */
  method AutoStartDaemon(world: World, start: int, work: nat, before: seq<Deed>)
    returns (ok: bool, how: Ending, now: int, deeds: seq<Deed>)
    requires Timed(world, work) && !Owns(before)
    ensures start <= now <= start + AutoStartLimit(work)
    ensures Proper(world, before, deeds) && !Owns(deeds)
    ensures Tried(world, Trial(start, before, ok, how, now, deeds))
  {
    var deadline := start + START_DEADLINE;
    now, deeds := start, before;
    ghost var fromRemoval := false;
    while true
      invariant start <= now <= deadline + RETRY_PAUSE + (if fromRemoval then ROUND else 0)
      invariant Proper(world, before, deeds) && OnlyStaleLocks(before, deeds) && !Owns(deeds)
      invariant fromRemoval ==> deeds != [] && deeds == deeds[..|deeds| - 1] + [StaleLockRemoved(now)]
      decreases deadline + RETRY_PAUSE + ROUND - now
    {
      if world.lockError(now) {
        return false, LockFailed(now), now, deeds;
      }
      if world.lock(now, deeds).Free? {
        ghost var entered, mid := now, deeds;
        ok, how, now, deeds := OwnerSection(world, now, work, deeds);
        ProperInTurn(world, before, mid, deeds);
        assert Entered(world, Trial(start, before, ok, how, now, deeds), entered, mid);
        return;
      }
      var found, polls;
      var from := now;
      found, now, polls := Wait(View(world, deeds), now, OTHER_WAIT);
      if found {
        return true, SawFile(from), now, deeds;
      }
      var lock := world.lock(now, deeds);
      if lock.Held? && now - lock.mtime >= STALE_AFTER && !world.file(now, deeds).Whole? {
        deeds := RemoveStaleLock(world, before, deeds, now);
        fromRemoval := true;
        continue;
      }
      if now > deadline {
        return false, TimedOut(from), now, deeds;
      }
      now := now + RETRY_PAUSE;
      fromRemoval := false;
    }
  }

  method RemoveStaleLock(ghost world: World, ghost before: seq<Deed>, deeds: seq<Deed>, now: int)
    returns (more: seq<Deed>)
    requires Proper(world, before, deeds) && OnlyStaleLocks(before, deeds) && !Owns(deeds)
    requires world.lock(now, deeds).Held? && now - world.lock(now, deeds).mtime >= STALE_AFTER
    requires !world.file(now, deeds).Whole?
    ensures more == deeds + [StaleLockRemoved(now)]
    ensures Proper(world, before, more) && OnlyStaleLocks(before, more) && !Owns(more)
  {
    more := deeds + [StaleLockRemoved(now)];
    assert more[..|deeds|] == deeds;
    ProperNext(world, before, deeds, StaleLockRemoved(now));
  }

  // ---------------------------------------------------------------------------------------------
  // Connecting

  datatype Server = Unknown | At(info: Info)

  /** How long one attempt to connect or start can take: a dial, the start, two more waits, a dial. */
  function AttemptLimit(work: nat): int {
    DIAL + AutoStartLimit(work) + (RECOVER_WAIT + POLL) + (FINAL_WAIT + POLL) + DIAL
  }

  /** The server is the one in the runtime file at time t, and its address answered at that time. */
  predicate Answered(world: World, deeds: seq<Deed>, server: Server, t: int) {
    && world.file(t, deeds).Whole? && server == At(world.file(t, deeds).info)
    && world.dial(world.file(t, deeds).info, t).ok
  }

  /** Dial the address in the runtime file that is readable now; remove the file if it does not answer. */
  method Probe(world: World, at: int, before: seq<Deed>, ghost work: nat)
    returns (server: Server, now: int, deeds: seq<Deed>)
    requires Timed(world, work) && world.file(at, before).Whole?
    ensures server.At? ==> Answered(world, before, server, at) && deeds == before
    ensures !server.At? ==> Fails(world, before, at, at, now) && deeds == before + [FileRemoved(now)]
    ensures Proper(world, before, deeds) && Owns(deeds) == Owns(before)
    ensures at <= now <= at + DIAL
  {
    var info := world.file(at, before).info;
    var dial := world.dial(info, at);
    now := at + dial.took;
    if dial.ok {
      return At(info), now, before;
    }
    deeds := before + [FileRemoved(now)];
    assert deeds[..|before|] == before && Fails(world, before, at, at, now);
    ProperNext(world, before, before, FileRemoved(now));
    server := Unknown;
  }

  predicate OneMore(before: seq<Deed>, deeds: seq<Deed>, deed: Deed) {
    |deeds| == |before| + 1 && before <= deeds && deeds[|before|] == deed
  }

  /** Why an attempt has failed after its trial to start a daemon: that had failed, and no runtime file
      appeared in three seconds; or none appeared in twelve; or its address was dialed in vain. */
  ghost predicate Failed(world: World, trial: Trial, now: int, deeds: seq<Deed>) {
    || (!trial.ok && deeds == trial.deeds && VainWait(View(world, deeds), trial.end, now, RECOVER_WAIT))
    || (trial.ok && deeds == trial.deeds && VainWait(View(world, deeds), trial.end, now, FINAL_WAIT))
    || (OneMore(trial.deeds, deeds, FileRemoved(now))
        && exists t :: trial.end <= t && Fails(world, trial.deeds, t, t, now))
  }

  /** The last part of an attempt: wait for the runtime file, and dial its address. */
  method Reach(world: World, start: int, before: seq<Deed>, ghost work: nat)
    returns (server: Server, now: int, deeds: seq<Deed>)
    requires Timed(world, work)
    ensures server.At? ==> deeds == before && exists t :: start <= t <= now && Answered(world, deeds, server, t)
    ensures !server.At? ==>
              || (deeds == before && VainWait(View(world, deeds), start, now, FINAL_WAIT))
              || (OneMore(before, deeds, FileRemoved(now)) && exists t :: start <= t && Fails(world, before, t, t, now))
    ensures Proper(world, before, deeds) && Owns(deeds) == Owns(before)
    ensures start <= now <= start + FINAL_WAIT + POLL + DIAL
  {
    var found, polls;
    server, deeds := Unknown, before;
    found, now, polls := Wait(View(world, before), start, FINAL_WAIT);
    if found {
      ghost var at := now;
      server, now, deeds := Probe(world, now, before, work);
      assert !server.At? ==> Fails(world, before, at, at, now);
    }
  }

  /** The second half of an attempt: start a daemon, or wait for somebody else's, and reach it. */
  method StartAndProbe(world: World, start: int, work: nat, before: seq<Deed>)
    returns (server: Server, now: int, deeds: seq<Deed>, ghost trial: Trial)
    requires Timed(world, work) && !Owns(before)
    ensures trial.start == start && trial.before == before && Tried(world, trial) && trial.deeds <= deeds
    ensures server.At? ==> deeds == trial.deeds && exists t :: trial.end <= t <= now && Answered(world, deeds, server, t)
    ensures !server.At? ==> Failed(world, trial, now, deeds)
    ensures Proper(world, before, deeds) && !Owns(deeds)
    ensures start <= now <= start + AttemptLimit(work) - DIAL
  {
    server := Unknown;
    var started, how, found, polls;
    started, how, now, deeds := AutoStartDaemon(world, start, work, before);
    trial := Trial(start, before, started, how, now, deeds);
    if !started {
      found, now, polls := Wait(View(world, deeds), now, RECOVER_WAIT);
      if !found {
        return;
      }
    }
    ghost var from := now;
    server, now, deeds := Reach(world, now, deeds, work);
    ProperInTurn(world, before, trial.deeds, deeds);
    assert View(world, trial.deeds)(PollTime(from, 0)) == world.file(from, trial.deeds);
  }

  /** One attempt, from its first look at the runtime file to its end. */
  datatype Attempt = Attempt(start: int, before: seq<Deed>, trial: Trial, server: Server, end: int, deeds: seq<Deed>)

  /** What becomes of it: the daemon that was there already answered; or after a trial to start one, the
      daemon in the runtime file did; or it has failed for one of the reasons above. */
  ghost predicate Attempted(world: World, a: Attempt) {
    a.start <= a.end &&
    if Answers(world, a.before, a.start, a.start) then
      a.deeds == a.before && a.server == At(world.file(a.start, a.before).info)
    else
      && a.start <= a.trial.start && Tried(world, a.trial) && a.trial.end <= a.end
      && (a.trial.before == a.before || OneMore(a.before, a.trial.before, FileRemoved(a.trial.start)))
      && a.trial.deeds <= a.deeds
      && (a.server.At? ==> a.deeds == a.trial.deeds
                           && exists t :: a.trial.end <= t <= a.end && Answered(world, a.deeds, a.server, t))
      && (!a.server.At? ==> Failed(world, a.trial, a.end, a.deeds))
  }

  /** One attempt to find a daemon or to start one. */
  method ConnectOnce(world: World, start: int, work: nat, before: seq<Deed>)
    returns (server: Server, now: int, deeds: seq<Deed>, ghost a: Attempt)
    requires Timed(world, work) && !Owns(before)
    ensures Attempted(world, a) && a == Attempt(start, before, a.trial, server, now, deeds)
    ensures server.At? ==> exists t :: start <= t <= now && Answered(world, deeds, server, t)
    ensures Proper(world, before, deeds) && !Owns(deeds)
    ensures start <= now <= start + AttemptLimit(work)
  {
    now, deeds := start, before;
    ghost var trial := Trial(start, before, false, Reused, start, before);
    if world.file(now, deeds).Whole? {
      server, now, deeds := Probe(world, now, deeds, work);
      if server.At? {
        assert Answered(world, deeds, server, start);
        a := Attempt(start, before, trial, server, now, deeds);
        return;
      }
    }
    ghost var probed := deeds;
    server, now, deeds, trial := StartAndProbe(world, now, work, deeds);
    ProperInTurn(world, before, probed, deeds);
    a := Attempt(start, before, trial, server, now, deeds);
  }

  /** One attempt, or a second one after the first has failed. */
  ghost predicate InTurn(world: World, start: int, attempts: seq<Attempt>) {
    && 1 <= |attempts| <= 2 && attempts[0].start == start && attempts[0].before == []
    && (forall k :: 0 <= k < |attempts| ==> Attempted(world, attempts[k]))
    && (|attempts| == 2 ==> !attempts[0].server.At? && attempts[1].start == attempts[0].end
                            && attempts[1].before == attempts[0].deeds)
  }

  lemma FirstIsReused(world: World, start: int, attempts: seq<Attempt>)
    requires InTurn(world, start, attempts) && Answers(world, [], start, start)
    ensures |attempts| == 1 && attempts[0].server == At(world.file(start, []).info) && attempts[0].deeds == []
  {
    assert Attempted(world, attempts[0]);
  }

  lemma InTurnNext(world: World, start: int, attempts: seq<Attempt>, a: Attempt)
    requires Attempted(world, a) && |attempts| <= 1
    requires if attempts == [] then a.start == start && a.before == []
             else InTurn(world, start, attempts) && !attempts[0].server.At? && a.start == attempts[0].end
                  && a.before == attempts[0].deeds
    ensures InTurn(world, start, attempts + [a])
  {
  }

  // ---------------------------------------------------------------------------------------------
  // A world in which the client is alone

  /** Nobody else takes the lock, the daemon can be built and launched, and it publishes its runtime file
      before its owner stops waiting for it. Until then there may be a runtime file that an earlier daemon
      has left behind, until it is removed. */
  ghost predicate Alone(world: World, info: Info) {
    && (forall t, deeds :: world.lock(t, deeds).Free?)
    && (forall t :: !world.lockError(t) && world.build(t).ok && world.launch(t))
    && (forall t, deeds :: !HasSpawned(deeds) && world.file(t, deeds).Whole? ==>
          !HasRemoved(deeds) && forall u :: !world.dial(world.file(t, deeds).info, u).ok)
    && (forall t, deeds :: HasSpawned(deeds) && world.file(t, deeds).Whole? ==> world.file(t, deeds).info == info)
    && (forall t, deeds, at :: DaemonSpawned(at) in deeds && t >= at + PUBLISH_WAIT ==> world.file(t, deeds).Whole?)
    && (forall u :: world.dial(info, u).ok)
  }

  /** There are such worlds, for instance one with a stale runtime file. */
  lemma SomeWorldIsAlone(info: Info, stale: Info) returns (world: World)
    requires info != stale
    ensures Alone(world, info) && Timed(world, 0) && world.file(0, []) == Whole(stale)
  {
    world := World(
      (t, deeds) => if HasSpawned(deeds) then Whole(info) else if HasRemoved(deeds) then Missing else Whole(stale),
      (t, deeds) => Lock.Free,
      t => false,
      (address, t) => Try(address == info, 0),
      t => Try(true, 0),
      t => true);
  }

  lemma {:induction false} NoneSpawned(deeds: seq<Deed>)
    requires !HasSpawned(deeds)
    ensures Spawns(deeds) == 0
  {
    if deeds != [] {
      NoneSpawned(deeds[..|deeds| - 1]);
    }
  }

  lemma AloneIsReached(world: World, info: Info, inside: seq<Deed>, at: int, ok: bool, now: int)
    requires Alone(world, info) && DaemonSpawned(at) in inside && Awaited(world, inside, at, ok, now)
    ensures ok && at <= now
  {
  }

  /** Then its owner's section ends with a daemon that answers, the only one that it has spawned. */
  lemma AloneInSection(world: World, info: Info, start: int, before: seq<Deed>, ok: bool, how: Ending, now: int,
                       deeds: seq<Deed>)
    requires Alone(world, info) && !HasSpawned(before) && Section(world, start, before, ok, how, now, deeds)
    ensures ok && how.Launched? && DaemonSpawned(how.at) in deeds && how.at <= now && Spawns(deeds) == 1
  {
    var inside := deeds[..|deeds| - 1];
    if how.Launched? {
      var cleared := inside[..|inside| - 1];
      assert inside[|inside| - 1] in inside;
      AloneIsReached(world, info, inside, how.at, ok, now);
      NoneSpawned(cleared);
    }
  }

  lemma AloneInTrial(world: World, info: Info, trial: Trial)
    requires Alone(world, info) && !HasSpawned(trial.before) && Tried(world, trial)
    ensures trial.ok && trial.how.Launched? && DaemonSpawned(trial.how.at) in trial.deeds
    ensures trial.how.at <= trial.end && Spawns(trial.deeds) == 1
  {
    if !trial.how.LockFailed? && !trial.how.SawFile? && !trial.how.TimedOut? {
      var entered, mid :| trial.start <= entered && Entered(world, trial, entered, mid);
      AloneInSection(world, info, entered, mid, trial.ok, trial.how, trial.end, trial.deeds);
    }
  }

  lemma AloneNeverFails(world: World, info: Info, trial: Trial, now: int, deeds: seq<Deed>)
    requires Alone(world, info) && !HasSpawned(trial.before) && Tried(world, trial)
    ensures !Failed(world, trial, now, deeds)
    ensures HasSpawned(trial.deeds) && Spawns(trial.deeds) == 1
  {
    AloneInTrial(world, info, trial);
    assert !VainWait(View(world, trial.deeds), trial.end, now, FINAL_WAIT);
  }

  /** So it connects in its first attempt, and has started one daemon. */
  lemma AloneConnects(world: World, info: Info, start: int, attempts: seq<Attempt>)
    requires Alone(world, info) && InTurn(world, start, attempts)
    ensures |attempts| == 1 && attempts[0].server == At(info) && Spawns(attempts[0].deeds) == 1
  {
    var a := attempts[0];
    assert Attempted(world, a) && !Answers(world, a.before, a.start, a.start);
    AloneNeverFails(world, info, a.trial, a.end, a.deeds);
  }

  // ---------------------------------------------------------------------------------------------
  // A world in which a daemon comes up

  /** From some time on there is always a runtime file, whatever the client does, and its address answers. */
  ghost predicate UpFrom(world: World, from: int) {
    forall t, deeds :: t >= from ==>
      world.file(t, deeds).Whole? && forall u :: u >= t ==> world.dial(world.file(t, deeds).info, u).ok
  }

  /** Then an attempt can only fail by dialing in vain an address that was read before that time. */
  lemma UpInAttempt(world: World, work: nat, from: int, a: Attempt)
    requires Timed(world, work) && UpFrom(world, from) && from <= a.start + RECOVER_WAIT
    requires Attempted(world, a) && !a.server.At?
    ensures Removals(a.deeds) > Removals(a.before) && a.end < from + DIAL
  {
    NoVainWait(View(world, a.deeds), a.trial.end, a.end, RECOVER_WAIT, from);
    NoVainWait(View(world, a.deeds), a.trial.end, a.end, FINAL_WAIT, from);
    assert a.deeds == a.trial.deeds + [FileRemoved(a.end)] && a.deeds[..|a.trial.deeds|] == a.trial.deeds;
    RemovalsGrow(a.before, a.trial.deeds);
  }

  /** So if a daemon comes up within three seconds, the client connects, unless it has met dead addresses
      in both its attempts before. */
  lemma UpConnects(world: World, work: nat, from: int, start: int, attempts: seq<Attempt>)
    requires Timed(world, work) && UpFrom(world, from) && from <= start + RECOVER_WAIT
    requires InTurn(world, start, attempts) && (|attempts| == 2 || attempts[0].server.At?)
    ensures var last := attempts[|attempts| - 1];
      last.server.At? || (Removals(last.deeds) >= 2 && last.end < from + DIAL)
  {
    if |attempts| == 2 && !attempts[1].server.At? {
      assert Attempted(world, attempts[0]) && Attempted(world, attempts[1]);
      UpInAttempt(world, work, from, attempts[0]);
      UpInAttempt(world, work, from, attempts[1]);
    }
  }

  lemma {:induction false} RemovalsGrow(before: seq<Deed>, deeds: seq<Deed>)
    requires before <= deeds
    ensures Removals(before) <= Removals(deeds)
  {
    if before == deeds {
    } else {
      RemovalsGrow(before, deeds[..|deeds| - 1]);
    }
  }

  /** An attempt in which the address in the runtime file is dead, the lock file cannot be created, and
      the address that is in the file then is dead, too. */
  lemma DeadTwice(world: World, before: seq<Deed>) returns (a: Attempt)
    requires world.lockError(0) && forall deeds :: Fails(world, deeds, 0, 0, 0)
    ensures a.start == 0 && a.before == before && a.end == 0 && !a.server.At? && Attempted(world, a)
    ensures Removals(a.deeds) == Removals(before) + 2
  {
    var probed := before + [FileRemoved(0)];
    var deeds := probed + [FileRemoved(0)];
    assert probed[..|before|] == before && deeds[..|probed|] == probed;
    assert Fails(world, before, 0, 0, 0) && Fails(world, probed, 0, 0, 0);
    var trial := Trial(0, probed, false, LockFailed(0), 0, probed);
    a := Attempt(0, before, trial, Unknown, 0, deeds);
  }

  /** There is always a runtime file; its address is dead for three seconds, and then that of a daemon that
      is up. The lock file cannot be created. */
  lemma DeadAtFirst() returns (world: World)
    ensures Timed(world, 0) && UpFrom(world, RECOVER_WAIT) && world.lockError(0)
    ensures forall deeds :: Fails(world, deeds, 0, 0, 0)
  {
    world := World(
      (t, deeds) => if t >= RECOVER_WAIT then Whole(Info(1)) else Whole(Info(0)),
      (t, deeds) => Lock.Free,
      t => true,
      (address, t) => Try(address == Info(1), 0),
      t => Try(true, 0),
      t => true);
  }

  /** The exception in UpConnects is needed: if others keep putting dead addresses into the runtime file,
      both attempts can be over before the daemon is up. */
  lemma DeadAddressesEveryTime() returns (world: World, attempts: seq<Attempt>)
    ensures Timed(world, 0) && UpFrom(world, RECOVER_WAIT) && InTurn(world, 0, attempts)
    ensures |attempts| == 2 && !attempts[1].server.At? && Removals(attempts[1].deeds) == 4
  {
    world := DeadAtFirst();
    var first := DeadTwice(world, []);
    var second := DeadTwice(world, first.deeds);
    InTurnNext(world, 0, [], first);
    InTurnNext(world, 0, [first], second);
    attempts := [first] + [second];
  }

  // ---------------------------------------------------------------------------------------------

  class Client {
    var server: Server                 // base URL and token

    constructor ()
      ensures server == Unknown
    {
      server := Unknown;
    }

    /** Two attempts to find a reachable daemon or to start one. The client ends with the address and
        token of a runtime file that it read and whose address answered at that very time; or with an
        error and nothing new, after two attempts that failed for the stated reasons; in a bounded time
        either way. */
    method ConnectOrStart(world: World, start: int, work: nat)
      returns (ok: bool, now: int, deeds: seq<Deed>, ghost attempts: seq<Attempt>)
      requires Timed(world, work)
      modifies this
      ensures InTurn(world, start, attempts)
      ensures var last := attempts[|attempts| - 1];
        now == last.end && deeds == last.deeds && (if ok then server == last.server && server.At? else !last.server.At?)
      ensures ok ==> exists t :: start <= t <= now && Answered(world, deeds, server, t)
      ensures !ok ==> server == old(server) && |attempts| == 2
      // every deed was justified, and the lock is given back
      ensures Proper(world, [], deeds) && !Owns(deeds)
      ensures start <= now <= start + 2 * AttemptLimit(work)
      // a daemon that is already there is simply used
      ensures Answers(world, [], start, start) ==> ok && server == At(world.file(start, []).info) && deeds == []
    {
      now, deeds, attempts := start, [], [];
      var attempt := 0;
      while attempt < 2
        invariant 0 <= attempt <= 2 && |attempts| == attempt && server == old(server)
        invariant start <= now
        invariant now <= start + if attempt == 0 then 0
                                 else if attempt == 1 then AttemptLimit(work) else 2 * AttemptLimit(work)
        invariant Proper(world, [], deeds) && !Owns(deeds)
        invariant if attempt == 0 then now == start && deeds == [] else
                    && InTurn(world, start, attempts) && !attempts[attempt - 1].server.At?
                    && now == attempts[attempt - 1].end && deeds == attempts[attempt - 1].deeds
        invariant Answers(world, [], start, start) ==> attempt == 0
      {
        ghost var before := deeds;
        var found;
        ghost var a;
        found, now, deeds, a := ConnectOnce(world, now, work, deeds);
        ProperInTurn(world, [], before, deeds);
        InTurnNext(world, start, attempts, a);
        attempts := attempts + [a];
        if Answers(world, [], start, start) {
          FirstIsReused(world, start, attempts);
        }
        if found.At? {
          server := found;
          ok := true;
          return;
        }
        attempt := attempt + 1;
      }
      ok := false;
    }
  }
}
