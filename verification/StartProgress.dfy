/** What becomes of the clients in the start race: when an attempt may fail, and that every client which
    has not given up by then connects, once the runtime file is published. */
module StartProgress {
  import opened StartRace
  import StartSafety

  // ---------------------------------------------------------------------------------------------
  // When an attempt fails

  /** The step ends the attempt of client p without success. */
  predicate EndsAttempt(s: State, a: Action, p: Pid)
    requires Enabled(s, a) && p in s.clients
  {
    Do(s, a).clients[p] != s.clients[p] && (Do(s, a).clients[p].GaveUp? || Do(s, a).clients[p].Connect?)
  }

  /** A wait of client p is over, and there is no runtime file. */
  predicate WaitedInVain(s: State, p: Pid)
    requires p in s.clients
  {
    match s.clients[p]
    case Recover(_, until) => !s.main.Whole? && s.now > until
    case WaitFinal(_, until) => !s.main.Whole? && s.now > until
    case _ => false
  }

  /** Client p has dialed the address in the runtime file in vain. */
  predicate FoundUnreachable(c: Client) { c.DropFinal? }

  /** In any state: an attempt fails only after a wait without a runtime file or a dial in vain; a client
      gives up only then, and only in its second attempt. */
  lemma AttemptFailsOnlyInVain(s: State, a: Action, p: Pid)
    requires Enabled(s, a) && p in s.clients && EndsAttempt(s, a, p)
    ensures a.ClientStep? && a.p == p && (WaitedInVain(s, p) || FoundUnreachable(s.clients[p]))
    ensures Do(s, a).clients[p] == if s.clients[p].a == 0 then Connect(1) else GaveUp
  {
  }

  /** Step i of the run ended an attempt of client p, its first or its second, in vain. */
  predicate FailsAt(s0: State, acts: seq<Action>, i: nat, p: Pid, second: bool) {
    i < |acts|
    && var s := After(s0, acts[..i]);
       && p in s.clients && Enabled(s, acts[i]) && EndsAttempt(s, acts[i], p)
       && (WaitedInVain(s, p) || FoundUnreachable(s.clients[p])) && (second <==> s.clients[p].a != 0)
  }

  predicate PastFirst(c: Client) { c.GaveUp? || (!c.Connected? && c.a != 0) }

  lemma GetsPastFirst(s: State, a: Action, p: Pid)
    requires Enabled(s, a) && p in s.clients && PastFirst(Do(s, a).clients[p])
    ensures PastFirst(s.clients[p]) || (EndsAttempt(s, a, p) && s.clients[p].a == 0)
    ensures Do(s, a).clients[p].GaveUp? ==>
              s.clients[p].GaveUp? || (PastFirst(s.clients[p]) && EndsAttempt(s, a, p) && s.clients[p].a != 0)
  {
  }

  lemma {:induction false} FirstFailed(s0: State, acts: seq<Action>, p: Pid) returns (j: nat)
    requires Start(s0) && p in s0.clients && p in After(s0, acts).clients && PastFirst(After(s0, acts).clients[p])
    ensures FailsAt(s0, acts, j, p, false)
  {
    var n := |acts| - 1;
    var s := After(s0, acts[..n]);
    RunClients(s0, acts[..n]);
    if PastFirst(s.clients[p]) {
      j := FirstFailed(s0, acts[..n], p);
      assert acts[..n][..j] == acts[..j];
    } else {
      j := n;
      GetsPastFirst(s, acts[n], p);
      AttemptFailsOnlyInVain(s, acts[n], p);
    }
  }

  /** In every run, a client that has given up has made two attempts, and each of them has failed at a
      moment when its wait was over and there was no runtime file, or after a dial in vain. */
  lemma {:induction false} GivesUpOnlyInVain(s0: State, acts: seq<Action>, p: Pid) returns (j: nat, i: nat)
    requires Start(s0) && p in s0.clients && p in After(s0, acts).clients && After(s0, acts).clients[p].GaveUp?
    ensures j < i && FailsAt(s0, acts, j, p, false) && FailsAt(s0, acts, i, p, true)
  {
    var n := |acts| - 1;
    var s := After(s0, acts[..n]);
    RunClients(s0, acts[..n]);
    if s.clients[p].GaveUp? {
      j, i := GivesUpOnlyInVain(s0, acts[..n], p);
      assert acts[..n][..i] == acts[..i];
    } else {
      i := n;
      GetsPastFirst(s, acts[n], p);
      AttemptFailsOnlyInVain(s, acts[n], p);
      j := FirstFailed(s0, acts[..n], p);
    }
    assert acts[..n][..j] == acts[..j];
  }

  /** Why the start of a daemon is over without success. */
  predicate StartFailed(s: State, a: Action, p: Pid)
    requires p in s.clients
  {
    || a == LockError(p)
    || (a.ClientStep? && a.p == p
        && match s.clients[p]
           case CheckDeadline(_, deadline) => s.now > deadline
           case OwnRelease(_, ok, _) => !ok
           case _ => false)
  }

  /** Why the owner's section is over without success. */
  predicate SectionFailed(s: State, a: Action, p: Pid)
    requires p in s.clients
  {
    a.ClientStep? && a.p == p
    && match s.clients[p]
       case OwnSpawn(_, _) => a.answer.Early?
       case OwnSpawnFailed(_, until, _) => !s.main.Whole? && s.now > until
       case OwnWait(_, _, until, _) => !s.main.Whole? && s.now > until
       case OwnProbeAgain(_, _, until, _) => !a.answer.Good? && s.now > until
       case _ => false
  }

  /** In any state: the owner's section fails exactly for these reasons, the last one being that a daemon
      which does not listen was dialed to the end. */
  lemma SectionFailsIff(s: State, a: Action, p: Pid)
    requires Enabled(s, a) && p in s.clients && Do(s, a).clients[p] != s.clients[p]
    ensures Do(s, a).clients[p].OwnRelease? && !Do(s, a).clients[p].ok <==> SectionFailed(s, a, p)
    ensures SectionFailed(s, a, p) && s.clients[p].OwnProbeAgain? ==> !IsListening(s, s.clients[p].info.daemon)
  {
  }

  /** And a client falls back to its last wait if and only if the lock file could not be created, the
      deadline of its retries has passed, or its own section has failed. */
  lemma StartFailsIff(s: State, a: Action, p: Pid)
    requires Enabled(s, a) && p in s.clients && Do(s, a).clients[p] != s.clients[p]
    ensures Do(s, a).clients[p].Recover? <==> StartFailed(s, a, p)
    ensures Do(s, a).clients[p].WaitFinal? ==> s.main.Whole? || (s.clients[p].OwnRelease? && s.clients[p].ok)
  {
  }

  /** In any state: a client tries the lock again only after it has removed a stale one, or when the
      deadline has not passed; and it goes about removing one only if that is 90 s old, and then only if
      there is no runtime file. */
  lemma RetriesOnlyIf(s: State, a: Action, p: Pid)
    requires Enabled(s, a) && p in s.clients && Do(s, a).clients[p] != s.clients[p]
    ensures Do(s, a).clients[p].TryLock? ==>
              match s.clients[p]
              case Connect(_) => !s.main.Whole?
              case DropFirst(_) => true
              case StaleDrop(_, _) => Do(s, a).lock.Free?
              case CheckDeadline(_, deadline) => s.now <= deadline
              case _ => false
    ensures Do(s, a).clients[p].StaleRead? ==> s.lock.Held? && s.now - s.lock.mtime >= STALE_AFTER
    ensures Do(s, a).clients[p].StaleDrop? <==> s.clients[p].StaleRead? && a.ClientStep? && a.p == p && !s.main.Whole?
  {
  }

  /** In any state: a client connects only to an address that has just answered its dial. */
  lemma ConnectsOnlyIfAnswered(s: State, a: Action, p: Pid)
    requires Enabled(s, a) && p in s.clients && Do(s, a).clients[p] != s.clients[p] && Do(s, a).clients[p].Connected?
    ensures a.ClientStep? && a.p == p && a.answer.Good? && (s.clients[p].ProbeFirst? || s.clients[p].ProbeFinal?)
    ensures Do(s, a).clients[p].info == s.clients[p].info
  {
  }

  /** How long the wait or the retries go on that a client begins. */
  function TimeLeft(c: Client, now: int): int {
    match c
    case TryLock(_, deadline) => deadline - now
    case WaitOther(_, _, until) => until - now
    case Recover(_, until) => until - now
    case WaitFinal(_, until) => until - now
    case _ => 0
  }

  /** In any state: retries begin with three minutes, and waits with what the source gives them. */
  lemma WaitsAreLong(s: State, a: Action, p: Pid)
    requires Enabled(s, a) && p in s.clients && Do(s, a).clients[p] != s.clients[p]
    ensures var c, d := s.clients[p], Do(s, a).clients[p];
      && (d.TryLock? && (c.Connect? || c.DropFirst?) ==> TimeLeft(d, s.now) == 180_000)
      && (d.TryLock? && !c.Connect? && !c.DropFirst? ==> d.deadline == c.deadline)
      && (d.WaitOther? ==> TimeLeft(d, s.now) == 1_500)
      && (d.Recover? ==> TimeLeft(d, s.now) == 3_000)
      && (d.WaitFinal? ==> TimeLeft(d, s.now) == 12_000)
  {
  }

  /** Client p is about to remove the runtime file. */
  predicate Removes(c: Client) { c.DropFirst? || c.OwnDrop? || c.DropFinal? }

  /** In any state: a client removes the runtime file exactly after it has dialed an address in vain that
      does not listen; nobody else takes a file away or replaces it, but a daemon. */
  lemma RemovedOnlyIfUnreachable(s: State, a: Action, p: Pid)
    requires Enabled(s, a) && p in s.clients
    ensures a.ClientStep? && a.p == p ==> Do(s, a).main == if Removes(s.clients[p]) then Missing else s.main
    ensures Removes(Do(s, a).clients[p]) && !Removes(s.clients[p]) ==>
              match s.clients[p]
              case ProbeFirst(_, info) => !IsListening(s, info.daemon)
              case OwnProbe(_, info, until, _) => !IsListening(s, info.daemon) && s.now > until
              case ProbeFinal(_, info) => !IsListening(s, info.daemon)
              case _ => false
    ensures Do(s, a).main != s.main ==> a.DaemonStep? || (a.ClientStep? && a.p in s.clients && Removes(s.clients[a.p]))
  {
  }

  // ---------------------------------------------------------------------------------------------
  // Once the runtime file is published

  /** How many steps a client still takes at most, if there is a runtime file that nobody removes. */
  function Rank(c: Client): nat {
    match c
    case Connected(_) => 0
    case GaveUp => 0
    case ProbeFirst(_, _) => 1
    case ProbeFinal(_, _) => 1
    case Connect(_) => 2
    case WaitFinal(_, _) => 2
    case Recover(_, _) => 3
    case WaitOther(_, _, _) => 3
    case OwnRelease(_, _, _) => 4
    case OwnProbe(_, _, _, _) => 5
    case OwnProbeAgain(_, _, _, _) => 5
    case OwnSpawnFailed(_, _, _) => 5
    case OwnRead(_, _) => 6
    case OwnWait(_, _, _, _) => 6
    case TryLock(_, _) => 7
    case CheckDeadline(_, _) => 8
    case StaleRead(_, _) => 9
    case StaleStat(_, _) => 10
    case _ => 11
  }

  predicate Settled(c: Client) { c.Connected? || c.GaveUp? }

  /** A step of the client's own. */
  predicate IsOwn(s: State, a: Action, p: Pid) {
    Enabled(s, a) && (a == LockError(p) || (a.ClientStep? && a.p == p))
  }

  /** The facts from which the client goes on: the file is that of a daemon that listens, and the client
      is not about to remove or to spawn anything. */
  predicate OnItsWay(s: State, p: Pid)
    requires p in s.clients
  {
    && s.main.Whole? && IsPublished(s, s.main.info)
    && StartSafety.PlaceOk(s, p)
  }

  lemma OwnStepIsProgress(s: State, a: Action, p: Pid)
    requires p in s.clients && OnItsWay(s, p) && IsOwn(s, a, p)
    ensures Rank(Do(s, a).clients[p]) < Rank(s.clients[p]) && !Do(s, a).clients[p].GaveUp?
  {
  }

  lemma AlwaysGoesOn(s: State, p: Pid, id: DaemonId)
    requires StartSafety.Inv(s) && s.main.Whole? && p in s.clients
    ensures !Settled(s.clients[p]) ==> IsOwn(s, ClientStep(p, Good, id), p)
    ensures s.clients[p].Connected? ==> IsListening(s, s.clients[p].info.daemon)
  {
    assert StartSafety.PlaceOk(s, p);
  }

  lemma FileStays(s: State, a: Action)
    requires StartSafety.Inv(s) && s.main.Whole?
    ensures Step(s, a).main == s.main
  {
    assert StartSafety.DaemonOk(s, s.main.info.daemon);
    assert forall d :: d in s.daemons ==> !Pending(s.daemons[d]);
    if Enabled(s, a) && a.ClientStep? {
      assert StartSafety.PlaceOk(s, a.p);
    }
  }

  /** How many steps of its own client p takes in a run. */
  function OwnSteps(s: State, acts: seq<Action>, p: Pid): nat {
    if acts == [] then 0
    else OwnSteps(s, acts[..|acts| - 1], p) + if IsOwn(After(s, acts[..|acts| - 1]), acts[|acts| - 1], p) then 1 else 0
  }

  lemma {:induction false} RanksSink(s: State, acts: seq<Action>, p: Pid)
    requires StartSafety.Inv(s) && s.main.Whole? && p in s.clients
    ensures var t := After(s, acts);
      && StartSafety.Inv(t) && t.main == s.main && p in t.clients
      && Rank(t.clients[p]) + OwnSteps(s, acts, p) <= Rank(s.clients[p])
      && (t.clients[p].GaveUp? ==> s.clients[p].GaveUp?)
  {
    if acts != [] {
      var before, a := acts[..|acts| - 1], acts[|acts| - 1];
      var t := After(s, before);
      RanksSink(s, before, p);
      StartSafety.StepInv(t, a);
      FileStays(t, a);
      OneSinks(t, a, p);
    }
  }

  lemma OneSinks(s: State, a: Action, p: Pid)
    requires StartSafety.Inv(s) && s.main.Whole? && p in s.clients
    ensures p in Step(s, a).clients
    ensures if IsOwn(s, a, p) then Rank(Step(s, a).clients[p]) < Rank(s.clients[p]) && !Step(s, a).clients[p].GaveUp?
            else Step(s, a).clients[p] == s.clients[p]
  {
    assert StartSafety.PlaceOk(s, p);
    if IsOwn(s, a, p) {
      OwnStepIsProgress(s, a, p);
    }
  }

  lemma RankIsSmall(s: State, p: Pid)
    requires p in s.clients
    ensures Rank(s.clients[p]) <= 11 && (Rank(s.clients[p]) == 0 ==> Settled(s.clients[p]))
  {
  }

  /** Where there is at most one daemon: once its runtime file is published, nobody gives up any more, in
      no run. Every client that has neither connected nor given up can always go on, and it is connected
      after at most eleven steps of its own, whatever the others do. */
  lemma EverybodyConnects(s0: State, acts: seq<Action>, more: seq<Action>, p: Pid, id: DaemonId)
    requires Start(s0) && !s0.main.Whole? && StartSafety.Single(s0)
    requires After(s0, acts).main.Whole? && p in After(s0, acts).clients
    ensures var s := After(s0, acts); var t := After(s, more);
      && t.main == s.main && p in t.clients
      && (t.clients[p].GaveUp? ==> s.clients[p].GaveUp?)
      && (!Settled(t.clients[p]) ==> IsOwn(t, ClientStep(p, Good, id), p))
      && (OwnSteps(s, more, p) >= 11 ==> Settled(t.clients[p]))
      && (t.clients[p].Connected? ==> IsListening(t, t.clients[p].info.daemon))
  {
    var s := After(s0, acts);
    StartSafety.StartInv(s0);
    StartSafety.RunInv(s0, acts);
    RanksSink(s, more, p);
    AlwaysGoesOn(After(s, more), p, id);
    RankIsSmall(After(s, more), p);
    RankIsSmall(s, p);
  }
}
