/** Who is responsible for each process of the service under test, while any number of calls of
    ensureStarted, stop and snapshot run concurrently and processes exit when they like.

    A step is what a call does between two points where others can interfere: ensureStarted holds the
    manager's lock throughout, stop gives it back before it waits for the process to exit. */
module SutOwnership {

  import opened SutTypes

  type CallId = nat

  /** The goroutine that waits for a process: it sends the exit result once, into a channel with room
      for one, and then closes the channel. */
  datatype Waiter = NotStarted | Running | SentResult | Closed

  /** A spawned process. `killed` says that its termination was requested by force; `taken` counts how
      often its exit result was received. */
  datatype Proc = Proc(exited: bool, killed: bool, waiter: Waiter, taken: nat)

  datatype Lock = Free | HeldBy(call: CallId)

  datatype Call =
    | EnsureBegin
    | EnsureSpawn                      // the lock is held from here ...
    | EnsureAfterStart(p: ProcId)
    | EnsureAbort(p: ProcId)           // the process could not be set up: kill it
    | EnsureProbe(p: ProcId)           // waiting until it is ready
    | EnsureKill(p: ProcId)            // it is not ready: force it to stop
    | EnsureReap(p: ProcId)
    | EnsureCommit(p: ProcId)          // ... to here
    | StopBegin
    | StopSignal(p: ProcId)            // the lock is not held from here on
    | StopWait(p: ProcId)
    | StopKill(p: ProcId)
    | StopReap(p: ProcId)
    | SnapshotBegin
    | Finished

  /** Who is responsible for a process. This is history: no step looks at it. */
  datatype Keeper = Manager | ByCall(c: CallId) | Nobody

  datatype State = State(
    lock: Lock,
    cmd: Ref,
    waitCh: Ref,
    procs: map<ProcId, Proc>,
    calls: map<CallId, Call>,
    keeper: map<ProcId, Keeper>
  )

  datatype Kind = Ensure | Stop | Snapshot

  /** How the environment answers: success, failure or timeout, or the process's exit is noticed. */
  datatype Answer = Good | Bad | Exited

  datatype Action =
    | Arrive(c: CallId, kind: Kind)
    | CallStep(c: CallId, answer: Answer, id: ProcId)
    | Exit(p: ProcId)
    | WaiterSends(p: ProcId)
    | WaiterCloses(p: ProcId)

  const Initial := State(Free, Nil, Nil, map[], map[], map[])

  /** A receive from the process's channel would not block. */
  predicate Readable(p: Proc) { p.waiter.Closed? || (p.waiter.SentResult? && p.taken == 0) }

  function Received(p: Proc): Proc {
    if !p.waiter.NotStarted? && !p.waiter.Running? && p.taken == 0 then p.(taken := 1) else p
  }

  function Owned(c: Call): Ref {
    match c
    case EnsureAfterStart(p) => Of(p)
    case EnsureAbort(p) => Of(p)
    case EnsureProbe(p) => Of(p)
    case EnsureKill(p) => Of(p)
    case EnsureReap(p) => Of(p)
    case EnsureCommit(p) => Of(p)
    case StopSignal(p) => Of(p)
    case StopWait(p) => Of(p)
    case StopKill(p) => Of(p)
    case StopReap(p) => Of(p)
    case _ => Nil
  }

  predicate Stopping(c: Call) { c.StopSignal? || c.StopWait? || c.StopKill? || c.StopReap? }

  predicate HoldsLock(c: Call) { c.EnsureSpawn? || (Owned(c).Of? && !Stopping(c)) }

  predicate HasBoth(s: State) { s.cmd.Of? && s.waitCh.Of? && s.waitCh.id in s.procs }

  /** What isRunningLocked answers. */
  predicate IsRunning(s: State) { HasBoth(s) && !Readable(s.procs[s.waitCh.id]) }

  /** What isRunningLocked finds: the tracked process has exited, and its channel is read. */
  predicate FindsExit(s: State) { HasBoth(s) && Readable(s.procs[s.waitCh.id]) }

  predicate Enabled(s: State, a: Action) {
    match a
    case Arrive(c, _) => c !in s.calls
    case CallStep(c, answer, id) =>
      && c in s.calls
      && (match s.calls[c]
          case EnsureBegin => s.lock.Free?
          case StopBegin => s.lock.Free?
          case SnapshotBegin => s.lock.Free?
          case EnsureSpawn => id !in s.procs
          case EnsureProbe(p) => p in s.procs && (answer.Exited? ==> Readable(s.procs[p]))
          case EnsureReap(p) => p in s.procs && (answer.Exited? ==> Readable(s.procs[p]))
          case StopWait(p) => p in s.procs && (answer.Exited? ==> Readable(s.procs[p]))
          case StopReap(p) => p in s.procs && (answer.Exited? ==> Readable(s.procs[p]))
          case EnsureAfterStart(p) => p in s.procs
          case EnsureAbort(p) => p in s.procs
          case EnsureKill(p) => p in s.procs
          case StopKill(p) => p in s.procs
          case Finished => false
          case _ => true)
    case Exit(p) => p in s.procs && !s.procs[p].exited
    case WaiterSends(p) => p in s.procs && s.procs[p].exited && s.procs[p].waiter.Running?
    case WaiterCloses(p) => p in s.procs && s.procs[p].waiter.SentResult?
  }

  function NextCall(s: State, c: CallId, answer: Answer, id: ProcId): Call
    requires c in s.calls
  {
    match s.calls[c]
    case EnsureBegin => if IsRunning(s) then Finished else EnsureSpawn
    case EnsureSpawn => if answer.Good? then EnsureAfterStart(id) else Finished
    case EnsureAfterStart(p) => if answer.Good? then EnsureProbe(p) else EnsureAbort(p)
    case EnsureProbe(p) => if answer.Good? then EnsureCommit(p) else EnsureKill(p)
    case EnsureKill(p) => EnsureReap(p)
    case StopBegin => if IsRunning(s) && s.cmd.Of? then StopSignal(s.cmd.id) else Finished
    case StopSignal(p) => StopWait(p)
    case StopWait(p) => if answer.Exited? then Finished else StopKill(p)
    case StopKill(p) => StopReap(p)
    case _ => Finished
  }

  function NextLock(s: State, c: CallId, next: Call): Lock
    requires c in s.calls
  {
    if HoldsLock(next) then HeldBy(c) else if HoldsLock(s.calls[c]) then Free else s.lock
  }

  function NextRef(s: State, c: CallId, ref: Ref): Ref
    requires c in s.calls
  {
    match s.calls[c]
    case EnsureBegin => if FindsExit(s) then Nil else ref
    case SnapshotBegin => if FindsExit(s) then Nil else ref
    case StopBegin => Nil
    case EnsureCommit(p) => Of(p)
    case _ => ref
  }

  function NextProcs(s: State, c: CallId, answer: Answer, id: ProcId): map<ProcId, Proc>
    requires Enabled(s, CallStep(c, answer, id))
  {
    match s.calls[c]
    case EnsureBegin => if FindsExit(s) then s.procs[s.waitCh.id := Received(s.procs[s.waitCh.id])] else s.procs
    case SnapshotBegin => if FindsExit(s) then s.procs[s.waitCh.id := Received(s.procs[s.waitCh.id])] else s.procs
    case StopBegin => if FindsExit(s) then s.procs[s.waitCh.id := Received(s.procs[s.waitCh.id])] else s.procs
    case EnsureSpawn => if answer.Good? then s.procs[id := Proc(false, false, NotStarted, 0)] else s.procs
    case EnsureAfterStart(p) => if answer.Good? then s.procs[p := s.procs[p].(waiter := Running)] else s.procs
    case EnsureAbort(p) => s.procs[p := s.procs[p].(killed := true)]
    case EnsureKill(p) => s.procs[p := s.procs[p].(killed := true)]
    case StopKill(p) => s.procs[p := s.procs[p].(killed := true)]
    case EnsureProbe(p) => if answer.Exited? then s.procs[p := Received(s.procs[p])] else s.procs
    case EnsureReap(p) => if answer.Exited? then s.procs[p := Received(s.procs[p])] else s.procs
    case StopWait(p) => if answer.Exited? then s.procs[p := Received(s.procs[p])] else s.procs
    case StopReap(p) => if answer.Exited? then s.procs[p := Received(s.procs[p])] else s.procs
    case _ => s.procs
  }

  /** Responsibility moves with the references. */
  function NextKeeper(s: State, c: CallId, next: Call): map<ProcId, Keeper>
    requires c in s.calls
  {
    var call := s.calls[c];
    if call.EnsureCommit? then s.keeper[call.p := Manager]
    else if Owned(next).Of? then s.keeper[Owned(next).id := ByCall(c)]
    else if Owned(call).Of? then s.keeper[Owned(call).id := Nobody]
    else if (call.EnsureBegin? || call.SnapshotBegin? || call.StopBegin?) && FindsExit(s) then s.keeper[s.cmd.id := Nobody]
    else s.keeper
  }

  function Do(s: State, a: Action): State
    requires Enabled(s, a)
  {
    match a
    case Arrive(c, kind) =>
      s.(calls := s.calls[c := match kind case Ensure => EnsureBegin case Stop => StopBegin case Snapshot => SnapshotBegin])
    case CallStep(c, answer, id) =>
      var next := NextCall(s, c, answer, id);
      State(NextLock(s, c, next), NextRef(s, c, s.cmd), NextRef(s, c, s.waitCh), NextProcs(s, c, answer, id),
            s.calls[c := next], NextKeeper(s, c, next))
    case Exit(p) => s.(procs := s.procs[p := s.procs[p].(exited := true)])
    case WaiterSends(p) => s.(procs := s.procs[p := s.procs[p].(waiter := SentResult)])
    case WaiterCloses(p) => s.(procs := s.procs[p := s.procs[p].(waiter := Closed)])
  }

  function Step(s: State, a: Action): State {
    if Enabled(s, a) then Do(s, a) else s
  }

  function After(s: State, acts: seq<Action>): State {
    if acts == [] then s else Step(After(s, acts[..|acts| - 1]), acts[|acts| - 1])
  }

  // ---------------------------------------------------------------------------------------------
  // The invariant

  predicate CallOk(s: State, c: CallId)
    requires c in s.calls
  {
    var call := s.calls[c];
    && (HoldsLock(call) ==> s.lock == HeldBy(c) && s.cmd.Nil? && s.waitCh.Nil?)
    && (Owned(call).Of? ==>
          var p := Owned(call).id;
          && p in s.procs && p in s.keeper && s.keeper[p] == ByCall(c)
          && (s.procs[p].waiter.NotStarted? <==> call.EnsureAfterStart? || call.EnsureAbort?)
          && (call.EnsureReap? || call.StopReap? ==> s.procs[p].killed))
  }

  predicate ChannelOk(p: Proc) {
    && (p.waiter.SentResult? || p.waiter.Closed? ==> p.exited)
    && p.taken <= 1
    && (p.taken == 1 ==> p.waiter.SentResult? || p.waiter.Closed?)
  }

  predicate ProcOk(s: State, p: ProcId)
    requires p in s.procs
  {
    && ChannelOk(s.procs[p])
    && p in s.keeper
    && (match s.keeper[p]
        case Manager => s.cmd == Of(p)
        case ByCall(c) => c in s.calls && Owned(s.calls[c]) == Of(p)
        case Nobody => s.procs[p].exited || s.procs[p].killed)
  }

  predicate RefsOk(s: State) {
    && s.cmd == s.waitCh
    && (s.cmd.Of? ==>
          s.cmd.id in s.procs && s.cmd.id in s.keeper && s.keeper[s.cmd.id] == Manager
          && !s.procs[s.cmd.id].waiter.NotStarted?)
    && (s.lock.HeldBy? ==> s.lock.call in s.calls && HoldsLock(s.calls[s.lock.call]))
  }

  predicate Inv(s: State) {
    && RefsOk(s)
    && (forall c :: c in s.calls ==> CallOk(s, c))
    && (forall p :: p in s.procs ==> ProcOk(s, p))
  }

  lemma StepperOk(s: State, c: CallId, answer: Answer, id: ProcId)
    requires RefsOk(s) && Enabled(s, CallStep(c, answer, id)) && CallOk(s, c)
    ensures CallOk(Do(s, CallStep(c, answer, id)), c)
  {
  }

  lemma BystanderOk(s: State, c: CallId, answer: Answer, id: ProcId, d: CallId)
    requires RefsOk(s) && Enabled(s, CallStep(c, answer, id)) && CallOk(s, c)
    requires d in s.calls && d != c && CallOk(s, d)
    ensures CallOk(Do(s, CallStep(c, answer, id)), d)
  {
  }

  lemma OwnProcOk(s: State, c: CallId, answer: Answer, id: ProcId, p: ProcId)
    requires RefsOk(s) && Enabled(s, CallStep(c, answer, id)) && CallOk(s, c)
    requires p in Do(s, CallStep(c, answer, id)).procs
    requires p in s.procs ==> ProcOk(s, p)
    requires p in s.procs ==> s.keeper[p] == ByCall(c)
    ensures ProcOk(Do(s, CallStep(c, answer, id)), p)
  {
  }

  lemma OtherProcOk(s: State, c: CallId, answer: Answer, id: ProcId, p: ProcId)
    requires RefsOk(s) && Enabled(s, CallStep(c, answer, id)) && CallOk(s, c)
    requires p in s.procs && ProcOk(s, p) && s.keeper[p] != ByCall(c)
    ensures p in Do(s, CallStep(c, answer, id)).procs && ProcOk(Do(s, CallStep(c, answer, id)), p)
  {
  }

  lemma CallStepRefsOk(s: State, c: CallId, answer: Answer, id: ProcId)
    requires RefsOk(s) && Enabled(s, CallStep(c, answer, id)) && CallOk(s, c)
    ensures RefsOk(Do(s, CallStep(c, answer, id)))
  {
  }

  lemma CallStepInv(s: State, c: CallId, answer: Answer, id: ProcId)
    requires Inv(s) && Enabled(s, CallStep(c, answer, id))
    ensures Inv(Do(s, CallStep(c, answer, id)))
  {
    var t := Do(s, CallStep(c, answer, id));
    assert CallOk(s, c);
    CallStepRefsOk(s, c, answer, id);
    forall d | d in t.calls ensures CallOk(t, d) {
      assert CallOk(s, d);
      if d == c {
        StepperOk(s, c, answer, id);
      } else {
        BystanderOk(s, c, answer, id, d);
      }
    }
    forall p | p in t.procs ensures ProcOk(t, p) {
      assert p in s.procs ==> ProcOk(s, p);
      if p in s.procs && s.keeper[p] != ByCall(c) {
        OtherProcOk(s, c, answer, id, p);
      } else {
        OwnProcOk(s, c, answer, id, p);
      }
    }
  }

  lemma OtherStepInv(s: State, a: Action)
    requires Inv(s) && Enabled(s, a) && !a.CallStep?
    ensures Inv(Do(s, a))
  {
  }

  lemma StepInv(s: State, a: Action)
    requires Inv(s)
    ensures Inv(Step(s, a))
  {
    if Enabled(s, a) {
      if a.CallStep? {
        CallStepInv(s, a.c, a.answer, a.id);
      } else {
        OtherStepInv(s, a);
      }
    }
  }

  lemma {:induction false} RunInv(acts: seq<Action>)
    ensures Inv(After(Initial, acts))
  {
    if acts != [] {
      RunInv(acts[..|acts| - 1]);
      StepInv(After(Initial, acts[..|acts| - 1]), acts[|acts| - 1]);
    }
  }

  // ---------------------------------------------------------------------------------------------
  // The guarantees

  predicate Owns(s: State, c: CallId, p: ProcId) { c in s.calls && Owned(s.calls[c]) == Of(p) }

  /** Every spawned process is tracked by the manager, or owned by exactly one running call, or has
      exited, or has had its termination requested; and never two of the first two at once. */
  lemma EveryProcessHasAKeeper(acts: seq<Action>, p: ProcId)
    ensures var s := After(Initial, acts);
      && (p in s.procs ==> s.cmd == Of(p) || (exists c :: Owns(s, c, p)) || s.procs[p].exited || s.procs[p].killed)
      && (forall c, d :: Owns(s, c, p) && Owns(s, d, p) ==> c == d)
      && (s.cmd == Of(p) ==> forall c :: !Owns(s, c, p))
  {
    RunInv(acts);
    var s := After(Initial, acts);
    forall c | Owns(s, c, p) ensures p in s.keeper && s.keeper[p] == ByCall(c) {
      assert CallOk(s, c);
    }
    if p in s.procs {
      assert ProcOk(s, p);
      if s.keeper[p].ByCall? {
        assert Owns(s, s.keeper[p].c, p);
      }
    }
  }

  /** The assignment that makes a ready process the tracked one never overwrites another: the manager
      tracks none from the check under the lock until that point. The two references are set and
      cleared together, and at most one call is inside the lock. */
  lemma CommitNeverOverwrites(acts: seq<Action>, c: CallId)
    ensures var s := After(Initial, acts);
      && s.cmd == s.waitCh
      && (c in s.calls && HoldsLock(s.calls[c]) ==> s.lock == HeldBy(c) && s.cmd.Nil?)
  {
    RunInv(acts);
    var s := After(Initial, acts);
    if c in s.calls {
      assert CallOk(s, c);
    }
  }

  predicate AtLarge(s: State, p: ProcId) { p in s.procs && !s.procs[p].exited && !s.procs[p].killed }

  /** Two processes can be at large at once only if a stop call is still dealing with one of them: apart
      from those, there is at most one. */
  lemma AtMostOneApartFromStops(acts: seq<Action>, p: ProcId, q: ProcId)
    ensures var s := After(Initial, acts);
      AtLarge(s, p) && AtLarge(s, q) && p != q ==>
        exists c :: c in s.calls && Stopping(s.calls[c]) && (Owns(s, c, p) || Owns(s, c, q))
  {
    RunInv(acts);
    var s := After(Initial, acts);
    if AtLarge(s, p) && AtLarge(s, q) && p != q {
      assert ProcOk(s, p) && ProcOk(s, q);
      if s.keeper[p].ByCall? {
        assert CallOk(s, s.keeper[p].c);
      }
      if s.keeper[q].ByCall? {
        assert CallOk(s, s.keeper[q].c);
      }
    }
  }

  /** The exit result is received at most once, and never before the process has exited. */
  lemma ExitConsumedOnce(acts: seq<Action>, p: ProcId)
    ensures var s := After(Initial, acts);
      p in s.procs ==> s.procs[p].taken <= 1 && (s.procs[p].taken == 1 ==> s.procs[p].exited)
  {
    RunInv(acts);
    var s := After(Initial, acts);
    if p in s.procs {
      assert ProcOk(s, p);
    }
  }

  // ---------------------------------------------------------------------------------------------
  // How calls end

  predicate Changed(s: State, a: Action, c: CallId)
    requires Enabled(s, a)
  {
    c in s.calls && Do(s, a).calls[c] != s.calls[c]
  }

  /** What a call leaves behind when it ends: ensureStarted finds a running process, which stays tracked,
      or has spawned none, or tracks the one it has started, or has told that to terminate; stop finds
      none running, or its process has exited, or was told to terminate, and it is not tracked. */
  predicate EndsWith(s: State, t: State, c: CallId)
    requires c in s.calls
  {
    match s.calls[c]
    case EnsureBegin => IsRunning(s) && t.cmd == s.cmd && t.procs == s.procs
    case EnsureSpawn => t.cmd.Nil? && t.procs == s.procs
    case EnsureCommit(p) => t.cmd == Of(p)
    case EnsureAbort(p) => t.cmd.Nil? && p in t.procs && t.procs[p].killed
    case EnsureReap(p) => t.cmd.Nil? && p in t.procs && t.procs[p].killed
    case StopBegin => !IsRunning(s) && t.cmd.Nil?
    case StopWait(p) => t.cmd != Of(p) && p in t.procs && t.procs[p].exited
    case StopReap(p) => t.cmd != Of(p) && p in t.procs && t.procs[p].killed
    case SnapshotBegin => t.cmd == if FindsExit(s) then Nil else s.cmd
    case _ => false
  }

  /** In every run, the step with which a call ends leaves that behind. */
  lemma CallEndsWith(acts: seq<Action>, a: Action, c: CallId)
    requires Enabled(After(Initial, acts), a) && Changed(After(Initial, acts), a, c)
    requires Do(After(Initial, acts), a).calls[c].Finished?
    ensures EndsWith(After(Initial, acts), Do(After(Initial, acts), a), c)
  {
    RunInv(acts);
    EndStep(After(Initial, acts), a, c);
  }

  lemma EndStep(s: State, a: Action, c: CallId)
    requires Inv(s) && Enabled(s, a) && Changed(s, a, c) && Do(s, a).calls[c].Finished?
    ensures EndsWith(s, Do(s, a), c)
  {
    assert CallOk(s, c);
    if s.calls[c].StopWait? {
      assert ProcOk(s, s.calls[c].p);
    }
  }

  /** Step i of the run was the answer that process p is ready. */
  predicate FoundReadyAt(acts: seq<Action>, i: nat, p: ProcId) {
    i < |acts| && acts[i].CallStep? && acts[i].answer.Good?
    && var s := After(Initial, acts[..i]);
       acts[i].c in s.calls && s.calls[acts[i].c] == EnsureProbe(p)
  }

  predicate Committing(s: State, p: ProcId) { exists c :: c in s.calls && s.calls[c] == EnsureCommit(p) }

  lemma CommitsOnlyReady(s: State, a: Action, p: ProcId)
    requires Enabled(s, a)
    ensures Do(s, a).cmd == Of(p) && s.cmd != Of(p) ==> Committing(s, p)
    ensures Committing(Do(s, a), p) && !Committing(s, p) ==>
              a.CallStep? && a.answer.Good? && s.calls[a.c] == EnsureProbe(p)
  {
  }

  /** In every run, a process that is tracked, or about to be, was found ready before. */
  lemma {:induction false} TrackedWasReady(acts: seq<Action>, p: ProcId) returns (i: nat)
    requires After(Initial, acts).cmd == Of(p) || Committing(After(Initial, acts), p)
    ensures FoundReadyAt(acts, i, p)
  {
    var n := |acts| - 1;
    var s := After(Initial, acts[..n]);
    if s.cmd == Of(p) || Committing(s, p) {
      i := TrackedWasReady(acts[..n], p);
      assert acts[..n][..i] == acts[..i];
    } else {
      i := n;
      CommitsOnlyReady(s, acts[n], p);
    }
  }

  /** How many steps a call has still got at most. */
  function StepsLeft(c: Call): nat {
    match c
    case EnsureBegin => 7
    case EnsureSpawn => 6
    case EnsureAfterStart(_) => 5
    case EnsureAbort(_) => 1
    case EnsureProbe(_) => 4
    case EnsureKill(_) => 2
    case EnsureReap(_) => 1
    case EnsureCommit(_) => 1
    case StopBegin => 5
    case StopSignal(_) => 4
    case StopWait(_) => 3
    case StopKill(_) => 2
    case StopReap(_) => 1
    case SnapshotBegin => 1
    case Finished => 0
  }

  predicate AtBegin(c: Call) { c.EnsureBegin? || c.StopBegin? || c.SnapshotBegin? }

  /** In every run, no call waits for ever for a process to exit or to get ready: unless it has finished,
      it can take a step without such an answer, or it waits for the lock, whose holder can. And each
      step of its own, with whatever answer, brings a call nearer to its end. */
  lemma NoCallIsStuck(acts: seq<Action>, c: CallId, id: ProcId)
    requires c in After(Initial, acts).calls && id !in After(Initial, acts).procs
    ensures var s := After(Initial, acts);
      && (s.calls[c].Finished? || Enabled(s, CallStep(c, Bad, id)) || (AtBegin(s.calls[c]) && s.lock.HeldBy?))
      && (s.lock.HeldBy? ==> Enabled(s, CallStep(s.lock.call, Bad, id)))
      && forall answer :: Enabled(s, CallStep(c, answer, id)) ==>
           StepsLeft(NextCall(s, c, answer, id)) < StepsLeft(s.calls[c])
  {
    RunInv(acts);
    var s := After(Initial, acts);
    CanStep(s, c, id);
    OwnStepsAreFew(s, c, id);
    if s.lock.HeldBy? {
      CanStep(s, s.lock.call, id);
    }
  }

  lemma CanStep(s: State, c: CallId, id: ProcId)
    requires c in s.calls && CallOk(s, c) && id !in s.procs
    ensures s.calls[c].Finished? || Enabled(s, CallStep(c, Bad, id)) || (AtBegin(s.calls[c]) && s.lock.HeldBy?)
  {
  }

  lemma OwnStepsAreFew(s: State, c: CallId, id: ProcId)
    requires c in s.calls
    ensures forall answer :: Enabled(s, CallStep(c, answer, id)) ==>
              StepsLeft(NextCall(s, c, answer, id)) < StepsLeft(s.calls[c])
  {
  }

  lemma Then(s0: State, acts: seq<Action>, s: State, a: Action, t: State) returns (more: seq<Action>)
    requires After(s0, acts) == s && Step(s, a) == t
    ensures After(s0, more) == t && more == acts + [a]
  {
    more := acts + [a];
    assert more[..|more| - 1] == acts;
  }

  /** A closed channel stays readable, whoever reads it. */
  lemma {:induction false} ClosedStaysReadable(s: State, acts: seq<Action>, p: ProcId)
    requires p in s.procs && s.procs[p].waiter.Closed? && Inv(s)
    ensures Inv(After(s, acts)) && p in After(s, acts).procs && After(s, acts).procs[p].waiter.Closed?
    ensures Readable(After(s, acts).procs[p])
  {
    if acts != [] {
      var t := After(s, acts[..|acts| - 1]);
      ClosedStaysReadable(s, acts[..|acts| - 1], p);
      StepInv(t, acts[|acts| - 1]);
      ClosedStays(t, acts[|acts| - 1], p);
    }
  }

  lemma ClosedStays(s: State, a: Action, p: ProcId)
    requires Inv(s) && p in s.procs && s.procs[p].waiter.Closed?
    ensures p in Step(s, a).procs && Step(s, a).procs[p].waiter.Closed?
  {
    assert ProcOk(s, p);
    if a.CallStep? && a.c in s.calls {
      assert CallOk(s, a.c);
    }
  }

  /** The exit is for good, and the waiting goroutine only goes forward, by its own two steps. */
  lemma WaiterGoesOn(s: State, a: Action, p: ProcId)
    requires Inv(s) && p in s.procs && s.procs[p].exited && !s.procs[p].waiter.NotStarted?
    ensures p in Step(s, a).procs && Step(s, a).procs[p].exited
    ensures Step(s, a).procs[p].waiter ==
            if a == WaiterSends(p) && s.procs[p].waiter.Running? then SentResult
            else if a == WaiterCloses(p) && s.procs[p].waiter.SentResult? then Closed
            else s.procs[p].waiter
  {
    assert ProcOk(s, p);
    if a.CallStep? && a.c in s.calls {
      assert CallOk(s, a.c);
    }
  }

  predicate Sends(acts: seq<Action>, p: ProcId, i: nat) { i < |acts| && acts[i] == WaiterSends(p) }

  predicate Closes(acts: seq<Action>, p: ProcId, i: nat) { i < |acts| && acts[i] == WaiterCloses(p) }

  predicate Awaited(s: State, p: ProcId) {
    Inv(s) && p in s.procs && s.procs[p].exited && !s.procs[p].waiter.NotStarted?
  }

  lemma {:induction false} StaysAwaited(s: State, acts: seq<Action>, p: ProcId)
    requires Awaited(s, p)
    ensures Awaited(After(s, acts), p)
  {
    if acts != [] {
      var n := |acts| - 1;
      StaysAwaited(s, acts[..n], p);
      StepInv(After(s, acts[..n]), acts[n]);
      WaiterGoesOn(After(s, acts[..n]), acts[n], p);
    }
  }

  lemma {:induction false} SendArrives(s: State, acts: seq<Action>, p: ProcId, i: nat)
    requires Awaited(s, p) && Sends(acts, p, i)
    ensures p in After(s, acts).procs && !After(s, acts).procs[p].waiter.Running?
  {
    var n := |acts| - 1;
    StaysAwaited(s, acts[..n], p);
    WaiterGoesOn(After(s, acts[..n]), acts[n], p);
    if i < n {
      SendArrives(s, acts[..n], p, i);
    }
  }

  /** Once a process has exited, a receive from its channel never blocks for good, even if its result
      was received before: in every run in which the waiting goroutine sends and later closes, whatever
      happens before, between and after, the channel is closed in the end and so readable for ever. */
  lemma {:induction false} ReceiveNeverBlocks(s: State, acts: seq<Action>, p: ProcId, i: nat, j: nat)
    requires Awaited(s, p) && i < j && Sends(acts, p, i) && Closes(acts, p, j)
    ensures p in After(s, acts).procs && After(s, acts).procs[p].waiter.Closed? && Readable(After(s, acts).procs[p])
  {
    var n := |acts| - 1;
    StaysAwaited(s, acts, p);
    StaysAwaited(s, acts[..n], p);
    WaiterGoesOn(After(s, acts[..n]), acts[n], p);
    if j < n {
      ReceiveNeverBlocks(s, acts[..n], p, i, j);
    } else {
      SendArrives(s, acts[..n], p, i);
    }
  }

  /** "At most one live process" is not a guarantee: stop gives the lock back before the process it
      stops has exited, so a new one can be started and tracked meanwhile. */
  lemma TwoAtLarge() returns (acts: seq<Action>)
    ensures var s := After(Initial, acts); AtLarge(s, 0) && AtLarge(s, 1) && s.cmd == Of(1)
  {
    var s;
    acts, s := StartsOne(Initial, [], Initial, 0, 0);
    var s1 := s.(calls := s.calls[1 := StopBegin]);
    var s2 := s1.(calls := s1.calls[1 := StopSignal(0)], cmd := Nil, waitCh := Nil, keeper := s1.keeper[0 := ByCall(1)]);
    acts := Then(Initial, acts, s, Arrive(1, Stop), s1);
    acts := Then(Initial, acts, s1, CallStep(1, Good, 0), s2);
    acts, s := StartsOne(Initial, acts, s2, 2, 1);
  }

  lemma StartsOne(s0: State, acts: seq<Action>, s: State, c: CallId, p: ProcId) returns (more: seq<Action>, t: State)
    requires After(s0, acts) == s && s.lock.Free? && s.cmd.Nil? && s.waitCh.Nil? && c !in s.calls && p !in s.procs
    ensures After(s0, more) == t
    ensures t == State(Free, Of(p), Of(p), s.procs[p := Proc(false, false, Running, 0)], s.calls[c := Finished],
                       s.keeper[p := Manager])
  {
    var s1 := s.(calls := s.calls[c := EnsureBegin]);
    var s2 := s.(calls := s.calls[c := EnsureSpawn], lock := HeldBy(c));
    more := Then(s0, acts, s, Arrive(c, Ensure), s1);
    more := Then(s0, more, s1, CallStep(c, Good, p), s2);
    more, t := GetsReady(s0, more, s2, c, p);
  }

  lemma GetsReady(s0: State, acts: seq<Action>, s: State, c: CallId, p: ProcId) returns (more: seq<Action>, t: State)
    requires After(s0, acts) == s && s.lock == HeldBy(c) && s.cmd.Nil? && s.waitCh.Nil? && p !in s.procs
    requires c in s.calls && s.calls[c].EnsureSpawn?
    ensures After(s0, more) == t
    ensures t == State(Free, Of(p), Of(p), s.procs[p := Proc(false, false, Running, 0)], s.calls[c := Finished],
                       s.keeper[p := Manager])
  {
    more, t := Launches(s0, acts, s, c, p);
    more, t := GetsTracked(s0, more, t, c, p);
  }

  lemma Launches(s0: State, acts: seq<Action>, s: State, c: CallId, p: ProcId) returns (more: seq<Action>, t: State)
    requires After(s0, acts) == s && s.lock == HeldBy(c) && p !in s.procs && c in s.calls && s.calls[c].EnsureSpawn?
    ensures After(s0, more) == t
    ensures t == s.(calls := s.calls[c := EnsureProbe(p)], keeper := s.keeper[p := ByCall(c)],
                    procs := s.procs[p := Proc(false, false, Running, 0)])
  {
    more, t := Spawns(s0, acts, s, c, p);
    more, t := SetsUp(s0, more, t, c, p);
  }

  lemma GetsTracked(s0: State, acts: seq<Action>, s: State, c: CallId, p: ProcId) returns (more: seq<Action>, t: State)
    requires After(s0, acts) == s && s.lock == HeldBy(c) && p in s.procs && c in s.calls && s.calls[c] == EnsureProbe(p)
    ensures After(s0, more) == t
    ensures t == State(Free, Of(p), Of(p), s.procs, s.calls[c := Finished], s.keeper[p := Manager])
  {
    more, t := FindsReady(s0, acts, s, c, p);
    more, t := Commits(s0, more, t, c, p);
  }

  lemma Spawns(s0: State, acts: seq<Action>, s: State, c: CallId, p: ProcId) returns (more: seq<Action>, t: State)
    requires After(s0, acts) == s && s.lock == HeldBy(c) && p !in s.procs && c in s.calls && s.calls[c].EnsureSpawn?
    ensures After(s0, more) == t
    ensures t == s.(calls := s.calls[c := EnsureAfterStart(p)], keeper := s.keeper[p := ByCall(c)],
                    procs := s.procs[p := Proc(false, false, NotStarted, 0)])
  {
    t := s.(calls := s.calls[c := EnsureAfterStart(p)], keeper := s.keeper[p := ByCall(c)],
            procs := s.procs[p := Proc(false, false, NotStarted, 0)]);
    more := Then(s0, acts, s, CallStep(c, Good, p), t);
  }

  lemma SetsUp(s0: State, acts: seq<Action>, s: State, c: CallId, p: ProcId) returns (more: seq<Action>, t: State)
    requires After(s0, acts) == s && s.lock == HeldBy(c) && p in s.procs && c in s.calls && s.calls[c] == EnsureAfterStart(p)
    ensures After(s0, more) == t
    ensures t == s.(calls := s.calls[c := EnsureProbe(p)], keeper := s.keeper[p := ByCall(c)],
                    procs := s.procs[p := s.procs[p].(waiter := Running)])
  {
    t := s.(calls := s.calls[c := EnsureProbe(p)], keeper := s.keeper[p := ByCall(c)],
            procs := s.procs[p := s.procs[p].(waiter := Running)]);
    more := Then(s0, acts, s, CallStep(c, Good, p), t);
  }

  lemma FindsReady(s0: State, acts: seq<Action>, s: State, c: CallId, p: ProcId) returns (more: seq<Action>, t: State)
    requires After(s0, acts) == s && s.lock == HeldBy(c) && p in s.procs && c in s.calls && s.calls[c] == EnsureProbe(p)
    ensures After(s0, more) == t
    ensures t == s.(calls := s.calls[c := EnsureCommit(p)], keeper := s.keeper[p := ByCall(c)])
  {
    t := s.(calls := s.calls[c := EnsureCommit(p)], keeper := s.keeper[p := ByCall(c)]);
    more := Then(s0, acts, s, CallStep(c, Good, p), t);
  }

  lemma Commits(s0: State, acts: seq<Action>, s: State, c: CallId, p: ProcId) returns (more: seq<Action>, t: State)
    requires After(s0, acts) == s && c in s.calls && s.calls[c] == EnsureCommit(p)
    ensures After(s0, more) == t
    ensures t == State(Free, Of(p), Of(p), s.procs, s.calls[c := Finished], s.keeper[p := Manager])
  {
    t := State(Free, Of(p), Of(p), s.procs, s.calls[c := Finished], s.keeper[p := Manager]);
    more := Then(s0, acts, s, CallStep(c, Good, p), t);
  }

  // ---------------------------------------------------------------------------------------------
  // How two come to be at large: whenever a stop call deals with one of them

  /** Call c deals with process p, which it is to stop and which is still at large. */
  predicate StopsAtLarge(s: State, c: CallId, p: ProcId) {
    Owns(s, c, p) && Stopping(s.calls[c]) && AtLarge(s, p)
  }

  lemma OthersLeaveIt(s: State, e: CallId, answer: Answer, id: ProcId, c: CallId, p: ProcId)
    requires Inv(s) && StopsAtLarge(s, c, p) && e != c && Enabled(s, CallStep(e, answer, id))
    ensures StopsAtLarge(Do(s, CallStep(e, answer, id)), c, p)
  {
    assert CallOk(s, c) && CallOk(s, e);
  }

  /** A call that is inside the lock can come to its end without starting anything. */
  lemma {:induction false} LeavesLock(s0: State, acts: seq<Action>, s: State, c: CallId, p: ProcId, q: ProcId)
    returns (more: seq<Action>, t: State)
    requires After(s0, acts) == s && Inv(s) && StopsAtLarge(s, c, p) && q !in s.procs
    ensures After(s0, more) == t && Inv(t) && StopsAtLarge(t, c, p) && t.lock.Free?
    ensures t.calls.Keys == s.calls.Keys && t.procs.Keys == s.procs.Keys
    decreases if s.lock.HeldBy? && s.lock.call in s.calls then StepsLeft(s.calls[s.lock.call]) else 0
  {
    if s.lock.Free? {
      return acts, s;
    }
    var e := s.lock.call;
    var a := CallStep(e, Bad, q);
    LockStep(s, c, p, q);
    more := Then(s0, acts, s, a, Do(s, a));
    more, t := LeavesLock(s0, more, Do(s, a), c, p, q);
  }

  lemma LockStep(s: State, c: CallId, p: ProcId, q: ProcId)
    requires Inv(s) && StopsAtLarge(s, c, p) && q !in s.procs && s.lock.HeldBy?
    ensures Enabled(s, CallStep(s.lock.call, Bad, q))
    ensures var t := Do(s, CallStep(s.lock.call, Bad, q));
      && Inv(t) && StopsAtLarge(t, c, p) && t.calls.Keys == s.calls.Keys && t.procs.Keys == s.procs.Keys
      && s.lock.call in s.calls
      && (t.lock.Free? || (t.lock == s.lock && StepsLeft(t.calls[s.lock.call]) < StepsLeft(s.calls[s.lock.call])))
  {
    var e := s.lock.call;
    assert CallOk(s, e) && CallOk(s, c);
    CallStepInv(s, e, Bad, q);
    OthersLeaveIt(s, e, Bad, q, c, p);
  }

  /** What a step of a process or of its goroutine leaves alone. */
  lemma ProcStepLeavesIt(s: State, a: Action, c: CallId, p: ProcId)
    requires Inv(s) && StopsAtLarge(s, c, p) && Enabled(s, a)
    requires (a.Exit? || a.WaiterSends? || a.WaiterCloses?) && a.p != p
    ensures Inv(Do(s, a)) && StopsAtLarge(Do(s, a), c, p) && Do(s, a) == s.(procs := Do(s, a).procs)
    ensures Do(s, a).procs.Keys == s.procs.Keys
  {
    StepInv(s, a);
  }

  /** A tracked process that is not at large any more comes to be seen as exited. */
  lemma {:induction false} ExitIsSeen(s0: State, acts: seq<Action>, s: State, c: CallId, p: ProcId)
    returns (more: seq<Action>, t: State)
    requires After(s0, acts) == s && Inv(s) && StopsAtLarge(s, c, p) && s.lock.Free? && s.cmd.Of?
    ensures After(s0, more) == t && Inv(t) && StopsAtLarge(t, c, p) && FindsExit(t) && t == s.(procs := t.procs)
    ensures t.procs.Keys == s.procs.Keys
    decreases if s.cmd.id !in s.procs || s.procs[s.cmd.id].waiter.Closed? then 0
              else if s.procs[s.cmd.id].waiter.SentResult? then 1 else if s.procs[s.cmd.id].exited then 2 else 3
  {
    var r := s.cmd.id;
    assert ProcOk(s, r) && CallOk(s, c);
    if Readable(s.procs[r]) {
      return acts, s;
    }
    var a := if !s.procs[r].exited then Exit(r) else if s.procs[r].waiter.Running? then WaiterSends(r) else WaiterCloses(r);
    ProcStepLeavesIt(s, a, c, p);
    more := Then(s0, acts, s, a, Do(s, a));
    more, t := ExitIsSeen(s0, more, Do(s, a), c, p);
  }

  /** In every state in which a stop call deals with a process that is still at large, another process
      is at large or can come to be: some run leads to two. */
  lemma SecondAtLarge(s: State, c: CallId, p: ProcId, d: CallId, q: ProcId) returns (acts: seq<Action>, r: ProcId)
    requires Inv(s) && StopsAtLarge(s, c, p) && d !in s.calls && q !in s.procs
    ensures r != p && AtLarge(After(s, acts), p) && AtLarge(After(s, acts), r)
  {
    var t;
    acts, t := LeavesLock(s, [], s, c, p, q);
    assert CallOk(t, c);
    if t.cmd.Of? && AtLarge(t, t.cmd.id) {
      r := t.cmd.id;
    } else {
      r := q;
      if t.cmd.Of? {
        acts, t := ExitIsSeen(s, acts, t, c, p);
      }
      acts, t := StartsBeside(s, acts, t, c, p, d, q);
    }
  }

  lemma StartsBeside(s0: State, acts: seq<Action>, s: State, c: CallId, p: ProcId, d: CallId, q: ProcId)
    returns (more: seq<Action>, t: State)
    requires After(s0, acts) == s && Inv(s) && StopsAtLarge(s, c, p) && s.lock.Free? && !IsRunning(s)
    requires d !in s.calls && q !in s.procs && (s.cmd.Of? ==> FindsExit(s))
    ensures After(s0, more) == t && AtLarge(t, p) && AtLarge(t, q) && t.cmd == Of(q)
  {
    var s1 := s.(calls := s.calls[d := EnsureBegin]);
    more := Then(s0, acts, s, Arrive(d, Ensure), s1);
    StepInv(s, Arrive(d, Ensure));
    OthersLeaveIt(s1, d, Good, q, c, p);
    t := Do(s1, CallStep(d, Good, q));
    more := Then(s0, more, s1, CallStep(d, Good, q), t);
    more, t := GetsReady(s0, more, t, d, q);
  }
}
