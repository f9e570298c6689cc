/** The bounded worker pool that starts containers concurrently: up to four workers pull jobs from a
    closed queue, call Start, and report to a results channel that one collector drains. The first
    failure cancels the context that the others look at before they call Start.

    The pool is a transition system. A step is what one goroutine does between two points where the
    others can interfere, and any enabled step may come next. */
module WorkerPool {
  import opened Containers

  const MAX_CREATE_CONCURRENCY: nat := 4

  datatype Worker =
    | Ready
    | Fetched(job: nat)
    | Starting(job: nat)
    | Returned(job: nat, outcome: Outcome)
    | Cancelling
    | Exited

  /** Where a job is. This is history kept for the proofs: no step looks at it. */
  datatype Place = InQueue | AtWorker(w: nat) | Sent(k: nat) | Skipped

  datatype Pool = Pool(
    n: nat,                         // number of registrations
    jobs: seq<nat>,                 // what is left in the closed job channel
    workers: seq<Worker>,
    sent: seq<Result>,              // everything ever sent to the results channel
    received: nat,                  // how much of it the collector has received
    cancelled: bool,                // the pool's own cancel function was called
    parentCancelled: bool,
    parentLive: bool,               // the parent context is never cancelled
    // history
    place: seq<Place>,
    begun: set<nat>,                // the jobs whose Start was called
    answers: map<nat, Outcome>      // what the Starts have returned
  )

  datatype Action =
    | Fetch(w: nat)
    | Exit(w: nat)
    | Skip(w: nat)
    | Begin(w: nat)
    | Return(w: nat, outcome: Outcome)
    | Send(w: nat)
    | Cancel(w: nat)
    | Receive
    | CancelParent

  predicate Full(p: Pool) { |p.sent| - p.received >= p.n }

  predicate CtxErr(p: Pool) { p.cancelled || p.parentCancelled }

  predicate Enabled(p: Pool, a: Action) {
    match a
    case Fetch(w) => w < |p.workers| && p.workers[w].Ready? && p.jobs != []
    case Exit(w) => w < |p.workers| && p.workers[w].Ready? && p.jobs == []
    case Skip(w) => w < |p.workers| && p.workers[w].Fetched? && CtxErr(p)
    case Begin(w) => w < |p.workers| && p.workers[w].Fetched? && !CtxErr(p)
    case Return(w, _) => w < |p.workers| && p.workers[w].Starting?
    case Send(w) => w < |p.workers| && p.workers[w].Returned? && !Full(p)
    case Cancel(w) => w < |p.workers| && p.workers[w].Cancelling?
    case Receive => p.received < |p.sent|
    case CancelParent => !p.parentLive && !p.parentCancelled
  }

  function Put(place: seq<Place>, job: nat, to: Place): seq<Place> {
    if job < |place| then place[job := to] else place
  }

  function Do(p: Pool, a: Action): Pool
    requires Enabled(p, a)
  {
    match a
    case Fetch(w) =>
      p.(workers := p.workers[w := Fetched(p.jobs[0])], place := Put(p.place, p.jobs[0], AtWorker(w)),
         jobs := p.jobs[1..])
    case Exit(w) => p.(workers := p.workers[w := Exited])
    case Skip(w) => p.(workers := p.workers[w := Ready], place := Put(p.place, p.workers[w].job, Skipped))
    case Begin(w) => p.(workers := p.workers[w := Starting(p.workers[w].job)], begun := p.begun + {p.workers[w].job})
    case Return(w, outcome) =>
      p.(workers := p.workers[w := Returned(p.workers[w].job, outcome)],
         answers := p.answers[p.workers[w].job := outcome])
    case Send(w) =>
      p.(workers := p.workers[w := if p.workers[w].outcome.Failed? then Cancelling else Ready],
         place := Put(p.place, p.workers[w].job, Sent(|p.sent|)),
         sent := p.sent + [Result(p.workers[w].job, p.workers[w].outcome)])
    case Cancel(w) => p.(workers := p.workers[w := Ready], cancelled := true)
    case Receive => p.(received := p.received + 1)
    case CancelParent => p.(parentCancelled := true)
  }

  function WorkerCount(n: nat): nat { if n < MAX_CREATE_CONCURRENCY then n else MAX_CREATE_CONCURRENCY }

  function Initial(n: nat, parentLive: bool, parentCancelled: bool): Pool {
    Pool(n, seq(n, i => i), seq(WorkerCount(n), i => Ready), [], 0, false, parentCancelled, parentLive,
         seq(n, i => InQueue), {}, map[])
  }

  /** All workers are gone, so the results channel is closed, and the collector has drained it. */
  predicate Final(p: Pool) {
    (forall w :: 0 <= w < |p.workers| ==> p.workers[w].Exited?) && p.received == |p.sent|
  }

  // ---------------------------------------------------------------------------------------------
  // The invariant

  predicate HasJob(w: Worker) { w.Fetched? || w.Starting? || w.Returned? }

  predicate SomeFailure(sent: seq<Result>) {
    exists k :: 0 <= k < |sent| && sent[k].outcome.Failed?
  }

  predicate SomeCancelling(workers: seq<Worker>) {
    exists w :: 0 <= w < |workers| && workers[w].Cancelling?
  }

  /** A job is where its place says, and so is known whether its Start was called and what it returned. */
  predicate JobOk(p: Pool, j: nat)
    requires j < |p.place|
  {
    && (p.place[j].InQueue? <==> j >= p.n - |p.jobs|)
    && match p.place[j]
       case InQueue => j !in p.begun && j !in p.answers
       case AtWorker(w) =>
         && w < |p.workers| && HasJob(p.workers[w]) && p.workers[w].job == j
         && (j in p.begun <==> !p.workers[w].Fetched?)
         && (j in p.answers <==> p.workers[w].Returned?)
         && (j in p.answers ==> p.answers[j] == p.workers[w].outcome)
       case Sent(k) =>
         && k < |p.sent| && p.sent[k].job == j
         && j in p.begun && j in p.answers && p.answers[j] == p.sent[k].outcome
       case Skipped => CtxErr(p) && j !in p.begun && j !in p.answers
  }

  predicate WorkerOk(p: Pool, w: nat)
    requires w < |p.workers|
  {
    && (HasJob(p.workers[w]) ==> p.workers[w].job < |p.place| && p.place[p.workers[w].job] == AtWorker(w))
    && (p.workers[w].Cancelling? ==> SomeFailure(p.sent))
    && (p.workers[w].Exited? ==> p.jobs == [])
  }

  predicate SentOk(p: Pool, k: nat)
    requires k < |p.sent|
  {
    p.sent[k].job < |p.place| && p.place[p.sent[k].job] == Sent(k)
  }

  /** Every job is in exactly one place: still queued, in the hands of one worker, reported once, or
      skipped; and what its Start returned is still known there. */
  predicate Partitioned(p: Pool) {
    && |p.place| == p.n && |p.jobs| <= p.n
    && (forall i :: 0 <= i < |p.jobs| ==> p.jobs[i] == p.n - |p.jobs| + i)
    && (forall j :: 0 <= j < p.n ==> JobOk(p, j))
    && (forall w :: 0 <= w < |p.workers| ==> WorkerOk(p, w))
    && (forall k :: 0 <= k < |p.sent| ==> SentOk(p, k))
    && (forall j :: j in p.begun ==> j < p.n)
    && (forall j :: j in p.answers ==> j < p.n)
  }

  predicate Inv(p: Pool) {
    && |p.workers| == WorkerCount(p.n)
    && p.received <= |p.sent|
    && (p.cancelled ==> SomeFailure(p.sent))
    && (SomeFailure(p.sent) ==> p.cancelled || SomeCancelling(p.workers))
    && (p.parentLive ==> !p.parentCancelled)
    && Partitioned(p)
  }

  lemma InitialInv(n: nat, parentLive: bool, parentCancelled: bool)
    requires parentLive ==> !parentCancelled
    ensures Inv(Initial(n, parentLive, parentCancelled))
  {
  }

  lemma FailureStays(p: Pool, a: Action)
    requires Enabled(p, a) && SomeFailure(p.sent)
    ensures SomeFailure(Do(p, a).sent)
  {
    var k :| 0 <= k < |p.sent| && p.sent[k].outcome.Failed?;
    assert Do(p, a).sent[k] == p.sent[k];
  }

  predicate HasWorker(a: Action) { !a.Receive? && !a.CancelParent? }

  predicate Shape(p: Pool) {
    |p.place| == p.n && |p.jobs| <= p.n && (p.jobs != [] ==> p.jobs[0] == p.n - |p.jobs|)
  }

  /** The steps that move a job from one place to another. */
  lemma MovedJob(p: Pool, a: Action, j: nat)
    requires Shape(p) && Enabled(p, a) && j < p.n && JobOk(p, j)
    requires (a.Fetch? || a.Skip? || a.Send?) && WorkerOk(p, a.w)
    ensures |Do(p, a).place| == p.n && JobOk(Do(p, a), j)
  {
    match a
    case Fetch(w) =>
    case Skip(w) =>
    case Send(w) =>
  }

  lemma ReturnedJob(p: Pool, w: nat, outcome: Outcome, j: nat)
    requires Shape(p) && Enabled(p, Return(w, outcome)) && j < p.n && JobOk(p, j) && WorkerOk(p, w)
    ensures JobOk(Do(p, Return(w, outcome)), j)
  {
  }

  lemma JobStep(p: Pool, a: Action, j: nat)
    requires Shape(p) && Enabled(p, a) && j < p.n && JobOk(p, j)
    requires HasWorker(a) ==> WorkerOk(p, a.w)
    ensures |Do(p, a).place| == p.n && JobOk(Do(p, a), j)
  {
    match a
    case Fetch(w) => MovedJob(p, a, j);
    case Skip(w) => MovedJob(p, a, j);
    case Send(w) => MovedJob(p, a, j);
    case Return(w, outcome) => ReturnedJob(p, w, outcome, j);
    case _ =>
  }

  /** A worker's own step. */
  lemma OwnWorkerStep(p: Pool, a: Action)
    requires Shape(p) && Enabled(p, a) && HasWorker(a) && WorkerOk(p, a.w)
    requires SomeFailure(p.sent) ==> SomeFailure(Do(p, a).sent)
    requires a.Send? && p.workers[a.w].outcome.Failed? ==> SomeFailure(Do(p, a).sent)
    ensures |Do(p, a).workers| == |p.workers| && WorkerOk(Do(p, a), a.w)
  {
    match a
    case Fetch(v) =>
    case Exit(v) =>
    case Skip(v) =>
    case Begin(v) =>
    case Return(v, outcome) =>
    case Send(v) =>
    case Cancel(v) =>
  }

  /** Another one's, which has another job. */
  lemma OtherWorkerStep(p: Pool, a: Action, w: nat)
    requires Shape(p) && Enabled(p, a) && w < |p.workers| && WorkerOk(p, w)
    requires HasWorker(a) ==> WorkerOk(p, a.w) && a.w != w
    requires HasJob(p.workers[w]) ==> p.workers[w].job < p.n && JobOk(p, p.workers[w].job)
    requires SomeFailure(p.sent) ==> SomeFailure(Do(p, a).sent)
    ensures |Do(p, a).workers| == |p.workers| && WorkerOk(Do(p, a), w)
  {
    assert Do(p, a).workers[w] == p.workers[w];
  }

  lemma WorkerStep(p: Pool, a: Action, w: nat)
    requires Shape(p) && Enabled(p, a) && w < |p.workers| && WorkerOk(p, w)
    requires HasJob(p.workers[w]) ==> p.workers[w].job < p.n && JobOk(p, p.workers[w].job)
    requires HasWorker(a) ==> WorkerOk(p, a.w)
    requires SomeFailure(p.sent) ==> SomeFailure(Do(p, a).sent)
    requires a.Send? && p.workers[a.w].outcome.Failed? ==> SomeFailure(Do(p, a).sent)
    ensures |Do(p, a).workers| == |p.workers| && WorkerOk(Do(p, a), w)
  {
    if HasWorker(a) && a.w == w {
      OwnWorkerStep(p, a);
    } else {
      OtherWorkerStep(p, a, w);
    }
  }

  lemma SentStep(p: Pool, a: Action, k: nat)
    requires Inv(p) && Enabled(p, a) && k < |Do(p, a).sent|
    ensures SentOk(Do(p, a), k)
  {
    if HasWorker(a) {
      assert WorkerOk(p, a.w);
    }
    if k < |p.sent| {
      assert SentOk(p, k);
      assert JobOk(p, p.sent[k].job);
    }
  }

  lemma JobsStep(p: Pool, a: Action)
    requires Inv(p) && Enabled(p, a)
    ensures |Do(p, a).place| == p.n && forall j :: 0 <= j < p.n ==> JobOk(Do(p, a), j)
  {
    assert HasWorker(a) ==> WorkerOk(p, a.w);
    forall j | 0 <= j < p.n ensures |Do(p, a).place| == p.n && JobOk(Do(p, a), j) {
      JobStep(p, a, j);
    }
  }

  /** Only the report of a failure makes a worker cancel. */
  lemma FailureStep(p: Pool, a: Action)
    requires Enabled(p, a)
    ensures SomeFailure(p.sent) ==> SomeFailure(Do(p, a).sent)
    ensures a.Send? && p.workers[a.w].outcome.Failed? ==> SomeFailure(Do(p, a).sent)
  {
    if SomeFailure(p.sent) {
      FailureStays(p, a);
    }
    if a.Send? && p.workers[a.w].outcome.Failed? {
      assert Do(p, a).sent[|p.sent|].outcome.Failed?;
    }
  }

  /** Once a failure is reported, the pool is cancelled, or a worker is about to cancel it. */
  lemma CancelStep(p: Pool, a: Action)
    requires Enabled(p, a) && (SomeFailure(p.sent) ==> p.cancelled || SomeCancelling(p.workers))
    ensures SomeFailure(Do(p, a).sent) ==> Do(p, a).cancelled || SomeCancelling(Do(p, a).workers)
  {
    var q := Do(p, a);
    if a.Send? {
      assert p.workers[a.w].outcome.Failed? ==> q.workers[a.w].Cancelling?;
    }
    if SomeCancelling(p.workers) && !a.Cancel? {
      var v :| 0 <= v < |p.workers| && p.workers[v].Cancelling?;
      assert q.workers[v].Cancelling?;
    }
  }

  lemma WorkersStep(p: Pool, a: Action)
    requires Inv(p) && Enabled(p, a)
    ensures |Do(p, a).workers| == |p.workers|
    ensures forall w :: 0 <= w < |p.workers| ==> WorkerOk(Do(p, a), w)
  {
    FailureStep(p, a);
    assert HasWorker(a) ==> WorkerOk(p, a.w);
    forall w | 0 <= w < |p.workers| ensures WorkerOk(Do(p, a), w) {
      assert WorkerOk(p, w);
      WorkerStep(p, a, w);
    }
  }

  lemma StepInv(p: Pool, a: Action)
    requires Inv(p) && Enabled(p, a)
    ensures Inv(Do(p, a))
  {
    JobsStep(p, a);
    WorkersStep(p, a);
    FailureStep(p, a);
    CancelStep(p, a);
    assert HasWorker(a) ==> WorkerOk(p, a.w);
    forall k | 0 <= k < |Do(p, a).sent| ensures SentOk(Do(p, a), k) {
      SentStep(p, a, k);
    }
  }

  // ---------------------------------------------------------------------------------------------
  // Whole runs

  ghost predicate Run(p: Pool, acts: seq<Action>, q: Pool)
    decreases |acts|
  {
    if acts == [] then p == q else Enabled(p, acts[0]) && Run(Do(p, acts[0]), acts[1..], q)
  }

  /** In every interleaving, the jobs queued, held, reported and skipped partition the registrations. */
  lemma {:induction false} RunInv(p: Pool, acts: seq<Action>, q: Pool)
    requires Inv(p) && Run(p, acts, q)
    ensures Inv(q) && q.n == p.n && q.parentLive == p.parentLive
    decreases |acts|
  {
    if acts != [] {
      StepInv(p, acts[0]);
      RunInv(Do(p, acts[0]), acts[1..], q);
    }
  }

  function ReportedJobs(p: Pool, k: nat): set<nat>
    requires k <= |p.sent|
  {
    set i | 0 <= i < k :: p.sent[i].job
  }

  lemma {:induction false} ReportsAreDistinct(p: Pool, k: nat)
    requires Inv(p) && k <= |p.sent|
    ensures |ReportedJobs(p, k)| == k
  {
    if k > 0 {
      ReportsAreDistinct(p, k - 1);
      assert SentOk(p, k - 1);
      forall i | 0 <= i < k - 1 ensures p.sent[i].job != p.sent[k - 1].job {
        assert SentOk(p, i);
      }
      assert ReportedJobs(p, k) == ReportedJobs(p, k - 1) + {p.sent[k - 1].job};
    }
  }

  function Below(n: nat): (s: set<nat>)
    ensures |s| == n && forall j :: j in s <==> 0 <= j < n
  {
    if n == 0 then {} else Below(n - 1) + {n - 1}
  }

  lemma SubsetSize(a: set<nat>, b: set<nat>)
    requires a <= b
    ensures |a| <= |b|
  {
    assert b == a + (b - a);
  }

  /** A worker with a result to send never finds the results channel full, so no send ever blocks. */
  lemma SendNeverBlocks(p: Pool, w: nat)
    requires Inv(p) && w < |p.workers| && p.workers[w].Returned?
    ensures Enabled(p, Send(w))
  {
    var job := p.workers[w].job;
    assert WorkerOk(p, w);
    forall i | 0 <= i < |p.sent| ensures p.sent[i].job in Below(p.n) - {job} {
      assert SentOk(p, i);
    }
    ReportsAreDistinct(p, |p.sent|);
    SubsetSize(ReportedJobs(p, |p.sent|), Below(p.n) - {job});
  }

  /** Never more than min(4, n) calls of Start overlap. */
  lemma StartsOverlapAtMost(p: Pool)
    requires Inv(p)
    ensures |set w | 0 <= w < |p.workers| && p.workers[w].Starting?| <= MAX_CREATE_CONCURRENCY
    ensures |set w | 0 <= w < |p.workers| && p.workers[w].Starting?| <= p.n
  {
    var starting := set w: nat | 0 <= w < |p.workers| && p.workers[w].Starting?;
    assert starting == set w | 0 <= w < |p.workers| && p.workers[w].Starting?;
    SubsetSize(starting, Below(|p.workers|));
  }

  /** A step is possible until the pool is final: there is no deadlock. */
  lemma Progress(p: Pool) returns (a: Action)
    requires Inv(p) && !Final(p)
    ensures Enabled(p, a) && !a.CancelParent?
  {
    if p.received < |p.sent| {
      a := Receive;
    } else {
      var w :| 0 <= w < |p.workers| && !p.workers[w].Exited?;
      match p.workers[w] {
        case Ready => a := if p.jobs == [] then Exit(w) else Fetch(w);
        case Fetched(_) => a := if CtxErr(p) then Skip(w) else Begin(w);
        case Starting(_) => a := Return(w, Failed);
        case Returned(_, _) =>
          SendNeverBlocks(p, w);
          a := Send(w);
        case Cancelling => a := Cancel(w);
      }
    }
  }

  function Weight(w: Worker): nat {
    match w
    case Exited => 0
    case Ready => 1
    case Cancelling => 2
    case Returned(_, _) => 4
    case Starting(_) => 5
    case Fetched(_) => 6
  }

  function Weights(ws: seq<Worker>): nat {
    if ws == [] then 0 else Weights(ws[..|ws| - 1]) + Weight(ws[|ws| - 1])
  }

  lemma {:induction false} WeightsUpdate(ws: seq<Worker>, w: nat, to: Worker)
    requires w < |ws|
    ensures Weights(ws[w := to]) == Weights(ws) - Weight(ws[w]) + Weight(to)
  {
    var n := |ws| - 1;
    if w == n {
      assert ws[w := to][..n] == ws[..n];
    } else {
      assert ws[w := to][..n] == ws[..n][w := to];
      WeightsUpdate(ws[..n], w, to);
    }
  }

  /** How much is left to do. */
  function Measure(p: Pool): int {
    6 * |p.jobs| + Weights(p.workers) + |p.sent| - p.received + if p.parentCancelled then 0 else 1
  }

  /** Every step is progress, so the pool drains in every interleaving, if only each Start returns. */
  lemma StepDecreases(p: Pool, a: Action)
    requires Inv(p) && Enabled(p, a)
    ensures 0 <= Measure(Do(p, a)) < Measure(p)
  {
    StepInv(p, a);
    if HasWorker(a) {
      WeightsUpdate(p.workers, a.w, Do(p, a).workers[a.w]);
    }
  }

  /** Some Start has failed. */
  predicate SomeFailed(answers: map<nat, Outcome>) {
    exists j :: j in answers && answers[j].Failed?
  }

  /** When the pool is done, what every Start returned has been reported exactly once; its context is
      cancelled if and only if a Start has failed; and if none has and the parent context lives, every
      registration has been started. */
  lemma FinalPool(p: Pool)
    requires Inv(p) && Final(p) && p.n > 0
    ensures forall k :: 0 <= k < |p.sent| ==>
              p.sent[k].job < p.n && p.sent[k].job in p.answers && p.answers[p.sent[k].job] == p.sent[k].outcome
    ensures forall k, l :: 0 <= k < l < |p.sent| ==> p.sent[k].job != p.sent[l].job
    ensures forall j :: j in p.answers ==>
              j < p.n && exists k :: 0 <= k < |p.sent| && p.sent[k] == Result(j, p.answers[j])
    ensures p.answers.Keys == p.begun
    ensures p.cancelled <==> SomeFailed(p.answers)
    ensures SomeFailure(p.sent) <==> SomeFailed(p.answers)
    ensures p.parentLive && !SomeFailed(p.answers) ==> forall j :: 0 <= j < p.n ==> j in p.answers
  {
    assert WorkerOk(p, 0);
    forall k | 0 <= k < |p.sent|
      ensures SentOk(p, k) && p.sent[k].job < p.n
      ensures p.sent[k].job in p.answers && p.answers[p.sent[k].job] == p.sent[k].outcome
    {
      assert SentOk(p, k);
      assert JobOk(p, p.sent[k].job);
    }
    forall j | 0 <= j < p.n
      ensures j in p.begun <==> j in p.answers
      ensures if j in p.answers then exists k :: 0 <= k < |p.sent| && p.sent[k] == Result(j, p.answers[j]) else CtxErr(p)
    {
      assert JobOk(p, j);
      if j in p.answers {
        assert p.sent[p.place[j].k] == Result(j, p.answers[j]);
      }
    }
  }

  /** Let the goroutines run, in any order, until all are done. A worker that is in Start makes the one call
      of it, and learns what it returns. */
  method RunPool(docker: Docker, n: nat, parentLive: bool, parentCancelled: bool)
    returns (p: Pool, ghost calls: seq<Result>)
    requires parentLive ==> !parentCancelled
    modifies docker`starts
    ensures Inv(p) && Final(p) && p.n == n && p.parentLive == parentLive
    ensures docker.starts == old(docker.starts) + calls
    ensures p.answers == Answers(calls) && |calls| == |p.answers|
    ensures parentCancelled ==> calls == []
  {
    p, calls := Initial(n, parentLive, parentCancelled), [];
    InitialInv(n, parentLive, parentCancelled);
    while !Final(p)
      invariant Inv(p) && p.n == n && p.parentLive == parentLive
      invariant Measure(p) >= 0
      invariant docker.starts == old(docker.starts) + calls
      invariant p.answers == Answers(calls) && |calls| == |p.answers|
      invariant parentCancelled ==> p.parentCancelled && p.begun == {} && calls == []
      decreases Measure(p)
    {
      ghost var next := Progress(p);
      var a: Action :| Enabled(p, a);
      NotAnsweredTwice(p, a);
      if a.Return? {
        var outcome := docker.Start(p.workers[a.w].job);
        a := Return(a.w, outcome);
        AnswersNext(calls, Result(p.workers[a.w].job, outcome));
        calls := calls + [Result(p.workers[a.w].job, outcome)];
      }
      StepInv(p, a);
      StepDecreases(p, a);
      AnswersStep(p, a);
      p := Do(p, a);
    }
  }

  /** Only a Start that returns adds an answer, and none is called in a cancelled context. */
  lemma AnswersStep(p: Pool, a: Action)
    requires Enabled(p, a)
    ensures !a.Return? ==> Do(p, a).answers == p.answers
    ensures a.Return? ==> Do(p, a).answers == p.answers[p.workers[a.w].job := a.outcome]
    ensures p.parentCancelled ==> Do(p, a).parentCancelled && Do(p, a).begun == p.begun
    ensures Do(p, a).n == p.n && Do(p, a).parentLive == p.parentLive
  {
  }

  /** A Start is called at most once, so it returns at most once. */
  lemma NotAnsweredTwice(p: Pool, a: Action)
    requires Inv(p) && Enabled(p, a)
    ensures a.Begin? ==> p.workers[a.w].job !in p.begun
    ensures a.Return? ==> p.workers[a.w].job in p.begun && p.workers[a.w].job !in p.answers
  {
    if a.Begin? || a.Return? {
      assert WorkerOk(p, a.w);
      assert JobOk(p, p.workers[a.w].job);
    }
  }

  // ---------------------------------------------------------------------------------------------
  // What the cancellation achieves

  lemma {:induction false} NoneBegins(p: Pool, acts: seq<Action>, q: Pool)
    requires CtxErr(p) && Run(p, acts, q)
    ensures q.begun == p.begun && CtxErr(q) && |q.workers| == |p.workers|
    decreases |acts|
  {
    if acts != [] {
      NoneBegins(Do(p, acts[0]), acts[1..], q);
    }
  }

  /** The jobs in the hands of the first k workers whose Start has not returned. */
  function StartingJobs(p: Pool, k: nat): set<nat>
    requires k <= |p.workers|
  {
    if k == 0 then {}
    else if p.workers[k - 1].Starting? then StartingJobs(p, k - 1) + {p.workers[k - 1].job}
    else StartingJobs(p, k - 1)
  }

  lemma {:induction false} FewStarting(p: Pool, k: nat, w: nat)
    requires k <= |p.workers| && w < |p.workers| && !p.workers[w].Starting?
    ensures |StartingJobs(p, k)| <= if w < k then k - 1 else k
  {
    if k > 0 {
      FewStarting(p, k - 1, w);
    }
  }

  lemma AnsweredHaveBegun(p: Pool, j: nat)
    requires Inv(p) && j < p.n
    ensures j in p.answers ==> j in p.begun
    ensures j in p.begun && j !in p.answers ==> j in StartingJobs(p, |p.workers|)
  {
    assert JobOk(p, j);
    if p.place[j].AtWorker? && p.workers[p.place[j].w].Starting? {
      HoldsJob(p, |p.workers|, p.place[j].w);
    }
  }

  lemma {:induction false} HoldsJob(p: Pool, k: nat, w: nat)
    requires w < k <= |p.workers| && p.workers[w].Starting?
    ensures p.workers[w].job in StartingJobs(p, k)
  {
    if w < k - 1 {
      HoldsJob(p, k - 1, w);
    }
  }

  /** From the moment at which a worker cancels the pool after a failure, no Start is called any more, in
      no run. So every job that was not begun by then is skipped, and besides what had been answered
      before, only the other workers' calls return: three at most. */
  lemma NoStartAfterCancel(p: Pool, w: nat, acts: seq<Action>, q: Pool)
    requires Inv(p) && Enabled(p, Cancel(w)) && Run(Do(p, Cancel(w)), acts, q)
    ensures forall v :: !Enabled(q, Begin(v))
    ensures q.begun == p.begun
    ensures |q.place| == p.n && (Final(q) ==> forall j :: 0 <= j < p.n && j !in p.begun ==> q.place[j].Skipped?)
    ensures |q.answers| <= |p.answers| + WorkerCount(p.n) - 1
  {
    var c := Do(p, Cancel(w));
    StepInv(p, Cancel(w));
    RunInv(c, acts, q);
    NoneBegins(c, acts, q);
    assert w < |q.workers| && |q.workers| == |p.workers|;
    if Final(q) {
      assert WorkerOk(q, w);
      forall j | 0 <= j < p.n && j !in p.begun ensures q.place[j].Skipped? {
        assert JobOk(q, j);
      }
    }
    FewAnswersLeft(p, w, q);
  }

  lemma FewAnswersLeft(p: Pool, w: nat, q: Pool)
    requires Inv(p) && Inv(q) && q.n == p.n && q.begun == p.begun && w < |p.workers| && !p.workers[w].Starting?
    ensures |q.answers| <= |p.answers| + |p.workers| - 1
  {
    var pending := StartingJobs(p, |p.workers|);
    forall j | j in q.answers ensures j in p.answers.Keys + pending {
      AnsweredHaveBegun(q, j);
      AnsweredHaveBegun(p, j);
    }
    FewStarting(p, |p.workers|, w);
    SubsetSize(q.answers.Keys, p.answers.Keys + pending);
  }

  /** With a parent context that is cancelled from the outset, no Start is called at all. */
  lemma NoStartIfCancelled(n: nat, acts: seq<Action>, q: Pool)
    requires Run(Initial(n, false, true), acts, q)
    ensures q.begun == {} && q.answers == map[]
  {
    var p := Initial(n, false, true);
    InitialInv(n, false, true);
    RunInv(p, acts, q);
    NoneBegins(p, acts, q);
    forall j | j in q.answers ensures false {
      AnsweredHaveBegun(q, j);
    }
  }

  lemma {:induction false} RunsOn(p: Pool, acts: seq<Action>, q: Pool, a: Action)
    requires Run(p, acts, q) && Enabled(q, a)
    ensures Run(p, acts + [a], Do(q, a))
    decreases |acts|
  {
    if acts == [] {
      assert [a][1..] == [];
    } else {
      RunsOn(Do(p, acts[0]), acts[1..], q, a);
      assert (acts + [a])[1..] == acts[1..] + [a];
    }
  }

  /** The worker takes the next job and calls its Start. */
  lemma BeginsNext(p0: Pool, acts: seq<Action>, p: Pool, w: nat) returns (more: seq<Action>, q: Pool)
    requires Inv(p) && Run(p0, acts, p) && w < |p.workers| && p.workers[w].Ready? && p.jobs != [] && !CtxErr(p)
    ensures Run(p0, more, q) && Inv(q) && |q.jobs| == |p.jobs| - 1
    ensures q == p.(jobs := q.jobs, place := q.place, begun := q.begun, workers := p.workers[w := Starting(p.jobs[0])])
  {
    more, q := acts + [Fetch(w)] + [Begin(w)], Do(Do(p, Fetch(w)), Begin(w));
    RunsOn(p0, acts, p, Fetch(w));
    RunsOn(p0, acts + [Fetch(w)], Do(p, Fetch(w)), Begin(w));
    StepInv(p, Fetch(w));
    StepInv(Do(p, Fetch(w)), Begin(w));
  }

  /** Its Start returns, and that is reported. */
  lemma Reports(p0: Pool, acts: seq<Action>, p: Pool, w: nat, outcome: Outcome) returns (more: seq<Action>, q: Pool)
    requires Inv(p) && Run(p0, acts, p) && w < |p.workers| && p.workers[w].Starting?
    ensures Run(p0, more, q) && Inv(q)
    ensures q == p.(place := q.place, answers := q.answers, sent := p.sent + [Result(p.workers[w].job, outcome)],
                    workers := p.workers[w := if outcome.Failed? then Cancelling else Ready])
  {
    var r := Do(p, Return(w, outcome));
    StepInv(p, Return(w, outcome));
    SendNeverBlocks(r, w);
    StepInv(r, Send(w));
    more, q := acts + [Return(w, outcome)] + [Send(w)], Do(r, Send(w));
    RunsOn(p0, acts, p, Return(w, outcome));
    RunsOn(p0, acts + [Return(w, outcome)], r, Send(w));
  }

  /** Before that moment there is no such bound: with a first failure already reported, all the other
      Starts can still be called, as long as the worker that has reported it does not get on to cancel. */
  lemma AllStartBeforeCancel(n: nat) returns (acts: seq<Action>, q: Pool)
    requires n >= 2
    ensures Run(Initial(n, true, false), acts, q)
    ensures |q.sent| == n && q.sent[0].outcome.Failed? && !q.cancelled
    ensures |q.workers| >= 2 && q.workers[0].Cancelling?
    ensures q.begun == Below(n)
  {
    var p0 := Initial(n, true, false);
    InitialInv(n, true, false);
    acts, q := BeginsNext(p0, [], p0, 0);
    acts, q := Reports(p0, acts, q, 0, Failed);
    acts, q := OneStartsTheRest(p0, acts, q);
    forall j | 0 <= j < n ensures j in q.begun {
      assert JobOk(q, j);
    }
    ReportsAreDistinct(q, n - 1);
  }

  lemma {:induction false} OneStartsTheRest(p0: Pool, acts: seq<Action>, p: Pool) returns (more: seq<Action>, q: Pool)
    requires Inv(p) && Run(p0, acts, p) && |p.workers| >= 2 && !CtxErr(p)
    requires p.workers[0].Cancelling? && forall w :: 1 <= w < |p.workers| ==> p.workers[w].Ready?
    ensures Run(p0, more, q) && Inv(q) && q.jobs == [] && !CtxErr(q) && q.n == p.n
    ensures p.sent <= q.sent && |q.sent| == |p.sent| + |p.jobs|
    ensures q.workers == p.workers
    decreases |p.jobs|
  {
    more, q := acts, p;
    if p.jobs != [] {
      more, q := BeginsNext(p0, more, q, 1);
      more, q := Reports(p0, more, q, 1, Created(Nil));
      more, q := OneStartsTheRest(p0, more, q);
    }
  }

  /** And min(4, n) Starts can overlap. */
  lemma {:induction false} StartsCanOverlap(n: nat, k: nat) returns (acts: seq<Action>, q: Pool)
    requires k <= n && k <= 4
    ensures Run(Initial(n, true, false), acts, q) && Inv(q) && |q.jobs| == n - k && !CtxErr(q) && q.n == n
    ensures forall w :: 0 <= w < |q.workers| ==> if w < k then q.workers[w].Starting? else q.workers[w].Ready?
    ensures k <= |q.workers|
  {
    if k == 0 {
      acts, q := [], Initial(n, true, false);
      InitialInv(n, true, false);
    } else {
      acts, q := StartsCanOverlap(n, k - 1);
      acts, q := BeginsNext(Initial(n, true, false), acts, q, k - 1);
    }
  }
}
