/** The container bundle: validation of the registrations, the all-or-nothing start built on the
    worker pool, and the teardown. */
module Bundles {
  import opened Containers
  import opened WorkerPool

  // ---------------------------------------------------------------------------------------------
  // Registrations

  datatype Registration = Registration(name: string, hasStart: bool, hasInit: bool)

  predicate IsSpace(c: char) {
    || '\U{0009}' <= c <= '\U{000d}' || c == ' ' || c == '\U{0085}' || c == '\U{00a0}' || c == '\U{1680}'
    || '\U{2000}' <= c <= '\U{200a}' || c == '\U{2028}' || c == '\U{2029}' || c == '\U{202f}'
    || c == '\U{205f}' || c == '\U{3000}'
  }

  function TrimSpace(s: string): string {
    if s == "" then ""
    else if IsSpace(s[0]) then TrimSpace(s[1..])
    else if IsSpace(s[|s| - 1]) then TrimSpace(s[..|s| - 1])
    else s
  }

  /** What is left is what lies between the first and the last character that is not a space. */
  lemma {:induction false} TrimSpaceKeepsMiddle(s: string) returns (i: nat, j: nat)
    ensures i <= j <= |s| && TrimSpace(s) == s[i..j]
    ensures forall k :: 0 <= k < i || j <= k < |s| ==> IsSpace(s[k])
    ensures i < j ==> !IsSpace(s[i]) && !IsSpace(s[j - 1])
  {
    i, j := 0, |s|;
    if s != "" && IsSpace(s[0]) {
      i, j := TrimSpaceKeepsMiddle(s[1..]);
      assert forall k :: 0 < k < |s| ==> s[k] == s[1..][k - 1];
      i, j := i + 1, j + 1;
    } else if s != "" && IsSpace(s[|s| - 1]) {
      i, j := TrimSpaceKeepsMiddle(s[..|s| - 1]);
    }
  }

  datatype Rejection = NoRegistrations | EmptyName(i: nat) | NilStart(i: nat) | Duplicate(i: nat)

  predicate GoodRegistration(regs: seq<Registration>, i: nat)
    requires i < |regs|
  {
    && TrimSpace(regs[i].name) != "" && regs[i].hasStart
    && forall j :: 0 <= j < i ==> TrimSpace(regs[j].name) != TrimSpace(regs[i].name)
  }

  predicate GoodRegistrations(regs: seq<Registration>) {
    regs != [] && forall i :: 0 <= i < |regs| ==> GoodRegistration(regs, i)
  }

  /** The result maps are keyed by the names as they are written; names that differ after trimming
      differ before it, so no two registrations share a key. */
  lemma RawNamesDiffer(regs: seq<Registration>, i: nat, j: nat)
    requires GoodRegistrations(regs) && i < |regs| && j < |regs| && i != j
    ensures regs[i].name != regs[j].name
  {
    assert GoodRegistration(regs, if i < j then j else i);
  }

  // ---------------------------------------------------------------------------------------------
  // Containers and their handles

  /** The handles of some containers, from the last to the first. */
  function Teardown(ctrs: seq<Ctr>): seq<Handle> {
    if ctrs == [] then [] else OneHandle(ctrs[|ctrs| - 1]) + Teardown(ctrs[..|ctrs| - 1])
  }

  function OneHandle(ctr: Ctr): seq<Handle> {
    match ctr
    case Container(h) => [h]
    case Nil => []
  }

  /** A log of terminations, after some containers have been torn down, the last one first. */
  function TornDown(log: seq<Handle>, ctrs: seq<Ctr>): seq<Handle>
    decreases |ctrs|
  {
    if ctrs == [] then log
    else TornDown(log + OneHandle(ctrs[|ctrs| - 1]), ctrs[..|ctrs| - 1])
  }

  lemma {:induction false} TornDownAppends(log: seq<Handle>, ctrs: seq<Ctr>)
    ensures TornDown(log, ctrs) == log + Teardown(ctrs)
    decreases |ctrs|
  {
    if ctrs != [] {
      var last := OneHandle(ctrs[|ctrs| - 1]);
      TornDownAppends(log + last, ctrs[..|ctrs| - 1]);
      assert log + last + Teardown(ctrs[..|ctrs| - 1]) == log + (last + Teardown(ctrs[..|ctrs| - 1]));
    }
  }

  lemma TornDownNext(log: seq<Handle>, ctrs: seq<Ctr>, i: nat)
    requires i < |ctrs|
    ensures TornDown(log, ctrs[..i + 1]) == TornDown(log + OneHandle(ctrs[i]), ctrs[..i])
    ensures ctrs[i].Nil? ==> TornDown(log, ctrs[..i + 1]) == TornDown(log, ctrs[..i])
  {
    assert log + [] == log;
    assert ctrs[..i + 1][..i] == ctrs[..i];
  }

  lemma {:induction false} TeardownAppend(a: seq<Ctr>, b: seq<Ctr>)
    ensures Teardown(a + b) == Teardown(b) + Teardown(a)
  {
    if b == [] {
      assert a + b == a;
    } else {
      assert (a + b)[..|a + b| - 1] == a + b[..|b| - 1];
      TeardownAppend(a, b[..|b| - 1]);
    }
  }

  /** Each container is torn down as often as it occurs, and nothing else is. */
  lemma {:induction false} TeardownIsExact(ctrs: seq<Ctr>, h: Handle)
    ensures multiset(Teardown(ctrs))[h] == multiset(ctrs)[Container(h)]
  {
    if ctrs != [] {
      var n := |ctrs| - 1;
      TeardownIsExact(ctrs[..n], h);
      assert ctrs == ctrs[..n] + [ctrs[n]];
      CountStep(ctrs[..n], ctrs[n], Teardown(ctrs[..n]), h);
    }
  }

  lemma CountStep(init: seq<Ctr>, last: Ctr, torn: seq<Handle>, h: Handle)
    requires multiset(torn)[h] == multiset(init)[Container(h)]
    ensures multiset(OneHandle(last) + torn)[h] == multiset(init + [last])[Container(h)]
  {
  }

  /** So when no two of the containers share a handle, each is torn down once. */
  lemma TornDownOnce(ctrs: seq<Ctr>, h: Handle)
    requires forall i, j :: 0 <= i < j < |ctrs| && ctrs[i].Container? ==> ctrs[i] != ctrs[j]
    ensures multiset(Teardown(ctrs))[h] == if Container(h) in ctrs then 1 else 0
  {
    TeardownIsExact(ctrs, h);
    CountedOnce(ctrs, h);
  }

  lemma {:induction false} CountedOnce(ctrs: seq<Ctr>, h: Handle)
    requires forall i, j :: 0 <= i < j < |ctrs| && ctrs[i].Container? ==> ctrs[i] != ctrs[j]
    ensures multiset(ctrs)[Container(h)] == if Container(h) in ctrs then 1 else 0
  {
    if ctrs != [] {
      var n := |ctrs| - 1;
      CountedOnce(ctrs[..n], h);
      assert ctrs == ctrs[..n] + [ctrs[n]];
    }
  }

  lemma TeardownMember(ctrs: seq<Ctr>, h: Handle)
    ensures h in Teardown(ctrs) <==> Container(h) in ctrs
  {
    TeardownIsExact(ctrs, h);
    assert h in multiset(Teardown(ctrs)) <==> h in Teardown(ctrs);
    assert Container(h) in multiset(ctrs) <==> Container(h) in ctrs;
  }

  /** What one attempt created, in registration order. */
  function InOrder(n: nat, got: map<nat, Ctr>): seq<Ctr> {
    seq(n, j => if j in got then got[j] else Nil)
  }

  /** What was created, if these are the calls of Start that returned. */
  function Got(calls: seq<Result>): map<nat, Ctr> {
    map j | j in Answers(calls) && Answers(calls)[j].Created? :: Answers(calls)[j].ctr
  }

  /** These are calls of Starts of n registrations, no two of the same. */
  ghost predicate CalledOnce(calls: seq<Result>, n: nat) {
    |calls| == |Answers(calls)| && forall j :: j in Answers(calls) ==> j < n
  }

  function Names(regs: seq<Registration>): seq<string> {
    seq(|regs|, i requires 0 <= i < |regs| => regs[i].name)
  }

  /** A map from names to containers, after the first n containers have been entered. */
  function Entries(byName: map<string, Ctr>, regs: seq<Registration>, got: map<nat, Ctr>, n: nat): map<string, Ctr>
    requires n <= |regs| && forall j :: 0 <= j < n ==> j in got
  {
    if n == 0 then byName else Entries(byName, regs, got, n - 1)[regs[n - 1].name := got[n - 1]]
  }

  lemma {:induction false} EntriesFound(byName: map<string, Ctr>, regs: seq<Registration>, got: map<nat, Ctr>, n: nat)
    requires n <= |regs| && (forall j :: 0 <= j < n ==> j in got) && GoodRegistrations(regs)
    ensures forall j :: 0 <= j < n ==>
              regs[j].name in Entries(byName, regs, got, n) && Entries(byName, regs, got, n)[regs[j].name] == got[j]
  {
    if n > 0 {
      EntriesFound(byName, regs, got, n - 1);
      forall j | 0 <= j < n - 1 ensures regs[j].name != regs[n - 1].name {
        RawNamesDiffer(regs, n - 1, j);
      }
    }
  }

  lemma AllEntered(byName: map<string, Ctr>, regs: seq<Registration>, got: map<nat, Ctr>)
    requires GoodRegistrations(regs) && forall j :: 0 <= j < |regs| ==> j in got
    ensures Keyed(regs, Entries(byName, regs, got, |regs|), got)
    ensures InOrder(|regs|, got)[..|regs|] == InOrder(|regs|, got) && Names(regs)[..|regs|] == Names(regs)
  {
    EntriesFound(byName, regs, got, |regs|);
  }

  lemma NextEntry(regs: seq<Registration>, got: map<nat, Ctr>, i: nat)
    requires i < |regs| && i in got
    ensures InOrder(|regs|, got)[..i + 1] == InOrder(|regs|, got)[..i] + [got[i]]
    ensures Names(regs)[..i + 1] == Names(regs)[..i] + [regs[i].name]
  {
  }

  /** The calls of the Init phases of the first n registrations, if they all succeed. */
  function InitCalls(regs: seq<Registration>, n: nat): seq<InitCall>
    requires n <= |regs|
  {
    if n == 0 then [] else InitCalls(regs, n - 1) + if regs[n - 1].hasInit then [InitCall(n - 1, false)] else []
  }

  /** They are those of the registrations that have one, in registration order. */
  lemma {:induction false} InitCallsInOrder(regs: seq<Registration>, n: nat)
    requires n <= |regs|
    ensures forall k, l :: 0 <= k < l < |InitCalls(regs, n)| ==> InitCalls(regs, n)[k].job < InitCalls(regs, n)[l].job
    ensures forall call :: call in InitCalls(regs, n) <==> !call.failed && call.job < n && regs[call.job].hasInit
  {
    if n > 0 {
      InitCallsInOrder(regs, n - 1);
    }
  }

  /** The result map holds what was got, under the registrations' names. */
  ghost predicate Keyed(regs: seq<Registration>, byName: map<string, Ctr>, got: map<nat, Ctr>) {
    forall j :: 0 <= j < |regs| ==>
      (regs[j].name in byName <==> j in got) && (j in got ==> byName[regs[j].name] == got[j])
  }

  datatype StartError = NoError | StartFailed(job: nat) | NotFound(job: nat) | InitFailed(job: nat)

  /** The context of a call: whether it is already cancelled, and whether it never will be. */
  datatype Context = Context(live: bool, cancelled: bool)

  predicate Sound(ctx: Context) { ctx.live ==> !ctx.cancelled }

  // ---------------------------------------------------------------------------------------------

  /** The collector's loop over the results channel. */
  method CollectResults(regs: seq<Registration>, sent: seq<Result>) returns (byName: map<string, Ctr>, err: StartError)
    requires forall k :: 0 <= k < |sent| ==> sent[k].job < |regs|
    requires forall k, l :: 0 <= k < l < |sent| ==> regs[sent[k].job].name != regs[sent[l].job].name
    ensures err.NoError? <==> !SomeFailure(sent)
    ensures !err.NoError? ==> exists k :: 0 <= k < |sent| && sent[k].outcome.Failed? && err == StartFailed(sent[k].job)
                                         && !SomeFailure(sent[..k])
    ensures forall name :: name in byName <==>
              exists k :: 0 <= k < |sent| && sent[k].outcome.Created? && regs[sent[k].job].name == name
    ensures forall k :: 0 <= k < |sent| && sent[k].outcome.Created? ==> byName[regs[sent[k].job].name] == sent[k].outcome.ctr
  {
    byName, err := map[], NoError;
    var i := 0;
    while i < |sent|
      invariant 0 <= i <= |sent|
      invariant err.NoError? <==> !SomeFailure(sent[..i])
      invariant !err.NoError? ==> exists k :: 0 <= k < i && sent[k].outcome.Failed? && err == StartFailed(sent[k].job)
                                             && !SomeFailure(sent[..k])
      invariant forall name :: name in byName <==>
                  exists k :: 0 <= k < i && sent[k].outcome.Created? && regs[sent[k].job].name == name
      invariant forall k :: 0 <= k < i && sent[k].outcome.Created? ==> byName[regs[sent[k].job].name] == sent[k].outcome.ctr
    {
      var result := sent[i];
      assert sent[..i + 1] == sent[..i] + [result];
      FailureSplit(sent[..i], result);
      i := i + 1;
      if result.outcome.Failed? {
        if err.NoError? {
          err := StartFailed(result.job);
        }
        continue;
      }
      byName := byName[regs[result.job].name := result.outcome.ctr];
    }
    assert sent[..i] == sent;
  }

  lemma FailureSplit(sent: seq<Result>, last: Result)
    ensures SomeFailure(sent + [last]) <==> SomeFailure(sent) || last.outcome.Failed?
  {
    if SomeFailure(sent) {
      var k :| 0 <= k < |sent| && sent[k].outcome.Failed?;
      assert (sent + [last])[k].outcome.Failed?;
    }
    if last.outcome.Failed? {
      assert (sent + [last])[|sent|].outcome.Failed?;
    }
  }

  /** Every container that a Start has ever returned is still in the cleanup list, or has been told to
      terminate. */
  ghost predicate Kept(starts: seq<Result>, cleanup: seq<Ctr>, terminated: seq<Handle>) {
    forall start :: start in starts && start.outcome.Created? ==> KeptCtr(start.outcome.ctr, cleanup, terminated)
  }

  predicate KeptCtr(ctr: Ctr, cleanup: seq<Ctr>, terminated: seq<Handle>) {
    ctr.Container? ==> ctr in cleanup || ctr.handle in terminated
  }

  /** No answer is overwritten by a later one. */
  lemma {:induction false} EachAnswered(calls: seq<Result>)
    ensures |Answers(calls)| <= |calls|
    ensures |calls| == |Answers(calls)| ==> forall k :: 0 <= k < |calls| ==>
              calls[k].job in Answers(calls) && Answers(calls)[calls[k].job] == calls[k].outcome
  {
    if calls != [] {
      var n := |calls| - 1;
      EachAnswered(calls[..n]);
      var before, job := Answers(calls[..n]), calls[n].job;
      assert Answers(calls).Keys == before.Keys + {job};
      if job in before {
        assert before.Keys + {job} == before.Keys;
      }
    }
  }

  lemma CallsInOrder(calls: seq<Result>, n: nat)
    requires CalledOnce(calls, n)
    ensures forall k :: 0 <= k < |calls| && calls[k].outcome.Created? ==>
              calls[k].outcome.ctr in InOrder(n, Got(calls))
  {
    EachAnswered(calls);
    forall k | 0 <= k < |calls| && calls[k].outcome.Created?
      ensures calls[k].outcome.ctr in InOrder(n, Got(calls))
    {
      assert InOrder(n, Got(calls))[calls[k].job] == calls[k].outcome.ctr;
    }
  }

  lemma NothingBefore(before: seq<Ctr>, ctrs: seq<Ctr>)
    ensures before == [] ==> Teardown(before + ctrs) == Teardown(ctrs)
  {
    assert before == [] ==> before + ctrs == ctrs;
  }

  lemma KeptWhenTornDown(starts: seq<Result>, cleanup: seq<Ctr>, terminated: seq<Handle>, calls: seq<Result>, n: nat)
    requires Kept(starts, cleanup, terminated) && CalledOnce(calls, n)
    ensures forall more :: Kept(starts + calls, cleanup + more, terminated + Teardown(InOrder(n, Got(calls))))
    ensures Kept(starts + calls, cleanup, terminated + Teardown(InOrder(n, Got(calls))))
  {
    CallsInOrder(calls, n);
    TeardownMembers(InOrder(n, Got(calls)));
  }

  lemma KeptWhenRecorded(starts: seq<Result>, cleanup: seq<Ctr>, terminated: seq<Handle>, calls: seq<Result>, n: nat)
    requires Kept(starts, cleanup, terminated) && CalledOnce(calls, n)
    ensures Kept(starts + calls, cleanup + InOrder(n, Got(calls)), terminated)
  {
    CallsInOrder(calls, n);
  }

  lemma KeptWhenEmptied(starts: seq<Result>, cleanup: seq<Ctr>, terminated: seq<Handle>)
    requires Kept(starts, cleanup, terminated)
    ensures Kept(starts, [], terminated + Teardown(cleanup))
    ensures Kept(starts, cleanup, terminated + Teardown(cleanup))
  {
    TeardownMembers(cleanup);
  }

  class Bundle {
    const regs: seq<Registration>
    const docker: Docker
    var started: bool
    var startOrder: seq<string>
    var cleanup: seq<Ctr>
    var containerBy: map<string, Ctr>

    /** Conservation of the created containers, after any sequence of calls. */
    ghost predicate Valid()
      reads this, docker
    {
      && GoodRegistrations(regs)
      && Kept(docker.starts, cleanup, docker.terminated)
    }

    ghost predicate Clean()
      reads this
    {
      !started && startOrder == [] && cleanup == [] && containerBy == map[]
    }

    /** The first n containers have been entered on top of what was there, in registration order. */
    ghost predicate Entered(cleanup0: seq<Ctr>, startOrder0: seq<string>, containerBy0: map<string, Ctr>,
                            got: map<nat, Ctr>, n: nat)
      reads this
    {
      && n <= |regs| && (forall j :: 0 <= j < n ==> j in got)
      && cleanup == cleanup0 + InOrder(|regs|, got)[..n]
      && startOrder == startOrder0 + Names(regs)[..n]
      && containerBy == Entries(containerBy0, regs, got, n)
    }

    constructor (regs: seq<Registration>, docker: Docker)
      requires GoodRegistrations(regs) && docker.starts == []
      ensures Valid() && Clean() && this.regs == regs && this.docker == docker
    {
      this.regs, this.docker := regs, docker;
      started, startOrder, cleanup, containerBy := false, [], [], map[];
    }

    method TerminateCreatedContainers(byName: map<string, Ctr>, ghost got: map<nat, Ctr>) returns (failed: bool)
      requires Keyed(regs, byName, got)
      modifies docker`terminated, docker`failures
      ensures docker.terminated == old(docker.terminated) + Teardown(InOrder(|regs|, got))
      ensures old(docker.failures) <= docker.failures && (failed <==> docker.failures != old(docker.failures))
    {
      failed := false;
      var i := |regs| - 1;
      ghost var ctrs := InOrder(|regs|, got);
      assert ctrs[..|regs|] == ctrs;
      TornDownAppends(docker.terminated, ctrs);
      while i >= 0
        invariant -1 <= i < |regs|
        invariant TornDown(docker.terminated, ctrs[..i + 1]) == TornDown(old(docker.terminated), ctrs)
        invariant old(docker.failures) <= docker.failures && (failed <==> docker.failures != old(docker.failures))
      {
        TornDownNext(docker.terminated, ctrs, i);
        if regs[i].name in byName && byName[regs[i].name].Container? {
          var err := docker.Terminate(byName[regs[i].name].handle);
          if err && !failed {
            failed := true;
          }
        }
        i := i - 1;
      }
    }

    method StopAllContainers() returns (failed: bool)
      modifies docker`terminated, docker`failures
      ensures docker.terminated == old(docker.terminated) + Teardown(cleanup)
      ensures old(docker.failures) <= docker.failures && (failed <==> docker.failures != old(docker.failures))
    {
      failed := false;
      var i := |cleanup| - 1;
      assert cleanup[..|cleanup|] == cleanup;
      TornDownAppends(docker.terminated, cleanup);
      while i >= 0
        invariant -1 <= i < |cleanup|
        invariant TornDown(docker.terminated, cleanup[..i + 1]) == TornDown(old(docker.terminated), cleanup)
        invariant old(docker.failures) <= docker.failures && (failed <==> docker.failures != old(docker.failures))
      {
        TornDownNext(docker.terminated, cleanup, i);
        if cleanup[i].Container? {
          var err := docker.Terminate(cleanup[i].handle);
          if err && !failed {
            failed := true;
          }
        }
        i := i - 1;
      }
    }

    method ResetState()
      modifies this
      ensures Clean()
    {
      started, startOrder, cleanup, containerBy := false, [], [], map[];
    }

    method Rollback() returns (failed: bool)
      modifies this, docker`terminated, docker`failures
      ensures docker.terminated == old(docker.terminated) + Teardown(old(cleanup))
      ensures Clean() && (failed <==> docker.failures != old(docker.failures))
    {
      failed := StopAllContainers();
      ResetState();
    }

    /** Run the pool and collect what it reports. It fails exactly if a Start has failed, and reports one
        that did; then everything that was created is torn down again. Otherwise, if the parent context
        lives, every registration has a container. No Start is called twice, and none in a cancelled
        context. */
    method StartAllContainers(ctx: Context)
      returns (byName: map<string, Ctr>, err: StartError, ghost calls: seq<Result>)
      requires GoodRegistrations(regs) && Sound(ctx)
      modifies docker`starts, docker`terminated, docker`failures
      ensures docker.starts == old(docker.starts) + calls && CalledOnce(calls, |regs|)
      ensures ctx.cancelled ==> calls == []
      ensures err.NoError? || err.StartFailed?
      ensures err.StartFailed? <==> SomeFailed(Answers(calls))
      ensures err.StartFailed? ==> Result(err.job, Failed) in calls
      ensures err.NoError? ==> Keyed(regs, byName, Got(calls)) && docker.terminated == old(docker.terminated)
                               && docker.failures == old(docker.failures)
      ensures err.NoError? && ctx.live ==> forall j :: 0 <= j < |regs| ==> j in Got(calls)
      ensures err.StartFailed? ==>
                docker.terminated == old(docker.terminated) + Teardown(InOrder(|regs|, Got(calls)))
    {
      var pool;
      pool, calls := RunPool(docker, |regs|, ctx.live, ctx.cancelled);
      ReportsTell(regs, pool, calls);
      byName, err := CollectResults(regs, pool.sent);
      KeyedByName(regs, pool, calls, byName);
      if !err.NoError? {
        var failed := TerminateCreatedContainers(byName, Got(calls));
        byName := map[];
      }
    }

    method StartAll(ctx: Context) returns (err: StartError, ghost calls: seq<Result>)
      requires Valid() && Sound(ctx)
      modifies this, docker
      ensures Valid()
      ensures docker.starts == old(docker.starts) + calls && CalledOnce(calls, |regs|)
      // a started bundle is left alone
      ensures old(started) ==> err.NoError? && calls == [] && unchanged(this) && unchanged(docker)
      ensures err.NoError? <==> started
      // it is a Start that is reported exactly if one has failed
      ensures err.StartFailed? <==> SomeFailed(Answers(calls))
      // success: one entry for each registration, in order
      ensures !old(started) && err.NoError? ==>
                && (forall j :: 0 <= j < |regs| ==> j in Got(calls))
                && cleanup == old(cleanup) + InOrder(|regs|, Got(calls))
                && startOrder == old(startOrder) + Names(regs)
                && containerBy == Entries(old(containerBy), regs, Got(calls), |regs|)
                && Keyed(regs, containerBy, Got(calls))
                && docker.terminated == old(docker.terminated)
                && docker.failures == old(docker.failures)
                && docker.inits == old(docker.inits) + InitCalls(regs, |regs|)
      // failure: what was created is torn down in reverse registration order
      ensures err.StartFailed? ==>
                && Result(err.job, Failed) in calls
                && unchanged(this)
                && docker.terminated == old(docker.terminated) + Teardown(InOrder(|regs|, Got(calls)))
                && docker.inits == old(docker.inits)
      ensures err.InitFailed? ==>
                && Clean()
                && docker.terminated == old(docker.terminated) + Teardown(old(cleanup) + InOrder(|regs|, Got(calls)))
                && err.job < |regs| && regs[err.job].hasInit
                && docker.inits == old(docker.inits) + InitCalls(regs, err.job) + [InitCall(err.job, true)]
      // a missing container: only after the parent context was cancelled; a prefix stays behind
      ensures ctx.cancelled && !old(started) ==> calls == [] && err.NotFound?
      ensures err.NotFound? ==>
                && !ctx.live
                && err.job < |regs| && err.job !in Got(calls)
                && Entered(old(cleanup), old(startOrder), old(containerBy), Got(calls), err.job)
                && docker.inits == old(docker.inits)
                && docker.terminated == old(docker.terminated) + Teardown(InOrder(|regs|, Got(calls)))
      // so, from a clean bundle and with a live context, it is all or nothing
      ensures old(Clean()) && ctx.live && !err.NoError? ==>
                Clean() && docker.terminated == old(docker.terminated) + Teardown(InOrder(|regs|, Got(calls)))
    {
      calls := [];
      if started {
        err := NoError;
        return;
      }
      var byName: map<string, Ctr>;
      byName, err, calls := StartAllContainers(ctx);
      ghost var ctrs := InOrder(|regs|, Got(calls));
      if !err.NoError? {
        KeptWhenTornDown(old(docker.starts), cleanup, old(docker.terminated), calls, |regs|);
        return;
      }
      err := Record(byName, Got(calls));
      if !err.NoError? {
        KeptWhenTornDown(old(docker.starts), old(cleanup), old(docker.terminated), calls, |regs|);
        return;
      }
      KeptWhenRecorded(old(docker.starts), old(cleanup), old(docker.terminated), calls, |regs|);
      err := RunInits();
      if !err.NoError? {
        KeptWhenEmptied(docker.starts, old(cleanup) + ctrs, old(docker.terminated));
        NothingBefore(old(cleanup), ctrs);
        return;
      }
      started := true;
    }

    /** The first loop of StartAll: enter every container, in registration order. */
    method Record(byName: map<string, Ctr>, ghost got: map<nat, Ctr>) returns (err: StartError)
      requires GoodRegistrations(regs) && Keyed(regs, byName, got)
      modifies this, docker`terminated, docker`failures
      ensures started == old(started)
      ensures err.NoError? || err.NotFound?
      ensures err.NoError? ==>
                && (forall j :: 0 <= j < |regs| ==> j in got)
                && cleanup == old(cleanup) + InOrder(|regs|, got)
                && startOrder == old(startOrder) + Names(regs)
                && containerBy == Entries(old(containerBy), regs, got, |regs|) && Keyed(regs, containerBy, got)
                && docker.terminated == old(docker.terminated)
                && docker.failures == old(docker.failures)
      ensures err.NotFound? ==>
                && err.job < |regs| && err.job !in got
                && Entered(old(cleanup), old(startOrder), old(containerBy), got, err.job)
                && docker.terminated == old(docker.terminated) + Teardown(InOrder(|regs|, got))
    {
      err := NoError;
      var i := 0;
      while i < |regs|
        invariant 0 <= i <= |regs|
        invariant started == old(started)
        invariant Entered(old(cleanup), old(startOrder), old(containerBy), got, i)
        invariant unchanged(docker)
      {
        if regs[i].name !in byName {
          var failed := TerminateCreatedContainers(byName, got);
          err := NotFound(i);
          return;
        }
        NextEntry(regs, got, i);
        startOrder := startOrder + [regs[i].name];
        cleanup := cleanup + [byName[regs[i].name]];
        containerBy := containerBy[regs[i].name := byName[regs[i].name]];
        i := i + 1;
      }
      AllEntered(old(containerBy), regs, got);
    }

    /** The second loop of StartAll: the Init phases, in registration order, after every container runs. */
    method RunInits() returns (err: StartError)
      modifies this, docker`inits, docker`terminated, docker`failures
      ensures err.NoError? || err.InitFailed?
      ensures err.NoError? ==>
                && unchanged(this)
                && docker.terminated == old(docker.terminated)
                && docker.inits == old(docker.inits) + InitCalls(regs, |regs|)
                && docker.failures == old(docker.failures)
      ensures err.InitFailed? ==>
                && Clean()
                && docker.terminated == old(docker.terminated) + Teardown(old(cleanup))
                && err.job < |regs| && regs[err.job].hasInit
                && docker.inits == old(docker.inits) + InitCalls(regs, err.job) + [InitCall(err.job, true)]
    {
      err := NoError;
      var i := 0;
      while i < |regs|
        invariant 0 <= i <= |regs|
        invariant docker.inits == old(docker.inits) + InitCalls(regs, i)
        invariant docker.terminated == old(docker.terminated)
        invariant docker.failures == old(docker.failures) && unchanged(this)
      {
        if regs[i].hasInit {
          var failed := docker.Init(i);
          if failed {
            var ignored := Rollback();
            err := InitFailed(i);
            return;
          }
        }
        i := i + 1;
      }
    }

    method StopAll() returns (failed: bool)
      requires Valid()
      modifies this, docker`terminated, docker`failures
      ensures Valid()
      ensures docker.terminated == old(docker.terminated) + Teardown(old(cleanup))
      ensures if failed then unchanged(this) else Clean()
      ensures failed <==> docker.failures != old(docker.failures)
    {
      KeptWhenEmptied(docker.starts, cleanup, docker.terminated);
      failed := StopAllContainers();
      if failed {
        return;
      }
      ResetState();
    }
  }

  lemma TeardownMembers(ctrs: seq<Ctr>)
    ensures forall h :: h in Teardown(ctrs) <==> Container(h) in ctrs
  {
    forall h ensures h in Teardown(ctrs) <==> Container(h) in ctrs {
      TeardownMember(ctrs, h);
    }
  }

  lemma {:induction false} FailureIsCalled(calls: seq<Result>, job: nat)
    requires job in Answers(calls)
    ensures Result(job, Answers(calls)[job]) in calls
  {
    var n := |calls| - 1;
    if calls[n].job != job {
      FailureIsCalled(calls[..n], job);
    }
  }

  /** What the pool has reported in the end tells what the Starts have returned. */
  lemma ReportsTell(regs: seq<Registration>, pool: Pool, calls: seq<Result>)
    requires GoodRegistrations(regs) && pool.n == |regs| && Inv(pool) && Final(pool)
    requires pool.answers == Answers(calls) && |calls| == |pool.answers|
    ensures forall k :: 0 <= k < |pool.sent| ==> pool.sent[k].job < |regs|
    ensures forall k, l :: 0 <= k < l < |pool.sent| ==> regs[pool.sent[k].job].name != regs[pool.sent[l].job].name
    ensures CalledOnce(calls, |regs|)
    ensures SomeFailure(pool.sent) <==> SomeFailed(Answers(calls))
    ensures forall k :: 0 <= k < |pool.sent| && pool.sent[k].outcome.Failed? ==> Result(pool.sent[k].job, Failed) in calls
    ensures pool.parentLive && !SomeFailure(pool.sent) ==> forall j :: 0 <= j < |regs| ==> j in Got(calls)
  {
    FinalPool(pool);
    NamesDiffer(regs, pool.sent);
    FailuresTold(pool.sent, pool.answers, calls);
  }

  lemma FailuresTold(sent: seq<Result>, answers: map<nat, Outcome>, calls: seq<Result>)
    requires answers == Answers(calls)
    requires forall k :: 0 <= k < |sent| ==> sent[k].job in answers && answers[sent[k].job] == sent[k].outcome
    ensures forall k :: 0 <= k < |sent| && sent[k].outcome.Failed? ==> Result(sent[k].job, Failed) in calls
  {
    forall k | 0 <= k < |sent| && sent[k].outcome.Failed? ensures Result(sent[k].job, Failed) in calls {
      FailureIsCalled(calls, sent[k].job);
    }
  }

  lemma NamesDiffer(regs: seq<Registration>, sent: seq<Result>)
    requires GoodRegistrations(regs) && forall k :: 0 <= k < |sent| ==> sent[k].job < |regs|
    requires forall k, l :: 0 <= k < l < |sent| ==> sent[k].job != sent[l].job
    ensures forall k, l :: 0 <= k < l < |sent| ==> regs[sent[k].job].name != regs[sent[l].job].name
  {
    forall k, l | 0 <= k < l < |sent| ensures regs[sent[k].job].name != regs[sent[l].job].name {
      RawNamesDiffer(regs, sent[k].job, sent[l].job);
    }
  }

  lemma KeyedByName(regs: seq<Registration>, pool: Pool, calls: seq<Result>, byName: map<string, Ctr>)
    requires GoodRegistrations(regs) && pool.n == |regs| && Inv(pool) && Final(pool) && pool.answers == Answers(calls)
    requires forall name :: name in byName <==>
               exists k :: 0 <= k < |pool.sent| && pool.sent[k].outcome.Created? && pool.sent[k].job < |regs|
                           && regs[pool.sent[k].job].name == name
    requires forall k :: 0 <= k < |pool.sent| && pool.sent[k].outcome.Created? && pool.sent[k].job < |regs| ==>
               byName[regs[pool.sent[k].job].name] == pool.sent[k].outcome.ctr
    ensures Keyed(regs, byName, Got(calls))
  {
    FinalPool(pool);
    var got := Got(calls);
    forall j | 0 <= j < |regs|
      ensures regs[j].name in byName <==> j in got
      ensures j in got ==> byName[regs[j].name] == got[j]
    {
      if j in got {
        var k :| 0 <= k < |pool.sent| && pool.sent[k] == Result(j, pool.answers[j]);
      }
      if regs[j].name in byName {
        var k :| 0 <= k < |pool.sent| && pool.sent[k].outcome.Created? && pool.sent[k].job < |regs|
                 && regs[pool.sent[k].job].name == regs[j].name;
        if pool.sent[k].job != j {
          RawNamesDiffer(regs, pool.sent[k].job, j);
        }
      }
    }
  }

  datatype NewResult = Ok(bundle: Bundle) | Err(why: Rejection)

  /** The first registration that is not acceptable, and why. */
  predicate Rejects(regs: seq<Registration>, why: Rejection) {
    match why
    case NoRegistrations => regs == []
    case EmptyName(i) => GoodUpTo(regs, i) && TrimSpace(regs[i].name) == ""
    case NilStart(i) => GoodUpTo(regs, i) && TrimSpace(regs[i].name) != "" && !regs[i].hasStart
    case Duplicate(i) =>
      GoodUpTo(regs, i) && exists j :: 0 <= j < i && TrimSpace(regs[j].name) == TrimSpace(regs[i].name)
  }

  predicate GoodUpTo(regs: seq<Registration>, i: nat) {
    i < |regs| && forall j :: 0 <= j < i ==> GoodRegistration(regs, j)
  }

  method NewBundle(regs: seq<Registration>, docker: Docker) returns (r: NewResult)
    requires docker.starts == []
    ensures r.Ok? <==> GoodRegistrations(regs)
    ensures r.Ok? ==> fresh(r.bundle) && r.bundle.Valid() && r.bundle.Clean()
    ensures r.Ok? ==> r.bundle.regs == regs && r.bundle.docker == docker
    ensures r.Err? ==> Rejects(regs, r.why)
  {
    if |regs| == 0 {
      return Err(NoRegistrations);
    }
    var seen: set<string> := {};
    for i := 0 to |regs|
      invariant forall name :: name in seen <==> exists j :: 0 <= j < i && TrimSpace(regs[j].name) == name
      invariant forall j :: 0 <= j < i ==> GoodRegistration(regs, j)
    {
      var name := TrimSpace(regs[i].name);
      if name == "" {
        assert !GoodRegistration(regs, i);
        return Err(EmptyName(i));
      }
      if !regs[i].hasStart {
        assert !GoodRegistration(regs, i);
        return Err(NilStart(i));
      }
      if name in seen {
        assert !GoodRegistration(regs, i);
        return Err(Duplicate(i));
      }
      assert GoodRegistration(regs, i);
      seen := seen + {name};
    }
    var b := new Bundle(regs, docker);
    return Ok(b);
  }
}
