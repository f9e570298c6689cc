/** The daemon's entry points to the bundle, serialised by its start lock. */
module Lifecycle {
  import opened Containers
  import opened WorkerPool
  import opened Bundles

  class Infra {
    const bundle: Bundle
    var infraStarted: bool

    /** One shared infrastructure: whenever the start lock is free, the daemon's flag tells the truth
        about the bundle. */
    ghost predicate Valid()
      reads this, bundle, bundle.docker
    {
      bundle.Valid() && (infraStarted <==> bundle.started)
    }

    constructor (bundle: Bundle)
      requires bundle.Valid() && bundle.Clean()
      ensures Valid() && this.bundle == bundle && !infraStarted
    {
      this.bundle := bundle;
      infraStarted := false;
    }

    /** At most one successful start between two stops: a second call neither creates, initialises nor
        terminates anything. A call fails only if a Start or an Init has failed, or the context was
        cancelled, and reports it; a failed start from a clean bundle leaves it as clean as before. */
    method EnsureInfraStarted(ctx: Context) returns (err: StartError, ghost calls: seq<Result>)
      requires Valid() && Sound(ctx)
      modifies this, bundle, bundle.docker
      ensures Valid()
      ensures err.NoError? <==> infraStarted
      ensures old(infraStarted) ==> infraStarted && calls == [] && unchanged(bundle) && unchanged(bundle.docker)
      ensures bundle.docker.starts == old(bundle.docker.starts) + calls && CalledOnce(calls, |bundle.regs|)
      ensures err.StartFailed? <==> SomeFailed(Answers(calls))
      ensures err.StartFailed? ==> Result(err.job, Failed) in calls
      ensures err.InitFailed? ==> old(bundle.docker.inits) < bundle.docker.inits
                                  && bundle.docker.inits[|bundle.docker.inits| - 1] == InitCall(err.job, true)
      ensures err.NotFound? ==> !ctx.live
      ensures !old(infraStarted) && infraStarted ==>
                && (forall j :: 0 <= j < |bundle.regs| ==> j in Got(calls))
                && bundle.docker.terminated == old(bundle.docker.terminated)
                && bundle.docker.inits == old(bundle.docker.inits) + InitCalls(bundle.regs, |bundle.regs|)
      ensures old(bundle.Clean()) && ctx.live && !infraStarted ==>
                && bundle.Clean()
                && bundle.docker.terminated ==
                     old(bundle.docker.terminated) + Teardown(InOrder(|bundle.regs|, Got(calls)))
    {
      calls := [];
      if infraStarted {
        err := NoError;
        return;
      }
      err, calls := bundle.StartAll(ctx);
      if !err.NoError? {
        return;
      }
      infraStarted := true;
    }

    /** Everything in the cleanup list is torn down; if a termination fails, the flag stays set. */
    method StopContainersOnly() returns (failed: bool)
      requires Valid()
      modifies this, bundle, bundle.docker
      ensures Valid()
      ensures !old(infraStarted) ==> !failed && unchanged(this) && unchanged(bundle) && unchanged(bundle.docker)
      ensures old(infraStarted) ==>
                && infraStarted == failed
                && bundle.docker.terminated == old(bundle.docker.terminated) + Teardown(old(bundle.cleanup))
                && (!failed ==> bundle.Clean())
      ensures bundle.docker.starts == old(bundle.docker.starts) && bundle.docker.inits == old(bundle.docker.inits)
      ensures failed ==> bundle.docker.failures != old(bundle.docker.failures)
    {
      if !infraStarted {
        return false;
      }
      failed := bundle.StopAll();
      if failed {
        return;
      }
      infraStarted := false;
    }
  }
}
