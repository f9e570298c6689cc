/** The container runtime: what the registrations' functions and the handles do when they are called.
    Any call of Start, Init or Terminate may fail; a log of the calls is kept for the proofs. */
module Containers {

  type Handle = nat

  /** A container handle as Start returns it: nil is possible even when there is no error. */
  datatype Ctr = Nil | Container(handle: Handle)

  datatype Outcome = Created(ctr: Ctr) | Failed

  /** What the Start of a registration has returned. */
  datatype Result = Result(job: nat, outcome: Outcome)

  datatype InitCall = InitCall(job: nat, failed: bool)

  class Docker {
    ghost var starts: seq<Result>       // the calls of Start, in the order in which they returned
    ghost var inits: seq<InitCall>      // the calls of Init, in order
    ghost var terminated: seq<Handle>   // the calls of Terminate, in order
    ghost var failures: nat             // how many of these failed

    constructor ()
      ensures starts == [] && inits == [] && terminated == [] && failures == 0
    {
      starts, inits, terminated, failures := [], [], [], 0;
    }

    method Start(job: nat) returns (outcome: Outcome)
      modifies `starts
      ensures starts == old(starts) + [Result(job, outcome)]
    {
      outcome := *;
      starts := starts + [Result(job, outcome)];
    }

    method Init(job: nat) returns (failed: bool)
      modifies `inits
      ensures inits == old(inits) + [InitCall(job, failed)]
    {
      failed := *;
      inits := inits + [InitCall(job, failed)];
    }

    method Terminate(h: Handle) returns (failed: bool)
      modifies `terminated, `failures
      ensures terminated == old(terminated) + [h]
      ensures failures == old(failures) + if failed then 1 else 0
    {
      terminated := terminated + [h];
      failed := *;
      failures := failures + if failed then 1 else 0;
    }
  }

  /** What the Start of each job has returned, according to such a log. */
  function Answers(calls: seq<Result>): map<nat, Outcome> {
    if calls == [] then map[]
    else Answers(calls[..|calls| - 1])[calls[|calls| - 1].job := calls[|calls| - 1].outcome]
  }

  lemma AnswersNext(calls: seq<Result>, call: Result)
    ensures Answers(calls + [call]) == Answers(calls)[call.job := call.outcome]
  {
    assert (calls + [call])[..|calls|] == calls;
  }
}
