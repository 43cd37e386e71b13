/**
 * The admission gate: `asyncio.Semaphore(3)` (app.py:42), held by
 * `run_in_thread` for the duration of one pipeline call (app.py:110-118).
 * The wait for a free permit is not modelled: `Acquire` is the moment
 * a permit is granted.
 */
module Admission {
  import opened Events

  /** `_generation_semaphore = asyncio.Semaphore(3)` (app.py:42). */
  const MaxConcurrentJobs: nat := 3

  class Gate {
    const limit: nat
    var inFlight: nat

    ghost predicate Valid()
      reads this
    {
      inFlight <= limit
    }

    constructor ()
      ensures Valid() && limit == MaxConcurrentJobs && inFlight == 0
    {
      limit := MaxConcurrentJobs;
      inFlight := 0;
    }

    /** Entering `async with _generation_semaphore`, once a permit is free. */
    method Acquire()
      requires Valid() && inFlight < limit
      modifies this
      ensures Valid() && inFlight == old(inFlight) + 1
    {
      inFlight := inFlight + 1;
    }

    /** Leaving the `async with` block, however it is left. */
    method Release()
      requires Valid() && inFlight > 0
      modifies this
      ensures Valid() && inFlight == old(inFlight) - 1
    {
      inFlight := inFlight - 1;
    }
  }

  /**
   * `run_in_thread`: the pipeline call runs holding one permit, and the
   * permit is given back whether the call returns or raises, so the count
   * is what it was before (app.py:110-118). `held` is the in-use count
   * while the pipeline runs.
   */
  method RunInThread(gate: Gate, pipeline: Outcome) returns (result: Outcome, ghost held: nat)
    requires gate.Valid() && gate.inFlight < gate.limit
    modifies gate
    ensures held == old(gate.inFlight) + 1 && 0 < held <= gate.limit
    ensures gate.Valid() && gate.inFlight == old(gate.inFlight)
    ensures result == pipeline
  {
    gate.Acquire();
    held := gate.inFlight;
    result := pipeline;
    gate.Release();
  }
}
