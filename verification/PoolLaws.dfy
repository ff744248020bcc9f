/** Limits of the worker pool over whole runs: how long its queues get, how many attempts run at once,
    that a new pool works, and that a cancelled one does nothing any more. */
module PoolLaws {
  import opened WorkerPool

  function Larger(a: nat, b: nat): nat {
    if a < b then b else a
  }

  /** The largest capacity, and the largest parallelism, that were ever in force. */
  ghost function MostCapacity<Q, R>(s: Pool<Q, R>, steps: seq<Step<Q, R>>): nat
    requires Runs(s, steps)
    decreases |steps|
  {
    Larger(s.capacity, if steps == [] then 0 else MostCapacity(Apply(s, steps[0]), steps[1..]))
  }

  ghost function MostParallelism<Q, R>(s: Pool<Q, R>, steps: seq<Step<Q, R>>): nat
    requires Runs(s, steps)
    decreases |steps|
  {
    Larger(s.parallelism, if steps == [] then 0 else MostParallelism(Apply(s, steps[0]), steps[1..]))
  }

  /** Neither queue, nor the attempts under way, exceed these limits. */
  predicate Within<Q, R>(s: Pool<Q, R>, capacity: nat, parallelism: nat) {
    |s.requests| <= capacity && |s.results| <= capacity && s.active <= parallelism
  }

  /** A step lengthens a queue only below the capacity, and starts an attempt only below the parallelism. */
  lemma StepStaysWithin<Q, R>(s: Pool<Q, R>, step: Step<Q, R>, capacity: nat, parallelism: nat)
    requires Enabled(s, step) && Within(s, capacity, parallelism) && s.capacity <= capacity && s.parallelism <= parallelism
    ensures Within(Apply(s, step), capacity, parallelism)
  {
  }

  lemma {:induction false} RunStaysWithin<Q, R>(s: Pool<Q, R>, steps: seq<Step<Q, R>>, capacity: nat, parallelism: nat)
    requires Runs(s, steps) && Within(s, capacity, parallelism)
    requires MostCapacity(s, steps) <= capacity && MostParallelism(s, steps) <= parallelism
    ensures Within(After(s, steps), capacity, parallelism)
    decreases |steps|
  {
    if steps != [] {
      StepStaysWithin(s, steps[0], capacity, parallelism);
      RunStaysWithin(Apply(s, steps[0]), steps[1..], capacity, parallelism);
    }
  }

  /** Backpressure over any run: requests and results never outnumber the largest capacity that was in
      force, nor the attempts under way the largest parallelism. */
  lemma QueuesAreBounded<Q, R>(capacity: nat, parallelism: nat, steps: seq<Step<Q, R>>)
    requires Runs(Fresh(capacity, parallelism), steps)
    ensures var s := Fresh(capacity, parallelism);
            Within(After(s, steps), MostCapacity(s, steps), MostParallelism(s, steps))
  {
    var s := Fresh<Q, R>(capacity, parallelism);
    RunStaysWithin(s, steps, MostCapacity(s, steps), MostParallelism(s, steps));
  }

  /** A request is admitted exactly while there is room, and goes to the end of the queue. */
  lemma RequestsAreAdmittedIff<Q, R>(s: Pool<Q, R>, request: Q)
    ensures Enabled(s, Step.Enqueue(request)) <==> !s.stopping && |s.requests| < s.capacity
    ensures Enabled(s, Step.Enqueue(request)) ==>
              var t := Apply(s, Step.Enqueue(request)); t == s.(requests := s.requests + [request], admitted := s.admitted + [request])
  {
  }

  /** A new pool works: one request goes all the way through its first thread. */
  lemma NewPoolServes<Q, R>(capacity: nat, parallelism: nat, request: Q, output: R)
    requires capacity > 0 && parallelism > 0
    ensures var steps := [Step.Enqueue(request), Dequeue(0), Complete(0, output), Publish(0), Take];
            Runs(Fresh(capacity, parallelism), steps) && After(Fresh(capacity, parallelism), steps).taken == [output]
  {
    var s0 := Fresh<Q, R>(capacity, parallelism);
    var s1 := Apply(s0, Step.Enqueue(request));
    assert s1.requests == [request] && s1.threads[0] == Idle;
    var s2 := Apply(s1, Dequeue(0));
    assert s2.threads[0] == Processing(request) && s2.active == 1;
    var s3 := Apply(s2, Complete(0, output));
    assert s3.threads[0] == Completed(0, request, output) && s3.nextPublication == 0;
    var s4 := Apply(s3, Publish(0));
    assert s4.results == [output];
    var s5 := Apply(s4, Take);
    assert s5.taken == [output];
    Onward(s4, Take, []);
    Onward(s3, Publish(0), [Take]);
    Onward(s2, Complete(0, output), [Publish(0), Take]);
    Onward(s1, Dequeue(0), [Complete(0, output), Publish(0), Take]);
    Onward(s0, Step.Enqueue(request), [Dequeue(0), Complete(0, output), Publish(0), Take]);
  }

  lemma Onward<Q, R>(s: Pool<Q, R>, step: Step<Q, R>, steps: seq<Step<Q, R>>)
    requires Enabled(s, step) && Runs(Apply(s, step), steps)
    ensures Runs(s, [step] + steps) && After(s, [step] + steps) == After(Apply(s, step), steps)
  {
    assert ([step] + steps)[1..] == steps;
  }

  /** Cancelling drops what waits and leaves the threads to finish; cancelling again does nothing. */
  lemma CancellingStops<Q, R>(s: Pool<Q, R>)
    requires Inv(s)
    ensures var t := Apply(s, Cancel);
            && t == s.(stopping := true, requests := [], results := [])
            && Apply(t, Cancel) == t
  {
  }

  /** After that nothing is admitted, started, published, taken or resized; threads only finish and leave. */
  lemma {:induction false} CancelledPoolOnlyFinishes<Q, R>(s: Pool<Q, R>, steps: seq<Step<Q, R>>)
    requires Inv(s) && s.stopping && Runs(s, steps)
    ensures forall k :: 0 <= k < |steps| ==> steps[k].Complete? || steps[k].Leave? || steps[k].Cancel?
    ensures var t := After(s, steps);
            && t.stopping && t.requests == [] && t.results == [] && |t.threads| == |s.threads| && t.active <= s.active
            && t.admitted == s.admitted && t.started == s.started && t.taken == s.taken && t.published == s.published
    decreases |steps|
  {
    if steps != [] {
      StepKeepsInv(s, steps[0]);
      CancelledPoolOnlyFinishes(Apply(s, steps[0]), steps[1..]);
    }
  }
}
