/** The bounded, resizable worker pool. Every critical section of the pool's mutex is one
    step. A condition-variable wait is the guard of the step behind it. */
module WorkerPool {

  const MAX_PARALLELISM: nat := 32

  /** Number of values of the usize ticket counters (x86-64). */
  const WORD: nat := 0x1_0000_0000_0000_0000

  datatype QueueError = Full | Stopping

  datatype WorkerError = InvalidCapacity | InvalidParallelism | ThreadStartFailed | PoolStopping

  datatype Outcome<+E> = Done | Refused(error: E)

  /** What one pool thread is doing between two critical sections. */
  datatype Thread<Q, R> =
    | Idle
    | Processing(request: Q)
    | Completed(ticket: nat, request: Q, result: R)
    | Exited
  {
    predicate Busy() {
      Processing? || Completed?
    }

    /** The request in the hands of the processor, if any. */
    ghost function Held(): multiset<Q> {
      if Processing? then multiset{request} else multiset{}
    }

    /** Lock sections left before the thread's function returns. */
    function Sections(): nat {
      if Processing? then 2 else if Exited? then 0 else 1
    }
  }

  datatype Completion<Q, R> = Completion(request: Q, result: R)

  /** The mutex-protected queues and the owned threads, followed by the history that the
      properties speak of: everything admitted, everything started, every completion in
      ticket order, how many of those were published, the threads holding the rest, and
      what the consumer has taken. */
  datatype Pool<Q, R> = Pool(
    capacity: nat,
    requests: seq<Q>,
    results: seq<R>,
    active: nat,
    parallelism: nat,
    stopping: bool,
    nextCompletion: nat,
    nextPublication: nat,
    threads: seq<Thread<Q, R>>,
    admitted: seq<Q>,
    started: seq<Q>,
    completions: seq<Completion<Q, R>>,
    published: nat,
    holders: seq<nat>,
    taken: seq<R>)

  // ---------------------------------------------------------------- steps

  datatype Step<Q, R> =
    | Dequeue(thread: nat)
    | Complete(thread: nat, output: R)
    | Publish(thread: nat)
    | Leave(thread: nat)
    | Take
    | Enqueue(request: Q)
    | Resize(target: nat, spawned: nat)
    | Recapacity(limit: nat)
    | Cancel
  {
    /** A step of a pool thread or of the result consumer. */
    predicate Progress() {
      Dequeue? || Complete? || Publish? || Take?
    }

    predicate ByThread() {
      Dequeue? || Complete? || Publish? || Leave?
    }
  }

  /** The wait guards of the thread loop and the checks of the owner's calls. */
  ghost predicate Enabled<Q, R>(s: Pool<Q, R>, step: Step<Q, R>) {
    match step
    case Dequeue(i) =>
      i < |s.threads| && s.threads[i].Idle? && !s.stopping
      && i < s.parallelism && s.active < s.parallelism && s.requests != []
    case Complete(i, _) =>
      i < |s.threads| && s.threads[i].Processing?
    case Publish(i) =>
      i < |s.threads| && s.threads[i].Completed? && !s.stopping && s.active > 0
      && |s.results| < s.capacity && s.threads[i].ticket == s.nextPublication
    case Leave(i) =>
      i < |s.threads| && s.stopping
      && (s.threads[i].Idle? || (s.threads[i].Completed? && s.active > 0))
    case Take => s.results != []
    case Enqueue(_) => !s.stopping && |s.requests| < s.capacity
    case Resize(target, spawned) =>
      !s.stopping && 1 <= target <= MAX_PARALLELISM
      && |s.threads| + spawned <= MAX_PARALLELISM
      && (spawned > 0 ==> |s.threads| + spawned <= target)
    case Recapacity(limit) => !s.stopping && limit > 0
    case Cancel => true
  }

  ghost function Repeat<T>(value: T, count: nat): (r: seq<T>) {
    seq(count, _ => value)
  }

  /** The state after the step's critical section. */
  ghost function Apply<Q, R>(s: Pool<Q, R>, step: Step<Q, R>): Pool<Q, R>
    requires Enabled(s, step)
  {
    match step
    case Dequeue(i) =>
      s.(active := s.active + 1,
         requests := s.requests[1..],
         threads := s.threads[i := Processing(s.requests[0])],
         started := s.started + [s.requests[0]])
    case Complete(i, output) =>
      var request := s.threads[i].request;
      s.(nextCompletion := (s.nextCompletion + 1) % WORD,
         threads := s.threads[i := Completed(s.nextCompletion, request, output)],
         completions := s.completions + [Completion(request, output)],
         holders := s.holders + [i])
    case Publish(i) =>
      s.(active := s.active - 1,
         results := s.results + [s.threads[i].result],
         nextPublication := (s.nextPublication + 1) % WORD,
         threads := s.threads[i := Idle],
         published := s.published + 1,
         holders := if s.holders == [] then [] else s.holders[1..])
    case Leave(i) =>
      s.(active := if s.threads[i].Completed? then s.active - 1 else s.active,
         threads := s.threads[i := Exited])
    case Take =>
      s.(results := s.results[1..], taken := s.taken + [s.results[0]])
    case Enqueue(request) =>
      s.(requests := s.requests + [request], admitted := s.admitted + [request])
    case Resize(target, spawned) =>
      // Partial growth keeps the old limit; the threads already started stay owned.
      var threads := s.threads + Repeat(Idle, spawned);
      s.(threads := threads, parallelism := if target <= |threads| then target else s.parallelism)
    case Recapacity(limit) => s.(capacity := limit)
    case Cancel => if s.stopping then s else s.(stopping := true, requests := [], results := [])
  }

  /** `steps` can be taken one after the other from `s`. */
  ghost predicate Runs<Q, R>(s: Pool<Q, R>, steps: seq<Step<Q, R>>)
    decreases |steps|
  {
    steps == [] || (Enabled(s, steps[0]) && Runs(Apply(s, steps[0]), steps[1..]))
  }

  ghost function After<Q, R>(s: Pool<Q, R>, steps: seq<Step<Q, R>>): Pool<Q, R>
    requires Runs(s, steps)
    decreases |steps|
  {
    if steps == [] then s else After(Apply(s, steps[0]), steps[1..])
  }

  ghost function Fresh<Q, R>(capacity: nat, parallelism: nat): Pool<Q, R> {
    Pool(capacity, [], [], 0, parallelism, false, 0, 0, Repeat(Idle, parallelism), [], [], [], 0, [], [])
  }

  // ---------------------------------------------------------------- invariant

  ghost function BusyCount<Q, R>(threads: seq<Thread<Q, R>>): nat {
    if threads == [] then 0
    else BusyCount(threads[..|threads| - 1]) + (if threads[|threads| - 1].Busy() then 1 else 0)
  }

  /** The requests being processed, as a multiset. */
  ghost function InProcess<Q, R>(threads: seq<Thread<Q, R>>): multiset<Q> {
    if threads == [] then multiset{}
    else InProcess(threads[..|threads| - 1]) + threads[|threads| - 1].Held()
  }

  ghost function Requests<Q, R>(completions: seq<Completion<Q, R>>): seq<Q> {
    seq(|completions|, k requires 0 <= k < |completions| => completions[k].request)
  }

  ghost function Results<Q, R>(completions: seq<Completion<Q, R>>): seq<R> {
    seq(|completions|, k requires 0 <= k < |completions| => completions[k].result)
  }

  ghost predicate Distinct(s: seq<nat>) {
    forall j, k :: 0 <= j < k < |s| ==> s[j] != s[k]
  }

  ghost predicate Sized<Q, R>(s: Pool<Q, R>) {
    && 1 <= s.parallelism <= |s.threads| <= MAX_PARALLELISM
    && s.capacity >= 1
    && s.active == BusyCount(s.threads)
    && (s.stopping ==> s.requests == [] && s.results == [])
    && (!s.stopping ==> forall i :: 0 <= i < |s.threads| ==> !s.threads[i].Exited?)
  }

  /** The unpublished tickets are the wrapped interval from nextPublication to
      nextCompletion, and `holders` names, in that order, the one thread behind each. */
  ghost predicate Ticketed<Q, R>(s: Pool<Q, R>) {
    && |s.completions| == s.published + |s.holders|
    && s.nextCompletion == |s.completions| % WORD
    && s.nextPublication == s.published % WORD
    && Distinct(s.holders)
    && (forall j :: 0 <= j < |s.holders| ==>
          s.holders[j] < |s.threads|
          && s.threads[s.holders[j]] == Completed((s.published + j) % WORD,
              s.completions[s.published + j].request, s.completions[s.published + j].result))
    && (forall i :: 0 <= i < |s.threads| && s.threads[i].Completed? ==> i in s.holders)
  }

  /** Requests leave in admission order and each is in exactly one place; taken results
      followed by queued results are the published prefix of the completion order. */
  ghost predicate Accounted<Q, R>(s: Pool<Q, R>) {
    && s.admitted == s.started + s.requests
    && multiset(s.started) == multiset(Requests(s.completions)) + InProcess(s.threads)
    && s.published <= |s.completions|
    && s.taken + s.results == Results(s.completions[..s.published])
  }

  ghost predicate Inv<Q, R>(s: Pool<Q, R>) {
    Sized(s) && (!s.stopping ==> Ticketed(s) && Accounted(s))
  }

  // ---------------------------------------------------------------- counting lemmas

  lemma {:induction false} BusyCountUpdate<Q, R>(threads: seq<Thread<Q, R>>, i: nat, t: Thread<Q, R>)
    requires i < |threads|
    ensures BusyCount(threads[i := t])
         == BusyCount(threads) - (if threads[i].Busy() then 1 else 0) + (if t.Busy() then 1 else 0)
  {
    var n := |threads| - 1;
    if i == n {
      assert threads[i := t][..n] == threads[..n];
    } else {
      assert threads[i := t][..n] == threads[..n][i := t];
      BusyCountUpdate(threads[..n], i, t);
    }
  }

  lemma InProcessUnfold<Q, R>(threads: seq<Thread<Q, R>>, prefix: seq<Thread<Q, R>>, last: Thread<Q, R>)
    requires threads == prefix + [last]
    ensures InProcess(threads) == InProcess(prefix) + last.Held()
  {
    assert threads[..|threads| - 1] == prefix;
  }

  lemma {:induction false} InProcessUpdate<Q, R>(threads: seq<Thread<Q, R>>, i: nat, t: Thread<Q, R>)
    requires i < |threads|
    ensures InProcess(threads[i := t]) + threads[i].Held() == InProcess(threads) + t.Held()
  {
    var n := |threads| - 1;
    var prefix, last := threads[..n], threads[n];
    InProcessUnfold(threads, prefix, last);
    if i == n {
      InProcessUnfold(threads[i := t], prefix, t);
      SwapBeside(InProcess(prefix), InProcess(prefix), multiset{}, multiset{}, multiset{});
    } else {
      InProcessUnfold(threads[i := t], prefix[i := t], last);
      InProcessUpdate(prefix, i, t);
      SwapBeside(InProcess(prefix[i := t]), InProcess(prefix), last.Held(), threads[i].Held(), t.Held());
    }
  }

  lemma SwapBeside<T>(a: multiset<T>, b: multiset<T>, beside: multiset<T>, x: multiset<T>, y: multiset<T>)
    requires a + x == b + y
    ensures (a + beside) + x == (b + beside) + y
  {
    assert (a + beside) + x == (a + x) + beside;
    assert (b + beside) + y == (b + y) + beside;
  }

  /** Moving `moved` from the inside to the outside of a sum. */
  lemma MoveAcross<T>(total: multiset<T>, outside: multiset<T>, inside: multiset<T>, inside': multiset<T>, moved: multiset<T>)
    requires total == outside + inside && inside == inside' + moved
    ensures total == (outside + moved) + inside'
  {
  }

  lemma {:induction false} IdleThreadsAddNothing<Q, R>(threads: seq<Thread<Q, R>>, count: nat)
    ensures BusyCount(threads + Repeat(Idle, count)) == BusyCount(threads)
    ensures InProcess(threads + Repeat(Idle, count)) == InProcess(threads)
  {
    var all := threads + Repeat(Idle, count);
    if count == 0 {
      assert all == threads;
    } else {
      assert all[..|all| - 1] == threads + Repeat(Idle, count - 1);
      IdleThreadsAddNothing(threads, count - 1);
    }
  }

  /** The pigeonhole behind dispatch: fewer busy threads than places below `bound` leaves a
      place that is not busy. */
  lemma {:induction false} SomeThreadNotBusy<Q, R>(threads: seq<Thread<Q, R>>, bound: nat) returns (i: nat)
    requires bound <= |threads| && BusyCount(threads) < bound
    ensures i < bound && !threads[i].Busy()
  {
    var n := |threads| - 1;
    if bound == |threads| && !threads[n].Busy() {
      i := n;
    } else {
      var smaller := if bound == |threads| then bound - 1 else bound;
      i := SomeThreadNotBusy(threads[..n], smaller);
    }
  }

  lemma {:induction false} BusyThreadExists<Q, R>(threads: seq<Thread<Q, R>>) returns (i: nat)
    requires BusyCount(threads) > 0
    ensures i < |threads| && threads[i].Busy()
  {
    var n := |threads| - 1;
    if threads[n].Busy() {
      i := n;
    } else {
      i := BusyThreadExists(threads[..n]);
    }
  }

  lemma {:induction false} BusyThreadCounts<Q, R>(threads: seq<Thread<Q, R>>, i: nat)
    requires i < |threads| && threads[i].Busy()
    ensures BusyCount(threads) > 0
  {
    if i < |threads| - 1 {
      BusyThreadCounts(threads[..|threads| - 1], i);
    }
  }

  ghost function Elements(s: seq<nat>): (r: set<nat>)
    ensures forall x :: x in r <==> x in s
  {
    if s == [] then {} else Elements(s[..|s| - 1]) + {s[|s| - 1]}
  }

  ghost function Below(bound: nat): (r: set<nat>)
    ensures forall x: nat :: x in r <==> x < bound
    ensures |r| == bound
  {
    if bound == 0 then {} else Below(bound - 1) + {bound - 1}
  }

  lemma {:induction false} DistinctSize(s: seq<nat>)
    requires Distinct(s)
    ensures |Elements(s)| == |s|
  {
    if s != [] {
      DistinctSize(s[..|s| - 1]);
    }
  }

  /** Distinct indices below `bound` are at most `bound` many. */
  lemma DistinctBelow(s: seq<nat>, bound: nat)
    requires Distinct(s) && forall j :: 0 <= j < |s| ==> s[j] < bound
    ensures |s| <= bound
  {
    DistinctSize(s);
    SubsetSize(Elements(s), Below(bound));
  }

  lemma {:induction false} SubsetSize<T>(a: set<T>, b: set<T>)
    requires a <= b
    ensures |a| <= |b|
  {
    if a != {} {
      var x :| x in a;
      SubsetSize(a - {x}, b - {x});
    }
  }

  // ---------------------------------------------------------------- the invariant is inductive

  lemma FreshPoolSatisfiesInv<Q, R>(capacity: nat, parallelism: nat)
    requires capacity > 0 && 1 <= parallelism <= MAX_PARALLELISM
    ensures Inv(Fresh<Q, R>(capacity, parallelism))
  {
    IdleThreadsAddNothing<Q, R>([], parallelism);
    assert [] + Repeat<Thread<Q, R>>(Idle, parallelism) == Repeat(Idle, parallelism);
    var s := Fresh<Q, R>(capacity, parallelism);
    assert s.admitted == s.started + s.requests;
    assert s.taken + s.results == Results(s.completions[..s.published]);
    assert Requests(s.completions) == [];
  }

  /** Adding `added` to the inside of a sum. */
  lemma AddInside<T>(total: multiset<T>, outside: multiset<T>, inside: multiset<T>, inside': multiset<T>, added: multiset<T>)
    requires total == outside + inside && inside' == inside + added
    ensures total + added == outside + inside'
  {
  }

  lemma DequeueMovesRequest<Q, R>(s: Pool<Q, R>, i: nat)
    requires Enabled(s, Dequeue(i))
    ensures InProcess(s.threads[i := Processing(s.requests[0])]) == InProcess(s.threads) + multiset{s.requests[0]}
  {
    InProcessUpdate(s.threads, i, Processing(s.requests[0]));
    assert InProcess(s.threads[i := Processing(s.requests[0])]) + multiset{} == InProcess(s.threads[i := Processing(s.requests[0])]);
  }

  lemma DequeueKeepsAccounts<Q, R>(s: Pool<Q, R>, i: nat)
    requires Accounted(s) && Enabled(s, Dequeue(i))
    ensures Accounted(Apply(s, Dequeue(i)))
  {
    var t, held := Apply(s, Dequeue(i)), multiset{s.requests[0]};
    assert t.started + t.requests == s.started + s.requests;
    DequeueMovesRequest(s, i);
    assert multiset(t.started) == multiset(s.started) + held;
    AddInside(multiset(s.started), multiset(Requests(s.completions)), InProcess(s.threads), InProcess(t.threads), held);
  }

  lemma DequeueKeepsTickets<Q, R>(s: Pool<Q, R>, i: nat)
    requires Ticketed(s) && Enabled(s, Dequeue(i))
    ensures Ticketed(Apply(s, Dequeue(i)))
  {
  }

  lemma DequeueKeepsInv<Q, R>(s: Pool<Q, R>, i: nat)
    requires Inv(s) && Enabled(s, Dequeue(i))
    ensures Inv(Apply(s, Dequeue(i)))
  {
    BusyCountUpdate(s.threads, i, Apply(s, Dequeue(i)).threads[i]);
    DequeueKeepsTickets(s, i);
    DequeueKeepsAccounts(s, i);
  }

  lemma CompleteKeepsAccounts<Q, R>(s: Pool<Q, R>, i: nat, output: R)
    requires Inv(s) && !s.stopping && Enabled(s, Complete(i, output))
    ensures Accounted(Apply(s, Complete(i, output)))
  {
    var t := Apply(s, Complete(i, output));
    InProcessUpdate(s.threads, i, t.threads[i]);
    var request := s.threads[i].request;
    assert t.completions[..t.published] == s.completions[..s.published];
    assert InProcess(s.threads) + multiset{} == InProcess(s.threads);
    MoveAcross(multiset(s.started), multiset(Requests(s.completions)), InProcess(s.threads),
               InProcess(t.threads), multiset{request});
    RequestsGrow(s.completions, Completion(request, output));
  }

  lemma RequestsGrow<Q, R>(completions: seq<Completion<Q, R>>, last: Completion<Q, R>)
    ensures multiset(Requests(completions + [last])) == multiset(Requests(completions)) + multiset{last.request}
  {
    assert Requests(completions + [last]) == Requests(completions) + [last.request];
  }

  lemma CompleteKeepsTickets<Q, R>(s: Pool<Q, R>, i: nat, output: R)
    requires Inv(s) && !s.stopping && Enabled(s, Complete(i, output))
    ensures Ticketed(Apply(s, Complete(i, output)))
  {
    var t := Apply(s, Complete(i, output));
    assert (|s.completions| + 1) % WORD == (|s.completions| % WORD + 1) % WORD;
    assert i !in s.holders;
    forall k | 0 <= k < |t.threads| && t.threads[k].Completed? ensures k in t.holders {
      assert k == i || k in s.holders;
    }
  }

  lemma CompleteKeepsInv<Q, R>(s: Pool<Q, R>, i: nat, output: R)
    requires Inv(s) && Enabled(s, Complete(i, output))
    ensures Inv(Apply(s, Complete(i, output)))
  {
    BusyCountUpdate(s.threads, i, Apply(s, Complete(i, output)).threads[i]);
    if !s.stopping {
      CompleteKeepsTickets(s, i, output);
      CompleteKeepsAccounts(s, i, output);
    }
  }

  /** Among at most 32 outstanding tickets, equality with the publication counter singles
      out the oldest completion, also when the counters have wrapped. */
  lemma TicketNamesOldest<Q, R>(s: Pool<Q, R>, i: nat)
    requires Inv(s) && !s.stopping
    requires i < |s.threads| && s.threads[i].Completed? && s.threads[i].ticket == s.nextPublication
    ensures s.holders != [] && s.holders[0] == i
  {
    var j :| 0 <= j < |s.holders| && s.holders[j] == i;
    DistinctBelow(s.holders, |s.threads|);
    assert (s.published + j) % WORD == s.published % WORD;
    WrappedEqual(s.published, j);
  }

  lemma WrappedEqual(base: nat, offset: nat)
    requires offset < WORD && (base + offset) % WORD == base % WORD
    ensures offset == 0
  {
    var q, r := base / WORD, base % WORD;
    assert base == q * WORD + r;
    var q', r' := (base + offset) / WORD, (base + offset) % WORD;
    assert base + offset == q' * WORD + r';
    assert offset == (q' - q) * WORD;
  }

  lemma SuccessorWraps(n: nat)
    ensures (n + 1) % WORD == (n % WORD + 1) % WORD
  {
  }

  /** The other holders keep their tickets and move up by one. */
  lemma HoldersMoveUp<Q, R>(s: Pool<Q, R>, i: nat, t: Pool<Q, R>, j: nat)
    requires Ticketed(s) && s.holders != [] && s.holders[0] == i < |s.threads| && j + 1 < |s.holders|
    requires t.threads == s.threads[i := Idle] && t.completions == s.completions && t.holders == s.holders[1..] && t.published == s.published + 1
    ensures t.holders[j] < |t.threads|
    ensures t.threads[t.holders[j]]
         == Completed((t.published + j) % WORD, t.completions[t.published + j].request, t.completions[t.published + j].result)
  {
    assert t.holders[j] == s.holders[j + 1] != i;
    assert s.published + (j + 1) == t.published + j;
  }

  lemma PublishKeepsTickets<Q, R>(s: Pool<Q, R>, i: nat)
    requires Inv(s) && Enabled(s, Publish(i))
    ensures Ticketed(Apply(s, Publish(i)))
  {
    var t := Apply(s, Publish(i));
    TicketNamesOldest(s, i);
    SuccessorWraps(s.published);
    forall j | 0 <= j < |t.holders|
      ensures t.holders[j] < |t.threads|
      ensures t.threads[t.holders[j]] == Completed((t.published + j) % WORD,
                  t.completions[t.published + j].request, t.completions[t.published + j].result)
    {
      HoldersMoveUp(s, i, t, j);
    }
    PublishLeavesOthersHeld(s, i);
  }

  lemma PublishLeavesOthersHeld<Q, R>(s: Pool<Q, R>, i: nat)
    requires Inv(s) && Enabled(s, Publish(i)) && s.holders != [] && s.holders[0] == i
    ensures forall k :: 0 <= k < |s.threads| && k != i && s.threads[k].Completed? ==> k in s.holders[1..]
  {
    forall k | 0 <= k < |s.threads| && k != i && s.threads[k].Completed? ensures k in s.holders[1..] {
      var j :| 0 <= j < |s.holders| && s.holders[j] == k;
      assert s.holders[1..][j - 1] == k;
    }
  }

  lemma CompletedIsNotInProcess<Q, R>(threads: seq<Thread<Q, R>>, i: nat)
    requires i < |threads| && threads[i].Completed?
    ensures InProcess(threads[i := Idle]) == InProcess(threads)
  {
    InProcessUpdate(threads, i, Idle);
    assert InProcess(threads[i := Idle]) + multiset{} == InProcess(threads[i := Idle]);
    assert InProcess(threads) + multiset{} == InProcess(threads);
  }

  lemma PublishKeepsAccounts<Q, R>(s: Pool<Q, R>, i: nat)
    requires Inv(s) && Enabled(s, Publish(i))
    ensures Accounted(Apply(s, Publish(i)))
  {
    var t := Apply(s, Publish(i));
    TicketNamesOldest(s, i);
    CompletedIsNotInProcess(s.threads, i);
    PublishedPrefixGrows(s, i);
  }

  lemma PublishedPrefixGrows<Q, R>(s: Pool<Q, R>, i: nat)
    requires Inv(s) && Enabled(s, Publish(i)) && s.holders != [] && s.holders[0] == i
    ensures (s.taken + (s.results + [s.threads[i].result])) == Results(s.completions[..s.published + 1])
  {
    var next := s.completions[s.published];
    assert s.threads[s.holders[0]] == Completed((s.published + 0) % WORD,
        s.completions[s.published + 0].request, s.completions[s.published + 0].result);
    assert s.completions[..s.published + 1] == s.completions[..s.published] + [next];
    assert Results(s.completions[..s.published + 1]) == Results(s.completions[..s.published]) + [next.result];
    assert s.taken + (s.results + [next.result]) == (s.taken + s.results) + [next.result];
  }

  lemma PublishKeepsInv<Q, R>(s: Pool<Q, R>, i: nat)
    requires Inv(s) && Enabled(s, Publish(i))
    ensures Inv(Apply(s, Publish(i)))
  {
    BusyCountUpdate(s.threads, i, Apply(s, Publish(i)).threads[i]);
    PublishKeepsTickets(s, i);
    PublishKeepsAccounts(s, i);
  }

  lemma LeaveKeepsInv<Q, R>(s: Pool<Q, R>, i: nat)
    requires Inv(s) && Enabled(s, Leave(i))
    ensures Inv(Apply(s, Leave(i)))
  {
    BusyCountUpdate(s.threads, i, Exited);
  }

  lemma TakeKeepsInv<Q, R>(s: Pool<Q, R>)
    requires Inv(s) && Enabled(s, Take)
    ensures Inv(Apply(s, Take))
  {
    var t := Apply(s, Take);
    assert t.taken + t.results == s.taken + s.results;
    assert !s.stopping;
  }

  lemma ResizeKeepsInv<Q, R>(s: Pool<Q, R>, target: nat, spawned: nat)
    requires Inv(s) && Enabled(s, Resize(target, spawned))
    ensures Inv(Apply(s, Resize(target, spawned)))
  {
    ResizeKeepsTickets(s, target, spawned);
    IdleThreadsAddNothing(s.threads, spawned);
  }

  lemma ResizeKeepsTickets<Q, R>(s: Pool<Q, R>, target: nat, spawned: nat)
    requires Inv(s) && Enabled(s, Resize(target, spawned))
    ensures Ticketed(Apply(s, Resize(target, spawned)))
  {
    var t := Apply(s, Resize(target, spawned));
    forall i | 0 <= i < |t.threads| && t.threads[i].Completed? ensures i in t.holders {
      assert i < |s.threads|;
    }
  }

  lemma OwnerStepKeepsInv<Q, R>(s: Pool<Q, R>, step: Step<Q, R>)
    requires Inv(s) && Enabled(s, step) && (step.Enqueue? || step.Recapacity? || step.Cancel?)
    ensures Inv(Apply(s, step))
  {
    if step.Enqueue? {
      assert Apply(s, step).admitted == s.started + (s.requests + [step.request]);
    }
  }

  lemma StepKeepsInv<Q, R>(s: Pool<Q, R>, step: Step<Q, R>)
    requires Inv(s) && Enabled(s, step)
    ensures Inv(Apply(s, step))
  {
    match step
    case Dequeue(i) => DequeueKeepsInv(s, i);
    case Complete(i, output) => CompleteKeepsInv(s, i, output);
    case Publish(i) => PublishKeepsInv(s, i);
    case Leave(i) => LeaveKeepsInv(s, i);
    case Take => TakeKeepsInv(s);
    case Resize(target, spawned) => ResizeKeepsInv(s, target, spawned);
    case _ => OwnerStepKeepsInv(s, step);
  }

  lemma {:induction false} RunKeepsInv<Q, R>(s: Pool<Q, R>, steps: seq<Step<Q, R>>)
    requires Inv(s) && Runs(s, steps)
    ensures Inv(After(s, steps))
    decreases |steps|
  {
    if steps != [] {
      StepKeepsInv(s, steps[0]);
      RunKeepsInv(Apply(s, steps[0]), steps[1..]);
    }
  }

  // ---------------------------------------------------------------- order and delivery

  /** Ticket order over whole runs: whatever was enqueued, resized or taken in between, the
      consumer has seen, and the result queue holds, a prefix of the completion order; at most
      32 completions are unpublished; and requests were started in the order of admission. */
  lemma CompletionOrderIsKept<Q, R>(capacity: nat, parallelism: nat, steps: seq<Step<Q, R>>)
    requires capacity > 0 && 1 <= parallelism <= MAX_PARALLELISM
    requires Runs(Fresh(capacity, parallelism), steps)
    ensures var s := After(Fresh(capacity, parallelism), steps);
            !s.stopping ==>
              && s.taken + s.results <= Results(s.completions)
              && |s.completions| - |s.taken + s.results| <= MAX_PARALLELISM
              && s.started <= s.admitted
              && multiset(s.admitted) == multiset(Requests(s.completions)) + InProcess(s.threads) + multiset(s.requests)
  {
    var s := After(Fresh(capacity, parallelism), steps);
    FreshPoolSatisfiesInv<Q, R>(capacity, parallelism);
    RunKeepsInv(Fresh(capacity, parallelism), steps);
    if !s.stopping {
      DistinctBelow(s.holders, |s.threads|);
      var published, all := Results(s.completions[..s.published]), Results(s.completions);
      assert |published| <= |all| && published == all[..|published|];
    }
  }

  ghost predicate WorkLeft<Q, R>(s: Pool<Q, R>) {
    s.requests != [] || s.results != [] || s.active > 0
  }

  /** A free place below the limit is never wasted: with a request queued and fewer active
      attempts than the limit allows, some thread below the limit can dequeue, however many
      surplus threads are still busy after the limit was lowered. */
  lemma DispatchIsWorkConserving<Q, R>(s: Pool<Q, R>) returns (i: nat)
    requires Inv(s) && !s.stopping && s.requests != [] && s.active < s.parallelism
    ensures Enabled(s, Dequeue(i))
  {
    i := SomeThreadNotBusy(s.threads, s.parallelism);
  }

  /** No deadlock: while work is left, a thread or the consumer can move. */
  lemma SomeProgressStepIsEnabled<Q, R>(s: Pool<Q, R>, output: R) returns (step: Step<Q, R>)
    requires Inv(s) && !s.stopping && WorkLeft(s)
    ensures step.Progress() && Enabled(s, step)
  {
    if s.results != [] {
      step := Take;
    } else if s.active == 0 {
      var i := DispatchIsWorkConserving(s);
      step := Dequeue(i);
    } else {
      var i := BusyThreadExists(s.threads);
      if s.threads[i].Processing? {
        step := Complete(i, output);
      } else {
        assert i in s.holders;
        step := Publish(s.holders[0]);
        BusyThreadCounts(s.threads, s.holders[0]);
      }
    }
  }

  /** Remaining lock sections: four for a queued request, three while it is processed, two
      while its completion waits, one for a queued result. */
  ghost function Measure<Q, R>(s: Pool<Q, R>): nat {
    4 * |s.requests| + 2 * BusyCount(s.threads) + |InProcess(s.threads)| + |s.results|
  }

  lemma ProgressLowersMeasure<Q, R>(s: Pool<Q, R>, step: Step<Q, R>)
    requires Inv(s) && Enabled(s, step) && !s.stopping
    ensures step.Progress() ==> Measure(Apply(s, step)) == Measure(s) - 1
    ensures step.Resize? || step.Recapacity? ==> Measure(Apply(s, step)) == Measure(s)
  {
    if step.ByThread() {
      var i := step.thread;
      var t := Apply(s, step).threads[i];
      BusyCountUpdate(s.threads, i, t);
      InProcessUpdate(s.threads, i, t);
      assert |InProcess(Apply(s, step).threads) + s.threads[i].Held()| == |InProcess(s.threads) + t.Held()|;
    } else if step.Resize? {
      IdleThreadsAddNothing(s.threads, step.spawned);
    }
  }

  ghost function ProgressCount<Q, R>(steps: seq<Step<Q, R>>): nat {
    if steps == [] then 0 else (if steps[0].Progress() then 1 else 0) + ProgressCount(steps[1..])
  }

  ghost predicate Draining<Q, R>(steps: seq<Step<Q, R>>) {
    forall k :: 0 <= k < |steps| ==> steps[k].Progress() || steps[k].Resize? || steps[k].Recapacity?
  }

  lemma {:induction false} DrainingRunIsShort<Q, R>(s: Pool<Q, R>, steps: seq<Step<Q, R>>)
    requires Inv(s) && !s.stopping && Runs(s, steps) && Draining(steps)
    ensures Inv(After(s, steps)) && !After(s, steps).stopping
    ensures After(s, steps).admitted == s.admitted
    ensures Measure(After(s, steps)) + ProgressCount(steps) == Measure(s)
    decreases |steps|
  {
    if steps != [] {
      ProgressLowersMeasure(s, steps[0]);
      StepKeepsInv(s, steps[0]);
      DrainingRunIsShort(Apply(s, steps[0]), steps[1..]);
    }
  }

  ghost predicate Stuck<Q(!new), R(!new)>(s: Pool<Q, R>) {
    forall step: Step<Q, R> :: step.Progress() ==> !Enabled(s, step)
  }

  /** Progress and exactly-once delivery together: from any reachable state, under any
      resizing, a run of thread and consumer steps takes at most Measure(s) of them; and once
      none is possible any more, every admitted request has completed exactly once and every
      result has been taken, in completion order. */
  lemma DrainingDeliversEverythingOnce<Q(!new), R(!new)>(s: Pool<Q, R>, steps: seq<Step<Q, R>>, output: R)
    requires Inv(s) && !s.stopping && Runs(s, steps) && Draining(steps)
    ensures ProgressCount(steps) <= Measure(s)
    ensures var t := After(s, steps);
            Stuck(t) ==>
              && multiset(Requests(t.completions)) == multiset(s.admitted)
              && t.taken == Results(t.completions)
  {
    DrainingRunIsShort(s, steps);
    var t := After(s, steps);
    if Stuck(t) {
      if WorkLeft(t) {
        var step := SomeProgressStepIsEnabled(t, output);
        assert false;
      }
      if t.holders != [] {
        BusyThreadCounts(t.threads, t.holders[0]);
        assert false;
      }
      NothingInProcess(t.threads);
      assert t.completions[..t.published] == t.completions;
      assert t.taken + [] == t.taken;
      assert t.started + [] == t.started;
    }
  }

  lemma {:induction false} NothingInProcess<Q, R>(threads: seq<Thread<Q, R>>)
    requires BusyCount(threads) == 0
    ensures InProcess(threads) == multiset{}
  {
    if threads != [] {
      NothingInProcess(threads[..|threads| - 1]);
    }
  }

  // ---------------------------------------------------------------- cancellation and join

  /** Lock sections a thread still has before its function returns. */
  ghost function ToJoin<Q, R>(threads: seq<Thread<Q, R>>): nat {
    if threads == [] then 0
    else ToJoin(threads[..|threads| - 1]) + threads[|threads| - 1].Sections()
  }

  lemma {:induction false} ToJoinUpdate<Q, R>(threads: seq<Thread<Q, R>>, i: nat, t: Thread<Q, R>)
    requires i < |threads|
    ensures ToJoin(threads[i := t]) + threads[i].Sections() == ToJoin(threads) + t.Sections()
  {
    var n := |threads| - 1;
    if i == n {
      assert threads[i := t][..n] == threads[..n];
    } else {
      assert threads[i := t][..n] == threads[..n][i := t];
      ToJoinUpdate(threads[..n], i, t);
    }
  }

  /** After cancellation no thread waits: each one that has not returned has its own next
      step enabled, whatever the others do. */
  lemma EveryThreadCanLeave<Q, R>(s: Pool<Q, R>, i: nat, output: R)
    requires Inv(s) && s.stopping && i < |s.threads| && !s.threads[i].Exited?
    ensures Enabled(s, if s.threads[i].Processing? then Complete(i, output) else Leave(i))
  {
    if s.threads[i].Completed? {
      BusyThreadCounts(s.threads, i);
    }
  }

  ghost predicate AllBySteppingThreads<Q, R>(steps: seq<Step<Q, R>>) {
    forall k :: 0 <= k < |steps| ==> steps[k].ByThread()
  }

  /** Join ends: after cancellation the threads take exactly ToJoin further steps between
      them; nothing is published any more, and when no step is left every thread has
      returned with its admission slot given back. */
  lemma {:induction false} JoinEnds<Q(!new), R(!new)>(s: Pool<Q, R>, steps: seq<Step<Q, R>>, output: R)
    requires Inv(s) && s.stopping && Runs(s, steps) && AllBySteppingThreads(steps)
    ensures |steps| <= ToJoin(s.threads)
    ensures var t := After(s, steps);
            && t.results == [] && t.taken == s.taken && t.requests == []
            && ((forall step: Step<Q, R> :: step.ByThread() ==> !Enabled(t, step)) ==>
                  t.active == 0 && forall i :: 0 <= i < |t.threads| ==> t.threads[i].Exited?)
    decreases |steps|
  {
    if steps == [] {
      if forall step: Step<Q, R> :: step.ByThread() ==> !Enabled(s, step) {
        forall i | 0 <= i < |s.threads| ensures s.threads[i].Exited? {
          if !s.threads[i].Exited? {
            EveryThreadCanLeave(s, i, output);
            assert false;
          }
        }
        if s.active > 0 {
          var i := BusyThreadExists(s.threads);
          assert false;
        }
      }
    } else {
      var next := Apply(s, steps[0]);
      ToJoinUpdate(s.threads, steps[0].thread, next.threads[steps[0].thread]);
      StepKeepsInv(s, steps[0]);
      JoinEnds(next, steps[1..], output);
    }
  }

  // ---------------------------------------------------------------- the pool itself

  class Workers<Q, R> {
    var capacity: nat
    var requests: seq<Q>
    var results: seq<R>
    var active: nat
    var parallelism: nat
    var stopping: bool
    var nextCompletion: nat
    var nextPublication: nat
    var threads: seq<Thread<Q, R>>
    ghost var admitted: seq<Q>
    ghost var started: seq<Q>
    ghost var completions: seq<Completion<Q, R>>
    ghost var published: nat
    ghost var holders: seq<nat>
    ghost var taken: seq<R>

    ghost function State(): Pool<Q, R>
      reads this
    {
      Pool(capacity, requests, results, active, parallelism, stopping, nextCompletion, nextPublication,
           threads, admitted, started, completions, published, holders, taken)
    }

    /** The pool before its first resize; `Open` validates and grows it. */
    constructor (capacity: nat)
      ensures State() == Fresh(capacity, 0)
    {
      this.capacity, requests, results, active, parallelism := capacity, [], [], 0, 0;
      stopping, nextCompletion, nextPublication, threads := false, 0, 0, [];
      admitted, started, completions, published, holders, taken := [], [], [], 0, [], [];
      new;
      assert Repeat<Thread<Q, R>>(Idle, 0) == [];
    }

    /** Construction: `startable` threads can be started before the system refuses one. */
    static method Open(capacity: nat, parallelism: nat, startable: nat)
      returns (outcome: Outcome<WorkerError>, pool: Workers?<Q, R>)
      ensures outcome.Done? <==> capacity > 0 && 1 <= parallelism <= MAX_PARALLELISM && parallelism <= startable
      ensures outcome.Done? ==> pool != null && fresh(pool)
                                && pool.State() == Fresh(capacity, parallelism) && Inv(pool.State())
    {
      pool := null;
      if capacity == 0 {
        return Refused(InvalidCapacity), null;
      }
      if parallelism == 0 || parallelism > MAX_PARALLELISM {
        return Refused(InvalidParallelism), null;
      }
      var workers := new Workers<Q, R>(capacity);
      outcome := workers.UpdateParallelism(parallelism, startable);
      pool := workers;
      if outcome.Done? {
        assert [] + Repeat<Thread<Q, R>>(Idle, parallelism) == Repeat(Idle, parallelism);
        FreshPoolSatisfiesInv<Q, R>(capacity, parallelism);
      }
    }

    method Enqueue(request: Q) returns (outcome: Outcome<QueueError>)
      modifies this
      ensures outcome.Done? <==> Enabled(old(State()), Step.Enqueue(request))
      ensures outcome.Done? ==> State() == Apply(old(State()), Step.Enqueue(request))
      ensures outcome.Refused? ==> State() == old(State())
                                   && outcome.error == if stopping then Stopping else Full
    {
      if stopping {
        return Refused(Stopping);
      }
      if |requests| >= capacity {
        return Refused(Full);
      }
      requests := requests + [request];
      admitted := admitted + [request];
      return Done;
    }

    method TryTakeResult() returns (result: seq<R>)
      modifies this
      ensures result == [] <==> old(results) == []
      ensures result == [] ==> State() == old(State())
      ensures result != [] ==> result == old(results)[..1] && State() == Apply(old(State()), Step.Take)
    {
      if results == [] {
        return [];
      }
      result := results[..1];
      taken := taken + [results[0]];
      results := results[1..];
    }

    method UpdateQueueCapacity(limit: nat) returns (outcome: Outcome<WorkerError>)
      modifies this
      ensures outcome == if limit == 0 then Refused(InvalidCapacity)
                         else if old(stopping) then Refused(PoolStopping) else Done
      ensures State() == if outcome.Done? then Apply(old(State()), Recapacity(limit)) else old(State())
    {
      if limit == 0 {
        return Refused(InvalidCapacity);
      }
      if stopping {
        return Refused(PoolStopping);
      }
      capacity := limit;
      return Done;
    }

    /** Threads are started one by one under the lock; the limit is published only when all
        of them are owned. */
    method UpdateParallelism(target: nat, startable: nat) returns (outcome: Outcome<WorkerError>)
      requires |threads| <= MAX_PARALLELISM
      modifies this
      ensures 1 <= target <= MAX_PARALLELISM && !old(stopping) ==>
                var missing := if target > |old(threads)| then target - |old(threads)| else 0;
                var spawned := if missing <= startable then missing else startable;
                && outcome == (if missing <= startable then Done else Refused(ThreadStartFailed))
                && State() == Apply(old(State()), Resize(target, spawned))
      ensures !(1 <= target <= MAX_PARALLELISM && !old(stopping)) ==>
                State() == old(State())
                && outcome == Refused(if 1 <= target <= MAX_PARALLELISM then PoolStopping else InvalidParallelism)
    {
      if target == 0 || target > MAX_PARALLELISM {
        return Refused(InvalidParallelism);
      }
      if stopping {
        return Refused(PoolStopping);
      }
      ghost var before := State();
      var spawned := 0;
      while |threads| < target
        invariant spawned <= startable
        invariant |threads| == |before.threads| + spawned
        invariant spawned > 0 ==> |threads| <= target
        invariant State() == before.(threads := before.threads + Repeat(Idle, spawned))
      {
        if spawned == startable {
          return Refused(ThreadStartFailed);
        }
        threads := threads + [Idle];
        spawned := spawned + 1;
        assert threads == before.threads + Repeat(Idle, spawned);
      }
      parallelism := target;
      return Done;
    }

    method CancelPending()
      modifies this
      ensures State() == Apply(old(State()), Cancel)
    {
      if stopping {
        return;
      }
      stopping := true;
      requests := [];
      results := [];
    }

    /** The first critical section of the thread loop, behind its wait. Returns whether a
        request was taken. */
    method TakeRequestOrLeave(i: nat) returns (taken: bool)
      requires Enabled(State(), Dequeue(i)) || (Enabled(State(), Leave(i)) && threads[i].Idle?)
      modifies this
      ensures taken == !old(stopping)
      ensures State() == if taken then Apply(old(State()), Dequeue(i)) else Apply(old(State()), Leave(i))
    {
      if stopping {
        threads := threads[i := Exited];
        return false;
      }
      active := active + 1;
      threads := threads[i := Processing(requests[0])];
      started := started + [requests[0]];
      requests := requests[1..];
      return true;
    }

    /** Taking the completion ticket once the processor has returned or panicked. */
    method TakeTicket(i: nat, output: R) returns (ticket: nat)
      requires Enabled(State(), Complete(i, output))
      modifies this
      ensures State() == Apply(old(State()), Complete(i, output)) && ticket == old(nextCompletion)
    {
      ticket := nextCompletion;
      nextCompletion := (nextCompletion + 1) % WORD;
      completions := completions + [Completion(threads[i].request, output)];
      holders := holders + [i];
      threads := threads[i := Completed(ticket, threads[i].request, output)];
    }

    /** The last critical section, behind the publication wait. Returns whether the thread
        goes round again. */
    method PublishOrLeave(i: nat) returns (again: bool)
      requires Enabled(State(), Publish(i)) || (Enabled(State(), Leave(i)) && threads[i].Completed?)
      modifies this
      ensures again == !old(stopping)
      ensures State() == if again then Apply(old(State()), Publish(i)) else Apply(old(State()), Leave(i))
    {
      active := active - 1;
      if stopping {
        threads := threads[i := Exited];
        return false;
      }
      results := results + [threads[i].result];
      nextPublication := (nextPublication + 1) % WORD;
      threads := threads[i := Idle];
      published := published + 1;
      holders := if holders == [] then [] else holders[1..];
      return true;
    }
  }
}
