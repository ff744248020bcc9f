/** Uploads come to rest. The work left in the history is a number; each call that carries an answer
    in, the parser's, a destination's or the clock's, takes some of it away, and only a destination
    that asks for a later retry puts some back. As long as a job is busy there is such a call to
    make, so a coordinator whose requests are answered ends with every job idle. */
module UploadSettling {
  import opened UploadJobs
  import opened UploadLedger
  import opened UploadEntries
  import opened CoordinatorSpec
  import opened UploadProgress

  // ---------------------------------------------------------------- work left

  /** How many more answers a destination can take: its request's, and before that the one that
      has the request sent. */
  function Weight(state: ProviderState): nat {
    if state.Waiting? || state.RetryScheduled? then 2 else if state.Active? then 1 else 0
  }

  function EntryWeight(e: Entry): nat {
    (if e.metadataPending then 1 else 0)
    + Weight(e.State(DpsReport)) + Weight(e.State(Wingman)) + Weight(e.State(DonBot)) + Weight(e.State(Twitch))
  }

  function Load(jobs: seq<Entry>): nat {
    if jobs == [] then 0 else EntryWeight(jobs[0]) + Load(jobs[1..])
  }

  /** Calls that bring an answer in or tidy the history, whatever they bring. */
  predicate Settling(step: Step) {
    step.SettingMetadata? || step.FailingMetadata? || step.ApplyingResult? || step.DispatchingDue? || step.Limiting?
  }

  predicate ParserOwes(s: State, id: nat) {
    !s.stopping && IndexOf(s.jobs, id).Some? && AwaitsMetadata(s.jobs[IndexOf(s.jobs, id).value])
  }

  /** The answers a call takes in: the parser's, a destination's, or each due retry sent. */
  function Done(s: State, step: Step): nat {
    match step
    case SettingMetadata(id, _, _) => if ParserOwes(s, id) then 1 else 0
    case FailingMetadata(id, _) => if ParserOwes(s, id) then 1 else 0
    case ApplyingResult(result, now, accepts) => if ApplyResult(s, result, now, accepts).1.None? then 1 else 0
    case DispatchingDue(budget, now, answers) => DispatchDueRetries(s, budget, now, answers).1
    case _ => 0
  }

  /** An accepted request for a later retry. */
  predicate Defers(s: State, step: Step) {
    step.ApplyingResult? && step.result.outcome.RetryAfter? && Done(s, step) == 1
  }

  function DoneIn(s: State, steps: seq<Step>): nat {
    if steps == [] then 0
    else
      var before := steps[..|steps| - 1];
      DoneIn(s, before) + Done(After(s, before), steps[|steps| - 1])
  }

  function DeferralsIn(s: State, steps: seq<Step>): nat {
    if steps == [] then 0
    else
      var before := steps[..|steps| - 1];
      DeferralsIn(s, before) + if Defers(After(s, before), steps[|steps| - 1]) then 1 else 0
  }

  // ---------------------------------------------------------------- one entry

  lemma PutWeight(e: Entry, p: Provider, state: ProviderState)
    ensures EntryWeight(e.(job := e.job.Put(p, state))) == EntryWeight(e) - Weight(e.State(p)) + Weight(state)
  {
    match p case DpsReport => case Wingman => case DonBot => case Twitch =>
  }

  lemma IdleHasNoWeight(e: Entry)
    ensures EntryWeight(e) == 0 <==> !e.Busy()
    ensures EntryWeight(e) <= 9
  {
  }

  lemma SettlingDependentsRaisesNothing(e: Entry, cancelled: bool)
    ensures EntryWeight(SettleDependents(e, cancelled)) <= EntryWeight(e)
  {
    SettleDependentsEffect(e, cancelled);
  }

  lemma FailingLowers(e: Entry, p: Provider)
    requires e.State(p).Busy()
    ensures EntryWeight(FailDispatch(e, p)) < EntryWeight(e)
  {
    TryEffect(e, p, Failed);
    PutWeight(e, p, Failed);
    SettlingDependentsRaisesNothing(Try(e, p, Failed), false);
  }

  lemma AdmittingLowers(e: Entry, p: Provider, installed: PerProvider<bool>)
    requires (e.State(p).Waiting? || e.State(p).RetryScheduled?) && Admit(e, p, installed).Ok?
    ensures var active := e.(job := Admit(e, p, installed).value);
            active.State(p).Active? && EntryWeight(active) < EntryWeight(e)
  {
    match p case DpsReport => case Wingman => case DonBot => case Twitch =>
  }

  /** A dispatch leaves less to do, whether the request is sent, refused or never made. */
  lemma DispatchLowers(e: Entry, p: Provider, adapters: Adapters)
    requires e.State(p).Waiting? || (e.State(p).RetryScheduled? && !(p.Wingman? && e.job.Wvw()))
    ensures EntryWeight(DispatchEntry(e, p, adapters).entry) < EntryWeight(e)
  {
    if p.Wingman? && e.job.Wvw() {
      PutWeight(e, Wingman, Skipped);
    } else {
      FailingLowers(e, p);
      if Admit(e, p, adapters.installed).Ok? {
        AdmittingLowers(e, p, adapters.installed);
        FailingLowers(e.(job := Admit(e, p, adapters.installed).value), p);
      }
    }
  }

  lemma DispatchWaitingRaisesNothing(e: Entry, p: Provider, adapters: Adapters)
    ensures EntryWeight(DispatchWaiting(e, p, adapters).entry) <= EntryWeight(e)
  {
    if e.State(p).Waiting? {
      DispatchLowers(e, p, adapters);
    }
  }

  lemma MetadataLowers(e: Entry, metadata: Metadata, adapters: Adapters)
    requires AwaitsMetadata(e)
    ensures EntryWeight(SetMetadataEntry(e, metadata, adapters).entry) < EntryWeight(e)
  {
    var known, routed := KnownEntry(e, metadata), RoutedEntry(e, metadata);
    assert EntryWeight(known) == EntryWeight(e) - 1;
    if routed != known {
      TryEffect(known, Wingman, Skipped);
      PutWeight(known, Wingman, Skipped);
    }
    if routed.State(DpsReport).Waiting? {
      DispatchLowers(routed, DpsReport, adapters);
    } else {
      var wingman := DispatchWaiting(routed, Wingman, adapters);
      DispatchWaitingRaisesNothing(routed, Wingman, adapters);
      DispatchWaitingRaisesNothing(wingman.entry, DonBot, adapters);
    }
  }

  lemma FailedMetadataLowers(e: Entry, cancelled: bool)
    requires AwaitsMetadata(e)
    ensures EntryWeight(FailMetadataEntry(e, cancelled).entry) < EntryWeight(e)
  {
    FailMetadataEffect(e, cancelled);
  }

  lemma FanOutRaisesNothing(e: Entry, adapters: Adapters)
    ensures EntryWeight(FanOut(e, adapters).entry) <= EntryWeight(e)
  {
    var wingman := DispatchWaiting(e, Wingman, adapters);
    var donbot := DispatchWaiting(wingman.entry, DonBot, adapters);
    DispatchWaitingRaisesNothing(e, Wingman, adapters);
    DispatchWaitingRaisesNothing(wingman.entry, DonBot, adapters);
    DispatchWaitingRaisesNothing(donbot.entry, Twitch, adapters);
  }

  /** The outcome decides whether the destination comes back. */
  lemma NextIsScheduledIffDeferred(job: Job, p: Provider, outcome: UploadOutcome, now: nat)
    requires Evaluate(job, p, outcome, now).Ok?
    ensures var next := Evaluate(job, p, outcome, now).value.1;
            && (next.RetryScheduled? <==> outcome.RetryAfter?)
            && !next.Waiting? && !next.Active?
  {
  }

  lemma ReportAnswerLowers(e: Entry, result: UploadResult, now: nat, adapters: Adapters)
    requires result.provider.DpsReport? && ApplyResultEntry(e, result, now, adapters).error.None?
    ensures EntryWeight(ApplyResultEntry(e, result, now, adapters).entry)
            <= EntryWeight(e) + if result.outcome.RetryAfter? then 1 else -1
  {
    ReportAnswerShape(e, result, now, adapters);
    EvaluatedReport(e.job, result.outcome, now);
    NextIsScheduledIffDeferred(e.job, DpsReport, result.outcome, now);
    var (recorded, next) := Evaluate(e.job, DpsReport, result.outcome, now).value;
    var answered := e.(job := if next.Succeeded? then recorded else e.job.Put(DpsReport, next));
    PutWeight(e, DpsReport, next);
    if next.Succeeded? {
      assert EntryWeight(answered) == EntryWeight(e.(job := e.job.Put(DpsReport, Succeeded)));
      FanOutRaisesNothing(answered, adapters);
    } else {
      SettlingDependentsRaisesNothing(answered, next.Cancelled?);
    }
  }

  lemma OtherAnswerLowers(e: Entry, result: UploadResult, now: nat, adapters: Adapters)
    requires !result.provider.DpsReport? && ApplyResultEntry(e, result, now, adapters).error.None?
    ensures EntryWeight(ApplyResultEntry(e, result, now, adapters).entry)
            <= EntryWeight(e) + if result.outcome.RetryAfter? then 1 else -1
  {
    var p := result.provider;
    EvaluatedReceipt(e.job, p, result.outcome, now);
    NextIsScheduledIffDeferred(e.job, p, result.outcome, now);
    var (recorded, next) := Evaluate(e.job, p, result.outcome, now).value;
    assert Transition(recorded, p, next).value == recorded.Put(p, next);
    PutWeight(e.(job := recorded), p, next);
  }

  /** An accepted answer leaves less to do, unless it asks for a later retry. */
  lemma AnswerLowers(e: Entry, result: UploadResult, now: nat, adapters: Adapters)
    requires ApplyResultEntry(e, result, now, adapters).error.None?
    ensures EntryWeight(ApplyResultEntry(e, result, now, adapters).entry)
            <= EntryWeight(e) + if result.outcome.RetryAfter? then 1 else -1
  {
    if result.provider.DpsReport? {
      ReportAnswerLowers(e, result, now, adapters);
    } else {
      OtherAnswerLowers(e, result, now, adapters);
    }
  }

  // ---------------------------------------------------------------- the whole history

  lemma {:induction false} LoadOfUpdate(jobs: seq<Entry>, index: nat, e: Entry)
    requires index < |jobs|
    ensures Load(jobs[index := e]) == Load(jobs) - EntryWeight(jobs[index]) + EntryWeight(e)
  {
    if index > 0 {
      LoadOfUpdate(jobs[1..], index - 1, e);
      assert jobs[index := e][1..] == jobs[1..][index - 1 := e];
    } else {
      assert jobs[index := e][1..] == jobs[1..];
    }
  }

  lemma {:induction false} TrimmingKeepsLoad(jobs: seq<Entry>, excess: nat)
    ensures Load(Trimmed(jobs, excess)) == Load(jobs)
  {
    if jobs != [] && excess != 0 {
      TrimmingKeepsLoad(jobs[1..], if jobs[0].Busy() then excess else excess - 1);
      IdleHasNoWeight(jobs[0]);
      if jobs[0].Busy() {
        assert Trimmed(jobs, excess)[1..] == Trimmed(jobs[1..], excess);
      }
    }
  }

  lemma {:induction false} LoadIsBounded(jobs: seq<Entry>)
    ensures Load(jobs) <= 9 * |jobs|
  {
    if jobs != [] {
      LoadIsBounded(jobs[1..]);
      IdleHasNoWeight(jobs[0]);
    }
  }

  lemma FinishLoad(s: State, index: nat, change: Change)
    requires index < |s.jobs|
    ensures Load(Finish(s, index, change, true).0.jobs) == Load(s.jobs) - EntryWeight(s.jobs[index]) + EntryWeight(change.entry)
  {
    LoadOfUpdate(s.jobs, index, change.entry);
    TrimmingKeepsLoad(s.jobs[index := change.entry], Excess(|s.jobs|, s.limit));
  }

  /** Each retry sent so far took some of the work away. */
  ghost predicate Lighter(s: State, at: Progress, budget: nat) {
    && Onward(s, at, budget)
    && at.count + Load(at.state.jobs) <= Load(s.jobs)
    && (at.count == 0 ==> at.state == s)
  }

  lemma VisitLowers(s: State, at: Progress, k: nat, budget: nat, now: nat, accepts: nat -> Accepts)
    requires !s.stopping && Lighter(s, at, budget) && k < 4 * |s.jobs|
    ensures Lighter(s, Visit(at, k, budget, now, accepts), budget)
  {
    VisitKeepsCore(s, at, k, budget, now, accepts);
    var e, p := at.state.jobs[k / 4], NthProvider(k);
    if at.count < budget && Due(e, p, now) {
      var change := DispatchEntry(e, p, Adapters(at.state.installed, accepts(e.job.id)));
      assert EntryHolds(e, at.state);
      DispatchLowers(e, p, Adapters(at.state.installed, accepts(e.job.id)));
      LoadOfUpdate(at.state.jobs, k / 4, change.entry);
    }
  }

  lemma VisitsLower(s: State, budget: nat, now: nat, accepts: nat -> Accepts)
    requires Inv(s) && !s.stopping
    ensures Lighter(s, Visits(s, 4 * |s.jobs|, budget, now, accepts), budget)
  {
    var keeps := (at: Progress) => Lighter(s, at, budget);
    forall at: Progress, i: nat | i < 4 * |at.state.jobs| && keeps(at) ensures keeps(Visit(at, i, budget, now, accepts)) {
      VisitLowers(s, at, i, budget, now, accepts);
    }
    VisitsKeep(s, 4 * |s.jobs|, budget, now, accepts, keeps);
  }

  lemma RetriesLower(s: State, budget: nat, now: nat, accepts: nat -> Accepts)
    requires Inv(s) && !s.stopping
    ensures var (t, sent) := DispatchDueRetries(s, budget, now, accepts);
            sent + Load(t.jobs) <= Load(s.jobs) && (sent == 0 ==> t == Trim(s))
  {
    VisitsLower(s, budget, now, accepts);
    var done := Visits(s, 4 * |s.jobs|, budget, now, accepts);
    TrimmingKeepsLoad(done.state.jobs, Excess(|done.state.jobs|, done.state.limit));
  }

  lemma JobStepLowers(s: State, step: Step)
    requires Inv(s) && !s.stopping && Settling(step) && OnOneJob(step)
    ensures Done(s, step) + Load(Apply(s, step).jobs) <= Load(s.jobs) + if Defers(s, step) then 2 else 0
  {
    var index := IndexOf(s.jobs, if step.ApplyingResult? then step.result.job else step.id);
    if index.Some? && Done(s, step) == 1 {
      var e := s.jobs[index.value];
      match step
      case SettingMetadata(_, metadata, accepts) =>
        MetadataLowers(e, metadata, Adapters(s.installed, accepts));
        FinishLoad(s, index.value, SetMetadataEntry(e, metadata, Adapters(s.installed, accepts)));
      case FailingMetadata(_, cancelled) =>
        FailedMetadataLowers(e, cancelled);
        FinishLoad(s, index.value, FailMetadataEntry(e, cancelled));
      case ApplyingResult(result, now, accepts) =>
        AnswerLowers(e, result, now, Adapters(s.installed, accepts));
        FinishLoad(s, index.value, ApplyResultEntry(e, result, now, Adapters(s.installed, accepts)));
    }
  }

  /** Every answer taken in leaves less to do; a deferral puts back two, its answer and its request. */
  lemma StepLowersLoad(s: State, step: Step)
    requires Inv(s) && !s.stopping && Settling(step)
    ensures Done(s, step) + Load(Apply(s, step).jobs) <= Load(s.jobs) + if Defers(s, step) then 2 else 0
    ensures !Apply(s, step).stopping
  {
    if OnOneJob(step) {
      JobStepLowers(s, step);
    } else if step.DispatchingDue? {
      RetriesLower(s, step.budget, step.now, step.answers);
      VisitsKeepCore(s, 4 * |s.jobs|, step.budget, step.now, step.answers);
    } else {
      TrimmingKeepsLoad(s.jobs, Excess(|s.jobs|, step.limit));
    }
  }

  /** Over any run of answers, in any order and whatever they say, the answers taken in are at most
      the work there was and two more for each deferral; without deferrals, nine for each job. */
  lemma {:induction false} SettlingIsBounded(s: State, steps: seq<Step>)
    requires Inv(s) && !s.stopping && forall i :: 0 <= i < |steps| ==> Settling(steps[i])
    ensures DoneIn(s, steps) + Load(After(s, steps).jobs) <= Load(s.jobs) + 2 * DeferralsIn(s, steps)
    ensures Load(s.jobs) <= 9 * |s.jobs| && !After(s, steps).stopping
  {
    LoadIsBounded(s.jobs);
    if steps != [] {
      var before := steps[..|steps| - 1];
      SettlingIsBounded(s, before);
      RunKeepsInv(s, before);
      StepLowersLoad(After(s, before), steps[|steps| - 1]);
    }
  }

  // ---------------------------------------------------------------- a busy job is owed an answer

  /** Someone still has to speak before this destination moves: it has a request out that the log
      does not answer, or its retry is for later. */
  predicate Owed(s: State, e: Entry, p: Provider) {
    LedgerOf(s.log, e.job.id).At(p).open || e.State(p).RetryScheduled?
  }

  /** A job is busy exactly if the parser has not reported, a logged request is unanswered, or a
      retry is scheduled: nothing else keeps it from being idle. */
  lemma BusyIffOwed(s: State, e: Entry)
    requires Inv(s) && !s.stopping && e in s.jobs
    ensures e.Busy() <==> e.metadataPending || exists p: Provider :: Owed(s, e, p)
  {
    var i :| 0 <= i < |s.jobs| && s.jobs[i] == e;
    assert EntryHolds(s.jobs[i], s);
    if e.Busy() && !e.metadataPending {
      var q := BusyMeansRunning(e);
      assert Owed(s, e, q);
    }
  }

  lemma IndexOfMember(s: State, e: Entry)
    requires Inv(s) && e in s.jobs
    ensures IndexOf(s.jobs, e.job.id).Some? && s.jobs[IndexOf(s.jobs, e.job.id).value] == e
  {
    var i :| 0 <= i < |s.jobs| && s.jobs[i] == e;
  }

  /** The parser's report is taken in while the job waits for it, good or bad. */
  lemma ParserIsHeard(s: State, e: Entry, metadata: Metadata, accepts: Accepts, cancelled: bool)
    requires Inv(s) && !s.stopping && e in s.jobs && e.metadataPending
    ensures Done(s, SettingMetadata(e.job.id, metadata, accepts)) == 1
    ensures Done(s, FailingMetadata(e.job.id, cancelled)) == 1
  {
    IndexOfMember(s, e);
    assert EntryHolds(e, s);
  }

  /** The answer to the request that is out is taken in: any failure, skip or cancellation. */
  lemma DestinationIsHeard(s: State, e: Entry, p: Provider, outcome: UploadOutcome, now: nat, accepts: Accepts)
    requires Inv(s) && !s.stopping && e in s.jobs && LedgerOf(s.log, e.job.id).At(p).open
    requires outcome.OutcomeFailed? || outcome.OutcomeSkipped? || outcome.OutcomeCancelled? || outcome.Ambiguous?
    ensures Done(s, ApplyingResult(UploadResult(e.job.id, p, e.job.Attempts(p), outcome), now, accepts)) == 1
  {
    IndexOfMember(s, e);
    assert EntryHolds(e, s);
    assert e.State(p).Active?;
    if p.DpsReport? {
      ReportAnswerShape(e, UploadResult(e.job.id, p, e.job.Attempts(p), outcome), now, Adapters(s.installed, accepts));
    }
  }

  /** A retry is sent once its time has come, if there is any budget. */
  lemma ClockIsHeard(s: State, e: Entry, p: Provider, budget: nat, now: nat, answers: nat -> Accepts)
    requires Inv(s) && !s.stopping && e in s.jobs && Due(e, p, now) && budget > 0
    ensures Done(s, DispatchingDue(budget, now, answers)) > 0
  {
    var (t, sent) := DispatchDueRetries(s, budget, now, answers);
    RetriesLower(s, budget, now, answers);
    if sent == 0 {
      TrimmedMembers(s.jobs, Excess(|s.jobs|, s.limit));
      NoRetryIsLeftBehind(s, budget, now, answers, e, p);
    }
  }

  /** Nothing that could still come in would be taken. */
  ghost predicate AtRest(s: State) {
    forall step: Step :: Settling(step) && !Defers(s, step) ==> Done(s, step) == 0
  }

  /** A running coordinator is at rest exactly if every job is idle. */
  lemma RestIsIdle(s: State)
    requires Inv(s) && !s.stopping
    ensures AtRest(s) <==> forall e :: e in s.jobs ==> !e.Busy()
  {
    if AtRest(s) {
      forall e | e in s.jobs ensures !e.Busy() {
        if e.Busy() {
          var step := BusyJobMoves(s, e);
        }
      }
    } else {
      var step: Step :| Settling(step) && !Defers(s, step) && Done(s, step) != 0;
      StepLowersLoad(s, step);
      LoadedMeansBusy(s.jobs);
    }
  }

  /** As long as a job is busy some answer would be taken in, and one that defers nothing. */
  lemma BusyJobMoves(s: State, e: Entry) returns (step: Step)
    requires Inv(s) && !s.stopping && e in s.jobs && e.Busy()
    ensures Settling(step) && !Defers(s, step) && Done(s, step) > 0
  {
    var accepts: Accepts := s.installed;
    step := FailingMetadata(e.job.id, false);
    BusyIffOwed(s, e);
    if e.metadataPending {
      ParserIsHeard(s, e, Metadata(0, ""), accepts, false);
    } else {
      var p: Provider :| Owed(s, e, p);
      if e.State(p).RetryScheduled? {
        step := DispatchingDue(1, e.State(p).deadline, id => accepts);
        ClockIsHeard(s, e, p, 1, e.State(p).deadline, id => accepts);
      } else {
        step := ApplyingResult(UploadResult(e.job.id, p, e.job.Attempts(p), OutcomeFailed), 0, accepts);
        DestinationIsHeard(s, e, p, OutcomeFailed, 0, accepts);
      }
    }
  }

  lemma {:induction false} LoadedMeansBusy(jobs: seq<Entry>)
    ensures Load(jobs) > 0 ==> exists e :: e in jobs && e.Busy()
  {
    if jobs != [] {
      LoadedMeansBusy(jobs[1..]);
      IdleHasNoWeight(jobs[0]);
      assert jobs[0] in jobs;
    }
  }

  // ---------------------------------------------------------------- whole runs

  /** Each call of the run takes an answer in. */
  ghost predicate Busily(s: State, steps: seq<Step>) {
    forall i :: 0 <= i < |steps| ==> Settling(steps[i]) && Done(After(s, steps[..i]), steps[i]) > 0
  }

  lemma {:induction false} BusyCallsAreAnswers(s: State, steps: seq<Step>)
    requires Busily(s, steps)
    ensures |steps| <= DoneIn(s, steps)
  {
    if steps != [] {
      var before := steps[..|steps| - 1];
      forall i | 0 <= i < |before| ensures Settling(before[i]) && Done(After(s, before[..i]), before[i]) > 0 {
        assert before[..i] == steps[..i] && before[i] == steps[i];
      }
      BusyCallsAreAnswers(s, before);
    }
  }

  /** Uploads come to rest, from every reachable running state. A run in which each call takes an
      answer in has at most nine calls for each job and two for each deferral, and where no such
      call is left to make every job is idle. */
  lemma UploadsComeToRest(installed: PerProvider<bool>, limit: nat, history: seq<Step>, steps: seq<Step>)
    requires 1 <= limit <= MAX_HISTORY_LIMIT
    requires var s := After(Fresh(installed, limit), history); !s.stopping && Busily(s, steps)
    ensures var s := After(Fresh(installed, limit), history);
            var t := After(s, steps);
            && |steps| <= 9 * |s.jobs| + 2 * DeferralsIn(s, steps)
            && (AtRest(t) <==> forall e :: e in t.jobs ==> !e.Busy())
            && (Load(s.jobs) + 2 * DeferralsIn(s, steps) <= |steps| ==> AtRest(t))
  {
    var s := After(Fresh(installed, limit), history);
    var t := After(s, steps);
    FreshSatisfiesInv(installed, limit);
    RunKeepsInv(Fresh(installed, limit), history);
    RunKeepsInv(s, steps);
    SettlingIsBounded(s, steps);
    BusyCallsAreAnswers(s, steps);
    RestIsIdle(t);
    if Load(t.jobs) == 0 {
      forall step: Step | Settling(step) && !Defers(t, step) ensures Done(t, step) == 0 {
        StepLowersLoad(t, step);
      }
    }
  }
}
