/** What the coordinator's log guarantees beyond the coordinator: at most one automatic chat
    message per job, no second Discord post, and which restored jobs can refuse a success. */
module ReplaySafety {
  import opened Outcomes
  import opened LogFiles
  import opened Times
  import opened UploadJobs
  import opened UploadLedger
  import opened UploadEntries
  import opened CoordinatorSpec
  import opened UploadEffects
  import Chat = ChatDelivery

  // ---------------------------------------------------------------- deferrals come from results

  ghost predicate NoDeferral(events: seq<Event>) {
    forall k :: 0 <= k < |events| ==> !events[k].Deferred?
  }

  lemma DispatchDefersNothing(e: Entry, p: Provider, adapters: Adapters)
    ensures NoDeferral(DispatchEntry(e, p, adapters).events)
  {
  }

  lemma StartDefersNothing(e: Entry, adapters: Adapters)
    ensures NoDeferral(StartEntry(e, adapters).events)
  {
    DispatchDefersNothing(e, Wingman, adapters);
    DispatchDefersNothing(DispatchWaiting(e, Wingman, adapters).entry, DonBot, adapters);
  }

  lemma FanOutDefersNothing(e: Entry, adapters: Adapters)
    ensures NoDeferral(FanOut(e, adapters).events)
  {
    DispatchDefersNothing(e, Wingman, adapters);
    var wingman := DispatchWaiting(e, Wingman, adapters);
    DispatchDefersNothing(wingman.entry, DonBot, adapters);
    var donbot := Then(wingman, DispatchWaiting(wingman.entry, DonBot, adapters));
    assert NoDeferral(donbot.events);
    DispatchDefersNothing(donbot.entry, Twitch, adapters);
  }

  /** A deferral in the log is the answer of exactly this result. */
  predicate DefersFor(event: Event, result: UploadResult) {
    event.job == result.job && event.provider == result.provider && event.attempt == result.attempt
    && result.outcome.RetryAfter?
  }

  lemma ResultDefersItself(e: Entry, result: UploadResult, now: nat, adapters: Adapters)
    requires e.job.id == result.job
    ensures var events := ApplyResultEntry(e, result, now, adapters).events;
            forall k :: 0 <= k < |events| && events[k].Deferred? ==> DefersFor(events[k], result)
  {
    var change := ApplyResultEntry(e, result, now, adapters);
    if change.error.None? {
      AcceptedResultAnswers(e, result, now, adapters);
    }
    if change.error.None? && result.provider.DpsReport? {
      ReportAnswerShape(e, result, now, adapters);
      var (recorded, next) := Evaluate(e.job, DpsReport, result.outcome, now).value;
      FanOutDefersNothing(e.(job := if next.Succeeded? then recorded else e.job.Put(DpsReport, next)), adapters);
    }
  }

  /** The deferrals a call adds to the log. */
  ghost predicate DefersOnly(before: seq<Event>, after: seq<Event>, step: Step) {
    before <= after
    && forall k :: |before| <= k < |after| && after[k].Deferred? ==>
         step.ApplyingResult? && DefersFor(after[k], step.result)
  }

  lemma FinishDefers(s: State, index: nat, change: Change, trims: bool, step: Step)
    requires index < |s.jobs|
    requires forall k :: 0 <= k < |change.events| && change.events[k].Deferred? ==>
               step.ApplyingResult? && DefersFor(change.events[k], step.result)
    ensures DefersOnly(s.log, Finish(s, index, change, trims).0.log, step)
  {
    var after := Finish(s, index, change, trims).0.log;
    assert after == s.log + change.events;
    forall k | |s.log| <= k < |after| && after[k].Deferred? ensures step.ApplyingResult? && DefersFor(after[k], step.result) {
      assert after[k] == change.events[k - |s.log|];
    }
  }

  lemma ArrivalDefers(s: State, step: Step, index: nat)
    requires index < |s.jobs| && (step.SettingMetadata? || step.FailingMetadata? || step.ApplyingResult?)
    requires IndexOf(s.jobs, if step.ApplyingResult? then step.result.job else step.id) == Some(index)
    ensures DefersOnly(s.log, Apply(s, step).log, step)
  {
    var e := s.jobs[index];
    match step
    case SettingMetadata(_, metadata, accepts) =>
      StartDefersNothing(RoutedEntry(e, metadata), Adapters(s.installed, accepts));
      FinishDefers(s, index, SetMetadataEntry(e, metadata, Adapters(s.installed, accepts)), true, step);
    case FailingMetadata(_, cancelled) =>
      FinishDefers(s, index, FailMetadataEntry(e, cancelled), true, step);
    case ApplyingResult(result, now, accepts) =>
      ResultDefersItself(e, result, now, Adapters(s.installed, accepts));
      FinishDefers(s, index, ApplyResultEntry(e, result, now, Adapters(s.installed, accepts)), true, step);
  }

  lemma JobStepDefers(s: State, step: Step)
    requires OnOneJob(step)
    ensures DefersOnly(s.log, Apply(s, step).log, step)
  {
    var index := IndexOf(s.jobs, if step.ApplyingResult? then step.result.job else step.id);
    if index.Some? {
      var e := s.jobs[index.value];
      match step
      case Retrying(_, provider, accepts) =>
        FinishDefers(s, index.value, RetryFailedEntry(e, provider, Adapters(s.installed, accepts)), false, step);
      case Reuploading(_, accepts) =>
        FinishDefers(s, index.value, ReuploadEntry(e, Adapters(s.installed, accepts)), false, step);
      case Rechatting(_, accepts) =>
        FinishDefers(s, index.value, RechatEntry(e, Adapters(s.installed, accepts)), false, step);
      case SettingMetadata(_, _, _) => ArrivalDefers(s, step, index.value);
      case FailingMetadata(_, _) => ArrivalDefers(s, step, index.value);
      case ApplyingResult(_, _, _) => ArrivalDefers(s, step, index.value);
    }
  }

  lemma VisitDefers(before: seq<Event>, at: Progress, k: nat, budget: nat, now: nat, accepts: nat -> Accepts, step: Step)
    requires k < 4 * |at.state.jobs| && DefersOnly(before, at.state.log, step)
    ensures DefersOnly(before, Visit(at, k, budget, now, accepts).state.log, step)
  {
    var e := at.state.jobs[k / 4];
    DispatchDefersNothing(e, NthProvider(k), Adapters(at.state.installed, accepts(e.job.id)));
  }

  lemma VisitsDefer(s: State, k: nat, budget: nat, now: nat, accepts: nat -> Accepts, step: Step)
    requires k <= 4 * |s.jobs|
    ensures DefersOnly(s.log, Visits(s, k, budget, now, accepts).state.log, step)
  {
    var keeps := (at: Progress) => DefersOnly(s.log, at.state.log, step);
    forall at: Progress, i: nat | i < 4 * |at.state.jobs| && keeps(at) ensures keeps(Visit(at, i, budget, now, accepts)) {
      VisitDefers(s.log, at, i, budget, now, accepts, step);
    }
    VisitsKeep(s, k, budget, now, accepts, keeps);
  }

  lemma StepDefers(s: State, step: Step)
    ensures DefersOnly(s.log, Apply(s, step).log, step)
  {
    if OnOneJob(step) {
      JobStepDefers(s, step);
    } else if step.DispatchingDue? && !s.stopping {
      VisitsDefer(s, 4 * |s.jobs|, step.budget, step.now, step.answers, step);
    }
  }

  // ---------------------------------------------------------------- chat, end to end

  /** What the chat worker did for one attempt: nothing was posted, or the sender ran. */
  datatype ChatAttempt = NotPosted(outcome: UploadOutcome) | Posted(script: Chat.Script, message: string)

  function OutcomeOf(attempt: ChatAttempt): UploadOutcome {
    match attempt
    case NotPosted(outcome) => outcome
    case Posted(script, message) => Chat.UploadOutcomeOf(Chat.Delivering(script, message).result)
  }

  function Messages(attempt: ChatAttempt): nat {
    match attempt
    case NotPosted(_) => 0
    case Posted(script, message) => Chat.Delivered(script, message)
  }

  ghost predicate Honest(attempts: nat -> ChatAttempt) {
    forall n: nat :: attempts(n).Posted? ==> Chat.Honest(attempts(n).script)
  }

  lemma OneMessagePerAttempt(attempt: ChatAttempt)
    requires attempt.Posted? ==> Chat.Honest(attempt.script)
    ensures Messages(attempt) <= 1
    ensures OutcomeOf(attempt).RetryAfter? ==> Messages(attempt) == 0
  {
    if attempt.Posted? {
      Chat.AtMostOneMessage(attempt.script, attempt.message);
    }
  }

  /** Chat results of the job, however often and late they come, are those of its attempts. */
  ghost predicate ReportsAttempts(steps: seq<Step>, job: nat, attempts: nat -> ChatAttempt) {
    forall k :: 0 <= k < |steps| && steps[k].ApplyingResult? && steps[k].result.job == job && steps[k].result.provider.Twitch? ==>
      steps[k].result.outcome == OutcomeOf(attempts(steps[k].result.attempt))
  }

  ghost predicate DeferralsExplained(log: seq<Event>, job: nat, attempts: nat -> ChatAttempt) {
    forall k :: 0 <= k < |log| && log[k].Deferred? && log[k].job == job && log[k].provider.Twitch? ==>
      OutcomeOf(attempts(log[k].attempt)).RetryAfter?
  }

  lemma {:induction false} RunExplainsDeferrals(s: State, steps: seq<Step>, job: nat, attempts: nat -> ChatAttempt)
    requires DeferralsExplained(s.log, job, attempts) && ReportsAttempts(steps, job, attempts)
    ensures DeferralsExplained(After(s, steps).log, job, attempts)
  {
    if steps != [] {
      var n := |steps| - 1;
      RunExplainsDeferrals(s, steps[..n], job, attempts);
      StepDefers(After(s, steps[..n]), steps[n]);
    }
  }

  predicate AutomaticChat(event: Event, job: nat) {
    event.Requested? && event.job == job && event.provider.Twitch? && event.intent.Automatic?
  }

  predicate ChatRequest(event: Event, job: nat) {
    event.Requested? && event.job == job && event.provider.Twitch?
  }

  /** Messages posted by the job's automatic chat attempts, and by all of them. */
  function AutomaticMessages(log: seq<Event>, job: nat, attempts: nat -> ChatAttempt): nat {
    if log == [] then 0
    else
      var last := log[|log| - 1];
      AutomaticMessages(log[..|log| - 1], job, attempts)
      + (if AutomaticChat(last, job) then Messages(attempts(last.attempt)) else 0)
  }

  function AllMessages(log: seq<Event>, job: nat, attempts: nat -> ChatAttempt): nat {
    if log == [] then 0
    else
      var last := log[|log| - 1];
      AllMessages(log[..|log| - 1], job, attempts)
      + (if ChatRequest(last, job) then Messages(attempts(last.attempt)) else 0)
  }

  lemma {:induction false} AutomaticAmongAll(log: seq<Event>, job: nat, attempts: nat -> ChatAttempt)
    ensures AutomaticMessages(log, job, attempts) <= AllMessages(log, job, attempts)
  {
    if log != [] {
      AutomaticAmongAll(log[..|log| - 1], job, attempts);
    }
  }

  /** Whatever was asked for before an automatic request posted nothing. */
  lemma {:induction false} NothingBeforeAutomatic(log: seq<Event>, n: nat, j: nat, job: nat, attempts: nat -> ChatAttempt)
    requires LegalLog(log) && DeferralsExplained(log, job, attempts) && Honest(attempts)
    requires n <= j < |log| && AutomaticChat(log[j], job)
    ensures AllMessages(log[..n], job, attempts) == 0
  {
    if n > 0 {
      NothingBeforeAutomatic(log, n - 1, j, job, attempts);
      assert log[..n][..n - 1] == log[..n - 1];
      if ChatRequest(log[n - 1], job) {
        var k := AutomaticRepeatsFollowDeferrals(log, n - 1, j);
        OneMessagePerAttempt(attempts(log[n - 1].attempt));
      }
    }
  }

  lemma {:induction false} LegalLogPostsOnce(log: seq<Event>, n: nat, job: nat, attempts: nat -> ChatAttempt)
    requires LegalLog(log) && DeferralsExplained(log, job, attempts) && Honest(attempts) && n <= |log|
    ensures AutomaticMessages(log[..n], job, attempts) <= 1
  {
    if n > 0 {
      LegalLogPostsOnce(log, n - 1, job, attempts);
      assert log[..n][..n - 1] == log[..n - 1];
      if AutomaticChat(log[n - 1], job) {
        NothingBeforeAutomatic(log, n - 1, n - 1, job, attempts);
        AutomaticAmongAll(log[..n - 1], job, attempts);
        OneMessagePerAttempt(attempts(log[n - 1].attempt));
      }
    }
  }

  /** At-most-once chat over any run of the coordinator, with results lost, late, repeated or
      out of order: the automatic attempts of a job post at most one message between them, and
      an automatic attempt is only ever requested while nothing at all has been posted. */
  lemma AutomaticChatPostsAtMostOnce(installed: PerProvider<bool>, limit: nat, steps: seq<Step>, job: nat, attempts: nat -> ChatAttempt)
    requires 1 <= limit <= MAX_HISTORY_LIMIT
    requires ReportsAttempts(steps, job, attempts) && Honest(attempts)
    ensures var log := After(Fresh(installed, limit), steps).log;
            && AutomaticMessages(log, job, attempts) <= 1
            && forall j :: 0 <= j < |log| && AutomaticChat(log[j], job) ==> AllMessages(log[..j], job, attempts) == 0
  {
    FreshSatisfiesInv(installed, limit);
    RunKeepsInv(Fresh(installed, limit), steps);
    RunExplainsDeferrals(Fresh(installed, limit), steps, job, attempts);
    var log := After(Fresh(installed, limit), steps).log;
    LegalLogPostsOnce(log, |log|, job, attempts);
    assert log[..|log|] == log;
    forall j | 0 <= j < |log| && AutomaticChat(log[j], job) ensures AllMessages(log[..j], job, attempts) == 0 {
      NothingBeforeAutomatic(log, j, j, job, attempts);
    }
  }

  /** What the result of a delivery makes of its job. */
  ghost predicate EndsAs(e: Entry, result: Chat.ChatResult, now: nat) {
    var receipt := e.job.record.twitch;
    match result
    case Sent(sent) => e.State(Twitch).Succeeded? && receipt == Some(sent)
    case Dropped(dropped) => e.State(Twitch).Failed? && receipt == Some(dropped)
    case ResultRetryAfter(delay) =>
      e.State(Twitch).RetryScheduled? && receipt == None && forall later: nat :: Due(e, Twitch, later) <==> later >= now + delay
    case ResultCancelled => e.State(Twitch).Cancelled? && receipt == None
    case _ => e.State(Twitch).Failed? && receipt == None
  }

  /** A delivery for an attempt that is still under way is taken in, and leaves the job with its
      receipt or with a retry due after exactly the delay; the other destinations stay as they are. */
  lemma DeliveryReachesItsJob(e: Entry, script: Chat.Script, message: string, now: nat, adapters: Adapters)
    requires e.State(Twitch).Active? && e.job.record.twitch.None? && now + MAX_RETRY_DELAY < INSTANT_LIMIT
    ensures var result := Chat.Delivering(script, message).result;
            var answer := UploadResult(e.job.id, Twitch, e.job.Attempts(Twitch), OutcomeOf(Posted(script, message)));
            var change := ApplyResultEntry(e, answer, now, adapters);
            && change.error.None? && EndsAs(change.entry, result, now)
            && forall p: Provider :: !p.Twitch? ==> change.entry.job.record.statuses.At(p) == e.job.record.statuses.At(p)
  {
    Chat.ResultIsWellFormed(script, message);
    var answer := UploadResult(e.job.id, Twitch, e.job.Attempts(Twitch), OutcomeOf(Posted(script, message)));
    AnswerIsAcceptedIff(e, answer, now, adapters);
    AnswerLeads(e, answer, now, adapters);
  }

  // ---------------------------------------------------------------- DonBot

  datatype DeliveryRoute = NoDelivery | GuildDefaults | ChannelOverride(channel: string)

  /** What the DonBot adapter queues for a request, or nothing if it refuses it. */
  function Capture(request: Event, hasPath: bool, guild: string, configured: DeliveryRoute): Option<DeliveryRoute>
    requires request.Requested?
  {
    if !request.provider.DonBot? || request.attempt == 0 || !hasPath || guild == "" || request.intent.Rechat? then None
    else if !request.intent.Automatic? then Some(NoDelivery)
    else Some(configured)
  }

  /** The adapter takes what the coordinator asks of it, once a guild is set: an automatic upload goes
      out with the configured delivery, and one that the user asked for without any. */
  lemma RequestIsCaptured(installed: PerProvider<bool>, limit: nat, steps: seq<Step>, j: nat,
                          hasPath: bool, guild: string, configured: DeliveryRoute)
    requires 1 <= limit <= MAX_HISTORY_LIMIT
    requires var log := After(Fresh(installed, limit), steps).log;
             j < |log| && log[j].Requested? && log[j].provider.DonBot? && !log[j].intent.Rechat?
    ensures var request := After(Fresh(installed, limit), steps).log[j];
            Capture(request, hasPath, guild, configured)
            == if !hasPath || guild == "" then None else Some(if request.intent.Automatic? then configured else NoDelivery)
  {
    FreshSatisfiesInv(installed, limit);
    RunKeepsInv(Fresh(installed, limit), steps);
    var log := After(Fresh(installed, limit), steps).log;
    assert Legal(LedgerOf(log[..j], log[j].job), log[j]);
  }

  /** After a DonBot attempt has settled, later uploads of the job carry no Discord delivery,
      whatever is configured by then. */
  lemma SettledUploadIsNotPostedAgain(installed: PerProvider<bool>, limit: nat, steps: seq<Step>, i: nat, j: nat,
                                      hasPath: bool, guild: string, configured: DeliveryRoute)
    requires 1 <= limit <= MAX_HISTORY_LIMIT
    requires i < j < |After(Fresh(installed, limit), steps).log|
    requires var log := After(Fresh(installed, limit), steps).log;
             SameChannel(log[i], log[j]) && log[i].provider.DonBot? && log[i].Settled? && log[j].Requested?
    ensures var captured := Capture(After(Fresh(installed, limit), steps).log[j], hasPath, guild, configured);
            captured.None? || captured == Some(NoDelivery)
  {
    RunsAreReplaySafe(installed, limit, steps, i, j);
  }

  // ---------------------------------------------------------------- restored jobs

  /** A stored row whose Wingman upload is recorded although its last state is a failure. */
  const STRAY: Record := Record(LogFile(Path(NoPrefix, ["a.zevtc"]), 1, 1), 0, Some(Metadata(2, "")), None,
                                Some(WingmanReceipt("https://gw2wingman.nevermindcreations.de/log/a")), None, None,
                                PerProvider(Status(Disabled, 0), Status(Failed, 1), Status(Disabled, 0), Status(Disabled, 0)))

  /** Empty receipt slots are not a property of restored jobs: retried, this one refuses its
      own success and stays active. SuccessIsAccepted gives the exact condition. */
  lemma RestoredReceiptRefusesSuccess()
    ensures var all := PerProvider(true, true, true, true);
            var restored := RestoreHistory(Fresh(all, 10), [STRAY]).0;
            var retried := RetryFailed(restored, 1, Wingman, all).0;
            var success := UploadResult(1, Wingman, 2, OutcomeSucceeded(WingmanDone(Some(WingmanReceipt("later")))));
            && |retried.jobs| == 1 && retried.jobs[0].State(Wingman).Active? && retried.jobs[0].job.Attempts(Wingman) == 2
            && WellFormedSuccess(Wingman, success.outcome)
            && ApplyResult(retried, success, 0, all) == (retried, Some(Domain(WingmanUploadAlreadyRecorded)))
  {
    var all := PerProvider(true, true, true, true);
    var s := Fresh(all, 10);
    var records := [STRAY];
    assert records[Excess(|records|, s.limit)..] == records;
    assert records[..0] == [];
    assert RestoredJobs([]) == Ok([]);
    var job := Job(1, STRAY);
    assert UploadJobs.Restore(1, STRAY) == Ok(job);
    assert [] + [NewEntry(job, false)] == [NewEntry(job, false)];
    assert RestoredJobs(records) == Ok([NewEntry(job, false)]);
    var restored := RestoreHistory(s, records).0;
    assert restored.jobs == [NewEntry(job, false)];
    assert IndexOf(restored.jobs, 1) == Some(0);
    var retried := RetryFailed(restored, 1, Wingman, all).0;
    assert IndexOf(retried.jobs, 1) == Some(0);
  }
}
