/** What each call of the coordinator does to a job, told by its outcome and not by its steps: what a
    new job looks like, where an answer leads, what a replay brings back, and what a restored row
    becomes. */
module UploadEffects {
  import opened Outcomes
  import opened LogFiles
  import opened Times
  import opened UploadJobs
  import opened UploadLedger
  import opened UploadEntries
  import opened CoordinatorSpec
  import Calls = CoordinatorSpec
  import opened UploadProgress

  // ---------------------------------------------------------------- transitions

  /** The states a destination may go to from this one. */
  predicate MayBecome(from: ProviderState, next: ProviderState) {
    || (from.Waiting? && (next.Active? || next.Skipped? || next.Failed? || next.Cancelled?))
    || (from.Active? && (next.Succeeded? || next.Skipped? || next.RetryScheduled? || next.Failed? || next.Cancelled?))
    || (from.RetryScheduled? && (next.Active? || next.Failed? || next.Cancelled?))
    || (from.Failed? && (next.Waiting? || next.Cancelled?))
  }

  /** A destination changes exactly along those arrows, chat only with a report to post and only to a
      delivery on record, dps.report never to success without its result, and no further than the last
      attempt. */
  lemma TransitionIsTakenIff(job: Job, p: Provider, next: ProviderState)
    ensures var after := Transition(job, p, next);
            && (after.Ok? <==>
                  && MayBecome(job.State(p), next) && !(p.DpsReport? && next.Succeeded?)
                  && (p.Twitch? && next.Active? ==> job.State(DpsReport).Succeeded? && job.record.report.Some?)
                  && (p.Twitch? && next.Succeeded? ==> job.record.twitch.Some? && job.record.twitch.value.status.Sent?)
                  && (next.Active? ==> job.Attempts(p) < 0xFFFF_FFFF))
            && (after.Ok? ==> after.value.record == job.record.(statuses := after.value.record.statuses))
  {
  }

  // ---------------------------------------------------------------- admission

  const ALL_AUTOMATIC: PerProvider<Intent> := PerProvider(Automatic, Automatic, Automatic, Automatic)

  /** Waits for the parser, with exactly the selected destinations ahead of it. */
  ghost predicate IsNew(e: Entry, id: nat, file: LogFile, now: int, enabled: PerProvider<bool>) {
    && e.job.id == id && e.metadataPending && !e.reupload && e.intents == ALL_AUTOMATIC
    && (forall p: Provider :: e.State(p) == (if enabled.At(p) then Waiting else Disabled) && e.job.Attempts(p) == 0)
    && e.job.record == Record(file, now, None, None, None, None, None, e.job.record.statuses)
  }

  lemma NewEntryIsAsSelected(id: nat, file: LogFile, now: int, enabled: PerProvider<bool>)
    requires Create(id, file, now, enabled).Ok?
    ensures IsNew(NewEntry(Create(id, file, now, enabled).value, true), id, file, now, enabled)
  {
    var e := NewEntry(Create(id, file, now, enabled).value, true);
    forall p: Provider
      ensures e.State(p) == (if enabled.At(p) then Waiting else Disabled) && e.job.Attempts(p) == 0
    {
      match p case DpsReport => case Wingman => case DonBot => case Twitch =>
    }
  }

  /** Making room for one: with the history full the oldest idle job goes. */
  lemma RoomIsMade(jobs: seq<Entry>, limit: nat) returns (k: nat)
    requires BusyCount(jobs) < limit && Bounded(jobs, limit)
    ensures k <= |jobs| && TrimJobs(jobs, limit - 1) == BusyOnly(jobs[..k]) + jobs[k..]
    ensures |TrimJobs(jobs, limit - 1)| == if |jobs| < limit then |jobs| else limit - 1
  {
    k := TrimmingDropsOldestIdle(jobs, Excess(|jobs|, limit - 1));
    TrimMakesRoom(jobs, limit);
    if AllBusy(jobs) {
      BusyCountFull(jobs);
    }
  }

  /** A new job comes last, with the selected destinations waiting and the others disabled. What it
      displaces is the oldest idle job, and only if the history is full. */
  lemma NewJobIsAsSelected(s: State, file: LogFile, now: int, enabled: PerProvider<bool>) returns (k: nat)
    requires Bounded(s.jobs, s.limit)
    ensures var (t, id) := AddPending(s, file, now, enabled);
            id.Ok? ==>
              && s.nextId == Some(id.value) && t == s.(jobs := t.jobs, nextId := t.nextId)
              && t.nextId == (if id.value < MAX_JOB_ID then Some(id.value + 1) else None)
              && |t.jobs| == (if |s.jobs| < s.limit then |s.jobs| + 1 else s.limit)
              && IsNew(t.jobs[|t.jobs| - 1], id.value, file, now, enabled)
              && k <= |s.jobs| && t.jobs[..|t.jobs| - 1] == BusyOnly(s.jobs[..k]) + s.jobs[k..]
  {
    k := 0;
    if AddPending(s, file, now, enabled).1.Ok? {
      k := RoomIsMade(s.jobs, s.limit);
      NewEntryIsAsSelected(s.nextId.value, file, now, enabled);
    }
  }

  lemma {:induction false} BusyJobsAreCounted(jobs: seq<Entry>)
    ensures BusyCount(jobs) == |BusyOnly(jobs)|
  {
    if jobs != [] {
      BusyJobsAreCounted(jobs[1..]);
    }
  }

  /** Every refusal of a new job has its own cause, and without any of them the job is taken. */
  lemma AdmissionIsRefusedIff(s: State, file: LogFile, now: int, enabled: PerProvider<bool>)
    ensures var id := AddPending(s, file, now, enabled).1;
            && (id.Ok? <==>
                  && !s.stopping && (forall p: Provider :: enabled.At(p) ==> s.installed.At(p)) && s.nextId.Some?
                  && file.path != Path(NoPrefix, []) && (enabled.twitch ==> enabled.dps) && |BusyOnly(s.jobs)| < s.limit)
            && (id == Err(ShuttingDown) <==> s.stopping)
            && (id == Err(MissingProvider) <==> !s.stopping && exists p: Provider :: enabled.At(p) && !s.installed.At(p))
            && (id == Err(JobIdExhausted) ==> s.nextId.None?)
            && (id == Err(Domain(NoPath)) ==> file.path == Path(NoPrefix, []))
            && (id == Err(Domain(TwitchRequiresDpsReport)) ==> enabled.twitch && !enabled.dps)
            && (id == Err(CapacityReached) ==> |BusyOnly(s.jobs)| >= s.limit)
            && (id.Err? ==> id.error in {ShuttingDown, MissingProvider, JobIdExhausted, Domain(NoPath), Domain(TwitchRequiresDpsReport), CapacityReached})
  {
    BusyJobsAreCounted(s.jobs);
    if HasAll(s.installed, enabled) {
      forall p: Provider | enabled.At(p) ensures s.installed.At(p) {
        match p case DpsReport => case Wingman => case DonBot => case Twitch =>
      }
    } else {
      assert (enabled.At(DpsReport) && !s.installed.At(DpsReport)) || (enabled.At(Wingman) && !s.installed.At(Wingman))
             || (enabled.At(DonBot) && !s.installed.At(DonBot)) || (enabled.At(Twitch) && !s.installed.At(Twitch));
    }
  }

  // ---------------------------------------------------------------- answers

  /** A chat message that was sent has an id of up to 256 visible characters. */
  predicate IsDelivery(receipt: TwitchReceipt) {
    && receipt.status.Sent? && receipt.messageId.Some? && 1 <= |receipt.messageId.value| <= 256
    && forall i :: 0 <= i < |receipt.messageId.value| ==> 0x21 <= receipt.messageId.value[i] as int <= 0x7e
  }

  /** A success of the destination that answers, valid, and with its slot still empty. */
  predicate Fits(e: Entry, p: Provider, success: UploadSuccess) {
    match success
    case DpsReportDone(report) => p.DpsReport? && report.permalink != ""
    case WingmanDone(None) => p.Wingman?
    case WingmanDone(Some(receipt)) => p.Wingman? && receipt.permalink != "" && e.job.record.wingman.None?
    case DonBotDone(None) => p.DonBot?
    case DonBotDone(Some(receipt)) => p.DonBot? && receipt.valid && e.job.record.donbot.None?
    case TwitchDone(receipt) => p.Twitch? && IsDelivery(receipt) && e.job.record.twitch.None?
  }

  /** The answers a coordinator takes: of the attempt under way, and in order themselves. */
  predicate Acceptable(e: Entry, result: UploadResult, now: nat) {
    && e.State(result.provider).Active? && e.job.Attempts(result.provider) == result.attempt
    && match result.outcome
       case OutcomeSucceeded(success) => Fits(e, result.provider, success)
       case RetryAfter(delay) => 0 < delay <= 86_400 * SECOND && now + delay < INSTANT_LIMIT
       case TwitchDropped(receipt) =>
         result.provider.Twitch? && !receipt.status.Sent? && receipt.messageId.None? && e.job.record.twitch.None?
       case _ => true
  }

  lemma AnswerIsAcceptedIff(e: Entry, result: UploadResult, now: nat, adapters: Adapters)
    ensures ApplyResultEntry(e, result, now, adapters).error.None? <==> Acceptable(e, result, now)
  {
    if e.State(result.provider).Active? && e.job.Attempts(result.provider) == result.attempt
       && result.provider.DpsReport? && Evaluate(e.job, DpsReport, result.outcome, now).Ok? {
      ReportAnswerShape(e, result, now, adapters);
    }
  }

  /** The record with the report or receipt that the answer carries in its slot. */
  function Filled(record: Record, outcome: UploadOutcome): Record {
    match outcome
    case OutcomeSucceeded(DpsReportDone(report)) => record.(report := Some(report))
    case OutcomeSucceeded(WingmanDone(Some(receipt))) => record.(wingman := Some(receipt))
    case OutcomeSucceeded(DonBotDone(Some(receipt))) => record.(donbot := Some(receipt))
    case OutcomeSucceeded(TwitchDone(receipt)) => record.(twitch := Some(receipt))
    case TwitchDropped(receipt) => record.(twitch := Some(receipt))
    case _ => record
  }

  /** The state of the destination that answered. A deferral is due from its delay on, not before. */
  ghost predicate Reaches(after: Entry, p: Provider, outcome: UploadOutcome, now: nat) {
    match outcome
    case OutcomeSucceeded(_) => after.State(p).Succeeded?
    case OutcomeSkipped => after.State(p).Skipped?
    case OutcomeCancelled => after.State(p).Cancelled?
    case RetryAfter(delay) => after.State(p).RetryScheduled? && forall later: nat :: Due(after, p, later) <==> later >= now + delay
    case _ => after.State(p).Failed?
  }

  /** Whether the answer is one that ends dps.report without a report. */
  predicate LosesReport(p: Provider, outcome: UploadOutcome) {
    p.DpsReport? && !outcome.OutcomeSucceeded? && !outcome.RetryAfter?
  }

  /** A waiting destination whose report has come: sent with its next attempt, skipped if Wingman does
      not take the log, and failed if it cannot be sent or its adapter refuses. */
  predicate IsStarted(e: Entry, q: Provider, adapters: Adapters, status: Status, events: seq<Event>, report: Option<Report>) {
    var attempts := e.job.Attempts(q);
    var request := Requested(e.job.id, q, attempts + 1, e.intents.At(q), report);
    if q.Wingman? && e.job.record.metadata.Some? && e.job.record.metadata.value.bossId == 1 then status == Status(Skipped, attempts)
    else if e.job.record.metadata.None? || !adapters.installed.At(q) || attempts >= 0xFFFF_FFFF then status == Status(Failed, attempts)
    else status == Status(if adapters.accepts.At(q) then Active else Failed, attempts + 1) && request in events
  }

  /** The other destinations: one that waits for dps.report is settled with it if the report is lost,
      and started if the report is there; nothing else happens to any of them. */
  predicate OthersFollow(e: Entry, change: Change, p: Provider, q: Provider, outcome: UploadOutcome, adapters: Adapters) {
    var before, status := e.job.record.statuses.At(q), change.entry.job.record.statuses.At(q);
    if !p.DpsReport? || outcome.RetryAfter? || !before.state.Waiting? || (q.Twitch? && e.reupload) then status == before
    else if LosesReport(p, outcome) then status == Status(if outcome.OutcomeCancelled? then Cancelled else Skipped, before.attempts)
    else IsStarted(e, q, adapters, status, change.events, change.entry.job.record.report)
  }

  ghost predicate LeadsTo(e: Entry, change: Change, result: UploadResult, now: nat, adapters: Adapters) {
    var after := change.entry;
    && Reaches(after, result.provider, result.outcome, now)
    && after.job.Attempts(result.provider) == e.job.Attempts(result.provider)
    && after.job.record.(statuses := e.job.record.statuses) == Filled(e.job.record, result.outcome)
    && after == e.(job := e.job.(record := after.job.record))
    && (forall q: Provider :: q != result.provider ==> OthersFollow(e, change, result.provider, q, result.outcome, adapters))
  }

  lemma OtherAnswerLeads(e: Entry, result: UploadResult, now: nat, adapters: Adapters)
    requires ApplyResultEntry(e, result, now, adapters).error.None? && !result.provider.DpsReport?
    ensures LeadsTo(e, ApplyResultEntry(e, result, now, adapters), result, now, adapters)
  {
    var p, after := result.provider, ApplyResultEntry(e, result, now, adapters).entry;
    match p case Wingman => case DonBot => case Twitch =>
  }

  /** The job differs in its destinations' states only. */
  predicate SameButStatuses(e: Entry, after: Entry) {
    after == e.(job := e.job.(record := e.job.record.(statuses := after.job.record.statuses)))
  }

  lemma FailingKeepsRecord(e: Entry, p: Provider)
    ensures SameButStatuses(e, FailDispatch(e, p))
  {
    SettleDependentsEffect(Try(e, p, Failed), false);
  }

  /** Dispatching reaches no slot. */
  lemma DispatchKeepsRecord(e: Entry, p: Provider, adapters: Adapters)
    ensures SameButStatuses(e, DispatchEntry(e, p, adapters).entry)
  {
    FailingKeepsRecord(e, p);
    if Admit(e, p, adapters.installed).Ok? {
      FailingKeepsRecord(e.(job := Admit(e, p, adapters.installed).value), p);
    }
  }

  /** The change of one waiting destination: it is started, and no other touched. */
  predicate StartsOne(e: Entry, change: Change, p: Provider, adapters: Adapters) {
    && SameButStatuses(e, change.entry)
    && change.entry.job.record.statuses == e.job.record.statuses.With(p, change.entry.job.record.statuses.At(p))
    && (if e.State(p).Waiting? then IsStarted(e, p, adapters, change.entry.job.record.statuses.At(p), change.events, e.job.record.report)
        else change == Change(e, [], None))
  }

  lemma DispatchWaitingStarts(e: Entry, p: Provider, adapters: Adapters)
    requires !p.DpsReport? && e.job.ReportReady()
    ensures StartsOne(e, DispatchWaiting(e, p, adapters), p, adapters) && DispatchWaiting(e, p, adapters).entry.job.ReportReady()
  {
    if e.State(p).Waiting? {
      DispatchKeepsRecord(e, p, adapters);
      if Ready(e, p, adapters.installed) {
        DispatchSends(e, p, adapters);
        assert NextRequest(e, p, e.intents.At(p)) == DispatchEntry(e, p, adapters).events[0];
      }
    }
  }

  lemma DispatchWaitingReaches(e: Entry, p: Provider, adapters: Adapters)
    requires !p.DpsReport?
    ensures var after := DispatchWaiting(e, p, adapters).entry;
            && SameButStatuses(e, after)
            && after.job.record.statuses == e.job.record.statuses.With(p, after.job.record.statuses.At(p))
            && (!e.State(p).Waiting? ==> after == e) && !after.State(p).Waiting?
  {
    if e.State(p).Waiting? {
      DispatchKeepsRecord(e, p, adapters);
    }
  }

  /** What the fan-out does to one destination. */
  predicate Reached(e: Entry, change: Change, q: Provider, adapters: Adapters) {
    var status := change.entry.job.record.statuses.At(q);
    if q.DpsReport? || !e.State(q).Waiting? || (q.Twitch? && e.reupload) then status == e.job.record.statuses.At(q)
    else IsStarted(e, q, adapters, status, change.events, e.job.record.report)
  }

  /** One destination after the other, a reupload leaving chat out. */
  lemma StartedInTurn(e: Entry, a: Change, b: Change, c: Change, all: Change, adapters: Adapters, q: Provider)
    requires StartsOne(e, a, Wingman, adapters) && StartsOne(a.entry, b, DonBot, adapters)
    requires if e.reupload then c == Change(b.entry, [], None) else StartsOne(b.entry, c, Twitch, adapters)
    requires all.entry == c.entry && all.events == a.events + b.events + c.events
    ensures SameButStatuses(e, all.entry) && Reached(e, all, q, adapters)
  {
    match q case DpsReport => case Wingman => case DonBot => case Twitch =>
  }

  lemma FanOutReaches(e: Entry, adapters: Adapters, q: Provider)
    requires e.job.ReportReady()
    ensures SameButStatuses(e, FanOut(e, adapters).entry) && Reached(e, FanOut(e, adapters), q, adapters)
  {
    var a := DispatchWaiting(e, Wingman, adapters);
    DispatchWaitingStarts(e, Wingman, adapters);
    var b := DispatchWaiting(a.entry, DonBot, adapters);
    DispatchWaitingStarts(a.entry, DonBot, adapters);
    var c := if e.reupload then Change(b.entry, [], None) else DispatchWaiting(b.entry, Twitch, adapters);
    DispatchWaitingStarts(b.entry, Twitch, adapters);
    StartedInTurn(e, a, b, c, FanOut(e, adapters), adapters, q);
  }

  lemma ReportAnswerLeads(e: Entry, result: UploadResult, now: nat, adapters: Adapters)
    requires ApplyResultEntry(e, result, now, adapters).error.None? && result.provider.DpsReport?
    ensures LeadsTo(e, ApplyResultEntry(e, result, now, adapters), result, now, adapters)
  {
    ReportAnswerShape(e, result, now, adapters);
    EvaluatedReport(e.job, result.outcome, now);
    var (recorded, next) := Evaluate(e.job, DpsReport, result.outcome, now).value;
    var answered := e.(job := if next.Succeeded? then recorded else e.job.Put(DpsReport, next));
    var after := ApplyResultEntry(e, result, now, adapters).entry;
    if next.Succeeded? {
      SucceededReportLeads(e, result, now, adapters, answered);
    } else {
      SettleDependentsEffect(answered, next.Cancelled?);
    }
  }

  lemma SucceededReportLeads(e: Entry, result: UploadResult, now: nat, adapters: Adapters, answered: Entry)
    requires result.provider.DpsReport? && result.outcome.OutcomeSucceeded? && result.outcome.success.DpsReportDone?
    requires answered == e.(job := e.job.Put(DpsReport, Succeeded)).(job := answered.job)
    requires answered.job == e.job.(record := Filled(e.job.record, result.outcome)).Put(DpsReport, Succeeded)
    ensures LeadsTo(e, Then(Change(answered, [Answer(e, DpsReport, Succeeded)], None), FanOut(answered, adapters)), result, now, adapters)
  {
    var fan := FanOut(answered, adapters);
    var change := Then(Change(answered, [Answer(e, DpsReport, Succeeded)], None), fan);
    FanOutReaches(answered, adapters, DpsReport);
    forall q: Provider | q != DpsReport ensures OthersFollow(e, change, DpsReport, q, result.outcome, adapters) {
      FanOutReaches(answered, adapters, q);
      StartedAlike(e, answered, q, adapters, fan, change);
    }
  }

  /** The report aside, the entries agree. */
  lemma StartedAlike(e: Entry, answered: Entry, q: Provider, adapters: Adapters, fan: Change, change: Change)
    requires q != DpsReport && Reached(answered, fan, q, adapters) && change.entry == fan.entry
    requires forall event :: event in fan.events ==> event in change.events
    requires answered == e.(job := answered.job) && answered.job.id == e.job.id
    requires answered.job.record.metadata == e.job.record.metadata && answered.job.record.statuses.At(q) == e.job.record.statuses.At(q)
    requires fan.entry.job.record.report == answered.job.record.report
    ensures var status := change.entry.job.record.statuses.At(q);
            if !e.State(q).Waiting? || (q.Twitch? && e.reupload) then status == e.job.record.statuses.At(q)
            else IsStarted(e, q, adapters, status, change.events, change.entry.job.record.report)
  {
  }

  /** Where an accepted answer leads: the destination's new state by the outcome, a deferral due from
      now plus its delay on and not before; the report or receipt that came with it in its slot and
      nothing else in any; no attempt counted; and the others as OthersFollow says. */
  lemma AnswerLeads(e: Entry, result: UploadResult, now: nat, adapters: Adapters)
    requires ApplyResultEntry(e, result, now, adapters).error.None?
    ensures LeadsTo(e, ApplyResultEntry(e, result, now, adapters), result, now, adapters)
  {
    if result.provider.DpsReport? {
      ReportAnswerLeads(e, result, now, adapters);
    } else {
      OtherAnswerLeads(e, result, now, adapters);
    }
  }

  /** The same of the whole coordinator: the job the result names is as LeadsTo says, if it is still
      retained, and it is as long as it is busy, so after every deferral; the other jobs are
      untouched, and of those only idle ones can have gone. */
  lemma AppliedResultLeads(s: State, result: UploadResult, now: nat, accepts: Accepts) returns (e: Entry, change: Change)
    requires Inv(s) && ApplyResult(s, result, now, accepts).1.None?
    ensures e in s.jobs && e.job.id == result.job && Acceptable(e, result, now)
    ensures LeadsTo(e, change, result, now, Adapters(s.installed, accepts))
    ensures var t := ApplyResult(s, result, now, accepts).0;
            && (change.entry.Busy() ==> change.entry in t.jobs)
            && (forall f :: f in t.jobs ==> f == change.entry || (f in s.jobs && f.job.id != result.job))
            && (forall f :: f in s.jobs && f.Busy() && f != e ==> f in t.jobs)
            && t == s.(jobs := t.jobs, log := s.log + change.events)
    ensures result.outcome.RetryAfter? ==> change.entry.Busy()
  {
    var i := IndexOf(s.jobs, result.job).value;
    var adapters := Adapters(s.installed, accepts);
    e := s.jobs[i];
    change := ApplyResultEntry(e, result, now, adapters);
    AnswerIsAcceptedIff(e, result, now, adapters);
    AnswerLeads(e, result, now, adapters);
    ReplacedMembers(s.jobs, i, change.entry, Excess(|s.jobs|, s.limit));
  }

  /** Who is left when one job is replaced and the history trimmed. */
  lemma ReplacedMembers(jobs: seq<Entry>, i: nat, after: Entry, excess: nat)
    requires Increasing(jobs) && i < |jobs|
    ensures var left := Trimmed(jobs[i := after], excess);
            && (after.Busy() ==> after in left)
            && (forall f :: f in left ==> f == after || (f in jobs && f.job.id != jobs[i].job.id))
            && (forall f :: f in jobs && f.Busy() && f != jobs[i] ==> f in left)
  {
    var stored := jobs[i := after];
    TrimmedMembers(stored, excess);
    assert stored[i] == after;
    forall f | f in jobs && f != jobs[i] ensures f in stored {
      var j :| 0 <= j < |jobs| && jobs[j] == f;
      assert stored[j] == f;
    }
    forall f | f in stored ensures f == after || (f in jobs && f.job.id != jobs[i].job.id) {
      var j :| 0 <= j < |stored| && stored[j] == f;
    }
  }

  // ---------------------------------------------------------------- metadata

  /** The parsed metadata is kept as it came, and the parser owes nothing any more. With dps.report
      ahead of them the other destinations go on waiting, except Wingman for a WvW log. */
  lemma MetadataIsKept(e: Entry, metadata: Metadata, adapters: Adapters)
    requires AwaitsMetadata(e)
    ensures var after := SetMetadataEntry(e, metadata, adapters).entry;
            && after == e.(job := e.job.(record := after.job.record), metadataPending := false)
            && after.job.record == e.job.record.(metadata := Some(metadata), statuses := after.job.record.statuses)
            && (e.State(DpsReport).Waiting? && after.State(DpsReport).Active? ==>
                  after.job.record.statuses == e.job.record.statuses.(
                    dps := after.job.record.statuses.dps,
                    wingman := if e.State(Wingman).Waiting? && metadata.bossId == 1 then Status(Skipped, e.job.Attempts(Wingman))
                               else e.job.record.statuses.wingman))
  {
    var routed := RoutedEntry(e, metadata);
    var wingman := DispatchWaiting(routed, Wingman, adapters);
    DispatchKeepsRecord(routed, DpsReport, adapters);
    DispatchWaitingReaches(routed, Wingman, adapters);
    DispatchWaitingReaches(wingman.entry, DonBot, adapters);
    if e.State(DpsReport).Waiting? {
      TransitionCountsAttempts(routed.job, DpsReport, Active, DpsReport);
      SettleDependentsEffect(Try(routed, DpsReport, Failed), false);
      if Admit(routed, DpsReport, adapters.installed).Ok? {
        SettleDependentsEffect(Try(routed.(job := Admit(routed, DpsReport, adapters.installed).value), DpsReport, Failed), false);
      }
    }
  }

  /** A destination with something in its way fails without a request or an attempt. */
  lemma UnreadyDispatchFails(e: Entry, p: Provider, adapters: Adapters)
    requires (e.State(p).Waiting? || e.State(p).RetryScheduled?) && !Ready(e, p, adapters.installed) && !(p.Wingman? && e.job.Wvw())
    ensures var change := DispatchEntry(e, p, adapters);
            change.events == [] && change.error.Some? && change.entry.State(p).Failed? && change.entry.job.Attempts(p) == e.job.Attempts(p)
  {
    TryEffect(e, p, Failed);
    SettleDependentsEffect(Try(e, p, Failed), false);
  }

  // ---------------------------------------------------------------- replays

  /** The slot of a destination is empty, and the others are as they were. */
  predicate OnlyEmptied(before: Record, after: Record, cleared: PerProvider<bool>) {
    after == before.(statuses := after.statuses,
                     wingman := if cleared.wingman then None else before.wingman,
                     donbot := if cleared.donbot then None else before.donbot,
                     twitch := if cleared.twitch then None else before.twitch)
  }

  /** A manual retry of dps.report brings back the destinations that were skipped for want of the
      report: all of them, or in a reupload the two uploads, with their receipts gone. */
  lemma ReportRetryRearms(e: Entry, adapters: Adapters)
    requires Ready(e, DpsReport, adapters.installed) && e.State(DpsReport).Failed? && adapters.accepts.dps
    ensures var after := RetryFailedEntry(e, DpsReport, adapters).entry;
            && (forall q: Provider :: q != DpsReport ==>
                  && after.job.Attempts(q) == e.job.Attempts(q)
                  && after.State(q) == (if e.State(q).Skipped? && (if e.reupload then !q.Twitch? else e.job.record.report.None?)
                                        then Waiting else e.State(q)))
            && OnlyEmptied(e.job.record, after.job.record,
                           PerProvider(false, e.reupload && e.State(Wingman).Skipped?, e.reupload && e.State(DonBot).Skipped?, false))
  {
    var armed, after := RetryArmed(e, DpsReport), RetryFailedEntry(e, DpsReport, adapters).entry;
    DispatchKeepsRecord(armed, DpsReport, adapters);
    forall q: Provider | q != DpsReport
      ensures && after.job.Attempts(q) == e.job.Attempts(q)
              && after.State(q) == (if e.State(q).Skipped? && (if e.reupload then !q.Twitch? else e.job.record.report.None?)
                                    then Waiting else e.State(q))
    {
      TransitionCountsAttempts(armed.job, DpsReport, Active, q);
      match q case Wingman => case DonBot => case Twitch =>
    }
  }

  /** A manual retry of another destination changes that one only; the old chat receipt goes. */
  lemma RetryTouchesOne(e: Entry, p: Provider, adapters: Adapters)
    requires !p.DpsReport? && Ready(e, p, adapters.installed) && e.State(p).Failed?
    ensures var after := RetryFailedEntry(e, p, adapters).entry;
            && after.job.record.statuses == e.job.record.statuses.With(p, after.job.record.statuses.At(p))
            && OnlyEmptied(e.job.record, after.job.record, PerProvider(false, false, false, p.Twitch?))
            && after.metadataPending == e.metadataPending && after.reupload == e.reupload
            && after.intents == e.intents.With(p, after.intents.At(p))
  {
    var armed := RetryArmed(e, p);
    DispatchKeepsRecord(armed, p, adapters);
    DispatchWaitingReaches(armed, p, adapters);
  }

  /** A retry is refused, without a trace, for a destination that has not failed, for want of
      metadata, of the adapter, or of the report it needs. */
  lemma RetryIsRefusedIff(e: Entry, p: Provider, adapters: Adapters)
    requires p.DpsReport? && e.reupload ==> e.job.record.metadata.Some?
    ensures var change := RetryFailedEntry(e, p, adapters);
            var free := p.DpsReport? || (!p.Twitch? && e.State(DpsReport).Disabled?) || (e.State(DpsReport).Succeeded? && e.job.record.report.Some?);
            if e.job.record.metadata.None? then change == Change(e, [], Some(Domain(EncounterMetadataRequired)))
            else if !adapters.installed.At(p) then change == Change(e, [], Some(MissingProvider))
            else if !free then change == Change(e, [], Some(DependencyUnavailable))
            else if !e.State(p).Failed? then change == Change(e, [], Some(Domain(ManualRetryRequiresFailure)))
            else !change.entry.State(p).Waiting?
  {
    if e.State(p).Failed? && e.job.record.metadata.Some? && DependencyError(e, p).None? && adapters.installed.At(p) {
      assert PrepareRetry(e, p).Ok?;
      var armed := RetryArmed(e, p);
      assert armed.State(p).Waiting?;
      DispatchLeaves(armed, p, adapters);
    }
  }

  /** A destination that is dispatched waits no longer. */
  lemma DispatchLeaves(e: Entry, p: Provider, adapters: Adapters)
    requires e.State(p).Waiting?
    ensures !DispatchEntry(e, p, adapters).entry.State(p).Waiting?
  {
    TransitionCountsAttempts(e.job, p, Active, p);
    SettleDependentsEffect(Try(e, p, Failed), false);
    var admitted := Admit(e, p, adapters.installed);
    if admitted.Ok? {
      SettleDependentsEffect(Try(e.(job := admitted.value), p, Failed), false);
    }
  }

  /** A reupload is refused, without a trace, without metadata or while an upload is under way. */
  lemma ReuploadIsRefusedIff(e: Entry, adapters: Adapters)
    ensures var change := ReuploadEntry(e, adapters);
            if e.job.record.metadata.None? then change == Change(e, [], Some(Domain(EncounterMetadataRequired)))
            else if e.State(DpsReport).Busy() || e.State(Wingman).Busy() || e.State(DonBot).Busy()
            then change == Change(e, [], Some(Domain(ExplicitDeliveryBusy)))
            else change.entry.reupload
  {
    if PrepareReupload(e.job).Ok? {
      var intents := PerProvider(Intent.Reupload, Intent.Reupload, Intent.Reupload, e.intents.twitch);
      var marked := Entry(PrepareReupload(e.job).value, e.metadataPending, intents, true);
      MetadataStaysSettled(if marked.job.Wvw() then Try(marked, Wingman, Skipped) else marked, DpsReport, adapters);
    }
  }

  /** A repeated chat delivery is refused, without a trace, without a report or metadata or while
      chat is under way. */
  lemma RechatIsRefusedIff(e: Entry, adapters: Adapters)
    ensures var change := RechatEntry(e, adapters);
            if !(e.State(DpsReport).Succeeded? && e.job.record.report.Some?) then change == Change(e, [], Some(DependencyUnavailable))
            else if e.job.record.metadata.None? then change == Change(e, [], Some(Domain(EncounterMetadataRequired)))
            else if e.State(Twitch).Busy() then change == Change(e, [], Some(Domain(ExplicitDeliveryBusy)))
            else change.entry.intents.twitch.Rechat?
  {
    if DependencyError(e, Twitch).None? && PrepareExplicitDelivery(e.job, Twitch).Ok? {
      MetadataStaysSettled(e.(job := PrepareExplicitDelivery(e.job, Twitch).value, intents := e.intents.With(Twitch, Rechat)), Twitch, adapters);
    }
  }

  // ---------------------------------------------------------------- calls on one job

  /** The change of this job is what became of the call, and nothing else changed. */
  predicate Routed(s: State, outcome: (State, Option<CoordinatorError>), i: nat, change: Change, trims: bool)
    requires i < |s.jobs|
  {
    var jobs := s.jobs[i := change.entry];
    && outcome.0 == s.(jobs := if trims then TrimJobs(jobs, s.limit) else jobs, log := s.log + change.events)
    && outcome.1 == change.error
  }

  /** No call about a job changes anything once the coordinator stops, or if it retains no such job. */
  lemma StoppedOrUnknown(s: State, id: nat, metadata: Metadata, cancelled: bool, result: UploadResult, now: nat, p: Provider, accepts: Accepts)
    requires result.job == id
    requires s.stopping || forall i :: 0 <= i < |s.jobs| ==> s.jobs[i].job.id != id
    ensures var refused := (s, Some(if s.stopping then ShuttingDown else UnknownJob));
            && Calls.SetMetadata(s, id, metadata, accepts) == refused && Calls.FailMetadata(s, id, cancelled) == refused
            && Calls.ApplyResult(s, result, now, accepts) == refused && Calls.RetryFailed(s, id, p, accepts) == refused
            && (s.stopping || (s.installed.dps && s.installed.wingman && s.installed.donbot) ==> Calls.Reupload(s, id, accepts) == refused)
            && (s.stopping || s.installed.twitch ==> Calls.Rechat(s, id, accepts) == refused)
  {
  }

  /** Each call about a retained job goes to that job, and only there. The parser's report is taken while
      it is awaited, and refused otherwise; a replay needs the adapters of all it sends to. */
  lemma CallsReachTheirJob(s: State, i: nat, metadata: Metadata, cancelled: bool, result: UploadResult, now: nat, p: Provider, accepts: Accepts)
    requires Inv(s) && !s.stopping && i < |s.jobs| && result.job == s.jobs[i].job.id
    ensures var e, id, adapters := s.jobs[i], s.jobs[i].job.id, Adapters(s.installed, accepts);
            && (if e.metadataPending then Routed(s, Calls.SetMetadata(s, id, metadata, accepts), i, SetMetadataEntry(e, metadata, adapters), true)
                else Calls.SetMetadata(s, id, metadata, accepts) == (s, Some(MetadataNotPending)))
            && (if e.metadataPending then Routed(s, Calls.FailMetadata(s, id, cancelled), i, FailMetadataEntry(e, cancelled), true)
                else Calls.FailMetadata(s, id, cancelled) == (s, Some(MetadataNotPending)))
            && (if Acceptable(e, result, now) then Routed(s, Calls.ApplyResult(s, result, now, accepts), i, ApplyResultEntry(e, result, now, adapters), true)
                else Calls.ApplyResult(s, result, now, accepts).0 == s && Calls.ApplyResult(s, result, now, accepts).1.Some?)
            && Routed(s, Calls.RetryFailed(s, id, p, accepts), i, RetryFailedEntry(e, p, adapters), false)
            && (if s.installed.dps && s.installed.wingman && s.installed.donbot
                then Routed(s, Calls.Reupload(s, id, accepts), i, ReuploadEntry(e, adapters), false)
                else Calls.Reupload(s, id, accepts) == (s, Some(MissingProvider)))
            && (if s.installed.twitch then Routed(s, Calls.Rechat(s, id, accepts), i, RechatEntry(e, adapters), false)
                else Calls.Rechat(s, id, accepts) == (s, Some(MissingProvider)))
  {
    assert IndexOf(s.jobs, s.jobs[i].job.id) == Some(i);
    assert EntryHolds(s.jobs[i], s);
    AnswerIsAcceptedIff(s.jobs[i], result, now, Adapters(s.installed, accepts));
    ApplyResultKeeps(s.jobs[i], result, now, LedgerOf(s.log, s.jobs[i].job.id), Adapters(s.installed, accepts));
  }

  // ---------------------------------------------------------------- due retries, in order

  /** The destinations in the order in which a job's retries are looked at. */
  const IN_ORDER: seq<Provider> := [DpsReport, Wingman, DonBot, Twitch]

  /** The i-th destination, job by job, is due. */
  predicate DueAt(jobs: seq<Entry>, i: nat, now: nat)
    requires i < 4 * |jobs|
  {
    Due(jobs[i / 4], IN_ORDER[i % 4], now)
  }

  /** How many of the first k destinations are due. */
  function DueBefore(jobs: seq<Entry>, k: nat, now: nat): nat
    requires k <= 4 * |jobs|
  {
    if k == 0 then 0 else DueBefore(jobs, k - 1, now) + (if DueAt(jobs, k - 1, now) then 1 else 0)
  }

  /** After k visits the due destinations among the first k were sent until the budget was used up;
      beyond the k-th, and beyond the budget, what was due still is. */
  ghost predicate InOrder(jobs: seq<Entry>, left: seq<Entry>, sent: nat, k: nat, budget: nat, now: nat) {
    && |left| == |jobs| && k <= 4 * |jobs|
    && sent == (if DueBefore(jobs, k, now) < budget then DueBefore(jobs, k, now) else budget)
    && (forall i: nat :: i < 4 * |jobs| && (k <= i || DueBefore(jobs, i, now) >= budget) ==> (DueAt(left, i, now) <==> DueAt(jobs, i, now)))
    && (forall i: nat :: i < k && DueBefore(jobs, i, now) < budget ==> !DueAt(left, i, now))
  }

  lemma {:induction false} DueBeforeGrows(jobs: seq<Entry>, i: nat, k: nat, now: nat)
    requires i <= k <= 4 * |jobs|
    ensures DueBefore(jobs, i, now) <= DueBefore(jobs, k, now)
  {
    if i < k {
      DueBeforeGrows(jobs, i, k - 1, now);
    }
  }

  /** Only the k-th destination is no longer due. */
  ghost predicate OnlySent(left: seq<Entry>, after: seq<Entry>, k: nat, now: nat) {
    && |after| == |left| && k < 4 * |left| && !DueAt(after, k, now)
    && forall i: nat :: i < 4 * |left| && i != k ==> (DueAt(after, i, now) <==> DueAt(left, i, now))
  }

  lemma VisitedInOrder(jobs: seq<Entry>, left: seq<Entry>, after: seq<Entry>, sent: nat, k: nat, budget: nat, now: nat)
    requires k < 4 * |jobs| && InOrder(jobs, left, sent, k, budget, now)
    requires if sent < budget && DueAt(left, k, now) then OnlySent(left, after, k, now) else after == left
    ensures InOrder(jobs, after, if sent < budget && DueAt(left, k, now) then sent + 1 else sent, k + 1, budget, now)
  {
    assert DueAt(left, k, now) <==> DueAt(jobs, k, now);
    forall i: nat | i <= k ensures DueBefore(jobs, i, now) <= DueBefore(jobs, k, now) {
      DueBeforeGrows(jobs, i, k, now);
    }
  }

  lemma DispatchKeepsDue(e: Entry, p: Provider, adapters: Adapters, q: Provider, now: nat)
    requires q != p
    ensures Due(DispatchEntry(e, p, adapters).entry, q, now) <==> Due(e, q, now)
  {
    if Due(e, q, now) {
      DispatchTouchesOne(e, p, adapters, q);
    } else {
      DispatchMakesNothingDue(e, p, adapters, q, now);
    }
  }

  lemma DispatchedAlone(jobs: seq<Entry>, k: nat, adapters: Adapters, ledger: Ledger, now: nat)
    requires k < 4 * |jobs| && DueAt(jobs, k, now) && EntryInv(jobs[k / 4], ledger)
    ensures OnlySent(jobs, jobs[k / 4 := DispatchEntry(jobs[k / 4], IN_ORDER[k % 4], adapters).entry], k, now)
  {
    var e, p := jobs[k / 4], IN_ORDER[k % 4];
    var after := jobs[k / 4 := DispatchEntry(e, p, adapters).entry];
    DueKeeps(e, p, ledger, adapters);
    forall i: nat | i < 4 * |jobs| && i != k ensures DueAt(after, i, now) <==> DueAt(jobs, i, now) {
      if i / 4 == k / 4 {
        DispatchKeepsDue(e, p, adapters, IN_ORDER[i % 4], now);
      }
    }
  }

  /** The visits are sound, leave every job its id, and go in order. */
  ghost predicate Orderly(s: State, at: Progress, k: nat, budget: nat, now: nat) {
    && Onward(s, at, budget) && InOrder(s.jobs, at.state.jobs, at.count, k, budget, now)
    && forall i :: 0 <= i < |s.jobs| ==> at.state.jobs[i].job.id == s.jobs[i].job.id
  }

  lemma VisitIsOrderly(s: State, at: Progress, k: nat, budget: nat, now: nat, accepts: nat -> Accepts)
    requires !s.stopping && k < 4 * |s.jobs| && Orderly(s, at, k, budget, now)
    ensures Orderly(s, Visit(at, k, budget, now, accepts), k + 1, budget, now)
  {
    VisitKeepsCore(s, at, k, budget, now, accepts);
    var e := at.state.jobs[k / 4];
    var adapters := Adapters(at.state.installed, accepts(e.job.id));
    assert NthProvider(k) == IN_ORDER[k % 4];
    if at.count < budget && DueAt(at.state.jobs, k, now) {
      assert EntryHolds(e, at.state);
      DispatchedAlone(at.state.jobs, k, adapters, LedgerOf(at.state.log, e.job.id), now);
      DispatchKeepsRecord(e, NthProvider(k), adapters);
    }
    VisitedInOrder(s.jobs, at.state.jobs, Visit(at, k, budget, now, accepts).state.jobs, at.count, k, budget, now);
  }

  lemma NothingVisitedYet(s: State, budget: nat, now: nat)
    requires Core(s)
    ensures Orderly(s, Progress(s, 0), 0, budget, now)
  {
  }

  lemma VisitsAreOrderly(s: State, budget: nat, now: nat, accepts: nat -> Accepts)
    requires Core(s) && !s.stopping
    ensures Orderly(s, Visits(s, 4 * |s.jobs|, budget, now, accepts), 4 * |s.jobs|, budget, now)
  {
    var keeps := (at: Progress, k: nat) => Orderly(s, at, k, budget, now);
    NothingVisitedYet(s, budget, now);
    forall at: Progress, k: nat | k < 4 * |at.state.jobs| && keeps(at, k) ensures keeps(Visit(at, k, budget, now, accepts), k + 1) {
      OrderlySize(s, at, k, budget, now);
      VisitIsOrderly(s, at, k, budget, now, accepts);
    }
    VisitsEstablish(s, 4 * |s.jobs|, budget, now, accepts, keeps);
  }

  lemma OrderlySize(s: State, at: Progress, k: nat, budget: nat, now: nat)
    requires Orderly(s, at, k, budget, now)
    ensures |at.state.jobs| == |s.jobs|
  {
  }

  /** Whether the destination is due among the jobs left. */
  ghost predicate StillDue(jobs: seq<Entry>, id: nat, p: Provider, now: nat) {
    exists e :: e in jobs && e.job.id == id && Due(e, p, now)
  }

  lemma TrimmingKeepsDue(jobs: seq<Entry>, excess: nat, i: nat, p: Provider, now: nat)
    requires Increasing(jobs) && i < |jobs|
    ensures StillDue(Trimmed(jobs, excess), jobs[i].job.id, p, now) <==> Due(jobs[i], p, now)
  {
    TrimmedMembers(jobs, excess);
    assert jobs[i] in jobs;
    forall e | e in jobs && e.job.id == jobs[i].job.id ensures e == jobs[i] {
      var j :| 0 <= j < |jobs| && jobs[j] == e;
    }
  }

  /** Due retries go out in order, job by job and dps.report first, until the budget is used up: as
      many as are due or as there is budget for, those first in line and no others. */
  lemma DueRetriesGoInOrder(s: State, budget: nat, now: nat, accepts: nat -> Accepts, i: nat)
    requires Inv(s) && !s.stopping && i < 4 * |s.jobs| && DueAt(s.jobs, i, now)
    ensures var (t, sent) := DispatchDueRetries(s, budget, now, accepts);
            var total := DueBefore(s.jobs, 4 * |s.jobs|, now);
            && sent == (if total < budget then total else budget)
            && (StillDue(t.jobs, s.jobs[i / 4].job.id, IN_ORDER[i % 4], now) <==> DueBefore(s.jobs, i, now) >= budget)
  {
    VisitsAreOrderly(s, budget, now, accepts);
    var done := Visits(s, 4 * |s.jobs|, budget, now, accepts);
    TrimmingKeepsDue(done.state.jobs, Excess(|done.state.jobs|, done.state.limit), i / 4, IN_ORDER[i % 4], now);
    assert DueAt(done.state.jobs, i, now) <==> DueBefore(s.jobs, i, now) >= budget;
  }

  // ---------------------------------------------------------------- history

  /** A limit from one to ten thousand is adopted at once, the oldest idle jobs making room. */
  lemma LimitIsAdopted(s: State, limit: nat) returns (k: nat)
    ensures var (t, error) := SetHistoryLimit(s, limit);
            && (error.None? <==> 1 <= limit <= 10_000) && (error.Some? ==> t == s && error == Some(InvalidHistoryLimit))
            && (error.None? ==>
                  && t == s.(limit := limit, jobs := t.jobs)
                  && k <= |s.jobs| && t.jobs == BusyOnly(s.jobs[..k]) + s.jobs[k..]
                  && (|t.jobs| == (if |s.jobs| < limit then |s.jobs| else limit) || (|t.jobs| > limit && AllBusy(t.jobs))))
  {
    k := TrimmingDropsOldestIdle(s.jobs, Excess(|s.jobs|, limit));
  }

  /** A row that can be taken back: it names a file, and what it has in its slots is valid. */
  predicate Restorable(row: Record) {
    && row.file.path != Path(NoPrefix, [])
    && (row.report.Some? ==> row.report.value.permalink != "") && (row.wingman.Some? ==> row.wingman.value.permalink != "")
    && (row.donbot.Some? ==> row.donbot.value.valid) && (row.twitch.Some? ==> row.twitch.value.Valid())
  }

  /** The row under its new id: what was under way when the process ended has failed, everything
      else is as it was saved, and nothing is pending. */
  ghost predicate IsRestored(e: Entry, id: nat, row: Record) {
    && e.job.id == id && !e.metadataPending && !e.reupload && e.intents == ALL_AUTOMATIC
    && e.job.record == row.(statuses := e.job.record.statuses)
    && (forall p: Provider :: var saved := row.statuses.At(p);
          && e.job.Attempts(p) == saved.attempts
          && e.State(p) == (if saved.state.Waiting? || saved.state.Active? || saved.state.RetryScheduled? then Failed else saved.state))
  }

  lemma RowIsRestored(id: nat, row: Record)
    ensures UploadJobs.Restore(id, row).Ok? <==> Restorable(row)
    ensures Restorable(row) ==> IsRestored(NewEntry(UploadJobs.Restore(id, row).value, false), id, row)
  {
    if Restorable(row) {
      var e := NewEntry(UploadJobs.Restore(id, row).value, false);
      forall p: Provider
        ensures var saved := row.statuses.At(p);
                && e.job.Attempts(p) == saved.attempts
                && e.State(p) == (if saved.state.Waiting? || saved.state.Active? || saved.state.RetryScheduled? then Failed else saved.state)
      {
        match p case DpsReport => case Wingman => case DonBot => case Twitch =>
      }
    }
  }

  lemma {:induction false} RowsAreRestored(records: seq<Record>)
    ensures RestoredJobs(records).Ok? <==> forall i :: 0 <= i < |records| ==> Restorable(records[i])
    ensures var jobs := RestoredJobs(records);
            jobs.Ok? ==> |jobs.value| == |records| && forall i :: 0 <= i < |records| ==> IsRestored(jobs.value[i], i + 1, records[i])
  {
    if records != [] {
      var n := |records| - 1;
      RowsAreRestored(records[..n]);
      RowIsRestored(n + 1, records[n]);
      assert forall i :: 0 <= i < n ==> records[..n][i] == records[i];
    }
  }

  /** Restoring takes the newest rows that fit, each as IsRestored says, or nothing at all: it does so
      exactly if the coordinator is untouched and each of those rows is in order. */
  lemma HistoryIsRestored(s: State, records: seq<Record>)
    ensures var (t, error) := RestoreHistory(s, records);
            var skip := if |records| > s.limit then |records| - s.limit else 0;
            && (error.None? <==>
                  && !s.stopping && !s.restored && s.nextId == Some(1) && s.jobs == []
                  && forall i :: skip <= i < |records| ==> Restorable(records[i]))
            && (error.Some? ==> t == s)
            && (error.None? ==>
                  && |t.jobs| == |records| - skip && t.restored && t.nextId == Some(|t.jobs| + 1) && t.log == s.log && t.limit == s.limit
                  && forall i :: 0 <= i < |t.jobs| ==> IsRestored(t.jobs[i], i + 1, records[skip + i]))
  {
    RowsAreRestored(records[Excess(|records|, s.limit)..]);
  }

  // ---------------------------------------------------------------- stopping

  /** What was under way is cancelled, nothing is pending, and everything else is as it was. */
  ghost predicate IsCancelled(e: Entry, after: Entry) {
    && after == e.(metadataPending := false, job := e.job.(record := e.job.record.(statuses := after.job.record.statuses)))
    && forall p: Provider ::
         && after.job.Attempts(p) == e.job.Attempts(p)
         && after.State(p) == (if e.State(p).Waiting? || e.State(p).Active? || e.State(p).RetryScheduled? then Cancelled else e.State(p))
  }

  lemma EntryIsCancelled(e: Entry)
    ensures IsCancelled(e, CancelEntry(e)) && !CancelEntry(e).Busy()
  {
    CancelEffect(e);
  }

  lemma {:induction false} IdleJobsMakeRoom(jobs: seq<Entry>, excess: nat)
    requires excess <= |jobs| && forall i :: 0 <= i < |jobs| ==> !jobs[i].Busy()
    ensures Trimmed(jobs, excess) == jobs[excess..]
  {
    if excess > 0 {
      IdleJobsMakeRoom(jobs[1..], excess - 1);
    }
  }

  /** Stopping cancels whatever is under way in every job, and keeps as many of the newest as fit. */
  lemma EverythingIsCancelled(s: State)
    requires !s.stopping
    ensures var t := CancelAll(s);
            && t == s.(stopping := true, jobs := t.jobs) && |t.jobs| == (if |s.jobs| < s.limit then |s.jobs| else s.limit)
            && (forall i :: 0 <= i < |t.jobs| ==> IsCancelled(s.jobs[|s.jobs| - |t.jobs| + i], t.jobs[i]))
            && CancelAll(t) == t
  {
    var cancelled, excess := CancelJobs(s.jobs), Excess(|s.jobs|, s.limit);
    forall i | 0 <= i < |s.jobs| ensures IsCancelled(s.jobs[i], cancelled[i]) && !cancelled[i].Busy() {
      EntryIsCancelled(s.jobs[i]);
    }
    IdleJobsMakeRoom(cancelled, excess);
  }
}
