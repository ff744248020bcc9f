/** The coordinator's operations on one retained entry, as functions, and what each of them
    keeps. Every operation returns the new entry, the events it logged, and its error. */
module UploadEntries {
  import opened Outcomes
  import opened LogFiles
  import opened Times
  import opened UploadJobs
  import opened UploadLedger

  const MAX_RETRY_DELAY: nat := DAY

  datatype CoordinatorError =
    | InvalidHistoryLimit | CapacityReached | JobIdExhausted | UnknownJob | MissingProvider
    | UnexpectedResult | InvalidRetryDelay | MetadataNotPending | RestoreRequiresEmptyCoordinator
    | DependencyUnavailable | ShuttingDown | Domain(error: JobError) | Dispatch

  datatype UploadSuccess =
    | DpsReportDone(report: Report)
    | WingmanDone(receipt: Option<WingmanReceipt>)
    | DonBotDone(donbot: Option<DonBotReceipt>)
    | TwitchDone(delivery: TwitchReceipt)

  /** Notices only change the displayed text, so an outcome with one is the outcome without. */
  datatype UploadOutcome =
    | OutcomeSucceeded(success: UploadSuccess)
    | OutcomeSkipped
    | RetryAfter(delay: nat)
    | OutcomeFailed
    | TwitchDropped(drop: TwitchReceipt)
    | Ambiguous
    | OutcomeCancelled

  datatype UploadResult = UploadResult(job: nat, provider: Provider, attempt: nat, outcome: UploadOutcome)

  datatype Entry = Entry(job: Job, metadataPending: bool, intents: PerProvider<Intent>, reupload: bool) {
    predicate Busy() {
      metadataPending || job.Busy()
    }

    function State(p: Provider): ProviderState {
      job.State(p)
    }
  }

  /** The adapters: which are installed, and whether each accepts the request it is offered
      in this call. A panicking adapter counts as refusing. */
  datatype Adapters = Adapters(installed: PerProvider<bool>, accepts: PerProvider<bool>)

  datatype Change = Change(entry: Entry, events: seq<Event>, error: Option<CoordinatorError>)

  const DEPENDENTS: seq<Provider> := [Wingman, DonBot, Twitch]

  function NewEntry(job: Job, metadataPending: bool): Entry {
    Entry(job, metadataPending, PerProvider(Automatic, Automatic, Automatic, Automatic), false)
  }

  // ---------------------------------------------------------------- operations

  /** A refused transition leaves the job as it is. */
  function Try(e: Entry, p: Provider, next: ProviderState): Entry {
    var job := Transition(e.job, p, next);
    if job.Ok? then e.(job := job.value) else e
  }

  function SettleDependent(e: Entry, p: Provider, cancelled: bool): Entry {
    if p.Twitch? && e.reupload then e
    else if e.State(p).Waiting? then Try(e, p, if cancelled then Cancelled else Skipped)
    else e
  }

  function SettleDependents(e: Entry, cancelled: bool): Entry {
    SettleDependent(SettleDependent(SettleDependent(e, Wingman, cancelled), DonBot, cancelled), Twitch, cancelled)
  }

  function FailDispatch(e: Entry, p: Provider): Entry {
    var failed := Try(e, p, Failed);
    if p.DpsReport? then SettleDependents(failed, false) else failed
  }

  function DependencyError(e: Entry, p: Provider): Option<CoordinatorError> {
    if p.DpsReport? then None
    else if !p.Twitch? && e.State(DpsReport).Disabled? then None
    else if e.job.ReportReady() then None
    else Some(DependencyUnavailable)
  }

  /** The checks and the transition in front of the adapter call. */
  function Admit(e: Entry, p: Provider, installed: PerProvider<bool>): Result<Job, CoordinatorError> {
    if e.job.record.metadata.None? then Err(Domain(EncounterMetadataRequired))
    else if !installed.At(p) then Err(MissingProvider)
    else if DependencyError(e, p).Some? then Err(DependencyError(e, p).value)
    else
      var job := Transition(e.job, p, Active);
      if job.Ok? then Ok(job.value) else Err(Domain(job.error))
  }

  function Request(e: Entry, p: Provider): Event {
    Requested(e.job.id, p, e.job.Attempts(p), e.intents.At(p), if p.DpsReport? then None else e.job.record.report)
  }

  function DispatchEntry(e: Entry, p: Provider, adapters: Adapters): Change {
    if p.Wingman? && e.job.Wvw() then
      var skipped := Transition(e.job, Wingman, Skipped);
      if skipped.Ok? then Change(e.(job := skipped.value), [], None)
      else Change(e, [], Some(Domain(skipped.error)))
    else
      var admitted := Admit(e, p, adapters.installed);
      if admitted.Err? then Change(FailDispatch(e, p), [], Some(admitted.error))
      else
        var active := e.(job := admitted.value);
        if adapters.accepts.At(p) then Change(active, [Request(active, p)], None)
        else Change(FailDispatch(active, p),
                    [Request(active, p), Settled(e.job.id, p, active.job.Attempts(p))], Some(Dispatch))
  }

  function DispatchWaiting(e: Entry, p: Provider, adapters: Adapters): Change {
    if e.State(p).Waiting? then DispatchEntry(e, p, adapters) else Change(e, [], None)
  }

  /** One change after the other, keeping the first error. */
  function Then(first: Change, second: Change): Change {
    Change(second.entry, first.events + second.events, if first.error.Some? then first.error else second.error)
  }

  predicate AwaitsMetadata(e: Entry) {
    e.metadataPending && e.job.record.metadata.None?
    && Untouched(e.State(DpsReport)) && Untouched(e.State(Wingman))
    && Untouched(e.State(DonBot)) && Untouched(e.State(Twitch))
  }

  predicate Untouched(state: ProviderState) {
    state.Waiting? || state.Disabled?
  }

  function KnownEntry(e: Entry, metadata: Metadata): Entry {
    e.(job := e.job.(record := e.job.record.(metadata := Some(metadata))), metadataPending := false)
  }

  function RoutedEntry(e: Entry, metadata: Metadata): Entry {
    var known := KnownEntry(e, metadata);
    if known.State(Wingman).Waiting? && known.job.Wvw() then Try(known, Wingman, Skipped) else known
  }

  /** dps.report starts first if it waits; without it the direct destinations start at once. */
  function StartEntry(routed: Entry, adapters: Adapters): Change {
    if routed.State(DpsReport).Waiting? then DispatchEntry(routed, DpsReport, adapters)
    else
      var wingman := DispatchWaiting(routed, Wingman, adapters);
      Then(wingman, DispatchWaiting(wingman.entry, DonBot, adapters))
  }

  function SetMetadataEntry(e: Entry, metadata: Metadata, adapters: Adapters): Change {
    if !AwaitsMetadata(e) then Change(e, [], Some(MetadataNotPending))
    else StartEntry(RoutedEntry(e, metadata), adapters)
  }

  function FailWaiting(e: Entry, p: Provider, cancelled: bool): Entry {
    if e.State(p).Waiting? then Try(e, p, if cancelled then Cancelled else Failed) else e
  }

  function FailMetadataEntry(e: Entry, cancelled: bool): Change {
    if !AwaitsMetadata(e) then Change(e, [], Some(MetadataNotPending))
    else
      var known := e.(metadataPending := false);
      Change(FailWaiting(FailWaiting(FailWaiting(FailWaiting(known, DpsReport, cancelled), Wingman, cancelled),
                                     DonBot, cancelled), Twitch, cancelled), [], None)
  }

  /** Receipt validation and next state of a result, on a copy of the job. */
  function Evaluate(job: Job, p: Provider, outcome: UploadOutcome, now: nat): Result<(Job, ProviderState), CoordinatorError> {
    match outcome
    case OutcomeSucceeded(success) =>
      var recorded: Option<JobResult> :=
        match success
        case DpsReportDone(report) => if p.DpsReport? then Some(CompleteReport(job, report)) else None
        case WingmanDone(receipt) =>
          if !p.Wingman? then None
          else if receipt.None? then Some(Ok(job)) else Some(RecordWingman(job, receipt.value))
        case DonBotDone(receipt) =>
          if !p.DonBot? then None
          else if receipt.None? then Some(Ok(job)) else Some(RecordDonBot(job, receipt.value))
        case TwitchDone(receipt) => if p.Twitch? then Some(RecordTwitch(job, receipt)) else None;
      if recorded.None? then Err(UnexpectedResult)
      else if recorded.value.Err? then Err(Domain(recorded.value.error))
      else Ok((recorded.value.value, Succeeded))
    case OutcomeSkipped => Ok((job, Skipped))
    case RetryAfter(delay) =>
      if delay == 0 || delay > MAX_RETRY_DELAY || AddInstant(now, delay).None? then Err(InvalidRetryDelay)
      else Ok((job, RetryScheduled(AddInstant(now, delay).value)))
    case OutcomeFailed => Ok((job, Failed))
    case Ambiguous => Ok((job, Failed))
    case TwitchDropped(receipt) =>
      if !p.Twitch? || receipt.status.Sent? then Err(UnexpectedResult)
      else
        var recorded := RecordTwitch(job, receipt);
        if recorded.Ok? then Ok((recorded.value, Failed)) else Err(Domain(recorded.error))
    case OutcomeCancelled => Ok((job, Cancelled))
  }

  /** The dependents after dps.report has just succeeded. */
  function FanOut(e: Entry, adapters: Adapters): Change {
    var wingman := DispatchWaiting(e, Wingman, adapters);
    var donbot := Then(wingman, DispatchWaiting(wingman.entry, DonBot, adapters));
    var all := if e.reupload then donbot else Then(donbot, DispatchWaiting(donbot.entry, Twitch, adapters));
    all.(error := None)
  }

  function ApplyResultEntry(e: Entry, result: UploadResult, now: nat, adapters: Adapters): Change {
    var p := result.provider;
    if !e.State(p).Active? || e.job.Attempts(p) != result.attempt then Change(e, [], Some(UnexpectedResult))
    else
      var evaluated := Evaluate(e.job, p, result.outcome, now);
      if evaluated.Err? then Change(e, [], Some(evaluated.error))
      else
        var (recorded, next) := evaluated.value;
        var moved: JobResult := if p.DpsReport? && next.Succeeded? then Ok(recorded) else Transition(recorded, p, next);
        if moved.Err? then Change(e, [], Some(Domain(moved.error)))
        else
          var answered := e.(job := moved.value);
          var answer := Answer(e, p, next);
          if p.DpsReport? then ReportAnswered(answered, answer, next, adapters) else Change(answered, [answer], None)
  }

  /** The event of an accepted answer to the current attempt. */
  function Answer(e: Entry, p: Provider, next: ProviderState): Event {
    if next.RetryScheduled? then Deferred(e.job.id, p, e.job.Attempts(p)) else Settled(e.job.id, p, e.job.Attempts(p))
  }

  /** What an accepted dps.report answer means for the dependents. */
  function ReportAnswered(answered: Entry, answer: Event, next: ProviderState, adapters: Adapters): Change {
    if next.RetryScheduled? then Change(answered, [answer], None)
    else if next.Succeeded? then Then(Change(answered, [answer], None), FanOut(answered, adapters))
    else Change(SettleDependents(answered, next.Cancelled?), [answer], None)
  }

  predicate Due(e: Entry, p: Provider, now: nat) {
    e.State(p).RetryScheduled? && e.State(p).deadline <= now
  }

  function RearmExplicit(job: Job, p: Provider): JobResult {
    if job.State(p).Skipped? then PrepareExplicitDelivery(job, p) else Ok(job)
  }

  /** The job of a manual retry, before dispatch. */
  function PrepareRetry(e: Entry, p: Provider): JobResult {
    if p.DpsReport? && e.reupload then
      if !e.State(p).Failed? then Err(ManualRetryRequiresFailure)
      else
        var waiting := Transition(e.job, p, Waiting);
        if waiting.Err? then waiting
        else
          var wingman := RearmExplicit(waiting.value, Wingman);
          if wingman.Err? then wingman else RearmExplicit(wingman.value, DonBot)
    else PrepareManualRetry(e.job, p)
  }

  /** The entry a manual retry dispatches. */
  function RetryArmed(e: Entry, p: Provider): Entry
    requires PrepareRetry(e, p).Ok?
  {
    var intent := if e.intents.At(p).Reupload? then Intent.Reupload else ManualRetry;
    e.(job := PrepareRetry(e, p).value, intents := e.intents.With(p, intent))
  }

  function RetryFailedEntry(e: Entry, p: Provider, adapters: Adapters): Change {
    if e.job.record.metadata.None? then Change(e, [], Some(Domain(EncounterMetadataRequired)))
    else if !adapters.installed.At(p) then Change(e, [], Some(MissingProvider))
    else if DependencyError(e, p).Some? then Change(e, [], DependencyError(e, p))
    else
      var job := PrepareRetry(e, p);
      if job.Err? then Change(e, [], Some(Domain(job.error)))
      else
        DispatchEntry(RetryArmed(e, p), p, adapters)
  }

  function PrepareReupload(job: Job): JobResult {
    var dps := PrepareExplicitDelivery(job, DpsReport);
    if dps.Err? then dps
    else
      var wingman := PrepareExplicitDelivery(dps.value, Wingman);
      if wingman.Err? then wingman else PrepareExplicitDelivery(wingman.value, DonBot)
  }

  function ReuploadEntry(e: Entry, adapters: Adapters): Change {
    var job := PrepareReupload(e.job);
    if job.Err? then Change(e, [], Some(Domain(job.error)))
    else
      var intents := PerProvider(Intent.Reupload, Intent.Reupload, Intent.Reupload, e.intents.twitch);
      var marked := Entry(job.value, e.metadataPending, intents, true);
      var routed := if marked.job.Wvw() then Try(marked, Wingman, Skipped) else marked;
      DispatchEntry(routed, DpsReport, adapters)
  }

  function RechatEntry(e: Entry, adapters: Adapters): Change {
    if DependencyError(e, Twitch).Some? then Change(e, [], DependencyError(e, Twitch))
    else
      var job := PrepareExplicitDelivery(e.job, Twitch);
      if job.Err? then Change(e, [], Some(Domain(job.error)))
      else DispatchEntry(e.(job := job.value, intents := e.intents.With(Twitch, Rechat)), Twitch, adapters)
  }

  function CancelStatus(e: Entry, p: Provider): Entry {
    if e.State(p).Busy() then Try(e, p, Cancelled) else e
  }

  function CancelEntry(e: Entry): Entry {
    CancelStatus(CancelStatus(CancelStatus(CancelStatus(e.(metadataPending := false), DpsReport), Wingman), DonBot), Twitch)
  }

  // ---------------------------------------------------------------- invariant of one entry

  predicate Running(state: ProviderState) {
    state.Active? || state.RetryScheduled?
  }

  /** No stranded work, except for the destinations in `todo` that the current call is about to
      dispatch. A destination waits only for the parser or for a dps.report attempt that is
      still going on; Wingman and DonBot run only once dps.report is settled for them. */
  predicate NotStranded(e: Entry, todo: set<Provider>) {
    && (e.State(DpsReport).Waiting? ==> e.metadataPending || DpsReport in todo)
    && WaitsForReport(e, Wingman, todo) && WaitsForReport(e, DonBot, todo) && WaitsForReport(e, Twitch, todo)
    && RunsAfterReport(e, Wingman) && RunsAfterReport(e, DonBot)
    && (e.reupload && e.State(Twitch).Waiting? ==> Twitch in todo)
  }

  predicate WaitsForReport(e: Entry, p: Provider, todo: set<Provider>) {
    e.State(p).Waiting? ==>
      e.metadataPending || Running(e.State(DpsReport)) || p in todo || (DpsReport in todo && e.State(DpsReport).Waiting?)
  }

  predicate RunsAfterReport(e: Entry, p: Provider) {
    Running(e.State(p)) ==> e.State(DpsReport).Disabled? || e.job.ReportReady()
  }

  predicate Wellformed(e: Entry) {
    && (e.metadataPending ==>
          AwaitsMetadata(e) && !e.reupload && (e.State(DpsReport).Disabled? ==> !e.State(Twitch).Waiting?))
    && (e.reupload ==> e.job.record.metadata.Some?)
    && (Running(e.State(DpsReport)) || Running(e.State(Wingman)) || Running(e.State(DonBot)) || Running(e.State(Twitch)) ==>
          e.job.record.metadata.Some?)
    && (e.job.Wvw() ==> !Running(e.State(Wingman)))
  }

  /** How one destination agrees with what was said about it. */
  predicate ChannelAgrees(e: Entry, p: Provider, channel: Channel) {
    && channel.attempt <= e.job.Attempts(p)
    && (channel.open <==> e.State(p).Active?)
    && (channel.open ==> channel.attempt == e.job.Attempts(p))
    && (channel.settled || channel.open ==> channel.requested)
    && (channel.settled && e.State(p).Busy() ==> !e.intents.At(p).Automatic?)
    && (!p.DpsReport? && channel.requested && !e.reupload ==>
          e.State(DpsReport).Disabled? || e.State(DpsReport).Succeeded?)
  }

  predicate Correlated(e: Entry, ledger: Ledger) {
    && ChannelAgrees(e, DpsReport, ledger.dps) && ChannelAgrees(e, Wingman, ledger.wingman)
    && ChannelAgrees(e, DonBot, ledger.donbot) && ChannelAgrees(e, Twitch, ledger.twitch)
    && (e.reupload ==> e.intents.dps.Reupload? && e.intents.wingman.Reupload? && e.intents.donbot.Reupload?)
  }

  predicate InvBut(e: Entry, ledger: Ledger, todo: set<Provider>) {
    NotStranded(e, todo) && Wellformed(e) && Correlated(e, ledger)
  }

  predicate EntryInv(e: Entry, ledger: Ledger) {
    InvBut(e, ledger, {})
  }

  /** What an operation establishes: its events are legal, the entry keeps its id and its
      invariant, and receipt slots stay clean. */
  predicate Keeps(e: Entry, ledger: Ledger, change: Change, todo: set<Provider>) {
    && change.entry.job.id == e.job.id
    && About(change.events, e.job.id)
    && LegalAll(ledger, change.events)
    && InvBut(change.entry, FeedAll(ledger, change.events), todo)
    && (Clean(e.job) ==> Clean(change.entry.job))
  }

  lemma ThenKeeps(e: Entry, ledger: Ledger, first: Change, second: Change, between: set<Provider>, todo: set<Provider>)
    requires Keeps(e, ledger, first, between)
    requires Keeps(first.entry, FeedAll(ledger, first.events), second, todo)
    ensures Keeps(e, ledger, Then(first, second), todo)
  {
    LegalAllAppend(ledger, first.events, second.events);
  }

  function SettledStatus(status: Status, cancelled: bool): Status {
    if status.state.Waiting? then status.(state := if cancelled then Cancelled else Skipped) else status
  }

  function WithStatuses(e: Entry, statuses: PerProvider<Status>): Entry {
    e.(job := e.job.(record := e.job.record.(statuses := statuses)))
  }

  lemma SettleDependentsEffect(e: Entry, cancelled: bool)
    ensures var s := e.job.record.statuses;
            SettleDependents(e, cancelled) == WithStatuses(e, PerProvider(s.dps, SettledStatus(s.wingman, cancelled),
              SettledStatus(s.donbot, cancelled), if e.reupload then s.twitch else SettledStatus(s.twitch, cancelled)))
  {
    var first := SettleDependent(e, Wingman, cancelled);
    assert first == WithStatuses(e, e.job.record.statuses.(wingman := SettledStatus(e.job.record.statuses.wingman, cancelled)));
    var second := SettleDependent(first, DonBot, cancelled);
    assert second == WithStatuses(first, first.job.record.statuses.(donbot := SettledStatus(first.job.record.statuses.donbot, cancelled)));
  }

  lemma TryEffect(e: Entry, p: Provider, next: ProviderState)
    requires e.State(p).Allows(next) && (next.Failed? || next.Skipped? || next.Cancelled?)
    ensures Try(e, p, next) == e.(job := e.job.Put(p, next))
  {
  }

  /** dps.report ends without a report: the destinations behind it are settled with it. */
  lemma ReportLostKeeps(e: Entry, lost: Entry, ledger: Ledger, after: Ledger, next: ProviderState, todo: set<Provider>, cancelled: bool)
    requires InvBut(e, ledger, todo) && !e.metadataPending && e.State(DpsReport).Busy() && Twitch !in todo
    requires next.Failed? || next.Skipped? || next.Cancelled?
    requires lost == e.(job := e.job.Put(DpsReport, next))
    requires after == ledger.(dps := after.dps) && ChannelAgrees(lost, DpsReport, after.dps)
    ensures InvBut(SettleDependents(lost, cancelled), after, {})
    ensures Clean(e.job) ==> Clean(SettleDependents(lost, cancelled).job)
    ensures SettleDependents(lost, cancelled).job.id == e.job.id
  {
    SettleDependentsEffect(lost, cancelled);
  }

  lemma CloseAloneShape(e: Entry, p: Provider, next: ProviderState, todo: set<Provider>)
    requires NotStranded(e, todo) && Wellformed(e) && !e.metadataPending && !p.DpsReport?
    requires (e.State(p).Waiting? || e.State(p).RetryScheduled?) && (next.Failed? || next.Skipped?)
    ensures NotStranded(e.(job := e.job.Put(p, next)), todo - {p}) && Wellformed(e.(job := e.job.Put(p, next)))
  {
    match p case Wingman => case DonBot => case Twitch =>
  }

  lemma CloseAlone(e: Entry, p: Provider, ledger: Ledger, next: ProviderState, todo: set<Provider>)
    requires InvBut(e, ledger, todo) && !e.metadataPending && !p.DpsReport?
    requires e.State(p).Waiting? || e.State(p).RetryScheduled?
    requires next.Failed? || next.Skipped?
    ensures InvBut(e.(job := e.job.Put(p, next)), ledger, todo - {p})
  {
    CloseAloneShape(e, p, next, todo);
    assert Correlated(e.(job := e.job.Put(p, next)), ledger) by {
      match p case Wingman => case DonBot => case Twitch =>
    }
  }

  /** Failing a destination leaves nothing waiting behind it. */
  lemma FailDispatchKeeps(e: Entry, p: Provider, ledger: Ledger, todo: set<Provider>)
    requires InvBut(e, ledger, todo) && !e.metadataPending && p in todo && (p.DpsReport? ==> Twitch !in todo)
    requires e.State(p).Waiting? || e.State(p).RetryScheduled?
    ensures Keeps(e, ledger, Change(FailDispatch(e, p), [], None), todo - {p})
    ensures FailDispatch(e, p).State(p).Failed?
  {
    TryEffect(e, p, Failed);
    if p.DpsReport? {
      SettleDependentsEffect(Try(e, p, Failed), false);
      ReportLostKeeps(e, Try(e, p, Failed), ledger, ledger, Failed, todo, false);
    } else {
      CloseAlone(e, p, ledger, Failed, todo);
    }
  }

  lemma AdmittedShape(e: Entry, p: Provider, installed: PerProvider<bool>, todo: set<Provider>)
    requires NotStranded(e, todo) && Wellformed(e) && !e.metadataPending && p in todo
    requires e.State(p).Waiting? || e.State(p).RetryScheduled?
    requires Admit(e, p, installed).Ok? && !(p.Wingman? && e.job.Wvw())
    ensures var active := e.(job := Admit(e, p, installed).value);
            NotStranded(active, todo - {p}) && Wellformed(active) && active.State(p).Active?
  {
    match p case DpsReport => case Wingman => case DonBot => case Twitch =>
  }

  lemma AdmittedReportAgrees(e: Entry, ledger: Ledger, installed: PerProvider<bool>)
    requires Correlated(e, ledger) && (e.State(DpsReport).Waiting? || e.State(DpsReport).RetryScheduled?)
    requires Admit(e, DpsReport, installed).Ok?
    ensures var active := e.(job := Admit(e, DpsReport, installed).value);
            Legal(ledger, Request(active, DpsReport)) && Correlated(active, Feed(ledger, Request(active, DpsReport)))
  {
  }

  lemma AdmittedDependentAgrees(e: Entry, p: Provider, ledger: Ledger, installed: PerProvider<bool>)
    requires Correlated(e, ledger) && (e.State(p).Waiting? || e.State(p).RetryScheduled?) && !p.DpsReport?
    requires Admit(e, p, installed).Ok?
    ensures var active := e.(job := Admit(e, p, installed).value);
            Legal(ledger, Request(active, p)) && Correlated(active, Feed(ledger, Request(active, p)))
  {
    match p case Wingman => case DonBot => case Twitch =>
  }

  /** An admitted destination becomes active with a fresh attempt and a legal request. */
  lemma AdmitKeeps(e: Entry, p: Provider, ledger: Ledger, installed: PerProvider<bool>, todo: set<Provider>)
    requires InvBut(e, ledger, todo) && !e.metadataPending && p in todo
    requires e.State(p).Waiting? || e.State(p).RetryScheduled?
    requires Admit(e, p, installed).Ok? && !(p.Wingman? && e.job.Wvw())
    ensures var active := e.(job := Admit(e, p, installed).value);
            && active.State(p).Active?
            && Keeps(e, ledger, Change(active, [Request(active, p)], None), todo - {p})
  {
    AdmittedShape(e, p, installed, todo);
    var active := e.(job := Admit(e, p, installed).value);
    FeedOne(ledger, Request(active, p));
    if p.DpsReport? {
      AdmittedReportAgrees(e, ledger, installed);
    } else {
      AdmittedDependentAgrees(e, p, ledger, installed);
    }
    TransitionCountsAttempts(e.job, p, Active, p);
    if Clean(e.job) {
      match p case DpsReport => case Wingman => case DonBot => case Twitch =>
    }
  }

  lemma FeedOne(ledger: Ledger, event: Event)
    ensures FeedAll(ledger, [event]) == Feed(ledger, event)
    ensures LegalAll(ledger, [event]) <==> Legal(ledger, event)
  {
    assert FeedAll(Feed(ledger, event), []) == Feed(ledger, event);
  }

  lemma AnswerAloneShape(e: Entry, p: Provider, next: ProviderState, todo: set<Provider>)
    requires NotStranded(e, todo) && Wellformed(e) && !e.metadataPending && e.State(p).Active? && !p.DpsReport?
    requires !next.Waiting? && !next.Active?
    ensures NotStranded(e.(job := e.job.Put(p, next)), todo) && Wellformed(e.(job := e.job.Put(p, next)))
  {
    match p case Wingman => case DonBot => case Twitch =>
  }

  /** An answer to a dependent closes its channel and moves nothing else. */
  lemma AnswerAlone(e: Entry, p: Provider, ledger: Ledger, next: ProviderState, todo: set<Provider>)
    requires InvBut(e, ledger, todo) && !e.metadataPending && e.State(p).Active? && !p.DpsReport?
    requires next.Failed? || next.Skipped? || next.Cancelled? || next.RetryScheduled? || next.Succeeded?
    ensures LegalAll(ledger, [Answer(e, p, next)])
    ensures InvBut(e.(job := e.job.Put(p, next)), FeedAll(ledger, [Answer(e, p, next)]), todo)
  {
    FeedOne(ledger, Answer(e, p, next));
    AnswerAloneShape(e, p, next, todo);
    var after := e.(job := e.job.Put(p, next));
    match p
    case Wingman => OthersAgree(e, after, p, ledger, Feed(ledger, Answer(e, p, next)));
    case DonBot => OthersAgree(e, after, p, ledger, Feed(ledger, Answer(e, p, next)));
    case Twitch => OthersAgree(e, after, p, ledger, Feed(ledger, Answer(e, p, next)));
  }

  /** The other channels do not notice. */
  lemma OthersAgree(e: Entry, after: Entry, p: Provider, ledger: Ledger, ledger': Ledger)
    requires Correlated(e, ledger) && !p.DpsReport? && e.State(p).Active?
    requires after == e.(job := e.job.Put(p, after.State(p))) && ledger' == ledger.With(p, ledger'.At(p))
    requires ChannelAgrees(after, p, ledger'.At(p))
    ensures Correlated(after, ledger')
  {
  }

  lemma ReportRefusalKeeps(e: Entry, ledger: Ledger, todo: set<Provider>)
    requires InvBut(e, ledger, todo) && !e.metadataPending && e.State(DpsReport).Active? && Twitch !in todo
    ensures Keeps(e, ledger, Change(FailDispatch(e, DpsReport), [Settled(e.job.id, DpsReport, e.job.Attempts(DpsReport))], None), todo)
  {
    var settled := Settled(e.job.id, DpsReport, e.job.Attempts(DpsReport));
    assert FeedAll(ledger, [settled]) == Feed(ledger, settled);
    TryEffect(e, DpsReport, Failed);
    ReportLostKeeps(e, Try(e, DpsReport, Failed), ledger, Feed(ledger, settled), Failed, todo, false);
  }

  /** A request the adapter refuses is settled as failed at once. */
  lemma RefusalKeeps(e: Entry, p: Provider, ledger: Ledger, todo: set<Provider>)
    requires InvBut(e, ledger, todo) && !e.metadataPending && e.State(p).Active? && (p.DpsReport? ==> Twitch !in todo)
    ensures Keeps(e, ledger, Change(FailDispatch(e, p), [Settled(e.job.id, p, e.job.Attempts(p))], None), todo)
    ensures FailDispatch(e, p).State(p).Failed?
  {
    TryEffect(e, p, Failed);
    if p.DpsReport? {
      SettleDependentsEffect(Try(e, p, Failed), false);
      ReportRefusalKeeps(e, ledger, todo);
    } else {
      AnswerAlone(e, p, ledger, Failed, todo);
    }
  }

  lemma SkipWvwKeeps(e: Entry, ledger: Ledger, adapters: Adapters, todo: set<Provider>)
    requires InvBut(e, ledger, todo) && !e.metadataPending && e.State(Wingman).Waiting? && e.job.Wvw()
    ensures Keeps(e, ledger, DispatchEntry(e, Wingman, adapters), todo - {Wingman})
    ensures DispatchEntry(e, Wingman, adapters).entry.State(Wingman).Skipped?
  {
    CloseAlone(e, Wingman, ledger, Skipped, todo);
    assert DispatchEntry(e, Wingman, adapters) == Change(e.(job := e.job.Put(Wingman, Skipped)), [], None);
  }

  /** Dispatch: whatever the checks and the adapter answer, the destination stops waiting,
      at most one request is offered, and a refused request is settled at once. */
  lemma DispatchKeeps(e: Entry, p: Provider, ledger: Ledger, adapters: Adapters, todo: set<Provider>)
    requires InvBut(e, ledger, todo) && !e.metadataPending && p in todo && (p.DpsReport? ==> Twitch !in todo)
    requires e.State(p).Waiting? || e.State(p).RetryScheduled?
    ensures Keeps(e, ledger, DispatchEntry(e, p, adapters), todo - {p})
    ensures var after := DispatchEntry(e, p, adapters).entry;
            !after.State(p).Waiting? && !after.State(p).RetryScheduled?
  {
    if p.Wingman? && e.job.Wvw() {
      SkipWvwKeeps(e, ledger, adapters, todo);
    } else if Admit(e, p, adapters.installed).Err? {
      FailDispatchKeeps(e, p, ledger, todo);
    } else {
      AdmitKeeps(e, p, ledger, adapters.installed, todo);
      if !adapters.accepts.At(p) {
        DispatchRefusedKeeps(e, p, ledger, adapters, todo);
      }
    }
  }

  lemma DispatchRefusedKeeps(e: Entry, p: Provider, ledger: Ledger, adapters: Adapters, todo: set<Provider>)
    requires InvBut(e, ledger, todo) && !e.metadataPending && p in todo && (p.DpsReport? ==> Twitch !in todo)
    requires e.State(p).Waiting? || e.State(p).RetryScheduled?
    requires Admit(e, p, adapters.installed).Ok? && !(p.Wingman? && e.job.Wvw()) && !adapters.accepts.At(p)
    ensures Keeps(e, ledger, DispatchEntry(e, p, adapters), todo - {p})
    ensures DispatchEntry(e, p, adapters).entry.State(p).Failed?
  {
    AdmitKeeps(e, p, ledger, adapters.installed, todo);
    var active := e.(job := Admit(e, p, adapters.installed).value);
    var first := Change(active, [Request(active, p)], None);
    var second := Change(FailDispatch(active, p), [Settled(active.job.id, p, active.job.Attempts(p))], None);
    RefusalKeeps(active, p, FeedAll(ledger, first.events), todo - {p});
    ThenKeeps(e, ledger, first, second, todo - {p}, todo - {p});
    assert DispatchEntry(e, p, adapters) == Then(first, second).(error := Some(Dispatch));
  }

  lemma DispatchWaitingKeeps(e: Entry, p: Provider, ledger: Ledger, adapters: Adapters, todo: set<Provider>)
    requires InvBut(e, ledger, todo) && !e.metadataPending && p in todo && !p.DpsReport?
    ensures Keeps(e, ledger, DispatchWaiting(e, p, adapters), todo - {p})
  {
    if e.State(p).Waiting? {
      DispatchKeeps(e, p, ledger, adapters, todo);
    }
  }

  // ---------------------------------------------------------------- every operation keeps the invariant

  lemma NewEntryKeeps(job: Job, id: nat, file: LogFile, detectedAt: int, enabled: PerProvider<bool>)
    requires Create(id, file, detectedAt, enabled) == Ok(job)
    ensures EntryInv(NewEntry(job, true), EMPTY_LEDGER) && Clean(job) && NewEntry(job, true).Busy()
  {
  }

  lemma RestoredEntryKeeps(job: Job, id: nat, record: Record)
    requires Restore(id, record) == Ok(job)
    ensures EntryInv(NewEntry(job, false), EMPTY_LEDGER) && !NewEntry(job, false).Busy()
  {
  }

  lemma RoutedKeeps(e: Entry, metadata: Metadata, ledger: Ledger)
    requires EntryInv(e, ledger) && AwaitsMetadata(e)
    ensures var routed := RoutedEntry(e, metadata);
            && InvBut(routed, ledger, if routed.State(DpsReport).Waiting? then {DpsReport} else {Wingman, DonBot})
            && !routed.metadataPending && routed.job.id == e.job.id
            && (Clean(e.job) ==> Clean(routed.job))
  {
    var known := KnownEntry(e, metadata);
    var todo := if known.State(DpsReport).Waiting? then {DpsReport} else {Wingman, DonBot};
    assert InvBut(known, ledger, todo);
    if known.State(Wingman).Waiting? && known.job.Wvw() {
      TryEffect(known, Wingman, Skipped);
      CloseAlone(known, Wingman, ledger, Skipped, todo);
    }
  }

  /** Metadata arrives: WvW jobs leave Wingman out, and either dps.report starts, or, without
      it, the direct destinations do. */
  lemma SetMetadataKeeps(e: Entry, metadata: Metadata, ledger: Ledger, adapters: Adapters)
    requires EntryInv(e, ledger)
    ensures Keeps(e, ledger, SetMetadataEntry(e, metadata, adapters), {})
    ensures AwaitsMetadata(e) ==> !SetMetadataEntry(e, metadata, adapters).entry.metadataPending
  {
    if AwaitsMetadata(e) {
      var routed := RoutedEntry(e, metadata);
      RoutedKeeps(e, metadata, ledger);
      assert {DpsReport} - {DpsReport} == {} && {DonBot} - {DonBot} == {} && {Wingman, DonBot} - {Wingman} == {DonBot};
      if routed.State(DpsReport).Waiting? {
        DispatchKeeps(routed, DpsReport, ledger, adapters, {DpsReport});
        MetadataStaysSettled(routed, DpsReport, adapters);
      } else {
        var wingman := DispatchWaiting(routed, Wingman, adapters);
        DispatchWaitingKeeps(routed, Wingman, ledger, adapters, {Wingman, DonBot});
        MetadataStaysSettled(routed, Wingman, adapters);
        var donbot := DispatchWaiting(wingman.entry, DonBot, adapters);
        DispatchWaitingKeeps(wingman.entry, DonBot, FeedAll(ledger, wingman.events), adapters, {DonBot});
        MetadataStaysSettled(wingman.entry, DonBot, adapters);
        ThenKeeps(routed, ledger, wingman, donbot, {DonBot}, {});
      }
    }
  }

  function FailedStatus(status: Status, cancelled: bool): Status {
    if status.state.Waiting? then status.(state := if cancelled then Cancelled else Failed) else status
  }

  lemma FailMetadataEffect(e: Entry, cancelled: bool)
    requires AwaitsMetadata(e)
    ensures var s := e.job.record.statuses;
            FailMetadataEntry(e, cancelled).entry == WithStatuses(e.(metadataPending := false),
              PerProvider(FailedStatus(s.dps, cancelled), FailedStatus(s.wingman, cancelled),
                          FailedStatus(s.donbot, cancelled), FailedStatus(s.twitch, cancelled)))
  {
    var known := e.(metadataPending := false);
    var s := e.job.record.statuses;
    var a := FailWaiting(known, DpsReport, cancelled);
    assert a == WithStatuses(known, s.(dps := FailedStatus(s.dps, cancelled)));
    var b := FailWaiting(a, Wingman, cancelled);
    assert b == WithStatuses(a, a.job.record.statuses.(wingman := FailedStatus(s.wingman, cancelled)));
    var c := FailWaiting(b, DonBot, cancelled);
    assert c == WithStatuses(b, b.job.record.statuses.(donbot := FailedStatus(s.donbot, cancelled)));
  }

  lemma FailedStatusesKeep(e: Entry, cancelled: bool, ledger: Ledger)
    requires EntryInv(e, ledger) && AwaitsMetadata(e)
    ensures var s := e.job.record.statuses;
            var failed := WithStatuses(e.(metadataPending := false),
              PerProvider(FailedStatus(s.dps, cancelled), FailedStatus(s.wingman, cancelled),
                          FailedStatus(s.donbot, cancelled), FailedStatus(s.twitch, cancelled)));
            EntryInv(failed, ledger) && !failed.Busy() && (Clean(e.job) ==> Clean(failed.job))
  {
  }

  /** The parser failed: every destination that waited for it is settled. */
  lemma FailMetadataKeeps(e: Entry, cancelled: bool, ledger: Ledger)
    requires EntryInv(e, ledger)
    ensures Keeps(e, ledger, FailMetadataEntry(e, cancelled), {})
    ensures AwaitsMetadata(e) ==> !FailMetadataEntry(e, cancelled).entry.Busy()
  {
    if AwaitsMetadata(e) {
      FailMetadataEffect(e, cancelled);
      FailedStatusesKeep(e, cancelled, ledger);
    }
  }

  function FanOutSet(e: Entry): set<Provider> {
    {Wingman, DonBot} + (if e.reupload then {} else {Twitch})
  }

  lemma FanOutKeeps(e: Entry, ledger: Ledger, adapters: Adapters)
    requires InvBut(e, ledger, FanOutSet(e)) && !e.metadataPending
    ensures Keeps(e, ledger, FanOut(e, adapters), {})
  {
    var tail: set<Provider> := if e.reupload then {} else {Twitch};
    assert FanOutSet(e) - {Wingman} == {DonBot} + tail && ({DonBot} + tail) - {DonBot} == tail && {Twitch} - {Twitch} == {};
    var wingman := DispatchWaiting(e, Wingman, adapters);
    DispatchWaitingKeeps(e, Wingman, ledger, adapters, FanOutSet(e));
    MetadataStaysSettled(e, Wingman, adapters);
    var second := DispatchWaiting(wingman.entry, DonBot, adapters);
    DispatchWaitingKeeps(wingman.entry, DonBot, FeedAll(ledger, wingman.events), adapters, {DonBot} + tail);
    ThenKeeps(e, ledger, wingman, second, {DonBot} + tail, tail);
    MetadataStaysSettled(wingman.entry, DonBot, adapters);
    var donbot := Then(wingman, second);
    if !e.reupload {
      var third := DispatchWaiting(donbot.entry, Twitch, adapters);
      DispatchWaitingKeeps(donbot.entry, Twitch, FeedAll(ledger, donbot.events), adapters, {Twitch});
      ThenKeeps(e, ledger, donbot, third, {Twitch}, {});
    }
  }

  /** Dispatching touches neither the pending mark nor the replay marks. */
  lemma MetadataStaysSettled(e: Entry, p: Provider, adapters: Adapters)
    ensures var after := DispatchEntry(e, p, adapters).entry;
            after.metadataPending == e.metadataPending && after.reupload == e.reupload && after.intents == e.intents
  {
    var admitted := Admit(e, p, adapters.installed);
    FailDispatchEffect(e, p);
    if admitted.Ok? {
      FailDispatchEffect(e.(job := admitted.value), p);
    }
  }

  lemma FailDispatchEffect(e: Entry, p: Provider)
    ensures var after := FailDispatch(e, p);
            after.metadataPending == e.metadataPending && after.reupload == e.reupload && after.intents == e.intents
            && after.job.id == e.job.id
  {
    SettleDependentsEffect(Try(e, p, Failed), false);
  }

  /** What evaluating a dps.report outcome may change. */
  lemma EvaluatedReport(job: Job, outcome: UploadOutcome, now: nat)
    requires Evaluate(job, DpsReport, outcome, now).Ok?
    ensures var (recorded, next) := Evaluate(job, DpsReport, outcome, now).value;
            && (next.Succeeded? || next.Skipped? || next.Failed? || next.Cancelled? || next.RetryScheduled?)
            && (next.Succeeded? ==>
                  recorded.id == job.id && recorded.ReportReady()
                  && recorded.record == job.Put(DpsReport, Succeeded).record.(report := recorded.record.report))
            && (!next.Succeeded? ==> recorded == job)
  {
  }

  /** What evaluating another destination's outcome may change. */
  lemma EvaluatedReceipt(job: Job, p: Provider, outcome: UploadOutcome, now: nat)
    requires !p.DpsReport? && Evaluate(job, p, outcome, now).Ok?
    ensures var (recorded, next) := Evaluate(job, p, outcome, now).value;
            && (next.Succeeded? || next.Skipped? || next.Failed? || next.Cancelled? || next.RetryScheduled?)
            && recorded.id == job.id
            && recorded.record == job.record.(wingman := recorded.record.wingman, donbot := recorded.record.donbot,
                                              twitch := recorded.record.twitch)
  {
  }

  lemma ReportSucceededKeeps(e: Entry, recorded: Job, ledger: Ledger)
    requires EntryInv(e, ledger) && e.State(DpsReport).Active?
    requires recorded.id == e.job.id && recorded.ReportReady()
    requires recorded.record == e.job.Put(DpsReport, Succeeded).record.(report := recorded.record.report)
    ensures var answer := Settled(e.job.id, DpsReport, e.job.Attempts(DpsReport));
            var answered := e.(job := recorded);
            Keeps(e, ledger, Change(answered, [answer], None), FanOutSet(answered)) && !answered.metadataPending
  {
    FeedOne(ledger, Settled(e.job.id, DpsReport, e.job.Attempts(DpsReport)));
  }

  lemma ReportDeferredKeeps(e: Entry, deadline: nat, ledger: Ledger)
    requires EntryInv(e, ledger) && e.State(DpsReport).Active?
    ensures var answer := Deferred(e.job.id, DpsReport, e.job.Attempts(DpsReport));
            Keeps(e, ledger, Change(e.(job := e.job.Put(DpsReport, RetryScheduled(deadline))), [answer], None), {})
  {
    FeedOne(ledger, Deferred(e.job.id, DpsReport, e.job.Attempts(DpsReport)));
  }

  lemma ReportEndedKeeps(e: Entry, next: ProviderState, ledger: Ledger)
    requires EntryInv(e, ledger) && e.State(DpsReport).Active?
    requires next.Failed? || next.Skipped? || next.Cancelled?
    ensures var answer := Settled(e.job.id, DpsReport, e.job.Attempts(DpsReport));
            var ended := SettleDependents(e.(job := e.job.Put(DpsReport, next)), next.Cancelled?);
            Keeps(e, ledger, Change(ended, [answer], None), {})
  {
    var answer := Settled(e.job.id, DpsReport, e.job.Attempts(DpsReport));
    FeedOne(ledger, answer);
    ReportLostKeeps(e, e.(job := e.job.Put(DpsReport, next)), ledger, Feed(ledger, answer), next, {}, next.Cancelled?);
  }

  lemma ReportAnsweredKeeps(e: Entry, job: Job, next: ProviderState, ledger: Ledger, adapters: Adapters)
    requires EntryInv(e, ledger) && e.State(DpsReport).Active?
    requires next.Succeeded? || next.RetryScheduled? || next.Failed? || next.Skipped? || next.Cancelled?
    requires next.Succeeded? ==>
               job.id == e.job.id && job.ReportReady()
               && job.record == e.job.Put(DpsReport, Succeeded).record.(report := job.record.report)
    requires !next.Succeeded? ==> job == e.job.Put(DpsReport, next)
    ensures Keeps(e, ledger, ReportAnswered(e.(job := job), Answer(e, DpsReport, next), next, adapters), {})
  {
    var answered, answer := e.(job := job), Answer(e, DpsReport, next);
    if next.Succeeded? {
      ReportSucceededKeeps(e, job, ledger);
      FanOutKeeps(answered, FeedAll(ledger, [answer]), adapters);
      ThenKeeps(e, ledger, Change(answered, [answer], None), FanOut(answered, adapters), FanOutSet(answered), {});
    } else if next.RetryScheduled? {
      ReportDeferredKeeps(e, next.deadline, ledger);
    } else {
      ReportEndedKeeps(e, next, ledger);
    }
  }

  lemma ReportAnswerShape(e: Entry, result: UploadResult, now: nat, adapters: Adapters)
    requires result.provider.DpsReport? && e.State(DpsReport).Active? && e.job.Attempts(DpsReport) == result.attempt
    requires Evaluate(e.job, DpsReport, result.outcome, now).Ok?
    ensures var (recorded, next) := Evaluate(e.job, DpsReport, result.outcome, now).value;
            var job := if next.Succeeded? then recorded else e.job.Put(DpsReport, next);
            ApplyResultEntry(e, result, now, adapters) == ReportAnswered(e.(job := job), Answer(e, DpsReport, next), next, adapters)
  {
    EvaluatedReport(e.job, result.outcome, now);
    var (recorded, next) := Evaluate(e.job, DpsReport, result.outcome, now).value;
    if !next.Succeeded? {
      assert Transition(recorded, DpsReport, next) == Ok(e.job.Put(DpsReport, next));
    }
  }

  lemma ReportAnswerKeeps(e: Entry, result: UploadResult, now: nat, ledger: Ledger, adapters: Adapters)
    requires EntryInv(e, ledger) && result.provider.DpsReport?
    requires e.State(DpsReport).Active? && e.job.Attempts(DpsReport) == result.attempt
    requires Evaluate(e.job, DpsReport, result.outcome, now).Ok?
    ensures Keeps(e, ledger, ApplyResultEntry(e, result, now, adapters), {})
  {
    EvaluatedReport(e.job, result.outcome, now);
    ReportAnswerShape(e, result, now, adapters);
    var (recorded, next) := Evaluate(e.job, DpsReport, result.outcome, now).value;
    ReportAnsweredKeeps(e, if next.Succeeded? then recorded else e.job.Put(DpsReport, next), next, ledger, adapters);
  }

  /** Recording a receipt does not touch what the invariant speaks of. */
  lemma RecordingKeeps(e: Entry, recorded: Job, ledger: Ledger)
    requires EntryInv(e, ledger) && recorded.id == e.job.id
    requires recorded.record.statuses == e.job.record.statuses && recorded.record.report == e.job.record.report
    requires recorded.record.metadata == e.job.record.metadata
    ensures EntryInv(e.(job := recorded), ledger)
  {
  }

  lemma OtherAnswerKeeps(e: Entry, result: UploadResult, now: nat, ledger: Ledger, adapters: Adapters)
    requires EntryInv(e, ledger) && !result.provider.DpsReport?
    requires e.State(result.provider).Active? && e.job.Attempts(result.provider) == result.attempt
    requires Evaluate(e.job, result.provider, result.outcome, now).Ok?
    ensures Keeps(e, ledger, ApplyResultEntry(e, result, now, adapters), {})
  {
    var p := result.provider;
    EvaluatedReceipt(e.job, p, result.outcome, now);
    var (recorded, next) := Evaluate(e.job, p, result.outcome, now).value;
    if Transition(recorded, p, next).Ok? {
      assert Transition(recorded, p, next).value == recorded.Put(p, next);
      RecordingKeeps(e, recorded, ledger);
      AnswerAlone(e.(job := recorded), p, ledger, next, {});
      if Clean(e.job) {
        AnswerKeepsClean(e.job, p, result.outcome, now);
      }
    }
  }

  lemma AnswerKeepsClean(job: Job, p: Provider, outcome: UploadOutcome, now: nat)
    requires job.State(p).Active? && !p.DpsReport? && Clean(job) && Evaluate(job, p, outcome, now).Ok?
    ensures var (recorded, next) := Evaluate(job, p, outcome, now).value;
            Clean(recorded.Put(p, next))
  {
  }

  /** Results: a refused one changes nothing and logs nothing; an accepted one answers exactly
      the open attempt. */
  lemma ApplyResultKeeps(e: Entry, result: UploadResult, now: nat, ledger: Ledger, adapters: Adapters)
    requires EntryInv(e, ledger)
    ensures Keeps(e, ledger, ApplyResultEntry(e, result, now, adapters), {})
    ensures ApplyResultEntry(e, result, now, adapters).error.Some? ==>
              ApplyResultEntry(e, result, now, adapters) == Change(e, [], ApplyResultEntry(e, result, now, adapters).error)
  {
    var p := result.provider;
    if e.State(p).Active? && e.job.Attempts(p) == result.attempt && Evaluate(e.job, p, result.outcome, now).Ok? {
      if p.DpsReport? {
        ReportAnswerKeeps(e, result, now, ledger, adapters);
        ReportAnswerShape(e, result, now, adapters);
      } else {
        OtherAnswerKeeps(e, result, now, ledger, adapters);
      }
    }
  }

  /** An accepted result answers the open attempt of its own destination, first thing. */
  lemma AcceptedResultAnswers(e: Entry, result: UploadResult, now: nat, adapters: Adapters)
    requires ApplyResultEntry(e, result, now, adapters).error.None?
    ensures e.State(result.provider).Active? && result.attempt == e.job.Attempts(result.provider)
    ensures var events := ApplyResultEntry(e, result, now, adapters).events;
            && events != [] && events[0].Answer() && events[0].job == e.job.id
            && events[0].provider == result.provider && events[0].attempt == result.attempt
            && (events[0].Deferred? <==> result.outcome.RetryAfter?)
  {
    if result.provider.DpsReport? {
      ReportAnswerShape(e, result, now, adapters);
    }
  }

  lemma DueKeeps(e: Entry, p: Provider, ledger: Ledger, adapters: Adapters)
    requires EntryInv(e, ledger) && e.State(p).RetryScheduled?
    ensures Keeps(e, ledger, DispatchEntry(e, p, adapters), {})
    ensures !DispatchEntry(e, p, adapters).entry.State(p).RetryScheduled?
  {
    assert {p} - {p} == {};
    DispatchKeeps(e, p, ledger, adapters, {p});
  }

  lemma ReportRetryArmedKeeps(e: Entry, ledger: Ledger)
    requires EntryInv(e, ledger) && PrepareRetry(e, DpsReport).Ok? && e.job.record.metadata.Some?
    ensures var armed := RetryArmed(e, DpsReport);
            && InvBut(armed, ledger, {DpsReport}) && armed.State(DpsReport).Waiting? && armed.job.id == e.job.id
            && (Clean(e.job) ==> Clean(armed.job))
  {
    if e.reupload {
      ReuploadRetryArmedKeeps(e, ledger);
    } else {
      PlainRetryArmedKeeps(e, ledger);
    }
  }

  lemma ReuploadRetryArmedKeeps(e: Entry, ledger: Ledger)
    requires EntryInv(e, ledger) && PrepareRetry(e, DpsReport).Ok? && e.reupload
    ensures var armed := RetryArmed(e, DpsReport);
            && InvBut(armed, ledger, {DpsReport}) && armed.State(DpsReport).Waiting? && armed.job.id == e.job.id
            && (Clean(e.job) ==> Clean(armed.job))
  {
    assert Transition(e.job, DpsReport, Waiting) == Ok(e.job.Put(DpsReport, Waiting));
  }

  lemma PlainRetryArmedKeeps(e: Entry, ledger: Ledger)
    requires EntryInv(e, ledger) && PrepareRetry(e, DpsReport).Ok? && !e.reupload && e.job.record.metadata.Some?
    ensures var armed := RetryArmed(e, DpsReport);
            && InvBut(armed, ledger, {DpsReport}) && armed.State(DpsReport).Waiting? && armed.job.id == e.job.id
            && (Clean(e.job) ==> Clean(armed.job))
  {
  }

  lemma DependentRetryArmedKeeps(e: Entry, p: Provider, ledger: Ledger)
    requires EntryInv(e, ledger) && !p.DpsReport? && PrepareRetry(e, p).Ok?
    requires e.job.record.metadata.Some? && DependencyError(e, p).None?
    ensures var armed := RetryArmed(e, p);
            && InvBut(armed, ledger, {p}) && armed.State(p).Waiting? && armed.job.id == e.job.id
            && (Clean(e.job) ==> Clean(armed.job))
  {
    match p case Wingman => case DonBot => case Twitch =>
  }

  lemma RetryFailedKeeps(e: Entry, p: Provider, ledger: Ledger, adapters: Adapters)
    requires EntryInv(e, ledger)
    ensures Keeps(e, ledger, RetryFailedEntry(e, p, adapters), {})
  {
    if e.job.record.metadata.Some? && DependencyError(e, p).None? && PrepareRetry(e, p).Ok? {
      if p.DpsReport? {
        ReportRetryArmedKeeps(e, ledger);
      } else {
        DependentRetryArmedKeeps(e, p, ledger);
      }
      var armed := RetryArmed(e, p);
      assert {p} - {p} == {};
      DispatchKeeps(armed, p, ledger, adapters, {p});
    }
  }

  lemma PrepareReuploadKeeps(e: Entry, ledger: Ledger)
    requires EntryInv(e, ledger) && PrepareReupload(e.job).Ok?
    ensures var intents := PerProvider(Intent.Reupload, Intent.Reupload, Intent.Reupload, e.intents.twitch);
            var marked := Entry(PrepareReupload(e.job).value, e.metadataPending, intents, true);
            && InvBut(marked, ledger, {DpsReport, Wingman, DonBot}) && marked.State(DpsReport).Waiting?
            && !marked.metadataPending && marked.job.id == e.job.id && marked.State(Wingman).Waiting?
            && (Clean(e.job) ==> Clean(marked.job))
  {
  }

  lemma ReuploadKeeps(e: Entry, ledger: Ledger, adapters: Adapters)
    requires EntryInv(e, ledger)
    ensures Keeps(e, ledger, ReuploadEntry(e, adapters), {})
  {
    if PrepareReupload(e.job).Ok? {
      PrepareReuploadKeeps(e, ledger);
      var intents := PerProvider(Intent.Reupload, Intent.Reupload, Intent.Reupload, e.intents.twitch);
      var marked := Entry(PrepareReupload(e.job).value, e.metadataPending, intents, true);
      var routed := if marked.job.Wvw() then Try(marked, Wingman, Skipped) else marked;
      TryEffect(marked, Wingman, Skipped);
      assert InvBut(routed, ledger, {DpsReport});
      assert {DpsReport} - {DpsReport} == {};
      DispatchKeeps(routed, DpsReport, ledger, adapters, {DpsReport});
    }
  }

  lemma RechatKeeps(e: Entry, ledger: Ledger, adapters: Adapters)
    requires EntryInv(e, ledger)
    ensures Keeps(e, ledger, RechatEntry(e, adapters), {})
  {
    if DependencyError(e, Twitch).None? && PrepareExplicitDelivery(e.job, Twitch).Ok? {
      var armed := e.(job := PrepareExplicitDelivery(e.job, Twitch).value, intents := e.intents.With(Twitch, Rechat));
      assert {Twitch} - {Twitch} == {};
      DispatchKeeps(armed, Twitch, ledger, adapters, {Twitch});
    }
  }

  // ---------------------------------------------------------------- replays never release a busy job

  /** Failing a dispatch with nothing waiting behind it touches one destination only. */
  lemma DispatchTouchesOne(e: Entry, p: Provider, adapters: Adapters, q: Provider)
    requires q != p && (p.DpsReport? ==> !e.State(q).Waiting?)
    ensures DispatchEntry(e, p, adapters).entry.State(q) == e.State(q)
    ensures DispatchEntry(e, p, adapters).entry.metadataPending == e.metadataPending
  {
    MetadataStaysSettled(e, p, adapters);
    FailDispatchTouchesOne(e, p, q);
    var admitted := Admit(e, p, adapters.installed);
    if admitted.Ok? {
      TransitionCountsAttempts(e.job, p, Active, q);
      FailDispatchTouchesOne(e.(job := admitted.value), p, q);
    }
    TransitionCountsAttempts(e.job, Wingman, Skipped, q);
  }

  lemma FailDispatchTouchesOne(e: Entry, p: Provider, q: Provider)
    requires q != p && (p.DpsReport? ==> !e.State(q).Waiting?)
    ensures FailDispatch(e, p).State(q) == e.State(q)
  {
    TransitionCountsAttempts(e.job, p, Failed, q);
    SettleDependentsEffect(Try(e, p, Failed), false);
  }

  /** Running destinations of the entry other than `p`. */
  predicate KeepsRunning(e: Entry, after: Entry, p: Provider) {
    forall q: Provider :: q != p && Running(e.State(q)) ==> after.State(q) == e.State(q)
  }

  lemma DispatchKeepsRunning(e: Entry, p: Provider, adapters: Adapters)
    ensures KeepsRunning(e, DispatchEntry(e, p, adapters).entry, p)
  {
    forall q: Provider | q != p && Running(e.State(q))
      ensures DispatchEntry(e, p, adapters).entry.State(q) == e.State(q)
    {
      DispatchTouchesOne(e, p, adapters, q);
    }
  }

  /** Outside the parser's hands a busy entry always has a running destination. */
  lemma BusyMeansRunning(e: Entry) returns (q: Provider)
    requires NotStranded(e, {}) && e.Busy() && !e.metadataPending
    ensures Running(e.State(q))
  {
    q := if Running(e.State(DpsReport)) then DpsReport
         else if Running(e.State(Wingman)) then Wingman
         else if Running(e.State(DonBot)) then DonBot else Twitch;
  }

  lemma RunningMeansBusy(e: Entry, q: Provider)
    requires Running(e.State(q))
    ensures e.Busy()
  {
  }

  lemma PrepareRetryTouchesIdle(e: Entry, p: Provider, q: Provider)
    requires PrepareRetry(e, p).Ok? && Running(e.State(q))
    ensures q != p && RetryArmed(e, p).State(q) == e.State(q)
  {
    match p case DpsReport => case Wingman => case DonBot => case Twitch =>
  }

  lemma RetryFailedStaysBusy(e: Entry, p: Provider, ledger: Ledger, adapters: Adapters)
    requires EntryInv(e, ledger) && e.Busy()
    ensures RetryFailedEntry(e, p, adapters).entry.Busy()
  {
    if !e.metadataPending {
      var q := BusyMeansRunning(e);
      if e.job.record.metadata.Some? && DependencyError(e, p).None? && PrepareRetry(e, p).Ok? {
        PrepareRetryTouchesIdle(e, p, q);
        DispatchKeepsRunning(RetryArmed(e, p), p, adapters);
        if adapters.installed.At(p) {
          RunningMeansBusy(DispatchEntry(RetryArmed(e, p), p, adapters).entry, q);
        }
      }
    }
  }

  lemma ReuploadStaysBusy(e: Entry, ledger: Ledger, adapters: Adapters)
    requires EntryInv(e, ledger) && e.Busy()
    ensures ReuploadEntry(e, adapters).entry.Busy()
  {
    if PrepareReupload(e.job).Ok? {
      var q := BusyMeansRunning(e);
      assert q == Twitch;
      PrepareReuploadKeeps(e, ledger);
      var intents := PerProvider(Intent.Reupload, Intent.Reupload, Intent.Reupload, e.intents.twitch);
      var marked := Entry(PrepareReupload(e.job).value, e.metadataPending, intents, true);
      var routed := if marked.job.Wvw() then Try(marked, Wingman, Skipped) else marked;
      TryEffect(marked, Wingman, Skipped);
      assert routed.State(Twitch) == e.State(Twitch);
      DispatchKeepsRunning(routed, DpsReport, adapters);
      RunningMeansBusy(DispatchEntry(routed, DpsReport, adapters).entry, Twitch);
    }
  }

  lemma RechatStaysBusy(e: Entry, ledger: Ledger, adapters: Adapters)
    requires EntryInv(e, ledger) && e.Busy()
    ensures RechatEntry(e, adapters).entry.Busy()
  {
    if DependencyError(e, Twitch).None? && PrepareExplicitDelivery(e.job, Twitch).Ok? {
      var q := BusyMeansRunning(e);
      var armed := e.(job := PrepareExplicitDelivery(e.job, Twitch).value, intents := e.intents.With(Twitch, Rechat));
      DispatchKeepsRunning(armed, Twitch, adapters);
      assert armed.State(q) == e.State(q);
      RunningMeansBusy(DispatchEntry(armed, Twitch, adapters).entry, q);
    }
  }

  // ---------------------------------------------------------------- cancellation

  function CancelledStatus(status: Status): Status {
    if status.state.Busy() then status.(state := Cancelled) else status
  }

  /** Cancelling leaves nothing busy and changes nothing that was not. */
  lemma CancelEffect(e: Entry)
    ensures var s := e.job.record.statuses;
            CancelEntry(e) == WithStatuses(e.(metadataPending := false),
              PerProvider(CancelledStatus(s.dps), CancelledStatus(s.wingman), CancelledStatus(s.donbot), CancelledStatus(s.twitch)))
  {
    var s := e.job.record.statuses;
    var known := e.(metadataPending := false);
    var a := CancelStatus(known, DpsReport);
    assert a == WithStatuses(known, s.(dps := CancelledStatus(s.dps)));
    var b := CancelStatus(a, Wingman);
    assert b == WithStatuses(a, a.job.record.statuses.(wingman := CancelledStatus(s.wingman)));
    var c := CancelStatus(b, DonBot);
    assert c == WithStatuses(b, b.job.record.statuses.(donbot := CancelledStatus(s.donbot)));
  }

  lemma CancelKeeps(e: Entry)
    ensures CancelEntry(e).job.id == e.job.id && !CancelEntry(e).Busy()
    ensures Clean(e.job) ==> Clean(CancelEntry(e).job)
  {
    CancelEffect(e);
  }

  // ---------------------------------------------------------------- well-formed successes

  /** A success whose payload fits its destination and is itself valid. */
  predicate WellFormedSuccess(p: Provider, outcome: UploadOutcome) {
    outcome.OutcomeSucceeded? &&
    match outcome.success
    case DpsReportDone(report) => p.DpsReport? && report.permalink != ""
    case WingmanDone(receipt) => p.Wingman? && (receipt.Some? ==> receipt.value.permalink != "")
    case DonBotDone(receipt) => p.DonBot? && (receipt.Some? ==> receipt.value.valid)
    case TwitchDone(receipt) => p.Twitch? && receipt.Valid() && receipt.status.Sent?
  }

  /** The result carries a receipt and the slot it goes to is already filled. */
  predicate SlotTaken(job: Job, outcome: UploadOutcome) {
    outcome.OutcomeSucceeded? &&
    match outcome.success
    case DpsReportDone(_) => false
    case WingmanDone(receipt) => receipt.Some? && job.record.wingman.Some?
    case DonBotDone(receipt) => receipt.Some? && job.record.donbot.Some?
    case TwitchDone(_) => job.record.twitch.Some?
  }

  /** A well-formed success for the active attempt is refused exactly when its receipt slot is
      taken; on a clean job it never is. */
  lemma SuccessRefusedIffSlotTaken(e: Entry, result: UploadResult, now: nat, adapters: Adapters)
    requires e.State(result.provider).Active? && e.job.Attempts(result.provider) == result.attempt
    requires WellFormedSuccess(result.provider, result.outcome)
    ensures ApplyResultEntry(e, result, now, adapters).error.Some? <==> SlotTaken(e.job, result.outcome)
    ensures Clean(e.job) ==> !SlotTaken(e.job, result.outcome)
  {
    if result.provider.DpsReport? {
      ReportAnswerShape(e, result, now, adapters);
    }
  }
}
