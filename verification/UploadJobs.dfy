/** One log's upload job: four destination states with their attempt counters, the dps.report
    result the other destinations depend on, and one receipt slot per destination. Jobs are
    owned values: the coordinator copies one, changes the copy and stores it back. */
module UploadJobs {
  import opened Outcomes
  import opened LogFiles

  const WVW_BOSS_ID: nat := 1
  const MAX_ATTEMPTS: nat := 0xFFFF_FFFF

  datatype Provider = DpsReport | Wingman | DonBot | Twitch

  /** A value per destination, in the order of the source's arrays. */
  datatype PerProvider<T> = PerProvider(dps: T, wingman: T, donbot: T, twitch: T) {
    function At(p: Provider): T {
      match p
      case DpsReport => dps
      case Wingman => wingman
      case DonBot => donbot
      case Twitch => twitch
    }

    function With(p: Provider, value: T): PerProvider<T> {
      match p
      case DpsReport => this.(dps := value)
      case Wingman => this.(wingman := value)
      case DonBot => this.(donbot := value)
      case Twitch => this.(twitch := value)
    }
  }

  datatype ProviderState =
    | Disabled
    | Waiting
    | Active
    | Succeeded
    | Skipped
    | RetryScheduled(deadline: nat)
    | Failed
    | Cancelled
  {
    predicate Busy() {
      Waiting? || Active? || RetryScheduled?
    }

    predicate Allows(next: ProviderState) {
      match this
      case Waiting => next.Active? || next.Skipped? || next.Failed? || next.Cancelled?
      case Active => next.Succeeded? || next.Skipped? || next.RetryScheduled? || next.Failed? || next.Cancelled?
      case RetryScheduled(_) => next.Active? || next.Failed? || next.Cancelled?
      case Failed => next.Waiting? || next.Cancelled?
      case _ => false
    }
  }

  datatype Status = Status(state: ProviderState, attempts: nat)

  datatype Metadata = Metadata(bossId: nat, povAccount: string)

  datatype Report = Report(permalink: string)

  datatype WingmanReceipt = WingmanReceipt(permalink: string)

  /** `valid` is the receipt's own validity test. */
  datatype DonBotReceipt = DonBotReceipt(uploadId: Option<nat>, valid: bool)

  datatype TwitchStatus =
    | Sent | AutoMod | BlockedTerm | Duplicate | RateLimited | FollowersOnly | SlowMode
    | SubscribersOnly | Restricted | OtherDrop

  datatype TwitchReceipt = TwitchReceipt(status: TwitchStatus, messageId: Option<string>) {
    predicate Valid() {
      if status.Sent? then
        messageId.Some? && 0 < |messageId.value| <= 256
        && forall i :: 0 <= i < |messageId.value| ==> '!' <= messageId.value[i] <= '~'
      else messageId.None?
    }
  }

  datatype JobError =
    | InvalidJobId | NoPath | TwitchRequiresDpsReport | InvalidTransition | DpsReportResultRequired
    | EmptyPermalink | InvalidTwitchDelivery | TwitchDeliveryAlreadyRecorded
    | InvalidDonBotUpload | DonBotUploadAlreadyRecorded | InvalidWingmanUpload
    | WingmanUploadAlreadyRecorded | ManualRetryRequiresFailure | ExplicitDeliveryBusy
    | EncounterMetadataRequired | AttemptLimitReached

  datatype Record = Record(
    file: LogFile,
    detectedAt: int,
    metadata: Option<Metadata>,
    report: Option<Report>,
    wingman: Option<WingmanReceipt>,
    donbot: Option<DonBotReceipt>,
    twitch: Option<TwitchReceipt>,
    statuses: PerProvider<Status>)

  datatype Job = Job(id: nat, record: Record) {
    function State(p: Provider): ProviderState {
      record.statuses.At(p).state
    }

    function Attempts(p: Provider): nat {
      record.statuses.At(p).attempts
    }

    predicate Busy() {
      State(DpsReport).Busy() || State(Wingman).Busy() || State(DonBot).Busy() || State(Twitch).Busy()
    }

    predicate Wvw() {
      record.metadata.Some? && record.metadata.value.bossId == WVW_BOSS_ID
    }

    /** Replaces the state and keeps the attempt counter. */
    function Put(p: Provider, state: ProviderState): Job {
      this.(record := record.(statuses := record.statuses.With(p, Status(state, Attempts(p)))))
    }

    predicate ReportReady() {
      State(DpsReport).Succeeded? && record.report.Some?
    }
  }

  type JobResult = Result<Job, JobError>

  // ---------------------------------------------------------------- operations

  function Create(id: nat, file: LogFile, detectedAt: int, enabled: PerProvider<bool>): JobResult {
    if EmptyPath(file.path) then Err(NoPath)
    else if enabled.twitch && !enabled.dps then Err(TwitchRequiresDpsReport)
    else
      var start := (on: bool) => Status(if on then Waiting else Disabled, 0);
      Ok(Job(id, Record(file, detectedAt, None, None, None, None, None,
        PerProvider(start(enabled.dps), start(enabled.wingman), start(enabled.donbot), start(enabled.twitch)))))
  }

  /** A state that was busy when the process ended counts as failed. */
  function Interrupt(status: Status): Status {
    if status.state.Busy() then status.(state := Failed) else status
  }

  function Restore(id: nat, record: Record): JobResult {
    if EmptyPath(record.file.path) then Err(NoPath)
    else if record.report.Some? && record.report.value.permalink == "" then Err(EmptyPermalink)
    else if record.wingman.Some? && record.wingman.value.permalink == "" then Err(InvalidWingmanUpload)
    else if record.donbot.Some? && !record.donbot.value.valid then Err(InvalidDonBotUpload)
    else if record.twitch.Some? && !record.twitch.value.Valid() then Err(InvalidTwitchDelivery)
    else
      var s := record.statuses;
      Ok(Job(id, record.(statuses :=
        PerProvider(Interrupt(s.dps), Interrupt(s.wingman), Interrupt(s.donbot), Interrupt(s.twitch)))))
  }

  function Transition(job: Job, p: Provider, next: ProviderState): JobResult {
    if !job.State(p).Allows(next) then Err(InvalidTransition)
    else if p.DpsReport? && next.Succeeded? then Err(DpsReportResultRequired)
    else if p.Twitch? && next.Active? && !job.ReportReady() then Err(DpsReportResultRequired)
    else if p.Twitch? && next.Succeeded?
            && !(job.record.twitch.Some? && job.record.twitch.value.status.Sent?) then Err(InvalidTwitchDelivery)
    else if next.Active? && job.Attempts(p) >= MAX_ATTEMPTS then Err(AttemptLimitReached)
    else
      var attempts := if next.Active? then job.Attempts(p) + 1 else job.Attempts(p);
      Ok(job.(record := job.record.(statuses := job.record.statuses.With(p, Status(next, attempts)))))
  }

  function CompleteReport(job: Job, report: Report): JobResult {
    if !job.State(DpsReport).Active? then Err(InvalidTransition)
    else if report.permalink == "" then Err(EmptyPermalink)
    else Ok(job.(record := job.record.(report := Some(report))).Put(DpsReport, Succeeded))
  }

  function RecordWingman(job: Job, receipt: WingmanReceipt): JobResult {
    if !job.State(Wingman).Active? then Err(InvalidTransition)
    else if job.record.wingman.Some? then Err(WingmanUploadAlreadyRecorded)
    else if receipt.permalink == "" then Err(InvalidWingmanUpload)
    else Ok(job.(record := job.record.(wingman := Some(receipt))))
  }

  function RecordDonBot(job: Job, receipt: DonBotReceipt): JobResult {
    if !job.State(DonBot).Active? then Err(InvalidTransition)
    else if job.record.donbot.Some? then Err(DonBotUploadAlreadyRecorded)
    else if !receipt.valid then Err(InvalidDonBotUpload)
    else Ok(job.(record := job.record.(donbot := Some(receipt))))
  }

  function RecordTwitch(job: Job, receipt: TwitchReceipt): JobResult {
    if !job.State(Twitch).Active? then Err(InvalidTransition)
    else if job.record.twitch.Some? then Err(TwitchDeliveryAlreadyRecorded)
    else if !receipt.Valid() then Err(InvalidTwitchDelivery)
    else Ok(job.(record := job.record.(twitch := Some(receipt))))
  }

  function Rearm(job: Job, p: Provider): Job {
    if job.State(p).Skipped? then job.Put(p, Waiting) else job
  }

  function PrepareManualRetry(job: Job, p: Provider): JobResult {
    if !job.State(p).Failed? then Err(ManualRetryRequiresFailure)
    else
      var waiting := job.Put(p, Waiting);
      var cleared := if p.Twitch? then waiting.(record := waiting.record.(twitch := None)) else waiting;
      Ok(if p.DpsReport? && cleared.record.report.None?
         then Rearm(Rearm(Rearm(cleared, Wingman), DonBot), Twitch)
         else cleared)
  }

  function PrepareExplicitDelivery(job: Job, p: Provider): JobResult {
    if job.record.metadata.None? then Err(EncounterMetadataRequired)
    else if job.State(p).Busy() then Err(ExplicitDeliveryBusy)
    else if p.Twitch? && job.record.report.None? then Err(DpsReportResultRequired)
    else
      var waiting := job.Put(p, Waiting);
      Ok(waiting.(record := match p
        case DpsReport => waiting.record.(report := None)
        case Wingman => waiting.record.(wingman := None)
        case DonBot => waiting.record.(donbot := None)
        case Twitch => waiting.record.(twitch := None)))
  }

  // ---------------------------------------------------------------- receipt slots

  /** A filled receipt slot can only be reached again through an operation that empties it:
      its destination is neither busy nor in a state from which a retry would skip that. */
  predicate Clean(job: Job) {
    && (job.record.wingman.Some? ==> Closed(job.State(Wingman)))
    && (job.record.donbot.Some? ==> Closed(job.State(DonBot)))
    && (job.record.twitch.Some? ==> Closed(job.State(Twitch)) || job.State(Twitch).Failed?)
  }

  predicate Closed(state: ProviderState) {
    state.Disabled? || state.Succeeded? || state.Cancelled?
  }

  /** What a clean process saves restores to a clean job. */
  lemma RestoreKeepsClean(id: nat, job: Job)
    requires Clean(job)
    ensures var restored := Restore(id, job.record); restored.Ok? ==> Clean(restored.value)
  {
  }

  /** Attempts of every destination only grow, by at most one, and only on becoming active. */
  lemma TransitionCountsAttempts(job: Job, p: Provider, next: ProviderState, q: Provider)
    ensures var after := Transition(job, p, next);
            after.Ok? ==>
              && after.value.id == job.id
              && after.value.State(q) == (if q == p then next else job.State(q))
              && after.value.Attempts(q) == job.Attempts(q) + (if q == p && next.Active? then 1 else 0)
              && after.value.Attempts(p) <= (if job.Attempts(p) > MAX_ATTEMPTS then job.Attempts(p) else MAX_ATTEMPTS)
  {
  }
}
