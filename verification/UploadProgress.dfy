/** What the coordinator's calls get done: the requests that retries, explicit replays and a
    finished dps.report upload send, and that no due retry is left behind. */
module UploadProgress {
  import opened Outcomes
  import opened UploadJobs
  import opened UploadLedger
  import opened UploadEntries
  import opened CoordinatorSpec

  /** A destination with nothing in its way. */
  predicate Ready(e: Entry, p: Provider, installed: PerProvider<bool>) {
    && e.job.record.metadata.Some? && installed.At(p) && DependencyError(e, p).None?
    && e.job.Attempts(p) < MAX_ATTEMPTS && !(p.Wingman? && e.job.Wvw())
  }

  /** The next attempt of the destination, with the report it depends on. */
  function NextRequest(e: Entry, p: Provider, intent: Intent): Event {
    Requested(e.job.id, p, e.job.Attempts(p) + 1, intent, if p.DpsReport? then None else e.job.record.report)
  }

  /** The request was offered: taken, or refused and counted as settled. */
  predicate Sends(change: Change, e: Entry, p: Provider, intent: Intent, adapters: Adapters) {
    var request := NextRequest(e, p, intent);
    if adapters.accepts.At(p)
    then change.events == [request] && change.error.None? && change.entry.State(p).Active?
    else change.events == [request, Settled(e.job.id, p, request.attempt)] && change.error == Some(Dispatch) && change.entry.State(p).Failed?
  }

  lemma DispatchSends(e: Entry, p: Provider, adapters: Adapters)
    requires Ready(e, p, adapters.installed) && (e.State(p).Waiting? || e.State(p).RetryScheduled?)
    ensures Sends(DispatchEntry(e, p, adapters), e, p, e.intents.At(p), adapters)
  {
    TransitionCountsAttempts(e.job, p, Active, p);
    var active := e.(job := Transition(e.job, p, Active).value);
    SettleDependentsEffect(Try(active, p, Failed), false);
  }

  // ---------------------------------------------------------------- replays

  /** A manual retry of a failed destination sends its next attempt, marked as explicit; inside
      a reupload it stays part of it. */
  lemma RetrySends(e: Entry, p: Provider, adapters: Adapters)
    requires Ready(e, p, adapters.installed) && e.State(p).Failed?
    ensures var intent := if e.intents.At(p).Reupload? then Intent.Reupload else ManualRetry;
            Sends(RetryFailedEntry(e, p, adapters), e, p, intent, adapters)
  {
    assert PrepareRetry(e, p).Ok?;
    var armed := RetryArmed(e, p);
    assert armed.State(p).Waiting? && armed.job.Attempts(p) == e.job.Attempts(p);
    DispatchSends(armed, p, adapters);
  }

  /** A reupload sends dps.report again with the old report and receipts gone, and has Wingman
      and DonBot waiting for the new one; the chat delivery is left alone. */
  lemma ReuploadSends(e: Entry, adapters: Adapters)
    requires e.job.record.metadata.Some? && adapters.installed.dps && adapters.accepts.dps && e.job.Attempts(DpsReport) < MAX_ATTEMPTS
    requires !e.State(DpsReport).Busy() && !e.State(Wingman).Busy() && !e.State(DonBot).Busy()
    ensures var change := ReuploadEntry(e, adapters);
            && Sends(change, e, DpsReport, Intent.Reupload, adapters)
            && change.entry.reupload && change.entry.intents == PerProvider(Intent.Reupload, Intent.Reupload, Intent.Reupload, e.intents.twitch)
            && (if e.job.Wvw() then change.entry.State(Wingman).Skipped? else change.entry.State(Wingman).Waiting?)
            && change.entry.State(DonBot).Waiting? && change.entry.job.record.statuses.twitch == e.job.record.statuses.twitch
            && change.entry.job.record.report.None? && change.entry.job.record.wingman.None? && change.entry.job.record.donbot.None?
            && change.entry.job.record.twitch == e.job.record.twitch
  {
    var job := PrepareReupload(e.job).value;
    var marked := Entry(job, e.metadataPending, PerProvider(Intent.Reupload, Intent.Reupload, Intent.Reupload, e.intents.twitch), true);
    var routed := if marked.job.Wvw() then Try(marked, Wingman, Skipped) else marked;
    DispatchSends(routed, DpsReport, adapters);
  }

  /** A repeated chat delivery sends the next attempt with the report, the old receipt gone, and
      touches no upload destination. */
  lemma RechatSends(e: Entry, adapters: Adapters)
    requires Ready(e, Twitch, adapters.installed) && !e.State(Twitch).Busy()
    ensures var change := RechatEntry(e, adapters);
            && Sends(change, e, Twitch, Rechat, adapters)
            && change.entry.job.record.twitch.None?
            && change.entry.job.record.statuses == e.job.record.statuses.(twitch := change.entry.job.record.statuses.twitch)
  {
    var armed := e.(job := PrepareExplicitDelivery(e.job, Twitch).value, intents := e.intents.With(Twitch, Rechat));
    DispatchSends(armed, Twitch, adapters);
  }

  // ---------------------------------------------------------------- fan-out

  lemma DispatchKeepsReady(e: Entry, p: Provider, adapters: Adapters, q: Provider)
    requires !p.DpsReport? && q != p
    ensures var after := DispatchWaiting(e, p, adapters).entry;
            && after.State(q) == e.State(q) && after.job.Attempts(q) == e.job.Attempts(q)
            && after.State(DpsReport) == e.State(DpsReport) && after.job.id == e.job.id
            && after.job.record.report == e.job.record.report && after.job.record.metadata == e.job.record.metadata
            && after.intents == e.intents && after.reupload == e.reupload
  {
    if e.State(p).Waiting? {
      MetadataStaysSettled(e, p, adapters);
      DispatchTouchesOne(e, p, adapters, q);
      DispatchTouchesOne(e, p, adapters, DpsReport);
    }
  }

  /** A finished dps.report upload reaches each dependent that waits and is ready, whatever
      becomes of the others: its request carries the new report. Chat is left out of a
      reupload. */
  lemma ReportReachesDependents(e: Entry, p: Provider, adapters: Adapters)
    requires !p.DpsReport? && e.State(p).Waiting? && Ready(e, p, adapters.installed) && (p.Twitch? ==> !e.reupload)
    ensures var change := FanOut(e, adapters);
            && NextRequest(e, p, e.intents.At(p)) in change.events
            && (if adapters.accepts.At(p) then change.entry.State(p).Active? else change.entry.State(p).Failed?)
  {
    var wingman := DispatchWaiting(e, Wingman, adapters);
    var second := DispatchWaiting(wingman.entry, DonBot, adapters);
    var third := DispatchWaiting(second.entry, Twitch, adapters);
    DispatchKeepsReady(e, Wingman, adapters, if p.Wingman? then DonBot else p);
    DispatchKeepsReady(wingman.entry, DonBot, adapters, if p.DonBot? then Twitch else p);
    DispatchKeepsReady(second.entry, Twitch, adapters, if p.Twitch? then Wingman else p);
    match p
    case Wingman =>
      DispatchSends(e, Wingman, adapters);
      assert NextRequest(e, p, e.intents.At(p)) == wingman.events[0];
    case DonBot =>
      DispatchSends(wingman.entry, DonBot, adapters);
      assert NextRequest(e, p, e.intents.At(p)) == second.events[0];
    case Twitch =>
      DispatchSends(second.entry, Twitch, adapters);
      assert NextRequest(e, p, e.intents.At(p)) == third.events[0];
  }

  // ---------------------------------------------------------------- metadata

  /** Metadata starts the job: dps.report first if it is selected. */
  lemma MetadataSendsReport(e: Entry, metadata: Metadata, adapters: Adapters)
    requires AwaitsMetadata(e) && e.State(DpsReport).Waiting? && adapters.installed.dps && e.job.Attempts(DpsReport) < MAX_ATTEMPTS
    ensures Sends(SetMetadataEntry(e, metadata, adapters), e, DpsReport, e.intents.dps, adapters)
  {
    DispatchSends(RoutedEntry(e, metadata), DpsReport, adapters);
  }

  /** Without dps.report the selected direct destinations start at once, except that Wingman
      does not take WvW logs. */
  lemma MetadataSendsDirectly(e: Entry, p: Provider, metadata: Metadata, adapters: Adapters)
    requires AwaitsMetadata(e) && e.State(DpsReport).Disabled? && (p.Wingman? || p.DonBot?)
    requires e.State(p).Waiting? && adapters.installed.At(p) && e.job.Attempts(p) < MAX_ATTEMPTS
    ensures var change := SetMetadataEntry(e, metadata, adapters);
            if p.Wingman? && metadata.bossId == WVW_BOSS_ID then change.entry.State(p).Skipped?
            else NextRequest(e, p, e.intents.At(p)) in change.events
                 && (if adapters.accepts.At(p) then change.entry.State(p).Active? else change.entry.State(p).Failed?)
  {
    var routed := RoutedEntry(e, metadata);
    var wingman := DispatchWaiting(routed, Wingman, adapters);
    var donbot := DispatchWaiting(wingman.entry, DonBot, adapters);
    DispatchKeepsReady(routed, Wingman, adapters, DonBot);
    DispatchKeepsReady(wingman.entry, DonBot, adapters, Wingman);
    if p.DonBot? {
      DispatchSends(wingman.entry, DonBot, adapters);
      assert NextRequest(e, p, e.intents.At(p)) == donbot.events[0];
    } else if metadata.bossId != WVW_BOSS_ID {
      DispatchSends(routed, Wingman, adapters);
      assert NextRequest(e, p, e.intents.At(p)) == wingman.events[0];
    }
  }

  // ---------------------------------------------------------------- due retries

  lemma DispatchMakesNothingDue(e: Entry, p: Provider, adapters: Adapters, q: Provider, now: nat)
    requires q != p && !Due(e, q, now)
    ensures !Due(DispatchEntry(e, p, adapters).entry, q, now)
  {
    if p.DpsReport? && e.State(q).Waiting? {
      var admitted := Admit(e, p, adapters.installed);
      SettleDependentsEffect(Try(e, p, Failed), false);
      TransitionCountsAttempts(e.job, p, Failed, q);
      if admitted.Ok? {
        TransitionCountsAttempts(e.job, p, Active, q);
        TransitionCountsAttempts(admitted.value, p, Failed, q);
        SettleDependentsEffect(Try(e.(job := admitted.value), p, Failed), false);
      }
    } else {
      DispatchTouchesOne(e, p, adapters, q);
    }
  }

  /** Nothing of the destinations visited is due, as long as the budget lasts. */
  ghost predicate NothingDue(at: Progress, k: nat, budget: nat, now: nat)
    requires k <= 4 * |at.state.jobs|
  {
    at.count < budget ==> forall i: nat :: i < k ==> !Due(at.state.jobs[i / 4], NthProvider(i), now)
  }

  lemma VisitLeavesNothingDue(s: State, at: Progress, k: nat, budget: nat, now: nat, accepts: nat -> Accepts)
    requires Core(s) && !s.stopping && Onward(s, at, budget) && k < 4 * |s.jobs|
    requires NothingDue(at, k, budget, now)
    ensures NothingDue(Visit(at, k, budget, now, accepts), k + 1, budget, now)
  {
    var after := Visit(at, k, budget, now, accepts);
    var e, p := at.state.jobs[k / 4], NthProvider(k);
    if after.count < budget && Due(e, p, now) {
      var adapters := Adapters(at.state.installed, accepts(e.job.id));
      assert EntryHolds(e, at.state);
      DueKeeps(e, p, LedgerOf(at.state.log, e.job.id), adapters);
      forall i: nat | i < k + 1 ensures !Due(after.state.jobs[i / 4], NthProvider(i), now) {
        if i / 4 == k / 4 && i != k {
          assert NthProvider(i) != p;
          DispatchMakesNothingDue(e, p, adapters, NthProvider(i), now);
        }
      }
    }
  }

  /** Whatever each visit establishes from the visits before it, all of them establish. */
  lemma {:induction false} VisitsEstablish(s: State, k: nat, budget: nat, now: nat, accepts: nat -> Accepts, holds: (Progress, nat) -> bool)
    requires k <= 4 * |s.jobs| && holds(Progress(s, 0), 0)
    requires forall at: Progress, i: nat :: i < 4 * |at.state.jobs| && holds(at, i) ==> holds(Visit(at, i, budget, now, accepts), i + 1)
    ensures holds(Visits(s, k, budget, now, accepts), k)
  {
    if k > 0 {
      VisitsEstablish(s, k - 1, budget, now, accepts, holds);
    }
  }

  lemma VisitsLeaveNothingDue(s: State, k: nat, budget: nat, now: nat, accepts: nat -> Accepts)
    requires Core(s) && !s.stopping && k <= 4 * |s.jobs|
    ensures var done := Visits(s, k, budget, now, accepts);
            k <= 4 * |done.state.jobs| && NothingDue(done, k, budget, now)
  {
    var holds := (at: Progress, i: nat) => Onward(s, at, budget) && i <= 4 * |at.state.jobs| && NothingDue(at, i, budget, now);
    forall at: Progress, i: nat | i < 4 * |at.state.jobs| && holds(at, i) ensures holds(Visit(at, i, budget, now, accepts), i + 1) {
      VisitKeepsCore(s, at, i, budget, now, accepts);
      VisitLeavesNothingDue(s, at, i, budget, now, accepts);
    }
    assert Onward(s, Progress(s, 0), budget);
    assert holds(Progress(s, 0), 0);
    VisitsEstablish(s, k, budget, now, accepts, holds);
  }

  /** No due retry is left behind: unless the budget ran out, no destination of any retained job
      is due when the call returns. */
  lemma NoRetryIsLeftBehind(s: State, budget: nat, now: nat, accepts: nat -> Accepts, e: Entry, p: Provider)
    requires Inv(s) && !s.stopping && DispatchDueRetries(s, budget, now, accepts).1 < budget
    requires e in DispatchDueRetries(s, budget, now, accepts).0.jobs
    ensures !Due(e, p, now)
  {
    var done := Visits(s, 4 * |s.jobs|, budget, now, accepts);
    VisitsLeaveNothingDue(s, 4 * |s.jobs|, budget, now, accepts);
    TrimmedMembers(done.state.jobs, Excess(|done.state.jobs|, done.state.limit));
    var j :| 0 <= j < |done.state.jobs| && done.state.jobs[j] == e;
    var place := match p case DpsReport => 0 case Wingman => 1 case DonBot => 2 case Twitch => 3;
    assert (4 * j + place) / 4 == j && NthProvider(4 * j + place) == p;
  }

  // ---------------------------------------------------------------- history

  /** A restored history consists of the newest rows that fit, in order, under fresh ids, with
      interrupted work counted as failed. */
  lemma NewestRowsAreRestored(s: State, records: seq<Record>, i: nat)
    requires RestoreHistory(s, records).1.None?
    ensures var t := RestoreHistory(s, records).0;
            && |t.jobs| == |records| - Excess(|records|, s.limit) && Next(t) == |t.jobs| + 1
            && (i < |t.jobs| ==>
                  t.jobs[i].job.id == i + 1 && !t.jobs[i].Busy()
                  && UploadJobs.Restore(i + 1, records[Excess(|records|, s.limit) + i]) == Ok(t.jobs[i].job))
  {
    RestoredJobsHold(records[Excess(|records|, s.limit)..]);
  }
}
