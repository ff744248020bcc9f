/** Log ingestion: new logs become upload jobs that wait for the metadata parser, and parser
    results reach their job. The owner keeps the set of jobs whose result is outstanding. */
module LogIngestion {
  import opened Outcomes
  import opened LogFiles
  import opened UploadJobs
  import opened UploadLedger
  import opened UploadEntries
  import opened UploadEffects
  import Spec = CoordinatorSpec
  import UploadCoordinator

  datatype IngestionError =
    | ShuttingDown
    | ParserFull
    | UnexpectedResult
    | ParserPanicked
    | Coordinator(error: CoordinatorError)

  /** What the parser made of a log: its metadata, or a failure that may be a cancellation. */
  datatype Parsed = Known(metadata: Metadata) | Unknown(cancelled: bool)

  /** The owner's fields, and the ids whose parser result has reached the coordinator. */
  datatype Ingestion = Ingestion(uploads: Spec.State, pending: set<nat>, stopping: bool, applied: seq<nat>)

  // ---------------------------------------------------------------- calls

  /** `capacity` is the parser's answer, None when it panicked; `admitted` is whether it takes
      the request after that. */
  function Submitted(g: Ingestion, file: LogFile, now: int, enabled: PerProvider<bool>, capacity: Option<nat>, admitted: bool)
    : (Ingestion, Result<nat, IngestionError>)
  {
    if g.stopping then (g, Err(IngestionError.ShuttingDown))
    else if capacity.None? then (g, Err(ParserPanicked))
    else if capacity.value == 0 then (g, Err(ParserFull))
    else
      var (uploads, added) := Spec.AddPending(g.uploads, file, now, enabled);
      if added.Err? then (g, Err(Coordinator(added.error)))
      else if admitted then (g.(uploads := uploads, pending := g.pending + {added.value}), Ok(added.value))
      else
        var (failed, error) := Spec.FailMetadata(uploads, added.value, false);
        (g.(uploads := failed), if error.Some? then Err(Coordinator(error.value)) else Ok(added.value))
  }

  function Deliver(s: Spec.State, id: nat, parsed: Parsed, accepts: Spec.Accepts): (Spec.State, Option<CoordinatorError>) {
    match parsed
    case Known(metadata) => Spec.SetMetadata(s, id, metadata, accepts)
    case Unknown(cancelled) => Spec.FailMetadata(s, id, cancelled)
  }

  function Handled(g: Ingestion, id: nat, parsed: Parsed, accepts: Spec.Accepts): (Ingestion, Option<IngestionError>) {
    if g.stopping then (g, Some(IngestionError.ShuttingDown))
    else if id !in g.pending then (g, Some(IngestionError.UnexpectedResult))
    else
      var (uploads, error) := Deliver(g.uploads, id, parsed, accepts);
      (Ingestion(uploads, g.pending - {id}, false, if g.uploads.stopping then g.applied else g.applied + [id]),
       if error.Some? then Some(Coordinator(error.value)) else None)
  }

  function Stopped(g: Ingestion): Ingestion {
    if g.stopping then g else Ingestion(Spec.CancelAll(g.uploads), {}, true, g.applied)
  }

  // ---------------------------------------------------------------- agreement

  /** The retained jobs that wait for the parser. */
  function AwaitingIds(jobs: seq<Entry>): set<nat> {
    set i | 0 <= i < |jobs| && jobs[i].metadataPending :: jobs[i].job.id
  }

  ghost predicate Inv(g: Ingestion) {
    && Spec.Inv(g.uploads)
    && (g.stopping ==> g.uploads.stopping && g.pending == {})
    && (!g.uploads.stopping ==> g.pending == AwaitingIds(g.uploads.jobs))
    && (forall id :: id in g.pending ==> id < Spec.Next(g.uploads) && id !in g.applied)
    && (forall k :: 0 <= k < |g.applied| ==> g.applied[k] < Spec.Next(g.uploads))
    && (forall j, k :: 0 <= j < k < |g.applied| ==> g.applied[j] != g.applied[k])
  }

  /** A pending id names a retained job without metadata whose destinations have not moved. */
  lemma PendingJobIsRetained(s: Spec.State, id: nat) returns (i: nat)
    requires Spec.Inv(s) && !s.stopping && id in AwaitingIds(s.jobs)
    ensures i < |s.jobs| && s.jobs[i].job.id == id && AwaitsMetadata(s.jobs[i]) && Spec.IndexOf(s.jobs, id) == Some(i)
  {
    i :| 0 <= i < |s.jobs| && s.jobs[i].metadataPending && s.jobs[i].job.id == id;
    assert Spec.EntryHolds(s.jobs[i], s);
    assert Spec.Increasing(s.jobs);
  }

  /** Trimming never drops a job that waits for the parser. */
  lemma TrimKeepsAwaiting(jobs: seq<Entry>, limit: nat)
    ensures AwaitingIds(Spec.TrimJobs(jobs, limit)) == AwaitingIds(jobs)
  {
    var trimmed := Spec.TrimJobs(jobs, limit);
    Spec.TrimmedMembers(jobs, Spec.Excess(|jobs|, limit));
    forall id | id in AwaitingIds(jobs) ensures id in AwaitingIds(trimmed) {
      var i :| 0 <= i < |jobs| && jobs[i].metadataPending && jobs[i].job.id == id;
      assert jobs[i] in trimmed;
    }
    forall id | id in AwaitingIds(trimmed) ensures id in AwaitingIds(jobs) {
      var i :| 0 <= i < |trimmed| && trimmed[i].metadataPending && trimmed[i].job.id == id;
      assert trimmed[i] in jobs;
    }
  }

  lemma UpdateKeepsAwaiting(jobs: seq<Entry>, index: nat, e: Entry)
    requires index < |jobs| && e.job.id == jobs[index].job.id && e.metadataPending == jobs[index].metadataPending
    ensures AwaitingIds(jobs[index := e]) == AwaitingIds(jobs)
  {
    var after := jobs[index := e];
    forall id | id in AwaitingIds(jobs) ensures id in AwaitingIds(after) {
      var i :| 0 <= i < |jobs| && jobs[i].metadataPending && jobs[i].job.id == id;
      assert after[i].metadataPending && after[i].job.id == id;
    }
    forall id | id in AwaitingIds(after) ensures id in AwaitingIds(jobs) {
      var i :| 0 <= i < |after| && after[i].metadataPending && after[i].job.id == id;
      assert jobs[i].metadataPending && jobs[i].job.id == id;
    }
  }

  lemma SettlingEndsTheWait(jobs: seq<Entry>, index: nat, e: Entry)
    requires Spec.Increasing(jobs) && index < |jobs| && e.job.id == jobs[index].job.id && !e.metadataPending
    ensures AwaitingIds(jobs[index := e]) == AwaitingIds(jobs) - {e.job.id}
  {
    var after := jobs[index := e];
    forall id | id in AwaitingIds(jobs) && id != e.job.id ensures id in AwaitingIds(after) {
      var i :| 0 <= i < |jobs| && jobs[i].metadataPending && jobs[i].job.id == id;
      assert after[i].metadataPending && after[i].job.id == id;
    }
    forall id | id in AwaitingIds(after) ensures id in AwaitingIds(jobs) && id != e.job.id {
      var i :| 0 <= i < |after| && after[i].metadataPending && after[i].job.id == id;
      assert i != index && jobs[i].metadataPending && jobs[i].job.id == id;
    }
  }

  lemma AppendStartsTheWait(jobs: seq<Entry>, e: Entry)
    requires e.metadataPending
    ensures AwaitingIds(jobs + [e]) == AwaitingIds(jobs) + {e.job.id}
  {
    var after := jobs + [e];
    forall id | id in AwaitingIds(jobs) ensures id in AwaitingIds(after) {
      var i :| 0 <= i < |jobs| && jobs[i].metadataPending && jobs[i].job.id == id;
      assert after[i].metadataPending && after[i].job.id == id;
    }
    assert after[|jobs|] == e;
  }

  lemma AddPendingAwaits(s: Spec.State, file: LogFile, now: int, enabled: PerProvider<bool>)
    requires Spec.Inv(s)
    ensures var (t, added) := Spec.AddPending(s, file, now, enabled);
            added.Ok? ==> AwaitingIds(t.jobs) == AwaitingIds(s.jobs) + {added.value} && !t.stopping
  {
    var (t, added) := Spec.AddPending(s, file, now, enabled);
    if added.Ok? {
      var job := Create(s.nextId.value, file, now, enabled).value;
      TrimKeepsAwaiting(s.jobs, s.limit - 1);
      AppendStartsTheWait(Spec.TrimJobs(s.jobs, s.limit - 1), NewEntry(job, true));
    }
  }

  /** A parser result for a waiting job is taken: neither of the two errors a wrong pending set
      would show is possible, and exactly this job stops waiting. */
  lemma DeliveryEndsTheWait(s: Spec.State, id: nat, parsed: Parsed, accepts: Spec.Accepts)
    requires Spec.Inv(s) && !s.stopping && id in AwaitingIds(s.jobs)
    ensures var (t, error) := Deliver(s, id, parsed, accepts);
            && Spec.Inv(t) && !t.stopping && Spec.Next(t) == Spec.Next(s)
            && AwaitingIds(t.jobs) == AwaitingIds(s.jobs) - {id}
            && error != Some(UnknownJob) && error != Some(MetadataNotPending) && error != Some(CoordinatorError.ShuttingDown)
            && (parsed.Unknown? ==> error.None?)
  {
    var i := PendingJobIsRetained(s, id);
    var e, adapters := s.jobs[i], Adapters(s.installed, accepts);
    assert Spec.EntryHolds(e, s);
    var ledger := LedgerOf(s.log, id);
    match parsed
    case Known(metadata) =>
      Spec.SetMetadataKeepsInv(s, id, metadata, accepts);
      SetMetadataKeeps(e, metadata, ledger, adapters);
      StartErrors(RoutedEntry(e, metadata), adapters);
      SettlingEndsTheWait(s.jobs, i, SetMetadataEntry(e, metadata, adapters).entry);
      TrimKeepsAwaiting(s.jobs[i := SetMetadataEntry(e, metadata, adapters).entry], s.limit);
    case Unknown(cancelled) =>
      Spec.FailMetadataKeepsInv(s, id, cancelled);
      FailMetadataKeeps(e, cancelled, ledger);
      SettlingEndsTheWait(s.jobs, i, FailMetadataEntry(e, cancelled).entry);
      TrimKeepsAwaiting(s.jobs[i := FailMetadataEntry(e, cancelled).entry], s.limit);
  }

  predicate DispatchFailure(error: Option<CoordinatorError>) {
    error.None? || error.value.Domain? || error.value.MissingProvider? || error.value.DependencyUnavailable? || error.value.Dispatch?
  }

  lemma StartErrors(routed: Entry, adapters: Adapters)
    ensures DispatchFailure(StartEntry(routed, adapters).error)
  {
  }

  // ---------------------------------------------------------------- other coordinator calls

  /** The calls that uploads_mut leaves to others: everything but metadata admission. */
  predicate LeavesMetadata(step: Spec.Step) {
    !step.AddingPending? && !step.SettingMetadata? && !step.FailingMetadata?
  }

  lemma SettleKeepsMark(e: Entry, cancelled: bool)
    ensures SettleDependents(e, cancelled).metadataPending == e.metadataPending
  {
    SettleDependentsEffect(e, cancelled);
  }

  lemma ApplyResultKeepsMark(e: Entry, result: UploadResult, now: nat, adapters: Adapters)
    ensures ApplyResultEntry(e, result, now, adapters).entry.metadataPending == e.metadataPending
  {
    var p := result.provider;
    if p.DpsReport? && e.State(p).Active? && e.job.Attempts(p) == result.attempt && Evaluate(e.job, p, result.outcome, now).Ok? {
      ReportAnswerShape(e, result, now, adapters);
      var (recorded, next) := Evaluate(e.job, p, result.outcome, now).value;
      var answered := e.(job := if next.Succeeded? then recorded else e.job.Put(p, next));
      SettleKeepsMark(answered, next.Cancelled?);
      FanOutKeepsMark(answered, adapters);
    }
  }

  lemma FanOutKeepsMark(e: Entry, adapters: Adapters)
    ensures FanOut(e, adapters).entry.metadataPending == e.metadataPending
  {
    MetadataStaysSettled(e, Wingman, adapters);
    var wingman := DispatchWaiting(e, Wingman, adapters);
    MetadataStaysSettled(wingman.entry, DonBot, adapters);
    var donbot := Then(wingman, DispatchWaiting(wingman.entry, DonBot, adapters));
    MetadataStaysSettled(donbot.entry, Twitch, adapters);
  }

  lemma RetryKeepsMark(e: Entry, p: Provider, adapters: Adapters)
    ensures RetryFailedEntry(e, p, adapters).entry.metadataPending == e.metadataPending
  {
    if PrepareRetry(e, p).Ok? {
      MetadataStaysSettled(RetryArmed(e, p), p, adapters);
    }
  }

  lemma ReuploadKeepsMark(e: Entry, adapters: Adapters)
    ensures ReuploadEntry(e, adapters).entry.metadataPending == e.metadataPending
  {
    var job := PrepareReupload(e.job);
    if job.Ok? {
      var marked := Entry(job.value, e.metadataPending, PerProvider(Intent.Reupload, Intent.Reupload, Intent.Reupload, e.intents.twitch), true);
      MetadataStaysSettled(if marked.job.Wvw() then Try(marked, Wingman, Skipped) else marked, DpsReport, adapters);
    }
  }

  lemma RechatKeepsMark(e: Entry, adapters: Adapters)
    ensures RechatEntry(e, adapters).entry.metadataPending == e.metadataPending
  {
    var job := PrepareExplicitDelivery(e.job, Twitch);
    if job.Ok? {
      MetadataStaysSettled(e.(job := job.value, intents := e.intents.With(Twitch, Rechat)), Twitch, adapters);
    }
  }

  lemma FinishKeepsAwaiting(s: Spec.State, index: nat, change: Change, trims: bool)
    requires index < |s.jobs| && change.entry.job.id == s.jobs[index].job.id
    requires change.entry.metadataPending == s.jobs[index].metadataPending
    ensures AwaitingIds(Spec.Finish(s, index, change, trims).0.jobs) == AwaitingIds(s.jobs)
  {
    UpdateKeepsAwaiting(s.jobs, index, change.entry);
    TrimKeepsAwaiting(s.jobs[index := change.entry], s.limit);
  }

  lemma ApplyResultKeepsAwaiting(s: Spec.State, result: UploadResult, now: nat, accepts: Spec.Accepts)
    requires Spec.Inv(s)
    ensures AwaitingIds(Spec.ApplyResult(s, result, now, accepts).0.jobs) == AwaitingIds(s.jobs)
  {
    var index := Spec.IndexOf(s.jobs, result.job);
    if !s.stopping && index.Some? {
      var e, adapters := s.jobs[index.value], Adapters(s.installed, accepts);
      assert Spec.EntryHolds(e, s);
      ApplyResultKeeps(e, result, now, LedgerOf(s.log, e.job.id), adapters);
      ApplyResultKeepsMark(e, result, now, adapters);
      FinishKeepsAwaiting(s, index.value, ApplyResultEntry(e, result, now, adapters), true);
    }
  }

  lemma RetryKeepsAwaiting(s: Spec.State, id: nat, p: Provider, accepts: Spec.Accepts)
    requires Spec.Inv(s)
    ensures AwaitingIds(Spec.RetryFailed(s, id, p, accepts).0.jobs) == AwaitingIds(s.jobs)
  {
    var index := Spec.IndexOf(s.jobs, id);
    if !s.stopping && index.Some? {
      var e, adapters := s.jobs[index.value], Adapters(s.installed, accepts);
      assert Spec.EntryHolds(e, s);
      RetryFailedKeeps(e, p, LedgerOf(s.log, e.job.id), adapters);
      RetryKeepsMark(e, p, adapters);
      FinishKeepsAwaiting(s, index.value, RetryFailedEntry(e, p, adapters), false);
    }
  }

  lemma ReuploadKeepsAwaiting(s: Spec.State, id: nat, accepts: Spec.Accepts)
    requires Spec.Inv(s)
    ensures AwaitingIds(Spec.Reupload(s, id, accepts).0.jobs) == AwaitingIds(s.jobs)
  {
    var index := Spec.IndexOf(s.jobs, id);
    if !s.stopping && index.Some? {
      var e, adapters := s.jobs[index.value], Adapters(s.installed, accepts);
      assert Spec.EntryHolds(e, s);
      ReuploadKeeps(e, LedgerOf(s.log, e.job.id), adapters);
      ReuploadKeepsMark(e, adapters);
      FinishKeepsAwaiting(s, index.value, ReuploadEntry(e, adapters), false);
    }
  }

  lemma RechatKeepsAwaiting(s: Spec.State, id: nat, accepts: Spec.Accepts)
    requires Spec.Inv(s)
    ensures AwaitingIds(Spec.Rechat(s, id, accepts).0.jobs) == AwaitingIds(s.jobs)
  {
    var index := Spec.IndexOf(s.jobs, id);
    if !s.stopping && index.Some? {
      var e, adapters := s.jobs[index.value], Adapters(s.installed, accepts);
      assert Spec.EntryHolds(e, s);
      RechatKeeps(e, LedgerOf(s.log, e.job.id), adapters);
      RechatKeepsMark(e, adapters);
      FinishKeepsAwaiting(s, index.value, RechatEntry(e, adapters), false);
    }
  }

  lemma VisitKeepsAwaiting(at: Spec.Progress, k: nat, budget: nat, now: nat, accepts: nat -> Spec.Accepts)
    requires k < 4 * |at.state.jobs| && Spec.Core(at.state) && !at.state.stopping
    ensures AwaitingIds(Spec.Visit(at, k, budget, now, accepts).state.jobs) == AwaitingIds(at.state.jobs)
  {
    var s, p := at.state, Spec.NthProvider(k);
    var e := s.jobs[k / 4];
    if at.count < budget && Due(e, p, now) {
      var adapters := Adapters(s.installed, accepts(e.job.id));
      assert Spec.EntryHolds(e, s);
      DueKeeps(e, p, LedgerOf(s.log, e.job.id), adapters);
      MetadataStaysSettled(e, p, adapters);
      UpdateKeepsAwaiting(s.jobs, k / 4, DispatchEntry(e, p, adapters).entry);
    }
  }

  lemma VisitsKeepAwaiting(s: Spec.State, k: nat, budget: nat, now: nat, accepts: nat -> Spec.Accepts)
    requires Spec.Core(s) && !s.stopping && k <= 4 * |s.jobs|
    ensures AwaitingIds(Spec.Visits(s, k, budget, now, accepts).state.jobs) == AwaitingIds(s.jobs)
  {
    var keeps := (at: Spec.Progress) => Spec.Onward(s, at, budget) && AwaitingIds(at.state.jobs) == AwaitingIds(s.jobs);
    forall at: Spec.Progress, i: nat | i < 4 * |at.state.jobs| && keeps(at) ensures keeps(Spec.Visit(at, i, budget, now, accepts)) {
      Spec.VisitKeepsCore(s, at, i, budget, now, accepts);
      VisitKeepsAwaiting(at, i, budget, now, accepts);
    }
    Spec.VisitsKeep(s, k, budget, now, accepts, keeps);
  }

  lemma RestoreKeepsAwaiting(s: Spec.State, records: seq<Record>)
    ensures AwaitingIds(Spec.RestoreHistory(s, records).0.jobs) == AwaitingIds(s.jobs)
  {
    if Spec.RestoreHistory(s, records).1.None? {
      Spec.RestoredJobsHold(records[Spec.Excess(|records|, s.limit)..]);
    }
  }

  /** Whatever else is called on the coordinator, the jobs waiting for the parser stay the same,
      as long as the coordinator runs. */
  lemma OtherCallsKeepAwaiting(s: Spec.State, step: Spec.Step)
    requires Spec.Inv(s) && LeavesMetadata(step) && !Spec.Apply(s, step).stopping
    ensures AwaitingIds(Spec.Apply(s, step).jobs) == AwaitingIds(s.jobs)
  {
    match step
    case ApplyingResult(result, now, accepts) => ApplyResultKeepsAwaiting(s, result, now, accepts);
    case DispatchingDue(budget, now, answers) =>
      if !s.stopping {
        VisitsKeepAwaiting(s, 4 * |s.jobs|, budget, now, answers);
        Spec.VisitsKeepCore(s, 4 * |s.jobs|, budget, now, answers);
        TrimKeepsAwaiting(Spec.Visits(s, 4 * |s.jobs|, budget, now, answers).state.jobs, s.limit);
      }
    case Restoring(records) => RestoreKeepsAwaiting(s, records);
    case Limiting(limit) => TrimKeepsAwaiting(s.jobs, limit);
    case Cancelling =>
    case Retrying(id, p, accepts) => RetryKeepsAwaiting(s, id, p, accepts);
    case Reuploading(id, accepts) => ReuploadKeepsAwaiting(s, id, accepts);
    case Rechatting(id, accepts) => RechatKeepsAwaiting(s, id, accepts);
  }

  // ---------------------------------------------------------------- whole runs

  datatype Step =
    | Submitting(file: LogFile, now: int, enabled: PerProvider<bool>, capacity: Option<nat>, admitted: bool)
    | Handling(id: nat, parsed: Parsed, accepts: Spec.Accepts)
    | Calling(step: Spec.Step)
    | Stopping

  function Apply(g: Ingestion, step: Step): Ingestion {
    match step
    case Submitting(file, now, enabled, capacity, admitted) => Submitted(g, file, now, enabled, capacity, admitted).0
    case Handling(id, parsed, accepts) => Handled(g, id, parsed, accepts).0
    case Calling(call) => g.(uploads := Spec.Apply(g.uploads, call))
    case Stopping => Stopped(g)
  }

  predicate Permitted(step: Step) {
    step.Calling? ==> LeavesMetadata(step.step)
  }

  function After(g: Ingestion, steps: seq<Step>): Ingestion {
    if steps == [] then g else Apply(After(g, steps[..|steps| - 1]), steps[|steps| - 1])
  }

  /** How many results of the run were refused. */
  function Rejections(g: Ingestion, steps: seq<Step>): nat {
    if steps == [] then 0
    else
      var before, last := steps[..|steps| - 1], steps[|steps| - 1];
      var refused := last.Handling? && Handled(After(g, before), last.id, last.parsed, last.accepts).1.Some?;
      Rejections(g, before) + if refused then 1 else 0
  }

  lemma AfterOneMore(g: Ingestion, steps: seq<Step>, step: Step)
    ensures Rejections(g, steps + [step]) == Rejections(g, steps) +
              (if step.Handling? && Handled(After(g, steps), step.id, step.parsed, step.accepts).1.Some? then 1 else 0)
    ensures After(g, steps + [step]) == Apply(After(g, steps), step)
  {
    assert (steps + [step])[..|steps|] == steps;
  }

  function Fresh(installed: PerProvider<bool>, limit: nat): Ingestion {
    Ingestion(Spec.Fresh(installed, limit), {}, false, [])
  }

  /** An admission that the parser refuses after all still leaves a settled, deduplicating job,
      and settling it cannot fail. */
  lemma SubmitKeepsInv(g: Ingestion, file: LogFile, now: int, enabled: PerProvider<bool>, capacity: Option<nat>, admitted: bool)
    requires Inv(g)
    ensures var (h, result) := Submitted(g, file, now, enabled, capacity, admitted);
            && Inv(h)
            && (result.Err? ==> h == g)
            && (result.Ok? ==> result.value == Spec.Next(g.uploads) && h.pending == g.pending + (if admitted then {result.value} else {})
                               && result.value !in g.pending && result.value !in g.applied && h.applied == g.applied)
  {
    if !g.stopping && capacity.Some? && capacity.value > 0 {
      var (t, added) := Spec.AddPending(g.uploads, file, now, enabled);
      Spec.AddPendingKeepsInv(g.uploads, file, now, enabled);
      AddPendingAwaits(g.uploads, file, now, enabled);
      if added.Ok? && !admitted {
        DeliveryEndsTheWait(t, added.value, Unknown(false), PerProvider(false, false, false, false));
        assert Deliver(t, added.value, Unknown(false), PerProvider(false, false, false, false)) == Spec.FailMetadata(t, added.value, false);
        assert added.value !in g.pending;
        assert g.pending + {added.value} - {added.value} == g.pending;
      }
    }
  }

  lemma HandleKeepsInv(g: Ingestion, id: nat, parsed: Parsed, accepts: Spec.Accepts)
    requires Inv(g)
    ensures Inv(Handled(g, id, parsed, accepts).0)
  {
    if !g.stopping && id in g.pending {
      if g.uploads.stopping {
        assert Deliver(g.uploads, id, parsed, accepts).0 == g.uploads;
      } else {
        DeliveryEndsTheWait(g.uploads, id, parsed, accepts);
      }
    }
  }

  lemma CallKeepsInv(g: Ingestion, call: Spec.Step)
    requires Inv(g) && LeavesMetadata(call)
    ensures Inv(g.(uploads := Spec.Apply(g.uploads, call)))
  {
    Spec.StepKeepsInv(g.uploads, call);
    Spec.StepGrowsHistory(g.uploads, call);
    if !Spec.Apply(g.uploads, call).stopping {
      OtherCallsKeepAwaiting(g.uploads, call);
    }
  }

  lemma StepKeepsInv(g: Ingestion, step: Step)
    requires Inv(g) && Permitted(step)
    ensures Inv(Apply(g, step))
  {
    match step
    case Submitting(file, now, enabled, capacity, admitted) => SubmitKeepsInv(g, file, now, enabled, capacity, admitted);
    case Handling(id, parsed, accepts) => HandleKeepsInv(g, id, parsed, accepts);
    case Calling(call) => CallKeepsInv(g, call);
    case Stopping =>
      Spec.CancelAllKeepsInv(g.uploads);
      Spec.StepGrowsHistory(g.uploads, Spec.Cancelling);
  }

  lemma {:induction false} RunKeepsInv(g: Ingestion, steps: seq<Step>)
    requires Inv(g) && forall k :: 0 <= k < |steps| ==> Permitted(steps[k])
    ensures Inv(After(g, steps))
  {
    if steps != [] {
      RunKeepsInv(g, steps[..|steps| - 1]);
      StepKeepsInv(After(g, steps[..|steps| - 1]), steps[|steps| - 1]);
    }
  }

  /** Ingestion agreement, in every reachable state: the pending set is exactly the retained
      jobs that wait for the parser; none of them has metadata or a destination that moved; no
      result was applied twice or is still awaited; and the next result for a pending job is
      applied, whatever the adapters answer. */
  lemma IngestionAgrees(installed: PerProvider<bool>, limit: nat, steps: seq<Step>)
    requires 1 <= limit <= Spec.MAX_HISTORY_LIMIT
    requires forall k :: 0 <= k < |steps| ==> Permitted(steps[k])
    ensures var g := After(Fresh(installed, limit), steps);
            && (!g.uploads.stopping ==> g.pending == AwaitingIds(g.uploads.jobs))
            && (forall i :: 0 <= i < |g.uploads.jobs| && !g.uploads.stopping && g.uploads.jobs[i].job.id in g.pending ==>
                  AwaitsMetadata(g.uploads.jobs[i]))
            && (forall j, k :: 0 <= j < k < |g.applied| ==> g.applied[j] != g.applied[k])
            && (forall id :: id in g.pending ==> id !in g.applied)
  {
    var g := After(Fresh(installed, limit), steps);
    Spec.FreshSatisfiesInv(installed, limit);
    RunKeepsInv(Fresh(installed, limit), steps);
    forall i | 0 <= i < |g.uploads.jobs| && !g.uploads.stopping && g.uploads.jobs[i].job.id in g.pending
      ensures AwaitsMetadata(g.uploads.jobs[i])
    {
      var j := PendingJobIsRetained(g.uploads, g.uploads.jobs[i].job.id);
      assert i == j;
    }
  }

  /** Exactly the awaited results get through, once. */
  lemma ResultIsAppliedIffAwaited(g: Ingestion, id: nat, parsed: Parsed, accepts: Spec.Accepts)
    requires Inv(g) && !g.uploads.stopping
    ensures var (h, error) := Handled(g, id, parsed, accepts);
            && (id in AwaitingIds(g.uploads.jobs) <==> h.applied == g.applied + [id])
            && (id in AwaitingIds(g.uploads.jobs) ==>
                  h.uploads == Deliver(g.uploads, id, parsed, accepts).0
                  && AwaitingIds(h.uploads.jobs) == AwaitingIds(g.uploads.jobs) - {id}
                  && error != Some(Coordinator(UnknownJob)) && error != Some(Coordinator(MetadataNotPending))
                  && Handled(h, id, parsed, accepts) == (h, Some(IngestionError.UnexpectedResult)))
            && (id !in AwaitingIds(g.uploads.jobs) ==> h == g && error == Some(IngestionError.UnexpectedResult))
  {
    if id in AwaitingIds(g.uploads.jobs) {
      DeliveryEndsTheWait(g.uploads, id, parsed, accepts);
    } else {
      assert |g.applied + [id]| != |g.applied|;
    }
  }

  // ---------------------------------------------------------------- what becomes of a log

  /** A log is refused while stopping, and if the parser panics or is full; otherwise the coordinator
      decides, and its refusal is passed on. A refused log leaves no trace. */
  lemma LogIsRefusedIff(g: Ingestion, file: LogFile, now: int, enabled: PerProvider<bool>, capacity: Option<nat>, admitted: bool)
    requires Inv(g)
    ensures var (h, result) := Submitted(g, file, now, enabled, capacity, admitted);
            && (g.stopping ==> result == Err(IngestionError.ShuttingDown))
            && (!g.stopping && capacity.None? ==> result == Err(ParserPanicked))
            && (!g.stopping && capacity == Some(0) ==> result == Err(ParserFull))
            && (!g.stopping && capacity.Some? && capacity.value > 0 ==>
                  var added := Spec.AddPending(g.uploads, file, now, enabled).1;
                  if added.Err? then result == Err(Coordinator(added.error)) else result == Ok(added.value))
            && (result.Err? ==> h == g)
  {
    if !g.stopping && capacity.Some? && capacity.value > 0 && !admitted {
      var (uploads, added) := Spec.AddPending(g.uploads, file, now, enabled);
      if added.Ok? {
        Spec.AddPendingKeepsInv(g.uploads, file, now, enabled);
        AddPendingAwaits(g.uploads, file, now, enabled);
        DeliveryEndsTheWait(uploads, added.value, Unknown(false), PerProvider(false, false, false, false));
      }
    }
  }

  /** A log that the parser takes is retained as a new job that waits for it, and so is known to be. */
  lemma TakenLogWaits(g: Ingestion, file: LogFile, now: int, enabled: PerProvider<bool>, capacity: Option<nat>)
    requires Inv(g) && Submitted(g, file, now, enabled, capacity, true).1.Ok?
    ensures var (h, id) := Submitted(g, file, now, enabled, capacity, true);
            var jobs := h.uploads.jobs;
            && h.pending == g.pending + {id.value} && h.uploads.log == g.uploads.log
            && jobs != [] && IsNew(jobs[|jobs| - 1], id.value, file, now, enabled)
  {
    var k := NewJobIsAsSelected(g.uploads, file, now, enabled);
  }

  /** Every selected destination has failed, and nothing else happened to the new job. */
  ghost predicate HasFailed(e: Entry, id: nat, file: LogFile, enabled: PerProvider<bool>) {
    && e.job.id == id && e.job.record.file == file && !e.metadataPending
    && forall p: Provider :: e.State(p) == (if enabled.At(p) then Failed else Disabled) && e.job.Attempts(p) == 0
  }

  /** A log that the parser does not take after all counts as failed at once, with nothing sent: if it is
      retained, as a job that has failed. */
  lemma UntakenLogFails(g: Ingestion, file: LogFile, now: int, enabled: PerProvider<bool>, capacity: Option<nat>, e: Entry)
    requires Inv(g) && Submitted(g, file, now, enabled, capacity, false).1.Ok?
    requires e in Submitted(g, file, now, enabled, capacity, false).0.uploads.jobs
    ensures var (h, id) := Submitted(g, file, now, enabled, capacity, false);
            && h.pending == g.pending && h.uploads.log == g.uploads.log
            && (e.job.id == id.value ==> HasFailed(e, id.value, file, enabled)) && (e.job.id != id.value ==> e in g.uploads.jobs)
  {
    var (uploads, added) := Spec.AddPending(g.uploads, file, now, enabled);
    var k := NewJobIsAsSelected(g.uploads, file, now, enabled);
    Spec.AddPendingKeepsInv(g.uploads, file, now, enabled);
    var failed := NewestFails(uploads, added.value, file, now, enabled);
    if e != failed {
      KeptIsOld(g.uploads.jobs, k, uploads.jobs, e);
    }
    if e in g.uploads.jobs {
      OldIdsAreLess(g.uploads, e, added.value);
    }
  }

  lemma OldIdsAreLess(s: Spec.State, e: Entry, id: nat)
    requires Spec.Inv(s) && e in s.jobs && s.nextId == Some(id)
    ensures e.job.id != id
  {
  }

  /** The newest job, as soon as it has failed. */
  lemma NewestFails(s: Spec.State, id: nat, file: LogFile, now: int, enabled: PerProvider<bool>) returns (failed: Entry)
    requires Spec.Inv(s) && !s.stopping && s.jobs != [] && IsNew(s.jobs[|s.jobs| - 1], id, file, now, enabled)
    ensures HasFailed(failed, id, file, enabled)
    ensures var (t, error) := Spec.FailMetadata(s, id, false);
            error.None? && t.log == s.log && forall e :: e in t.jobs ==> e == failed || (e in s.jobs && e.job.id != id)
  {
    var i := |s.jobs| - 1;
    assert Spec.EntryHolds(s.jobs[i], s);
    FreshJobFails(s.jobs[i], id, file, now, enabled);
    failed := FailMetadataEntry(s.jobs[i], false).entry;
    assert Spec.IndexOf(s.jobs, id) == Some(i);
    ReplacedMembers(s.jobs, i, failed, Spec.Excess(|s.jobs|, s.limit));
  }

  lemma FreshJobFails(begun: Entry, id: nat, file: LogFile, now: int, enabled: PerProvider<bool>)
    requires IsNew(begun, id, file, now, enabled) && AwaitsMetadata(begun)
    ensures HasFailed(FailMetadataEntry(begun, false).entry, id, file, enabled) && FailMetadataEntry(begun, false).events == []
  {
    FailMetadataEffect(begun, false);
    var failed := FailMetadataEntry(begun, false).entry;
    forall p: Provider ensures failed.State(p) == (if enabled.At(p) then Failed else Disabled) && failed.job.Attempts(p) == 0 {
      assert begun.State(p) == (if enabled.At(p) then Waiting else Disabled);
      match p case DpsReport => case Wingman => case DonBot => case Twitch =>
    }
  }

  lemma KeptIsOld(jobs: seq<Entry>, k: nat, after: seq<Entry>, e: Entry)
    requires k <= |jobs| && after != [] && after[..|after| - 1] == Spec.BusyOnly(jobs[..k]) + jobs[k..]
    requires e in after && e != after[|after| - 1]
    ensures e in jobs
  {
    var i :| 0 <= i < |after| && after[i] == e;
    assert after[..|after| - 1][i] == e;
    BusyOnlyMembers(jobs[..k], e);
  }

  lemma {:induction false} BusyOnlyMembers(jobs: seq<Entry>, e: Entry)
    ensures e in Spec.BusyOnly(jobs) ==> e in jobs
  {
    if jobs != [] {
      BusyOnlyMembers(jobs[1..], e);
    }
  }

  /** The parser's answer reaches the very job it is about, as it came: its metadata, or its failure or
      cancellation; the answer is passed on to nobody else. */
  lemma AnswerReachesItsJob(g: Ingestion, i: nat, parsed: Parsed, accepts: Spec.Accepts)
    requires Inv(g) && !g.stopping && !g.uploads.stopping && i < |g.uploads.jobs| && g.uploads.jobs[i].job.id in g.pending
    ensures var e := g.uploads.jobs[i];
            var (h, error) := Handled(g, e.job.id, parsed, accepts);
            var change := if parsed.Known? then SetMetadataEntry(e, parsed.metadata, Adapters(g.uploads.installed, accepts))
                          else FailMetadataEntry(e, parsed.cancelled);
            && Routed(g.uploads, (h.uploads, change.error), i, change, true) && h.pending == g.pending - {e.job.id}
            && error == (if change.error.Some? then Some(Coordinator(change.error.value)) else None)
  {
    var e := g.uploads.jobs[i];
    var j := PendingJobIsRetained(g.uploads, e.job.id);
    assert Spec.Increasing(g.uploads.jobs) && j == i;
    var result := UploadResult(e.job.id, DpsReport, 0, OutcomeFailed);
    CallsReachTheirJob(g.uploads, i, if parsed.Known? then parsed.metadata else Metadata(0, ""),
                       if parsed.Known? then false else parsed.cancelled, result, 0, DpsReport, accepts);
  }

  /** Once stopped the ingestion waits for nothing and takes nothing, logs or answers. */
  lemma StoppedIngestionRefuses(g: Ingestion, file: LogFile, now: int, enabled: PerProvider<bool>, capacity: Option<nat>, admitted: bool,
                                id: nat, parsed: Parsed, accepts: Spec.Accepts)
    ensures var h := Stopped(g);
            && (!g.stopping ==> h.stopping && h.pending == {} && h.uploads == Spec.CancelAll(g.uploads) && h.uploads.stopping)
            && (g.stopping ==> h == g) && Stopped(h) == h
            && Submitted(h, file, now, enabled, capacity, admitted) == (h, Err(IngestionError.ShuttingDown))
            && Handled(h, id, parsed, accepts) == (h, Some(IngestionError.ShuttingDown))
  {
  }

  // ---------------------------------------------------------------- the owner itself

  datatype ParserPoll = Took(id: nat, parsed: Parsed, accepts: Spec.Accepts) | Nothing | PortError

  datatype MetadataDrainSummary = MetadataDrainSummary(consumed: nat, rejected: nat, parserErrors: nat)

  class LogIngestionCoordinator {
    const uploads: UploadCoordinator.Coordinator
    var pending: set<nat>
    var stopping: bool
    ghost var applied: seq<nat>

    ghost function Now(): Ingestion
      reads this, uploads
    {
      Ingestion(uploads.Now(), pending, stopping, applied)
    }

    constructor (uploads: UploadCoordinator.Coordinator)
      ensures this.uploads == uploads && Now() == Ingestion(uploads.Now(), {}, false, [])
    {
      this.uploads, pending, stopping, applied := uploads, {}, false, [];
    }

    method Submit(file: LogFile, now: int, enabled: PerProvider<bool>, capacity: Option<nat>, admitted: bool)
      returns (result: Result<nat, IngestionError>)
      modifies this, uploads
      ensures (Now(), result) == Submitted(old(Now()), file, now, enabled, capacity, admitted)
    {
      if stopping {
        return Err(IngestionError.ShuttingDown);
      }
      if capacity.None? {
        return Err(ParserPanicked);
      }
      if capacity.value == 0 {
        return Err(ParserFull);
      }
      var added := uploads.AddPending(file, now, enabled);
      if added.Err? {
        Spec.AddPendingErrors(old(uploads.Now()), file, now, enabled);
        return Err(Coordinator(added.error));
      }
      if admitted {
        pending := pending + {added.value};
      } else {
        var error := uploads.FailMetadata(added.value, false);
        if error.Some? {
          return Err(Coordinator(error.value));
        }
      }
      return Ok(added.value);
    }

    method HandleResult(id: nat, parsed: Parsed, accepts: Spec.Accepts) returns (error: Option<IngestionError>)
      modifies this, uploads
      ensures (Now(), error) == Handled(old(Now()), id, parsed, accepts)
    {
      if stopping {
        return Some(IngestionError.ShuttingDown);
      }
      if id !in pending {
        return Some(IngestionError.UnexpectedResult);
      }
      pending := pending - {id};
      if !uploads.stopping {
        applied := applied + [id];
      }
      var refused: Option<CoordinatorError>;
      match parsed
      case Known(metadata) =>
        refused := uploads.SetMetadata(id, metadata, accepts);
        error := if refused.Some? then Some(Coordinator(refused.value)) else None;
      case Unknown(cancelled) =>
        refused := uploads.FailMetadata(id, cancelled);
        error := if refused.Some? then Some(Coordinator(refused.value)) else None;
    }

    /** One parser result, as the next step of the run; returns the rejections so far. */
    method TakeResult(id: nat, parsed: Parsed, accepts: Spec.Accepts, before: nat, ghost start: Ingestion, ghost steps: seq<Step>)
      returns (rejected: nat)
      requires Now() == After(start, steps) && before == Rejections(start, steps)
      modifies this, uploads
      ensures Now() == After(start, steps + [Handling(id, parsed, accepts)])
      ensures rejected == Rejections(start, steps + [Handling(id, parsed, accepts)])
    {
      AfterOneMore(start, steps, Handling(id, parsed, accepts));
      var error := HandleResult(id, parsed, accepts);
      rejected := before + if error.Some? then 1 else 0;
    }

    /** At most `budget` polls, ending at the first one without a result; each result taken is
        one step of the run. */
    method DrainMetadata(budget: nat, polls: nat -> ParserPoll) returns (summary: MetadataDrainSummary, ghost steps: seq<Step>)
      modifies this, uploads
      ensures Now() == After(old(Now()), steps)
      ensures |steps| == summary.consumed <= budget && summary.rejected == Rejections(old(Now()), steps)
      ensures forall k :: 0 <= k < |steps| ==> polls(k).Took? && steps[k] == Handling(polls(k).id, polls(k).parsed, polls(k).accepts)
      ensures old(stopping) ==> summary == MetadataDrainSummary(0, 0, 0)
      ensures summary.consumed < budget && !old(stopping) ==>
                !polls(summary.consumed).Took? && summary.parserErrors == (if polls(summary.consumed).PortError? then 1 else 0)
    {
      summary, steps := MetadataDrainSummary(0, 0, 0), [];
      if stopping {
        return;
      }
      for i := 0 to budget
        invariant Now() == After(old(Now()), steps)
        invariant |steps| == summary.consumed == i && summary.rejected == Rejections(old(Now()), steps) && summary.parserErrors == 0
        invariant forall k :: 0 <= k < |steps| ==> polls(k).Took? && steps[k] == Handling(polls(k).id, polls(k).parsed, polls(k).accepts)
      {
        var poll := polls(i);
        match poll
        case Took(id, parsed, accepts) =>
          var rejected := TakeResult(id, parsed, accepts, summary.rejected, old(Now()), steps);
          steps := steps + [Handling(id, parsed, accepts)];
          summary := MetadataDrainSummary(i + 1, rejected, 0);
        case Nothing => return;
        case PortError =>
          summary := summary.(parserErrors := 1);
          return;
      }
    }

    method CancelAll()
      modifies this, uploads
      ensures Now() == Stopped(old(Now()))
    {
      if stopping {
        return;
      }
      stopping := true;
      uploads.CancelAll();
      pending := {};
    }
  }
}
