/** The upload coordinator as the application owns it: its fields, updated in place, one method
    per call. Every method is tied to the state function of the same name. */
module UploadCoordinator {
  import opened Outcomes
  import opened LogFiles
  import opened UploadJobs
  import opened UploadLedger
  import opened UploadEntries
  import opened ResultDraining
  import Spec = CoordinatorSpec

  datatype ConstructionError = InvalidLimit | DuplicateProvider

  const ALL: seq<Provider> := [DpsReport, Wingman, DonBot, Twitch]

  class Coordinator {
    var installed: PerProvider<bool>
    var jobs: seq<Entry>
    var historyLimit: nat
    var nextId: Option<nat>
    var restored: bool
    var resultCursor: nat
    var stopping: bool
    ghost var restoredCount: nat
    ghost var log: seq<Event>

    ghost function Now(): Spec.State
      reads this
    {
      Spec.State(installed, jobs, historyLimit, nextId, restored, stopping, restoredCount, log)
    }

    constructor (installed: PerProvider<bool>, limit: nat)
      ensures Now() == Spec.Fresh(installed, limit) && resultCursor == 0
    {
      this.installed, jobs, historyLimit, nextId := installed, [], limit, Some(1);
      restored, resultCursor, stopping, restoredCount, log := false, 0, false, 0, [];
    }

    /** Installs at most one adapter per destination. */
    static method Create(providers: seq<Provider>, limit: nat)
      returns (result: Result<Coordinator, ConstructionError>)
      ensures result.Ok? <==> 1 <= limit <= Spec.MAX_HISTORY_LIMIT
                              && forall i, j :: 0 <= i < j < |providers| ==> providers[i] != providers[j]
      ensures result.Ok? ==>
                && fresh(result.value) && Spec.Inv(result.value.Now())
                && forall p: Provider :: result.value.installed.At(p) <==> p in providers
    {
      if limit == 0 || limit > Spec.MAX_HISTORY_LIMIT {
        return Err(InvalidLimit);
      }
      var slots := PerProvider(false, false, false, false);
      for i := 0 to |providers|
        invariant forall p: Provider :: slots.At(p) <==> p in providers[..i]
        invariant forall j, k :: 0 <= j < k < i ==> providers[j] != providers[k]
      {
        if slots.At(providers[i]) {
          return Err(DuplicateProvider);
        }
        ghost var before := slots;
        slots := slots.With(providers[i], true);
        forall p: Provider ensures slots.At(p) <==> p in providers[..i + 1] {
          assert slots.At(p) <==> before.At(p) || p == providers[i];
        }
      }
      assert providers[..|providers|] == providers;
      var coordinator := new Coordinator(slots, limit);
      Spec.FreshSatisfiesInv(slots, limit);
      return Ok(coordinator);
    }

    // ------------------------------------------------------------ steps within a call

    /** The domain transition on a stored job; a refused one leaves the job alone. */
    method Move(index: nat, p: Provider, next: ProviderState) returns (error: Option<CoordinatorError>)
      requires index < |jobs|
      modifies this`jobs
      ensures jobs == old(jobs)[index := Try(old(jobs)[index], p, next)]
      ensures var moved := Transition(old(jobs)[index].job, p, next);
              error == if moved.Ok? then None else Some(Domain(moved.error))
    {
      var moved := Transition(jobs[index].job, p, next);
      if moved.Err? {
        return Some(Domain(moved.error));
      }
      jobs := jobs[index := jobs[index].(job := moved.value)];
      return None;
    }

    method SettleWaitingDependents(index: nat, cancelled: bool)
      requires index < |jobs|
      modifies this`jobs
      ensures jobs == old(jobs)[index := SettleDependents(old(jobs)[index], cancelled)]
    {
      ghost var before := jobs[index];
      for k := 0 to |DEPENDENTS|
        invariant |jobs| == |old(jobs)|
        invariant jobs == old(jobs)[index := jobs[index]]
        invariant k == 0 ==> jobs[index] == before
        invariant k == 1 ==> jobs[index] == SettleDependent(before, Wingman, cancelled)
        invariant k == 2 ==> jobs[index] == SettleDependent(SettleDependent(before, Wingman, cancelled), DonBot, cancelled)
        invariant k == 3 ==> jobs[index] == SettleDependents(before, cancelled)
      {
        var p := DEPENDENTS[k];
        if !(p.Twitch? && jobs[index].reupload) && jobs[index].State(p).Waiting? {
          var ignored := Move(index, p, if cancelled then Cancelled else Skipped);
        }
      }
    }

    method FailDispatched(index: nat, p: Provider)
      requires index < |jobs|
      modifies this`jobs
      ensures jobs == old(jobs)[index := FailDispatch(old(jobs)[index], p)]
    {
      var ignored := Move(index, p, Failed);
      if p.DpsReport? {
        SettleWaitingDependents(index, false);
      }
    }

    method RequireDispatchable(index: nat, p: Provider) returns (error: Option<CoordinatorError>)
      requires index < |jobs|
      ensures error == if jobs[index].job.record.metadata.None? then Some(Domain(EncounterMetadataRequired))
                       else if !installed.At(p) then Some(MissingProvider)
                       else DependencyError(jobs[index], p)
    {
      if jobs[index].job.record.metadata.None? {
        return Some(Domain(EncounterMetadataRequired));
      }
      if !installed.At(p) {
        return Some(MissingProvider);
      }
      return DependencyError(jobs[index], p);
    }

    /** Makes the attempt active, if nothing is in its way. */
    method Activate(index: nat, p: Provider) returns (error: Option<CoordinatorError>)
      requires index < |jobs|
      modifies this`jobs
      ensures var admitted := Admit(old(jobs)[index], p, installed);
              if admitted.Err? then error == Some(admitted.error) && jobs == old(jobs)
              else error.None? && jobs == old(jobs)[index := old(jobs)[index].(job := admitted.value)]
    {
      error := RequireDispatchable(index, p);
      if error.None? {
        error := Move(index, p, Active);
      }
    }

    /** An active attempt goes to the adapter, which may refuse it. */
    method HandOver(index: nat, p: Provider, accepts: Spec.Accepts) returns (error: Option<CoordinatorError>)
      requires index < |jobs|
      modifies this`jobs, this`log
      ensures var active := old(jobs)[index];
              if accepts.At(p)
              then error.None? && Now() == Spec.Store(old(Now()), index, Change(active, [Request(active, p)], None))
              else error == Some(CoordinatorError.Dispatch)
                   && Now() == Spec.Store(old(Now()), index,
                                          Change(FailDispatch(active, p),
                                                 [Request(active, p), Settled(active.job.id, p, active.job.Attempts(p))], error))
    {
      log := log + [Request(jobs[index], p)];
      if !accepts.At(p) {
        log := log + [Settled(jobs[index].job.id, p, jobs[index].job.Attempts(p))];
        FailDispatched(index, p);
        return Some(CoordinatorError.Dispatch);
      }
      return None;
    }

    /** Offers one request to the destination's adapter. */
    method Dispatch(index: nat, p: Provider, accepts: Spec.Accepts) returns (error: Option<CoordinatorError>)
      requires index < |jobs|
      modifies this`jobs, this`log
      ensures var change := DispatchEntry(old(jobs)[index], p, Adapters(installed, accepts));
              error == change.error && Now() == Spec.Store(old(Now()), index, change)
    {
      if p.Wingman? && jobs[index].job.Wvw() {
        error := Move(index, Wingman, Skipped);
        return;
      }
      error := Activate(index, p);
      if error.Some? {
        FailDispatched(index, p);
        return;
      }
      error := HandOver(index, p, accepts);
    }

    method DispatchIfWaiting(index: nat, p: Provider, accepts: Spec.Accepts) returns (error: Option<CoordinatorError>)
      requires index < |jobs|
      modifies this`jobs, this`log
      ensures var change := DispatchWaiting(old(jobs)[index], p, Adapters(installed, accepts));
              error == change.error && Now() == Spec.Store(old(Now()), index, change)
    {
      error := None;
      if jobs[index].State(p).Waiting? {
        error := Dispatch(index, p, accepts);
      }
    }

    method FirstIdle() returns (index: Option<nat>)
      ensures index.Some? ==> index.value < |jobs| && !jobs[index.value].Busy()
                              && forall i :: 0 <= i < index.value ==> jobs[i].Busy()
      ensures index.None? ==> Spec.AllBusy(jobs)
    {
      for i := 0 to |jobs|
        invariant forall k :: 0 <= k < i ==> jobs[k].Busy()
      {
        if !jobs[i].Busy() {
          return Some(i);
        }
      }
      return None;
    }

    method TrimTo(limit: nat)
      modifies this`jobs
      ensures jobs == Spec.TrimJobs(old(jobs), limit)
    {
      while |jobs| > limit
        invariant Spec.TrimJobs(jobs, limit) == Spec.TrimJobs(old(jobs), limit)
        decreases |jobs|
      {
        var index := FirstIdle();
        if index.None? {
          NothingToTrim(jobs, Spec.Excess(|jobs|, limit));
          return;
        }
        RemoveFirstIdle(jobs, index.value, Spec.Excess(|jobs|, limit));
        jobs := jobs[..index.value] + jobs[index.value + 1..];
      }
    }

    // ------------------------------------------------------------ calls

    method AddPending(file: LogFile, now: int, enabled: PerProvider<bool>) returns (result: Result<nat, CoordinatorError>)
      modifies this
      ensures (Now(), result) == Spec.AddPending(old(Now()), file, now, enabled)
      ensures resultCursor == old(resultCursor)
    {
      if stopping {
        return Err(ShuttingDown);
      }
      if !Spec.HasAll(installed, enabled) {
        return Err(MissingProvider);
      }
      if nextId.None? {
        return Err(JobIdExhausted);
      }
      var id := nextId.value;
      var job := UploadJobs.Create(id, file, now, enabled);
      if job.Err? {
        return Err(Domain(job.error));
      }
      var busy := 0;
      for i := 0 to |jobs|
        invariant busy + Spec.BusyCount(jobs[i..]) == Spec.BusyCount(jobs)
      {
        assert jobs[i..][1..] == jobs[i + 1..];
        busy := busy + if jobs[i].Busy() then 1 else 0;
      }
      if busy >= historyLimit {
        return Err(CapacityReached);
      }
      TrimTo(historyLimit - 1);
      jobs := jobs + [NewEntry(job.value, true)];
      nextId := if id < Spec.MAX_JOB_ID then Some(id + 1) else None;
      return Ok(id);
    }

    method SetMetadata(id: nat, metadata: Metadata, accepts: Spec.Accepts) returns (error: Option<CoordinatorError>)
      modifies this`jobs, this`log
      ensures (Now(), error) == Spec.SetMetadata(old(Now()), id, metadata, accepts)
    {
      if stopping {
        return Some(ShuttingDown);
      }
      var found := Spec.IndexOf(jobs, id);
      if found.None? {
        return Some(UnknownJob);
      }
      var index := found.value;
      if !AwaitsMetadata(jobs[index]) {
        return Some(MetadataNotPending);
      }
      jobs := jobs[index := KnownEntry(jobs[index], metadata)];
      if jobs[index].State(Wingman).Waiting? && jobs[index].job.Wvw() {
        var ignored := Move(index, Wingman, Skipped);
      }
      assert jobs == old(jobs)[index := RoutedEntry(old(jobs)[index], metadata)];
      StoringTwice(old(Now()), index, jobs[index], SetMetadataEntry(old(jobs)[index], metadata, Adapters(installed, accepts)));
      error := Start(index, accepts);
      TrimTo(historyLimit);
    }

    method Start(index: nat, accepts: Spec.Accepts) returns (error: Option<CoordinatorError>)
      requires index < |jobs|
      modifies this`jobs, this`log
      ensures var change := StartEntry(old(jobs)[index], Adapters(installed, accepts));
              error == change.error && Now() == Spec.Store(old(Now()), index, change)
    {
      if jobs[index].State(DpsReport).Waiting? {
        error := Dispatch(index, DpsReport, accepts);
      } else {
        error := DispatchIfWaiting(index, Wingman, accepts);
        var donbot := DispatchIfWaiting(index, DonBot, accepts);
        error := if error.Some? then error else donbot;
      }
    }

    method FailMetadata(id: nat, cancelled: bool) returns (error: Option<CoordinatorError>)
      modifies this`jobs
      ensures (Now(), error) == Spec.FailMetadata(old(Now()), id, cancelled)
    {
      if stopping {
        return Some(ShuttingDown);
      }
      var found := Spec.IndexOf(jobs, id);
      if found.None? {
        return Some(UnknownJob);
      }
      var index := found.value;
      if !AwaitsMetadata(jobs[index]) {
        return Some(MetadataNotPending);
      }
      jobs := jobs[index := jobs[index].(metadataPending := false)];
      ghost var known := jobs[index];
      for k := 0 to |ALL|
        invariant |jobs| == |old(jobs)| && jobs == old(jobs)[index := jobs[index]]
        invariant k == 0 ==> jobs[index] == known
        invariant k == 1 ==> jobs[index] == FailWaiting(known, DpsReport, cancelled)
        invariant k == 2 ==> jobs[index] == FailWaiting(FailWaiting(known, DpsReport, cancelled), Wingman, cancelled)
        invariant k == 3 ==> jobs[index] == FailWaiting(FailWaiting(FailWaiting(known, DpsReport, cancelled), Wingman, cancelled), DonBot, cancelled)
        invariant k == 4 ==> jobs[index] == FailMetadataEntry(old(jobs)[index], cancelled).entry
      {
        if jobs[index].State(ALL[k]).Waiting? {
          var ignored := Move(index, ALL[k], if cancelled then Cancelled else Failed);
        }
      }
      assert old(log) + [] == log;
      TrimTo(historyLimit);
      return None;
    }

    method ApplyResult(result: UploadResult, now: nat, accepts: Spec.Accepts) returns (error: Option<CoordinatorError>)
      modifies this`jobs, this`log
      ensures (Now(), error) == Spec.ApplyResult(old(Now()), result, now, accepts)
    {
      if stopping {
        return Some(ShuttingDown);
      }
      var found := Spec.IndexOf(jobs, result.job);
      if found.None? {
        return Some(UnknownJob);
      }
      var index, p := found.value, result.provider;
      if !jobs[index].State(p).Active? || jobs[index].job.Attempts(p) != result.attempt {
        return Some(UnexpectedResult);
      }
      // Receipt validation and transition work on a copy until both have succeeded.
      var evaluated := Evaluate(jobs[index].job, p, result.outcome, now);
      if evaluated.Err? {
        return Some(evaluated.error);
      }
      var (job, next) := evaluated.value;
      if !(p.DpsReport? && next.Succeeded?) {
        var moved := Transition(job, p, next);
        if moved.Err? {
          return Some(Domain(moved.error));
        }
        job := moved.value;
      }
      log := log + [Answer(jobs[index], p, next)];
      jobs := jobs[index := jobs[index].(job := job)];
      ghost var change := ApplyResultEntry(old(jobs)[index], result, now, Adapters(installed, accepts));
      StoringTwice(old(Now()), index, jobs[index], change);
      if p.DpsReport? {
        assert log[..|log| - 1] == old(log);
        ConcludeReport(index, next, accepts);
      }
      assert Now() == Spec.Store(old(Now()), index, change);
      TrimTo(historyLimit);
      return None;
    }

    /** A dps.report answer reaches the dependents. */
    method ConcludeReport(index: nat, next: ProviderState, accepts: Spec.Accepts)
      requires index < |jobs| && log != []
      modifies this`jobs, this`log
      ensures var answer := old(log)[|old(log)| - 1];
              Now() == Spec.Store(old(Now()).(log := old(log)[..|old(log)| - 1]), index,
                                  ReportAnswered(old(jobs)[index], answer, next, Adapters(installed, accepts)))
    {
      ghost var before := Now();
      if next.Succeeded? {
        FanOutReport(index, accepts);
      } else if !next.RetryScheduled? {
        SettleWaitingDependents(index, next.Cancelled?);
      }
      ghost var n := |before.log| - 1;
      assert before.log == before.log[..n] + [before.log[n]];
    }

    method FanOutReport(index: nat, accepts: Spec.Accepts)
      requires index < |jobs|
      modifies this`jobs, this`log
      ensures Now() == Spec.Store(old(Now()), index, FanOut(old(jobs)[index], Adapters(installed, accepts)))
    {
      ghost var before, adapters := jobs[index], Adapters(installed, accepts);
      var wingman := DispatchIfWaiting(index, Wingman, accepts);
      ghost var first := DispatchWaiting(before, Wingman, adapters);
      var donbot := DispatchIfWaiting(index, DonBot, accepts);
      ghost var second := Then(first, DispatchWaiting(first.entry, DonBot, adapters));
      assert Now() == Spec.Store(old(Now()), index, second);
      MetadataStaysSettled(before, Wingman, adapters);
      MetadataStaysSettled(first.entry, DonBot, adapters);
      if !jobs[index].reupload {
        var twitch := DispatchIfWaiting(index, Twitch, accepts);
      }
    }

    /** One visit: the count of dispatches afterwards. */
    method DispatchIfDue(index: nat, provider: nat, count: nat, budget: nat, now: nat, accepts: nat -> Spec.Accepts, ghost k: nat)
      returns (dispatched: nat)
      requires index < |jobs| && provider < 4 && count < budget && k == 4 * index + provider
      modifies this`jobs, this`log
      ensures |jobs| == |old(jobs)|
      ensures Spec.Progress(Now(), dispatched) == Spec.Visit(Spec.Progress(old(Now()), count), k, budget, now, accepts)
    {
      assert k / 4 == index && k % 4 == provider && ALL[provider] == Spec.NthProvider(k);
      dispatched := count;
      if Due(jobs[index], ALL[provider], now) {
        var ignored := Dispatch(index, ALL[provider], accepts(jobs[index].job.id));
        dispatched := count + 1;
      }
    }

    /** The next visit of a run of visits from `before`. */
    method NextVisit(index: nat, provider: nat, count: nat, budget: nat, now: nat, accepts: nat -> Spec.Accepts,
                     ghost before: Spec.State, ghost k: nat)
      returns (dispatched: nat)
      requires index < |jobs| == |before.jobs| && provider < 4 && count < budget && k == 4 * index + provider
      requires Spec.Progress(Now(), count) == Spec.Visits(before, k, budget, now, accepts)
      modifies this`jobs, this`log
      ensures |jobs| == |before.jobs|
      ensures Spec.Progress(Now(), dispatched) == Spec.Visits(before, k + 1, budget, now, accepts)
    {
      ghost var reached := Spec.Visits(before, k, budget, now, accepts);
      assert Spec.Visits(before, k + 1, budget, now, accepts) == Spec.Visit(reached, k, budget, now, accepts);
      dispatched := DispatchIfDue(index, provider, count, budget, now, accepts, k);
    }

    /** The four destinations of one job, as far as the budget goes. */
    method DispatchDueOf(index: nat, count: nat, budget: nat, now: nat, accepts: nat -> Spec.Accepts, ghost before: Spec.State)
      returns (dispatched: nat, ghost k: nat)
      requires index < |jobs| == |before.jobs| && count < budget
      requires Spec.Progress(Now(), count) == Spec.Visits(before, 4 * index, budget, now, accepts)
      modifies this`jobs, this`log
      ensures |jobs| == |before.jobs| && k <= 4 * (index + 1) && (dispatched < budget ==> k == 4 * (index + 1))
      ensures Spec.Progress(Now(), dispatched) == Spec.Visits(before, k, budget, now, accepts)
    {
      dispatched, k := count, 4 * index;
      for provider := 0 to 4
        invariant |jobs| == |before.jobs| && k == 4 * index + provider && dispatched < budget
        invariant Spec.Progress(Now(), dispatched) == Spec.Visits(before, k, budget, now, accepts)
      {
        dispatched := NextVisit(index, provider, dispatched, budget, now, accepts, before, k);
        k := k + 1;
        if dispatched >= budget {
          return;
        }
      }
    }

    method DispatchDueRetries(budget: nat, now: nat, accepts: nat -> Spec.Accepts) returns (dispatched: nat)
      modifies this`jobs, this`log
      ensures (Now(), dispatched) == Spec.DispatchDueRetries(old(Now()), budget, now, accepts)
    {
      if stopping {
        return 0;
      }
      dispatched := VisitAll(budget, now, accepts);
      TrimTo(historyLimit);
    }

    /** Job by job, as far as the budget goes. */
    method VisitAll(budget: nat, now: nat, accepts: nat -> Spec.Accepts) returns (dispatched: nat)
      modifies this`jobs, this`log
      ensures Spec.Progress(Now(), dispatched) == Spec.Visits(old(Now()), 4 * |old(jobs)|, budget, now, accepts)
    {
      dispatched := 0;
      ghost var before := Now();
      ghost var k: nat := 0;
      var index := 0;
      while index < |jobs| && dispatched < budget
        invariant |jobs| == |before.jobs| && index <= |jobs| && k <= 4 * |jobs|
        invariant dispatched < budget ==> k == 4 * index
        invariant Spec.Progress(Now(), dispatched) == Spec.Visits(before, k, budget, now, accepts)
      {
        dispatched, k := DispatchDueOf(index, dispatched, budget, now, accepts, before);
        index := index + 1;
      }
      if k < 4 * |before.jobs| {
        Spec.VisitsSaturate(before, k, 4 * |before.jobs|, budget, now, accepts);
      }
    }

    method RetryFailed(id: nat, p: Provider, accepts: Spec.Accepts) returns (error: Option<CoordinatorError>)
      modifies this`jobs, this`log
      ensures (Now(), error) == Spec.RetryFailed(old(Now()), id, p, accepts)
    {
      if stopping {
        return Some(ShuttingDown);
      }
      var found := Spec.IndexOf(jobs, id);
      if found.None? {
        return Some(UnknownJob);
      }
      var index := found.value;
      error := RequireDispatchable(index, p);
      StoringNothing(Now(), index);
      if error.Some? {
        return;
      }
      var job := PrepareRetry(jobs[index], p);
      if job.Err? {
        return Some(Domain(job.error));
      }
      jobs := jobs[index := RetryArmed(jobs[index], p)];
      StoringTwice(old(Now()), index, jobs[index], DispatchEntry(jobs[index], p, Adapters(installed, accepts)));
      error := Dispatch(index, p, accepts);
    }

    method Reupload(id: nat, accepts: Spec.Accepts) returns (error: Option<CoordinatorError>)
      modifies this`jobs, this`log
      ensures (Now(), error) == Spec.Reupload(old(Now()), id, accepts)
    {
      if stopping {
        return Some(ShuttingDown);
      }
      if !Spec.HasAll(installed, Spec.UPLOADS) {
        return Some(MissingProvider);
      }
      var found := Spec.IndexOf(jobs, id);
      if found.None? {
        return Some(UnknownJob);
      }
      var index := found.value;
      var job := jobs[index].job;
      for k := 0 to 3
        invariant k == 0 ==> job == old(jobs)[index].job
        invariant k == 1 ==> Ok(job) == PrepareExplicitDelivery(old(jobs)[index].job, DpsReport)
        invariant k == 2 ==> var dps := PrepareExplicitDelivery(old(jobs)[index].job, DpsReport);
                             dps.Ok? && Ok(job) == PrepareExplicitDelivery(dps.value, Wingman)
        invariant k == 3 ==> Ok(job) == PrepareReupload(old(jobs)[index].job)
      {
        var prepared := PrepareExplicitDelivery(job, ALL[k]);
        if prepared.Err? {
          StoringNothing(Now(), index);
          return Some(Domain(prepared.error));
        }
        job := prepared.value;
      }
      var intents := PerProvider(Intent.Reupload, Intent.Reupload, Intent.Reupload, jobs[index].intents.twitch);
      jobs := jobs[index := Entry(job, jobs[index].metadataPending, intents, true)];
      if jobs[index].job.Wvw() {
        var ignored := Move(index, Wingman, Skipped);
      }
      assert jobs == old(jobs)[index := jobs[index]];
      StoringTwice(old(Now()), index, jobs[index], DispatchEntry(jobs[index], DpsReport, Adapters(installed, accepts)));
      error := Dispatch(index, DpsReport, accepts);
    }

    method Rechat(id: nat, accepts: Spec.Accepts) returns (error: Option<CoordinatorError>)
      modifies this`jobs, this`log
      ensures (Now(), error) == Spec.Rechat(old(Now()), id, accepts)
    {
      if stopping {
        return Some(ShuttingDown);
      }
      if !installed.twitch {
        return Some(MissingProvider);
      }
      var found := Spec.IndexOf(jobs, id);
      if found.None? {
        return Some(UnknownJob);
      }
      var index := found.value;
      error := DependencyError(jobs[index], Twitch);
      StoringNothing(Now(), index);
      if error.Some? {
        return;
      }
      var job := PrepareExplicitDelivery(jobs[index].job, Twitch);
      if job.Err? {
        return Some(Domain(job.error));
      }
      jobs := jobs[index := jobs[index].(job := job.value, intents := jobs[index].intents.With(Twitch, Intent.Rechat))];
      StoringTwice(old(Now()), index, jobs[index], DispatchEntry(jobs[index], Twitch, Adapters(installed, accepts)));
      error := Dispatch(index, Twitch, accepts);
    }

    /** Takes the newest rows over as jobs, or none of them if one is unusable; sends nothing. */
    method Restore(records: seq<Record>) returns (error: Option<CoordinatorError>)
      modifies this
      ensures (Now(), error) == Spec.RestoreHistory(old(Now()), records)
      ensures resultCursor == old(resultCursor)
    {
      if stopping {
        return Some(ShuttingDown);
      }
      if restored || nextId != Some(1) || jobs != [] {
        return Some(RestoreRequiresEmptyCoordinator);
      }
      var tail := records[Spec.Excess(|records|, historyLimit)..];
      var entries: seq<Entry> := [];
      for k := 0 to |tail|
        invariant |entries| == k && Spec.RestoredJobs(tail[..k]) == Ok(entries)
      {
        assert tail[..k + 1][..k] == tail[..k];
        var job := UploadJobs.Restore(k + 1, tail[k]);
        if job.Err? {
          RestoreFails(tail, k + 1);
          return Some(Domain(job.error));
        }
        entries := entries + [NewEntry(job.value, false)];
      }
      assert tail[..|tail|] == tail;
      nextId := Some(|entries| + 1);
      jobs := entries;
      restored := true;
      restoredCount := |entries|;
      return None;
    }

    method SetHistoryLimit(limit: nat) returns (error: Option<CoordinatorError>)
      modifies this`historyLimit, this`jobs
      ensures (Now(), error) == Spec.SetHistoryLimit(old(Now()), limit)
    {
      if limit == 0 || limit > Spec.MAX_HISTORY_LIMIT {
        return Some(InvalidHistoryLimit);
      }
      historyLimit := limit;
      TrimTo(limit);
      return None;
    }

    method CancelAll()
      modifies this`stopping, this`jobs
      ensures Now() == Spec.CancelAll(old(Now()))
    {
      if stopping {
        return;
      }
      stopping := true;
      for i := 0 to |jobs|
        invariant stopping && |jobs| == |old(jobs)|
        invariant forall k :: 0 <= k < i ==> jobs[k] == CancelEntry(old(jobs)[k])
        invariant forall k :: i <= k < |jobs| ==> jobs[k] == old(jobs)[k]
      {
        CancelOne(i);
      }
      assert jobs == Spec.CancelJobs(old(jobs));
      assert Now() == old(Now()).(stopping := true, jobs := Spec.CancelJobs(old(jobs)));
      TrimTo(historyLimit);
    }

    method CancelOne(index: nat)
      requires index < |jobs|
      modifies this`jobs
      ensures jobs == old(jobs)[index := CancelEntry(old(jobs)[index])]
    {
      jobs := jobs[index := jobs[index].(metadataPending := false)];
      ghost var known := jobs[index];
      for k := 0 to |ALL|
        invariant |jobs| == |old(jobs)| && jobs == old(jobs)[index := jobs[index]]
        invariant k == 0 ==> jobs[index] == known
        invariant k == 1 ==> jobs[index] == CancelStatus(known, DpsReport)
        invariant k == 2 ==> jobs[index] == CancelStatus(CancelStatus(known, DpsReport), Wingman)
        invariant k == 3 ==> jobs[index] == CancelStatus(CancelStatus(CancelStatus(known, DpsReport), Wingman), DonBot)
        invariant k == 4 ==> jobs[index] == CancelEntry(old(jobs)[index])
      {
        if jobs[index].State(ALL[k]).Busy() {
          var ignored := Move(index, ALL[k], Cancelled);
        }
      }
    }

    /** One turn at an installed port. */
    method TakeTurn(provider: Provider, poll: Poll, summary: DrainSummary, empty: nat, ghost turns: nat, ghost round: Round)
      returns (summary': DrainSummary, empty': nat)
      requires round.apply == Spec.ApplyResult && round.PortOf(turns) == provider && round.installed.At(provider)
      requires poll == round.polls(turns)
      modifies this`jobs, this`log
      ensures Drain(Now(), summary', empty', turns + 1) == Turn(Drain(old(Now()), summary, empty, turns), round)
      ensures if empty' == 0 then summary'.consumed == summary.consumed + 1 else summary'.consumed == summary.consumed && empty' == empty + 1
    {
      match poll
      case Took(result, now, accepts) =>
        var error := Some(CoordinatorError.UnexpectedResult);
        if result.provider == provider {
          error := ApplyResult(result, now, accepts);
        }
        var took := summary.(consumed := summary.consumed + 1);
        return if error.Some? then took.(rejected := took.rejected + 1) else took, 0;
      case Nothing => return summary, empty + 1;
      case PortError => return summary.(providerErrors := summary.providerErrors + 1), empty + 1;
    }

    /** One turn of a drain, at an installed port or not. */
    method NextTurn(poll: Poll, summary: DrainSummary, empty: nat, ghost turns: nat, ghost round: Round)
      returns (summary': DrainSummary, empty': nat)
      requires round.apply == Spec.ApplyResult && round.installed == installed && poll == round.polls(turns)
      requires resultCursor == (round.cursor + turns) % 4
      modifies this`jobs, this`log, this`resultCursor
      ensures resultCursor == (round.cursor + (turns + 1)) % 4
      ensures Drain(Now(), summary', empty', turns + 1) == Turn(Drain(old(Now()), summary, empty, turns), round)
      ensures if empty' == 0 then summary'.consumed == summary.consumed + 1 else summary'.consumed == summary.consumed && empty' == empty + 1
    {
      var provider := ALL[resultCursor];
      CursorAdvances(round.cursor, turns);
      assert provider == round.PortOf(turns);
      resultCursor := (resultCursor + 1) % 4;
      if !installed.At(provider) {
        return summary, empty + 1;
      }
      summary', empty' := TakeTurn(provider, poll, summary, empty, turns, round);
    }

    /** Polls the ports round-robin until the budget is used up or four turns in a row came up
        empty; `polls` is what each turn's port would answer. The cursor keeps its place
        between calls. */
    method DrainResults(budget: nat, polls: nat -> Poll) returns (summary: DrainSummary, ghost turns: nat)
      requires resultCursor < 4
      modifies this`jobs, this`log, this`resultCursor
      ensures old(stopping) ==> summary == DrainSummary(0, 0, 0) && Now() == old(Now()) && resultCursor == old(resultCursor)
      ensures var round := Round(installed, old(resultCursor), polls, Spec.ApplyResult);
              !old(stopping) ==>
                && Ends(old(Now()), turns, round, budget)
                && Now() == Turns(old(Now()), turns, round).state
                && summary == Turns(old(Now()), turns, round).summary
                && resultCursor == (old(resultCursor) + turns) % 4
    {
      if stopping {
        return DrainSummary(0, 0, 0), 0;
      }
      ghost var round := Round(installed, resultCursor, polls, Spec.ApplyResult);
      summary, turns := TakeTurns(budget, polls, round);
    }

    /** The loop of a drain. */
    method TakeTurns(budget: nat, polls: nat -> Poll, ghost round: Round) returns (summary: DrainSummary, ghost turns: nat)
      requires resultCursor == round.cursor < 4
      requires round.apply == Spec.ApplyResult && round.installed == installed && round.polls == polls
      modifies this`jobs, this`log, this`resultCursor
      ensures Ends(old(Now()), turns, round, budget)
      ensures Drain(Now(), summary, Turns(old(Now()), turns, round).empty, turns) == Turns(old(Now()), turns, round)
      ensures resultCursor == (round.cursor + turns) % 4
    {
      summary, turns := DrainSummary(0, 0, 0), 0;
      ghost var start := Now();
      var empty, next := 0, 0;
      while summary.consumed < budget && empty < 4
        invariant next == turns && empty <= 4 && resultCursor == (round.cursor + turns) % 4
        invariant Reaches(start, Drain(Now(), summary, empty, turns), round, budget)
        decreases budget - summary.consumed, 4 - empty
      {
        ReachesNext(start, Drain(Now(), summary, empty, turns), round, budget);
        summary, empty := NextTurn(polls(next), summary, empty, turns, round);
        next, turns := next + 1, turns + 1;
      }
    }
  }

  lemma CursorAdvances(cursor: nat, turns: nat)
    ensures ((cursor + turns) % 4 + 1) % 4 == (cursor + (turns + 1)) % 4
  {
  }

  lemma StoringNothing(s: Spec.State, index: nat)
    requires index < |s.jobs|
    ensures forall error :: Spec.Store(s, index, Change(s.jobs[index], [], error)) == s
  {
    assert s.jobs[index := s.jobs[index]] == s.jobs && s.log + [] == s.log;
  }

  lemma StoringTwice(s: Spec.State, index: nat, between: Entry, change: Change)
    requires index < |s.jobs|
    ensures Spec.Store(s.(jobs := s.jobs[index := between]), index, change) == Spec.Store(s, index, change)
  {
    assert s.jobs[index := between][index := change.entry] == s.jobs[index := change.entry];
  }

  // ---------------------------------------------------------------- trimming by search and removal

  lemma {:induction false} NothingToTrim(jobs: seq<Entry>, excess: nat)
    requires Spec.AllBusy(jobs)
    ensures Spec.Trimmed(jobs, excess) == jobs
  {
    if jobs != [] && excess != 0 {
      NothingToTrim(jobs[1..], excess);
    }
  }

  /** Removing the first entry that is not busy is the first step of trimming. */
  lemma {:induction false} RemoveFirstIdle(jobs: seq<Entry>, index: nat, excess: nat)
    requires index < |jobs| && !jobs[index].Busy() && (forall i :: 0 <= i < index ==> jobs[i].Busy()) && excess > 0
    ensures Spec.Trimmed(jobs[..index] + jobs[index + 1..], excess - 1) == Spec.Trimmed(jobs, excess)
  {
    var without := jobs[..index] + jobs[index + 1..];
    if index == 0 {
      assert without == jobs[1..];
    } else {
      RemoveFirstIdle(jobs[1..], index - 1, excess);
      assert without[1..] == jobs[1..][..index - 1] + jobs[1..][index..];
      if excess == 1 {
        assert jobs == [jobs[0]] + jobs[1..];
        assert without == [jobs[0]] + without[1..];
      }
    }
  }

  lemma {:induction false} RestoreFails(records: seq<Record>, bad: nat)
    requires bad <= |records| && Spec.RestoredJobs(records[..bad]).Err?
    ensures Spec.RestoredJobs(records) == Spec.RestoredJobs(records[..bad])
  {
    if bad == |records| {
      assert records[..bad] == records;
    } else {
      var n := |records| - 1;
      assert records[..n][..bad] == records[..bad];
      RestoreFails(records[..n], bad);
    }
  }
}
