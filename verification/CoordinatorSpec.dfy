/** What each call of the upload coordinator does, as functions on its state, and the
    properties of whole runs of calls. The coordinator itself is in UploadCoordinator. */
module CoordinatorSpec {
  import opened Outcomes
  import opened LogFiles
  import opened UploadJobs
  import opened UploadLedger
  import opened UploadEntries

  const MAX_HISTORY_LIMIT: nat := 10_000
  const MAX_JOB_ID: nat := 0xFFFF_FFFF_FFFF_FFFF

  /** The coordinator's fields, followed by history: how many jobs came from storage, and the
      log of requests and accepted answers. */
  datatype State = State(
    installed: PerProvider<bool>,
    jobs: seq<Entry>,
    limit: nat,
    nextId: Option<nat>,
    restored: bool,
    stopping: bool,
    restoredCount: nat,
    log: seq<Event>)

  type Accepts = PerProvider<bool>

  // ---------------------------------------------------------------- calls

  /** Removes up to `excess` entries, oldest first, never a busy one. */
  function Trimmed(jobs: seq<Entry>, excess: nat): seq<Entry> {
    if jobs == [] || excess == 0 then jobs
    else if jobs[0].Busy() then [jobs[0]] + Trimmed(jobs[1..], excess)
    else Trimmed(jobs[1..], excess - 1)
  }

  function Excess(count: nat, limit: nat): nat {
    if count > limit then count - limit else 0
  }

  function TrimJobs(jobs: seq<Entry>, limit: nat): seq<Entry> {
    Trimmed(jobs, Excess(|jobs|, limit))
  }

  function Trim(s: State): State {
    s.(jobs := TrimJobs(s.jobs, s.limit))
  }

  function IndexOf(jobs: seq<Entry>, id: nat): (r: Option<nat>)
    ensures r.Some? ==> r.value < |jobs| && jobs[r.value].job.id == id
    ensures r.None? ==> forall i :: 0 <= i < |jobs| ==> jobs[i].job.id != id
  {
    if jobs == [] then None
    else if jobs[0].job.id == id then Some(0)
    else
      var rest := IndexOf(jobs[1..], id);
      if rest.Some? then Some(rest.value + 1) else None
  }

  function BusyCount(jobs: seq<Entry>): (r: nat)
    ensures r <= |jobs|
  {
    if jobs == [] then 0 else (if jobs[0].Busy() then 1 else 0) + BusyCount(jobs[1..])
  }

  /** Stores a change of the entry at `index`. */
  function Store(s: State, index: nat, change: Change): State
    requires index < |s.jobs|
  {
    s.(jobs := s.jobs[index := change.entry], log := s.log + change.events)
  }

  function HasAll(installed: PerProvider<bool>, needed: PerProvider<bool>): bool {
    (needed.dps ==> installed.dps) && (needed.wingman ==> installed.wingman)
    && (needed.donbot ==> installed.donbot) && (needed.twitch ==> installed.twitch)
  }

  const UPLOADS: PerProvider<bool> := PerProvider(true, true, true, false)

  function Appended(s: State, entry: Entry): State {
    var id := entry.job.id;
    s.(jobs := s.jobs + [entry], nextId := if id < MAX_JOB_ID then Some(id + 1) else None)
  }

  function AddPending(s: State, file: LogFile, now: int, enabled: PerProvider<bool>): (State, Result<nat, CoordinatorError>) {
    if s.stopping then (s, Err(ShuttingDown))
    else if !HasAll(s.installed, enabled) then (s, Err(MissingProvider))
    else if s.nextId.None? then (s, Err(JobIdExhausted))
    else
      var id := s.nextId.value;
      var job := Create(id, file, now, enabled);
      if job.Err? then (s, Err(Domain(job.error)))
      else if BusyCount(s.jobs) >= s.limit then (s, Err(CapacityReached))
      else
        (Appended(s.(jobs := TrimJobs(s.jobs, s.limit - 1)), NewEntry(job.value, true)), Ok(id))
  }

  /** What a call on one job does: look the job up, change it, and trim if the call trims. */
  function Finish(s: State, index: nat, change: Change, trims: bool): (State, Option<CoordinatorError>)
    requires index < |s.jobs|
  {
    var stored := Store(s, index, change);
    (if trims then Trim(stored) else stored, change.error)
  }

  function SetMetadata(s: State, id: nat, metadata: Metadata, accepts: Accepts): (State, Option<CoordinatorError>) {
    if s.stopping then (s, Some(ShuttingDown))
    else
      var index := IndexOf(s.jobs, id);
      if index.None? then (s, Some(UnknownJob))
      else if !AwaitsMetadata(s.jobs[index.value]) then (s, Some(MetadataNotPending))
      else Finish(s, index.value, SetMetadataEntry(s.jobs[index.value], metadata, Adapters(s.installed, accepts)), true)
  }

  function FailMetadata(s: State, id: nat, cancelled: bool): (State, Option<CoordinatorError>) {
    if s.stopping then (s, Some(ShuttingDown))
    else
      var index := IndexOf(s.jobs, id);
      if index.None? then (s, Some(UnknownJob))
      else if !AwaitsMetadata(s.jobs[index.value]) then (s, Some(MetadataNotPending))
      else Finish(s, index.value, FailMetadataEntry(s.jobs[index.value], cancelled), true)
  }

  function ApplyResult(s: State, result: UploadResult, now: nat, accepts: Accepts): (State, Option<CoordinatorError>) {
    if s.stopping then (s, Some(ShuttingDown))
    else
      var index := IndexOf(s.jobs, result.job);
      if index.None? then (s, Some(UnknownJob))
      else
        var change := ApplyResultEntry(s.jobs[index.value], result, now, Adapters(s.installed, accepts));
        if change.error.Some? then (s, change.error) else Finish(s, index.value, change, true)
  }

  function RetryFailed(s: State, id: nat, p: Provider, accepts: Accepts): (State, Option<CoordinatorError>) {
    if s.stopping then (s, Some(ShuttingDown))
    else
      var index := IndexOf(s.jobs, id);
      if index.None? then (s, Some(UnknownJob))
      else Finish(s, index.value, RetryFailedEntry(s.jobs[index.value], p, Adapters(s.installed, accepts)), false)
  }

  function Reupload(s: State, id: nat, accepts: Accepts): (State, Option<CoordinatorError>) {
    if s.stopping then (s, Some(ShuttingDown))
    else if !HasAll(s.installed, UPLOADS) then (s, Some(MissingProvider))
    else
      var index := IndexOf(s.jobs, id);
      if index.None? then (s, Some(UnknownJob))
      else Finish(s, index.value, ReuploadEntry(s.jobs[index.value], Adapters(s.installed, accepts)), false)
  }

  function Rechat(s: State, id: nat, accepts: Accepts): (State, Option<CoordinatorError>) {
    if s.stopping then (s, Some(ShuttingDown))
    else if !s.installed.twitch then (s, Some(MissingProvider))
    else
      var index := IndexOf(s.jobs, id);
      if index.None? then (s, Some(UnknownJob))
      else Finish(s, index.value, RechatEntry(s.jobs[index.value], Adapters(s.installed, accepts)), false)
  }

  function NthProvider(k: nat): Provider {
    if k % 4 == 0 then DpsReport else if k % 4 == 1 then Wingman else if k % 4 == 2 then DonBot else Twitch
  }

  datatype Progress = Progress(state: State, count: nat)

  /** Looks at destination k % 4 of job k / 4 and dispatches it if it is due. */
  function Visit(at: Progress, k: nat, budget: nat, now: nat, accepts: nat -> Accepts): (r: Progress)
    requires k < 4 * |at.state.jobs|
    ensures |r.state.jobs| == |at.state.jobs|
  {
    var e, p := at.state.jobs[k / 4], NthProvider(k);
    if at.count < budget && Due(e, p, now)
    then Progress(Store(at.state, k / 4, DispatchEntry(e, p, Adapters(at.state.installed, accepts(e.job.id)))), at.count + 1)
    else at
  }

  /** The first k visits, jobs in order and the four destinations of each, up to `budget` dispatches. */
  function Visits(s: State, k: nat, budget: nat, now: nat, accepts: nat -> Accepts): (r: Progress)
    requires k <= 4 * |s.jobs|
    ensures |r.state.jobs| == |s.jobs|
  {
    if k == 0 then Progress(s, 0) else Visit(Visits(s, k - 1, budget, now, accepts), k - 1, budget, now, accepts)
  }

  function DispatchDueRetries(s: State, budget: nat, now: nat, accepts: nat -> Accepts): (State, nat) {
    if s.stopping then (s, 0)
    else
      var done := Visits(s, 4 * |s.jobs|, budget, now, accepts);
      (Trim(done.state), done.count)
  }

  function RestoredJobs(records: seq<Record>): Result<seq<Entry>, CoordinatorError> {
    if records == [] then Ok([])
    else
      var n := |records| - 1;
      var before := RestoredJobs(records[..n]);
      if before.Err? then before
      else
        var job := UploadJobs.Restore(n + 1, records[n]);
        if job.Err? then Err(Domain(job.error)) else Ok(before.value + [NewEntry(job.value, false)])
  }

  function RestoreHistory(s: State, records: seq<Record>): (State, Option<CoordinatorError>) {
    if s.stopping then (s, Some(ShuttingDown))
    else if s.restored || s.nextId != Some(1) || s.jobs != [] then (s, Some(RestoreRequiresEmptyCoordinator))
    else
      var jobs := RestoredJobs(records[Excess(|records|, s.limit)..]);
      if jobs.Err? then (s, Some(jobs.error))
      else (s.(nextId := Some(|jobs.value| + 1), jobs := jobs.value, restored := true, restoredCount := |jobs.value|), None)
  }

  function SetHistoryLimit(s: State, limit: nat): (State, Option<CoordinatorError>) {
    if 1 <= limit <= MAX_HISTORY_LIMIT then (Trim(s.(limit := limit)), None) else (s, Some(InvalidHistoryLimit))
  }

  function CancelJobs(jobs: seq<Entry>): (r: seq<Entry>)
    ensures |r| == |jobs| && forall i :: 0 <= i < |jobs| ==> r[i] == CancelEntry(jobs[i])
  {
    seq(|jobs|, i requires 0 <= i < |jobs| => CancelEntry(jobs[i]))
  }

  function CancelAll(s: State): State {
    if s.stopping then s else Trim(s.(stopping := true, jobs := CancelJobs(s.jobs)))
  }

  // ---------------------------------------------------------------- invariant

  /** The next id to be handed out, or one past the last. */
  function Next(s: State): nat {
    if s.nextId.Some? then s.nextId.value else MAX_JOB_ID + 1
  }

  ghost predicate Increasing(jobs: seq<Entry>) {
    forall i, j :: 0 <= i < j < |jobs| ==> jobs[i].job.id < jobs[j].job.id
  }

  ghost predicate Identified(s: State) {
    && Increasing(s.jobs)
    && (forall i :: 0 <= i < |s.jobs| ==> 1 <= s.jobs[i].job.id < Next(s))
    && (forall k :: 0 <= k < |s.log| ==> 1 <= s.log[k].job < Next(s))
    && 1 <= Next(s) && s.restoredCount < Next(s)
    && (s.nextId.Some? ==> s.nextId.value <= MAX_JOB_ID)
  }

  ghost predicate EntryHolds(e: Entry, s: State) {
    && (!s.stopping ==> EntryInv(e, LedgerOf(s.log, e.job.id)))
    && (s.stopping ==> !e.Busy())
    && (e.job.id > s.restoredCount ==> Clean(e.job))
  }

  /** Everything but the history bound, which holds between calls only. */
  ghost predicate Core(s: State) {
    && 1 <= s.limit <= MAX_HISTORY_LIMIT
    && Identified(s)
    && LegalLog(s.log)
    && (forall i :: 0 <= i < |s.jobs| ==> EntryHolds(s.jobs[i], s))
  }

  ghost predicate AllBusy(jobs: seq<Entry>) {
    forall i :: 0 <= i < |jobs| ==> jobs[i].Busy()
  }

  ghost predicate Bounded(jobs: seq<Entry>, limit: nat) {
    |jobs| <= limit || AllBusy(jobs)
  }

  ghost predicate Inv(s: State) {
    Core(s) && Bounded(s.jobs, s.limit)
  }

  // ---------------------------------------------------------------- trimming

  function BusyOnly(jobs: seq<Entry>): seq<Entry> {
    if jobs == [] then []
    else (if jobs[0].Busy() then [jobs[0]] else []) + BusyOnly(jobs[1..])
  }

  /** Trimming drops exactly the oldest entries that are not busy: up to some position only the
      busy ones stay, from there on everything stays; and it stops early only if nothing
      removable is left. */
  lemma {:induction false} TrimmingDropsOldestIdle(jobs: seq<Entry>, excess: nat) returns (k: nat)
    ensures k <= |jobs| && Trimmed(jobs, excess) == BusyOnly(jobs[..k]) + jobs[k..]
    ensures |Trimmed(jobs, excess)| + excess == |jobs| || (k == |jobs| && AllBusy(Trimmed(jobs, excess)))
    ensures |Trimmed(jobs, excess)| + excess >= |jobs|
  {
    if jobs == [] || excess == 0 {
      k := 0;
    } else {
      var rest := TrimmingDropsOldestIdle(jobs[1..], if jobs[0].Busy() then excess else excess - 1);
      k := rest + 1;
      assert jobs[..k][1..] == jobs[1..][..rest] && jobs[k..] == jobs[1..][rest..];
    }
  }

  lemma {:induction false} TrimmedMembers(jobs: seq<Entry>, excess: nat)
    ensures forall e :: e in Trimmed(jobs, excess) ==> e in jobs
    ensures forall e :: e in jobs && e.Busy() ==> e in Trimmed(jobs, excess)
  {
    if jobs != [] && excess != 0 {
      TrimmedMembers(jobs[1..], if jobs[0].Busy() then excess else excess - 1);
      assert jobs == [jobs[0]] + jobs[1..];
    }
  }

  lemma {:induction false} TrimmedIncreasing(jobs: seq<Entry>, excess: nat)
    requires Increasing(jobs)
    ensures Increasing(Trimmed(jobs, excess))
  {
    if jobs != [] && excess != 0 {
      var rest := if jobs[0].Busy() then excess else excess - 1;
      TrimmedIncreasing(jobs[1..], rest);
      TrimmedMembers(jobs[1..], rest);
      forall e | e in Trimmed(jobs[1..], rest) ensures jobs[0].job.id < e.job.id {
        var j :| 0 <= j < |jobs[1..]| && jobs[1..][j] == e;
        assert jobs[j + 1] == e;
      }
    }
  }

  lemma TrimKeepsCore(s: State, limit: nat)
    requires Core(s)
    ensures Core(s.(jobs := TrimJobs(s.jobs, limit)))
    ensures Bounded(TrimJobs(s.jobs, limit), limit)
  {
    var excess := Excess(|s.jobs|, limit);
    var t := s.(jobs := TrimJobs(s.jobs, limit));
    TrimmedMembers(s.jobs, excess);
    TrimmedIncreasing(s.jobs, excess);
    var k := TrimmingDropsOldestIdle(s.jobs, excess);
    forall i | 0 <= i < |t.jobs| ensures EntryHolds(t.jobs[i], t) && 1 <= t.jobs[i].job.id < Next(t) {
      assert t.jobs[i] in s.jobs;
    }
  }

  lemma {:induction false} BusyCountFull(jobs: seq<Entry>)
    requires AllBusy(jobs)
    ensures BusyCount(jobs) == |jobs|
  {
    if jobs != [] {
      BusyCountFull(jobs[1..]);
    }
  }

  lemma {:induction false} TrimmedBusyCount(jobs: seq<Entry>, excess: nat)
    ensures BusyCount(Trimmed(jobs, excess)) == BusyCount(jobs)
  {
    if jobs != [] && excess != 0 {
      TrimmedBusyCount(jobs[1..], if jobs[0].Busy() then excess else excess - 1);
      if jobs[0].Busy() {
        assert Trimmed(jobs, excess)[1..] == Trimmed(jobs[1..], excess);
      }
    }
  }

  // ---------------------------------------------------------------- every call keeps the invariant

  lemma StoreKeepsEntry(s: State, index: nat, change: Change, i: nat)
    requires Core(s) && !s.stopping && index < |s.jobs| && i < |s.jobs|
    requires Keeps(s.jobs[index], LedgerOf(s.log, s.jobs[index].job.id), change, {})
    ensures EntryHolds(Store(s, index, change).jobs[i], Store(s, index, change))
  {
    var t, id := Store(s, index, change), s.jobs[index].job.id;
    AppendFeeds(s.log, change.events, id, t.jobs[i].job.id);
    assert EntryHolds(s.jobs[i], s) && EntryHolds(s.jobs[index], s);
  }

  lemma StoreKeepsCore(s: State, index: nat, change: Change)
    requires Core(s) && !s.stopping && index < |s.jobs|
    requires Keeps(s.jobs[index], LedgerOf(s.log, s.jobs[index].job.id), change, {})
    ensures Core(Store(s, index, change))
  {
    var t := Store(s, index, change);
    AppendStaysLegal(s.log, change.events, s.jobs[index].job.id);
    forall i | 0 <= i < |t.jobs| ensures EntryHolds(t.jobs[i], t) {
      StoreKeepsEntry(s, index, change, i);
    }
    forall k | 0 <= k < |t.log| ensures 1 <= t.log[k].job < Next(t) {
      assert k >= |s.log| ==> t.log[k] == change.events[k - |s.log|];
    }
  }

  /** A busy entry stays busy, so an untrimmed call cannot break the bound. */
  lemma StoreKeepsBound(s: State, index: nat, change: Change)
    requires Bounded(s.jobs, s.limit) && index < |s.jobs|
    requires s.jobs[index].Busy() ==> change.entry.Busy()
    ensures Bounded(Store(s, index, change).jobs, s.limit)
  {
  }

  /** Admission makes room: with fewer busy jobs than the limit, trimming to one below it works. */
  lemma TrimMakesRoom(jobs: seq<Entry>, limit: nat)
    requires BusyCount(jobs) < limit
    ensures |TrimJobs(jobs, limit - 1)| < limit
  {
    var excess := Excess(|jobs|, limit - 1);
    var k := TrimmingDropsOldestIdle(jobs, excess);
    TrimmedBusyCount(jobs, excess);
    if AllBusy(Trimmed(jobs, excess)) {
      BusyCountFull(Trimmed(jobs, excess));
    }
  }

  lemma AppendKeepsCore(s: State, entry: Entry)
    requires Core(s) && !s.stopping && s.nextId == Some(entry.job.id)
    requires EntryInv(entry, EMPTY_LEDGER) && Clean(entry.job)
    ensures Core(Appended(s, entry))
  {
    var t := Appended(s, entry);
    UnmentionedJobIsSilent(s.log, entry.job.id);
    forall i | 0 <= i < |t.jobs| ensures EntryHolds(t.jobs[i], t) {
      assert i < |s.jobs| ==> EntryHolds(s.jobs[i], s);
    }
  }

  lemma AdmittedKeepsInv(s: State, job: Job, file: LogFile, now: int, enabled: PerProvider<bool>)
    requires Inv(s) && !s.stopping && s.nextId.Some? && BusyCount(s.jobs) < s.limit
    requires Create(s.nextId.value, file, now, enabled) == Ok(job)
    ensures var t := Appended(s.(jobs := TrimJobs(s.jobs, s.limit - 1)), NewEntry(job, true));
            Core(t) && |t.jobs| <= s.limit
  {
    TrimKeepsCore(s, s.limit - 1);
    TrimMakesRoom(s.jobs, s.limit);
    NewEntryKeeps(job, s.nextId.value, file, now, enabled);
    AppendKeepsCore(s.(jobs := TrimJobs(s.jobs, s.limit - 1)), NewEntry(job, true));
  }

  lemma AddPendingErrors(s: State, file: LogFile, now: int, enabled: PerProvider<bool>)
    ensures AddPending(s, file, now, enabled).1.Err? ==> AddPending(s, file, now, enabled).0 == s
  {
  }

  /** A new job takes the next id, and the history is within its limit. */
  lemma AddPendingKeepsInv(s: State, file: LogFile, now: int, enabled: PerProvider<bool>)
    requires Inv(s)
    ensures var (t, id) := AddPending(s, file, now, enabled);
            && Inv(t)
            && (id.Ok? ==> id.value == Next(s) && Next(t) == Next(s) + 1 && |t.jobs| <= t.limit)
            && (id.Err? ==> t == s)
  {
    if AddPending(s, file, now, enabled).1.Ok? {
      AdmittedKeepsInv(s, Create(s.nextId.value, file, now, enabled).value, file, now, enabled);
    }
  }

  lemma FinishKeepsInv(s: State, index: nat, change: Change)
    requires Core(s) && !s.stopping && index < |s.jobs|
    requires Keeps(s.jobs[index], LedgerOf(s.log, s.jobs[index].job.id), change, {})
    ensures Inv(Finish(s, index, change, true).0)
  {
    StoreKeepsCore(s, index, change);
    TrimKeepsCore(Store(s, index, change), s.limit);
  }

  lemma FinishUntrimmedKeepsInv(s: State, index: nat, change: Change)
    requires Inv(s) && !s.stopping && index < |s.jobs|
    requires Keeps(s.jobs[index], LedgerOf(s.log, s.jobs[index].job.id), change, {})
    requires s.jobs[index].Busy() ==> change.entry.Busy()
    ensures Inv(Finish(s, index, change, false).0)
  {
    StoreKeepsCore(s, index, change);
    StoreKeepsBound(s, index, change);
  }

  lemma SetMetadataKeepsInv(s: State, id: nat, metadata: Metadata, accepts: Accepts)
    requires Inv(s)
    ensures Inv(SetMetadata(s, id, metadata, accepts).0)
  {
    var index := IndexOf(s.jobs, id);
    if !s.stopping && index.Some? && AwaitsMetadata(s.jobs[index.value]) {
      var e := s.jobs[index.value];
      assert EntryHolds(e, s);
      SetMetadataKeeps(e, metadata, LedgerOf(s.log, e.job.id), Adapters(s.installed, accepts));
      FinishKeepsInv(s, index.value, SetMetadataEntry(e, metadata, Adapters(s.installed, accepts)));
    }
  }

  lemma FailMetadataKeepsInv(s: State, id: nat, cancelled: bool)
    requires Inv(s)
    ensures Inv(FailMetadata(s, id, cancelled).0)
  {
    var index := IndexOf(s.jobs, id);
    if !s.stopping && index.Some? && AwaitsMetadata(s.jobs[index.value]) {
      var e := s.jobs[index.value];
      assert EntryHolds(e, s);
      FailMetadataKeeps(e, cancelled, LedgerOf(s.log, e.job.id));
      FinishKeepsInv(s, index.value, FailMetadataEntry(e, cancelled));
    }
  }

  lemma ApplyResultKeepsInv(s: State, result: UploadResult, now: nat, accepts: Accepts)
    requires Inv(s)
    ensures Inv(ApplyResult(s, result, now, accepts).0)
    ensures ApplyResult(s, result, now, accepts).1.Some? ==> ApplyResult(s, result, now, accepts).0 == s
  {
    var index := IndexOf(s.jobs, result.job);
    if !s.stopping && index.Some? {
      var e := s.jobs[index.value];
      assert EntryHolds(e, s);
      ApplyResultKeeps(e, result, now, LedgerOf(s.log, e.job.id), Adapters(s.installed, accepts));
      FinishKeepsInv(s, index.value, ApplyResultEntry(e, result, now, Adapters(s.installed, accepts)));
    }
  }

  lemma RetryFailedKeepsInv(s: State, id: nat, p: Provider, accepts: Accepts)
    requires Inv(s)
    ensures Inv(RetryFailed(s, id, p, accepts).0)
  {
    var index := IndexOf(s.jobs, id);
    if !s.stopping && index.Some? {
      var e, adapters := s.jobs[index.value], Adapters(s.installed, accepts);
      assert EntryHolds(e, s);
      RetryFailedKeeps(e, p, LedgerOf(s.log, e.job.id), adapters);
      if e.Busy() {
        RetryFailedStaysBusy(e, p, LedgerOf(s.log, e.job.id), adapters);
      }
      FinishUntrimmedKeepsInv(s, index.value, RetryFailedEntry(e, p, adapters));
    }
  }

  lemma ReuploadKeepsInv(s: State, id: nat, accepts: Accepts)
    requires Inv(s)
    ensures Inv(Reupload(s, id, accepts).0)
  {
    var index := IndexOf(s.jobs, id);
    if !s.stopping && index.Some? {
      var e, adapters := s.jobs[index.value], Adapters(s.installed, accepts);
      assert EntryHolds(e, s);
      ReuploadKeeps(e, LedgerOf(s.log, e.job.id), adapters);
      if e.Busy() {
        ReuploadStaysBusy(e, LedgerOf(s.log, e.job.id), adapters);
      }
      FinishUntrimmedKeepsInv(s, index.value, ReuploadEntry(e, adapters));
    }
  }

  lemma RechatKeepsInv(s: State, id: nat, accepts: Accepts)
    requires Inv(s)
    ensures Inv(Rechat(s, id, accepts).0)
  {
    var index := IndexOf(s.jobs, id);
    if !s.stopping && index.Some? {
      var e, adapters := s.jobs[index.value], Adapters(s.installed, accepts);
      assert EntryHolds(e, s);
      RechatKeeps(e, LedgerOf(s.log, e.job.id), adapters);
      if e.Busy() {
        RechatStaysBusy(e, LedgerOf(s.log, e.job.id), adapters);
      }
      FinishUntrimmedKeepsInv(s, index.value, RechatEntry(e, adapters));
    }
  }

  /** What dispatching due retries has done so far is sound. */
  ghost predicate Onward(s: State, done: Progress, budget: nat) {
    && Core(done.state)
    && done.state == s.(jobs := done.state.jobs, log := done.state.log)
    && |done.state.jobs| == |s.jobs|
    && s.log <= done.state.log
    && done.count <= budget
  }

  lemma DueVisitKeepsCore(s: State, index: nat, p: Provider, accepts: Accepts)
    requires Core(s) && !s.stopping && index < |s.jobs| && s.jobs[index].State(p).RetryScheduled?
    ensures Core(Store(s, index, DispatchEntry(s.jobs[index], p, Adapters(s.installed, accepts))))
  {
    var e := s.jobs[index];
    assert EntryHolds(e, s);
    DueKeeps(e, p, LedgerOf(s.log, e.job.id), Adapters(s.installed, accepts));
    StoreKeepsCore(s, index, DispatchEntry(e, p, Adapters(s.installed, accepts)));
  }

  lemma VisitKeepsCore(s: State, at: Progress, k: nat, budget: nat, now: nat, accepts: nat -> Accepts)
    requires Onward(s, at, budget) && !s.stopping && k < 4 * |s.jobs|
    ensures Onward(s, Visit(at, k, budget, now, accepts), budget)
  {
    var e, p := at.state.jobs[k / 4], NthProvider(k);
    if at.count < budget && Due(e, p, now) {
      DueVisitKeepsCore(at.state, k / 4, p, accepts(e.job.id));
    }
  }

  /** Whatever one visit keeps, all of them keep. */
  lemma {:induction false} VisitsKeep(s: State, k: nat, budget: nat, now: nat, accepts: nat -> Accepts, keeps: Progress -> bool)
    requires k <= 4 * |s.jobs| && keeps(Progress(s, 0))
    requires forall at: Progress, i: nat :: i < 4 * |at.state.jobs| && keeps(at) ==> keeps(Visit(at, i, budget, now, accepts))
    ensures keeps(Visits(s, k, budget, now, accepts))
  {
    if k > 0 {
      VisitsKeep(s, k - 1, budget, now, accepts, keeps);
    }
  }

  lemma VisitsKeepCore(s: State, k: nat, budget: nat, now: nat, accepts: nat -> Accepts)
    requires Core(s) && !s.stopping && k <= 4 * |s.jobs|
    ensures Onward(s, Visits(s, k, budget, now, accepts), budget)
  {
    var keeps := (at: Progress) => Onward(s, at, budget);
    forall at: Progress, i: nat | i < 4 * |at.state.jobs| && keeps(at) ensures keeps(Visit(at, i, budget, now, accepts)) {
      VisitKeepsCore(s, at, i, budget, now, accepts);
    }
    VisitsKeep(s, k, budget, now, accepts, keeps);
  }

  /** Once the budget is used up the remaining visits do nothing. */
  lemma {:induction false} VisitsSaturate(s: State, k: nat, n: nat, budget: nat, now: nat, accepts: nat -> Accepts)
    requires k <= n <= 4 * |s.jobs| && Visits(s, k, budget, now, accepts).count >= budget
    ensures Visits(s, n, budget, now, accepts) == Visits(s, k, budget, now, accepts)
  {
    if k < n {
      VisitsSaturate(s, k, n - 1, budget, now, accepts);
    }
  }

  lemma DispatchDueKeepsInv(s: State, budget: nat, now: nat, accepts: nat -> Accepts)
    requires Inv(s)
    ensures Inv(DispatchDueRetries(s, budget, now, accepts).0)
  {
    if !s.stopping {
      VisitsKeepCore(s, 4 * |s.jobs|, budget, now, accepts);
      TrimKeepsCore(Visits(s, 4 * |s.jobs|, budget, now, accepts).state, s.limit);
    }
  }

  lemma {:induction false} RestoredJobsHold(records: seq<Record>)
    requires RestoredJobs(records).Ok?
    ensures var jobs := RestoredJobs(records).value;
            && |jobs| == |records|
            && forall i :: 0 <= i < |jobs| ==>
                 jobs[i].job.id == i + 1 && EntryInv(jobs[i], EMPTY_LEDGER) && !jobs[i].Busy()
                 && UploadJobs.Restore(i + 1, records[i]) == Ok(jobs[i].job)
  {
    if records != [] {
      var n := |records| - 1;
      RestoredJobsHold(records[..n]);
      RestoredEntryKeeps(UploadJobs.Restore(n + 1, records[n]).value, n + 1, records[n]);
    }
  }

  lemma RestoreKeepsInv(s: State, records: seq<Record>)
    requires Inv(s)
    ensures Inv(RestoreHistory(s, records).0)
  {
    var (t, error) := RestoreHistory(s, records);
    if error.None? {
      var tail := records[Excess(|records|, s.limit)..];
      RestoredJobsHold(tail);
      forall i | 0 <= i < |t.jobs| ensures EntryHolds(t.jobs[i], t) {
        UnmentionedJobIsSilent(s.log, t.jobs[i].job.id);
      }
    }
  }

  lemma SetHistoryLimitKeepsInv(s: State, limit: nat)
    requires Inv(s)
    ensures Inv(SetHistoryLimit(s, limit).0)
  {
    if 1 <= limit <= MAX_HISTORY_LIMIT {
      var t := s.(limit := limit);
      forall i | 0 <= i < |t.jobs| ensures EntryHolds(t.jobs[i], t) {
        assert EntryHolds(s.jobs[i], s);
      }
      TrimKeepsCore(t, limit);
    }
  }

  lemma StoppedHistoryFits(s: State)
    requires Inv(s) && s.stopping
    ensures |s.jobs| <= s.limit
  {
    if s.jobs != [] {
      assert EntryHolds(s.jobs[0], s);
    }
  }

  /** Shutting down settles everything, so the limit holds exactly from then on. */
  lemma CancelAllKeepsInv(s: State)
    requires Inv(s)
    ensures Inv(CancelAll(s)) && CancelAll(s).stopping && |CancelAll(s).jobs| <= s.limit
  {
    if !s.stopping {
      var t := s.(stopping := true, jobs := CancelJobs(s.jobs));
      forall i | 0 <= i < |t.jobs| ensures EntryHolds(t.jobs[i], t) && t.jobs[i].job.id == s.jobs[i].job.id {
        CancelKeeps(s.jobs[i]);
        assert EntryHolds(s.jobs[i], s);
      }
      TrimKeepsCore(t, t.limit);
    }
    StoppedHistoryFits(CancelAll(s));
  }

  // ---------------------------------------------------------------- whole runs

  datatype Step =
    | AddingPending(file: LogFile, detected: int, enabled: PerProvider<bool>)
    | SettingMetadata(id: nat, metadata: Metadata, accepts: Accepts)
    | FailingMetadata(id: nat, cancelled: bool)
    | ApplyingResult(result: UploadResult, now: nat, accepts: Accepts)
    | DispatchingDue(budget: nat, now: nat, answers: nat -> Accepts)
    | Retrying(id: nat, provider: Provider, accepts: Accepts)
    | Reuploading(id: nat, accepts: Accepts)
    | Rechatting(id: nat, accepts: Accepts)
    | Restoring(records: seq<Record>)
    | Limiting(limit: nat)
    | Cancelling

  function Apply(s: State, step: Step): State {
    match step
    case AddingPending(file, detected, enabled) => AddPending(s, file, detected, enabled).0
    case SettingMetadata(id, metadata, accepts) => SetMetadata(s, id, metadata, accepts).0
    case FailingMetadata(id, cancelled) => FailMetadata(s, id, cancelled).0
    case ApplyingResult(result, now, accepts) => ApplyResult(s, result, now, accepts).0
    case DispatchingDue(budget, now, answers) => DispatchDueRetries(s, budget, now, answers).0
    case Retrying(id, provider, accepts) => RetryFailed(s, id, provider, accepts).0
    case Reuploading(id, accepts) => Reupload(s, id, accepts).0
    case Rechatting(id, accepts) => Rechat(s, id, accepts).0
    case Restoring(records) => RestoreHistory(s, records).0
    case Limiting(limit) => SetHistoryLimit(s, limit).0
    case Cancelling => CancelAll(s)
  }

  function After(s: State, steps: seq<Step>): State {
    if steps == [] then s else Apply(After(s, steps[..|steps| - 1]), steps[|steps| - 1])
  }

  function Fresh(installed: PerProvider<bool>, limit: nat): State {
    State(installed, [], limit, Some(1), false, false, 0, [])
  }

  /** Calls about one job. */
  predicate OnOneJob(step: Step) {
    step.SettingMetadata? || step.FailingMetadata? || step.ApplyingResult?
    || step.Retrying? || step.Reuploading? || step.Rechatting?
  }

  lemma JobStepKeepsInv(s: State, step: Step)
    requires Inv(s) && OnOneJob(step)
    ensures Inv(Apply(s, step))
  {
    match step
    case SettingMetadata(id, metadata, accepts) => SetMetadataKeepsInv(s, id, metadata, accepts);
    case FailingMetadata(id, cancelled) => FailMetadataKeepsInv(s, id, cancelled);
    case ApplyingResult(result, now, accepts) => ApplyResultKeepsInv(s, result, now, accepts);
    case Retrying(id, provider, accepts) => RetryFailedKeepsInv(s, id, provider, accepts);
    case Reuploading(id, accepts) => ReuploadKeepsInv(s, id, accepts);
    case Rechatting(id, accepts) => RechatKeepsInv(s, id, accepts);
  }

  lemma StepKeepsInv(s: State, step: Step)
    requires Inv(s)
    ensures Inv(Apply(s, step))
  {
    if OnOneJob(step) {
      JobStepKeepsInv(s, step);
    } else {
      match step
      case AddingPending(file, detected, enabled) => AddPendingKeepsInv(s, file, detected, enabled);
      case DispatchingDue(budget, now, answers) => DispatchDueKeepsInv(s, budget, now, answers);
      case Restoring(records) => RestoreKeepsInv(s, records);
      case Limiting(limit) => SetHistoryLimitKeepsInv(s, limit);
      case Cancelling => CancelAllKeepsInv(s);
    }
  }

  lemma {:induction false} RunKeepsInv(s: State, steps: seq<Step>)
    requires Inv(s)
    ensures Inv(After(s, steps))
  {
    if steps != [] {
      RunKeepsInv(s, steps[..|steps| - 1]);
      StepKeepsInv(After(s, steps[..|steps| - 1]), steps[|steps| - 1]);
    }
  }

  lemma FreshSatisfiesInv(installed: PerProvider<bool>, limit: nat)
    requires 1 <= limit <= MAX_HISTORY_LIMIT
    ensures Inv(Fresh(installed, limit))
  {
  }

  /** No stranded work, in every reachable running state and for every job: a destination that
      waits has the parser or a live dps.report attempt in front of it, and Wingman and DonBot
      run only once dps.report is disabled or has delivered its report. */
  lemma NothingIsStranded(installed: PerProvider<bool>, limit: nat, steps: seq<Step>, e: Entry, p: Provider)
    requires 1 <= limit <= MAX_HISTORY_LIMIT
    requires var s := After(Fresh(installed, limit), steps); !s.stopping && e in s.jobs
    ensures e.State(p).Waiting? ==>
              e.metadataPending || (!p.DpsReport? && Running(e.State(DpsReport)))
    ensures (p.Wingman? || p.DonBot?) && Running(e.State(p)) ==> e.State(DpsReport).Disabled? || e.job.ReportReady()
  {
    FreshSatisfiesInv(installed, limit);
    RunKeepsInv(Fresh(installed, limit), steps);
    var s := After(Fresh(installed, limit), steps);
    var i :| 0 <= i < |s.jobs| && s.jobs[i] == e;
    assert EntryHolds(s.jobs[i], s);
  }

  /** The history is bounded except for live work, in every reachable state. */
  lemma HistoryIsBounded(installed: PerProvider<bool>, limit: nat, steps: seq<Step>)
    requires 1 <= limit <= MAX_HISTORY_LIMIT
    ensures var s := After(Fresh(installed, limit), steps);
            |s.jobs| <= s.limit || AllBusy(s.jobs)
    ensures var s := After(Fresh(installed, limit), steps);
            forall i, j :: 0 <= i < j < |s.jobs| ==> s.jobs[i].job.id < s.jobs[j].job.id
  {
    FreshSatisfiesInv(installed, limit);
    RunKeepsInv(Fresh(installed, limit), steps);
  }

  lemma FinishGrowsHistory(s: State, index: nat, change: Change, trims: bool)
    requires index < |s.jobs|
    ensures var t := Finish(s, index, change, trims).0;
            s.log <= t.log && Next(t) == Next(s) && t.stopping == s.stopping
  {
  }

  lemma JobStepGrowsHistory(s: State, step: Step)
    requires OnOneJob(step)
    ensures s.log <= Apply(s, step).log && Next(s) == Next(Apply(s, step))
    ensures s.stopping ==> Apply(s, step) == s
  {
    var id := if step.ApplyingResult? then step.result.job else step.id;
    var index := IndexOf(s.jobs, id);
    if index.Some? {
      var e := s.jobs[index.value];
      match step
      case SettingMetadata(_, metadata, accepts) =>
        FinishGrowsHistory(s, index.value, SetMetadataEntry(e, metadata, Adapters(s.installed, accepts)), true);
      case FailingMetadata(_, cancelled) =>
        FinishGrowsHistory(s, index.value, FailMetadataEntry(e, cancelled), true);
      case ApplyingResult(result, now, accepts) =>
        FinishGrowsHistory(s, index.value, ApplyResultEntry(e, result, now, Adapters(s.installed, accepts)), true);
      case Retrying(_, provider, accepts) =>
        FinishGrowsHistory(s, index.value, RetryFailedEntry(e, provider, Adapters(s.installed, accepts)), false);
      case Reuploading(_, accepts) =>
        FinishGrowsHistory(s, index.value, ReuploadEntry(e, Adapters(s.installed, accepts)), false);
      case Rechatting(_, accepts) =>
        FinishGrowsHistory(s, index.value, RechatEntry(e, Adapters(s.installed, accepts)), false);
    }
  }

  lemma StepGrowsHistory(s: State, step: Step)
    requires Inv(s)
    ensures s.log <= Apply(s, step).log && Next(s) <= Next(Apply(s, step))
    ensures s.stopping ==> Apply(s, step).stopping && Apply(s, step).log == s.log
  {
    if OnOneJob(step) {
      JobStepGrowsHistory(s, step);
    } else if step.DispatchingDue? && !s.stopping {
      VisitsKeepCore(s, 4 * |s.jobs|, step.budget, step.now, step.answers);
    }
  }

  lemma {:induction false} RunGrowsHistory(s: State, steps: seq<Step>)
    requires Inv(s)
    ensures s.log <= After(s, steps).log && Next(s) <= Next(After(s, steps))
    ensures s.stopping ==> After(s, steps).stopping && After(s, steps).log == s.log
  {
    if steps != [] {
      RunKeepsInv(s, steps[..|steps| - 1]);
      RunGrowsHistory(s, steps[..|steps| - 1]);
      StepGrowsHistory(After(s, steps[..|steps| - 1]), steps[|steps| - 1]);
    }
  }

  /** Ids are never reused: whatever happens between two admissions, the later one gets the
      greater id, and it is greater than the id of every job retained or talked about before. */
  lemma IdsAreNeverReused(s: State, file: LogFile, now: int, enabled: PerProvider<bool>, steps: seq<Step>,
                          file': LogFile, now': int, enabled': PerProvider<bool>)
    requires Inv(s)
    ensures var (t, first) := AddPending(s, file, now, enabled);
            var second := AddPending(After(t, steps), file', now', enabled').1;
            first.Ok? && second.Ok? ==> first.value < second.value
    ensures var second := AddPending(After(s, steps), file', now', enabled').1;
            second.Ok? ==> (forall i :: 0 <= i < |s.jobs| ==> s.jobs[i].job.id < second.value)
                           && (forall k :: 0 <= k < |s.log| ==> s.log[k].job < second.value)
  {
    var t := AddPending(s, file, now, enabled).0;
    AddPendingKeepsInv(s, file, now, enabled);
    RunKeepsInv(t, steps);
    RunGrowsHistory(t, steps);
    RunKeepsInv(s, steps);
    RunGrowsHistory(s, steps);
    AddPendingKeepsInv(After(t, steps), file', now', enabled');
    AddPendingKeepsInv(After(s, steps), file', now', enabled');
  }

  /** Replay safety and result correlation over whole runs, whatever providers, clocks and users
      do: a settled attempt is repeated only on an explicit request, an attempt is answered at
      most once, and attempt numbers only grow. */
  lemma RunsAreReplaySafe(installed: PerProvider<bool>, limit: nat, steps: seq<Step>, i: nat, j: nat)
    requires 1 <= limit <= MAX_HISTORY_LIMIT
    requires i < j < |After(Fresh(installed, limit), steps).log|
    requires var log := After(Fresh(installed, limit), steps).log; SameChannel(log[i], log[j])
    ensures var log := After(Fresh(installed, limit), steps).log;
            && (log[i].Settled? && log[j].Requested? ==> !log[j].intent.Automatic?)
            && (log[i].Answer() && log[j].Answer() ==> log[i].attempt < log[j].attempt)
            && (log[i].Requested? && log[j].Requested? ==> log[i].attempt < log[j].attempt)
  {
    FreshSatisfiesInv(installed, limit);
    RunKeepsInv(Fresh(installed, limit), steps);
    var log := After(Fresh(installed, limit), steps).log;
    if log[i].Settled? && log[j].Requested? {
      SettledWorkIsNeverRepeatedAutomatically(log, i, j);
    }
    if log[i].Answer() && log[j].Answer() {
      AnswersAreDistinct(log, i, j);
    }
    if log[i].Requested? && log[j].Requested? {
      var k := RequestsAreSeparated(log, i, j);
    }
  }

  /** Every accepted result is in the log as the answer it gave, so a duplicate or a late
      result is refused, and a refused result changes nothing. */
  lemma AcceptedResultsAreLogged(s: State, result: UploadResult, now: nat, accepts: Accepts)
    requires Inv(s)
    ensures var (t, error) := ApplyResult(s, result, now, accepts);
            && (error.Some? ==> t == s)
            && (error.None? ==>
                  |s.log| < |t.log| && t.log[..|s.log|] == s.log
                  && var answer := t.log[|s.log|];
                     answer.Answer() && answer.job == result.job && answer.provider == result.provider
                     && answer.attempt == result.attempt && (answer.Deferred? <==> result.outcome.RetryAfter?))
  {
    ApplyResultKeepsInv(s, result, now, accepts);
    var index := IndexOf(s.jobs, result.job);
    if !s.stopping && index.Some? {
      var change := ApplyResultEntry(s.jobs[index.value], result, now, Adapters(s.installed, accepts));
      if change.error.None? {
        AcceptedResultAnswers(s.jobs[index.value], result, now, Adapters(s.installed, accepts));
      }
    }
  }

  /** A well-formed success for the active attempt of a job created in this process is always
      accepted. */
  lemma SuccessIsAccepted(s: State, e: Entry, result: UploadResult, now: nat, accepts: Accepts)
    requires Inv(s) && !s.stopping && e in s.jobs && e.job.id == result.job
    requires e.State(result.provider).Active? && e.job.Attempts(result.provider) == result.attempt
    requires WellFormedSuccess(result.provider, result.outcome)
    ensures e.job.id > s.restoredCount || Clean(e.job) ==> ApplyResult(s, result, now, accepts).1.None?
    ensures ApplyResult(s, result, now, accepts).1.None? <==> !SlotTaken(e.job, result.outcome)
  {
    var i :| 0 <= i < |s.jobs| && s.jobs[i] == e;
    var index := IndexOf(s.jobs, result.job);
    assert index == Some(i);
    assert EntryHolds(s.jobs[i], s);
    SuccessRefusedIffSlotTaken(e, result, now, Adapters(s.installed, accepts));
  }
}
