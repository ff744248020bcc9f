/** The chat recovery of a rejected lease, lock section by lock section, and what every recovery
    keeps. Between two lock sections the others may take any steps of their own. */
module SessionRecovery {
  import opened Outcomes
  import opened Times
  import opened ByteStrings
  import opened TwitchSession
  import opened TwitchPorts
  import opened Spec = SessionOwnerSpec

  datatype Refusal = Refusal(code: DeliveryErrorCode, retryAfter: Option<nat>)

  function Plain(code: DeliveryErrorCode): Refusal {
    Refusal.Refusal(code, None)
  }

  function OwnerRefusal(error: OwnerError): Refusal {
    Plain(DeliveryCode(error))
  }

  function ApiRefusal(error: ApiError): Refusal {
    var code := match error.disposition
      case DoRetry => Retry
      case DoReconnect => ReconnectRequired
      case DoFail => Failed
      case DoCancel => Cancelled;
    Refusal.Refusal(code, UsableDelay(error.retryAfter))
  }

  predicate Transient(error: ApiError) {
    error.disposition.DoRetry? || error.disposition.DoCancel?
  }

  /** How a call ends: a lease, a refusal, or a panic of one of its ports. */
  datatype Outcome = Leased(lease: Lease) | Refused(refusal: Refusal) | Unwound

  /** The answers during one recovery: the stop token's readings, the two validations around
      the refresh, the clock, which may panic, and the protected store. */
  datatype Script = Script(
    stops: nat -> bool,
    validated: Answer<Identity>,
    refreshed: Answer<Grant>,
    revalidated: Answer<Identity>,
    clock: nat -> Option<int>,
    persisted: StorageAnswer,
    committed: StorageAnswer,
    erased: StorageAnswer)

  // ---------------------------------------------------------------- the plan of a recovery

  datatype Expiry = Expires(at: int) | BadExpiry | ClockPanicked

  function ExpiryOf(duration: nat, clock: Option<int>): Expiry {
    if !ValidDuration(duration) then BadExpiry
    else if clock.None? then ClockPanicked
    else if AddDuration(clock.value, duration).None? then BadExpiry
    else Expires(AddDuration(clock.value, duration).value)
  }

  datatype Applied = Updated(session: Session) | Rejected | Panicking

  /** The session with a validated identity, if it is the same user's and can be stored. */
  function ApplyIdentity(session: Session, identity: Identity, clock: Option<int>): Applied {
    if identity.userId != session.userId then Rejected
    else
      match ExpiryOf(identity.expiresIn, clock)
      case BadExpiry => Rejected
      case ClockPanicked => Panicking
      case Expires(at) =>
        var updated := session.(expiresAt := at, login := identity.login, scopes := identity.scopes);
        if Encoded(updated).Err? then Rejected else Updated(updated)
  }

  /** How a recovery that nobody shuts down ends: the session goes back unchanged, is dropped,
      is replaced, or the recovery panics. */
  datatype Ending =
    | GiveBack(refusal: Refusal)
    | Drop(refusal: Refusal, erase: bool)
    | Replace(session: Session)
    | Panic

  function Concluded(applied: Applied): Ending {
    match applied
    case Updated(session) => Replace(session)
    case Rejected => Drop(Plain(ReconnectRequired), true)
    case Panicking => Panic
  }

  function Rotated(session: Session, grant: Grant, at: int): Session {
    Session(grant.access, grant.refresh, at, session.userId, session.login, grant.scopes)
  }

  /** From the granted refresh on. */
  function RotationEnding(session: Session, grant: Grant, script: Script): Ending {
    if script.stops(3) then Drop(Plain(Cancelled), true)
    else
      match ExpiryOf(grant.expiresIn, script.clock(0))
      case BadExpiry => Drop(Plain(ReconnectRequired), true)
      case ClockPanicked => Panic
      case Expires(at) =>
        PersistEnding(Rotated(session, grant, at), script)
  }

  function PersistEnding(rotated: Session, script: Script): Ending {
    var write := Persist(None, rotated, script.persisted);
    if write.error.Some? then Drop(OwnerRefusal(write.error.value), false) else RevalidationEnding(rotated, script)
  }

  /** From the persisted rotation on. */
  function RevalidationEnding(rotated: Session, script: Script): Ending {
    if script.stops(4) then Drop(Plain(Cancelled), true)
    else if script.revalidated.Panicked? then Panic
    else if script.stops(5) then Drop(Plain(Cancelled), true)
    else if script.revalidated.Failure? then Drop(ApiRefusal(script.revalidated.error), true)
    else Concluded(ApplyIdentity(rotated, script.revalidated.value, script.clock(1)))
  }

  function PlannedEnding(session: Session, script: Script): Ending {
    if script.stops(0) then GiveBack(Plain(Cancelled))
    else if script.validated.Panicked? then Panic
    else if script.stops(1) then GiveBack(Plain(Cancelled))
    else if script.validated.Answered? then Concluded(ApplyIdentity(session, script.validated.value, script.clock(0)))
    else if !script.validated.error.disposition.DoReconnect? then
      if Transient(script.validated.error) then GiveBack(ApiRefusal(script.validated.error))
      else Drop(ApiRefusal(script.validated.error), false)
    else RefreshEnding(session, script)
  }

  /** Twitch rejected the access token. */
  function RefreshEnding(session: Session, script: Script): Ending {
    if script.stops(2) then GiveBack(Plain(Cancelled))
    else
      match script.refreshed
      case Panicked => Panic
      case Failure(error) =>
        if Transient(error) then GiveBack(ApiRefusal(error)) else Drop(ApiRefusal(error), true)
      case Answered(grant) => RotationEnding(session, grant, script)
  }

  /** Whether the run, left alone, gets as far as a granted refresh. */
  predicate GetsGrant(script: Script) {
    !script.stops(0) && !script.stops(1) && !script.stops(2) && script.refreshed.Answered?
    && script.validated.Failure? && script.validated.error.disposition.DoReconnect?
  }

  /** Every way out that gives the session back is one before the refresh was granted; and
      whatever replaces the session is storable and belongs to the same user. */
  lemma EndingsAreSafe(session: Session, script: Script)
    ensures var ending := PlannedEnding(session, script);
            && (ending.Replace? ==> Encoded(ending.session).Ok? && ending.session.userId == session.userId)
            && (ending.GiveBack? ==> !GetsGrant(script))
            && (ending.Drop? && !ending.erase ==>
                  (script.validated.Failure? && script.validated.error.disposition.DoFail?)
                  || (GetsGrant(script) && (script.persisted != Done || ending.refusal == OwnerRefusal(EncodeFailed))))
  {
  }

  function DropRefusal(refusal: Refusal, erase: bool, erased: StorageAnswer): Refusal {
    if erase && Erase(None, erased).error.Some? then OwnerRefusal(Erase(None, erased).error.value) else refusal
  }

  /** What a recovery that ends as planned leaves behind. The open transaction is closed except
      by a panic, which the caller closes; after a shutdown nothing more than that is left. */
  ghost predicate Settled(before: Spec.Owner, after: Spec.Owner, id: nat, session: Session, ending: Ending, script: Script, outcome: Outcome) {
    && Valid(after) && Later(before, after)
    && (outcome.Leased? ==> ending.Replace? && outcome.lease.revision > before.revision && !after.stopping)
    && (!outcome.Unwound? ==> !Holds(after, id))
    && (!after.stopping ==>
          match ending
          case GiveBack(refusal) =>
            outcome == Refused(refusal) && after == before.(active := Some(session), pending := None, log := before.log + [Restored(id)])
          case Drop(refusal, erase) =>
            && outcome == Refused(DropRefusal(refusal, erase, script.erased))
            && after.active.None? && after.pending.None? && after.log == before.log + [Discarded(id)]
            && (erase && script.erased.Done? ==> after.store.None?)
          case Replace(replacement) =>
            if script.committed.Done?
            then before.log + [Committed(id, before.revision + 1, replacement)] <= after.log && after.revision > before.revision && !outcome.Unwound?
            else outcome == Refused(OwnerRefusal(Persist(None, replacement, script.committed).error.value))
                 && before.log + [Discarded(id)] <= after.log
          case Panic => outcome.Unwound? && Holds(after, id) && after.log == before.log)
  }

  /** The state a planned ending starts from: a granted refresh has been noted by then. */
  function Noted(o: Spec.Owner, id: nat, granted: bool): Spec.Owner {
    if granted then Spec.NoteRefresh(o, id) else o
  }

  /** What a recovery leaves behind, shut down in between or not. */
  ghost predicate Recovered(before: Spec.Owner, after: Spec.Owner, id: nat, session: Session, ending: Ending, granted: bool,
                            script: Script, outcome: Outcome) {
    && Valid(after) && Later(before, after)
    && (outcome.Leased? ==> !after.stopping)
    && (!after.stopping ==> Settled(Noted(before, id, granted), after, id, session, ending, script, outcome))
  }

  /** What happened before the last stretch of a recovery does not show, unless it was the end. */
  ghost predicate Unchanged(before: Spec.Owner, mid: Spec.Owner, ending: Ending) {
    mid.stopping || mid == before || (!ending.GiveBack? && mid.log == before.log && mid.revision == before.revision)
  }

  lemma SettledSince(before: Spec.Owner, mid: Spec.Owner, after: Spec.Owner, id: nat, session: Session, ending: Ending,
                     script: Script, outcome: Outcome)
    requires Settled(mid, after, id, session, ending, script, outcome)
    requires Later(before, mid) && Unchanged(before, mid, ending)
    ensures Settled(before, after, id, session, ending, script, outcome)
  {
  }

  /** After a shutdown the way out need not be the planned one, but it does not lease. */
  lemma SettledOr(before: Spec.Owner, mid: Spec.Owner, after: Spec.Owner, id: nat, session: Session, taken: Ending, planned: Ending,
                  script: Script, outcome: Outcome)
    requires Settled(mid, after, id, session, taken, script, outcome)
    requires Later(before, mid) && Unchanged(before, mid, taken)
    requires taken == planned || (mid.stopping && !taken.Replace?)
    ensures Settled(before, after, id, session, planned, script, outcome)
  {
    SettledSince(before, mid, after, id, session, taken, script, outcome);
  }

  predicate Borrows(o: Spec.Owner, rejected: Lease, stop: bool) {
    !stop && StartRecovery(o, rejected).1.Borrowed?
  }

  // ---------------------------------------------------------------- a recovery, step by step

  /** What a call leaves and how it ends. */
  datatype Return = Return(world: World, outcome: Outcome)

  datatype Checkpoint = Checkpoint(world: World, refusal: Option<Refusal>)

  function Checked(w: World, id: nat, stop: bool): Checkpoint {
    if stop then Checkpoint(w, Some(Plain(Cancelled)))
    else
      var seen := Yielded(w, id);
      var error := Check(seen.owner, id);
      Checkpoint(seen, if error.Some? then Some(OwnerRefusal(error.value)) else None)
  }

  function GivenBack(w: World, id: nat, session: Session, refusal: Refusal): Return {
    var seen := Yielded(w, id);
    var (after, error) := Restore(seen.owner, id, session);
    Return(seen.(owner := after), Refused(if error.Some? then OwnerRefusal(error.value) else refusal))
  }

  function Dropped(w: World, id: nat, refusal: Refusal, erase: bool, script: Script): Return {
    var seen := Yielded(w, id);
    var (after, error) := Discard(seen.owner, id, erase, script.erased);
    Return(seen.(owner := after), Refused(if error.Some? then OwnerRefusal(error.value) else refusal))
  }

  /** A transaction given up on after a panic or a failed publication. */
  function Abandoned(w: World, id: nat, script: Script): World {
    var seen := Yielded(w, id);
    seen.(owner := Discard(seen.owner, id, false, script.erased).0)
  }

  function LeaseAt(o: Spec.Owner, stop: bool): Outcome {
    if stop then Refused(Plain(Cancelled))
    else if Spec.Acquire(o).Ok? then Leased(Spec.Acquire(o).value)
    else Refused(Plain(Spec.Acquire(o).error))
  }

  /** Publishes the recovered session and leases whatever is active then, or drops it. */
  function Finished(w: World, id: nat, session: Session, script: Script): Return {
    var seen := Yielded(w, id);
    var (after, committed) := Commit(seen.owner, id, session, script.committed);
    var left := seen.(owner := after);
    if committed.Ok? then Return(Yielded(left, id), LeaseAt(Yielded(left, id).owner, script.stops(6)))
    else Return(Abandoned(left, id, script), Refused(OwnerRefusal(committed.error)))
  }

  function Adopting(w: World, id: nat, applied: Applied, script: Script): Return {
    match applied
    case Rejected => Dropped(w, id, Plain(ReconnectRequired), true, script)
    case Panicking => Return(w, Unwound)
    case Updated(updated) => Finished(w, id, updated, script)
  }

  function Revalidating(w: World, id: nat, rotated: Session, script: Script): Return {
    var first := Checked(w, id, script.stops(4));
    if first.refusal.Some? then Dropped(first.world, id, first.refusal.value, true, script)
    else if script.revalidated.Panicked? then Return(first.world, Unwound)
    else
      var second := Checked(first.world, id, script.stops(5));
      if second.refusal.Some? then Dropped(second.world, id, second.refusal.value, true, script)
      else if script.revalidated.Failure? then Dropped(second.world, id, ApiRefusal(script.revalidated.error), true, script)
      else Adopting(second.world, id, ApplyIdentity(rotated, script.revalidated.value, script.clock(1)), script)
  }

  function Persisting(w: World, id: nat, rotated: Session, script: Script): Return {
    var seen := Yielded(w, id);
    var (after, error) := PersistPending(seen.owner, id, rotated, script.persisted);
    var left := seen.(owner := after);
    if error.Some? then Dropped(left, id, OwnerRefusal(error.value), false, script) else Revalidating(left, id, rotated, script)
  }

  function Rotating(w: World, id: nat, session: Session, grant: Grant, script: Script): Return {
    var checked := Checked(w, id, script.stops(3));
    if checked.refusal.Some? then Dropped(checked.world, id, checked.refusal.value, true, script)
    else
      match ExpiryOf(grant.expiresIn, script.clock(0))
      case BadExpiry => Dropped(checked.world, id, Plain(ReconnectRequired), true, script)
      case ClockPanicked => Return(checked.world, Unwound)
      case Expires(at) => Persisting(checked.world, id, Rotated(session, grant, at), script)
  }

  /** What Twitch makes of the refresh token. */
  function RefreshAnswered(w: World, id: nat, session: Session, script: Script): Return {
    match script.refreshed
    case Panicked => Return(w, Unwound)
    case Failure(error) =>
      if Transient(error) then GivenBack(w, id, session, ApiRefusal(error)) else Dropped(w, id, ApiRefusal(error), true, script)
    case Answered(grant) => Rotating(w.(owner := Spec.NoteRefresh(w.owner, id)), id, session, grant, script)
  }

  function RefreshingCurrent(w: World, id: nat, session: Session, script: Script): Return {
    var checked := Checked(w, id, script.stops(2));
    if checked.refusal.Some? then GivenBack(checked.world, id, session, checked.refusal.value)
    else RefreshAnswered(checked.world, id, session, script)
  }

  function Concluding(w: World, id: nat, session: Session, script: Script): Return {
    match script.validated
    case Panicked => Return(w, Unwound)
    case Answered(identity) => Adopting(w, id, ApplyIdentity(session, identity, script.clock(0)), script)
    case Failure(error) =>
      if error.disposition.DoReconnect? then RefreshingCurrent(w, id, session, script)
      else if Transient(error) then GivenBack(w, id, session, ApiRefusal(error))
      else Dropped(w, id, ApiRefusal(error), false, script)
  }

  function RecoveringCurrent(w: World, id: nat, session: Session, script: Script): Return {
    var first := Checked(w, id, script.stops(0));
    if first.refusal.Some? then GivenBack(first.world, id, session, first.refusal.value)
    else if script.validated.Panicked? then Return(first.world, Unwound)
    else
      var second := Checked(first.world, id, script.stops(1));
      if second.refusal.Some? then GivenBack(second.world, id, session, second.refusal.value)
      else Concluding(second.world, id, session, script)
  }

  /** A panic on the way drops the session without erasing the record. */
  function Caught(r: Return, id: nat, script: Script): Return {
    if !r.outcome.Unwound? then r else Return(Abandoned(r.world, id, script), Refused(Plain(Failed)))
  }

  function Recovering(w: World, rejected: Lease, script: Script, stop: bool): Return {
    if stop then Return(w, Refused(Plain(Cancelled)))
    else
      var (begun, start) := StartRecovery(w.owner, rejected);
      match start
      case Refusal(code) => Return(w, Refused(Plain(code)))
      case Newer(lease) => Return(w, Leased(lease))
      case Borrowed(transaction) =>
        Caught(RecoveringCurrent(w.(owner := begun), transaction.id, transaction.session, script), transaction.id, script)
  }

  // ---------------------------------------------------------------- what every recovery keeps

  /** The transaction is ours as we borrowed it, or gone with the shutdown. */
  ghost predicate Borrowing(o: Spec.Owner, id: nat, session: Session) {
    && Valid(o) && 1 <= id < o.nextTransaction
    && (o.stopping || (Holds(o, id) && o.pending.value.restorable && o.lent == Some(session) && !o.tainted && !o.refreshed))
  }

  /** Ours, for this user, whether it may still be restored or not. */
  ghost predicate Holding(o: Spec.Owner, id: nat, userId: Bytes) {
    && Valid(o) && 1 <= id < o.nextTransaction
    && (o.stopping || (Holds(o, id) && o.pending.value.userId == Some(userId)))
  }

  lemma YieldedOutcome(w: World, id: nat)
    requires Valid(w.owner)
    ensures Valid(Yielded(w, id).owner) && Undisturbed(w.owner, Yielded(w, id).owner, id)
  {
    OthersUndisturbed(w.owner, w.others(w.turn), id);
  }

  /** A check that passes found the owner as it was left. */
  lemma CheckedOutcome(w: World, id: nat, stop: bool)
    requires Valid(w.owner) && 1 <= id < w.owner.nextTransaction && (w.owner.stopping || Holds(w.owner, id))
    ensures var checked := Checked(w, id, stop);
            && Valid(checked.world.owner) && Later(w.owner, checked.world.owner) && id < checked.world.owner.nextTransaction
            && (checked.world.owner == w.owner || checked.world.owner.stopping)
            && (checked.refusal.None? ==> checked.world.owner == w.owner && !w.owner.stopping && Holds(w.owner, id))
            && (checked.refusal.Some? && !checked.world.owner.stopping ==> stop && checked.refusal == Some(Plain(Cancelled)))
  {
    YieldedOutcome(w, id);
  }

  lemma GivenBackIsSettled(w: World, id: nat, session: Session, refusal: Refusal, script: Script)
    requires Borrowing(w.owner, id, session)
    ensures var r := GivenBack(w, id, session, refusal);
            Settled(w.owner, r.world.owner, id, session, GiveBack(refusal), script, r.outcome)
  {
    YieldedOutcome(w, id);
    RestoreKeepsValid(Yielded(w, id).owner, id, session);
  }

  lemma DroppedIsSettled(w: World, id: nat, session: Session, refusal: Refusal, erase: bool, script: Script)
    requires Holding(w.owner, id, session.userId)
    ensures var r := Dropped(w, id, refusal, erase, script);
            Settled(w.owner, r.world.owner, id, session, Drop(refusal, erase), script, r.outcome)
  {
    YieldedOutcome(w, id);
    DiscardKeepsValid(Yielded(w, id).owner, id, erase, script.erased);
  }

  lemma AbandonedOutcome(w: World, id: nat, script: Script)
    requires Valid(w.owner) && 1 <= id < w.owner.nextTransaction
    ensures var after := Abandoned(w, id, script).owner;
            && Valid(after) && Later(w.owner, after) && !Holds(after, id)
            && (after.stopping || !Holds(w.owner, id) || after.log == w.owner.log + [Discarded(id)])
  {
    YieldedOutcome(w, id);
    DiscardKeepsValid(Yielded(w, id).owner, id, false, script.erased);
  }

  lemma PublishedOutcome(w: World, id: nat, session: Session, script: Script)
    requires Holding(w.owner, id, session.userId) && Encoded(session).Ok?
    ensures var seen := Yielded(w, id);
            var (after, committed) := Commit(seen.owner, id, session, script.committed);
            && Valid(after) && Later(w.owner, after) && id < after.nextTransaction
            && (committed.Ok? ==> script.committed.Done? && !after.stopping && !Holds(after, id) && after.revision == w.owner.revision + 1
                                  && after.log == w.owner.log + [Committed(id, after.revision, session)])
            && (committed.Err? ==> after.stopping || Holds(after, id))
            && (committed.Err? && !after.stopping ==>
                  Some(committed.error) == Persist(None, session, script.committed).error && after.log == w.owner.log)
  {
    YieldedOutcome(w, id);
    CommitOutcome(Yielded(w, id).owner, id, session, script.committed);
  }

  lemma FinishedIsSettled(w: World, id: nat, lent: Session, session: Session, script: Script)
    requires Holding(w.owner, id, session.userId) && Encoded(session).Ok?
    ensures var r := Finished(w, id, session, script);
            Settled(w.owner, r.world.owner, id, lent, Replace(session), script, r.outcome)
  {
    PublishedOutcome(w, id, session, script);
    var seen := Yielded(w, id);
    var (after, committed) := Commit(seen.owner, id, session, script.committed);
    var left := seen.(owner := after);
    if committed.Ok? {
      YieldedOutcome(left, id);
    } else {
      AbandonedOutcome(left, id, script);
    }
  }

  lemma AdoptingIsSettled(w: World, id: nat, lent: Session, session: Session, applied: Applied, script: Script)
    requires Holding(w.owner, id, session.userId) && lent.userId == session.userId
    requires !applied.Panicking? || (!w.owner.stopping && Holds(w.owner, id))
    requires applied.Updated? ==> applied.session.userId == session.userId && Encoded(applied.session).Ok?
    ensures var r := Adopting(w, id, applied, script);
            Settled(w.owner, r.world.owner, id, lent, Concluded(applied), script, r.outcome)
  {
    match applied
    case Rejected => DroppedIsSettled(w, id, lent, Plain(ReconnectRequired), true, script);
    case Panicking =>
    case Updated(updated) => FinishedIsSettled(w, id, lent, updated, script);
  }

  lemma RevalidatingIsSettled(w: World, id: nat, lent: Session, rotated: Session, script: Script)
    requires Holding(w.owner, id, rotated.userId) && lent.userId == rotated.userId
    ensures var r := Revalidating(w, id, rotated, script);
            Settled(w.owner, r.world.owner, id, lent, RevalidationEnding(rotated, script), script, r.outcome)
  {
    var first := Checked(w, id, script.stops(4));
    CheckedOutcome(w, id, script.stops(4));
    if first.refusal.Some? {
      DropAfterCheck(w, first, id, lent, RevalidationEnding(rotated, script), script);
    } else if !script.revalidated.Panicked? {
      var second := Checked(first.world, id, script.stops(5));
      CheckedOutcome(first.world, id, script.stops(5));
      if second.refusal.Some? {
        DropAfterCheck(w, second, id, lent, RevalidationEnding(rotated, script), script);
      } else if script.revalidated.Failure? {
        DroppedIsSettled(second.world, id, lent, ApiRefusal(script.revalidated.error), true, script);
      } else {
        AdoptingIsSettled(second.world, id, lent, rotated, ApplyIdentity(rotated, script.revalidated.value, script.clock(1)), script);
      }
    }
  }

  /** A check that fails drops the session; unless the owner was shut down that was the plan. */
  lemma DropAfterCheck(w: World, checked: Checkpoint, id: nat, session: Session, planned: Ending, script: Script)
    requires checked.refusal.Some? && Holding(checked.world.owner, id, session.userId) && Later(w.owner, checked.world.owner)
    requires checked.world.owner.stopping || (checked.world.owner == w.owner && planned == Drop(checked.refusal.value, true))
    ensures var r := Dropped(checked.world, id, checked.refusal.value, true, script);
            Settled(w.owner, r.world.owner, id, session, planned, script, r.outcome)
  {
    DroppedIsSettled(checked.world, id, session, checked.refusal.value, true, script);
    var r := Dropped(checked.world, id, checked.refusal.value, true, script);
    SettledOr(w.owner, checked.world.owner, r.world.owner, id, session, Drop(checked.refusal.value, true), planned, script, r.outcome);
  }

  lemma PersistedOutcome(w: World, id: nat, rotated: Session, script: Script)
    requires Holding(w.owner, id, rotated.userId)
    ensures var seen := Yielded(w, id);
            var (after, error) := PersistPending(seen.owner, id, rotated, script.persisted);
            && Holding(after, id, rotated.userId) && Later(w.owner, after)
            && (after.stopping ==> error.Some?)
            && (!after.stopping ==> after.log == w.owner.log && after.revision == w.owner.revision
                                    && error == Persist(None, rotated, script.persisted).error)
  {
    YieldedOutcome(w, id);
    PersistKeepsValid(Yielded(w, id).owner, id, rotated, script.persisted);
  }

  lemma PersistingIsSettled(w: World, id: nat, lent: Session, rotated: Session, script: Script)
    requires Holding(w.owner, id, rotated.userId) && lent.userId == rotated.userId
    ensures var r := Persisting(w, id, rotated, script);
            Settled(w.owner, r.world.owner, id, lent, PersistEnding(rotated, script), script, r.outcome)
  {
    var seen := Yielded(w, id);
    var (after, error) := PersistPending(seen.owner, id, rotated, script.persisted);
    var left, r := seen.(owner := after), Persisting(w, id, rotated, script);
    PersistedOutcome(w, id, rotated, script);
    var taken := if error.Some? then Drop(OwnerRefusal(error.value), false) else RevalidationEnding(rotated, script);
    if error.Some? {
      DroppedIsSettled(left, id, lent, OwnerRefusal(error.value), false, script);
    } else {
      RevalidatingIsSettled(left, id, lent, rotated, script);
    }
    SettledOr(w.owner, after, r.world.owner, id, lent, taken, PersistEnding(rotated, script), script, r.outcome);
  }

  /** From the granted refresh on: the old refresh token may be dead, so the session lent is
      never given back. */
  lemma RotatingIsSettled(w: World, id: nat, session: Session, grant: Grant, script: Script)
    requires Holding(w.owner, id, session.userId)
    ensures var r := Rotating(w, id, session, grant, script);
            Settled(w.owner, r.world.owner, id, session, RotationEnding(session, grant, script), script, r.outcome)
  {
    var checked := Checked(w, id, script.stops(3));
    CheckedOutcome(w, id, script.stops(3));
    if checked.refusal.Some? {
      DropAfterCheck(w, checked, id, session, RotationEnding(session, grant, script), script);
    } else {
      match ExpiryOf(grant.expiresIn, script.clock(0))
      case BadExpiry => DroppedIsSettled(checked.world, id, session, Plain(ReconnectRequired), true, script);
      case ClockPanicked =>
      case Expires(at) => PersistingIsSettled(checked.world, id, session, Rotated(session, grant, at), script);
    }
  }

  /** A check that fails before the refresh gives the session back. */
  lemma GiveBackAfterCheck(w: World, checked: Checkpoint, id: nat, session: Session, planned: Ending, granted: bool, script: Script)
    requires checked.refusal.Some? && Borrowing(checked.world.owner, id, session) && Later(w.owner, checked.world.owner)
    requires checked.world.owner.stopping || (checked.world.owner == w.owner && planned == GiveBack(checked.refusal.value) && !granted)
    ensures var r := GivenBack(checked.world, id, session, checked.refusal.value);
            Recovered(w.owner, r.world.owner, id, session, planned, granted, script, r.outcome)
  {
    GivenBackIsSettled(checked.world, id, session, checked.refusal.value, script);
  }

  lemma RefreshAnsweredIsRecovered(w: World, id: nat, session: Session, script: Script)
    requires Borrowing(w.owner, id, session) && !w.owner.stopping && !script.stops(2)
    ensures var r := RefreshAnswered(w, id, session, script);
            Recovered(w.owner, r.world.owner, id, session, RefreshEnding(session, script), script.refreshed.Answered?, script, r.outcome)
  {
    match script.refreshed
    case Panicked =>
    case Failure(error) =>
      if Transient(error) {
        GivenBackIsSettled(w, id, session, ApiRefusal(error), script);
      } else {
        DroppedIsSettled(w, id, session, ApiRefusal(error), true, script);
      }
    case Answered(grant) =>
      NoteRefreshKeepsValid(w.owner, id);
      RotatingIsSettled(w.(owner := Spec.NoteRefresh(w.owner, id)), id, session, grant, script);
  }

  lemma RefreshingIsRecovered(w: World, id: nat, session: Session, script: Script)
    requires Borrowing(w.owner, id, session)
    ensures var r := RefreshingCurrent(w, id, session, script);
            Recovered(w.owner, r.world.owner, id, session, RefreshEnding(session, script),
                      !script.stops(2) && script.refreshed.Answered?, script, r.outcome)
  {
    var checked := Checked(w, id, script.stops(2));
    CheckedOutcome(w, id, script.stops(2));
    if checked.refusal.Some? {
      GiveBackAfterCheck(w, checked, id, session, RefreshEnding(session, script), !script.stops(2) && script.refreshed.Answered?, script);
    } else {
      assert RefreshingCurrent(w, id, session, script) == RefreshAnswered(checked.world, id, session, script);
      RefreshAnsweredIsRecovered(checked.world, id, session, script);
    }
  }

  lemma ConcludingIsRecovered(w: World, id: nat, session: Session, script: Script)
    requires Borrowing(w.owner, id, session) && !w.owner.stopping
    requires !script.stops(0) && !script.stops(1) && !script.validated.Panicked?
    ensures var r := Concluding(w, id, session, script);
            Recovered(w.owner, r.world.owner, id, session, PlannedEnding(session, script), GetsGrant(script), script, r.outcome)
  {
    match script.validated
    case Answered(identity) =>
      AdoptingIsSettled(w, id, session, session, ApplyIdentity(session, identity, script.clock(0)), script);
    case Failure(error) =>
      if error.disposition.DoReconnect? {
        RefreshingIsRecovered(w, id, session, script);
      } else if Transient(error) {
        GivenBackIsSettled(w, id, session, ApiRefusal(error), script);
      } else {
        DroppedIsSettled(w, id, session, ApiRefusal(error), false, script);
      }
  }

  /** A borrowed session is checked, refreshed if Twitch rejects it, and handed back, dropped or
      replaced as planned. Only the session as it was borrowed is ever given back. */
  lemma RecoveringCurrentIsRecovered(w: World, id: nat, session: Session, script: Script)
    requires Borrowing(w.owner, id, session)
    ensures var r := RecoveringCurrent(w, id, session, script);
            Recovered(w.owner, r.world.owner, id, session, PlannedEnding(session, script), GetsGrant(script), script, r.outcome)
  {
    var first := Checked(w, id, script.stops(0));
    CheckedOutcome(w, id, script.stops(0));
    if first.refusal.Some? {
      GiveBackAfterCheck(w, first, id, session, PlannedEnding(session, script), GetsGrant(script), script);
    } else if !script.validated.Panicked? {
      var second := Checked(first.world, id, script.stops(1));
      CheckedOutcome(first.world, id, script.stops(1));
      if second.refusal.Some? {
        GiveBackAfterCheck(w, second, id, session, PlannedEnding(session, script), GetsGrant(script), script);
      } else {
        ConcludingIsRecovered(second.world, id, session, script);
      }
    }
  }

  lemma RecoveredCloses(before: Spec.Owner, after: Spec.Owner, id: nat, session: Session, ending: Ending, granted: bool,
                        script: Script, outcome: Outcome)
    requires Recovered(before, after, id, session, ending, granted, script, outcome) && 1 <= id < before.nextTransaction
    ensures Valid(after) && Later(before, after) && id < after.nextTransaction
    ensures !outcome.Unwound? ==> !Holds(after, id)
    ensures outcome.Unwound? && !after.stopping ==> Holds(after, id) && ending.Panic?
    ensures outcome.Leased? ==> outcome.lease.revision > before.revision
  {
  }

  /** Chat delivery's recovery of a rejected lease. Whatever the ports answer and the others do,
      the transaction it opens is closed when it returns, it ends as planned unless the owner is
      shut down, and a lease it returns is of a later generation than the rejected one. */
  lemma RecoveringIsSafe(w: World, rejected: Lease, script: Script, stop: bool)
    requires Valid(w.owner)
    ensures var r := Recovering(w, rejected, script, stop);
            var after := r.world.owner;
            && Valid(after) && Later(w.owner, after) && !r.outcome.Unwound?
            && (r.outcome.Leased? ==> r.outcome.lease.revision > rejected.revision)
            && !Holds(after, w.owner.nextTransaction)
            && (!Borrows(w.owner, rejected, stop) ==> after == w.owner)
            && (Borrows(w.owner, rejected, stop) && !after.stopping ==>
                  var id, session := w.owner.nextTransaction, w.owner.active.value;
                  var planned := PlannedEnding(session, script);
                  if planned.Panic? then r.outcome == Refused(Plain(Failed)) && Discarded(id) in after.log
                  else Settled(Noted(Lend(w.owner), id, GetsGrant(script)), after, id, session, planned, script, r.outcome))
  {
    if Borrows(w.owner, rejected, stop) {
      var id, session := w.owner.nextTransaction, w.owner.active.value;
      OpeningKeepsValid(w.owner, StartingRecovery(rejected));
      var begun := w.(owner := Lend(w.owner));
      var inner := RecoveringCurrent(begun, id, session, script);
      RecoveringCurrentIsRecovered(begun, id, session, script);
      RecoveredCloses(begun.owner, inner.world.owner, id, session, PlannedEnding(session, script), GetsGrant(script), script, inner.outcome);
      if inner.outcome.Unwound? {
        AbandonedOutcome(inner.world, id, script);
      }
    }
  }

  // ---------------------------------------------------------------- an undisturbed recovery

  ghost predicate Carries(w: World, id: nat, userId: Bytes) {
    Alone(w) && !w.owner.stopping && Holds(w.owner, id) && w.owner.pending.value.userId == Some(userId)
  }

  /** The session is active under the next revision, stored, and leased. */
  ghost predicate Renewed(w: World, r: Return, session: Session) {
    && r.outcome == Leased(LeaseOf(session, w.owner.revision + 1))
    && r.world.owner.active == Some(session) && Stored(r.world.owner.store, session)
  }

  lemma FinishedAlone(w: World, id: nat, session: Session, script: Script)
    requires Carries(w, id, session.userId) && Encoded(session).Ok? && script.committed.Done? && !script.stops(6)
    ensures Renewed(w, Finished(w, id, session, script), session)
  {
  }

  lemma RevalidatingAlone(w: World, id: nat, rotated: Session, script: Script)
    requires Carries(w, id, rotated.userId) && RevalidationEnding(rotated, script).Replace?
    requires script.committed.Done? && !script.stops(6)
    ensures Renewed(w, Revalidating(w, id, rotated, script), RevalidationEnding(rotated, script).session)
  {
    var second := Yielded(Yielded(w, id), id);
    FinishedAlone(second, id, RevalidationEnding(rotated, script).session, script);
  }

  lemma RotatingAlone(w: World, id: nat, session: Session, grant: Grant, script: Script)
    requires Carries(w, id, session.userId) && RotationEnding(session, grant, script).Replace?
    requires script.persisted.Done? && script.committed.Done? && !script.stops(6)
    ensures Renewed(w, Rotating(w, id, session, grant, script), RotationEnding(session, grant, script).session)
  {
    var rotated := Rotated(session, grant, ExpiryOf(grant.expiresIn, script.clock(0)).at);
    var seen := Yielded(Yielded(w, id), id);
    var left := seen.(owner := PersistPending(seen.owner, id, rotated, script.persisted).0);
    RevalidatingAlone(left, id, rotated, script);
    assert Rotating(w, id, session, grant, script) == Persisting(Yielded(w, id), id, rotated, script);
  }

  lemma RecoveringCurrentAlone(w: World, id: nat, session: Session, script: Script)
    requires Carries(w, id, session.userId) && PlannedEnding(session, script).Replace?
    requires (script.validated.Failure? ==> script.persisted.Done?) && script.committed.Done? && !script.stops(6)
    ensures Renewed(w, RecoveringCurrent(w, id, session, script), PlannedEnding(session, script).session)
  {
    var second := Yielded(Yielded(w, id), id);
    if script.validated.Answered? {
      FinishedAlone(second, id, PlannedEnding(session, script).session, script);
    } else {
      var third := Yielded(second, id);
      RotatingAlone(third.(owner := Spec.NoteRefresh(third.owner, id)), id, session, script.refreshed.value, script);
    }
  }

  /** Left alone, a recovery whose token validates, at once or after one refresh, makes the
      renewed session active and durable and leases it under the next revision. */
  lemma UndisturbedRecoveryRenews(w: World, rejected: Lease, script: Script)
    requires Alone(w) && Borrows(w.owner, rejected, false)
    requires PlannedEnding(w.owner.active.value, script).Replace?
    requires (script.validated.Failure? ==> script.persisted.Done?) && script.committed.Done? && !script.stops(6)
    ensures Renewed(w, Recovering(w, rejected, script, false), PlannedEnding(w.owner.active.value, script).session)
  {
    var session, id := w.owner.active.value, w.owner.nextTransaction;
    var begun := w.(owner := Lend(w.owner));
    RecoveringCurrentAlone(begun, id, session, script);
    assert Recovering(w, rejected, script, false) == Caught(RecoveringCurrent(begun, id, session, script), id, script);
  }
}
