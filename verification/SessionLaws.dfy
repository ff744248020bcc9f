/** What the session owner's calls mean to one another: what is borrowed can go back, what is
    committed is leased and found again after a restart, what is erased is gone; and which way a chat
    recovery takes for each answer it gets. */
module SessionLaws {
  import opened Outcomes
  import opened Times
  import opened TwitchSession
  import opened TwitchPorts
  import opened Spec = SessionOwnerSpec
  import opened SessionRecovery

  // ---------------------------------------------------------------- leases

  /** There is a lease exactly of an active session that nobody has borrowed; it carries that session's
      access token, user and generation. */
  lemma LeaseIsOfActive(o: Spec.Owner)
    ensures var lease := Spec.Acquire(o);
            && (lease.Ok? <==> !o.stopping && o.pending.None? && o.active.Some?)
            && (lease.Ok? ==> lease.value == Lease(o.active.value.access, o.active.value.userId, o.revision))
            && (lease == Err(Cancelled) <==> o.stopping)
            && (lease == Err(Retry) <==> !o.stopping && o.pending.Some?)
            && (lease == Err(NotConnected) <==> !o.stopping && o.pending.None? && o.active.None?)
  {
  }

  /** The same four cases are what the controller sees. */
  lemma StateIsObserved(o: Spec.Owner)
    ensures var seen := Observe(o);
            && (seen.ShuttingDown? <==> o.stopping)
            && (seen.Updating? <==> !o.stopping && o.pending.Some?)
            && (seen.Active? <==> Spec.Acquire(o).Ok?)
            && (seen.Active? ==> o.active.Some? && seen.connected == Connected(o.active.value.userId, o.active.value.login,
                                                                               o.active.value.expiresAt, o.revision))
  {
  }

  // ---------------------------------------------------------------- transactions

  /** A transaction can be opened by a running owner that has none open and numbers left. */
  predicate Free(o: Spec.Owner) {
    !o.stopping && o.pending.None? && o.nextTransaction < MAX_U64 && o.revision < MAX_U64
  }

  lemma CheckoutsAreGrantedIff(o: Spec.Owner, load: LoadAnswer, session: Session)
    requires o.nextTransaction <= MAX_U64 && o.revision <= MAX_U64
    ensures CheckoutActive(o).1.Ok? <==> Free(o) && o.active.Some?
    ensures ReserveNew(o).1.Ok? <==> Free(o) && o.active.None?
    ensures var saved := CheckoutSaved(o, load).1;
            && (saved.Ok? <==> Free(o) && o.active.None? && load.Loads? && (o.store.Some? ==> Decoded(o.store.value).Ok?))
            && (saved.Ok? ==> saved.value == if o.store.None? then None else Some(Transaction(o.nextTransaction, Decoded(o.store.value).value)))
            && (saved == Err(OwnerError.DecodeFailed) <==>
                  Free(o) && o.active.None? && load.Loads? && o.store.Some? && Decoded(o.store.value).Err?)
            && (saved == Err(LoadFailed) <==> Free(o) && o.active.None? && load.LoadFails?)
    ensures BeginNew(o, session).1.Ok? <==> Free(o) && o.active.None?
    ensures !o.stopping && o.pending.Some? ==>
              && CheckoutActive(o).1 == Err(Busy) && ReserveNew(o).1 == Err(Busy) && CheckoutSaved(o, load).1 == Err(Busy)
              && BeginNew(o, session).1 == Err(Busy)
    ensures Free(o) && o.active.None? ==> CheckoutActive(o).1 == Err(NoSession)
    ensures Free(o) && o.active.Some? ==>
              ReserveNew(o).1 == Err(Busy) && CheckoutSaved(o, load).1 == Err(Busy) && BeginNew(o, session).1 == Err(Busy)
    ensures o.stopping ==>
              && CheckoutActive(o).1 == Err(OwnerStopping) && ReserveNew(o).1 == Err(OwnerStopping) && CheckoutSaved(o, load).1 == Err(OwnerStopping)
              && BeginNew(o, session).1 == Err(OwnerStopping)
  {
  }

  /** A running owner that has used up its numbers opens no transaction any more. */
  lemma NumbersCanRunOut(o: Spec.Owner, load: LoadAnswer, session: Session)
    requires !o.stopping && o.pending.None? && (o.nextTransaction == MAX_U64 || o.revision == MAX_U64)
    ensures CheckoutActive(o) == (o, Err(RevisionExhausted)) && ReserveNew(o) == (o, Err(RevisionExhausted))
    ensures CheckoutSaved(o, load) == (o, Err(RevisionExhausted)) && BeginNew(o, session) == (o, Err(RevisionExhausted))
  {
  }

  /** A transaction is bound to the user of the session it starts from; only a reservation is open to
      any user, and only a borrowed session may go back. Opening one touches no record and publishes
      nothing. */
  lemma TransactionIsOfItsUser(o: Spec.Owner, load: LoadAnswer, session: Session)
    requires Free(o)
    ensures var (saved, tx) := CheckoutSaved(o, load);
            && saved.active == o.active && saved.store == o.store && saved.revision == o.revision
            && (tx.Ok? && tx.value.Some? ==> saved.pending == Some(Pending(o.nextTransaction, Some(tx.value.value.session.userId), false)))
            && (tx.Err? || tx.value.None? ==> saved == o)
    ensures o.active.None? ==>
              var (reserved, id) := ReserveNew(o);
              var (begun, tx) := BeginNew(o, session);
              && reserved.pending == Some(Pending(o.nextTransaction, None, false)) && id == Ok(o.nextTransaction)
              && begun.pending == Some(Pending(o.nextTransaction, Some(session.userId), false)) && tx == Ok(Transaction(o.nextTransaction, session))
              && reserved.store == begun.store == o.store && reserved.active == begun.active == None && reserved.revision == begun.revision == o.revision
    ensures o.active.Some? ==>
              var (lent, tx) := CheckoutActive(o);
              && lent.pending == Some(Pending(o.nextTransaction, Some(o.active.value.userId), true))
              && tx == Ok(Transaction(o.nextTransaction, o.active.value))
              && lent.store == o.store && lent.active.None? && lent.revision == o.revision
  {
  }

  /** What was borrowed goes back as it was: the same session is leased again under the same revision. */
  lemma BorrowedGoesBack(o: Spec.Owner)
    requires Valid(o) && Free(o) && o.active.Some?
    ensures var (lent, tx) := CheckoutActive(o);
            var (back, error) := Restore(lent, tx.value.id, tx.value.session);
            && tx.Ok? && tx.value.session == o.active.value && Spec.Acquire(lent) == Err(Retry)
            && error.None? && back.store == o.store && back.active == o.active && Spec.Acquire(back) == Spec.Acquire(o)
  {
  }

  /** Whose transaction it is: running, and open under this id. */
  predicate Speaks(o: Spec.Owner, id: nat) {
    !o.stopping && o.pending.Some? && o.pending.value.id == id
  }

  predicate SameUser(o: Spec.Owner, session: Session)
    requires o.pending.Some?
  {
    o.pending.value.userId.None? || o.pending.value.userId.value == session.userId
  }

  /** A commit succeeds exactly for the open transaction, its user, a session that can be kept, and a
      store that takes it; then that session is active, stored and leased under the next revision. Each
      refusal has its cause, and leaves no session active that was not. */
  lemma CommitSucceedsIff(o: Spec.Owner, id: nat, session: Session, answer: StorageAnswer)
    ensures var (after, result) := Commit(o, id, session, answer);
            && (result.Ok? <==> Speaks(o, id) && SameUser(o, session) && Encoded(session).Ok? && answer.Done?)
            && (result.Ok? ==>
                  && Stored(after.store, session) && Spec.Acquire(after) == Ok(Lease(session.access, session.userId, o.revision + 1))
                  && after.active == Some(session) && result.value == Connected(session.userId, session.login, session.expiresAt, o.revision + 1))
            && (result.Err? ==> after.active == o.active && after.pending == o.pending && after.revision == o.revision)
            && (o.stopping ==> result == Err(OwnerStopping))
            && (!o.stopping && !Speaks(o, id) ==> result == Err(StaleTransaction))
            && (Speaks(o, id) && !SameUser(o, session) ==> result == Err(IdentityMismatch) && after.store == o.store)
            && (Speaks(o, id) && SameUser(o, session) && Encoded(session).Ok? && answer.Fails? ==>
                  result == Err(StoreFailed) && after.store == answer.left)
  {
  }

  /** A pair can be saved ahead of its commit exactly by the open transaction of a known user; from then
      on the borrowed session cannot go back, even if the write fails. */
  lemma PairIsSavedIff(o: Spec.Owner, id: nat, session: Session, answer: StorageAnswer, other: Session)
    ensures var (after, error) := PersistPending(o, id, session, answer);
            && (error.None? <==> Speaks(o, id) && o.pending.value.userId == Some(session.userId) && Encoded(session).Ok? && answer.Done?)
            && (error.None? ==> Stored(after.store, session))
            && (Speaks(o, id) && o.pending.value.userId == Some(session.userId) ==> Restore(after, id, other).1.Some?)
            && (Speaks(o, id) && o.pending.value.userId != Some(session.userId) ==> error == Some(IdentityMismatch) && after == o)
            && after.active == o.active && after.revision == o.revision
  {
  }

  /** The borrowed session goes back exactly under its open transaction, to its user, and as long as it
      may; the record is not touched. */
  lemma RestoreSucceedsIff(o: Spec.Owner, id: nat, session: Session)
    ensures var (after, error) := Restore(o, id, session);
            && (error.None? <==> Speaks(o, id) && SameUser(o, session) && o.pending.value.restorable && Encoded(session).Ok?)
            && (error.None? ==> after.active == Some(session) && after.pending.None?)
            && (error.Some? ==> after == o) && after.store == o.store && after.revision == o.revision
            && (Speaks(o, id) && !SameUser(o, session) ==> error == Some(IdentityMismatch))
            && (Speaks(o, id) && SameUser(o, session) && !o.pending.value.restorable ==> error == Some(StaleTransaction))
  {
  }

  /** Giving a transaction up always closes it; only its erasure can fail. */
  lemma DiscardSucceedsIff(o: Spec.Owner, id: nat, erase: bool, answer: StorageAnswer)
    requires Speaks(o, id)
    ensures var (after, error) := Discard(o, id, erase, answer);
            && after.active.None? && after.pending.None? && after.revision == o.revision
            && error == (if erase && answer.Fails? then Some(EraseFailed) else if erase && answer.ShutsDown? then Some(OwnerStopping) else None)
  {
  }

  /** A call in the name of a transaction that is not open changes nothing, and says why. */
  lemma StrangersAreRefused(o: Spec.Owner, id: nat, session: Session, erase: bool, answer: StorageAnswer)
    requires !Speaks(o, id)
    ensures var cause := if o.stopping then OwnerStopping else StaleTransaction;
            && PersistPending(o, id, session, answer) == (o, Some(cause)) && Commit(o, id, session, answer) == (o, Err(cause))
            && Restore(o, id, session) == (o, Some(cause)) && Discard(o, id, erase, answer) == (o, Some(cause))
  {
  }

  /** A session that is committed is found again after a restart, its expiry cut to whole seconds. */
  lemma CommittedSurvivesRestart(o: Spec.Owner, id: nat, session: Session, answer: StorageAnswer)
    requires Commit(o, id, session, answer).1.Ok?
    ensures var restarted := Fresh(Commit(o, id, session, answer).0.store);
            CheckoutSaved(restarted, Loads).1 == Ok(Some(Transaction(1, session.(expiresAt := session.expiresAt / SECOND * SECOND))))
  {
    DecodeAfterEncode(session);
  }

  /** And one that is erased is not: with its transaction, or without one. */
  lemma ErasedIsForgotten(o: Spec.Owner, id: nat)
    ensures Speaks(o, id) ==>
              var (after, error) := Discard(o, id, true, Done);
              error.None? && after.active.None? && after.pending.None? && CheckoutSaved(Fresh(after.store), Loads).1 == Ok(None)
    ensures !o.stopping && o.pending.None? ==>
              var (after, error) := EraseSaved(o, Done);
              error.None? && after.active.None? && CheckoutSaved(Fresh(after.store), Loads).1 == Ok(None)
    ensures Speaks(o, id) ==> Discard(o, id, false, Done).1.None? && Discard(o, id, false, Done).0.store == o.store
    ensures !o.stopping && o.pending.Some? ==> EraseSaved(o, Done) == (o, Some(Busy))
    ensures o.stopping ==> EraseSaved(o, Done) == (o, Some(OwnerStopping))
  {
  }

  /** A shutdown leaves the record as it is, and after it nothing happens any more. */
  lemma NothingFollowsShutdown(o: Spec.Owner, step: Spec.Step)
    ensures var stopped := Apply(o, Stopping);
            && stopped.stopping && stopped.active.None? && stopped.store == o.store && Spec.Acquire(stopped) == Err(Cancelled)
            && Apply(stopped, step) == stopped
  {
  }

  // ---------------------------------------------------------------- how a recovery begins

  /** A recovery borrows the active session exactly for the lease of its very generation and token. For
      an older generation the current lease is handed out; every other lease is refused, with its cause. */
  lemma RecoveryBeginsIff(w: World, rejected: Lease, script: Script, stop: bool)
    requires Valid(w.owner)
    ensures var o, r := w.owner, Recovering(w, rejected, script, stop);
            var ours := o.active.Some? && rejected.userId == o.active.value.userId && 1 <= rejected.revision <= o.revision;
            && (Borrows(o, rejected, stop) <==>
                  !stop && Free(o) && ours && rejected.revision == o.revision && rejected.access == o.active.value.access)
            && (stop || o.stopping ==> r == Return(w, Refused(Refusal.Refusal(Cancelled, None))))
            && (!stop && !o.stopping && o.pending.Some? ==> r == Return(w, Refused(Refusal.Refusal(Retry, None))))
            && (!stop && !o.stopping && o.pending.None? && !Free(o) ==> r == Return(w, Refused(Refusal.Refusal(Failed, None))))
            && (!stop && Free(o) && o.active.None? ==> r == Return(w, Refused(Refusal.Refusal(NotConnected, None))))
            && (!stop && Free(o) && o.active.Some? && (!ours || (rejected.revision == o.revision && rejected.access != o.active.value.access)) ==>
                  r == Return(w, Refused(Refusal.Refusal(ReconnectRequired, None))))
            && (!stop && Free(o) && ours && rejected.revision < o.revision ==>
                  r == Return(w, Leased(Lease(o.active.value.access, o.active.value.userId, o.revision))))
  {
  }

  // ---------------------------------------------------------------- which way it takes

  /** The refusal that an answer of Twitch amounts to, with the delay it asks for if that can be kept. */
  predicate Tells(error: ApiError, refusal: Refusal) {
    && (match error.disposition
        case DoRetry => refusal.code.Retry?
        case DoReconnect => refusal.code.ReconnectRequired?
        case DoFail => refusal.code.Failed?
        case DoCancel => refusal.code.Cancelled?)
    && refusal.retryAfter == if error.retryAfter.Some? && 0 < error.retryAfter.value <= 86_400 * SECOND then error.retryAfter else None
  }

  const STOPPED: Refusal := Refusal.Refusal(Cancelled, None)
  const UNUSABLE: Refusal := Refusal.Refusal(ReconnectRequired, None)

  /** Before any refresh: a stop gives the session back, so does an answer that may change; one that
      will not drops it and keeps the record, and only a rejected token is refreshed. */
  lemma ValidationDecides(session: Session, script: Script)
    ensures var ending := PlannedEnding(session, script);
            && (script.stops(0) ==> ending == GiveBack(STOPPED))
            && (!script.stops(0) && script.validated.Panicked? ==> ending.Panic?)
            && (!script.stops(0) && !script.validated.Panicked? && script.stops(1) ==> ending == GiveBack(STOPPED))
            && (!script.stops(0) && !script.stops(1) && script.validated.Failure? ==>
                  var error := script.validated.error;
                  match error.disposition
                  case DoRetry => ending.GiveBack? && Tells(error, ending.refusal)
                  case DoCancel => ending.GiveBack? && Tells(error, ending.refusal)
                  case DoFail => ending.Drop? && Tells(error, ending.refusal) && !ending.erase
                  case DoReconnect => ending == RefreshEnding(session, script))
            && (!script.stops(0) && !script.stops(1) && script.validated.Answered? ==>
                  Judged(session, script.validated.value, script.clock(0), ending))
  {
  }

  /** What an identity leads to: the session goes with its record unless it is the same user's and can
      be kept. */
  predicate Judged(session: Session, identity: Identity, clock: Option<int>, ending: Ending) {
    var lasting := identity.userId == session.userId && 0 < identity.expiresIn <= 7 * DAY;
    if !lasting then ending == Drop(UNUSABLE, true)
    else if clock.None? then ending.Panic?
    else
      var kept := session.(expiresAt := clock.value + identity.expiresIn, login := identity.login, scopes := identity.scopes);
      if clock.value + identity.expiresIn <= TIME_LIMIT && Encoded(kept).Ok? then ending == Replace(kept) else ending == Drop(UNUSABLE, true)
  }

  /** The refresh: given back if it may change, dropped with the record if it will not; and once it is
      granted the session never goes back. */
  lemma RefreshDecides(session: Session, script: Script)
    ensures var ending := RefreshEnding(session, script);
            && (script.stops(2) ==> ending == GiveBack(STOPPED))
            && (!script.stops(2) && script.refreshed.Panicked? ==> ending.Panic?)
            && (!script.stops(2) && script.refreshed.Failure? ==>
                  var error := script.refreshed.error;
                  if error.disposition.DoRetry? || error.disposition.DoCancel? then ending.GiveBack? && Tells(error, ending.refusal)
                  else ending.Drop? && Tells(error, ending.refusal) && ending.erase)
            && (!script.stops(2) && script.refreshed.Answered? ==> !ending.GiveBack? && GrantDecides(session, script.refreshed.value, script, ending))
  {
  }

  /** From the grant on: the record goes with the session unless it was the store that failed. */
  predicate GrantDecides(session: Session, grant: Grant, script: Script, ending: Ending) {
    var clock := script.clock(0);
    if script.stops(3) then ending == Drop(STOPPED, true)
    else if !(0 < grant.expiresIn <= 7 * DAY) then ending == Drop(UNUSABLE, true)
    else if clock.None? then ending.Panic?
    else if clock.value + grant.expiresIn > TIME_LIMIT then ending == Drop(UNUSABLE, true)
    else
      var rotated := Session(grant.access, grant.refresh, clock.value + grant.expiresIn, session.userId, session.login, grant.scopes);
      if Encoded(rotated).Err? || script.persisted.Fails? then ending == Drop(Refusal.Refusal(Failed, None), false)
      else if script.persisted.ShutsDown? then ending == Drop(STOPPED, false)
      else if script.stops(4) then ending == Drop(STOPPED, true)
      else if script.revalidated.Panicked? then ending.Panic?
      else if script.stops(5) then ending == Drop(STOPPED, true)
      else if script.revalidated.Failure? then ending.Drop? && Tells(script.revalidated.error, ending.refusal) && ending.erase
      else Judged(rotated, script.revalidated.value, script.clock(1), ending)
  }

  /** The ways out in the owner's own terms: given back means active and stored as before, dropped means
      gone, with the record only if it was to be erased, and the caller is told why. */
  lemma EndingIsKept(w: World, rejected: Lease, script: Script)
    requires Valid(w.owner) && Borrows(w.owner, rejected, false)
    requires !Recovering(w, rejected, script, false).world.owner.stopping
    ensures var r, ending := Recovering(w, rejected, script, false), PlannedEnding(w.owner.active.value, script);
            && (ending.GiveBack? ==> r.outcome == Refused(ending.refusal) && r.world.owner.active == w.owner.active)
            && (ending.Drop? ==> r.world.owner.active.None? && r.world.owner.pending.None?
                                 && (ending.erase && script.erased.Fails? ==> r.outcome == Refused(Refusal.Refusal(Failed, None)))
                                 && (!ending.erase || script.erased.Done? ==> r.outcome == Refused(ending.refusal))
                                 && (ending.erase && script.erased.Done? ==> r.world.owner.store.None?))
            && (ending.Panic? ==> r.outcome == Refused(Refusal.Refusal(Failed, None)))
            && (ending.Replace? && script.committed.Fails? ==> r.outcome == Refused(Refusal.Refusal(Failed, None)))
  {
    RecoveringIsSafe(w, rejected, script, false);
  }
}
