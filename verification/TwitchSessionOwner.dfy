/** The session owner as the parties share it. Every method equals its function; between two lock
    sections of a recovery the others take their turn. */
module TwitchSessionOwner {
  import opened Outcomes
  import opened ByteStrings
  import opened TwitchSession
  import opened TwitchPorts
  import opened Spec = SessionOwnerSpec
  import opened SessionRecovery

  class Owner {
    var active: Option<Session>
    var pending: Option<Pending>
    var revision: nat
    var nextTransaction: nat
    var stopping: bool
    var store: Option<Bytes>

    // History, for the properties.
    var published: Option<Session>
    var lent: Option<Session>
    var tainted: bool
    var refreshed: bool
    var log: seq<Event>

    // What the other parties do, turn by turn.
    const others: nat -> seq<Step>
    var turn: nat

    function Now(): Spec.Owner
      reads this
    {
      Spec.Owner(active, pending, revision, nextTransaction, stopping, store, published, lent, tainted, refreshed, log)
    }

    constructor (store: Option<Bytes>, others: nat -> seq<Step>)
      ensures Now() == Fresh(store) && Valid(Now())
    {
      active, pending, revision, nextTransaction, stopping := None, None, 0, 1, false;
      this.store, published, lent, tainted, refreshed, log := store, None, None, false, false, [];
      this.others, turn := others, 0;
    }

    function Around(): World
      reads this
    {
      World(Now(), turn, others)
    }

    /** Everybody else's turn. */
    method Yield(id: nat)
      modifies this
      ensures Around() == Yielded(old(Around()), id)
    {
      Become(Others(Now(), others(turn), id));
    }

    method Become(after: Spec.Owner)
      modifies this
      ensures Now() == after && turn == old(turn) + 1
    {
      active, pending, revision, nextTransaction := after.active, after.pending, after.revision, after.nextTransaction;
      stopping, store, lent, tainted := after.stopping, after.store, after.lent, after.tainted;
      published, refreshed, log, turn := after.published, after.refreshed, after.log, turn + 1;
    }

    // ------------------------------------------------------------ lock sections

    method Open(userId: Option<Bytes>, restorable: bool, borrowed: Option<Session>) returns (id: nat)
      modifies this
      ensures id == old(nextTransaction) && turn == old(turn)
      ensures Now() == Begin(old(Now()), userId, restorable, borrowed)
    {
      id := nextTransaction;
      nextTransaction := nextTransaction + 1;
      pending := Some(Pending(id, userId, restorable));
      lent, tainted, refreshed, log := borrowed, false, false, log + [Began(id)];
    }

    method CheckoutSaved(answer: LoadAnswer) returns (result: Result<Option<Transaction>, OwnerError>)
      modifies this
      ensures (Now(), result) == Spec.CheckoutSaved(old(Now()), answer) && turn == old(turn)
    {
      var idle := Idle(Now());
      if idle.Some? {
        return Err(idle.value);
      }
      if active.Some? {
        return Err(Busy);
      }
      match answer {
        case LoadFails => return Err(LoadFailed);
        case LoadShutsDown => return Err(OwnerStopping);
        case Loads =>
      }
      if store.None? {
        return Ok(None);
      }
      var session := Decoded(store.value);
      if session.Err? {
        return Err(DecodeFailed);
      }
      var id := Open(Some(session.value.userId), false, None);
      return Ok(Some(Transaction(id, session.value)));
    }

    method ReserveNew() returns (result: Result<nat, OwnerError>)
      modifies this
      ensures (Now(), result) == Spec.ReserveNew(old(Now())) && turn == old(turn)
    {
      var idle := Idle(Now());
      if idle.Some? {
        return Err(idle.value);
      }
      if active.Some? {
        return Err(Busy);
      }
      var id := Open(None, false, None);
      return Ok(id);
    }

    method CheckoutActive() returns (result: Result<Transaction, OwnerError>)
      modifies this
      ensures (Now(), result) == Spec.CheckoutActive(old(Now())) && turn == old(turn)
    {
      var idle := Idle(Now());
      if idle.Some? {
        return Err(idle.value);
      }
      if active.None? {
        return Err(NoSession);
      }
      var session := active.value;
      active := None;
      var id := Open(Some(session.userId), true, Some(session));
      return Ok(Transaction(id, session));
    }

    method PersistPending(id: nat, session: Session, answer: StorageAnswer) returns (error: Option<OwnerError>)
      modifies this
      ensures (Now(), error) == Spec.PersistPending(old(Now()), id, session, answer) && turn == old(turn)
    {
      error := CheckIdentity(Now(), id, session);
      if error.Some? {
        return;
      }
      if pending.value.userId.None? {
        return Some(IdentityMismatch);
      }
      // From here on the session that was lent cannot come back, whatever the store answers.
      pending := Some(pending.value.(restorable := false));
      var write := Persist(store, session, answer);
      store := write.store;
      return write.error;
    }

    method Commit(id: nat, session: Session, answer: StorageAnswer) returns (result: Result<Connected, OwnerError>)
      modifies this
      ensures (Now(), result) == Spec.Commit(old(Now()), id, session, answer) && turn == old(turn)
    {
      var error := CheckIdentity(Now(), id, session);
      if error.Some? {
        return Err(error.value);
      }
      var write := Persist(store, session, answer);
      store := write.store;
      if write.error.Some? {
        tainted := tainted || write.error.value.StoreFailed?;
        return Err(write.error.value);
      }
      revision := revision + 1;
      active, pending, published, log := Some(session), None, Some(session), log + [Committed(id, revision, session)];
      return Ok(Described(session, revision));
    }

    method Restore(id: nat, session: Session) returns (error: Option<OwnerError>)
      modifies this
      ensures (Now(), error) == Spec.Restore(old(Now()), id, session) && turn == old(turn)
    {
      error := CheckIdentity(Now(), id, session);
      if error.Some? {
        return;
      }
      if !pending.value.restorable {
        return Some(StaleTransaction);
      }
      var encoded := TwitchSession.Encode(session);
      if encoded.Err? {
        return Some(EncodeFailed);
      }
      active, pending, log := Some(session), None, log + [Restored(id)];
    }

    method Discard(id: nat, erase: bool, answer: StorageAnswer) returns (error: Option<OwnerError>)
      modifies this
      ensures (Now(), error) == Spec.Discard(old(Now()), id, erase, answer) && turn == old(turn)
    {
      error := Check(Now(), id);
      if error.Some? {
        return;
      }
      active, pending, log := None, None, log + [Discarded(id)];
      if erase {
        var write := Erase(store, answer);
        store := write.store;
        return write.error;
      }
    }

    method EraseSaved(answer: StorageAnswer) returns (error: Option<OwnerError>)
      modifies this
      ensures (Now(), error) == Spec.EraseSaved(old(Now()), answer) && turn == old(turn)
    {
      if stopping {
        return Some(OwnerStopping);
      }
      if pending.Some? {
        return Some(Busy);
      }
      active := None;
      var write := Erase(store, answer);
      store := write.store;
      return write.error;
    }

    method NoteRefresh(id: nat)
      modifies this
      ensures Now() == Spec.NoteRefresh(old(Now()), id) && turn == old(turn)
    {
      if Holds(Now(), id) {
        refreshed, log := true, log + [Refreshed(id)];
      }
    }

    method Shutdown()
      modifies this
      ensures Now() == Spec.Shutdown(old(Now())) && turn == old(turn)
    {
      stopping, active, pending := true, None, None;
    }

    // ------------------------------------------------------------ recovery

    method Acquire(stop: bool) returns (outcome: Outcome)
      ensures outcome == if stop then Refused(Plain(Cancelled))
                         else if Spec.Acquire(Now()).Ok? then Leased(Spec.Acquire(Now()).value)
                         else Refused(Plain(Spec.Acquire(Now()).error))
    {
      if stop {
        return Refused(Plain(Cancelled));
      }
      if stopping {
        return Refused(Plain(Cancelled));
      }
      if pending.Some? {
        return Refused(Plain(Retry));
      }
      if active.None? {
        return Refused(Plain(NotConnected));
      }
      return Leased(LeaseOf(active.value, revision));
    }

    method CheckRecovery(id: nat, stop: bool) returns (refusal: Option<Refusal>)
      modifies this
      ensures Checkpoint(Around(), refusal) == Checked(old(Around()), id, stop)
    {
      if stop {
        return Some(Plain(Cancelled));
      }
      Yield(id);
      var error := Check(Now(), id);
      return if error.Some? then Some(OwnerRefusal(error.value)) else None;
    }

    /** Closes a failed recovery by giving the session back. */
    method EndRestoring(id: nat, session: Session, refusal: Refusal) returns (outcome: Outcome)
      modifies this
      ensures Return(Around(), outcome) == GivenBack(old(Around()), id, session, refusal)
    {
      Yield(id);
      var error := Restore(id, session);
      return Refused(if error.Some? then OwnerRefusal(error.value) else refusal);
    }

    /** Closes a failed recovery by dropping the session. */
    method EndDiscarding(id: nat, refusal: Refusal, erase: bool, script: Script) returns (outcome: Outcome)
      modifies this
      ensures Return(Around(), outcome) == Dropped(old(Around()), id, refusal, erase, script)
    {
      Yield(id);
      var error := Discard(id, erase, script.erased);
      return Refused(if error.Some? then OwnerRefusal(error.value) else refusal);
    }

    method DiscardUnpublished(id: nat, script: Script)
      modifies this
      ensures Around() == Abandoned(old(Around()), id, script)
    {
      Yield(id);
      var ignored := Discard(id, false, script.erased);
    }

    /** Leases whatever is active once the session is published. */
    method FinishRecovery(id: nat, session: Session, script: Script) returns (outcome: Outcome)
      modifies this
      ensures Return(Around(), outcome) == Finished(old(Around()), id, session, script)
    {
      Yield(id);
      var committed := Commit(id, session, script.committed);
      if committed.Err? {
        DiscardUnpublished(id, script);
        return Refused(OwnerRefusal(committed.error));
      }
      Yield(id);
      outcome := Acquire(script.stops(6));
    }

    /** From the granted refresh on. */
    method Rotate(id: nat, session: Session, grant: Grant, script: Script) returns (outcome: Outcome)
      modifies this
      ensures Return(Around(), outcome) == Rotating(old(Around()), id, session, grant, script)
    {
      var refusal := CheckRecovery(id, script.stops(3));
      if refusal.Some? {
        outcome := EndDiscarding(id, refusal.value, true, script);
        return;
      }
      var expiry := ExpiryOf(grant.expiresIn, script.clock(0));
      match expiry {
        case BadExpiry => outcome := EndDiscarding(id, Plain(ReconnectRequired), true, script);
        case ClockPanicked => outcome := Unwound;
        case Expires(at) => outcome := PersistAndRevalidate(id, Rotated(session, grant, at), script);
      }
    }

    /** The rotated session replaces the protected record first. */
    method PersistAndRevalidate(id: nat, rotated: Session, script: Script) returns (outcome: Outcome)
      modifies this
      ensures Return(Around(), outcome) == Persisting(old(Around()), id, rotated, script)
    {
      Yield(id);
      var error := PersistPending(id, rotated, script.persisted);
      if error.Some? {
        outcome := EndDiscarding(id, OwnerRefusal(error.value), false, script);
        return;
      }
      outcome := Revalidate(id, rotated, script);
    }

    /** The rotated session is in the protected store; now its token has to prove itself. */
    method Revalidate(id: nat, rotated: Session, script: Script) returns (outcome: Outcome)
      modifies this
      ensures Return(Around(), outcome) == Revalidating(old(Around()), id, rotated, script)
    {
      var refusal := CheckRecovery(id, script.stops(4));
      if refusal.None? {
        if script.revalidated.Panicked? {
          return Unwound;
        }
        refusal := CheckRecovery(id, script.stops(5));
      }
      if refusal.Some? {
        outcome := EndDiscarding(id, refusal.value, true, script);
        return;
      }
      if script.revalidated.Failure? {
        outcome := EndDiscarding(id, ApiRefusal(script.revalidated.error), true, script);
        return;
      }
      outcome := AdoptIdentity(id, ApplyIdentity(rotated, script.revalidated.value, script.clock(1)), script);
    }

    method RecoverCurrent(id: nat, session: Session, script: Script) returns (outcome: Outcome)
      modifies this
      ensures Return(Around(), outcome) == RecoveringCurrent(old(Around()), id, session, script)
    {
      var refusal := CheckRecovery(id, script.stops(0));
      if refusal.None? {
        if script.validated.Panicked? {
          return Unwound;
        }
        refusal := CheckRecovery(id, script.stops(1));
      }
      if refusal.Some? {
        outcome := EndRestoring(id, session, refusal.value);
        return;
      }
      outcome := Conclude(id, session, script);
    }

    /** Acts on the answer of the first validation. */
    method Conclude(id: nat, session: Session, script: Script) returns (outcome: Outcome)
      modifies this
      ensures Return(Around(), outcome) == Concluding(old(Around()), id, session, script)
    {
      match script.validated {
        case Panicked => outcome := Unwound;
        case Answered(identity) =>
          outcome := AdoptIdentity(id, ApplyIdentity(session, identity, script.clock(0)), script);
        case Failure(error) =>
          if error.disposition.DoReconnect? {
            outcome := Refresh(id, session, script);
          } else if Transient(error) {
            outcome := EndRestoring(id, session, ApiRefusal(error));
          } else {
            outcome := EndDiscarding(id, ApiRefusal(error), false, script);
          }
      }
    }

    method AdoptIdentity(id: nat, applied: Applied, script: Script) returns (outcome: Outcome)
      modifies this
      ensures Return(Around(), outcome) == Adopting(old(Around()), id, applied, script)
    {
      match applied {
        case Rejected => outcome := EndDiscarding(id, Plain(ReconnectRequired), true, script);
        case Panicking => outcome := Unwound;
        case Updated(updated) => outcome := FinishRecovery(id, updated, script);
      }
    }

    method Refresh(id: nat, session: Session, script: Script) returns (outcome: Outcome)
      modifies this
      ensures Return(Around(), outcome) == RefreshingCurrent(old(Around()), id, session, script)
    {
      var refusal := CheckRecovery(id, script.stops(2));
      if refusal.Some? {
        outcome := EndRestoring(id, session, refusal.value);
        return;
      }
      match script.refreshed {
        case Panicked => outcome := Unwound;
        case Failure(error) =>
          if Transient(error) {
            outcome := EndRestoring(id, session, ApiRefusal(error));
          } else {
            outcome := EndDiscarding(id, ApiRefusal(error), true, script);
          }
        case Answered(grant) =>
          NoteRefresh(id);
          outcome := Rotate(id, session, grant, script);
      }
    }

    method BeginRecovery(rejected: Lease) returns (start: RecoveryStart)
      modifies this
      ensures (Now(), start) == StartRecovery(old(Now()), rejected) && turn == old(turn)
    {
      var idle := Idle(Now());
      if idle.Some? {
        return RecoveryStart.Refusal(DeliveryCode(idle.value));
      }
      if active.None? {
        return RecoveryStart.Refusal(NotConnected);
      }
      var session := active.value;
      if rejected.revision == 0 || rejected.revision > revision || rejected.userId != session.userId {
        return RecoveryStart.Refusal(ReconnectRequired);
      }
      if rejected.revision < revision {
        return Newer(LeaseOf(session, revision));
      }
      if rejected.access != session.access {
        return RecoveryStart.Refusal(ReconnectRequired);
      }
      active := None;
      var id := Open(Some(session.userId), true, Some(session));
      return Borrowed(Transaction(id, session));
    }

    /** A panic on the way closes the transaction. */
    method RecoverCatching(id: nat, session: Session, script: Script) returns (outcome: Outcome)
      modifies this
      ensures Return(Around(), outcome) == Caught(RecoveringCurrent(old(Around()), id, session, script), id, script)
    {
      outcome := RecoverCurrent(id, session, script);
      if outcome.Unwound? {
        DiscardUnpublished(id, script);
        return Refused(Plain(Failed));
      }
    }

    /** Chat delivery's recovery of a rejected lease. */
    method Recover(rejected: Lease, script: Script, stop: bool) returns (outcome: Outcome)
      modifies this
      ensures Return(Around(), outcome) == Recovering(old(Around()), rejected, script, stop)
    {
      if stop {
        return Refused(Plain(Cancelled));
      }
      var start := BeginRecovery(rejected);
      match start {
        case Refusal(code) => outcome := Refused(Plain(code));
        case Newer(lease) => outcome := Leased(lease);
        case Borrowed(transaction) =>
          outcome := RecoverCatching(transaction.id, transaction.session, script);
      }
    }
  }
}
