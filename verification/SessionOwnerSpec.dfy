/** The shared owner of the Twitch session: one lock section is one step. Chat recoveries and
    the authentication controller work through transaction ids; this file says what each step
    does and what every interleaving of them keeps. */
module SessionOwnerSpec {
  import opened Outcomes
  import opened ByteStrings
  import opened TwitchSession
  import opened TwitchPorts

  datatype OwnerError =
    | Busy | NoSession | LoadFailed | DecodeFailed | EncodeFailed | StoreFailed | EraseFailed
    | StaleTransaction | IdentityMismatch | OwnerStopping | RevisionExhausted

  /** The open transaction; the user is unknown while a new authorization is on its way. */
  datatype Pending = Pending(id: nat, userId: Option<Bytes>, restorable: bool)

  datatype Event =
    | Began(id: nat)
    | Refreshed(id: nat)
    | Restored(id: nat)
    | Committed(id: nat, revision: nat, session: Session)
    | Discarded(id: nat)
  {
    predicate Ends() {
      Restored? || Committed? || Discarded?
    }
  }

  /** The guarded state and the protected record, followed by history: the session committed
      last, the session lent to the open transaction, whether a failed write may have changed
      the record since, whether its refresh was granted, and the log of transactions. */
  datatype Owner = Owner(
    active: Option<Session>,
    pending: Option<Pending>,
    revision: nat,
    nextTransaction: nat,
    stopping: bool,
    store: Option<Bytes>,
    published: Option<Session>,
    lent: Option<Session>,
    tainted: bool,
    refreshed: bool,
    log: seq<Event>)

  datatype Transaction = Transaction(id: nat, session: Session)

  datatype Connected = Connected(userId: Bytes, login: Bytes, expiresAt: int, revision: nat)

  datatype ConnectionState = Disconnected | Updating | Active(connected: Connected) | ShuttingDown

  /** A failed write or erasure may leave anything behind. */
  datatype StorageAnswer = Done | Fails(left: Option<Bytes>) | ShutsDown

  datatype LoadAnswer = Loads | LoadFails | LoadShutsDown

  // ---------------------------------------------------------------- lock sections

  function Idle(o: Owner): Option<OwnerError> {
    if o.stopping then Some(OwnerStopping)
    else if o.pending.Some? then Some(Busy)
    else if o.nextTransaction == MAX_U64 || o.revision == MAX_U64 then Some(RevisionExhausted)
    else None
  }

  function Begin(o: Owner, userId: Option<Bytes>, restorable: bool, lent: Option<Session>): Owner {
    o.(nextTransaction := o.nextTransaction + 1,
       pending := Some(Pending(o.nextTransaction, userId, restorable)),
       lent := lent, tainted := false, refreshed := false,
       log := o.log + [Began(o.nextTransaction)])
  }

  predicate Holds(o: Owner, id: nat) {
    o.pending.Some? && o.pending.value.id == id
  }

  function Check(o: Owner, id: nat): Option<OwnerError> {
    if o.stopping then Some(OwnerStopping) else if !Holds(o, id) then Some(StaleTransaction) else None
  }

  function CheckIdentity(o: Owner, id: nat, session: Session): Option<OwnerError> {
    if Check(o, id).Some? then Check(o, id)
    else if o.pending.value.userId.Some? && o.pending.value.userId.value != session.userId then Some(IdentityMismatch)
    else None
  }

  datatype Write = Write(store: Option<Bytes>, error: Option<OwnerError>)

  function Persist(store: Option<Bytes>, session: Session, answer: StorageAnswer): Write {
    if Encoded(session).Err? then Write(store, Some(EncodeFailed))
    else
      match answer
      case Done => Write(Some(Encoded(session).value), None)
      case Fails(left) => Write(left, Some(StoreFailed))
      case ShutsDown => Write(store, Some(OwnerStopping))
  }

  function Erase(store: Option<Bytes>, answer: StorageAnswer): Write {
    match answer
    case Done => Write(None, None)
    case Fails(left) => Write(left, Some(EraseFailed))
    case ShutsDown => Write(store, Some(OwnerStopping))
  }

  function CheckoutSaved(o: Owner, answer: LoadAnswer): (Owner, Result<Option<Transaction>, OwnerError>) {
    if Idle(o).Some? then (o, Err(Idle(o).value))
    else if o.active.Some? then (o, Err(Busy))
    else
      match answer
      case LoadFails => (o, Err(LoadFailed))
      case LoadShutsDown => (o, Err(OwnerStopping))
      case Loads =>
        if o.store.None? then (o, Ok(None))
        else
          var session := Decoded(o.store.value);
          if session.Err? then (o, Err(DecodeFailed))
          else (Begin(o, Some(session.value.userId), false, None), Ok(Some(Transaction(o.nextTransaction, session.value))))
  }

  function BeginNew(o: Owner, session: Session): (Owner, Result<Transaction, OwnerError>) {
    if Idle(o).Some? then (o, Err(Idle(o).value))
    else if o.active.Some? then (o, Err(Busy))
    else (Begin(o, Some(session.userId), false, None), Ok(Transaction(o.nextTransaction, session)))
  }

  function ReserveNew(o: Owner): (Owner, Result<nat, OwnerError>) {
    if Idle(o).Some? then (o, Err(Idle(o).value))
    else if o.active.Some? then (o, Err(Busy))
    else (Begin(o, None, false, None), Ok(o.nextTransaction))
  }

  /** Takes the active session out and lends it to a restorable transaction. */
  function Lend(o: Owner): Owner
    requires o.active.Some?
  {
    Begin(o, Some(o.active.value.userId), true, o.active).(active := None)
  }

  function CheckoutActive(o: Owner): (Owner, Result<Transaction, OwnerError>) {
    if Idle(o).Some? then (o, Err(Idle(o).value))
    else if o.active.None? then (o, Err(NoSession))
    else (Lend(o), Ok(Transaction(o.nextTransaction, o.active.value)))
  }

  function PersistPending(o: Owner, id: nat, session: Session, answer: StorageAnswer): (Owner, Option<OwnerError>) {
    if CheckIdentity(o, id, session).Some? then (o, CheckIdentity(o, id, session))
    else if o.pending.value.userId.None? then (o, Some(IdentityMismatch))
    else
      var write := Persist(o.store, session, answer);
      (o.(pending := Some(o.pending.value.(restorable := false)), store := write.store), write.error)
  }

  function Commit(o: Owner, id: nat, session: Session, answer: StorageAnswer): (Owner, Result<Connected, OwnerError>) {
    if CheckIdentity(o, id, session).Some? then (o, Err(CheckIdentity(o, id, session).value))
    else
      var write := Persist(o.store, session, answer);
      if write.error.Some? then
        (o.(store := write.store, tainted := o.tainted || write.error.value.StoreFailed?), Err(write.error.value))
      else
        var revision := o.revision + 1;
        (o.(revision := revision, active := Some(session), pending := None, store := write.store, published := Some(session),
            log := o.log + [Committed(id, revision, session)]), Ok(Described(session, revision)))
  }

  function Restore(o: Owner, id: nat, session: Session): (Owner, Option<OwnerError>) {
    if CheckIdentity(o, id, session).Some? then (o, CheckIdentity(o, id, session))
    else if !o.pending.value.restorable then (o, Some(StaleTransaction))
    else if Encoded(session).Err? then (o, Some(EncodeFailed))
    else (o.(active := Some(session), pending := None, log := o.log + [Restored(id)]), None)
  }

  function Discard(o: Owner, id: nat, erase: bool, answer: StorageAnswer): (Owner, Option<OwnerError>) {
    if Check(o, id).Some? then (o, Check(o, id))
    else
      var closed := o.(active := None, pending := None, log := o.log + [Discarded(id)]);
      if !erase then (closed, None)
      else
        var write := Erase(o.store, answer);
        (closed.(store := write.store), write.error)
  }

  function EraseSaved(o: Owner, answer: StorageAnswer): (Owner, Option<OwnerError>) {
    if o.stopping then (o, Some(OwnerStopping))
    else if o.pending.Some? then (o, Some(Busy))
    else
      var write := Erase(o.store, answer);
      (o.(active := None, store := write.store), write.error)
  }

  function Shutdown(o: Owner): Owner {
    o.(stopping := true, active := None, pending := None)
  }

  /** Twitch granted the refresh of the open transaction: the old refresh token may be dead. */
  function NoteRefresh(o: Owner, id: nat): Owner {
    if Holds(o, id) then o.(refreshed := true, log := o.log + [Refreshed(id)]) else o
  }

  function Described(session: Session, revision: nat): Connected {
    Connected(session.userId, session.login, session.expiresAt, revision)
  }

  function Observe(o: Owner): ConnectionState {
    if o.stopping then ShuttingDown
    else if o.pending.Some? then Updating
    else if o.active.Some? then Active(Described(o.active.value, o.revision))
    else Disconnected
  }

  function LeaseOf(session: Session, revision: nat): Lease {
    Lease(session.access, session.userId, revision)
  }

  function Acquire(o: Owner): Result<Lease, DeliveryErrorCode> {
    if o.stopping then Err(Cancelled)
    else if o.pending.Some? then Err(Retry)
    else if o.active.None? then Err(NotConnected)
    else Ok(LeaseOf(o.active.value, o.revision))
  }

  function DeliveryCode(error: OwnerError): DeliveryErrorCode {
    match error
    case Busy => Retry
    case StaleTransaction => Retry
    case NoSession => NotConnected
    case OwnerStopping => Cancelled
    case IdentityMismatch => ReconnectRequired
    case _ => Failed
  }

  /** How a recovery starts: it borrows the session, or a newer lease is there already, or not. */
  datatype RecoveryStart = Borrowed(transaction: Transaction) | Newer(lease: Lease) | Refusal(code: DeliveryErrorCode)

  function StartRecovery(o: Owner, rejected: Lease): (Owner, RecoveryStart) {
    if Idle(o).Some? then (o, Refusal(DeliveryCode(Idle(o).value)))
    else if o.active.None? then (o, Refusal(NotConnected))
    else if rejected.revision == 0 || rejected.revision > o.revision || rejected.userId != o.active.value.userId
    then (o, Refusal(ReconnectRequired))
    else if rejected.revision < o.revision then (o, Newer(LeaseOf(o.active.value, o.revision)))
    else if rejected.access != o.active.value.access then (o, Refusal(ReconnectRequired))
    else (Lend(o), Borrowed(Transaction(o.nextTransaction, o.active.value)))
  }

  // ---------------------------------------------------------------- steps

  datatype Step =
    | CheckingOutSaved(load: LoadAnswer)
    | BeginningNew(session: Session)
    | ReservingNew
    | CheckingOutActive
    | StartingRecovery(rejected: Lease)
    | Refreshing(id: nat)
    | PersistingPending(id: nat, session: Session, answer: StorageAnswer)
    | Committing(id: nat, session: Session, answer: StorageAnswer)
    | Restoring(id: nat, session: Session)
    | Discarding(id: nat, erase: bool, answer: StorageAnswer)
    | ErasingSaved(answer: StorageAnswer)
    | Stopping

  function Apply(o: Owner, step: Step): Owner {
    match step
    case CheckingOutSaved(load) => CheckoutSaved(o, load).0
    case BeginningNew(session) => BeginNew(o, session).0
    case ReservingNew => ReserveNew(o).0
    case CheckingOutActive => CheckoutActive(o).0
    case StartingRecovery(rejected) => StartRecovery(o, rejected).0
    case Refreshing(id) => NoteRefresh(o, id)
    case PersistingPending(id, session, answer) => PersistPending(o, id, session, answer).0
    case Committing(id, session, answer) => Commit(o, id, session, answer).0
    case Restoring(id, session) => Restore(o, id, session).0
    case Discarding(id, erase, answer) => Discard(o, id, erase, answer).0
    case ErasingSaved(answer) => EraseSaved(o, answer).0
    case Stopping => Shutdown(o)
  }

  /** The restores that are safe: of the very session that was lent, as long as its refresh was
      not granted and no write of its transaction failed. */
  predicate Permitted(o: Owner, step: Step) {
    step.Restoring? && Holds(o, step.id) && o.pending.value.restorable ==>
      o.lent == Some(step.session) && !o.tainted && !o.refreshed
  }

  /** A step that does not speak for the transaction. */
  predicate Foreign(step: Step, id: nat) {
    match step
    case Refreshing(other) => other != id
    case PersistingPending(other, _, _) => other != id
    case Committing(other, _, _) => other != id
    case Restoring(other, _) => other != id
    case Discarding(other, _, _) => other != id
    case _ => true
  }

  // ---------------------------------------------------------------- invariant

  ghost predicate Stored(store: Option<Bytes>, session: Session) {
    Encoded(session).Ok? && store == Some(Encoded(session).value)
  }

  ghost predicate Owned(o: Owner) {
    && (o.active.Some? ==> o.pending.None? && Stored(o.store, o.active.value) && o.revision >= 1 && o.published == o.active)
    && (o.stopping ==> o.active.None? && o.pending.None?)
    && 1 <= o.nextTransaction <= MAX_U64 && o.revision <= MAX_U64
    && (o.pending.Some? ==> 1 <= o.pending.value.id < o.nextTransaction && o.revision < MAX_U64)
    && (o.pending.Some? && o.pending.value.restorable ==>
          && o.lent.Some? && o.pending.value.userId == Some(o.lent.value.userId) && o.revision >= 1 && o.published == o.lent
          && Encoded(o.lent.value).Ok? && (!o.tainted ==> Stored(o.store, o.lent.value)))
  }

  /** No transaction restores a session after its refresh was granted, none ends twice, and
      revisions only go up. */
  ghost predicate Orderly(log: seq<Event>) {
    && (forall j, k :: 0 <= j < k < |log| && log[j].Refreshed? && log[k].Restored? ==> log[j].id != log[k].id)
    && (forall j, k :: 0 <= j < k < |log| && log[j].Ends() && log[k].Ends() ==> log[j].id != log[k].id)
    && (forall j, k :: 0 <= j < k < |log| && log[j].Committed? && log[k].Committed? ==> log[j].revision < log[k].revision)
  }

  ghost predicate Logged(o: Owner) {
    && Orderly(o.log)
    && (forall k :: 0 <= k < |o.log| ==> o.log[k].id < o.nextTransaction)
    && (forall k :: 0 <= k < |o.log| && o.log[k].Committed? ==> o.log[k].revision <= o.revision)
    && (o.pending.Some? ==> forall k :: 0 <= k < |o.log| && o.log[k].Ends() ==> o.log[k].id != o.pending.value.id)
    && (o.pending.Some? && !o.refreshed ==>
          forall k :: 0 <= k < |o.log| && o.log[k].Refreshed? ==> o.log[k].id != o.pending.value.id)
  }

  ghost predicate Valid(o: Owner) {
    Owned(o) && Logged(o)
  }

  function Fresh(store: Option<Bytes>): Owner {
    Owner(None, None, 0, 1, false, store, None, None, false, false, [])
  }

  lemma BeginKeepsValid(o: Owner, userId: Option<Bytes>, restorable: bool, lent: Option<Session>)
    requires Valid(o.(active := None)) && Idle(o).None?
    requires restorable ==>
               lent.Some? && userId == Some(lent.value.userId) && Stored(o.store, lent.value) && o.revision >= 1 && o.published == lent
    ensures Valid(Begin(o, userId, restorable, lent).(active := None))
  {
  }

  lemma EndLogged(o: Owner, event: Event)
    requires Logged(o) && event.Ends() && Holds(o, event.id) && event.id < o.nextTransaction
    requires event.Restored? ==> !o.refreshed
    requires event.Committed? ==> event.revision == o.revision + 1
    ensures var after := o.(log := o.log + [event], pending := None, revision := if event.Committed? then event.revision else o.revision);
            Logged(after)
  {
  }

  lemma CommitKeepsValid(o: Owner, id: nat, session: Session, answer: StorageAnswer)
    requires Valid(o)
    ensures Valid(Commit(o, id, session, answer).0)
    ensures Commit(o, id, session, answer).1.Ok? ==>
              Commit(o, id, session, answer).0.revision == o.revision + 1 && Stored(Commit(o, id, session, answer).0.store, session)
  {
    if Commit(o, id, session, answer).1.Ok? {
      EndLogged(o, Committed(id, o.revision + 1, session));
    }
  }

  /** A permitted restore cannot fail to encode: what was lent was active. */
  lemma RestoreKeepsValid(o: Owner, id: nat, session: Session)
    requires Valid(o) && Permitted(o, Restoring(id, session))
    ensures Valid(Restore(o, id, session).0)
    ensures Holds(o, id) && o.pending.value.restorable ==> Restore(o, id, session).1.None?
  {
    if Restore(o, id, session).1.None? {
      EndLogged(o, Restored(id));
    }
  }

  lemma DiscardKeepsValid(o: Owner, id: nat, erase: bool, answer: StorageAnswer)
    requires Valid(o)
    ensures Valid(Discard(o, id, erase, answer).0) && !Holds(Discard(o, id, erase, answer).0, id)
  {
    if Check(o, id).None? {
      EndLogged(o, Discarded(id));
    }
  }

  lemma NoteRefreshKeepsValid(o: Owner, id: nat)
    requires Valid(o)
    ensures Valid(NoteRefresh(o, id))
  {
  }

  lemma LendKeepsValid(o: Owner)
    requires Valid(o) && Idle(o).None? && o.active.Some?
    ensures Valid(Lend(o))
  {
    BeginKeepsValid(o, Some(o.active.value.userId), true, o.active);
  }

  predicate Opens(step: Step) {
    step.CheckingOutSaved? || step.BeginningNew? || step.ReservingNew? || step.CheckingOutActive? || step.StartingRecovery?
  }

  lemma CheckoutSavedKeepsValid(o: Owner, load: LoadAnswer)
    requires Valid(o)
    ensures Valid(CheckoutSaved(o, load).0)
  {
    if Idle(o).None? && o.active.None? && o.store.Some? && Decoded(o.store.value).Ok? {
      BeginKeepsValid(o, Some(Decoded(o.store.value).value.userId), false, None);
    }
  }

  lemma OpeningKeepsValid(o: Owner, step: Step)
    requires Valid(o) && Opens(step)
    ensures Valid(Apply(o, step))
  {
    if Idle(o).None? {
      if o.active.Some? {
        LendKeepsValid(o);
      }
      match step
      case CheckingOutSaved(load) => CheckoutSavedKeepsValid(o, load);
      case BeginningNew(session) =>
        if o.active.None? {
          BeginKeepsValid(o, Some(session.userId), false, None);
        }
      case ReservingNew =>
        if o.active.None? {
          BeginKeepsValid(o, None, false, None);
        }
      case _ =>
    }
  }

  lemma PersistKeepsValid(o: Owner, id: nat, session: Session, answer: StorageAnswer)
    requires Valid(o)
    ensures Valid(PersistPending(o, id, session, answer).0)
  {
  }

  /** Every permitted step of any party keeps the invariant. */
  lemma StepKeepsValid(o: Owner, step: Step)
    requires Valid(o) && Permitted(o, step)
    ensures Valid(Apply(o, step))
  {
    if Opens(step) {
      OpeningKeepsValid(o, step);
    } else {
      match step
      case Refreshing(id) => NoteRefreshKeepsValid(o, id);
      case PersistingPending(id, session, answer) => PersistKeepsValid(o, id, session, answer);
      case Committing(id, session, answer) => CommitKeepsValid(o, id, session, answer);
      case Restoring(id, session) => RestoreKeepsValid(o, id, session);
      case Discarding(id, erase, answer) => DiscardKeepsValid(o, id, erase, answer);
      case ErasingSaved(answer) =>
      case Stopping =>
    }
  }

  // ---------------------------------------------------------------- what others can do meanwhile

  /** While a transaction is open, nobody else changes anything, short of shutting down; and a
      closed transaction is never open again. */
  ghost predicate Undisturbed(o: Owner, after: Owner, id: nat) {
    && (Holds(o, id) ==> after == o || after.stopping)
    && (!Holds(o, id) && id < o.nextTransaction ==> !Holds(after, id))
    && Later(o, after)
  }

  /** Time only goes forward. */
  ghost predicate Later(o: Owner, after: Owner) {
    && (o.stopping ==> after.stopping)
    && o.revision <= after.revision && o.nextTransaction <= after.nextTransaction && o.log <= after.log
    && (o.revision == after.revision ==> o.published == after.published)
  }

  lemma CommitOutcome(o: Owner, id: nat, session: Session, answer: StorageAnswer)
    requires Valid(o) && Encoded(session).Ok?
    requires o.stopping || (Holds(o, id) && o.pending.value.userId == Some(session.userId))
    ensures var (after, result) := Commit(o, id, session, answer);
            && Valid(after) && Later(o, after) && after.nextTransaction == o.nextTransaction && after.stopping == o.stopping
            && (result.Ok? ==> answer.Done? && !o.stopping && !Holds(after, id) && after.revision == o.revision + 1
                               && after.log == o.log + [Committed(id, after.revision, session)])
            && (result.Err? ==> after.pending == o.pending && after.log == o.log)
            && (result.Err? && !o.stopping ==> Some(result.error) == Persist(None, session, answer).error)
  {
    CommitKeepsValid(o, id, session, answer);
  }

  lemma ForeignStepUndisturbed(o: Owner, step: Step, id: nat)
    requires Valid(o) && Foreign(step, id)
    ensures Undisturbed(o, Apply(o, step), id)
  {
  }

  /** The steps of other parties between two lock sections of a transaction. What is left out
      here, a step in the transaction's own name or an unsafe restore, no party ever takes
      (SessionParties.OthersDropNothing). */
  function Others(o: Owner, steps: seq<Step>, id: nat): Owner {
    if steps == [] then o
    else
      var before := Others(o, steps[..|steps| - 1], id);
      var step := steps[|steps| - 1];
      if Foreign(step, id) && Permitted(before, step) then Apply(before, step) else before
  }

  lemma {:induction false} OthersUndisturbed(o: Owner, steps: seq<Step>, id: nat)
    requires Valid(o)
    ensures Valid(Others(o, steps, id)) && Undisturbed(o, Others(o, steps, id), id)
  {
    if steps != [] {
      OthersUndisturbed(o, steps[..|steps| - 1], id);
      var before, step := Others(o, steps[..|steps| - 1], id), steps[|steps| - 1];
      if Foreign(step, id) && Permitted(before, step) {
        StepKeepsValid(before, step);
        ForeignStepUndisturbed(before, step, id);
      }
    }
  }

  /** The owner and the turns that other parties will take at it. */
  datatype World = World(owner: Owner, turn: nat, others: nat -> seq<Step>)

  /** Others take their turn; `id` is the transaction they cannot speak for. */
  function Yielded(w: World, id: nat): World {
    w.(owner := Others(w.owner, w.others(w.turn), id), turn := w.turn + 1)
  }

  /** Nobody else uses the owner. */
  ghost predicate Alone(w: World) {
    forall n :: w.others(n) == []
  }
}
