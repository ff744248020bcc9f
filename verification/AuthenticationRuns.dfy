/** What every run of the authentication workflow keeps: its transaction is the owner's open one,
    no flow is stranded, requests of a transaction go one way, what is shown is what was
    published, and the next validation is due within the hour. */
module AuthenticationRuns {
  import opened Outcomes
  import opened ByteStrings
  import opened Times
  import opened TwitchSession
  import opened TwitchPorts
  import opened Sessions = SessionOwnerSpec
  import opened AuthenticationWorkflow

  /** How far a flow is when it sends the request. */
  function Rank(phase: Phase): nat {
    match phase
    case Start => 0
    case Poll => 1
    case ValidateSaved => 2
    case ValidateActive => 2
    case Refresh => 3
    case ValidateInitial => 4
    case ValidateRotated => 4
    case Revoke => 5
  }

  /** Every request is sent under a transaction, and inside one the flow never goes back. */
  ghost predicate OneWay(requests: seq<Request>) {
    && (forall k :: 0 <= k < |requests| ==> requests[k].transaction.Some?)
    && (forall j, k :: 0 <= j < k < |requests| && requests[j].transaction == requests[k].transaction ==>
          Rank(requests[j].phase) <= Rank(requests[k].phase))
  }

  /** The open transaction has sent nothing beyond `rank`. */
  ghost predicate UpTo(v: View, rank: nat) {
    v.transaction.Some? ==>
      forall k :: 0 <= k < |v.requests| && v.requests[k].transaction == v.transaction ==> Rank(v.requests[k].phase) <= rank
  }

  /** The controller's transaction is the owner's open one, unless the owner was shut down. */
  ghost predicate Tied(v: View, o: Owner) {
    v.transaction.Some? ==>
      1 <= v.transaction.value < o.nextTransaction && (o.stopping || Holds(o, v.transaction.value))
  }

  /** No request id is used twice, and none is accepted twice or out of order. */
  ghost predicate Numbered(v: View) {
    && 1 <= v.nextRequest <= MAX_U64
    && (v.pending.Some? ==> v.pending.value.id < v.nextRequest)
    && (forall k :: 0 <= k < |v.accepted| ==> v.accepted[k] < if v.pending.Some? then v.pending.value.id else v.nextRequest)
    && (forall j, k :: 0 <= j < k < |v.accepted| ==> v.accepted[j] < v.accepted[k])
  }

  /** The next validation is due within the hour of the latest reading of the clock. */
  predicate Due(v: View, latest: nat) {
    v.schedule.Some? ==> v.schedule.value.validation <= latest + 3600 * SECOND
  }

  /** What holds even where a panic unwinds. */
  ghost predicate Grounded(v: View, w: World, latest: nat) {
    && Valid(w.owner) && Tied(v, w.owner) && Numbered(v) && OneWay(v.requests) && Due(v, latest)
    && (forall k :: 0 <= k < |v.requests| ==> v.requests[k].transaction.value < w.owner.nextTransaction)
  }

  /** Where the flow stands: at its request in flight, at the deferred one, or between polls. */
  function Reached(v: View): nat {
    if v.pending.Some? then Rank(v.pending.value.phase)
    else if v.deferred.Some? then Rank(v.deferred.value.phase)
    else if v.authorization.Some? then Rank(Poll)
    else Rank(Revoke)
  }

  /** An open flow is never stranded: it has a request in flight, a deferred validation or
      refresh with its pair at hand, or a device code to poll with. */
  ghost predicate Coherent(v: View) {
    && (v.transaction.Some? <==> v.pending.Some? || v.deferred.Some? || v.authorization.Some?)
    && (v.transaction.None? ==> v.draft.None?)
    && (v.pending.Some? ==> v.deferred.None?)
    && (v.pending.Some? && v.pending.value.phase.Revoke? ==> v.authorization.None? && v.snapshot.status.Disconnecting?)
    && (v.deferred.Some? ==> (Validates(v.deferred.value.phase) || v.deferred.value.phase.Refresh?) && v.HasCredentials())
    && (v.authorization.Some? && v.pending.None? && v.deferred.None? ==> v.authorization.value.code.Some?)
  }

  predicate Hidden(v: View) {
    v.snapshot.login.None? && v.snapshot.accessExpiresAt.None?
  }

  /** A shown identity is that of a published session: the one the owner published last, unless
      there is a newer generation the controller has not seen yet. */
  ghost predicate Truthful(v: View, o: Owner) {
    !Hidden(v) ==>
      && v.snapshot.status.StatusConnected? && v.transaction.None? && v.schedule.Some?
      && v.schedule.value.ownerRevision <= o.revision
      && (v.schedule.value.ownerRevision == o.revision ==>
            && o.published.Some? && v.snapshot.login == Some(o.published.value.login)
            && v.snapshot.accessExpiresAt == Some(o.published.value.expiresAt))
  }

  ghost predicate Disciplined(v: View, w: World, latest: nat) {
    Grounded(v, w, latest) && UpTo(v, Reached(v)) && Coherent(v) && Truthful(v, w.owner)
  }

  ghost predicate Ordered(x: Exit, latest: nat) {
    Disciplined(x.view, x.world, latest) && !x.ended.Unwound?
  }

  /** What a panic leaves for the catch. */
  ghost predicate Left(x: Exit, latest: nat) {
    Grounded(x.view, x.world, latest) && (!x.ended.Unwound? ==> Ordered(x, latest))
  }

  predicate Timely(ports: Ports, latest: nat) {
    ports.steady.Some? ==> ports.steady.value <= latest
  }

  // ---------------------------------------------------------------- ends

  lemma WaitingOutcome(v: View, w: World)
    requires Valid(w.owner)
    ensures var seen := Waiting(v, w);
            && Valid(seen.owner) && Later(w.owner, seen.owner)
            && (v.transaction.Some? && Holds(w.owner, v.transaction.value) ==> seen.owner == w.owner || seen.owner.stopping)
  {
    OthersUndisturbed(w.owner, w.others(w.turn), if v.transaction.Some? then v.transaction.value else 0);
  }

  lemma WaitingKeepsGrounded(v: View, w: World, latest: nat)
    requires Grounded(v, w, latest)
    ensures Grounded(v, Waiting(v, w), latest) && Later(w.owner, Waiting(v, w).owner)
    ensures Truthful(v, w.owner) ==> Truthful(v, Waiting(v, w).owner)
  {
    WaitingOutcome(v, w);
  }

  lemma ReleasedKeepsValid(v: View, w: World, erase: bool, ports: Ports)
    requires Valid(w.owner)
    ensures var after := Released(v, w, erase, ports).world.owner;
            Valid(after) && after.nextTransaction >= w.owner.nextTransaction
  {
    if v.transaction.Some? {
      WaitingOutcome(v, w);
      DiscardKeepsValid(Waiting(v, w).owner, v.transaction.value, erase, ports.erased);
    }
  }

  lemma FailingIsOrdered(v: View, w: World, error: ControlError, erase: bool, ports: Ports, latest: nat)
    requires Grounded(v, w, latest)
    ensures Ordered(Failing(v, w, error, erase, ports), latest)
  {
    ReleasedKeepsValid(v, w, erase, ports);
  }

  lemma FinishingIsOrdered(v: View, w: World, diagnostic: Option<ControlError>, ports: Ports, latest: nat)
    requires Grounded(v, w, latest)
    ensures Ordered(Finishing(v, w, diagnostic, ports), latest)
  {
    ReleasedKeepsValid(v, w, true, ports);
    WaitingOutcome(v, w);
    StepKeepsValid(Waiting(v, w).owner, ErasingSaved(ports.erased));
  }

  // ---------------------------------------------------------------- requests

  lemma OneMoreRequest(v: View, w: World, phase: Phase, command: Command, latest: nat)
    requires Grounded(v, w, latest) && v.transaction.Some? && UpTo(v, Rank(phase))
    ensures var more := v.(requests := v.requests + [Request(v.transaction, phase, command)]);
            Grounded(more, w, latest) && UpTo(more, Rank(phase))
  {
  }

  lemma RefusedIsOrdered(v: View, w: World, phase: Phase, ports: Ports, latest: nat)
    requires Grounded(v, w, latest)
    ensures Ordered(DispatchRefused(v, w, phase, ports), latest)
  {
    FinishingIsOrdered(v, w, Some(DispatchFailed), ports, latest);
    FailingIsOrdered(v, w, DispatchFailed, v.Rotated(), ports, latest);
  }

  /** A request in flight under the next id. */
  lemma SentIsOrdered(v: View, w: World, phase: Phase, command: Command, shown: Snapshot, latest: nat)
    requires Grounded(v, w, latest) && v.transaction.Some? && UpTo(v, Rank(phase)) && v.pending.None? && v.nextRequest < MAX_U64
    requires v.deferred.None? && (phase.Revoke? ==> v.authorization.None? && shown.status.Disconnecting?)
    requires shown.login.None? && shown.accessExpiresAt.None?
    ensures var asked := v.(nextRequest := v.nextRequest + 1, pending := Some(InFlight(v.nextRequest, phase)));
            Disciplined(asked.(snapshot := shown, requests := v.requests + [Request(v.transaction, phase, command)]), w, latest)
  {
    OneMoreRequest(v, w, phase, command, latest);
  }

  lemma AskingIsOrdered(v: View, w: World, phase: Phase, command: Command, ports: Ports, latest: nat)
    requires Grounded(v, w, latest) && v.transaction.Some? && UpTo(v, Rank(phase)) && Hidden(v)
    requires v.deferred.None? && (phase.Revoke? ==> v.authorization.None?)
    ensures Ordered(Asking(v, w, phase, command, ports), latest)
  {
    if v.pending.Some? || v.nextRequest >= MAX_U64 {
      FailingIsOrdered(v, w, ControlExhausted, false, ports, latest);
    } else if !ports.queued {
      var asked := v.(nextRequest := v.nextRequest + 1, pending := Some(InFlight(v.nextRequest, phase)));
      assert Asking(v, w, phase, command, ports) == DispatchRefused(asked, w, phase, ports);
      RefusedIsOrdered(asked, w, phase, ports, latest);
    } else {
      SentIsOrdered(v, w, phase, command, Bumped(v.snapshot.(status := StatusOf(phase), diagnostic := None)), latest);
    }
  }

  lemma AskingWithCredentialsIsOrdered(v: View, w: World, phase: Phase, ports: Ports, latest: nat)
    requires Grounded(v, w, latest) && v.transaction.Some? && UpTo(v, Rank(phase)) && Hidden(v) && v.deferred.None? && !phase.Revoke?
    ensures Ordered(AskingWithCredentials(v, w, phase, ports), latest)
  {
    if v.HasCredentials() {
      var credentials := v.draft.value.credentials.value;
      AskingIsOrdered(v.(draft := Some(v.draft.value.(credentials := None))), w, phase,
                      if phase.Refresh? then AskRefresh(credentials) else AskValidation(credentials), ports, latest);
    } else {
      FailingIsOrdered(v, w, InvalidState, false, ports, latest);
    }
  }

  // ---------------------------------------------------------------- calls that open a flow

  /** A fresh transaction has sent nothing. */
  lemma FreshTransaction(v: View, w: World, after: Owner, begun: View, latest: nat)
    requires Grounded(v, w, latest) && v.transaction.None? && Valid(after)
    requires after.nextTransaction == w.owner.nextTransaction + 1 && Holds(after, w.owner.nextTransaction)
    requires begun.transaction == Some(w.owner.nextTransaction) && begun.requests == v.requests
    requires begun.nextRequest == v.nextRequest && begun.pending == v.pending && begun.accepted == v.accepted && begun.schedule == v.schedule
    ensures Grounded(begun, w.(owner := after), latest) && forall rank :: UpTo(begun, rank)
  {
  }

  lemma ConnectionBegunIsOrdered(v: View, w: World, ports: Ports, latest: nat)
    requires Disciplined(v, w, latest)
    ensures Ordered(ConnectionBegun(v, w, ports), latest)
  {
    var first := Waiting(v, w);
    WaitingKeepsGrounded(v, w, latest);
    if NotIdle(v, first.owner, ports).None? {
      var seen := Waiting(v, first);
      WaitingKeepsGrounded(v, first, latest);
      StepKeepsValid(seen.owner, ReservingNew);
      var (after, reserved) := ReserveNew(seen.owner);
      if reserved.Ok? {
        var begun := Concealed(v.(transaction := Some(reserved.value)));
        FreshTransaction(v, seen, after, begun, latest);
        AskingIsOrdered(begun, seen.(owner := after), Start, AskDevice, ports, latest);
      }
    }
  }

  lemma SavedConnectionBegunIsOrdered(v: View, w: World, ports: Ports, latest: nat)
    requires Disciplined(v, w, latest)
    ensures Ordered(SavedConnectionBegun(v, w, ports), latest)
  {
    var first := Waiting(v, w);
    WaitingKeepsGrounded(v, w, latest);
    if NotIdle(v, first.owner, ports).None? {
      var seen := Waiting(v, first);
      WaitingKeepsGrounded(v, first, latest);
      StepKeepsValid(seen.owner, CheckingOutSaved(ports.loading));
      var (after, checked) := CheckoutSaved(seen.owner, ports.loading);
      if checked.Err? {
        FailingIsOrdered(v, seen, Mapped(checked.error), false, ports, latest);
      } else if checked.value.Some? {
        var begun := Concealed(Adopted(v, checked.value.value));
        FreshTransaction(v, seen, after, begun, latest);
        AskingWithCredentialsIsOrdered(begun, seen.(owner := after), ValidateSaved, ports, latest);
      }
    }
  }

  /** Taking a session out opens a fresh transaction or none. */
  ghost predicate Taken(v: View, w: World, t: Take, latest: nat) {
    && Grounded(t.view, t.world, latest) && t.view.deferred == v.deferred && t.view.authorization == v.authorization
    && (t.view.transaction.None? ==> t.view == v) && (t.error.Some? ==> t.view == v) && Later(w.owner, t.world.owner)
    && (t.view.transaction.Some? ==> forall rank :: UpTo(t.view, rank))
  }

  lemma ActiveTakenIsFresh(v: View, w: World, latest: nat)
    requires Grounded(v, w, latest) && v.transaction.None?
    ensures Taken(v, w, ActiveTaken(v, w), latest) && (ActiveTaken(v, w).error.None? ==> ActiveTaken(v, w).view.transaction.Some?)
  {
    var seen := Waiting(v, w);
    WaitingKeepsGrounded(v, w, latest);
    StepKeepsValid(seen.owner, CheckingOutActive);
    var (after, checked) := CheckoutActive(seen.owner);
    if checked.Ok? {
      FreshTransaction(v, seen, after, Adopted(v, checked.value), latest);
    }
  }

  lemma SavedTakenIsFresh(v: View, w: World, ports: Ports, latest: nat)
    requires Grounded(v, w, latest) && v.transaction.None?
    ensures Taken(v, w, SavedTaken(v, w, ports), latest)
  {
    var seen := Waiting(v, w);
    WaitingKeepsGrounded(v, w, latest);
    StepKeepsValid(seen.owner, CheckingOutSaved(ports.loading));
    var (after, checked) := CheckoutSaved(seen.owner, ports.loading);
    if checked.Ok? && checked.value.Some? {
      FreshTransaction(v, seen, after, Adopted(v, checked.value.value), latest);
    }
  }

  lemma AnyTakenIsFresh(v: View, w: World, ports: Ports, latest: nat)
    requires Grounded(v, w, latest) && v.transaction.None?
    ensures Taken(v, w, AnyTaken(v, w, ports), latest)
  {
    ActiveTakenIsFresh(v, w, latest);
    var active := ActiveTaken(v, w);
    if active.error.Some? {
      SavedTakenIsFresh(v, active.world, ports, latest);
    }
  }

  lemma RevokedOrErasedIsOrdered(v: View, w: World, ports: Ports, latest: nat)
    requires Grounded(v, w, latest) && (v.HasCredentials() ==> v.transaction.Some?) && Hidden(v) && v.deferred.None? && v.authorization.None?
    ensures Ordered(RevokedOrErased(v, w, ports), latest)
  {
    if v.HasCredentials() {
      RevocationIsLast(v);
      AskingIsOrdered(v.(draft := Some(v.draft.value.(credentials := None))), w, Revoke,
                      AskRevocation(v.draft.value.credentials.value.access), ports, latest);
    } else {
      FinishingIsOrdered(v, w, None, ports, latest);
    }
  }

  lemma RevocationIsLast(v: View)
    ensures UpTo(v, Rank(Revoke))
  {
  }

  lemma DisconnectedByIsOrdered(v: View, w: World, ports: Ports, latest: nat)
    requires Disciplined(v, w, latest)
    ensures Ordered(DisconnectedBy(v, w, ports), latest)
  {
    var first := Waiting(v, w);
    WaitingKeepsGrounded(v, w, latest);
    if NotRunning(v, first.owner, ports).None? && v.pending.None? && ports.settingsSaved {
      var dropped := v.(authorization := None, deferred := None);
      if v.transaction.Some? {
        RevokedOrErasedIsOrdered(Concealed(dropped), first, ports, latest);
      } else {
        assert dropped == v;
        AnyTakenIsFresh(v, first, ports, latest);
        var taken := AnyTaken(v, first, ports);
        if taken.error.None? {
          RevokedOrErasedIsOrdered(Concealed(taken.view), taken.world, ports, latest);
        }
      }
    }
  }

  // ---------------------------------------------------------------- results

  /** A result of `phase` is being handled. */
  ghost predicate Resuming(v: View, w: World, phase: Phase, latest: nat) {
    Grounded(v, w, latest) && v.transaction.Some? && v.pending.None? && v.deferred.None? && Hidden(v) && UpTo(v, Rank(phase))
  }

  lemma DeviceAcceptedIsOrdered(v: View, w: World, device: Device, ports: Ports, latest: nat)
    requires Resuming(v, w, Start, latest)
    ensures Left(DeviceAccepted(v, w, device, ports), latest)
  {
    FailingIsOrdered(v, w, InvalidResult, false, ports, latest);
  }

  lemma PollDeferredIsOrdered(v: View, w: World, code: Bytes, retry: Option<nat>, ports: Ports, latest: nat)
    requires Resuming(v, w, Poll, latest)
    ensures Left(PollDeferred(v, w, code, retry, ports), latest)
  {
    FailingIsOrdered(v, w, InvalidResult, false, ports, latest);
    FailingIsOrdered(v, w, InvalidState, false, ports, latest);
  }

  lemma GrantAcceptedIsOrdered(v: View, w: World, grant: Grant, ports: Ports, latest: nat)
    requires Resuming(v, w, Poll, latest)
    ensures Left(GrantAccepted(v, w, grant, ports), latest)
  {
    var open := Concealed(v.(authorization := None));
    match ValidityOf(grant, ports.system)
    case NoClock =>
    case TooLate => FailingIsOrdered(open, w, InvalidResult, false, ports, latest);
    case At(credentials) =>
      AskingWithCredentialsIsOrdered(open.(draft := Some(Draft(Some(credentials), None, false))), w, ValidateInitial, ports, latest);
  }

  /** The session is published, and shown as the owner describes it. */
  lemma PublishedIsTruthful(v: View, w: World, session: Session, next: Schedule, ports: Ports, latest: nat)
    requires Grounded(v, w, latest) && v.transaction.Some? && v.pending.None? && v.deferred.None?
    requires next.validation <= latest + 3600 * SECOND
    requires Commit(w.owner, v.transaction.value, session, ports.persisted).1.Ok?
    ensures var (after, committed) := Commit(w.owner, v.transaction.value, session, ports.persisted);
            Disciplined(ShownConnected(v.(transaction := None), committed.value, next), w.(owner := after), latest)
  {
    CommitKeepsValid(w.owner, v.transaction.value, session, ports.persisted);
  }

  /** A publication that failed leaves the transaction to be given up. */
  lemma UnpublishedIsGrounded(v: View, w: World, session: Session, ports: Ports, latest: nat)
    requires Grounded(v, w, latest) && v.transaction.Some?
    requires Commit(w.owner, v.transaction.value, session, ports.persisted).1.Err?
    ensures Grounded(v, w.(owner := Commit(w.owner, v.transaction.value, session, ports.persisted).0), latest)
  {
    CommitKeepsValid(w.owner, v.transaction.value, session, ports.persisted);
  }

  lemma SessionPublishedIsOrdered(v: View, w: World, session: Session, rotated: bool, ports: Ports, latest: nat)
    requires Grounded(v, w, latest) && v.transaction.Some? && v.pending.None? && v.deferred.None? && Timely(ports, latest)
    ensures Left(SessionPublished(v, w, session, rotated, ports), latest)
  {
    var x, times := SessionPublished(v, w, session, rotated, ports), ScheduleFor(session.expiresAt, ports.steady, ports.systemAgain);
    if times.TooLate? {
      FailingIsOrdered(v, w, InvalidResult, rotated, ports, latest);
    } else if times.At? {
      var seen := Waiting(v, w);
      WaitingKeepsGrounded(v, w, latest);
      var (after, committed) := Commit(seen.owner, v.transaction.value, session, ports.persisted);
      if committed.Err? {
        assert x == Failing(v, seen.(owner := after), Mapped(committed.error), rotated, ports);
        UnpublishedIsGrounded(v, seen, session, ports, latest);
        FailingIsOrdered(v, seen.(owner := after), Mapped(committed.error), rotated, ports, latest);
      } else {
        PublishedIsTruthful(v, seen, session, times.time, ports, latest);
      }
    }
  }

  lemma ValidationAcceptedIsOrdered(v: View, w: World, credentials: Credentials, identity: Identity, ports: Ports, latest: nat)
    requires Grounded(v, w, latest) && v.transaction.Some? && v.pending.None? && v.deferred.None? && Timely(ports, latest)
    ensures Left(ValidationAccepted(v, w, credentials, identity, ports), latest)
  {
    FailingIsOrdered(v, w, InvalidState, false, ports, latest);
    FailingIsOrdered(v, w, WrongIdentity, true, ports, latest);
    FailingIsOrdered(v, w, InvalidResult, true, ports, latest);
    if ports.system.Some? && AddDuration(ports.system.value, identity.expiresIn).Some? {
      var session := ValidatedSession(credentials, identity, AddDuration(ports.system.value, identity.expiresIn).value);
      SessionPublishedIsOrdered(v, w, session, v.Rotated(), ports, latest);
    }
  }

  lemma RotationAdoptedIsOrdered(v: View, w: World, credentials: Credentials, user: User, ports: Ports, latest: nat)
    requires Resuming(v, w, Phase.Refresh, latest)
    ensures Left(RotationAdopted(v, w, credentials, user, ports), latest)
  {
    var session := Session(credentials.access, credentials.refresh, credentials.expiresAt, user.id, user.login, [CHAT_SCOPE]);
    var seen := Waiting(v, w);
    WaitingKeepsGrounded(v, w, latest);
    PersistKeepsValid(seen.owner, v.transaction.value, session, ports.persisted);
    var (after, error) := PersistPending(seen.owner, v.transaction.value, session, ports.persisted);
    if error.Some? {
      FailingIsOrdered(v, seen.(owner := after), Mapped(error.value), true, ports, latest);
    } else {
      AskingWithCredentialsIsOrdered(v.(draft := Some(Draft(Some(credentials), Some(user), true))), seen.(owner := after), ValidateRotated, ports, latest);
    }
  }

  lemma RotationAcceptedIsOrdered(v: View, w: World, grant: Grant, ports: Ports, latest: nat)
    requires Resuming(v, w, Phase.Refresh, latest)
    ensures Left(RotationAccepted(v, w, grant, ports), latest)
  {
    if v.draft.None? {
      FailingIsOrdered(v, w, InvalidState, true, ports, latest);
    } else {
      var rotating := v.(draft := Some(v.draft.value.(rotated := true)));
      FailingIsOrdered(rotating, w, InvalidState, true, ports, latest);
      FailingIsOrdered(rotating, w, InvalidResult, true, ports, latest);
      if v.draft.value.identity.Some? && ValidityOf(grant, ports.system).At? {
        RotationAdoptedIsOrdered(rotating, w, ValidityOf(grant, ports.system).time, v.draft.value.identity.value, ports, latest);
      }
    }
  }

  lemma RetryAwaitedIsOrdered(v: View, w: World, phase: Phase, delay: nat, shown: ControlError, ports: Ports, latest: nat)
    requires Resuming(v, w, phase, latest) && (Validates(phase) || phase.Refresh?) && v.HasCredentials()
    ensures Left(RetryAwaited(v, w, phase, delay, shown, ports), latest)
  {
    if ports.steady.Some? && AddInstant(ports.steady.value, delay).None? {
      FailingIsOrdered(v, w, InvalidResult, false, ports, latest);
    }
  }

  lemma RetriedIsOrdered(v: View, w: World, phase: Phase, error: ApiError, credentials: Credentials, shown: ControlError, ports: Ports, latest: nat)
    requires Resuming(v, w, phase, latest) && (Validates(phase) || phase.Refresh?)
    ensures Left(Retried(v, w, phase, error, credentials, shown, ports), latest)
  {
    var x := Retried(v, w, phase, error, credentials, shown, ports);
    if v.draft.None? {
      FailingIsOrdered(v, w, InvalidState, false, ports, latest);
    } else if !ValidToken(credentials.access) || !ValidToken(credentials.refresh) {
      FailingIsOrdered(v, w, InvalidResult, true, ports, latest);
    } else {
      var kept := v.(draft := Some(v.draft.value.(credentials := Some(credentials))));
      if error.disposition.DoRetry? {
        RetryAwaitedIsOrdered(kept, w, phase, RetryDelay(error.retryAfter), shown, ports, latest);
      } else if error.disposition.DoReconnect? && (phase.ValidateSaved? || phase.ValidateActive?) {
        AskingWithCredentialsIsOrdered(kept, w, Phase.Refresh, ports, latest);
        assert x == AskingWithCredentials(kept, w, Phase.Refresh, ports);
      } else {
        FailingIsOrdered(kept, w, shown, phase.Refresh? || phase.ValidateRotated?, ports, latest);
      }
    }
  }

  lemma FailureHandledIsOrdered(v: View, w: World, phase: Phase, error: ApiError, retained: Option<Secret>, ports: Ports, latest: nat)
    requires Resuming(v, w, phase, latest)
    ensures Left(FailureHandled(v, w, phase, error, retained, ports), latest)
  {
    var x := FailureHandled(v, w, phase, error, retained, ports);
    if phase.Revoke? {
      FinishingIsOrdered(v, w, Some(AuthenticationFailed), ports, latest);
    } else if phase.Poll? && error.disposition.DoRetry? && retained.Some? && retained.value.DeviceCode? {
      PollDeferredIsOrdered(v, w, retained.value.code, Some(RetryDelay(error.retryAfter)), ports, latest);
    } else if (Validates(phase) || phase.Refresh?) && retained.Some? && retained.value.Kept? {
      assert x == Retried(v, w, phase, error, retained.value.credentials, ShownError(error.disposition), ports);
      RetriedIsOrdered(v, w, phase, error, retained.value.credentials, ShownError(error.disposition), ports, latest);
    } else {
      FailingIsOrdered(v, w, InvalidResult, phase.Refresh? || phase.ValidateRotated?, ports, latest);
      FailingIsOrdered(v, w, InvalidResult, false, ports, latest);
      FailingIsOrdered(v, w, ShownError(error.disposition), false, ports, latest);
    }
  }

  lemma SuccessHandledIsOrdered(v: View, w: World, phase: Phase, success: Success, ports: Ports, latest: nat)
    requires Resuming(v, w, phase, latest) && Timely(ports, latest)
    ensures Left(SuccessHandled(v, w, phase, success, ports), latest)
  {
    if phase.Start? && success.Started? {
      DeviceAcceptedIsOrdered(v, w, success.device, ports, latest);
    } else if phase.Poll? && success.StillPending? {
      PollDeferredIsOrdered(v, w, success.code, None, ports, latest);
    } else if phase.Poll? && success.Granted? {
      GrantAcceptedIsOrdered(v, w, success.grant, ports, latest);
    } else if Validates(phase) && success.Validated? {
      ValidationAcceptedIsOrdered(v, w, success.credentials, success.identity, ports, latest);
    } else if phase.Refresh? && success.Renewed? {
      RotationAcceptedIsOrdered(v, w, success.renewal, ports, latest);
    } else if phase.Revoke? {
      FinishingIsOrdered(v, w, if success.Revoked? then None else Some(InvalidResult), ports, latest);
    } else {
      FailingIsOrdered(v, w, InvalidResult, phase.ValidateRotated?, ports, latest);
    }
  }

  lemma ResultRefusedIsOrdered(v: View, w: World, phase: Phase, ports: Ports, latest: nat)
    requires Grounded(v, w, latest)
    ensures Ordered(ResultRefused(v, w, phase, ports), latest)
  {
    FinishingIsOrdered(v, w, Some(InvalidResult), ports, latest);
    FailingIsOrdered(v, w, InvalidResult, phase.ValidateRotated?, ports, latest);
  }

  /** The request in flight is answered: nothing is in flight, and its id counts as accepted. */
  lemma TakenIsResuming(v: View, w: World, latest: nat)
    requires Disciplined(v, w, latest) && v.pending.Some?
    ensures Resuming(v.(pending := None, accepted := v.accepted + [v.pending.value.id]), w, v.pending.value.phase, latest)
  {
  }

  lemma ResultHandledIsOrdered(v: View, w: World, result: AuthResult, ports: Ports, latest: nat)
    requires Disciplined(v, w, latest) && Timely(ports, latest)
    ensures Left(ResultHandled(v, w, result, ports), latest)
  {
    if v.pending.Some? && v.pending.value.id == result.id {
      var phase, taken := v.pending.value.phase, v.(pending := None, accepted := v.accepted + [result.id]);
      TakenIsResuming(v, w, latest);
      if OperationOf(phase) != result.operation || (result.outcome.Ok? && result.retained.Some?) {
        ResultRefusedIsOrdered(taken, w, phase, ports, latest);
      } else if result.outcome.Ok? {
        SuccessHandledIsOrdered(taken, w, phase, result.outcome.value, ports, latest);
      } else {
        FailureHandledIsOrdered(taken, w, phase, result.outcome.error, result.retained, ports, latest);
      }
    }
  }

  // ---------------------------------------------------------------- the clock

  lemma CheckedUpIsOrdered(v: View, w: World, phase: Phase, ports: Ports, latest: nat)
    requires Disciplined(v, w, latest) && v.transaction.None? && !phase.Revoke?
    ensures Ordered(CheckedUp(v, w, phase, ports), latest)
  {
    ActiveTakenIsFresh(v, w, latest);
    var taken := ActiveTaken(v, w);
    if taken.error == Some(Busy) {
      assert CheckedUp(v, w, phase, ports) == Exit(taken.view, taken.world, Fine(false));
    } else if taken.error.Some? {
      FailingIsOrdered(v, taken.world, Mapped(taken.error.value), false, ports, latest);
    } else {
      var concealed := Concealed(taken.view);
      assert Grounded(concealed, taken.world, latest) && UpTo(taken.view, Rank(phase));
      AskingWithCredentialsIsOrdered(concealed, taken.world, phase, ports, latest);
    }
  }

  lemma ShownIsTruthful(v: View, w: World, next: Schedule, latest: nat)
    requires Disciplined(v, w, latest) && v.transaction.None? && w.owner.active.Some? && next.validation <= latest + 3600 * SECOND
    ensures Disciplined(ShownConnected(v, Described(w.owner.active.value, w.owner.revision), next), w, latest)
  {
  }

  lemma OwnerFollowedIsOrdered(v: View, w: World, now: nat, connected: Connected, ports: Ports, latest: nat)
    requires Disciplined(v, w, latest) && v.transaction.None? && v.schedule.Some? && Timely(ports, latest)
    requires w.owner.active.Some? && connected == Described(w.owner.active.value, w.owner.revision)
    ensures Left(OwnerFollowed(v, w, now, connected, ports), latest)
  {
    var known := v.schedule.value.ownerRevision == connected.revision;
    if v.snapshot.status.StatusConnected? && known {
      CheckedUpIsOrdered(v, w, if now >= v.schedule.value.refresh then Phase.Refresh else ValidateActive, ports, latest);
    } else if known {
      ShownIsTruthful(v, w, v.schedule.value, latest);
    } else {
      FailingIsOrdered(v, w, InvalidResult, false, ports, latest);
      if ScheduleFor(connected.expiresAt, ports.steady, ports.system).At? {
        ShownIsTruthful(v, w, ScheduleFor(connected.expiresAt, ports.steady, ports.system).time, latest);
      }
    }
  }

  lemma ConnectedTickedIsOrdered(v: View, w: World, now: nat, ports: Ports, latest: nat)
    requires Disciplined(v, w, latest) && v.transaction.None? && v.schedule.Some? && Timely(ports, latest)
    ensures Left(ConnectedTicked(v, w, now, ports), latest)
  {
    var seen := Waiting(v, w);
    WaitingKeepsGrounded(v, w, latest);
    match Observe(seen.owner)
    case Disconnected => FailingIsOrdered(v, seen, MustReconnect, false, ports, latest);
    case ShuttingDown => FailingIsOrdered(v, seen, ControlStopping, false, ports, latest);
    case Updating =>
    case Active(connected) => OwnerFollowedIsOrdered(v, seen, now, connected, ports, latest);
  }

  lemma FlowTickedIsOrdered(v: View, w: World, now: nat, ports: Ports, latest: nat)
    requires Disciplined(v, w, latest) && v.pending.None? && (v.deferred.Some? || v.authorization.Some?)
    ensures Left(FlowTicked(v, w, now, ports), latest)
  {
    if v.deferred.Some? {
      AskingWithCredentialsIsOrdered(v.(deferred := None), w, v.deferred.value.phase, ports, latest);
    } else {
      AskingIsOrdered(v.(authorization := Some(v.authorization.value.(code := None))), w, Poll,
                      AskPoll(v.authorization.value.code.value), ports, latest);
    }
  }

  lemma InnerTickedIsOrdered(v: View, w: World, reading: Option<nat>, polled: Polled, ports: Ports, latest: nat)
    requires Disciplined(v, w, latest) && Timely(ports, latest)
    ensures Left(InnerTicked(v, w, reading, polled, ports), latest)
  {
    FailingIsOrdered(v, w, AuthorizationExpired, false, ports, latest);
    if reading.Some? {
      match polled
      case PollPanicked =>
      case Arrived(result) => ResultHandledIsOrdered(v, w, result, ports, latest);
      case Nothing =>
        if v.pending.None? {
          if v.deferred.Some? || v.authorization.Some? {
            FlowTickedIsOrdered(v, w, reading.value, ports, latest);
          } else if v.schedule.Some? {
            ConnectedTickedIsOrdered(v, w, reading.value, ports, latest);
          }
        }
    }
  }

  lemma CaughtIsOrdered(inner: Exit, ports: Ports, latest: nat)
    requires Left(inner, latest)
    ensures Ordered(PanicCaught(inner, ports), latest)
  {
    if inner.ended.Unwound? {
      FinishingIsOrdered(inner.view, inner.world, Some(ControlInternal), ports, latest);
      FailingIsOrdered(inner.view, inner.world, ControlInternal, inner.view.Rotated(), ports, latest);
    }
  }

  lemma TickedIsOrdered(v: View, w: World, reading: Option<nat>, polled: Polled, ports: Ports, latest: nat)
    requires Disciplined(v, w, latest) && Timely(ports, latest)
    ensures Ordered(Ticked(v, w, reading, polled, ports), latest)
  {
    var first := Waiting(v, w);
    WaitingKeepsGrounded(v, w, latest);
    if NotRunning(v, first.owner, ports).None? {
      InnerTickedIsOrdered(v, first, reading, polled, ports, latest);
      CaughtIsOrdered(InnerTicked(v, first, reading, polled, ports), ports, latest);
    }
  }

  lemma StoppedIsOrdered(v: View, w: World, diagnostic: Option<ControlError>, latest: nat)
    requires Grounded(v, w, latest)
    ensures Ordered(Stopped(v, w, diagnostic), latest)
  {
    WaitingKeepsGrounded(v, w, latest);
    StepKeepsValid(Waiting(v, w).owner, Stopping);
  }

  lemma ShutDownIsOrdered(v: View, w: World, ports: Ports, latest: nat)
    requires Disciplined(v, w, latest)
    ensures Ordered(ShutDown(v, w, ports), latest)
  {
    FinishingIsOrdered(v, w, None, ports, latest);
    var finished := Finishing(v, w, None, ports);
    StoppedIsOrdered(finished.view, finished.world, if finished.ended.Bad? then Some(finished.ended.error) else None, latest);
    StoppedIsOrdered(v, w, None, latest);
  }

  // ---------------------------------------------------------------- runs

  lemma CallIsOrdered(v: View, w: World, call: Call, latest: nat)
    requires Disciplined(v, w, latest) && Timely(call.ports, latest)
    ensures Ordered(Made(v, w, call), latest)
  {
    match call
    case BeginningConnection(ports) => ConnectionBegunIsOrdered(v, w, ports, latest);
    case BeginningSaved(ports) => SavedConnectionBegunIsOrdered(v, w, ports, latest);
    case Ticking(reading, polled, ports) => TickedIsOrdered(v, w, reading, polled, ports, latest);
    case DisconnectingNow(ports) => DisconnectedByIsOrdered(v, w, ports, latest);
    case StoppingNow(ports) => ShutDownIsOrdered(v, w, ports, latest);
  }

  /** In every reachable state, after any calls, results and answers of the ports and any steps of
      the other parties, the whole discipline holds: the transaction is the owner's, no flow is
      stranded, no id is accepted twice, requests go one way, a shown identity was published, and
      the next validation is due within the hour of the latest clock reading so far. */
  lemma {:induction false} RunsAreDisciplined(w: World, calls: seq<Call>, latest: nat)
    requires Valid(w.owner)
    requires forall k :: 0 <= k < |calls| ==> Timely(calls[k].ports, latest)
    ensures var x := MadeAll(FRESH, w, calls);
            Disciplined(x.view, x.world, latest) && !x.ended.Unwound?
  {
    if calls != [] {
      RunsAreDisciplined(w, calls[..|calls| - 1], latest);
      var before := MadeAll(FRESH, w, calls[..|calls| - 1]);
      CallIsOrdered(before.view, before.world, calls[|calls| - 1], latest);
    }
  }

  lemma PathsDoNotTurnBack(requests: seq<Request>, j: nat, k: nat)
    requires OneWay(requests) && j < k < |requests| && requests[j].transaction == requests[k].transaction
    ensures Rank(requests[j].phase) <= Rank(requests[k].phase)
  {
  }

  lemma RequestsGoOneWay(w: World, calls: seq<Call>)
    requires Valid(w.owner)
    ensures OneWay(MadeAll(FRESH, w, calls).view.requests)
  {
    RunsAreDisciplined(w, calls, Latest(calls));
  }

  /** One refresh path: once a transaction has sent a rotated pair for validation, it never
      refreshes again, and a token from the device flow is never refreshed before it is
      published. */
  lemma NoRefreshAfterRotation(w: World, calls: seq<Call>, requests: seq<Request>, j: nat, k: nat)
    requires Valid(w.owner) && requests == MadeAll(FRESH, w, calls).view.requests
    requires j < k < |requests| && requests[j].transaction == requests[k].transaction
    requires requests[j].phase.ValidateRotated? || requests[j].phase.ValidateInitial?
    ensures !requests[k].phase.Refresh? && !requests[k].phase.ValidateSaved? && !requests[k].phase.ValidateActive?
  {
    RequestsGoOneWay(w, calls);
    PathsDoNotTurnBack(requests, j, k);
  }

  /** The latest reading of the steady clock that a call was given. */
  function Latest(calls: seq<Call>): (latest: nat)
    ensures forall k :: 0 <= k < |calls| ==> Timely(calls[k].ports, latest)
  {
    if calls == [] then 0
    else
      var before, steady := Latest(calls[..|calls| - 1]), calls[|calls| - 1].ports.steady;
      if steady.Some? && steady.value > before then steady.value else before
  }

  /** What is shown after any run: an identity only of the session that the owner has active
      now, unless that is being replaced or has been replaced since. */
  lemma ShownIdentityIsPublished(w: World, calls: seq<Call>)
    requires Valid(w.owner)
    ensures var x := MadeAll(FRESH, w, calls);
            x.view.snapshot.login.Some? ==>
              && x.view.snapshot.status.StatusConnected? && x.view.schedule.Some?
              && x.view.schedule.value.validation <= Latest(calls) + 3600 * SECOND
              && (x.world.owner.active.Some? && x.world.owner.revision == x.view.schedule.value.ownerRevision ==>
                    x.view.snapshot.login == Some(x.world.owner.active.value.login)
                    && Stored(x.world.owner.store, x.world.owner.active.value))
  {
    RunsAreDisciplined(w, calls, Latest(calls));
  }
}
