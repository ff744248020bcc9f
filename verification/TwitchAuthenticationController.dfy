/** The authentication workflow of the application thread. It shares the session owner with
    chat recoveries, which may take their turns before each of its own lock sections. */
module TwitchAuthenticationController {
  import opened Outcomes
  import opened Times
  import opened ByteStrings
  import opened TwitchSession
  import opened TwitchPorts
  import opened Sessions = SessionOwnerSpec
  import opened AuthenticationWorkflow
  import TwitchSessionOwner

  class Controller {
    const owner: TwitchSessionOwner.Owner
    var snapshot: Snapshot
    var transaction: Option<nat>
    var draft: Option<Draft>
    var authorization: Option<Authorization>
    var pending: Option<InFlight>
    var deferred: Option<Deferred>
    var schedule: Option<Schedule>
    var nextRequest: nat
    ghost var requests: seq<Request>
    ghost var accepted: seq<nat>

    ghost function Shown(): View
      reads this
    {
      View(snapshot, transaction, draft, authorization, pending, deferred, schedule, nextRequest, requests, accepted)
    }

    ghost function Around(): World
      reads owner
    {
      World(owner.Now(), owner.turn, owner.others)
    }

    function Token(): nat
      reads this
    {
      if transaction.Some? then transaction.value else 0
    }

    constructor (owner: TwitchSessionOwner.Owner)
      ensures this.owner == owner && Shown() == FRESH
    {
      this.owner := owner;
      snapshot := Snapshot(StatusDisconnected, None, None, None, None, None, None, 1, false);
      transaction, draft, authorization, pending, deferred, schedule := None, None, None, None, None, None;
      nextRequest, requests, accepted := 1, [], [];
    }

    // ------------------------------------------------------------ small steps

    method Bump()
      modifies this`snapshot
      ensures snapshot == old(snapshot).(revision := Saturated(old(snapshot).revision))
    {
      snapshot := snapshot.(revision := Saturated(snapshot.revision));
    }

    method ClearPublic()
      modifies this`snapshot
      ensures snapshot == old(snapshot).(login := None, userCode := None, uri := None, authorizationExpiresAt := None, accessExpiresAt := None)
    {
      snapshot := snapshot.(login := None, userCode := None, uri := None, authorizationExpiresAt := None, accessExpiresAt := None);
    }

    method Reset()
      modifies this`draft, this`authorization, this`pending, this`deferred, this`schedule
      ensures draft.None? && authorization.None? && pending.None? && deferred.None? && schedule.None?
    {
      draft, authorization, pending, deferred, schedule := None, None, None, None, None;
    }

    /** Others take their turn. */
    method Turn()
      modifies owner
      ensures Around() == Waiting(Shown(), old(Around()))
    {
      owner.Yield(Token());
    }

    /** Gives the transaction up, if there is one. */
    method Release(erase: bool, ports: Ports) returns (error: Option<OwnerError>)
      modifies this`transaction, owner
      ensures Shown() == old(Shown()).(transaction := None)
      ensures Freed(Around(), error) == Released(old(Shown()), old(Around()), erase, ports)
    {
      if transaction.None? {
        return None;
      }
      var id := transaction.value;
      Turn();
      transaction := None;
      error := owner.Discard(id, erase, ports.erased);
    }

    /** Forgets the flow and shows how it ended. */
    method Close(status: Status, diagnostic: Option<ControlError>)
      modifies this
      ensures Shown() == Closed(old(Shown()), status, diagnostic) && Around() == old(Around())
    {
      Reset();
      ClearPublic();
      snapshot := snapshot.(status := status, diagnostic := diagnostic);
      Bump();
    }

    /** Shows the failure of a flow whose transaction was given up. */
    method ShowFailure(error: ControlError, erase: bool, released: Option<OwnerError>) returns (ended: Ended)
      requires transaction.None?
      modifies this
      ensures Exit(Shown(), Around(), ended) == FailedWith(old(Shown()), Freed(old(Around()), released), error, erase)
    {
      var shown := if released.Some? && erase then Mapped(released.value) else error;
      Close(StatusError, Some(shown));
      return Bad(shown);
    }

    method Fail(error: ControlError, erase: bool, ports: Ports) returns (ended: Ended)
      modifies this, owner
      ensures Exit(Shown(), Around(), ended) == Failing(old(Shown()), old(Around()), error, erase, ports)
    {
      ghost var before := Shown();
      var released := Release(erase, ports);
      assert Shown() == before.(transaction := None);
      ended := ShowFailure(error, erase, released);
    }

    /** Erases the saved session without a transaction. */
    method EraseIdle(ports: Ports) returns (error: Option<OwnerError>)
      modifies owner
      ensures Freed(Around(), error) == ErasedIdle(Shown(), old(Around()), ports)
    {
      Turn();
      error := owner.EraseSaved(ports.erased);
    }

    /** Shows the end of a disconnection after the erasure. */
    method ShowDisconnected(diagnostic: Option<ControlError>, erased: Option<OwnerError>) returns (ended: Ended)
      requires transaction.None?
      modifies this
      ensures Exit(Shown(), Around(), ended) == FinishedWith(old(Shown()), Freed(old(Around()), erased), diagnostic)
    {
      var shown := if erased.Some? then Some(Mapped(erased.value)) else diagnostic;
      Close(if shown == Some(SessionEraseFailed) then StatusError else StatusDisconnected, shown);
      return if shown.Some? then Bad(shown.value) else Fine(true);
    }

    method FinishDisconnect(diagnostic: Option<ControlError>, ports: Ports) returns (ended: Ended)
      modifies this, owner
      ensures Exit(Shown(), Around(), ended) == Finishing(old(Shown()), old(Around()), diagnostic, ports)
    {
      ghost var before := Shown();
      var erased: Option<OwnerError>;
      if transaction.Some? {
        erased := Release(true, ports);
      } else {
        erased := EraseIdle(ports);
      }
      assert Shown() == before.(transaction := None);
      ended := ShowDisconnected(diagnostic, erased);
    }

    // ------------------------------------------------------------ dispatch

    /** The worker did not take the request. */
    method RefuseDispatch(phase: Phase, ports: Ports) returns (ended: Ended)
      modifies this, owner
      ensures Exit(Shown(), Around(), ended) == DispatchRefused(old(Shown()), old(Around()), phase, ports)
    {
      if phase.Revoke? {
        ended := FinishDisconnect(Some(DispatchFailed), ports);
      } else {
        ended := Fail(DispatchFailed, draft.Some? && draft.value.rotated, ports);
      }
    }

    /** Hands a command to the worker. */
    method Dispatch(phase: Phase, command: Command, ports: Ports) returns (ended: Ended)
      modifies this, owner
      ensures Exit(Shown(), Around(), ended) == Asking(old(Shown()), old(Around()), phase, command, ports)
    {
      if pending.Some? || nextRequest >= MAX_U64 {
        ended := Fail(ControlExhausted, false, ports);
        return;
      }
      var id := nextRequest;
      nextRequest := nextRequest + 1;
      pending := Some(InFlight(id, phase));
      if !ports.queued {
        ended := RefuseDispatch(phase, ports);
        return;
      }
      requests := requests + [Request(transaction, phase, command)];
      snapshot := snapshot.(status := StatusOf(phase), diagnostic := None);
      Bump();
      return Fine(true);
    }

    /** Hands the draft's credentials to the worker. */
    method DispatchCredentials(phase: Phase, ports: Ports) returns (ended: Ended)
      modifies this, owner
      ensures Exit(Shown(), Around(), ended) == AskingWithCredentials(old(Shown()), old(Around()), phase, ports)
    {
      ghost var exit := AskingWithCredentials(Shown(), Around(), phase, ports);
      if draft.None? || draft.value.credentials.None? {
        ended := Fail(InvalidState, false, ports);
        return;
      }
      var credentials := draft.value.credentials.value;
      draft := Some(draft.value.(credentials := None));
      var command := if phase.Refresh? then AskRefresh(credentials) else AskValidation(credentials);
      assert exit == Asking(Shown(), Around(), phase, command, ports);
      ended := Dispatch(phase, command, ports);
    }

    method Adopt(tx: Transaction)
      modifies this`transaction, this`draft
      ensures Shown() == Adopted(old(Shown()), tx)
    {
      transaction := Some(tx.id);
      draft := Some(Draft(Some(Credentials(tx.session.access, tx.session.refresh, tx.session.expiresAt)),
                          Some(User(tx.session.userId, tx.session.login)), false));
    }

    // ------------------------------------------------------------ calls that open a flow

    method Running(ports: Ports) returns (error: Option<ControlError>)
      modifies owner
      ensures Around() == Waiting(Shown(), old(Around())) && error == NotRunning(Shown(), owner.Now(), ports)
    {
      Turn();
      if snapshot.shuttingDown || owner.stopping || ports.configurationStopping {
        return Some(ControlStopping);
      }
      if snapshot.revision >= MAX_U64 - 1 || nextRequest >= MAX_U64 {
        return Some(ControlExhausted);
      }
      return None;
    }

    method IdleConnection(ports: Ports) returns (error: Option<ControlError>)
      modifies owner
      ensures Around() == Waiting(Shown(), old(Around())) && error == NotIdle(Shown(), owner.Now(), ports)
    {
      error := Running(ports);
      if error.Some? {
        return;
      }
      if pending.Some? || transaction.Some? {
        return Some(ControlBusy);
      }
      if !snapshot.status.StatusDisconnected? && !snapshot.status.StatusError? {
        return Some(InvalidState);
      }
      return None;
    }

    /** Reserves a transaction for a new authorization. */
    method Reserve() returns (error: Option<OwnerError>)
      modifies this`transaction, owner
      ensures var seen := Waiting(old(Shown()), old(Around()));
              var (after, reserved) := ReserveNew(seen.owner);
              && Around() == seen.(owner := after)
              && (if reserved.Err? then error == Some(reserved.error) && Shown() == old(Shown())
                  else error.None? && Shown() == old(Shown()).(transaction := Some(reserved.value)))
    {
      Turn();
      var reserved := owner.ReserveNew();
      if reserved.Err? {
        return Some(reserved.error);
      }
      transaction := Some(reserved.value);
      return None;
    }

    method BeginConnection(ports: Ports) returns (ended: Ended)
      modifies this, owner
      ensures Exit(Shown(), Around(), ended) == ConnectionBegun(old(Shown()), old(Around()), ports)
    {
      ghost var exit := ConnectionBegun(Shown(), Around(), ports);
      var error := IdleConnection(ports);
      if error.Some? {
        return Bad(error.value);
      }
      var refused := Reserve();
      if refused.Some? {
        return Bad(Mapped(refused.value));
      }
      ClearPublic();
      assert exit == Asking(Shown(), Around(), Start, AskDevice, ports);
      ended := Dispatch(Start, AskDevice, ports);
    }

    /** Checks the saved session out, if there is one. */
    method TakeSaved(ports: Ports) returns (result: Result<bool, OwnerError>)
      modifies this`transaction, this`draft, owner
      ensures var checked := CheckoutSaved(Waiting(old(Shown()), old(Around())).owner, ports.loading).1;
              result == if checked.Err? then Err(checked.error) else Ok(checked.value.Some?)
      ensures Take(Shown(), Around(), if result.Err? then Some(result.error) else None) == SavedTaken(old(Shown()), old(Around()), ports)
    {
      Turn();
      var checked := owner.CheckoutSaved(ports.loading);
      if checked.Err? {
        return Err(checked.error);
      }
      if checked.value.None? {
        return Ok(false);
      }
      Adopt(checked.value.value);
      return Ok(true);
    }

    method BeginSavedConnection(ports: Ports) returns (ended: Ended)
      modifies this, owner
      ensures Exit(Shown(), Around(), ended) == SavedConnectionBegun(old(Shown()), old(Around()), ports)
    {
      ghost var exit := SavedConnectionBegun(Shown(), Around(), ports);
      var error := IdleConnection(ports);
      if error.Some? {
        return Bad(error.value);
      }
      var taken := TakeSaved(ports);
      if taken.Err? {
        assert exit == Failing(Shown(), Around(), Mapped(taken.error), false, ports);
        ended := Fail(Mapped(taken.error), false, ports);
        return;
      }
      if !taken.value {
        return Fine(false);
      }
      ClearPublic();
      assert exit == AskingWithCredentials(Shown(), Around(), ValidateSaved, ports);
      ended := DispatchCredentials(ValidateSaved, ports);
    }

    /** Checks the active session out. */
    method TakeActive() returns (error: Option<OwnerError>)
      modifies this`transaction, this`draft, owner
      ensures Take(Shown(), Around(), error) == ActiveTaken(old(Shown()), old(Around()))
    {
      Turn();
      var checked := owner.CheckoutActive();
      if checked.Err? {
        return Some(checked.error);
      }
      Adopt(checked.value);
      return None;
    }

    /** Whatever session there is to revoke: the active one, or the saved one if it can be read. */
    method TakeAny(ports: Ports) returns (error: Option<OwnerError>)
      modifies this`transaction, this`draft, owner
      ensures Take(Shown(), Around(), error) == AnyTaken(old(Shown()), old(Around()), ports)
    {
      error := TakeActive();
      if error == Some(NoSession) {
        var taken := TakeSaved(ports);
        error := if taken.Err? && taken.error != DecodeFailed then Some(taken.error) else None;
      }
    }

    /** Revokes the token that is at hand, or just erases. */
    method RevokeOrErase(ports: Ports) returns (ended: Ended)
      modifies this, owner
      ensures Exit(Shown(), Around(), ended) == RevokedOrErased(old(Shown()), old(Around()), ports)
    {
      if draft.Some? && draft.value.credentials.Some? {
        var credentials := draft.value.credentials.value;
        draft := Some(draft.value.(credentials := None));
        ended := Dispatch(Revoke, AskRevocation(credentials.access), ports);
      } else {
        ended := FinishDisconnect(None, ports);
      }
    }

    method Disconnect(ports: Ports) returns (ended: Ended)
      modifies this, owner
      ensures Exit(Shown(), Around(), ended) == DisconnectedBy(old(Shown()), old(Around()), ports)
    {
      ghost var exit := DisconnectedBy(Shown(), Around(), ports);
      var error := Running(ports);
      if error.Some? {
        return Bad(error.value);
      }
      if pending.Some? {
        return Bad(ControlBusy);
      }
      if !ports.settingsSaved {
        return Bad(SettingsSaveFailed);
      }
      authorization, deferred := None, None;
      if transaction.None? {
        var refused := TakeAny(ports);
        if refused.Some? {
          return Bad(Mapped(refused.value));
        }
      }
      ClearPublic();
      assert exit == RevokedOrErased(Shown(), Around(), ports);
      ended := RevokeOrErase(ports);
    }

    // ------------------------------------------------------------ results

    method AcceptDevice(device: Device, ports: Ports) returns (ended: Ended)
      modifies this, owner
      ensures Exit(Shown(), Around(), ended) == DeviceAccepted(old(Shown()), old(Around()), device, ports)
    {
      if !ValidDevice(device) {
        ended := Fail(InvalidResult, false, ports);
        return;
      }
      if ports.steady.None? || ports.system.None? {
        return Unwound;
      }
      var expires, nextPoll := AddInstant(ports.steady.value, device.expiresIn), AddInstant(ports.steady.value, device.interval);
      var absolute := AddDuration(ports.system.value, device.expiresIn);
      if expires.None? || nextPoll.None? || absolute.None? {
        ended := Fail(InvalidResult, false, ports);
        return;
      }
      authorization := Some(Authorization(Some(device.code), expires.value, nextPoll.value, device.interval));
      snapshot := snapshot.(status := AwaitingUser, userCode := Some(device.userCode), uri := Some(device.uri),
                            authorizationExpiresAt := Some(absolute.value), diagnostic := None);
      Bump();
      return Fine(true);
    }

    /** The device code is back: poll again no sooner than the interval says. */
    method DeferPoll(code: Bytes, retry: Option<nat>, ports: Ports) returns (ended: Ended)
      modifies this, owner
      ensures Exit(Shown(), Around(), ended) == PollDeferred(old(Shown()), old(Around()), code, retry, ports)
    {
      if !ValidToken(code) {
        ended := Fail(InvalidResult, false, ports);
        return;
      }
      if ports.steady.None? {
        return Unwound;
      }
      if authorization.None? {
        ended := Fail(InvalidState, false, ports);
        return;
      }
      var interval := authorization.value.interval;
      var delay := if retry.Some? && retry.value > interval then retry.value else interval;
      var deadline := AddInstant(ports.steady.value, delay);
      if deadline.None? {
        ended := Fail(InvalidResult, false, ports);
        return;
      }
      authorization := Some(authorization.value.(code := Some(code), nextPoll := deadline.value));
      snapshot := snapshot.(status := AwaitingUser, diagnostic := if retry.Some? then Some(AuthenticationFailed) else None);
      Bump();
      return Fine(true);
    }

    method AcceptGrant(grant: Grant, ports: Ports) returns (ended: Ended)
      modifies this, owner
      ensures Exit(Shown(), Around(), ended) == GrantAccepted(old(Shown()), old(Around()), grant, ports)
    {
      ghost var exit := GrantAccepted(Shown(), Around(), grant, ports);
      authorization := None;
      ClearPublic();
      var validity := ValidityOf(grant, ports.system);
      match validity {
        case NoClock => return Unwound;
        case TooLate => ended := Fail(InvalidResult, false, ports);
        case At(credentials) =>
          draft := Some(Draft(Some(credentials), None, false));
          assert exit == AskingWithCredentials(Shown(), Around(), ValidateInitial, ports);
          ended := DispatchCredentials(ValidateInitial, ports);
      }
    }

    method SetConnected(connected: Connected, next: Schedule)
      modifies this
      ensures Shown() == ShownConnected(old(Shown()), connected, next)
    {
      schedule := Some(next.(ownerRevision := connected.revision));
      draft, authorization, deferred := None, None, None;
      ClearPublic();
      snapshot := snapshot.(status := StatusConnected, login := Some(connected.login),
                            accessExpiresAt := Some(connected.expiresAt), diagnostic := None);
      Bump();
    }

    /** Publishes the validated session through the owner. */
    method CommitSession(session: Session, ports: Ports) returns (result: Result<Connected, OwnerError>)
      requires transaction.Some?
      modifies this`transaction, owner
      ensures transaction == if result.Ok? then None else old(transaction)
      ensures var seen := Waiting(old(Shown()), old(Around()));
              var (after, committed) := Commit(seen.owner, old(transaction).value, session, ports.persisted);
              Around() == seen.(owner := after) && result == committed
    {
      var id := transaction.value;
      Turn();
      result := owner.Commit(id, session, ports.persisted);
      if result.Ok? {
        transaction := None;
      }
    }

    method AcceptValidation(credentials: Credentials, identity: Identity, ports: Ports) returns (ended: Ended)
      modifies this, owner
      ensures Exit(Shown(), Around(), ended) == ValidationAccepted(old(Shown()), old(Around()), credentials, identity, ports)
    {
      if draft.None? {
        ended := Fail(InvalidState, false, ports);
        return;
      }
      var rotated := draft.value.rotated;
      if draft.value.identity.Some? && draft.value.identity.value.id != identity.userId {
        ended := Fail(WrongIdentity, true, ports);
        return;
      }
      if !ValidDuration(identity.expiresIn) {
        ended := Fail(InvalidResult, true, ports);
        return;
      }
      if ports.system.None? {
        return Unwound;
      }
      var expiry := AddDuration(ports.system.value, identity.expiresIn);
      if expiry.None? {
        ended := Fail(InvalidResult, true, ports);
        return;
      }
      var session := ValidatedSession(credentials, identity, expiry.value);
      if Encoded(session).Err? {
        ended := Fail(InvalidResult, true, ports);
        return;
      }
      ended := PublishSession(session, rotated, ports);
    }

    method PublishSession(session: Session, rotated: bool, ports: Ports) returns (ended: Ended)
      modifies this, owner
      ensures Exit(Shown(), Around(), ended) == SessionPublished(old(Shown()), old(Around()), session, rotated, ports)
    {
      if transaction.None? {
        ended := Fail(InvalidState, false, ports);
        return;
      }
      var next := ScheduleFor(session.expiresAt, ports.steady, ports.systemAgain);
      if next.NoClock? {
        return Unwound;
      }
      if next.TooLate? {
        ended := Fail(InvalidResult, rotated, ports);
        return;
      }
      var committed := CommitSession(session, ports);
      if committed.Err? {
        ended := Fail(Mapped(committed.error), rotated, ports);
        return;
      }
      SetConnected(committed.value, next.time);
      return Fine(true);
    }

    /** The rotated session replaces the saved one before its token is validated. */
    method PersistRotation(session: Session, ports: Ports) returns (error: Option<OwnerError>)
      requires transaction.Some?
      modifies owner
      ensures var seen := Waiting(Shown(), old(Around()));
              var (after, refused) := PersistPending(seen.owner, transaction.value, session, ports.persisted);
              Around() == seen.(owner := after) && error == refused
    {
      var id := transaction.value;
      Turn();
      error := owner.PersistPending(id, session, ports.persisted);
    }

    /** A granted refresh: persist the rotation first, then validate it. */
    method AdoptRotation(credentials: Credentials, user: User, ports: Ports) returns (ended: Ended)
      modifies this, owner
      ensures Exit(Shown(), Around(), ended) == RotationAdopted(old(Shown()), old(Around()), credentials, user, ports)
    {
      var session := Session(credentials.access, credentials.refresh, credentials.expiresAt, user.id, user.login, [CHAT_SCOPE]);
      if transaction.None? {
        ended := Fail(InvalidState, true, ports);
        return;
      }
      var error := PersistRotation(session, ports);
      if error.Some? {
        ended := Fail(Mapped(error.value), true, ports);
        return;
      }
      draft := Some(Draft(Some(credentials), Some(user), true));
      ended := DispatchCredentials(ValidateRotated, ports);
    }

    method AcceptRotation(grant: Grant, ports: Ports) returns (ended: Ended)
      modifies this, owner
      ensures Exit(Shown(), Around(), ended) == RotationAccepted(old(Shown()), old(Around()), grant, ports)
    {
      if draft.None? {
        ended := Fail(InvalidState, true, ports);
        return;
      }
      draft := Some(draft.value.(rotated := true));
      if draft.value.identity.None? {
        ended := Fail(InvalidState, true, ports);
        return;
      }
      var validity := ValidityOf(grant, ports.system);
      match validity {
        case NoClock => return Unwound;
        case TooLate => ended := Fail(InvalidResult, true, ports);
        case At(credentials) => ended := AdoptRotation(credentials, draft.value.identity.value, ports);
      }
    }

    method Wait(phase: Phase, deadline: nat, shown: ControlError)
      modifies this`deferred, this`snapshot
      ensures Shown() == Deferring(old(Shown()), phase, deadline, shown) && Around() == old(Around())
    {
      deferred := Some(Deferred(phase, deadline));
      snapshot := snapshot.(status := StatusOf(phase), diagnostic := Some(shown));
      Bump();
    }

    /** The same request again after a bounded delay. */
    method WaitToRetry(phase: Phase, delay: nat, shown: ControlError, ports: Ports) returns (ended: Ended)
      modifies this, owner
      ensures Exit(Shown(), Around(), ended) == RetryAwaited(old(Shown()), old(Around()), phase, delay, shown, ports)
    {
      var deadline := if ports.steady.Some? then AddInstant(ports.steady.value, delay) else None;
      ghost var exit := RetryAwaited(Shown(), Around(), phase, delay, shown, ports);
      if ports.steady.None? {
        ended := Unwound;
      } else if deadline.None? {
        assert exit == Failing(Shown(), Around(), InvalidResult, false, ports);
        ended := Fail(InvalidResult, false, ports);
        assert Exit(Shown(), Around(), ended) == exit;
      } else {
        assert exit == Exit(Deferring(Shown(), phase, deadline.value, shown), Around(), Fine(true));
        Wait(phase, deadline.value, shown);
        ended := Fine(true);
        assert Exit(Shown(), Around(), ended) == exit;
      }
    }

    /** A failed validation or refresh whose credentials came back: wait, refresh, or give up. */
    method RetryWith(phase: Phase, error: ApiError, credentials: Credentials, shown: ControlError, ports: Ports) returns (ended: Ended)
      modifies this, owner
      ensures Exit(Shown(), Around(), ended) == Retried(old(Shown()), old(Around()), phase, error, credentials, shown, ports)
    {
      ghost var exit := Retried(Shown(), Around(), phase, error, credentials, shown, ports);
      if draft.None? {
        ended := Fail(InvalidState, false, ports);
        assert Exit(Shown(), Around(), ended) == exit;
      } else if !ValidToken(credentials.access) || !ValidToken(credentials.refresh) {
        ended := Fail(InvalidResult, true, ports);
        assert Exit(Shown(), Around(), ended) == exit;
      } else {
        draft := Some(draft.value.(credentials := Some(credentials)));
        if error.disposition.DoRetry? {
          ended := WaitToRetry(phase, RetryDelay(error.retryAfter), shown, ports);
        } else if error.disposition.DoReconnect? && (phase.ValidateSaved? || phase.ValidateActive?) {
          ended := DispatchCredentials(Phase.Refresh, ports);
        } else {
          ended := Fail(shown, phase.Refresh? || phase.ValidateRotated?, ports);
        }
        assert Exit(Shown(), Around(), ended) == exit;
      }
    }

    method HandleFailure(phase: Phase, error: ApiError, retained: Option<Secret>, ports: Ports) returns (ended: Ended)
      modifies this, owner
      ensures Exit(Shown(), Around(), ended) == FailureHandled(old(Shown()), old(Around()), phase, error, retained, ports)
    {
      if phase.Revoke? {
        ended := FinishDisconnect(Some(AuthenticationFailed), ports);
        return;
      }
      var shown := ShownError(error.disposition);
      if phase.Poll? && error.disposition.DoRetry? {
        if retained.None? || !retained.value.DeviceCode? {
          ended := Fail(InvalidResult, false, ports);
          return;
        }
        ended := DeferPoll(retained.value.code, Some(RetryDelay(error.retryAfter)), ports);
        return;
      }
      if Validates(phase) || phase.Refresh? {
        if retained.None? || !retained.value.Kept? {
          ended := Fail(InvalidResult, phase.Refresh? || phase.ValidateRotated?, ports);
          return;
        }
        ended := RetryWith(phase, error, retained.value.credentials, shown, ports);
        return;
      }
      ended := Fail(shown, false, ports);
    }

    /** A success of the right operation, by phase. */
    method HandleSuccess(phase: Phase, success: Success, ports: Ports) returns (ended: Ended)
      modifies this, owner
      ensures Exit(Shown(), Around(), ended) == SuccessHandled(old(Shown()), old(Around()), phase, success, ports)
    {
      if phase.Start? && success.Started? {
        ended := AcceptDevice(success.device, ports);
      } else if phase.Poll? && success.StillPending? {
        ended := DeferPoll(success.code, None, ports);
      } else if phase.Poll? && success.Granted? {
        ended := AcceptGrant(success.grant, ports);
      } else if Validates(phase) && success.Validated? {
        ended := AcceptValidation(success.credentials, success.identity, ports);
      } else if phase.Refresh? && success.Renewed? {
        ended := AcceptRotation(success.renewal, ports);
      } else if phase.Revoke? {
        ended := FinishDisconnect(if success.Revoked? then None else Some(InvalidResult), ports);
      } else {
        ended := Fail(InvalidResult, phase.ValidateRotated?, ports);
      }
    }

    /** A result that does not fit the request in flight. */
    method RefuseResult(phase: Phase, ports: Ports) returns (ended: Ended)
      modifies this, owner
      ensures Exit(Shown(), Around(), ended) == ResultRefused(old(Shown()), old(Around()), phase, ports)
    {
      if phase.Revoke? {
        ended := FinishDisconnect(Some(InvalidResult), ports);
      } else {
        ended := Fail(InvalidResult, phase.ValidateRotated?, ports);
      }
    }

    /** Results count only for the request in flight, and each once. */
    method HandleResult(result: AuthResult, ports: Ports) returns (ended: Ended)
      modifies this, owner
      ensures Exit(Shown(), Around(), ended) == ResultHandled(old(Shown()), old(Around()), result, ports)
    {
      if pending.None? {
        return Bad(StaleResult);
      }
      if pending.value.id != result.id {
        return Bad(StaleResult);
      }
      var phase := pending.value.phase;
      pending, accepted := None, accepted + [result.id];
      if OperationOf(phase) != result.operation {
        ended := RefuseResult(phase, ports);
        return;
      }
      match result.outcome {
        case Err(error) => ended := HandleFailure(phase, error, result.retained, ports);
        case Ok(success) =>
          if result.retained.Some? {
            ended := RefuseResult(phase, ports);
            return;
          }
          ended := HandleSuccess(phase, success, ports);
      }
    }

    // ------------------------------------------------------------ the clock

    /** A connection under the schedule: follow the owner, or start a validation or refresh. */
    method TickConnected(now: nat, ports: Ports) returns (ended: Ended)
      requires schedule.Some?
      modifies this, owner
      ensures Exit(Shown(), Around(), ended) == ConnectedTicked(old(Shown()), old(Around()), now, ports)
    {
      Turn();
      var seen := Observe(owner.Now());
      match seen {
        case Disconnected =>
          ended := Fail(MustReconnect, false, ports);
        case ShuttingDown =>
          ended := Fail(ControlStopping, false, ports);
        case Updating =>
          // Somebody has the session out: nothing is shown while it may change.
          if snapshot.status.Validating? {
            return Fine(false);
          }
          snapshot := snapshot.(status := Validating, login := None, accessExpiresAt := None);
          Bump();
          return Fine(true);
        case Active(connected) =>
          ended := FollowOwner(now, connected, ports);
      }
    }

    method FollowOwner(now: nat, connected: Connected, ports: Ports) returns (ended: Ended)
      requires schedule.Some?
      modifies this, owner
      ensures Exit(Shown(), Around(), ended) == OwnerFollowed(old(Shown()), old(Around()), now, connected, ports)
    {
      var known := schedule.value.ownerRevision == connected.revision;
      if !snapshot.status.StatusConnected? && known {
        // Back unchanged: the schedule made for this revision still stands.
        SetConnected(connected, schedule.value);
        return Fine(true);
      }
      if !snapshot.status.StatusConnected? || !known {
        var next := ScheduleFor(connected.expiresAt, ports.steady, ports.system);
        match next {
          case NoClock => return Unwound;
          case TooLate => ended := Fail(InvalidResult, false, ports);
          case At(times) =>
            SetConnected(connected, times);
            ended := Fine(true);
        }
        return;
      }
      if now < schedule.value.refresh && now < schedule.value.validation {
        return Fine(false);
      }
      ended := CheckUp(if now >= schedule.value.refresh then Phase.Refresh else ValidateActive, ports);
    }

    /** Borrows the active session to refresh or validate it. */
    method CheckUp(phase: Phase, ports: Ports) returns (ended: Ended)
      modifies this, owner
      ensures Exit(Shown(), Around(), ended) == CheckedUp(old(Shown()), old(Around()), phase, ports)
    {
      var refused := TakeActive();
      if refused == Some(Busy) {
        return Fine(false);
      }
      if refused.Some? {
        ended := Fail(Mapped(refused.value), false, ports);
        return;
      }
      ClearPublic();
      ended := DispatchCredentials(phase, ports);
    }

    /** An open flow with nothing in flight: retry when the deadline has come, or poll. */
    method TickFlow(now: nat, ports: Ports) returns (ended: Ended)
      requires deferred.Some? || authorization.Some?
      modifies this, owner
      ensures Exit(Shown(), Around(), ended) == FlowTicked(old(Shown()), old(Around()), now, ports)
    {
      if deferred.Some? {
        if now < deferred.value.deadline {
          return Fine(false);
        }
        var phase := deferred.value.phase;
        deferred := None;
        ended := DispatchCredentials(phase, ports);
        return;
      }
      if now < authorization.value.nextPoll {
        return Fine(false);
      }
      if authorization.value.code.None? {
        ended := Fail(InvalidState, false, ports);
        return;
      }
      var code := authorization.value.code.value;
      authorization := Some(authorization.value.(code := None));
      ended := Dispatch(Poll, AskPoll(code), ports);
    }

    method TickInner(reading: Option<nat>, polled: Polled, ports: Ports) returns (ended: Ended)
      modifies this, owner
      ensures Exit(Shown(), Around(), ended) == InnerTicked(old(Shown()), old(Around()), reading, polled, ports)
    {
      if reading.None? {
        return Unwound;
      }
      var now := reading.value;
      // Time is looked at before results, so a grant that comes too late is never read.
      if authorization.Some? && now >= authorization.value.expires {
        ended := Fail(AuthorizationExpired, false, ports);
        return;
      }
      match polled {
        case PollPanicked => return Unwound;
        case Arrived(result) =>
          ended := HandleResult(result, ports);
          return;
        case Nothing =>
      }
      if pending.Some? {
        return Fine(false);
      }
      if deferred.Some? || authorization.Some? {
        ended := TickFlow(now, ports);
        return;
      }
      if schedule.None? || (!snapshot.status.StatusConnected? && !snapshot.status.Validating?) {
        return Fine(false);
      }
      ended := TickConnected(now, ports);
    }

    /** A panic of any port ends the flow like an error. */
    method CatchPanic(ports: Ports) returns (ended: Ended)
      modifies this, owner
      ensures Exit(Shown(), Around(), ended) == PanicCaught(Exit(old(Shown()), old(Around()), Unwound), ports)
    {
      if snapshot.status.Disconnecting? {
        ended := FinishDisconnect(Some(ControlInternal), ports);
      } else {
        ended := Fail(ControlInternal, draft.Some? && draft.value.rotated, ports);
      }
    }

    /** One round of the workflow. */
    method Tick(reading: Option<nat>, polled: Polled, ports: Ports) returns (ended: Ended)
      modifies this, owner
      ensures Exit(Shown(), Around(), ended) == Ticked(old(Shown()), old(Around()), reading, polled, ports)
    {
      var error := Running(ports);
      if error.Some? {
        return Bad(error.value);
      }
      ended := TickInner(reading, polled, ports);
      if ended.Unwound? {
        ended := CatchPanic(ports);
      }
    }

    method StopOwner()
      modifies this`transaction, owner
      ensures Shown() == old(Shown()).(transaction := None)
      ensures var seen := Waiting(old(Shown()), old(Around())); Around() == seen.(owner := Sessions.Shutdown(seen.owner))
    {
      Turn();
      owner.Shutdown();
      transaction := None;
    }

    method Stop(diagnostic: Option<ControlError>)
      modifies this, owner
      ensures Exit(Shown(), Around(), Fine(true)) == Stopped(old(Shown()), old(Around()), diagnostic)
    {
      StopOwner();
      Close(StatusShuttingDown, diagnostic);
      snapshot := snapshot.(shuttingDown := true);
    }

    /** Once the owner is stopped, nothing that the worker still reports has anything to act on. */
    method Shutdown(ports: Ports)
      modifies this, owner
      ensures Exit(Shown(), Around(), Fine(!old(snapshot).shuttingDown)) == ShutDown(old(Shown()), old(Around()), ports)
    {
      if snapshot.shuttingDown {
        return;
      }
      var diagnostic: Option<ControlError> := None;
      if snapshot.status.Disconnecting? {
        var ended := FinishDisconnect(None, ports);
        diagnostic := if ended.Bad? then Some(ended.error) else None;
      }
      Stop(diagnostic);
    }

    method Make(call: Call) returns (ended: Ended)
      modifies this, owner
      ensures Exit(Shown(), Around(), ended) == Made(old(Shown()), old(Around()), call)
    {
      match call
      case BeginningConnection(ports) => ended := BeginConnection(ports);
      case BeginningSaved(ports) => ended := BeginSavedConnection(ports);
      case Ticking(reading, polled, ports) => ended := Tick(reading, polled, ports);
      case DisconnectingNow(ports) => ended := Disconnect(ports);
      case StoppingNow(ports) =>
        ended := Fine(!snapshot.shuttingDown);
        Shutdown(ports);
    }

    /** Any sequence of calls, with any answers of the ports and any turns of the others. */
    method Drive(calls: seq<Call>)
      modifies this, owner
      ensures Shown() == MadeAll(old(Shown()), old(Around()), calls).view
      ensures Around() == MadeAll(old(Shown()), old(Around()), calls).world
    {
      for i := 0 to |calls|
        invariant Shown() == MadeAll(old(Shown()), old(Around()), calls[..i]).view
        invariant Around() == MadeAll(old(Shown()), old(Around()), calls[..i]).world
      {
        var ended := Make(calls[i]);
        assert calls[..i + 1][..i] == calls[..i];
      }
      assert calls[..|calls|] == calls;
    }
  }
}
