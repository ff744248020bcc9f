/** What the controller makes of each answer: which request comes next and with what secret, when a
    flow ends, with which cause and whether the saved session goes with it, and how a connection is
    followed and given up. */
module AuthenticationAnswers {
  import opened Outcomes
  import opened Times
  import opened ByteStrings
  import opened TwitchSession
  import opened TwitchPorts
  import opened Sessions = SessionOwnerSpec
  import opened AuthenticationWorkflow
  import opened AuthenticationRuns
  import opened AuthenticationPromises

  // ---------------------------------------------------------------- how a flow ends

  /** Nothing is left of the flow, and the cause is on display. */
  predicate ShowsEnd(v: View, x: Exit, cause: ControlError) {
    && x.ended == Bad(cause)
    && x.view.transaction.None? && x.view.pending.None? && x.view.draft.None? && x.view.deferred.None?
    && x.view.authorization.None? && x.view.schedule.None? && x.view.requests == v.requests
    && x.view.snapshot.status.StatusError? && x.view.snapshot.diagnostic == Some(cause)
    && x.view.snapshot.login.None? && x.view.snapshot.userCode.None? && x.view.snapshot.uri.None?
    && x.view.snapshot.accessExpiresAt.None? && x.view.snapshot.authorizationExpiresAt.None?
  }

  /** What an erasure leaves of the record. */
  function LeftOf(store: Option<Bytes>, erased: StorageAnswer): Option<Bytes> {
    match erased
    case Done => None
    case Fails(left) => left
    case ShutsDown => store
  }

  /** The flow is over and its transaction closed, with no session active. The record is erased if so
      asked, and then a failure to erase is what is shown; otherwise it stays. */
  ghost predicate FlowEnds(v: View, x: Exit, store: Option<Bytes>, cause: ControlError, erase: bool, ports: Ports) {
    if x.world.owner.stopping then x.ended.Bad? && ShowsEnd(v, x, x.ended.error) && (!erase ==> x.ended.error == cause)
    else
      && ShowsEnd(v, x, if erase && ports.erased.Fails? then SessionEraseFailed else if erase && ports.erased.ShutsDown? then ControlStopping else cause)
      && x.world.owner.active.None? && x.world.owner.pending.None?
      && x.world.owner.store == (if erase then LeftOf(store, ports.erased) else store)
  }

  lemma FailingEnds(v: View, w: World, cause: ControlError, erase: bool, ports: Ports)
    requires Bound(v, w)
    ensures FlowEnds(v, Failing(v, w, cause, erase, ports), w.owner.store, cause, erase, ports)
  {
    WaitingOutcome(v, w);
  }

  /** A request with this secret is in flight under the flow's transaction, and nothing else happened. */
  ghost predicate GoesOut(v: View, x: Exit, phase: Phase, status: Status, command: Command) {
    && x.ended == Fine(true) && x.view.transaction == v.transaction && x.view.pending == Some(InFlight(v.nextRequest, phase))
    && x.view.nextRequest == v.nextRequest + 1 && x.view.requests == v.requests + [Request(v.transaction, phase, command)]
    && x.view.snapshot.status == status && x.view.snapshot.diagnostic.None?
  }

  // ---------------------------------------------------------------- failures

  /** The cause shown for a failure that ends the flow. */
  predicate IsCause(disposition: Disposition, cause: ControlError) {
    && (disposition.DoCancel? ==> cause == AuthenticationCancelled)
    && (disposition.DoReconnect? ==> cause == MustReconnect)
    && (disposition.DoFail? || disposition.DoRetry? ==> cause == AuthenticationFailed)
  }

  /** The worker gave the pair back, and it can be used again. */
  predicate PairIsBack(retained: Option<Secret>) {
    retained.Some? && retained.value.Kept?
    && ValidToken(retained.value.credentials.access) && ValidToken(retained.value.credentials.refresh)
  }

  /** A rejected session of an existing connection is refreshed with the very pair that was rejected,
      under the same transaction, and the record stays as it is. */
  lemma RejectedSessionIsRefreshed(v: View, w: World, phase: Phase, error: ApiError, retained: Option<Secret>, ports: Ports)
    requires v.draft.Some? && v.pending.None? && v.nextRequest < MAX_U64 && ports.queued && PairIsBack(retained)
    requires (phase.ValidateSaved? || phase.ValidateActive?) && error.disposition.DoReconnect?
    ensures var x := FailureHandled(v, w, phase, error, retained, ports);
            && GoesOut(v, x, Phase.Refresh, Status.Refreshing, AskRefresh(retained.value.credentials)) && x.world == w
            && x.view.draft.Some? && x.view.draft.value.identity == v.draft.value.identity && x.view.draft.value.rotated == v.draft.value.rotated
  {
  }

  /** Any other failure of a check that is not to be retried ends the flow. The record goes with it
      exactly if the refresh token may be used up: after a refresh, or if the pair came back damaged. */
  lemma FailedCheckEnds(v: View, w: World, phase: Phase, error: ApiError, retained: Option<Secret>, cause: ControlError, ports: Ports)
    requires Bound(v, w) && v.draft.Some? && (Validates(phase) || phase.Refresh?)
    requires PairIsBack(retained) ==>
               IsCause(error.disposition, cause) && !error.disposition.DoRetry?
               && !(error.disposition.DoReconnect? && (phase.ValidateSaved? || phase.ValidateActive?))
    requires !PairIsBack(retained) ==> cause == InvalidResult
    ensures var x := FailureHandled(v, w, phase, error, retained, ports);
            var damaged := retained.Some? && retained.value.Kept? && !PairIsBack(retained);
            FlowEnds(v, x, w.owner.store, cause, phase.Refresh? || phase.ValidateRotated? || damaged, ports)
  {
    var erase := phase.Refresh? || phase.ValidateRotated?;
    FailingEnds(v, w, InvalidResult, erase, ports);
    FailingEnds(v, w, InvalidResult, true, ports);
    if PairIsBack(retained) {
      FailingEnds(v.(draft := Some(v.draft.value.(credentials := Some(retained.value.credentials)))), w, cause, erase, ports);
    }
  }

  /** A failure of the device flow ends it, unless a poll is to be repeated; nothing was saved yet, so
      the record stays. */
  lemma FailedDeviceFlowEnds(v: View, w: World, phase: Phase, error: ApiError, retained: Option<Secret>, cause: ControlError, ports: Ports)
    requires Bound(v, w) && (phase.Start? || phase.Poll?)
    requires !(phase.Poll? && error.disposition.DoRetry?) ==> IsCause(error.disposition, cause)
    requires phase.Poll? && error.disposition.DoRetry? ==> cause == InvalidResult && (retained.None? || !retained.value.DeviceCode?)
    ensures FlowEnds(v, FailureHandled(v, w, phase, error, retained, ports), w.owner.store, cause, false, ports)
  {
    FailingEnds(v, w, cause, false, ports);
  }

  /** A failed poll that is worth repeating is repeated with the same code, after the longer of the
      interval and the delay asked for, which is half a minute unless it is positive and at most a day. */
  lemma FailedPollIsRepeated(v: View, w: World, error: ApiError, code: Bytes, ports: Ports)
    requires v.authorization.Some? && error.disposition.DoRetry? && ValidToken(code) && ports.steady.Some?
    requires ports.steady.value + v.authorization.value.interval < INSTANT_LIMIT && ports.steady.value + DAY < INSTANT_LIMIT
    ensures var x := FailureHandled(v, w, Poll, error, Some(DeviceCode(code)), ports);
            var asked := if error.retryAfter.Some? && 0 < error.retryAfter.value <= 86_400 * SECOND then error.retryAfter.value else 30 * SECOND;
            var interval := v.authorization.value.interval;
            && x.ended == Fine(true) && x.world == w && x.view.requests == v.requests && x.view.snapshot.status.AwaitingUser?
            && x.view.snapshot.diagnostic == Some(AuthenticationFailed)
            && x.view.authorization == Some(v.authorization.value.(
                 code := Some(code), nextPoll := ports.steady.value + if asked > interval then asked else interval))
  {
  }

  /** A result is taken only by the request in flight; one that does not fit it ends the flow. */
  lemma UnfitResultEnds(v: View, w: World, result: AuthResult, ports: Ports)
    requires Bound(v, w)
    ensures var x := ResultHandled(v, w, result, ports);
            && (v.pending.None? || v.pending.value.id != result.id ==> x == Exit(v, w, Bad(StaleResult)))
            && (v.pending.Some? && v.pending.value.id == result.id && !v.pending.value.phase.Revoke?
                && !Fits(v.pending.value.phase, result) ==>
                  FlowEnds(v, x, w.owner.store, InvalidResult, v.pending.value.phase.ValidateRotated?, ports))
  {
    if v.pending.Some? {
      FailingEnds(v.(pending := None, accepted := v.accepted + [result.id]), w, InvalidResult, v.pending.value.phase.ValidateRotated?, ports);
    }
  }

  /** A failure of the operation that was asked for, or a success of the right kind with no secret left over. */
  predicate Fits(phase: Phase, result: AuthResult) {
    && (match phase
        case Start => result.operation.OpStart?
        case Poll => result.operation.OpPoll?
        case Refresh => result.operation.OpRefresh?
        case Revoke => result.operation.OpRevoke?
        case _ => result.operation.OpValidate?)
    && (result.outcome.Ok? ==> result.retained.None?)
    && (result.outcome.Ok? ==>
          match phase
          case Start => result.outcome.value.Started?
          case Poll => result.outcome.value.StillPending? || result.outcome.value.Granted?
          case Refresh => result.outcome.value.Renewed?
          case Revoke => result.outcome.value.Revoked?
          case _ => result.outcome.value.Validated?)
  }

  // ---------------------------------------------------------------- successes that cannot be used

  /** What Twitch sends is shown to the user only if it leads to Twitch; the deadlines follow from it. */
  lemma DeviceIsTakenIff(v: View, w: World, device: Device, ports: Ports)
    requires Bound(v, w) && ports.steady.Some? && ports.system.Some?
    ensures var x := DeviceAccepted(v, w, device, ports);
            var fits := ports.steady.value + device.expiresIn < INSTANT_LIMIT && ports.steady.value + device.interval < INSTANT_LIMIT
                        && ports.system.value + device.expiresIn <= TIME_LIMIT;
            if fits && 0 < device.expiresIn <= 7 * DAY && 0 < device.interval <= 300 * SECOND && ValidToken(device.code)
               && 0 < |device.userCode| <= 64 && (forall i :: 0 <= i < |device.userCode| ==> device.userCode[i] >= 32 && device.userCode[i] != 127)
               && LeadsToTwitch(device.uri)
            then
              && x.ended == Fine(true) && x.world == w && x.view.requests == v.requests
              && x.view.authorization == Some(Authorization(Some(device.code), ports.steady.value + device.expiresIn,
                                                            ports.steady.value + device.interval, device.interval))
              && x.view.snapshot.status.AwaitingUser? && x.view.snapshot.userCode == Some(device.userCode)
              && x.view.snapshot.uri == Some(device.uri) && x.view.snapshot.diagnostic.None?
              && x.view.snapshot.authorizationExpiresAt == Some(ports.system.value + device.expiresIn)
            else FlowEnds(v, x, w.owner.store, InvalidResult, false, ports)
  {
    FailingEnds(v, w, InvalidResult, false, ports);
  }

  /** Twitch's activation page, with a query at most, in printable characters. */
  predicate LeadsToTwitch(uri: string) {
    var page := "https://www.twitch.tv/activate";
    && page <= uri && |uri| <= 2048 && (uri == page || uri[|page|] == '?')
    && forall i :: 0 <= i < |uri| ==> 0x21 <= uri[i] as int <= 0x7e && uri[i] !in ['@', '#', '\\']
  }

  /** A grant can be used if it carries two tokens, exactly the chat scope, and a usable lifetime. */
  predicate Usable(grant: Grant, system: int) {
    && ValidToken(grant.access) && ValidToken(grant.refresh) && grant.scopes == [CHAT_SCOPE]
    && 0 < grant.expiresIn <= 7 * DAY && system + grant.expiresIn <= TIME_LIMIT
  }

  /** A new grant goes on to its validation, or ends the flow; nothing is saved either way. */
  lemma GrantIsTakenIff(v: View, w: World, grant: Grant, ports: Ports)
    requires Bound(v, w) && v.pending.None? && v.nextRequest < MAX_U64 && ports.queued && ports.system.Some?
    ensures var x := GrantAccepted(v, w, grant, ports);
            if Usable(grant, ports.system.value)
            then x.world == w && GoesOut(v, x, ValidateInitial, Validating,
                                         AskValidation(Credentials(grant.access, grant.refresh, ports.system.value + grant.expiresIn)))
                 && x.view.authorization.None? && x.view.draft == Some(Draft(None, None, false))
            else FlowEnds(v, x, w.owner.store, InvalidResult, false, ports)
  {
    FailingEnds(Concealed(v.(authorization := None)), w, InvalidResult, false, ports);
  }

  /** A refresh that cannot be used or saved ends the flow, and takes the record with it: the old
      refresh token may be dead. */
  lemma UnusableRotationEnds(v: View, w: World, grant: Grant, ports: Ports)
    requires Bound(v, w) && v.draft.Some? && v.draft.value.identity.Some? && ports.system.Some?
    requires !Usable(grant, ports.system.value)
    ensures FlowEnds(v, RotationAccepted(v, w, grant, ports), w.owner.store, InvalidResult, true, ports)
  {
    FailingEnds(v.(draft := Some(v.draft.value.(rotated := true))), w, InvalidResult, true, ports);
  }

  lemma StaysStopped(v: View, w: World, cause: ControlError, erase: bool, ports: Ports)
    requires Valid(w.owner) && w.owner.stopping
    ensures Failing(v, w, cause, erase, ports).world.owner.stopping
  {
    WaitingOutcome(v, w);
  }

  /** A write that fails ends the flow, whatever it left in the store. */
  ghost predicate EndsUnsaved(v: View, x: Exit, left: Option<Bytes>, erase: bool, ports: Ports) {
    x.world.owner.stopping || FlowEnds(v, x, left, SessionStoreFailed, erase, ports)
  }

  lemma UnsavedRotationEnds(v: View, w: World, credentials: Credentials, user: User, left: Option<Bytes>, ports: Ports)
    requires Bound(v, w) && ports.persisted == Fails(left) && w.owner.pending.value.userId == Some(user.id)
    requires Encoded(Session(credentials.access, credentials.refresh, credentials.expiresAt, user.id, user.login, [CHAT_SCOPE])).Ok?
    ensures EndsUnsaved(v, RotationAdopted(v, w, credentials, user, ports), left, true, ports)
  {
    var session := Session(credentials.access, credentials.refresh, credentials.expiresAt, user.id, user.login, [CHAT_SCOPE]);
    var seen := Waiting(v, w);
    WaitingOutcome(v, w);
    PersistKeepsValid(seen.owner, v.transaction.value, session, ports.persisted);
    var (after, error) := PersistPending(seen.owner, v.transaction.value, session, ports.persisted);
    assert RotationAdopted(v, w, credentials, user, ports) == Failing(v, seen.(owner := after), Mapped(error.value), true, ports);
    if seen.owner.stopping {
      StaysStopped(v, seen.(owner := after), Mapped(error.value), true, ports);
    } else {
      FailingEnds(v, seen.(owner := after), SessionStoreFailed, true, ports);
    }
  }

  /** A refresh that the store does not take ends the flow and takes the record with it. */
  lemma UnsavedRefreshEnds(v: View, w: World, grant: Grant, left: Option<Bytes>, ports: Ports)
    requires Bound(v, w) && v.draft.Some? && v.draft.value.identity.Some? && ports.system.Some?
    requires Usable(grant, ports.system.value) && ports.persisted == Fails(left)
    requires var user := v.draft.value.identity.value;
             && w.owner.pending.value.userId == Some(user.id)
             && Encoded(Session(grant.access, grant.refresh, ports.system.value + grant.expiresIn, user.id, user.login, [CHAT_SCOPE])).Ok?
    ensures EndsUnsaved(v, RotationAccepted(v, w, grant, ports), left, true, ports)
  {
    var rotating, credentials := v.(draft := Some(v.draft.value.(rotated := true))),
                                 Credentials(grant.access, grant.refresh, ports.system.value + grant.expiresIn);
    UnsavedRotationEnds(rotating, w, credentials, v.draft.value.identity.value, left, ports);
    assert RotationAccepted(v, w, grant, ports) == RotationAdopted(rotating, w, credentials, v.draft.value.identity.value, ports);
  }

  /** An identity that is not the user's, or cannot be kept, ends the flow and erases the record. */
  lemma UnusableIdentityEnds(v: View, w: World, credentials: Credentials, identity: Identity, ports: Ports)
    requires Bound(v, w) && v.draft.Some? && ports.system.Some?
    ensures var x := ValidationAccepted(v, w, credentials, identity, ports);
            var other := v.draft.value.identity.Some? && v.draft.value.identity.value.id != identity.userId;
            var storable := 0 < identity.expiresIn <= 7 * DAY && ports.system.value + identity.expiresIn <= TIME_LIMIT
                            && Encoded(SessionAt(credentials, identity, ports)).Ok?;
            && (other ==> FlowEnds(v, x, w.owner.store, WrongIdentity, true, ports))
            && (!other && !storable ==> FlowEnds(v, x, w.owner.store, InvalidResult, true, ports))
  {
    FailingEnds(v, w, WrongIdentity, true, ports);
    FailingEnds(v, w, InvalidResult, true, ports);
  }

  lemma UnsavedSessionEnds(v: View, w: World, session: Session, rotated: bool, left: Option<Bytes>, ports: Ports)
    requires Bound(v, w) && ports.persisted == Fails(left) && Encoded(session).Ok? && Schedulable(session.expiresAt, ports)
    requires w.owner.pending.value.userId.Some? ==> w.owner.pending.value.userId.value == session.userId
    ensures EndsUnsaved(v, SessionPublished(v, w, session, rotated, ports), left, rotated, ports)
  {
    var seen := Waiting(v, w);
    WaitingOutcome(v, w);
    CommitKeepsValid(seen.owner, v.transaction.value, session, ports.persisted);
    var (after, committed) := Commit(seen.owner, v.transaction.value, session, ports.persisted);
    assert SessionPublished(v, w, session, rotated, ports) == Failing(v, seen.(owner := after), Mapped(committed.error), rotated, ports);
    if seen.owner.stopping {
      StaysStopped(v, seen.(owner := after), Mapped(committed.error), rotated, ports);
    } else {
      FailingEnds(v, seen.(owner := after), SessionStoreFailed, rotated, ports);
    }
  }

  /** A validated session that the store does not take ends the flow; the record is erased only if it
      was rotated before. */
  lemma UnsavedIdentityEnds(v: View, w: World, credentials: Credentials, identity: Identity, left: Option<Bytes>, ports: Ports)
    requires Bound(v, w) && v.draft.Some? && ports.persisted == Fails(left)
    requires v.draft.value.identity.Some? ==> v.draft.value.identity.value.id == identity.userId
    requires w.owner.pending.value.userId.Some? ==> w.owner.pending.value.userId.value == identity.userId
    requires Publishable(credentials, identity, ports.(persisted := Done))
    ensures EndsUnsaved(v, ValidationAccepted(v, w, credentials, identity, ports), left, v.draft.value.rotated, ports)
  {
    SessionGoesToPublication(v, w, credentials, identity, ports);
    UnsavedSessionEnds(v, w, SessionAt(credentials, identity, ports), v.draft.value.rotated, left, ports);
  }

  lemma SessionGoesToPublication(v: View, w: World, credentials: Credentials, identity: Identity, ports: Ports)
    requires v.draft.Some? && Publishable(credentials, identity, ports.(persisted := Done))
    requires v.draft.value.identity.Some? ==> v.draft.value.identity.value.id == identity.userId
    ensures ValidationAccepted(v, w, credentials, identity, ports)
            == SessionPublished(v, w, SessionAt(credentials, identity, ports), v.draft.value.rotated, ports)
  {
    var session := SessionAt(credentials, identity, ports);
    assert ValidatedSession(credentials, identity, AddDuration(ports.system.value, identity.expiresIn).value) == session;
    var published := SessionPublished(v, w, session, v.Rotated(), ports);
    assert ValidationAccepted(v, w, credentials, identity, ports) == published;
  }
}
