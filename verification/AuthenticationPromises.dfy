/** What the authentication workflow promises about storage, retries and disconnection. */
module AuthenticationPromises {
  import opened Outcomes
  import opened Times
  import opened ByteStrings
  import opened TwitchSession
  import opened TwitchPorts
  import opened Sessions = SessionOwnerSpec
  import opened AuthenticationWorkflow
  import opened AuthenticationRuns

  /** The controller's transaction is the owner's open one. */
  ghost predicate Bound(v: View, w: World) {
    Valid(w.owner) && v.transaction.Some? && Holds(w.owner, v.transaction.value)
  }

  /** Giving a transaction up without an erasure leaves the record as it is; with one, the
      record is gone if the store says so. */
  lemma ReleaseOutcome(v: View, w: World, erase: bool, ports: Ports)
    requires Bound(v, w)
    ensures var freed := Released(v, w, erase, ports);
            freed.world.owner.stopping
            || (&& freed.world.owner.active.None? && freed.world.owner.pending.None?
                && (!erase ==> freed.error.None? && freed.world.owner.store == w.owner.store)
                && (erase ==> freed.error == Erase(None, ports.erased).error)
                && (erase && ports.erased.Done? ==> freed.world.owner.store.None?))
  {
    WaitingOutcome(v, w);
  }

  // ---------------------------------------------------------------- storage

  /** The saved record is untouched, no session is active, and nothing is shown as connected. */
  ghost predicate Unpublished(w: World, x: Exit) {
    && !x.view.snapshot.status.StatusConnected?
    && (x.world.owner.stopping || (x.world.owner.store == w.owner.store && x.world.owner.active.None?))
  }

  lemma FailingPublishesNothing(v: View, w: World, error: ControlError, ports: Ports)
    requires Bound(v, w)
    ensures Unpublished(w, Failing(v, w, error, false, ports))
  {
    ReleaseOutcome(v, w, false, ports);
  }

  lemma AskingPublishesNothing(v: View, w: World, phase: Phase, command: Command, ports: Ports)
    requires Bound(v, w) && !v.Rotated() && !phase.Revoke?
    ensures Unpublished(w, Asking(v, w, phase, command, ports))
  {
    var asked := v.(nextRequest := v.nextRequest + 1, pending := Some(InFlight(v.nextRequest, phase)));
    FailingPublishesNothing(v, w, ControlExhausted, ports);
    FailingPublishesNothing(asked, w, DispatchFailed, ports);
  }

  lemma DevicePublishesNothing(v: View, w: World, device: Device, ports: Ports)
    requires Bound(v, w) && !v.snapshot.status.StatusConnected?
    ensures Unpublished(w, DeviceAccepted(v, w, device, ports))
  {
    FailingPublishesNothing(v, w, InvalidResult, ports);
  }

  lemma PollPublishesNothing(v: View, w: World, code: Bytes, retry: Option<nat>, ports: Ports)
    requires Bound(v, w) && !v.snapshot.status.StatusConnected?
    ensures Unpublished(w, PollDeferred(v, w, code, retry, ports))
  {
    FailingPublishesNothing(v, w, InvalidResult, ports);
    FailingPublishesNothing(v, w, InvalidState, ports);
  }

  lemma GrantPublishesNothing(v: View, w: World, grant: Grant, ports: Ports)
    requires Bound(v, w) && !v.snapshot.status.StatusConnected?
    ensures Unpublished(w, GrantAccepted(v, w, grant, ports))
  {
    var open := Concealed(v.(authorization := None));
    match ValidityOf(grant, ports.system)
    case NoClock =>
    case TooLate => FailingPublishesNothing(open, w, InvalidResult, ports);
    case At(credentials) =>
      AskingPublishesNothing(open.(draft := Some(Draft(None, None, false))), w, ValidateInitial, AskValidation(credentials), ports);
  }

  lemma EarlySuccessPublishesNothing(v: View, w: World, phase: Phase, success: Success, ports: Ports)
    requires Bound(v, w) && !v.snapshot.status.StatusConnected? && (phase.Start? || phase.Poll?)
    ensures Unpublished(w, SuccessHandled(v, w, phase, success, ports))
  {
    if phase.Start? && success.Started? {
      DevicePublishesNothing(v, w, success.device, ports);
    } else if phase.Poll? && success.StillPending? {
      PollPublishesNothing(v, w, success.code, None, ports);
    } else if phase.Poll? && success.Granted? {
      GrantPublishesNothing(v, w, success.grant, ports);
    } else {
      FailingPublishesNothing(v, w, InvalidResult, ports);
    }
  }

  lemma EarlyFailurePublishesNothing(v: View, w: World, phase: Phase, error: ApiError, retained: Option<Secret>, ports: Ports)
    requires Bound(v, w) && !v.snapshot.status.StatusConnected? && (phase.Start? || phase.Poll?)
    ensures Unpublished(w, FailureHandled(v, w, phase, error, retained, ports))
  {
    if phase.Poll? && error.disposition.DoRetry? && retained.Some? && retained.value.DeviceCode? {
      PollPublishesNothing(v, w, retained.value.code, Some(RetryDelay(error.retryAfter)), ports);
    } else {
      FailingPublishesNothing(v, w, InvalidResult, ports);
      FailingPublishesNothing(v, w, ShownError(error.disposition), ports);
    }
  }

  /** The first token is validated before it becomes durable: whatever the device-code requests
      come back with, the saved record is untouched, no session is active, and nothing is shown
      as connected. */
  lemma FirstTokenIsNotStored(v: View, w: World, result: AuthResult, ports: Ports)
    requires Bound(v, w) && !v.snapshot.status.StatusConnected?
    requires v.pending.Some? && v.pending.value.id == result.id && (v.pending.value.phase.Start? || v.pending.value.phase.Poll?)
    ensures Unpublished(w, ResultHandled(v, w, result, ports))
  {
    var phase, taken := v.pending.value.phase, v.(pending := None, accepted := v.accepted + [result.id]);
    if OperationOf(phase) != result.operation || (result.outcome.Ok? && result.retained.Some?) {
      FailingPublishesNothing(taken, w, InvalidResult, ports);
    } else if result.outcome.Ok? {
      EarlySuccessPublishesNothing(taken, w, phase, result.outcome.value, ports);
    } else {
      EarlyFailurePublishesNothing(taken, w, phase, result.outcome.error, result.retained, ports);
    }
  }

  /** A rotated pair is in the store before its access token is sent for validation: the
      request goes out only with the pair saved under the same user. */
  lemma RotationIsStoredBeforeValidation(v: View, w: World, grant: Grant, ports: Ports)
    requires Bound(v, w) && v.pending.None?
    requires RotationAccepted(v, w, grant, ports).ended.Fine?
    ensures var x := RotationAccepted(v, w, grant, ports);
            && v.draft.Some? && v.draft.value.identity.Some? && ports.system.Some?
            && var user, expiry := v.draft.value.identity.value, ports.system.value + grant.expiresIn;
               && Stored(x.world.owner.store, Session(grant.access, grant.refresh, expiry, user.id, user.login, [CHAT_SCOPE]))
               && x.view.requests
                  == v.requests + [Request(v.transaction, ValidateRotated, AskValidation(Credentials(grant.access, grant.refresh, expiry)))]
  {
    var rotating := v.(draft := Some(v.draft.value.(rotated := true)));
    var credentials, user := ValidityOf(grant, ports.system).time, v.draft.value.identity.value;
    var session := Session(credentials.access, credentials.refresh, credentials.expiresAt, user.id, user.login, [CHAT_SCOPE]);
    var seen := Waiting(rotating, w);
    assert PersistPending(seen.owner, v.transaction.value, session, ports.persisted).1.None?;
    assert Stored(PersistPending(seen.owner, v.transaction.value, session, ports.persisted).0.store, session);
  }

  /** When to look after a connection again: within the hour to validate it, and to refresh it five
      minutes before it expires, or at once if that is past. */
  predicate IsScheduled(schedule: Option<Schedule>, revision: nat, expiry: int, steady: nat, system: int) {
    && schedule.Some? && schedule.value.ownerRevision == revision && schedule.value.validation == steady + 3600 * SECOND
    && schedule.value.refresh == (if expiry - 300 * SECOND > system then steady + (expiry - 300 * SECOND - system) else steady)
  }

  /** Connected is shown, with the session's login and expiry and nothing else. */
  predicate ShowsConnected(s: Snapshot, session: Session) {
    && s.status.StatusConnected? && s.login == Some(session.login) && s.accessExpiresAt == Some(session.expiresAt)
    && s.userCode.None? && s.uri.None? && s.authorizationExpiresAt.None? && s.diagnostic.None?
  }

  /** Only a validated session is published, and it is stored by then: the pair that was validated,
      with the broadcaster that Twitch named, the same as before if the flow had one. The owner's
      active session is what the store holds, under a new revision, and it is shown and scheduled. */
  lemma PublicationFollowsValidation(v: View, w: World, credentials: Credentials, identity: Identity, ports: Ports)
    requires Bound(v, w) && ValidationAccepted(v, w, credentials, identity, ports).ended.Fine?
    ensures var x := ValidationAccepted(v, w, credentials, identity, ports);
            && x.view.transaction.None? && x.view.draft.None? && x.view.requests == v.requests
            && (v.draft.Some? && (v.draft.value.identity.Some? ==> v.draft.value.identity.value.id == identity.userId))
            && ports.system.Some? && ports.steady.Some? && ports.systemAgain.Some?
            && var session := Session(credentials.access, credentials.refresh, ports.system.value + identity.expiresIn,
                                      identity.userId, identity.login, identity.scopes);
               && x.world.owner.active == Some(session) && Stored(x.world.owner.store, session)
               && x.world.owner.revision == w.owner.revision + 1 && ShowsConnected(x.view.snapshot, session)
               && IsScheduled(x.view.schedule, x.world.owner.revision, session.expiresAt, ports.steady.value, ports.systemAgain.value)
  {
    WaitingOutcome(v, w);
  }

  // ---------------------------------------------------------------- refusals

  /** A changed user, or a second reconnect answer after the refresh, ends the flow and erases
      the saved session. */
  lemma UnusableSessionIsErased(v: View, w: World, phase: Phase, error: ApiError, credentials: Credentials, identity: Identity, ports: Ports)
    requires Bound(v, w) && v.draft.Some? && ports.erased.Done?
    ensures v.draft.value.identity.Some? && v.draft.value.identity.value.id != identity.userId ==>
              Erased(ValidationAccepted(v, w, credentials, identity, ports), WrongIdentity)
    ensures (phase.Refresh? || phase.ValidateRotated?) && error.disposition.DoReconnect?
            && ValidToken(credentials.access) && ValidToken(credentials.refresh) ==>
              Erased(FailureHandled(v, w, phase, error, Some(Kept(credentials)), ports), MustReconnect)
  {
    FailingErases(v, w, WrongIdentity, ports);
    FailingErases(v.(draft := Some(v.draft.value.(credentials := Some(credentials)))), w, MustReconnect, ports);
  }

  ghost predicate Erased(x: Exit, error: ControlError) {
    x.world.owner.stopping || (x.ended == Bad(error) && x.world.owner.store.None? && x.world.owner.active.None? && x.view.transaction.None?)
  }

  lemma FailingErases(v: View, w: World, error: ControlError, ports: Ports)
    requires Bound(v, w) && ports.erased.Done?
    ensures Erased(Failing(v, w, error, true, ports), error)
  {
    ReleaseOutcome(v, w, true, ports);
  }

  // ---------------------------------------------------------------- disconnection

  /** The local session is gone, or the store's refusal is on display. */
  ghost predicate Forgotten(x: Exit, ports: Ports) {
    && x.view.transaction.None? && x.view.pending.None? && x.view.draft.None?
    && (x.world.owner.stopping
        || (x.world.owner.active.None? && x.world.owner.pending.None?
            && (if ports.erased.Done? then x.world.owner.store.None? && x.view.snapshot.status.StatusDisconnected?
                else x.ended == Bad(Mapped(Erase(None, ports.erased).error.value)))))
  }

  lemma FinishingForgets(v: View, w: World, diagnostic: Option<ControlError>, ports: Ports)
    requires Bound(v, w) && diagnostic != Some(SessionEraseFailed)
    ensures Forgotten(Finishing(v, w, diagnostic, ports), ports)
  {
    ReleaseOutcome(v, w, true, ports);
  }

  /** A revocation is on its way. */
  ghost predicate Revoking(v: View, w: World) {
    Bound(v, w) && v.pending.Some? && v.pending.value.phase.Revoke? && v.authorization.None? && v.snapshot.status.Disconnecting?
  }

  lemma RevocationResultForgets(v: View, w: World, result: AuthResult, ports: Ports)
    requires Revoking(v, w) && result.id == v.pending.value.id
    ensures Forgotten(ResultHandled(v, w, result, ports), ports) && !ResultHandled(v, w, result, ports).ended.Unwound?
  {
    var taken := v.(pending := None, accepted := v.accepted + [result.id]);
    FinishingForgets(taken, w, None, ports);
    FinishingForgets(taken, w, Some(InvalidResult), ports);
    FinishingForgets(taken, w, Some(AuthenticationFailed), ports);
  }

  /** Disconnecting erases whatever comes of the remote revocation: success, failure, a
      malformed result, a panicking port or clock, or a shutdown in between. */
  lemma DisconnectingAlwaysErases(v: View, w: World, reading: Option<nat>, polled: Polled, ports: Ports)
    requires Revoking(v, w) && !v.snapshot.shuttingDown
    requires reading.None? || polled.PollPanicked? || (polled.Arrived? && polled.result.id == v.pending.value.id)
    ensures NotRunning(v, Waiting(v, w).owner, ports).None? ==> Forgotten(Ticked(v, w, reading, polled, ports), ports)
    ensures var x := ShutDown(v, w, ports);
            x.view.transaction.None? && x.world.owner.stopping
            && (ports.erased.Done? && !Finishing(v, w, None, ports).world.owner.stopping ==>
                  Finishing(v, w, None, ports).world.owner.store.None?)
  {
    WaitingOutcome(v, w);
    FinishingForgets(v, w, None, ports);
    var first := Waiting(v, w);
    if NotRunning(v, first.owner, ports).None? {
      FinishingForgets(v, first, Some(ControlInternal), ports);
      if reading.Some? && polled.Arrived? {
        RevocationResultForgets(v, first, polled.result, ports);
      }
    }
  }

  /** So over any run: in whatever reachable state a revocation is in flight, its end forgets the
      session, unless the owner was shut down meanwhile. */
  lemma EveryRevocationErases(w: World, calls: seq<Call>, reading: Option<nat>, polled: Polled, ports: Ports)
    requires Valid(w.owner)
    requires var v := MadeAll(FRESH, w, calls).view;
             v.pending.Some? && v.pending.value.phase.Revoke? && !v.snapshot.shuttingDown
             && (reading.None? || polled.PollPanicked? || (polled.Arrived? && polled.result.id == v.pending.value.id))
    ensures var before := MadeAll(FRESH, w, calls);
            before.world.owner.stopping || NotRunning(before.view, Waiting(before.view, before.world).owner, ports).Some?
            || Forgotten(Ticked(before.view, before.world, reading, polled, ports), ports)
  {
    var before := MadeAll(FRESH, w, calls);
    RunsAreDisciplined(w, calls, Latest(calls));
    if !before.world.owner.stopping {
      DisconnectingAlwaysErases(before.view, before.world, reading, polled, ports);
    }
  }

  /** Posting is switched off first: if that cannot be saved, nothing is revoked or erased and
      the flow stays as it is. */
  lemma SettingsComeFirst(v: View, w: World, ports: Ports)
    requires v.HasCredentials() ==> v.transaction.Some?
    requires !ports.settingsSaved
    ensures var x := DisconnectedBy(v, w, ports);
            x.view == v && x.world == Waiting(v, w) && x.ended.Bad?
  {
  }

  // ---------------------------------------------------------------- retries and polls

  /** A transient failure of a validation or refresh repeats the same request with the same
      pair, no earlier than the bounded delay and inside the same transaction. */
  lemma RetryRepeatsTheRequest(v: View, w: World, phase: Phase, error: ApiError, credentials: Credentials, ports: Ports,
                               later: World, now: nat, afterwards: Ports)
    requires Bound(v, w) && v.draft.Some? && v.pending.None? && v.nextRequest < MAX_U64
    requires (Validates(phase) || phase.Refresh?) && error.disposition.DoRetry?
    requires ValidToken(credentials.access) && ValidToken(credentials.refresh) && ports.steady.Some?
    requires ports.steady.value + RetryDelay(error.retryAfter) < INSTANT_LIMIT
    ensures var x := FailureHandled(v, w, phase, error, Some(Kept(credentials)), ports);
            && x.ended == Fine(true) && x.world == w && x.view.transaction == v.transaction
            && x.view.requests == v.requests && x.view.draft.Some? && x.view.draft.value.credentials == Some(credentials)
            && var y := FlowTicked(x.view, later, now, afterwards);
               if now < ports.steady.value + RetryDelay(error.retryAfter) then y == Exit(x.view, later, Fine(false))
               else afterwards.queued ==> y.ended == Fine(true) && y.view.requests == v.requests + [
                      Request(v.transaction, phase, if phase.Refresh? then AskRefresh(credentials) else AskValidation(credentials))]
  {
    var x := FailureHandled(v, w, phase, error, Some(Kept(credentials)), ports);
    assert x == RetryAwaited(v.(draft := Some(v.draft.value.(credentials := Some(credentials)))), w, phase,
                             RetryDelay(error.retryAfter), ShownError(error.disposition), ports);
  }

  /** Polls respect the server's interval, whatever delay a failed poll suggests: the device code is
      held back until the longer of the two is over, and then it is polled with again. */
  lemma PollsRespectTheInterval(v: View, w: World, code: Bytes, retry: Option<nat>, ports: Ports, later: World, now: nat, afterwards: Ports)
    requires v.transaction.Some? && v.deferred.None? && PollDeferred(v, w, code, retry, ports).ended.Fine?
    ensures var x := PollDeferred(v, w, code, retry, ports);
            && v.authorization.Some? && ports.steady.Some? && x.world == w && x.view.requests == v.requests
            && var interval := v.authorization.value.interval;
               var y, next := FlowTicked(x.view, later, now, afterwards),
                              ports.steady.value + if retry.Some? && retry.value > interval then retry.value else interval;
               if now < next then y == Exit(x.view, later, Fine(false))
               else v.pending.None? && v.nextRequest < MAX_U64 && afterwards.queued ==>
                 y.ended == Fine(true) && y.view.requests == v.requests + [Request(v.transaction, Poll, AskPoll(code))]
  {
  }

  /** A grant that arrives after the authorization expired is not even looked at. */
  lemma LateGrantIsRefused(v: View, w: World, reading: nat, polled: Polled, ports: Ports)
    requires Bound(v, w) && v.authorization.Some? && reading >= v.authorization.value.expires
    ensures var x := InnerTicked(v, w, Some(reading), polled, ports);
            && x == InnerTicked(v, w, Some(reading), Nothing, ports)
            && x.ended == Bad(AuthorizationExpired) && x.view.transaction.None? && x.view.accepted == v.accepted
            && Unpublished(w, x)
  {
    FailingPublishesNothing(v, w, AuthorizationExpired, ports);
  }

  // ---------------------------------------------------------------- the schedule

  function PairOf(session: Session): Credentials {
    Credentials(session.access, session.refresh, session.expiresAt)
  }

  /** When a check is due the session is borrowed and the check goes out, unless the owner is
      elsewhere: it may have shut down, lost the session, or have it updated meanwhile. */
  lemma DueCheckGoesOut(v: View, w: World, now: nat, ports: Ports)
    requires Valid(w.owner) && v.transaction.None? && v.pending.None? && v.nextRequest < MAX_U64 && ports.queued
    requires v.snapshot.status.StatusConnected? && v.schedule.Some?
    requires now >= v.schedule.value.validation || now >= v.schedule.value.refresh
    ensures var first := Waiting(v, w);
            var seen := Waiting(v, first);
            var x := ConnectedTicked(v, w, now, ports);
            Observe(first.owner).Active? && first.owner.revision == v.schedule.value.ownerRevision
            && Idle(seen.owner).None? && seen.owner.active.Some? ==>
              && x.ended == Fine(true) && x.view.snapshot.login.None?
              && x.view.requests == v.requests + [Request(Some(seen.owner.nextTransaction),
                   if now >= v.schedule.value.refresh then Phase.Refresh else ValidateActive,
                   if now >= v.schedule.value.refresh then AskRefresh(PairOf(seen.owner.active.value))
                   else AskValidation(PairOf(seen.owner.active.value)))]
              && Acquire(x.world.owner) == Err(Retry)
  {
    var first := Waiting(v, w);
    if Observe(first.owner).Active? {
      assert Observe(first.owner).connected.revision == first.owner.revision;
    }
  }

  // ---------------------------------------------------------------- the way to a connection

  /** With nothing in its way a new connection asks for a device code, under a transaction of
      its own during which chat gets no lease. */
  lemma ConnectionStarts(v: View, w: World, ports: Ports)
    requires Valid(w.owner) && v.transaction.None? && v.pending.None? && ports.queued
    ensures var first := Waiting(v, w);
            var seen := Waiting(v, first);
            var x := ConnectionBegun(v, w, ports);
            NotIdle(v, first.owner, ports).None? && Idle(seen.owner).None? && seen.owner.active.None? ==>
              && x.ended == Fine(true) && x.view.snapshot.status.Starting? && Bound(x.view, x.world)
              && x.view.requests == v.requests + [Request(Some(seen.owner.nextTransaction), Start, AskDevice)]
              && Acquire(x.world.owner) == Err(Retry) && x.world.owner.store == seen.owner.store
  {
    var first := Waiting(v, w);
    var seen := Waiting(v, first);
    WaitingOutcome(v, w);
    WaitingOutcome(v, first);
    StepKeepsValid(seen.owner, ReservingNew);
  }

  /** The session that a validation ends with. */
  function SessionAt(credentials: Credentials, identity: Identity, ports: Ports): Session
    requires ports.system.Some?
  {
    Session(credentials.access, credentials.refresh, ports.system.value + identity.expiresIn, identity.userId, identity.login, identity.scopes)
  }

  /** The clocks can be read, and the next checks fall into their range. */
  predicate Schedulable(expiry: int, ports: Ports) {
    && ports.steady.Some? && ports.systemAgain.Some? && ports.steady.value + 3600 * SECOND < INSTANT_LIMIT
    && ports.steady.value + (expiry - ports.systemAgain.value) - 300 * SECOND < INSTANT_LIMIT
  }

  /** A validated identity of the right user is published, if it can be stored. */
  lemma ValidIdentityIsPublished(v: View, w: World, credentials: Credentials, identity: Identity, ports: Ports)
    requires Bound(v, w) && v.draft.Some? && ports.system.Some? && ports.persisted.Done?
    requires v.draft.value.identity.Some? ==> v.draft.value.identity.value.id == identity.userId
    requires w.owner.pending.value.userId.Some? ==> w.owner.pending.value.userId.value == identity.userId
    requires ValidDuration(identity.expiresIn) && AddDuration(ports.system.value, identity.expiresIn).Some?
    requires Encoded(SessionAt(credentials, identity, ports)).Ok? && Schedulable(SessionAt(credentials, identity, ports).expiresAt, ports)
    ensures var x := ValidationAccepted(v, w, credentials, identity, ports);
            Waiting(v, w).owner.stopping
            || (x.ended == Fine(true) && x.view.snapshot.status.StatusConnected? && x.view.snapshot.login == Some(identity.login))
  {
    WaitingOutcome(v, w);
  }

  // ---------------------------------------------------------------- whole flows, left alone

  /** A flow whose request of this phase is in flight, with nobody else at the owner. */
  ghost predicate Underway(v: View, w: World, phase: Phase) {
    && Alone(w) && Bound(v, w) && !w.owner.stopping && v.deferred.None? && !v.snapshot.shuttingDown && v.nextRequest >= 1
    && v.pending == Some(InFlight(v.nextRequest - 1, phase))
  }

  /** Room for so many more requests and snapshots. */
  predicate Room(v: View, calls: nat) {
    v.nextRequest + calls < MAX_U64 && v.snapshot.revision + 2 * calls < MAX_U64 - 1
  }

  /** The answer to the latest request arrives. */
  function Answering(v: View, reading: nat, operation: Operation, success: Success, ports: Ports): Call {
    var id := if v.nextRequest > 0 then v.nextRequest - 1 else 0;
    Ticking(Some(reading), Arrived(AuthResult(id, operation, Ok(success), None)), ports)
  }

  lemma AloneWaits(v: View, w: World)
    requires Alone(w)
    ensures Alone(Waiting(v, w)) && Waiting(v, w).owner == w.owner
  {
  }

  /** An answer to the request in flight, before the authorization expires, is handled. */
  lemma AnswerIsHandled(v: View, w: World, phase: Phase, reading: nat, success: Success, ports: Ports)
    requires Underway(v, w, phase) && Room(v, 1) && !ports.configurationStopping
    requires v.authorization.Some? ==> reading < v.authorization.value.expires
    ensures var taken := v.(pending := None, accepted := v.accepted + [v.nextRequest - 1]);
            && Bound(taken, Waiting(v, w)) && Alone(Waiting(v, w)) && Waiting(v, w).owner == w.owner
            && Made(v, w, Answering(v, reading, OperationOf(phase), success, ports))
               == PanicCaught(SuccessHandled(taken, Waiting(v, w), phase, success, ports), ports)
  {
    AloneWaits(v, w);
  }

  /** The device code is shown, and will be polled with. */
  lemma DeviceIsShown(v: View, w: World, reading: nat, device: Device, ports: Ports)
    requires Underway(v, w, Start) && Room(v, 4) && !ports.configurationStopping && v.authorization.None? && ValidDevice(device)
    requires ports.steady.Some? && ports.system.Some? && AddDuration(ports.system.value, device.expiresIn).Some?
    requires AddInstant(ports.steady.value, device.expiresIn).Some? && AddInstant(ports.steady.value, device.interval).Some?
    ensures var x := Made(v, w, Answering(v, reading, OpStart, Started(device), ports));
            && x.ended == Fine(true) && x.view.snapshot.userCode == Some(device.userCode) && x.view.snapshot.uri == Some(device.uri)
            && x.world.owner == w.owner && Alone(x.world) && x.view.transaction == v.transaction && x.view.pending.None?
            && x.view.deferred.None? && x.view.nextRequest == v.nextRequest && !x.view.snapshot.shuttingDown && Room(x.view, 3)
            && x.view.requests == v.requests
            && x.view.authorization == Some(Authorization(Some(device.code), ports.steady.value + device.expiresIn,
                                                          ports.steady.value + device.interval, device.interval))
  {
    AnswerIsHandled(v, w, Start, reading, Started(device), ports);
  }

  /** When the interval is over the poll goes out. */
  lemma PollGoesOut(v: View, w: World, reading: nat, ports: Ports)
    requires Alone(w) && Bound(v, w) && !w.owner.stopping && v.pending.None? && v.deferred.None? && !v.snapshot.shuttingDown && Room(v, 3)
    requires v.nextRequest >= 1 && ports.queued && !ports.configurationStopping
    requires v.authorization.Some? && v.authorization.value.code.Some? && v.authorization.value.nextPoll <= reading < v.authorization.value.expires
    ensures var x := Made(v, w, Ticking(Some(reading), Nothing, ports));
            && x.ended == Fine(true) && Underway(x.view, x.world, Poll) && x.world.owner == w.owner && Room(x.view, 2)
            && x.view.authorization.Some? && x.view.authorization.value.expires == v.authorization.value.expires
            && x.view.transaction == v.transaction
            && x.view.requests == v.requests + [Request(v.transaction, Poll, AskPoll(v.authorization.value.code.value))]
  {
    AloneWaits(v, w);
  }

  /** The grant goes on to its validation; nothing is stored yet. */
  lemma GrantGoesOn(v: View, w: World, reading: nat, grant: Grant, ports: Ports)
    requires Underway(v, w, Poll) && Room(v, 2) && !ports.configurationStopping && ports.queued
    requires v.authorization.Some? && reading < v.authorization.value.expires
    requires ValidGrant(grant) && ports.system.Some? && AddDuration(ports.system.value, grant.expiresIn).Some?
    ensures var x := Made(v, w, Answering(v, reading, OpPoll, Granted(grant), ports));
            && x.ended == Fine(true) && Underway(x.view, x.world, ValidateInitial) && x.world.owner == w.owner && Room(x.view, 1)
            && x.view.authorization.None? && x.view.draft == Some(Draft(None, None, false)) && x.view.transaction == v.transaction
            && x.view.requests == v.requests + [Request(v.transaction, ValidateInitial,
                 AskValidation(Credentials(grant.access, grant.refresh, ports.system.value + grant.expiresIn)))]
  {
    AnswerIsHandled(v, w, Poll, reading, Granted(grant), ports);
  }

  predicate Publishable(credentials: Credentials, identity: Identity, ports: Ports) {
    && !ports.configurationStopping && ports.system.Some? && ports.persisted.Done?
    && 0 < identity.expiresIn <= 7 * DAY && ports.system.value + identity.expiresIn <= TIME_LIMIT
    && Encoded(SessionAt(credentials, identity, ports)).Ok?
    && Schedulable(SessionAt(credentials, identity, ports).expiresAt, ports)
  }

  /** Connected as this session, which is active, in the store and of the next revision. */
  ghost predicate ConnectedAs(w: World, x: Exit, session: Session) {
    && x.ended == Fine(true) && ShowsConnected(x.view.snapshot, session)
    && x.world.owner.active == Some(session) && Stored(x.world.owner.store, session) && x.world.owner.revision == w.owner.revision + 1
  }

  /** What comes of a validation at a quiet owner. */
  lemma ValidationConnects(v: View, w: World, credentials: Credentials, identity: Identity, ports: Ports)
    requires Alone(w) && Bound(v, w) && !w.owner.stopping && v.draft.Some? && Publishable(credentials, identity, ports)
    requires v.draft.value.identity.Some? ==> v.draft.value.identity.value.id == identity.userId
    requires w.owner.pending.value.userId.Some? ==> w.owner.pending.value.userId.value == identity.userId
    ensures var x := ValidationAccepted(v, w, credentials, identity, ports);
            ConnectedAs(w, x, SessionAt(credentials, identity, ports)) && x.view.requests == v.requests
  {
    AloneWaits(v, w);
    ValidIdentityIsPublished(v, w, credentials, identity, ports);
    PublicationFollowsValidation(v, w, credentials, identity, ports);
  }

  /** A validated identity of the right user is published. */
  lemma IdentityIsPublished(v: View, w: World, phase: Phase, reading: nat, credentials: Credentials, identity: Identity, ports: Ports)
    requires Underway(v, w, phase) && Validates(phase) && Room(v, 1) && Publishable(credentials, identity, ports)
    requires v.authorization.None? && v.draft.Some?
    requires v.draft.value.identity.Some? ==> v.draft.value.identity.value.id == identity.userId
    requires w.owner.pending.value.userId.Some? ==> w.owner.pending.value.userId.value == identity.userId
    ensures var x := Made(v, w, Answering(v, reading, OpValidate, Validated(credentials, identity), ports));
            ConnectedAs(w, x, SessionAt(credentials, identity, ports)) && x.view.requests == v.requests
  {
    var success := Validated(credentials, identity);
    AnswerIsHandled(v, w, phase, reading, success, ports);
    var taken, seen := v.(pending := None, accepted := v.accepted + [v.nextRequest - 1]), Waiting(v, w);
    ValidationConnects(taken, seen, credentials, identity, ports);
    assert SuccessHandled(taken, seen, phase, success, ports) == ValidationAccepted(taken, seen, credentials, identity, ports);
  }

  /** The four answers of a new connection, and what the clocks and the store say meanwhile. */
  datatype Arrivals = Arrivals(device: Device, grant: Grant, credentials: Credentials, identity: Identity,
                               shown: nat, polled: nat, granted: nat, validated: nat)

  predicate InTime(a: Arrivals, device: Ports, poll: Ports, grant: Ports, identity: Ports) {
    && ValidDevice(a.device) && device.steady.Some? && device.system.Some? && !device.configurationStopping
    && AddDuration(device.system.value, a.device.expiresIn).Some?
    && AddInstant(device.steady.value, a.device.expiresIn).Some? && AddInstant(device.steady.value, a.device.interval).Some?
    && poll.queued && !poll.configurationStopping
    && device.steady.value + a.device.interval <= a.polled < device.steady.value + a.device.expiresIn
    && grant.queued && !grant.configurationStopping && ValidGrant(a.grant) && a.granted < device.steady.value + a.device.expiresIn
    && grant.system.Some? && AddDuration(grant.system.value, a.grant.expiresIn).Some?
    && Publishable(a.credentials, a.identity, identity)
  }

  /** A new connection up to its poll: the code is shown, and it is the one polled with. */
  lemma ConnectionIsPolled(v: View, w: World, begin: Ports, device: Ports, poll: Ports, grant: Ports, identity: Ports, a: Arrivals)
    requires Alone(w) && Valid(w.owner) && Idle(w.owner).None? && w.owner.active.None? && begin.queued
    requires NotIdle(v, w.owner, begin).None? && v.deferred.None? && v.authorization.None? && v.nextRequest >= 1 && Room(v, 5)
    requires InTime(a, device, poll, grant, identity)
    ensures var x0 := Made(v, w, BeginningConnection(begin));
            var x1 := Made(x0.view, x0.world, Answering(x0.view, a.shown, OpStart, Started(a.device), device));
            var x2 := Made(x1.view, x1.world, Ticking(Some(a.polled), Nothing, poll));
            && x1.view.snapshot.userCode == Some(a.device.userCode) && Underway(x2.view, x2.world, Poll) && Room(x2.view, 2)
            && x2.view.authorization.Some? && x2.view.authorization.value.expires == device.steady.value + a.device.expiresIn
            && x2.world.owner.store == w.owner.store && x2.world.owner.revision == w.owner.revision && x2.world.owner.pending.value.userId.None?
            && x2.view.transaction == Some(w.owner.nextTransaction)
            && x2.view.requests == v.requests + [
                 Request(Some(w.owner.nextTransaction), Start, AskDevice),
                 Request(Some(w.owner.nextTransaction), Poll, AskPoll(a.device.code))]
  {
    ConnectionIsUnderway(v, w, begin);
    var x0 := Made(v, w, BeginningConnection(begin));
    DeviceIsShown(x0.view, x0.world, a.shown, a.device, device);
    var x1 := Made(x0.view, x0.world, Answering(x0.view, a.shown, OpStart, Started(a.device), device));
    PollGoesOut(x1.view, x1.world, a.polled, poll);
  }

  /** A new connection, from the first call to the published session: a device code, a poll that
      the user's consent answers with a grant, and the grant's validation. */
  lemma ConnectionSucceeds(v: View, w: World, begin: Ports, device: Ports, poll: Ports, grant: Ports, identity: Ports, a: Arrivals)
    requires Alone(w) && Valid(w.owner) && Idle(w.owner).None? && w.owner.active.None? && begin.queued
    requires NotIdle(v, w.owner, begin).None? && v.deferred.None? && v.authorization.None? && v.nextRequest >= 1 && Room(v, 5)
    requires InTime(a, device, poll, grant, identity)
    ensures var x0 := Made(v, w, BeginningConnection(begin));
            var x1 := Made(x0.view, x0.world, Answering(x0.view, a.shown, OpStart, Started(a.device), device));
            var x2 := Made(x1.view, x1.world, Ticking(Some(a.polled), Nothing, poll));
            var x3 := Made(x2.view, x2.world, Answering(x2.view, a.granted, OpPoll, Granted(a.grant), grant));
            var x4 := Made(x3.view, x3.world, Answering(x3.view, a.validated, OpValidate, Validated(a.credentials, a.identity), identity));
            && x1.view.snapshot.userCode == Some(a.device.userCode) && x3.world.owner.store == w.owner.store
            && ConnectedAs(w, x4, SessionAt(a.credentials, a.identity, identity))
            && x4.view.requests == v.requests + [
                 Request(Some(w.owner.nextTransaction), Start, AskDevice),
                 Request(Some(w.owner.nextTransaction), Poll, AskPoll(a.device.code)),
                 Request(Some(w.owner.nextTransaction), ValidateInitial,
                         AskValidation(Credentials(a.grant.access, a.grant.refresh, grant.system.value + a.grant.expiresIn)))]
  {
    ConnectionIsPolled(v, w, begin, device, poll, grant, identity, a);
    var x0 := Made(v, w, BeginningConnection(begin));
    var x1 := Made(x0.view, x0.world, Answering(x0.view, a.shown, OpStart, Started(a.device), device));
    var x2 := Made(x1.view, x1.world, Ticking(Some(a.polled), Nothing, poll));
    GrantIsPublished(x2.view, x2.world, grant, identity, a);
  }

  /** From the poll in flight on. */
  lemma GrantIsPublished(v: View, w: World, grant: Ports, identity: Ports, a: Arrivals)
    requires Underway(v, w, Poll) && Room(v, 2) && w.owner.pending.value.userId.None?
    requires v.authorization.Some? && a.granted < v.authorization.value.expires
    requires grant.queued && !grant.configurationStopping && ValidGrant(a.grant) && grant.system.Some?
    requires AddDuration(grant.system.value, a.grant.expiresIn).Some? && Publishable(a.credentials, a.identity, identity)
    ensures var x3 := Made(v, w, Answering(v, a.granted, OpPoll, Granted(a.grant), grant));
            var x4 := Made(x3.view, x3.world, Answering(x3.view, a.validated, OpValidate, Validated(a.credentials, a.identity), identity));
            && x3.world.owner.store == w.owner.store && ConnectedAs(w, x4, SessionAt(a.credentials, a.identity, identity))
            && x4.view.requests == v.requests + [Request(v.transaction, ValidateInitial,
                 AskValidation(Credentials(a.grant.access, a.grant.refresh, grant.system.value + a.grant.expiresIn)))]
  {
    GrantGoesOn(v, w, a.granted, a.grant, grant);
    var x3 := Made(v, w, Answering(v, a.granted, OpPoll, Granted(a.grant), grant));
    SameOwnerConnects(w, x3, a.validated, a.credentials, a.identity, identity);
  }

  /** The validation of a new grant at the owner that the flow began with. */
  lemma SameOwnerConnects(w: World, x: Exit, reading: nat, credentials: Credentials, identity: Identity, ports: Ports)
    requires Underway(x.view, x.world, ValidateInitial) && Room(x.view, 1) && Publishable(credentials, identity, ports)
    requires x.world.owner == w.owner && w.owner.pending.value.userId.None? && x.view.authorization.None? && x.view.draft == Some(Draft(None, None, false))
    ensures var y := Made(x.view, x.world, Answering(x.view, reading, OpValidate, Validated(credentials, identity), ports));
            ConnectedAs(w, y, SessionAt(credentials, identity, ports)) && y.view.requests == x.view.requests
  {
    IdentityIsPublished(x.view, x.world, ValidateInitial, reading, credentials, identity, ports);
  }

  lemma ConnectionIsUnderway(v: View, w: World, begin: Ports)
    requires Alone(w) && Valid(w.owner) && Idle(w.owner).None? && w.owner.active.None? && begin.queued
    requires NotIdle(v, w.owner, begin).None? && v.deferred.None? && v.authorization.None? && v.nextRequest >= 1 && Room(v, 5)
    ensures var x := Made(v, w, BeginningConnection(begin));
            && Underway(x.view, x.world, Start) && Room(x.view, 4) && x.view.authorization.None?
            && x.world.owner.store == w.owner.store && x.world.owner.revision == w.owner.revision && x.world.owner.pending.value.userId.None?
            && x.view.transaction == Some(w.owner.nextTransaction)
            && x.view.requests == v.requests + [Request(Some(w.owner.nextTransaction), Start, AskDevice)]
  {
    AloneWaits(v, w);
    AloneWaits(v, Waiting(v, w));
    ConnectionStarts(v, w, begin);
  }

  /** A due refresh borrows the active session and goes out. */
  lemma RefreshGoesOut(v: View, w: World, now: nat, ports: Ports)
    requires Alone(w) && Valid(w.owner) && Idle(w.owner).None? && w.owner.active.Some?
    requires v.transaction.None? && v.pending.None? && v.deferred.None? && v.authorization.None? && !v.snapshot.shuttingDown && Room(v, 3)
    requires v.snapshot.status.StatusConnected? && v.schedule.Some? && v.schedule.value.ownerRevision == w.owner.revision
    requires now >= v.schedule.value.refresh && v.nextRequest >= 1 && ports.queued && !ports.configurationStopping
    ensures var x := Made(v, w, Ticking(Some(now), Nothing, ports));
            && x.ended == Fine(true) && Underway(x.view, x.world, Phase.Refresh) && Room(x.view, 2) && x.view.authorization.None?
            && x.world.owner == Lend(w.owner) && x.view.snapshot.login.None? && x.view.draft.Some?
            && x.view.draft.value.identity == Some(User(w.owner.active.value.userId, w.owner.active.value.login))
            && x.view.transaction == Some(w.owner.nextTransaction)
            && x.view.requests == v.requests + [Request(Some(w.owner.nextTransaction), Phase.Refresh, AskRefresh(PairOf(w.owner.active.value)))]
  {
    var first := Waiting(v, w);
    AloneWaits(v, w);
    AloneWaits(v, first);
    AloneWaits(v, Waiting(v, first));
    LendKeepsValid(w.owner);
    assert Observe(w.owner) == Active(Described(w.owner.active.value, w.owner.revision));
    assert ConnectedTicked(v, first, now, ports) == CheckedUp(v, Waiting(v, first), Phase.Refresh, ports);
  }

  /** The rotated pair, as it is saved before its validation. */
  function RotatedSession(grant: Grant, user: User, at: int): Session {
    Session(grant.access, grant.refresh, at, user.id, user.login, [CHAT_SCOPE])
  }

  /** A granted refresh is saved and sent on for validation. */
  lemma RotationGoesOn(v: View, w: World, reading: nat, grant: Grant, user: User, at: int, ports: Ports)
    requires Underway(v, w, Phase.Refresh) && Room(v, 2) && v.authorization.None? && ports.queued && !ports.configurationStopping
    requires v.draft.Some? && v.draft.value.identity == Some(user) && w.owner.pending.value.userId == Some(user.id)
    requires ValidGrant(grant) && ports.system.Some? && AddDuration(ports.system.value, grant.expiresIn) == Some(at)
    requires Encoded(RotatedSession(grant, user, at)).Ok? && ports.persisted.Done?
    ensures var x := Made(v, w, Answering(v, reading, OpRefresh, Renewed(grant), ports));
            && x.ended == Fine(true) && Underway(x.view, x.world, ValidateRotated) && Room(x.view, 1) && x.view.authorization.None?
            && Stored(x.world.owner.store, RotatedSession(grant, user, at)) && x.world.owner.revision == w.owner.revision
            && x.view.draft == Some(Draft(None, Some(user), true)) && x.world.owner.pending.value.userId == Some(user.id)
            && x.view.transaction == v.transaction
            && x.view.requests == v.requests + [Request(v.transaction, ValidateRotated, AskValidation(Credentials(grant.access, grant.refresh, at)))]
  {
    AnswerIsHandled(v, w, Phase.Refresh, reading, Renewed(grant), ports);
    var taken, seen := v.(pending := None, accepted := v.accepted + [v.nextRequest - 1]), Waiting(v, w);
    var rotating := taken.(draft := Some(v.draft.value.(rotated := true)));
    AloneWaits(rotating, seen);
    PersistKeepsValid(seen.owner, v.transaction.value, RotatedSession(grant, user, at), ports.persisted);
    assert SuccessHandled(taken, seen, Phase.Refresh, Renewed(grant), ports)
        == RotationAdopted(rotating, seen, Credentials(grant.access, grant.refresh, at), user, ports);
  }

  /** A due refresh of a connection, from the tick that sends it to the next generation: the
      rotated pair is in the store before it is validated, and the validated session after. */
  lemma RenewalSucceeds(v: View, w: World, now: nat, due: Ports, grant: Grant, at: int, granted: Ports, renewed: nat,
                        credentials: Credentials, identity: Identity, published: Ports, validated: nat)
    requires Alone(w) && Valid(w.owner) && Idle(w.owner).None? && w.owner.active.Some?
    requires v.transaction.None? && v.pending.None? && v.deferred.None? && v.authorization.None? && !v.snapshot.shuttingDown && Room(v, 3)
    requires v.snapshot.status.StatusConnected? && v.schedule.Some? && v.schedule.value.ownerRevision == w.owner.revision
    requires now >= v.schedule.value.refresh && v.nextRequest >= 1 && due.queued && !due.configurationStopping
    requires granted.queued && !granted.configurationStopping && ValidGrant(grant) && granted.persisted.Done?
    requires granted.system.Some? && AddDuration(granted.system.value, grant.expiresIn) == Some(at)
    requires Encoded(RotatedSession(grant, User(w.owner.active.value.userId, w.owner.active.value.login), at)).Ok?
    requires Publishable(credentials, identity, published) && identity.userId == w.owner.active.value.userId
    ensures var x0 := Made(v, w, Ticking(Some(now), Nothing, due));
            var x1 := Made(x0.view, x0.world, Answering(x0.view, renewed, OpRefresh, Renewed(grant), granted));
            var x2 := Made(x1.view, x1.world, Answering(x1.view, validated, OpValidate, Validated(credentials, identity), published));
            && Acquire(x0.world.owner) == Err(Retry) && x0.view.snapshot.login.None?
            && Stored(x1.world.owner.store, RotatedSession(grant, User(w.owner.active.value.userId, w.owner.active.value.login), at))
            && ConnectedAs(w, x2, SessionAt(credentials, identity, published))
            && x2.view.requests == v.requests + [
                 Request(Some(w.owner.nextTransaction), Phase.Refresh, AskRefresh(PairOf(w.owner.active.value))),
                 Request(Some(w.owner.nextTransaction), ValidateRotated, AskValidation(Credentials(grant.access, grant.refresh, at)))]
  {
    var user := User(w.owner.active.value.userId, w.owner.active.value.login);
    RefreshGoesOut(v, w, now, due);
    var x0 := Made(v, w, Ticking(Some(now), Nothing, due));
    RotationGoesOn(x0.view, x0.world, renewed, grant, user, at, granted);
    var x1 := Made(x0.view, x0.world, Answering(x0.view, renewed, OpRefresh, Renewed(grant), granted));
    IdentityIsPublished(x1.view, x1.world, ValidateRotated, validated, credentials, identity, published);
  }
}
