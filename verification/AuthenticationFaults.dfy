/** What becomes of a flow when the worker, a clock, the store or the owner lets it down, and how the
    user can tell that something changed. */
module AuthenticationFaults {
  import opened Outcomes
  import opened Times
  import opened ByteStrings
  import opened TwitchSession
  import opened TwitchPorts
  import opened Sessions = SessionOwnerSpec
  import opened AuthenticationWorkflow
  import opened AuthenticationRuns
  import opened AuthenticationPromises
  import opened AuthenticationAnswers

  // ---------------------------------------------------------------- requests that cannot be sent

  /** A request that the worker does not take ends the flow, with the record if that was rotated. */
  lemma UntakenRequestEnds(v: View, w: World, phase: Phase, command: Command, ports: Ports)
    requires Bound(v, w) && v.pending.None? && v.nextRequest < MAX_U64 && !ports.queued && !phase.Revoke?
    ensures FlowEnds(v, Asking(v, w, phase, command, ports), w.owner.store, DispatchFailed, v.draft.Some? && v.draft.value.rotated, ports)
  {
    FailingEnds(v.(nextRequest := v.nextRequest + 1, pending := Some(InFlight(v.nextRequest, phase))), w, DispatchFailed, v.Rotated(), ports);
  }

  /** A revocation that the worker does not take is given up, and the session erased all the same. */
  lemma UntakenRevocationErases(v: View, w: World, command: Command, ports: Ports)
    requires Bound(v, w) && v.pending.None? && v.nextRequest < MAX_U64 && !ports.queued && ports.erased.Done?
    ensures var x := Asking(v, w, Revoke, command, ports);
            && x.ended == Bad(if Waiting(v, w).owner.stopping then ControlStopping else DispatchFailed) && x.view.transaction.None?
            && (!Waiting(v, w).owner.stopping ==> x.world.owner.active.None? && x.world.owner.store.None? && x.view.snapshot.status.StatusDisconnected?)
  {
    WaitingOutcome(v, w);
  }

  // ---------------------------------------------------------------- clocks

  /** A deadline that the clock cannot express ends the flow: of a retry and of a poll without, of a
      publication with an erasure if the record was rotated. */
  lemma UnreachableDeadlineEnds(v: View, w: World, phase: Phase, delay: nat, shown: ControlError, code: Bytes, session: Session, rotated: bool, ports: Ports)
    requires Bound(v, w) && ports.steady.Some?
    ensures ports.steady.value + delay >= INSTANT_LIMIT ==>
              FlowEnds(v, RetryAwaited(v, w, phase, delay, shown, ports), w.owner.store, InvalidResult, false, ports)
    ensures v.authorization.Some? && ports.steady.value + v.authorization.value.interval >= INSTANT_LIMIT ==>
              FlowEnds(v, PollDeferred(v, w, code, Some(delay), ports), w.owner.store, InvalidResult, false, ports)
    ensures ports.systemAgain.Some? && !Schedulable(session.expiresAt, ports) ==>
              FlowEnds(v, SessionPublished(v, w, session, rotated, ports), w.owner.store, InvalidResult, rotated, ports)
  {
    FailingEnds(v, w, InvalidResult, false, ports);
    FailingEnds(v, w, InvalidResult, rotated, ports);
  }

  /** So does a new session whose checks the clock cannot express. */
  lemma UnreachableScheduleEnds(v: View, w: World, now: nat, connected: Connected, ports: Ports)
    requires v.schedule.Some? && v.transaction.None? && v.schedule.value.ownerRevision != connected.revision
    requires ports.steady.Some? && ports.system.Some? && !Schedulable(connected.expiresAt, ports.(systemAgain := ports.system))
    ensures ShowsEnd(v, OwnerFollowed(v, w, now, connected, ports), InvalidResult)
  {
  }

  /** A code that the worker garbled ends the flow. */
  lemma GarbledCodeEnds(v: View, w: World, code: Bytes, retry: Option<nat>, ports: Ports)
    requires Bound(v, w) && !ValidToken(code)
    ensures FlowEnds(v, PollDeferred(v, w, code, retry, ports), w.owner.store, InvalidResult, false, ports)
  {
    FailingEnds(v, w, InvalidResult, false, ports);
  }

  /** A panic of a port ends the flow like an error, with the record if that was rotated; while
      disconnecting it ends the disconnection. */
  lemma PanicEnds(x: Exit, ports: Ports)
    requires x.ended.Unwound? && Bound(x.view, x.world)
    ensures !x.view.snapshot.status.Disconnecting? ==>
              FlowEnds(x.view, PanicCaught(x, ports), x.world.owner.store, ControlInternal, x.view.draft.Some? && x.view.draft.value.rotated, ports)
    ensures x.view.snapshot.status.Disconnecting? && ports.erased.Done? && !Waiting(x.view, x.world).owner.stopping ==>
              DisconnectedWith(PanicCaught(x, ports), ControlInternal)
  {
    FailingEnds(x.view, x.world, ControlInternal, x.view.Rotated(), ports);
    WaitingOutcome(x.view, x.world);
  }

  predicate DisconnectedWith(x: Exit, cause: ControlError) {
    && x.ended == Bad(cause) && x.view.snapshot.status.StatusDisconnected? && x.view.snapshot.diagnostic == Some(cause)
    && x.view.transaction.None? && x.world.owner.active.None? && x.world.owner.store.None?
  }

  /** Which rounds panic: the clock cannot be read, or in time the worker's answer cannot be. */
  lemma RoundPanics(v: View, w: World, reading: Option<nat>, polled: Polled, ports: Ports)
    requires reading.None? || (polled.PollPanicked? && (v.authorization.Some? ==> reading.value < v.authorization.value.expires))
    ensures InnerTicked(v, w, reading, polled, ports) == Exit(v, w, Unwound)
  {
  }

  /** A flow that lacks what it needs next ends as in an invalid state: its pair, its identity, its
      authorization or its code. After a refresh the record goes too. */
  lemma MissingPieceEnds(v: View, w: World, phase: Phase, code: Bytes, grant: Grant, credentials: Credentials, identity: Identity,
                         error: ApiError, now: nat, ports: Ports)
    requires Bound(v, w)
    ensures v.draft.None? || v.draft.value.credentials.None? ==>
              FlowEnds(v, AskingWithCredentials(v, w, phase, ports), w.owner.store, InvalidState, false, ports)
    ensures v.authorization.None? && ValidToken(code) && ports.steady.Some? ==>
              FlowEnds(v, PollDeferred(v, w, code, None, ports), w.owner.store, InvalidState, false, ports)
    ensures v.draft.None? ==> FlowEnds(v, ValidationAccepted(v, w, credentials, identity, ports), w.owner.store, InvalidState, false, ports)
    ensures v.draft.None? && (Validates(phase) || phase.Refresh?) ==>
              FlowEnds(v, FailureHandled(v, w, phase, error, Some(Kept(credentials)), ports), w.owner.store, InvalidState, false, ports)
    ensures v.draft.None? || v.draft.value.identity.None? ==>
              FlowEnds(v, RotationAccepted(v, w, grant, ports), w.owner.store, InvalidState, true, ports)
    ensures v.deferred.None? && v.authorization.Some? && v.authorization.value.code.None? && now >= v.authorization.value.nextPoll ==>
              FlowEnds(v, FlowTicked(v, w, now, ports), w.owner.store, InvalidState, false, ports)
  {
    FailingEnds(v, w, InvalidState, false, ports);
    FailingEnds(v, w, InvalidState, true, ports);
    if v.draft.Some? {
      FailingEnds(v.(draft := Some(v.draft.value.(rotated := true))), w, InvalidState, true, ports);
    }
  }

  /** With no answer there is nothing to do while a request is under way, before the deadline of a retry
      or a poll, and with no flow open and none connected. */
  lemma QuietRoundsDoNothing(v: View, w: World, now: nat, ports: Ports)
    requires v.authorization.Some? ==> now < v.authorization.value.expires
    requires || v.pending.Some? || (v.deferred.Some? && now < v.deferred.value.deadline)
             || (v.deferred.None? && v.authorization.Some? && now < v.authorization.value.nextPoll)
             || (v.deferred.None? && v.authorization.None? && v.schedule.None?)
    ensures InnerTicked(v, w, Some(now), Nothing, ports) == Exit(v, w, Fine(false))
  {
  }

  // ---------------------------------------------------------------- the owner

  /** The cause shown for what the owner refuses. */
  lemma OwnerErrorIsShown(error: OwnerError)
    ensures var shown := Mapped(error);
            && (shown.ControlBusy? <==> error.Busy?) && (shown.InvalidState? <==> error.NoSession?)
            && (shown.SessionLoadFailed? <==> error.LoadFailed?) && (shown.SessionDecodeFailed? <==> error.DecodeFailed?)
            && (shown.SessionStoreFailed? <==> error.StoreFailed? || error.EncodeFailed?) && (shown.SessionEraseFailed? <==> error.EraseFailed?)
            && (shown.WrongIdentity? <==> error.IdentityMismatch?) && (shown.ControlStopping? <==> error.OwnerStopping?)
            && (shown.ControlExhausted? <==> error.RevisionExhausted?) && (shown.ControlInternal? <==> error.StaleTransaction?)
  {
  }

  /** A saved session that cannot be had: nothing happens if there is none, a record that cannot be
      loaded or read is reported and stays, and so is an owner that is busy. */
  lemma SavedSessionIsMissing(v: View, w: World, ports: Ports)
    requires Alone(w) && Valid(w.owner) && NotIdle(v, w.owner, ports).None?
    ensures var x := Made(v, w, BeginningSaved(ports));
            && (w.owner.pending.None? && Idle(w.owner).None? && w.owner.active.None? && ports.loading.Loads? && w.owner.store.None? ==>
                  x.ended == Fine(false) && x.view == v && x.world.owner == w.owner)
            && (Idle(w.owner).None? && w.owner.active.None? && ports.loading.LoadFails? ==>
                  x.ended == Bad(SessionLoadFailed) && x.view.snapshot.status.StatusError? && x.world.owner == w.owner)
            && (Idle(w.owner).None? && w.owner.active.None? && ports.loading.Loads?
                && w.owner.store.Some? && Decoded(w.owner.store.value).Err? ==>
                  x.ended == Bad(SessionDecodeFailed) && x.view.snapshot.status.StatusError? && x.world.owner == w.owner)
            && (w.owner.pending.Some? || (Idle(w.owner).None? && w.owner.active.Some?) ==>
                  x.ended == Bad(ControlBusy) && x.view.snapshot.status.StatusError? && x.world.owner == w.owner)
  {
    AloneWaits(v, w);
    AloneWaits(v, Waiting(v, w));
    AloneWaits(v, Waiting(v, Waiting(v, w)));
  }

  /** A new connection does not start while another party has the session, or with one active. */
  lemma BusyOwnerStartsNothing(v: View, w: World, ports: Ports)
    requires Alone(w) && NotIdle(v, w.owner, ports).None? && (w.owner.pending.Some? || (Idle(w.owner).None? && w.owner.active.Some?))
    ensures var x := Made(v, w, BeginningConnection(ports)); x.ended == Bad(ControlBusy) && x.view == v && x.world.owner == w.owner
  {
    AloneWaits(v, w);
    AloneWaits(v, Waiting(v, w));
  }

  /** A due check waits while another party has the session; without a session the connection is lost. */
  lemma DueCheckWaits(v: View, w: World, phase: Phase, ports: Ports)
    requires v.transaction.None?
    ensures var seen, x := Waiting(v, w), CheckedUp(v, w, phase, ports);
            && (!seen.owner.stopping && seen.owner.pending.Some? ==> x == Exit(v, seen, Fine(false)))
            && (Idle(seen.owner).None? && seen.owner.active.None? ==> ShowsEnd(v, x, InvalidState) && x.world.owner == seen.owner)
            && (seen.owner.stopping ==> ShowsEnd(v, x, ControlStopping) && x.world.owner == seen.owner)
  {
  }

  // ---------------------------------------------------------------- the end

  /** A shutdown is final: the owner is stopped, nothing is left of the flow, and no call does anything
      any more. */
  lemma ShutdownIsFinal(v: View, w: World, ports: Ports, call: Call)
    ensures var x := Made(v, w, StoppingNow(ports));
            !v.snapshot.shuttingDown ==>
              && x.ended == Fine(true) && x.world.owner.stopping && x.world.owner.active.None?
              && x.view.snapshot.status.StatusShuttingDown? && x.view.snapshot.shuttingDown
              && x.view.transaction.None? && x.view.pending.None? && x.view.draft.None? && x.view.schedule.None?
              && x.view.snapshot.login.None?
    ensures v.snapshot.shuttingDown ==>
              var y := Made(v, w, call);
              y.view == v && y.ended == (if call.StoppingNow? then Fine(false) else Bad(ControlStopping))
  {
  }

  // ---------------------------------------------------------------- what is shown is numbered

  /** The number went up, as far as numbers go. */
  predicate Rises(v: View, x: Exit) {
    if v.snapshot.revision < MAX_U64 then v.snapshot.revision < x.view.snapshot.revision <= MAX_U64
    else x.view.snapshot.revision == v.snapshot.revision
  }

  /** What is shown is the same, or has a higher number; if a panic is yet to be dealt with, at least no lower one. */
  predicate Numbered(v: View, x: Exit) {
    || x.view.snapshot == v.snapshot || Rises(v, x)
    || (x.ended.Unwound? && x.view.snapshot.revision == v.snapshot.revision)
  }

  lemma FailingRises(v: View, w: World, error: ControlError, erase: bool, ports: Ports)
    ensures Rises(v, Failing(v, w, error, erase, ports))
  {
  }

  lemma FinishingRises(v: View, w: World, diagnostic: Option<ControlError>, ports: Ports)
    ensures Rises(v, Finishing(v, w, diagnostic, ports))
  {
  }

  lemma AskingRises(v: View, w: World, phase: Phase, command: Command, ports: Ports)
    ensures Rises(v, Asking(v, w, phase, command, ports))
  {
  }

  lemma AskingWithCredentialsRises(v: View, w: World, phase: Phase, ports: Ports)
    ensures Rises(v, AskingWithCredentials(v, w, phase, ports))
  {
    if v.HasCredentials() {
      var credentials := v.draft.value.credentials.value;
      AskingRises(v.(draft := Some(v.draft.value.(credentials := None))), w, phase,
                  if phase.Refresh? then AskRefresh(credentials) else AskValidation(credentials), ports);
    } else {
      FailingRises(v, w, InvalidState, false, ports);
    }
  }

  lemma RevokingRises(v: View, w: World, ports: Ports)
    ensures Rises(v, RevokedOrErased(v, w, ports))
  {
  }

  lemma PublicationIsNumbered(v: View, w: World, session: Session, rotated: bool, ports: Ports)
    ensures Numbered(v, SessionPublished(v, w, session, rotated, ports))
  {
  }

  lemma ValidationIsNumbered(v: View, w: World, credentials: Credentials, identity: Identity, ports: Ports)
    ensures Numbered(v, ValidationAccepted(v, w, credentials, identity, ports))
  {
    FailingRises(v, w, InvalidResult, true, ports);
    FailingRises(v, w, WrongIdentity, true, ports);
    FailingRises(v, w, InvalidState, false, ports);
    if ports.system.Some? {
      PublicationIsNumbered(v, w, SessionAt(credentials, identity, ports), v.Rotated(), ports);
    }
  }

  lemma RotationIsNumbered(v: View, w: World, grant: Grant, ports: Ports)
    ensures Numbered(v, RotationAccepted(v, w, grant, ports))
  {
    if v.draft.Some? && v.draft.value.identity.Some? && ValidityOf(grant, ports.system).At? {
      AdoptionRises(v.(draft := Some(v.draft.value.(rotated := true))), w, ValidityOf(grant, ports.system).time, v.draft.value.identity.value, ports);
    }
  }

  lemma AdoptionRises(v: View, w: World, credentials: Credentials, user: User, ports: Ports)
    ensures Rises(v, RotationAdopted(v, w, credentials, user, ports))
  {
  }

  lemma GrantIsNumbered(v: View, w: World, grant: Grant, ports: Ports)
    ensures Numbered(v, GrantAccepted(v, w, grant, ports))
  {
  }

  lemma SuccessIsNumbered(v: View, w: World, phase: Phase, success: Success, ports: Ports)
    ensures Numbered(v, SuccessHandled(v, w, phase, success, ports))
  {
    match success
    case Validated(credentials, identity) => ValidationIsNumbered(v, w, credentials, identity, ports);
    case Renewed(grant) => RotationIsNumbered(v, w, grant, ports);
    case Granted(grant) => GrantIsNumbered(v, w, grant, ports);
    case _ =>
  }

  lemma PollIsNumbered(v: View, w: World, code: Bytes, retry: Option<nat>, ports: Ports)
    ensures Numbered(v, PollDeferred(v, w, code, retry, ports))
  {
  }

  lemma RetryIsNumbered(v: View, w: World, phase: Phase, delay: nat, shown: ControlError, ports: Ports)
    ensures Numbered(v, RetryAwaited(v, w, phase, delay, shown, ports))
  {
    FailingRises(v, w, InvalidResult, false, ports);
    if ports.steady.Some? && AddInstant(ports.steady.value, delay).Some? {
      assert Rises(v, RetryAwaited(v, w, phase, delay, shown, ports));
    }
  }

  lemma RetriedIsNumbered(v: View, w: World, phase: Phase, error: ApiError, credentials: Credentials, shown: ControlError, ports: Ports)
    ensures Numbered(v, Retried(v, w, phase, error, credentials, shown, ports))
  {
    if v.draft.Some? {
      var kept := v.(draft := Some(v.draft.value.(credentials := Some(credentials))));
      RetryIsNumbered(kept, w, phase, RetryDelay(error.retryAfter), shown, ports);
      AskingWithCredentialsRises(kept, w, Phase.Refresh, ports);
      FailingRises(kept, w, shown, phase.Refresh? || phase.ValidateRotated?, ports);
    }
    FailingRises(v, w, InvalidState, false, ports);
    FailingRises(v, w, InvalidResult, true, ports);
  }

  lemma FailureIsNumbered(v: View, w: World, phase: Phase, error: ApiError, retained: Option<Secret>, ports: Ports)
    ensures Numbered(v, FailureHandled(v, w, phase, error, retained, ports))
  {
    FinishingRises(v, w, Some(AuthenticationFailed), ports);
    FailingRises(v, w, InvalidResult, false, ports);
    FailingRises(v, w, InvalidResult, phase.Refresh? || phase.ValidateRotated?, ports);
    FailingRises(v, w, ShownError(error.disposition), false, ports);
    if retained.Some? {
      match retained.value {
        case DeviceCode(code) => PollIsNumbered(v, w, code, Some(RetryDelay(error.retryAfter)), ports);
        case Kept(credentials) => RetriedIsNumbered(v, w, phase, error, credentials, ShownError(error.disposition), ports);
      }
    }
  }

  lemma ResultIsNumbered(v: View, w: World, result: AuthResult, ports: Ports)
    ensures Numbered(v, ResultHandled(v, w, result, ports))
  {
    if v.pending.Some? && v.pending.value.id == result.id {
      var phase, taken := v.pending.value.phase, v.(pending := None, accepted := v.accepted + [result.id]);
      match result.outcome {
        case Err(error) => FailureIsNumbered(taken, w, phase, error, result.retained, ports);
        case Ok(success) => SuccessIsNumbered(taken, w, phase, success, ports);
      }
    }
  }

  lemma CheckIsNumbered(v: View, w: World, phase: Phase, ports: Ports)
    ensures Numbered(v, CheckedUp(v, w, phase, ports))
  {
    var taken := ActiveTaken(v, w);
    AskingWithCredentialsRises(Concealed(taken.view), taken.world, phase, ports);
  }

  lemma FollowingIsNumbered(v: View, w: World, now: nat, connected: Connected, ports: Ports)
    requires v.schedule.Some?
    ensures Numbered(v, OwnerFollowed(v, w, now, connected, ports))
  {
    CheckIsNumbered(v, w, if now >= v.schedule.value.refresh then Phase.Refresh else ValidateActive, ports);
    FailingRises(v, w, InvalidResult, false, ports);
  }

  lemma ConnectedIsNumbered(v: View, w: World, now: nat, ports: Ports)
    requires v.schedule.Some?
    ensures Numbered(v, ConnectedTicked(v, w, now, ports))
  {
    var seen := Waiting(v, w);
    FailingRises(v, seen, MustReconnect, false, ports);
    FailingRises(v, seen, ControlStopping, false, ports);
    if Observe(seen.owner).Active? {
      FollowingIsNumbered(v, seen, now, Observe(seen.owner).connected, ports);
    }
  }

  lemma FlowIsNumbered(v: View, w: World, now: nat, ports: Ports)
    requires v.deferred.Some? || v.authorization.Some?
    ensures Numbered(v, FlowTicked(v, w, now, ports))
  {
  }

  lemma RoundIsNumbered(v: View, w: World, reading: Option<nat>, polled: Polled, ports: Ports)
    ensures Numbered(v, InnerTicked(v, w, reading, polled, ports))
  {
    FailingRises(v, w, AuthorizationExpired, false, ports);
    if polled.Arrived? {
      ResultIsNumbered(v, w, polled.result, ports);
    } else if reading.Some? && (v.deferred.Some? || v.authorization.Some?) {
      FlowIsNumbered(v, w, reading.value, ports);
    } else if reading.Some? && v.schedule.Some? {
      ConnectedIsNumbered(v, w, reading.value, ports);
    }
  }

  lemma CaughtIsNumbered(v: View, x: Exit, ports: Ports)
    requires Numbered(v, x)
    ensures Numbered(v, PanicCaught(x, ports)) && !PanicCaught(x, ports).ended.Unwound?
  {
    FinishingRises(x.view, x.world, Some(ControlInternal), ports);
    FailingRises(x.view, x.world, ControlInternal, x.view.Rotated(), ports);
  }

  lemma TickIsNumbered(v: View, w: World, reading: Option<nat>, polled: Polled, ports: Ports)
    ensures !Ticked(v, w, reading, polled, ports).ended.Unwound? && Numbered(v, Ticked(v, w, reading, polled, ports))
  {
    RoundIsNumbered(v, Waiting(v, w), reading, polled, ports);
    CaughtIsNumbered(v, InnerTicked(v, Waiting(v, w), reading, polled, ports), ports);
  }

  lemma DisconnectingIsNumbered(v: View, w: World, ports: Ports)
    ensures !DisconnectedBy(v, w, ports).ended.Unwound? && Numbered(v, DisconnectedBy(v, w, ports))
  {
    var first, dropped := Waiting(v, w), v.(authorization := None, deferred := None);
    RevokingRises(Concealed(dropped), first, ports);
    var taken := AnyTaken(dropped, first, ports);
    RevokingRises(Concealed(taken.view), taken.world, ports);
  }

  lemma BeginningIsNumbered(v: View, w: World, ports: Ports)
    ensures !ConnectionBegun(v, w, ports).ended.Unwound? && Numbered(v, ConnectionBegun(v, w, ports))
    ensures !SavedConnectionBegun(v, w, ports).ended.Unwound? && Numbered(v, SavedConnectionBegun(v, w, ports))
  {
  }

  lemma StoppingIsNumbered(v: View, w: World, ports: Ports)
    ensures !ShutDown(v, w, ports).ended.Unwound? && Numbered(v, ShutDown(v, w, ports))
  {
    FinishingRises(v, w, None, ports);
  }

  /** Whatever a call changes of what is shown, the number tells; and a panic is never left over. */
  lemma CallsAreNumbered(v: View, w: World, call: Call)
    ensures !Made(v, w, call).ended.Unwound? && Numbered(v, Made(v, w, call))
  {
    match call
    case BeginningConnection(ports) => BeginningIsNumbered(v, w, ports);
    case BeginningSaved(ports) => BeginningIsNumbered(v, w, ports);
    case Ticking(reading, polled, ports) => TickIsNumbered(v, w, reading, polled, ports);
    case DisconnectingNow(ports) => DisconnectingIsNumbered(v, w, ports);
    case StoppingNow(ports) => StoppingIsNumbered(v, w, ports);
  }
}
