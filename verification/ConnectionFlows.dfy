/** Whole flows of a connection: taking up a saved session, with or without a refresh, following the
    owner while connected, and disconnecting. */
module ConnectionFlows {
  import opened Outcomes
  import opened Times
  import opened TwitchSession
  import opened TwitchPorts
  import opened Sessions = SessionOwnerSpec
  import opened AuthenticationWorkflow
  import opened AuthenticationPromises
  import opened AuthenticationAnswers

  // ---------------------------------------------------------------- a saved session

  function UserOf(session: Session): User {
    User(session.userId, session.login)
  }

  /** A quiet owner with a readable session in the store, and a controller at rest. */
  ghost predicate Resumable(v: View, w: World, session: Session, ports: Ports) {
    && Alone(w) && Valid(w.owner) && Idle(w.owner).None? && w.owner.active.None?
    && w.owner.store.Some? && Decoded(w.owner.store.value) == Ok(session) && ports.loading.Loads? && ports.queued
    && v.transaction.None? && v.pending.None? && v.deferred.None? && v.authorization.None? && v.nextRequest >= 1 && Room(v, 4)
    && !v.snapshot.shuttingDown && !ports.configurationStopping && (v.snapshot.status.StatusDisconnected? || v.snapshot.status.StatusError?)
  }

  /** The saved pair is sent for validation; the record stays, and chat gets no lease meanwhile. */
  lemma SavedSessionGoesOut(v: View, w: World, session: Session, ports: Ports)
    requires Resumable(v, w, session, ports)
    ensures var x := Made(v, w, BeginningSaved(ports));
            && x.ended == Fine(true) && Underway(x.view, x.world, ValidateSaved) && Room(x.view, 3) && x.view.authorization.None?
            && x.view.draft == Some(Draft(None, Some(UserOf(session)), false)) && x.view.snapshot.status.Validating?
            && x.world.owner.store == w.owner.store && x.world.owner.revision == w.owner.revision
            && x.world.owner.pending.value.userId == Some(session.userId) && Acquire(x.world.owner) == Err(Retry)
            && x.view.transaction == Some(w.owner.nextTransaction)
            && x.view.requests == v.requests + [Request(Some(w.owner.nextTransaction), ValidateSaved, AskValidation(PairOf(session)))]
  {
    SavedSessionIsTaken(v, w, session, ports);
    var left := Waiting(v, Waiting(v, w)).(owner := Begin(w.owner, Some(session.userId), false, None));
    SavedPairGoesOut(Concealed(Adopted(v, Transaction(w.owner.nextTransaction, session))), left, PairOf(session), UserOf(session), ports);
  }

  lemma SavedPairGoesOut(v: View, w: World, pair: Credentials, user: User, ports: Ports)
    requires Alone(w) && Bound(v, w) && !w.owner.stopping && v.draft == Some(Draft(Some(pair), Some(user), false)) && ports.queued
    requires v.pending.None? && v.deferred.None? && v.authorization.None? && v.nextRequest >= 1 && Room(v, 4) && !v.snapshot.shuttingDown
    ensures var x := AskingWithCredentials(v, w, ValidateSaved, ports);
            && x.ended == Fine(true) && Underway(x.view, x.world, ValidateSaved) && Room(x.view, 3) && x.view.authorization.None?
            && x.view.draft == Some(Draft(None, Some(user), false)) && x.view.snapshot.status.Validating? && x.world == w
            && x.view.transaction == v.transaction && x.view.requests == v.requests + [Request(v.transaction, ValidateSaved, AskValidation(pair))]
  {
  }

  lemma SavedSessionIsTaken(v: View, w: World, session: Session, ports: Ports)
    requires Resumable(v, w, session, ports)
    ensures var begun := Begin(w.owner, Some(session.userId), false, None);
            var left := Waiting(v, Waiting(v, w)).(owner := begun);
            && Alone(left) && Valid(begun) && begun.store == w.owner.store && begun.revision == w.owner.revision
            && begun.pending.value.userId == Some(session.userId) && Holds(begun, w.owner.nextTransaction) && !begun.stopping
            && Acquire(begun) == Err(Retry)
            && SavedConnectionBegun(v, w, ports)
               == AskingWithCredentials(Concealed(Adopted(v, Transaction(w.owner.nextTransaction, session))), left, ValidateSaved, ports)
  {
    AloneWaits(v, w);
    AloneWaits(v, Waiting(v, w));
    CheckoutSavedKeepsValid(w.owner, ports.loading);
  }

  /** A failure comes back, with the pair that was sent. */
  function FailureArrives(v: View, reading: nat, operation: Operation, error: ApiError, pair: Credentials, ports: Ports): Call {
    var id := if v.nextRequest > 0 then v.nextRequest - 1 else 0;
    Ticking(Some(reading), Arrived(AuthResult(id, operation, Err(error), Some(Kept(pair)))), ports)
  }

  /** A rejected token is refreshed. */
  lemma RejectionGoesOn(v: View, w: World, phase: Phase, reading: nat, error: ApiError, pair: Credentials, ports: Ports)
    requires Underway(v, w, phase) && (phase.ValidateSaved? || phase.ValidateActive?) && Room(v, 3) && v.authorization.None?
    requires v.draft.Some? && error.disposition.DoReconnect? && ValidToken(pair.access) && ValidToken(pair.refresh)
    requires ports.queued && !ports.configurationStopping
    ensures var x := Made(v, w, FailureArrives(v, reading, OpValidate, error, pair, ports));
            && x.ended == Fine(true) && Underway(x.view, x.world, Phase.Refresh) && Room(x.view, 2) && x.view.authorization.None?
            && x.world.owner == w.owner && x.view.transaction == v.transaction
            && x.view.draft.Some? && x.view.draft.value.identity == v.draft.value.identity
            && x.view.requests == v.requests + [Request(v.transaction, Phase.Refresh, AskRefresh(pair))]
  {
    AloneWaits(v, w);
    var taken, seen := v.(pending := None, accepted := v.accepted + [v.nextRequest - 1]), Waiting(v, w);
    RejectedSessionIsRefreshed(taken, seen, phase, error, Some(Kept(pair)), ports);
    assert Made(v, w, FailureArrives(v, reading, OpValidate, error, pair, ports))
        == PanicCaught(FailureHandled(taken, seen, phase, error, Some(Kept(pair)), ports), ports);
  }

  /** A saved session is taken up: validated, shown as connected, and stored again. */
  lemma SavedConnectionSucceeds(v: View, w: World, session: Session, begin: Ports, validated: nat,
                                credentials: Credentials, identity: Identity, published: Ports)
    requires Resumable(v, w, session, begin) && Publishable(credentials, identity, published) && identity.userId == session.userId
    ensures var x0 := Made(v, w, BeginningSaved(begin));
            var x1 := Made(x0.view, x0.world, Answering(x0.view, validated, OpValidate, Validated(credentials, identity), published));
            ConnectedAs(w, x1, SessionAt(credentials, identity, published))
  {
    SavedSessionGoesOut(v, w, session, begin);
    var x0 := Made(v, w, BeginningSaved(begin));
    IdentityIsPublished(x0.view, x0.world, ValidateSaved, validated, credentials, identity, published);
  }

  /** What a renewal after a rejection brings: the rejection, the grant, and the identity. */
  datatype Renewal = Renewal(rejected: nat, error: ApiError, granted: nat, grant: Grant, at: int,
                             validated: nat, credentials: Credentials, identity: Identity)

  predicate Granting(r: Renewal, user: User, rejection: Ports, granted: Ports) {
    && r.error.disposition.DoReconnect? && rejection.queued && !rejection.configurationStopping
    && ValidGrant(r.grant) && granted.queued && !granted.configurationStopping && granted.persisted.Done?
    && granted.system.Some? && AddDuration(granted.system.value, r.grant.expiresIn) == Some(r.at)
    && Encoded(RotatedSession(r.grant, user, r.at)).Ok?
  }

  /** From the validation in flight on: rejected, refreshed and rotated. */
  lemma RejectedPairIsRotated(v: View, w: World, session: Session, r: Renewal, rejection: Ports, granted: Ports)
    requires Underway(v, w, ValidateSaved) && Room(v, 3) && v.authorization.None? && v.draft == Some(Draft(None, Some(UserOf(session)), false))
    requires w.owner.pending.value.userId == Some(session.userId)
    requires ValidToken(session.access) && ValidToken(session.refresh) && Granting(r, UserOf(session), rejection, granted)
    ensures var x1 := Made(v, w, FailureArrives(v, r.rejected, OpValidate, r.error, PairOf(session), rejection));
            var x2 := Made(x1.view, x1.world, Answering(x1.view, r.granted, OpRefresh, Renewed(r.grant), granted));
            && Underway(x2.view, x2.world, ValidateRotated) && Room(x2.view, 1) && x2.view.authorization.None?
            && x1.world.owner.store == w.owner.store && Stored(x2.world.owner.store, RotatedSession(r.grant, UserOf(session), r.at))
            && x2.view.draft == Some(Draft(None, Some(UserOf(session)), true))
            && x2.world.owner.revision == w.owner.revision && x2.world.owner.pending.value.userId == Some(session.userId)
            && x2.view.requests == v.requests + [
                 Request(v.transaction, Phase.Refresh, AskRefresh(PairOf(session))),
                 Request(v.transaction, ValidateRotated, AskValidation(Credentials(r.grant.access, r.grant.refresh, r.at)))]
  {
    RejectionGoesOn(v, w, ValidateSaved, r.rejected, r.error, PairOf(session), rejection);
    var x1 := Made(v, w, FailureArrives(v, r.rejected, OpValidate, r.error, PairOf(session), rejection));
    RotationGoesOn(x1.view, x1.world, r.granted, r.grant, UserOf(session), r.at, granted);
  }

  /** The saved pair is sent for validation, rejected, refreshed and rotated. */
  lemma SavedSessionIsRotated(v: View, w: World, session: Session, begin: Ports, r: Renewal, rejection: Ports, granted: Ports)
    requires Resumable(v, w, session, begin) && ValidToken(session.access) && ValidToken(session.refresh)
    requires Granting(r, UserOf(session), rejection, granted)
    ensures var x0 := Made(v, w, BeginningSaved(begin));
            var x1 := Made(x0.view, x0.world, FailureArrives(x0.view, r.rejected, OpValidate, r.error, PairOf(session), rejection));
            var x2 := Made(x1.view, x1.world, Answering(x1.view, r.granted, OpRefresh, Renewed(r.grant), granted));
            && Underway(x2.view, x2.world, ValidateRotated) && Room(x2.view, 1) && x2.view.authorization.None?
            && x1.world.owner.store == w.owner.store && Stored(x2.world.owner.store, RotatedSession(r.grant, UserOf(session), r.at))
            && x2.view.draft == Some(Draft(None, Some(UserOf(session)), true))
            && x2.world.owner.revision == w.owner.revision && x2.world.owner.pending.value.userId == Some(session.userId)
            && x2.view.requests == v.requests + [
                 Request(Some(w.owner.nextTransaction), ValidateSaved, AskValidation(PairOf(session))),
                 Request(Some(w.owner.nextTransaction), Phase.Refresh, AskRefresh(PairOf(session))),
                 Request(Some(w.owner.nextTransaction), ValidateRotated, AskValidation(Credentials(r.grant.access, r.grant.refresh, r.at)))]
  {
    SavedSessionGoesOut(v, w, session, begin);
    var x0 := Made(v, w, BeginningSaved(begin));
    RejectedPairIsRotated(x0.view, x0.world, session, r, rejection, granted);
  }

  /** A saved session whose access token has run out comes back: the rejected pair is refreshed under
      the same transaction, the rotated pair is in the store before it is validated, and the validated
      session after, connected as the same user. */
  lemma RejectedConnectionRecovers(v: View, w: World, session: Session, begin: Ports, r: Renewal, rejection: Ports, granted: Ports, published: Ports)
    requires Resumable(v, w, session, begin) && ValidToken(session.access) && ValidToken(session.refresh)
    requires Granting(r, UserOf(session), rejection, granted)
    requires Publishable(r.credentials, r.identity, published) && r.identity.userId == session.userId
    ensures var x0 := Made(v, w, BeginningSaved(begin));
            var x1 := Made(x0.view, x0.world, FailureArrives(x0.view, r.rejected, OpValidate, r.error, PairOf(session), rejection));
            var x2 := Made(x1.view, x1.world, Answering(x1.view, r.granted, OpRefresh, Renewed(r.grant), granted));
            var x3 := Made(x2.view, x2.world, Answering(x2.view, r.validated, OpValidate, Validated(r.credentials, r.identity), published));
            && x1.world.owner.store == w.owner.store && Stored(x2.world.owner.store, RotatedSession(r.grant, UserOf(session), r.at))
            && ConnectedAs(w, x3, SessionAt(r.credentials, r.identity, published))
            && x3.view.requests == v.requests + [
                 Request(Some(w.owner.nextTransaction), ValidateSaved, AskValidation(PairOf(session))),
                 Request(Some(w.owner.nextTransaction), Phase.Refresh, AskRefresh(PairOf(session))),
                 Request(Some(w.owner.nextTransaction), ValidateRotated, AskValidation(Credentials(r.grant.access, r.grant.refresh, r.at)))]
  {
    SavedSessionIsRotated(v, w, session, begin, r, rejection, granted);
    var x0 := Made(v, w, BeginningSaved(begin));
    var x1 := Made(x0.view, x0.world, FailureArrives(x0.view, r.rejected, OpValidate, r.error, PairOf(session), rejection));
    var x2 := Made(x1.view, x1.world, Answering(x1.view, r.granted, OpRefresh, Renewed(r.grant), granted));
    IdentityIsPublished(x2.view, x2.world, ValidateRotated, r.validated, r.credentials, r.identity, published);
  }

  // ---------------------------------------------------------------- while connected

  /** The flow is over, and this is why. */
  lemma LostSessionEnds(v: View, w: World, cause: ControlError, ports: Ports)
    requires v.transaction.None?
    ensures ShowsEnd(v, Failing(v, w, cause, false, ports), cause)
  {
  }

  /** While connected the controller follows the owner. A session under way is hidden; the same session
      back keeps its deadlines; a new one is shown and scheduled; a lost one is shown as lost; and with
      nothing due nothing happens. */
  lemma OwnerIsFollowed(v: View, w: World, now: nat, ports: Ports)
    requires v.schedule.Some? && v.transaction.None? && v.pending.None?
    ensures var seen, x := Waiting(v, w), ConnectedTicked(v, w, now, ports);
            var o, connected := seen.owner, v.snapshot.status.StatusConnected?;
            && (o.stopping ==> ShowsEnd(v, x, ControlStopping))
            && (!o.stopping && o.pending.Some? ==>
                  && x.world == seen && x.ended.Fine? && x.view.requests == v.requests && x.view.schedule == v.schedule
                  && x.view.snapshot.status.Validating?
                  && (!v.snapshot.status.Validating? ==> x.view.snapshot.login.None? && x.view.snapshot.accessExpiresAt.None?))
            && (!o.stopping && o.pending.None? && o.active.None? ==> ShowsEnd(v, x, MustReconnect))
            && (!o.stopping && o.pending.None? && o.active.Some? && o.revision == v.schedule.value.ownerRevision && !connected ==>
                  x.ended == Fine(true) && x.world == seen && ShowsConnected(x.view.snapshot, o.active.value) && x.view.schedule == v.schedule)
            && (!o.stopping && o.pending.None? && o.active.Some? && o.revision != v.schedule.value.ownerRevision ==>
                  Schedulable(o.active.value.expiresAt, ports.(systemAgain := ports.system)) ==>
                  && x.ended == Fine(true) && x.world == seen && ShowsConnected(x.view.snapshot, o.active.value)
                  && IsScheduled(x.view.schedule, o.revision, o.active.value.expiresAt, ports.steady.value, ports.system.value))
            && (!o.stopping && o.pending.None? && o.active.Some? && o.revision == v.schedule.value.ownerRevision && connected ==>
                  now < v.schedule.value.refresh && now < v.schedule.value.validation ==> x == Exit(v, seen, Fine(false)))
  {
    LostSessionEnds(v, Waiting(v, w), ControlStopping, ports);
    LostSessionEnds(v, Waiting(v, w), MustReconnect, ports);
  }

  // ---------------------------------------------------------------- disconnecting

  /** Nobody else is at the owner, posting is switched off, and the worker takes requests. */
  ghost predicate Quiet(v: View, w: World, ports: Ports) {
    && Alone(w) && Valid(w.owner) && !w.owner.stopping && v.pending.None? && Room(v, 2) && v.nextRequest >= 1
    && !v.snapshot.shuttingDown && !ports.configurationStopping && ports.settingsSaved && ports.queued
  }

  /** The session to revoke: the active one, or else the saved one if it can be read. */
  function AtHand(o: Owner): Option<Session> {
    if o.active.Some? then o.active
    else if o.store.Some? && Decoded(o.store.value).Ok? then Some(Decoded(o.store.value).value)
    else None
  }

  /** The session at hand is taken out, whichever it is. */
  lemma AtHandIsTaken(v: View, w: World, ports: Ports)
    requires Alone(w) && Valid(w.owner) && Idle(w.owner).None? && ports.loading.Loads? && AtHand(w.owner).Some? && v.transaction.None?
    ensures var t, session := AnyTaken(v, w, ports), AtHand(w.owner).value;
            && t.error.None? && t.view == Adopted(v, Transaction(w.owner.nextTransaction, session)) && Alone(t.world)
            && Valid(t.world.owner) && Holds(t.world.owner, w.owner.nextTransaction) && !t.world.owner.stopping
            && Acquire(t.world.owner) == Err(Retry)
  {
    AloneWaits(v, w);
    AloneWaits(v, Waiting(v, w));
    if w.owner.active.Some? {
      LendKeepsValid(w.owner);
    } else {
      CheckoutSavedKeepsValid(w.owner, ports.loading);
    }
  }

  /** Disconnecting has the access token revoked that the user is connected with, or that is saved. */
  lemma RevocationGoesOut(v: View, w: World, ports: Ports)
    requires Quiet(v, w, ports) && v.transaction.None? && v.draft.None? && Idle(w.owner).None? && ports.loading.Loads? && AtHand(w.owner).Some?
    ensures var x := Made(v, w, DisconnectingNow(ports));
            && x.ended == Fine(true) && Underway(x.view, x.world, Revoke) && Room(x.view, 1) && x.view.authorization.None?
            && x.view.snapshot.status.Disconnecting? && x.view.snapshot.login.None? && Acquire(x.world.owner) == Err(Retry)
            && x.view.requests == v.requests + [Request(Some(w.owner.nextTransaction), Revoke, AskRevocation(AtHand(w.owner).value.access))]
  {
    var dropped := v.(authorization := None, deferred := None);
    AloneWaits(v, w);
    AtHandIsTaken(dropped, Waiting(v, w), ports);
    var taken := AnyTaken(dropped, Waiting(v, w), ports);
    assert DisconnectedBy(v, w, ports) == RevokedOrErased(Concealed(taken.view), taken.world, ports);
  }

  /** With no session to revoke the record is just erased, also one that cannot be read. */
  lemma NothingToRevoke(v: View, w: World, ports: Ports)
    requires Quiet(v, w, ports) && v.transaction.None? && v.draft.None? && Idle(w.owner).None? && ports.loading.Loads? && AtHand(w.owner).None?
    ensures var x := Made(v, w, DisconnectingNow(ports));
            && x.view.requests == v.requests && x.view.pending.None? && x.world.owner.active.None?
            && (ports.erased.Done? ==> x.ended == Fine(true) && x.world.owner.store.None? && x.view.snapshot.status.StatusDisconnected?)
            && (ports.erased.Fails? ==> x.ended == Bad(SessionEraseFailed) && x.view.snapshot.status.StatusError?)
  {
    var dropped := v.(authorization := None, deferred := None);
    AloneWaits(v, w);
    AloneWaits(dropped, Waiting(v, w));
    AloneWaits(dropped, Waiting(dropped, Waiting(v, w)));
    AloneWaits(Concealed(dropped), Waiting(dropped, Waiting(dropped, Waiting(v, w))));
  }

  /** A record that cannot be loaded is neither revoked nor erased; the user is told. */
  lemma UnloadableRecordStays(v: View, w: World, ports: Ports)
    requires Quiet(v, w, ports) && v.transaction.None? && Idle(w.owner).None? && w.owner.active.None? && ports.loading.LoadFails?
    ensures var x := Made(v, w, DisconnectingNow(ports));
            x.ended == Bad(SessionLoadFailed) && x.world.owner == w.owner && x.view.requests == v.requests
  {
    var dropped := v.(authorization := None, deferred := None);
    AloneWaits(v, w);
    AloneWaits(dropped, Waiting(v, w));
    AloneWaits(dropped, Waiting(dropped, Waiting(v, w)));
  }

  /** A flow that waits with its pair at hand is given up by revoking that very token. */
  lemma WaitingPairIsRevoked(v: View, w: World, ports: Ports)
    requires Quiet(v, w, ports) && v.transaction.Some? && v.HasCredentials()
    ensures var x := Made(v, w, DisconnectingNow(ports));
            && x.ended == Fine(true) && x.view.transaction == v.transaction && x.world.owner == w.owner
            && x.view.requests == v.requests + [Request(v.transaction, Revoke, AskRevocation(v.draft.value.credentials.value.access))]
  {
    AloneWaits(v, w);
  }

  /** Another party has the session: nothing is done, and the user may try again. */
  lemma BusyOwnerRefuses(v: View, w: World, ports: Ports)
    requires Quiet(v, w, ports) && v.transaction.None? && w.owner.pending.Some?
    ensures var x := Made(v, w, DisconnectingNow(ports));
            x.ended == Bad(ControlBusy) && x.world.owner == w.owner && x.view.requests == v.requests
  {
    var dropped := v.(authorization := None, deferred := None);
    AloneWaits(v, w);
    AloneWaits(dropped, Waiting(v, w));
  }

  /** The session is erased and disconnection shown, with what went wrong with the revocation. */
  ghost predicate DisconnectedBecause(x: Exit, diagnostic: Option<ControlError>) {
    && x.world.owner.active.None? && x.world.owner.pending.None? && x.world.owner.store.None?
    && x.view.transaction.None? && x.view.draft.None? && x.view.pending.None? && x.view.schedule.None?
    && x.view.snapshot.status.StatusDisconnected? && x.view.snapshot.diagnostic == diagnostic && x.view.snapshot.login.None?
    && x.ended == if diagnostic.Some? then Bad(diagnostic.value) else Fine(true)
  }

  lemma RevocationEnds(v: View, w: World, reading: nat, outcome: Result<Success, ApiError>, ports: Ports)
    requires Underway(v, w, Revoke) && Room(v, 1) && v.authorization.None? && !ports.configurationStopping && ports.erased.Done?
    ensures var id := if v.nextRequest > 0 then v.nextRequest - 1 else 0;
            DisconnectedBecause(Made(v, w, Ticking(Some(reading), Arrived(AuthResult(id, OpRevoke, outcome, None)), ports)),
                                if outcome.Err? then Some(AuthenticationFailed)
                                else if outcome.value.Revoked? then None else Some(InvalidResult))
  {
    AloneWaits(v, w);
    var taken := v.(pending := None, accepted := v.accepted + [v.nextRequest - 1]);
    AloneWaits(taken, Waiting(v, w));
  }

  /** A whole disconnection: the token is revoked, and whatever comes of that the session is gone. */
  lemma DisconnectionEnds(v: View, w: World, ports: Ports, reading: nat, outcome: Result<Success, ApiError>, ended: Ports)
    requires Quiet(v, w, ports) && v.transaction.None? && v.draft.None? && Idle(w.owner).None? && ports.loading.Loads? && AtHand(w.owner).Some?
    requires !ended.configurationStopping && ended.erased.Done?
    ensures var x0 := Made(v, w, DisconnectingNow(ports));
            var id := if x0.view.nextRequest > 0 then x0.view.nextRequest - 1 else 0;
            DisconnectedBecause(Made(x0.view, x0.world, Ticking(Some(reading), Arrived(AuthResult(id, OpRevoke, outcome, None)), ended)),
                                if outcome.Err? then Some(AuthenticationFailed)
                                else if outcome.value.Revoked? then None else Some(InvalidResult))
  {
    RevocationGoesOut(v, w, ports);
    var x0 := Made(v, w, DisconnectingNow(ports));
    RevocationEnds(x0.view, x0.world, reading, outcome, ended);
  }

  // ---------------------------------------------------------------- calls out of season

  /** A connection is begun only by a running controller with no flow open, disconnected or after an
      error; each refusal has its cause, and changes nothing. */
  lemma ConnectionIsRefusedIff(v: View, w: World, ports: Ports)
    requires Alone(w)
    ensures var stopping := v.snapshot.shuttingDown || w.owner.stopping || ports.configurationStopping;
            var exhausted := v.snapshot.revision >= 0xFFFF_FFFF_FFFF_FFFE || v.nextRequest >= 0xFFFF_FFFF_FFFF_FFFF;
            var ready := v.snapshot.status.StatusDisconnected? || v.snapshot.status.StatusError?;
            var cause := if stopping then Some(ControlStopping)
                         else if exhausted then Some(ControlExhausted)
                         else if v.pending.Some? || v.transaction.Some? then Some(ControlBusy)
                         else if !ready then Some(InvalidState) else None;
            && (cause.Some? ==> var x := Made(v, w, BeginningConnection(ports));
                                x.ended == Bad(cause.value) && x.view == v && x.world.owner == w.owner)
            && (cause.Some? ==> var x := Made(v, w, BeginningSaved(ports));
                                x.ended == Bad(cause.value) && x.view == v && x.world.owner == w.owner)
            && (cause.None? ==> NotIdle(v, w.owner, ports).None?)
  {
    AloneWaits(v, w);
  }
}
