/** What the authentication workflow does in one call, as functions of the controller's view, the
    session owner around it, and the answers of the ports. Other parties may use the owner
    before each of the workflow's own lock sections. */
module AuthenticationWorkflow {
  import opened Outcomes
  import opened Times
  import opened ByteStrings
  import opened TwitchSession
  import opened TwitchPorts
  import opened Sessions = SessionOwnerSpec

  datatype ControlError =
    | ControlBusy | InvalidState | DispatchFailed | StaleResult | InvalidResult | AuthorizationExpired
    | AuthenticationFailed | AuthenticationCancelled | MustReconnect | SessionLoadFailed | SessionDecodeFailed
    | SessionStoreFailed | SessionEraseFailed | SettingsSaveFailed | WrongIdentity | ControlStopping
    | ControlExhausted | ControlInternal

  datatype Status =
    | StatusDisconnected | Starting | AwaitingUser | Validating | Refreshing | StatusConnected
    | Disconnecting | StatusError | StatusShuttingDown

  datatype Phase = Start | Poll | ValidateInitial | ValidateSaved | ValidateActive | ValidateRotated | Refresh | Revoke

  datatype Operation = OpStart | OpPoll | OpValidate | OpRefresh | OpRevoke

  function OperationOf(phase: Phase): Operation {
    match phase
    case Start => OpStart
    case Poll => OpPoll
    case Refresh => OpRefresh
    case Revoke => OpRevoke
    case _ => OpValidate
  }

  function StatusOf(phase: Phase): Status {
    match phase
    case Start => Starting
    case Poll => AwaitingUser
    case Refresh => Status.Refreshing
    case Revoke => Disconnecting
    case _ => Validating
  }

  predicate Validates(phase: Phase) {
    phase.ValidateInitial? || phase.ValidateSaved? || phase.ValidateActive? || phase.ValidateRotated?
  }

  datatype Snapshot = Snapshot(
    status: Status, login: Option<Bytes>, userCode: Option<Bytes>, uri: Option<string>,
    authorizationExpiresAt: Option<int>, accessExpiresAt: Option<int>,
    diagnostic: Option<ControlError>, revision: nat, shuttingDown: bool)

  datatype InFlight = InFlight(id: nat, phase: Phase)

  datatype Authorization = Authorization(code: Option<Bytes>, expires: nat, nextPoll: nat, interval: nat)

  datatype Credentials = Credentials(access: Bytes, refresh: Bytes, expiresAt: int)

  datatype User = User(id: Bytes, login: Bytes)

  datatype Draft = Draft(credentials: Option<Credentials>, identity: Option<User>, rotated: bool)

  datatype Deferred = Deferred(phase: Phase, deadline: nat)

  datatype Schedule = Schedule(ownerRevision: nat, validation: nat, refresh: nat)

  datatype Device = Device(code: Bytes, userCode: Bytes, uri: string, expiresIn: nat, interval: nat)

  datatype Success =
    | Started(device: Device)
    | StillPending(code: Bytes)
    | Granted(grant: Grant)
    | Validated(credentials: Credentials, identity: Identity)
    | Renewed(renewal: Grant)
    | Revoked

  datatype Secret = DeviceCode(code: Bytes) | Kept(credentials: Credentials)

  datatype AuthResult = AuthResult(id: nat, operation: Operation, outcome: Result<Success, ApiError>, retained: Option<Secret>)

  /** What the ports answer during one call: whether the worker takes a request, the clocks'
      readings, which may panic, and the store. */
  datatype Ports = Ports(
    queued: bool, steady: Option<nat>, system: Option<int>, systemAgain: Option<int>,
    loading: LoadAnswer, persisted: StorageAnswer, erased: StorageAnswer, settingsSaved: bool, configurationStopping: bool)

  datatype Polled = Nothing | Arrived(result: AuthResult) | PollPanicked

  /** How a call ends. */
  datatype Ended = Fine(changed: bool) | Bad(error: ControlError) | Unwound

  const URI_PREFIX := "https://www.twitch.tv/activate"

  predicate ValidUri(uri: string) {
    && |uri| <= 2048 && URI_PREFIX <= uri && (|uri| == |URI_PREFIX| || uri[|URI_PREFIX|] == '?')
    && forall i :: 0 <= i < |uri| ==> '!' <= uri[i] <= '~' && uri[i] != '@' && uri[i] != '#' && uri[i] != '\\'
  }

  predicate ValidDevice(device: Device) {
    && ValidToken(device.code)
    && 0 < |device.userCode| <= 64 && (forall i :: 0 <= i < |device.userCode| ==> device.userCode[i] >= 0x20 && device.userCode[i] != 0x7f)
    && ValidUri(device.uri)
    && ValidDuration(device.expiresIn) && 0 < device.interval <= 300 * SECOND
  }

  predicate ValidGrant(grant: Grant) {
    ValidToken(grant.access) && ValidToken(grant.refresh) && grant.scopes == [CHAT_SCOPE] && ValidDuration(grant.expiresIn)
  }

  function Mapped(error: OwnerError): ControlError {
    match error
    case Busy => ControlBusy
    case NoSession => InvalidState
    case LoadFailed => SessionLoadFailed
    case DecodeFailed => SessionDecodeFailed
    case EncodeFailed => SessionStoreFailed
    case StoreFailed => SessionStoreFailed
    case EraseFailed => SessionEraseFailed
    case IdentityMismatch => WrongIdentity
    case OwnerStopping => ControlStopping
    case RevisionExhausted => ControlExhausted
    case StaleTransaction => ControlInternal
  }

  function Saturated(revision: nat): nat {
    if revision < MAX_U64 then revision + 1 else revision
  }

  /** A reading of the clock that may panic, and an addition that may not fit. */
  datatype Deadline<T> = At(time: T) | TooLate | NoClock

  function ValidityOf(grant: Grant, system: Option<int>): Deadline<Credentials> {
    if !ValidGrant(grant) then TooLate
    else if system.None? then NoClock
    else
      var expiry := AddDuration(system.value, grant.expiresIn);
      if expiry.None? then TooLate else At(Credentials(grant.access, grant.refresh, expiry.value))
  }

  function Less(time: nat, margin: nat): nat {
    if time < margin then 0 else time - margin
  }

  /** When to validate and refresh next. The owner's revision is filled in on publication. */
  function ScheduleFor(expiry: int, steady: Option<nat>, system: Option<int>): Deadline<Schedule> {
    if steady.None? || system.None? then NoClock
    else
      var remaining: nat := if expiry > system.value then expiry - system.value else 0;
      var validation, refresh := AddInstant(steady.value, 3600 * SECOND), AddInstant(steady.value, Less(remaining, 300 * SECOND));
      if validation.None? || refresh.None? then TooLate else At(Schedule(0, validation.value, refresh.value))
  }

  // ---------------------------------------------------------------- the state of a call

  /** What the worker is told to do, with the secret it needs. */
  datatype Command =
    | AskDevice
    | AskPoll(code: Bytes)
    | AskValidation(credentials: Credentials)
    | AskRefresh(credentials: Credentials)
    | AskRevocation(access: Bytes)

  /** A request handed to the worker, under the transaction open then. */
  datatype Request = Request(transaction: Option<nat>, phase: Phase, command: Command)

  /** The controller's fields, followed by the requests it sent and the results it accepted. */
  datatype View = View(
    snapshot: Snapshot, transaction: Option<nat>, draft: Option<Draft>, authorization: Option<Authorization>,
    pending: Option<InFlight>, deferred: Option<Deferred>, schedule: Option<Schedule>, nextRequest: nat,
    requests: seq<Request>, accepted: seq<nat>)
  {
    predicate Rotated() {
      draft.Some? && draft.value.rotated
    }

    predicate HasCredentials() {
      draft.Some? && draft.value.credentials.Some?
    }
  }

  datatype Exit = Exit(view: View, world: World, ended: Ended)

  ghost function Waiting(v: View, w: World): World {
    Yielded(w, if v.transaction.Some? then v.transaction.value else 0)
  }

  function Bumped(s: Snapshot): Snapshot {
    s.(revision := Saturated(s.revision))
  }

  function Cleared(s: Snapshot): Snapshot {
    s.(login := None, userCode := None, uri := None, authorizationExpiresAt := None, accessExpiresAt := None)
  }

  function Concealed(v: View): View {
    v.(snapshot := Cleared(v.snapshot))
  }

  /** The flow is forgotten and the snapshot shows how it ended. */
  function Closed(v: View, status: Status, diagnostic: Option<ControlError>): View {
    v.(draft := None, authorization := None, pending := None, deferred := None, schedule := None,
       snapshot := Bumped(Cleared(v.snapshot).(status := status, diagnostic := diagnostic)))
  }

  // ---------------------------------------------------------------- ends of a flow

  datatype Freed = Freed(world: World, error: Option<OwnerError>)

  ghost function Released(v: View, w: World, erase: bool, ports: Ports): Freed {
    if v.transaction.None? then Freed(w, None)
    else
      var seen := Waiting(v, w);
      var (after, error) := Discard(seen.owner, v.transaction.value, erase, ports.erased);
      Freed(seen.(owner := after), error)
  }

  /** What is shown once the transaction is given up. A cleanup error replaces the cause only
      if an erasure was asked for. */
  ghost function FailedWith(v: View, freed: Freed, error: ControlError, erase: bool): Exit {
    var shown := if erase && freed.error.Some? then Mapped(freed.error.value) else error;
    Exit(Closed(v.(transaction := None), StatusError, Some(shown)), freed.world, Bad(shown))
  }

  ghost function Failing(v: View, w: World, error: ControlError, erase: bool, ports: Ports): Exit {
    FailedWith(v, Released(v, w, erase, ports), error, erase)
  }

  /** The saved session is erased without a transaction. */
  ghost function ErasedIdle(v: View, w: World, ports: Ports): Freed {
    var seen := Waiting(v, w);
    var (after, error) := EraseSaved(seen.owner, ports.erased);
    Freed(seen.(owner := after), error)
  }

  ghost function FinishedWith(v: View, freed: Freed, diagnostic: Option<ControlError>): Exit {
    var shown := if freed.error.Some? then Some(Mapped(freed.error.value)) else diagnostic;
    Exit(Closed(v.(transaction := None), if shown == Some(SessionEraseFailed) then StatusError else StatusDisconnected, shown),
         freed.world, if shown.Some? then Bad(shown.value) else Fine(true))
  }

  ghost function Finishing(v: View, w: World, diagnostic: Option<ControlError>, ports: Ports): Exit {
    FinishedWith(v, if v.transaction.Some? then Released(v, w, true, ports) else ErasedIdle(v, w, ports), diagnostic)
  }

  // ---------------------------------------------------------------- requests

  /** The worker did not take the request. */
  ghost function DispatchRefused(v: View, w: World, phase: Phase, ports: Ports): Exit {
    if phase.Revoke? then Finishing(v, w, Some(DispatchFailed), ports)
    else Failing(v, w, DispatchFailed, v.Rotated(), ports)
  }

  ghost function Asking(v: View, w: World, phase: Phase, command: Command, ports: Ports): Exit {
    var asked := v.(nextRequest := v.nextRequest + 1, pending := Some(InFlight(v.nextRequest, phase)));
    if v.pending.Some? || v.nextRequest >= MAX_U64 then Failing(v, w, ControlExhausted, false, ports)
    else if !ports.queued then DispatchRefused(asked, w, phase, ports)
    else
      Exit(asked.(snapshot := Bumped(v.snapshot.(status := StatusOf(phase), diagnostic := None)),
                  requests := v.requests + [Request(v.transaction, phase, command)]), w, Fine(true))
  }

  ghost function AskingWithCredentials(v: View, w: World, phase: Phase, ports: Ports): Exit {
    if !v.HasCredentials() then Failing(v, w, InvalidState, false, ports)
    else
      var credentials := v.draft.value.credentials.value;
      Asking(v.(draft := Some(v.draft.value.(credentials := None))), w, phase,
             if phase.Refresh? then AskRefresh(credentials) else AskValidation(credentials), ports)
  }

  // ---------------------------------------------------------------- calls that open a flow

  function NotRunning(v: View, o: Owner, ports: Ports): Option<ControlError> {
    if v.snapshot.shuttingDown || o.stopping || ports.configurationStopping then Some(ControlStopping)
    else if v.snapshot.revision >= MAX_U64 - 1 || v.nextRequest >= MAX_U64 then Some(ControlExhausted)
    else None
  }

  function NotIdle(v: View, o: Owner, ports: Ports): Option<ControlError> {
    if NotRunning(v, o, ports).Some? then NotRunning(v, o, ports)
    else if v.pending.Some? || v.transaction.Some? then Some(ControlBusy)
    else if !v.snapshot.status.StatusDisconnected? && !v.snapshot.status.StatusError? then Some(InvalidState)
    else None
  }

  function Adopted(v: View, tx: Transaction): View {
    v.(transaction := Some(tx.id),
       draft := Some(Draft(Some(Credentials(tx.session.access, tx.session.refresh, tx.session.expiresAt)),
                           Some(User(tx.session.userId, tx.session.login)), false)))
  }

  ghost function ConnectionBegun(v: View, w: World, ports: Ports): Exit {
    var first := Waiting(v, w);
    if NotIdle(v, first.owner, ports).Some? then Exit(v, first, Bad(NotIdle(v, first.owner, ports).value))
    else
      var seen := Waiting(v, first);
      var (after, reserved) := ReserveNew(seen.owner);
      if reserved.Err? then Exit(v, seen, Bad(Mapped(reserved.error)))
      else Asking(Concealed(v.(transaction := Some(reserved.value))), seen.(owner := after), Start, AskDevice, ports)
  }

  ghost function SavedConnectionBegun(v: View, w: World, ports: Ports): Exit {
    var first := Waiting(v, w);
    if NotIdle(v, first.owner, ports).Some? then Exit(v, first, Bad(NotIdle(v, first.owner, ports).value))
    else
      var seen := Waiting(v, first);
      var (after, checked) := CheckoutSaved(seen.owner, ports.loading);
      if checked.Err? then Failing(v, seen, Mapped(checked.error), false, ports)
      else if checked.value.None? then Exit(v, seen, Fine(false))
      else AskingWithCredentials(Concealed(Adopted(v, checked.value.value)), seen.(owner := after), ValidateSaved, ports)
  }

  datatype Take = Take(view: View, world: World, error: Option<OwnerError>)

  ghost function ActiveTaken(v: View, w: World): Take {
    var seen := Waiting(v, w);
    var (after, checked) := CheckoutActive(seen.owner);
    if checked.Err? then Take(v, seen, Some(checked.error)) else Take(Adopted(v, checked.value), seen.(owner := after), None)
  }

  ghost function SavedTaken(v: View, w: World, ports: Ports): Take {
    var seen := Waiting(v, w);
    var (after, checked) := CheckoutSaved(seen.owner, ports.loading);
    if checked.Err? then Take(v, seen, Some(checked.error))
    else if checked.value.None? then Take(v, seen, None)
    else Take(Adopted(v, checked.value.value), seen.(owner := after), None)
  }

  /** Whatever session there is to revoke: the active one, or the saved one if it can be read. */
  ghost function AnyTaken(v: View, w: World, ports: Ports): Take {
    var active := ActiveTaken(v, w);
    if active.error != Some(NoSession) then active
    else
      var saved := SavedTaken(v, active.world, ports);
      if saved.error == Some(OwnerError.DecodeFailed) then saved.(error := None) else saved
  }

  /** Revokes the token that is at hand, or just erases. */
  ghost function RevokedOrErased(v: View, w: World, ports: Ports): Exit {
    if v.HasCredentials()
    then Asking(v.(draft := Some(v.draft.value.(credentials := None))), w, Revoke, AskRevocation(v.draft.value.credentials.value.access), ports)
    else Finishing(v, w, None, ports)
  }

  ghost function DisconnectedBy(v: View, w: World, ports: Ports): Exit {
    var first := Waiting(v, w);
    if NotRunning(v, first.owner, ports).Some? then Exit(v, first, Bad(NotRunning(v, first.owner, ports).value))
    else if v.pending.Some? then Exit(v, first, Bad(ControlBusy))
    else if !ports.settingsSaved then Exit(v, first, Bad(SettingsSaveFailed))
    else
      var dropped := v.(authorization := None, deferred := None);
      if v.transaction.Some? then RevokedOrErased(Concealed(dropped), first, ports)
      else
        var taken := AnyTaken(dropped, first, ports);
        if taken.error.Some? then Exit(taken.view, taken.world, Bad(Mapped(taken.error.value)))
        else RevokedOrErased(Concealed(taken.view), taken.world, ports)
  }

  // ---------------------------------------------------------------- results

  ghost function DeviceAccepted(v: View, w: World, device: Device, ports: Ports): Exit {
    if !ValidDevice(device) then Failing(v, w, InvalidResult, false, ports)
    else if ports.steady.None? || ports.system.None? then Exit(v, w, Unwound)
    else
      var expires, nextPoll := AddInstant(ports.steady.value, device.expiresIn), AddInstant(ports.steady.value, device.interval);
      var absolute := AddDuration(ports.system.value, device.expiresIn);
      if expires.None? || nextPoll.None? || absolute.None? then Failing(v, w, InvalidResult, false, ports)
      else
        var shown := v.snapshot.(status := AwaitingUser, userCode := Some(device.userCode), uri := Some(device.uri),
                                 authorizationExpiresAt := Some(absolute.value), diagnostic := None);
        Exit(v.(authorization := Some(Authorization(Some(device.code), expires.value, nextPoll.value, device.interval)),
                snapshot := Bumped(shown)), w, Fine(true))
  }

  /** The device code is back: poll again no sooner than the interval says. */
  ghost function PollDeferred(v: View, w: World, code: Bytes, retry: Option<nat>, ports: Ports): Exit {
    if !ValidToken(code) then Failing(v, w, InvalidResult, false, ports)
    else if ports.steady.None? then Exit(v, w, Unwound)
    else if v.authorization.None? then Failing(v, w, InvalidState, false, ports)
    else
      var interval := v.authorization.value.interval;
      var deadline := AddInstant(ports.steady.value, if retry.Some? && retry.value > interval then retry.value else interval);
      if deadline.None? then Failing(v, w, InvalidResult, false, ports)
      else
        var shown := v.snapshot.(status := AwaitingUser, diagnostic := if retry.Some? then Some(AuthenticationFailed) else None);
        Exit(v.(authorization := Some(v.authorization.value.(code := Some(code), nextPoll := deadline.value)),
                snapshot := Bumped(shown)), w, Fine(true))
  }

  ghost function GrantAccepted(v: View, w: World, grant: Grant, ports: Ports): Exit {
    var open := Concealed(v.(authorization := None));
    match ValidityOf(grant, ports.system)
    case NoClock => Exit(open, w, Unwound)
    case TooLate => Failing(open, w, InvalidResult, false, ports)
    case At(credentials) =>
      AskingWithCredentials(open.(draft := Some(Draft(Some(credentials), None, false))), w, ValidateInitial, ports)
  }

  function ShownConnected(v: View, connected: Connected, next: Schedule): View {
    var shown := Cleared(v.snapshot).(status := StatusConnected, login := Some(connected.login),
                                      accessExpiresAt := Some(connected.expiresAt), diagnostic := None);
    v.(schedule := Some(next.(ownerRevision := connected.revision)), draft := None, authorization := None, deferred := None,
       snapshot := Bumped(shown))
  }

  ghost function SessionPublished(v: View, w: World, session: Session, rotated: bool, ports: Ports): Exit {
    if v.transaction.None? then Failing(v, w, InvalidState, false, ports)
    else
      match ScheduleFor(session.expiresAt, ports.steady, ports.systemAgain)
      case NoClock => Exit(v, w, Unwound)
      case TooLate => Failing(v, w, InvalidResult, rotated, ports)
      case At(next) =>
        var seen := Waiting(v, w);
        var (after, committed) := Commit(seen.owner, v.transaction.value, session, ports.persisted);
        if committed.Err? then Failing(v, seen.(owner := after), Mapped(committed.error), rotated, ports)
        else Exit(ShownConnected(v.(transaction := None), committed.value, next), seen.(owner := after), Fine(true))
  }

  function ValidatedSession(credentials: Credentials, identity: Identity, at: int): Session {
    Session(credentials.access, credentials.refresh, at, identity.userId, identity.login, identity.scopes)
  }

  ghost function ValidationAccepted(v: View, w: World, credentials: Credentials, identity: Identity, ports: Ports): Exit {
    if v.draft.None? then Failing(v, w, InvalidState, false, ports)
    else if v.draft.value.identity.Some? && v.draft.value.identity.value.id != identity.userId
    then Failing(v, w, WrongIdentity, true, ports)
    else if !ValidDuration(identity.expiresIn) then Failing(v, w, InvalidResult, true, ports)
    else if ports.system.None? then Exit(v, w, Unwound)
    else
      var expiry := AddDuration(ports.system.value, identity.expiresIn);
      if expiry.None? then Failing(v, w, InvalidResult, true, ports)
      else
        var session := ValidatedSession(credentials, identity, expiry.value);
        if Encoded(session).Err? then Failing(v, w, InvalidResult, true, ports)
        else SessionPublished(v, w, session, v.Rotated(), ports)
  }

  /** A granted refresh: persist the rotation first, then validate it. */
  ghost function RotationAdopted(v: View, w: World, credentials: Credentials, user: User, ports: Ports): Exit {
    var session := Session(credentials.access, credentials.refresh, credentials.expiresAt, user.id, user.login, [CHAT_SCOPE]);
    if v.transaction.None? then Failing(v, w, InvalidState, true, ports)
    else
      var seen := Waiting(v, w);
      var (after, error) := PersistPending(seen.owner, v.transaction.value, session, ports.persisted);
      if error.Some? then Failing(v, seen.(owner := after), Mapped(error.value), true, ports)
      else
        AskingWithCredentials(v.(draft := Some(Draft(Some(credentials), Some(user), true))), seen.(owner := after), ValidateRotated, ports)
  }

  ghost function RotationAccepted(v: View, w: World, grant: Grant, ports: Ports): Exit {
    if v.draft.None? then Failing(v, w, InvalidState, true, ports)
    else
      var rotating := v.(draft := Some(v.draft.value.(rotated := true)));
      if v.draft.value.identity.None? then Failing(rotating, w, InvalidState, true, ports)
      else
        match ValidityOf(grant, ports.system)
        case NoClock => Exit(rotating, w, Unwound)
        case TooLate => Failing(rotating, w, InvalidResult, true, ports)
        case At(credentials) => RotationAdopted(rotating, w, credentials, v.draft.value.identity.value, ports)
  }

  function Deferring(v: View, phase: Phase, deadline: nat, shown: ControlError): View {
    v.(deferred := Some(Deferred(phase, deadline)),
       snapshot := Bumped(v.snapshot.(status := StatusOf(phase), diagnostic := Some(shown))))
  }

  /** The same request again after a bounded delay. */
  ghost function RetryAwaited(v: View, w: World, phase: Phase, delay: nat, shown: ControlError, ports: Ports): Exit {
    if ports.steady.None? then Exit(v, w, Unwound)
    else
      var deadline := AddInstant(ports.steady.value, delay);
      if deadline.None? then Failing(v, w, InvalidResult, false, ports)
      else Exit(Deferring(v, phase, deadline.value, shown), w, Fine(true))
  }

  /** A failed validation or refresh whose credentials came back: wait, refresh, or give up. */
  ghost function Retried(v: View, w: World, phase: Phase, error: ApiError, credentials: Credentials, shown: ControlError, ports: Ports): Exit {
    if v.draft.None? then Failing(v, w, InvalidState, false, ports)
    else if !ValidToken(credentials.access) || !ValidToken(credentials.refresh) then Failing(v, w, InvalidResult, true, ports)
    else
      var kept := v.(draft := Some(v.draft.value.(credentials := Some(credentials))));
      if error.disposition.DoRetry? then RetryAwaited(kept, w, phase, RetryDelay(error.retryAfter), shown, ports)
      else if error.disposition.DoReconnect? && (phase.ValidateSaved? || phase.ValidateActive?)
      then AskingWithCredentials(kept, w, Phase.Refresh, ports)
      else Failing(kept, w, shown, phase.Refresh? || phase.ValidateRotated?, ports)
  }

  function ShownError(disposition: Disposition): ControlError {
    match disposition
    case DoCancel => AuthenticationCancelled
    case DoReconnect => MustReconnect
    case _ => AuthenticationFailed
  }

  ghost function FailureHandled(v: View, w: World, phase: Phase, error: ApiError, retained: Option<Secret>, ports: Ports): Exit {
    if phase.Revoke? then Finishing(v, w, Some(AuthenticationFailed), ports)
    else if phase.Poll? && error.disposition.DoRetry? then
      if retained.None? || !retained.value.DeviceCode? then Failing(v, w, InvalidResult, false, ports)
      else PollDeferred(v, w, retained.value.code, Some(RetryDelay(error.retryAfter)), ports)
    else if Validates(phase) || phase.Refresh? then
      if retained.None? || !retained.value.Kept? then Failing(v, w, InvalidResult, phase.Refresh? || phase.ValidateRotated?, ports)
      else Retried(v, w, phase, error, retained.value.credentials, ShownError(error.disposition), ports)
    else Failing(v, w, ShownError(error.disposition), false, ports)
  }

  /** A success of the right operation, by phase. */
  ghost function SuccessHandled(v: View, w: World, phase: Phase, success: Success, ports: Ports): Exit {
    if phase.Start? && success.Started? then DeviceAccepted(v, w, success.device, ports)
    else if phase.Poll? && success.StillPending? then PollDeferred(v, w, success.code, None, ports)
    else if phase.Poll? && success.Granted? then GrantAccepted(v, w, success.grant, ports)
    else if Validates(phase) && success.Validated? then ValidationAccepted(v, w, success.credentials, success.identity, ports)
    else if phase.Refresh? && success.Renewed? then RotationAccepted(v, w, success.renewal, ports)
    else if phase.Revoke? then Finishing(v, w, if success.Revoked? then None else Some(InvalidResult), ports)
    else Failing(v, w, InvalidResult, phase.ValidateRotated?, ports)
  }

  /** A result that does not fit the request in flight. */
  ghost function ResultRefused(v: View, w: World, phase: Phase, ports: Ports): Exit {
    if phase.Revoke? then Finishing(v, w, Some(InvalidResult), ports)
    else Failing(v, w, InvalidResult, phase.ValidateRotated?, ports)
  }

  ghost function ResultHandled(v: View, w: World, result: AuthResult, ports: Ports): Exit {
    if v.pending.None? || v.pending.value.id != result.id then Exit(v, w, Bad(StaleResult))
    else
      var phase := v.pending.value.phase;
      var taken := v.(pending := None, accepted := v.accepted + [result.id]);
      if OperationOf(phase) != result.operation then ResultRefused(taken, w, phase, ports)
      else
        match result.outcome
        case Err(error) => FailureHandled(taken, w, phase, error, result.retained, ports)
        case Ok(success) =>
          if result.retained.Some? then ResultRefused(taken, w, phase, ports)
          else SuccessHandled(taken, w, phase, success, ports)
  }

  // ---------------------------------------------------------------- the clock

  /** Borrows the active session to refresh or validate it. */
  ghost function CheckedUp(v: View, w: World, phase: Phase, ports: Ports): Exit {
    var taken := ActiveTaken(v, w);
    if taken.error == Some(Busy) then Exit(v, taken.world, Fine(false))
    else if taken.error.Some? then Failing(v, taken.world, Mapped(taken.error.value), false, ports)
    else AskingWithCredentials(Concealed(taken.view), taken.world, phase, ports)
  }

  ghost function OwnerFollowed(v: View, w: World, now: nat, connected: Connected, ports: Ports): Exit
    requires v.schedule.Some?
  {
    var known := v.schedule.value.ownerRevision == connected.revision;
    if !v.snapshot.status.StatusConnected? && known then Exit(ShownConnected(v, connected, v.schedule.value), w, Fine(true))
    else if !v.snapshot.status.StatusConnected? || !known then
      match ScheduleFor(connected.expiresAt, ports.steady, ports.system)
      case NoClock => Exit(v, w, Unwound)
      case TooLate => Failing(v, w, InvalidResult, false, ports)
      case At(times) => Exit(ShownConnected(v, connected, times), w, Fine(true))
    else if now < v.schedule.value.refresh && now < v.schedule.value.validation then Exit(v, w, Fine(false))
    else CheckedUp(v, w, if now >= v.schedule.value.refresh then Phase.Refresh else ValidateActive, ports)
  }

  /** A connection under the schedule: follow the owner, or start a validation or refresh. */
  ghost function ConnectedTicked(v: View, w: World, now: nat, ports: Ports): Exit
    requires v.schedule.Some?
  {
    var seen := Waiting(v, w);
    match Observe(seen.owner)
    case Disconnected => Failing(v, seen, MustReconnect, false, ports)
    case ShuttingDown => Failing(v, seen, ControlStopping, false, ports)
    case Updating =>
      if v.snapshot.status.Validating? then Exit(v, seen, Fine(false))
      else Exit(v.(snapshot := Bumped(v.snapshot.(status := Validating, login := None, accessExpiresAt := None))), seen, Fine(true))
    case Active(connected) => OwnerFollowed(v, seen, now, connected, ports)
  }

  /** An open flow with nothing in flight: retry when the deadline has come, or poll. */
  ghost function FlowTicked(v: View, w: World, now: nat, ports: Ports): Exit
    requires v.deferred.Some? || v.authorization.Some?
  {
    if v.deferred.Some? then
      if now < v.deferred.value.deadline then Exit(v, w, Fine(false))
      else AskingWithCredentials(v.(deferred := None), w, v.deferred.value.phase, ports)
    else if now < v.authorization.value.nextPoll then Exit(v, w, Fine(false))
    else if v.authorization.value.code.None? then Failing(v, w, InvalidState, false, ports)
    else Asking(v.(authorization := Some(v.authorization.value.(code := None))), w, Poll, AskPoll(v.authorization.value.code.value), ports)
  }

  ghost function InnerTicked(v: View, w: World, reading: Option<nat>, polled: Polled, ports: Ports): Exit {
    if reading.None? then Exit(v, w, Unwound)
    else if v.authorization.Some? && reading.value >= v.authorization.value.expires
    then Failing(v, w, AuthorizationExpired, false, ports)
    else
      match polled
      case PollPanicked => Exit(v, w, Unwound)
      case Arrived(result) => ResultHandled(v, w, result, ports)
      case Nothing =>
        if v.pending.Some? then Exit(v, w, Fine(false))
        else if v.deferred.Some? || v.authorization.Some? then FlowTicked(v, w, reading.value, ports)
        else if v.schedule.None? || (!v.snapshot.status.StatusConnected? && !v.snapshot.status.Validating?) then Exit(v, w, Fine(false))
        else ConnectedTicked(v, w, reading.value, ports)
  }

  /** A panic of any port ends the flow like an error. */
  ghost function PanicCaught(exit: Exit, ports: Ports): Exit {
    if !exit.ended.Unwound? then exit
    else if exit.view.snapshot.status.Disconnecting? then Finishing(exit.view, exit.world, Some(ControlInternal), ports)
    else Failing(exit.view, exit.world, ControlInternal, exit.view.Rotated(), ports)
  }

  ghost function Ticked(v: View, w: World, reading: Option<nat>, polled: Polled, ports: Ports): Exit {
    var first := Waiting(v, w);
    if NotRunning(v, first.owner, ports).Some? then Exit(v, first, Bad(NotRunning(v, first.owner, ports).value))
    else PanicCaught(InnerTicked(v, first, reading, polled, ports), ports)
  }

  /** The end of everything: no transaction, no session, and no way to open one. */
  ghost function Stopped(v: View, w: World, diagnostic: Option<ControlError>): Exit {
    var seen := Waiting(v, w);
    var closed := Closed(v.(transaction := None), StatusShuttingDown, diagnostic);
    Exit(closed.(snapshot := closed.snapshot.(shuttingDown := true)), seen.(owner := Shutdown(seen.owner)), Fine(true))
  }

  /** An explicit disconnect in flight is finished first. */
  ghost function ShutDown(v: View, w: World, ports: Ports): Exit {
    if v.snapshot.shuttingDown then Exit(v, w, Fine(false))
    else if v.snapshot.status.Disconnecting? then
      var finished := Finishing(v, w, None, ports);
      Stopped(finished.view, finished.world, if finished.ended.Bad? then Some(finished.ended.error) else None)
    else Stopped(v, w, None)
  }

  // ---------------------------------------------------------------- runs

  datatype Call =
    | BeginningConnection(ports: Ports)
    | BeginningSaved(ports: Ports)
    | Ticking(reading: Option<nat>, polled: Polled, ports: Ports)
    | DisconnectingNow(ports: Ports)
    | StoppingNow(ports: Ports)

  ghost function Made(v: View, w: World, call: Call): Exit {
    match call
    case BeginningConnection(ports) => ConnectionBegun(v, w, ports)
    case BeginningSaved(ports) => SavedConnectionBegun(v, w, ports)
    case Ticking(reading, polled, ports) => Ticked(v, w, reading, polled, ports)
    case DisconnectingNow(ports) => DisconnectedBy(v, w, ports)
    case StoppingNow(ports) => ShutDown(v, w, ports)
  }

  /** The calls one after the other. */
  ghost function MadeAll(v: View, w: World, calls: seq<Call>): Exit {
    if calls == [] then Exit(v, w, Fine(false))
    else
      var before := MadeAll(v, w, calls[..|calls| - 1]);
      Made(before.view, before.world, calls[|calls| - 1])
  }

  const FRESH: View :=
    View(Snapshot(StatusDisconnected, None, None, None, None, None, None, 1, false), None, None, None, None, None, None, 1, [], [])
}
