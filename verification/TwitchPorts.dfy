/** What the Twitch services and the session owner tell their callers. */
module TwitchPorts {
  import opened Outcomes
  import opened Times
  import opened ByteStrings

  datatype Disposition = DoFail | DoRetry | DoReconnect | DoCancel

  datatype ApiErrorCode =
    | InvalidClientId | Unconfigured | InvalidInput | BodyFailed | Transport | HttpStatus
    | InvalidResponse | Internal | ApiCancelled

  datatype HttpErrorCode =
    | InvalidRequest | BodyReadFailed | HttpCancelled | Timeout | NameResolutionFailed | ConnectionFailed
    | TlsFailed | SendingFailed | ReceivingFailed | ResponseTooLarge | ProtocolError
    | UnsupportedEnvironment | InitializationFailed | HttpInternal

  datatype ApiError = ApiError(
    code: ApiErrorCode, disposition: Disposition, retryAfter: Option<nat>,
    httpError: Option<HttpErrorCode>, httpStatus: Option<nat>)
  {
    predicate Status(status: nat) {
      code.HttpStatus? && httpStatus == Some(status)
    }

    predicate ConnectionNeverMade() {
      code.Transport? && httpError.Some?
      && (httpError.value.NameResolutionFailed? || httpError.value.ConnectionFailed? || httpError.value.TlsFailed?)
    }
  }

  /** One call: an answer, an error, or a panic. */
  datatype Answer<+T> = Answered(value: T) | Failure(error: ApiError) | Panicked

  /** Durations count nanoseconds. */
  datatype Identity = Identity(userId: Bytes, login: Bytes, scopes: seq<Bytes>, expiresIn: nat)

  datatype Grant = Grant(access: Bytes, refresh: Bytes, scopes: seq<Bytes>, expiresIn: nat)

  /** A delivery session: a copy of the access token, tied to the owner's revision. */
  datatype Lease = Lease(access: Bytes, userId: Bytes, revision: nat)

  datatype DeliveryErrorCode = NotConnected | Retry | ReconnectRequired | Failed | Cancelled

  const WEEK: nat := 7 * DAY

  /** Delays that are zero or longer than a day are ignored. */
  function UsableDelay(delay: Option<nat>): Option<nat> {
    if delay.Some? && 0 < delay.value <= DAY then delay else None
  }

  function RetryDelay(delay: Option<nat>): (r: nat)
    ensures 0 < r <= DAY
  {
    if UsableDelay(delay).Some? then delay.value else 30 * SECOND
  }

  predicate ValidDuration(duration: nat) {
    0 < duration <= WEEK
  }
}
