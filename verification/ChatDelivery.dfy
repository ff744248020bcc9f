/** Posting one message to Twitch chat: a session lease, at most two calls, and what each
    answer means. The ports' answers and the stop token's readings are given as a script. */
module ChatDelivery {
  import opened Outcomes
  import opened Times
  import opened UploadJobs
  import opened UploadEntries
  import opened TwitchPorts
  import TwitchSession

  datatype SessionAnswer =
    | Granted(lease: Lease)
    | Refused(code: DeliveryErrorCode, retryAfter: Option<nat>)
    | SessionPanicked

  /** One call of the chat endpoint: what it answers, and whether the message got through. */
  datatype SendAnswer =
    | Receipt(receipt: TwitchReceipt, delivered: bool)
    | Error(error: ApiError, delivered: bool)
    | SendPanicked(delivered: bool)

  datatype Script = Script(stops: nat -> bool, acquired: SessionAnswer, sends: nat -> SendAnswer, recovered: SessionAnswer)

  datatype ChatError = InvalidMessage | NoConnection | MustReconnect | SessionFailed | SendFailed

  datatype ChatResult =
    | Sent(receipt: TwitchReceipt)
    | Dropped(receipt: TwitchReceipt)
    | ResultRetryAfter(delay: nat)
    | ResultFailed(error: ChatError)
    | Unconfirmed
    | ResultCancelled

  /** A result and the leases used for the calls made, in order. */
  datatype Delivery = Delivery(result: ChatResult, leases: seq<Lease>)

  // ---------------------------------------------------------------- decisions

  function Utf8Length(text: string): nat {
    if text == [] then 0
    else
      var c := text[|text| - 1] as int;
      Utf8Length(text[..|text| - 1]) + (if c < 0x80 then 1 else if c < 0x800 then 2 else if c < 0x1_0000 then 3 else 4)
  }

  predicate ValidMessage(message: string) {
    && 0 < |message| <= 500 && Utf8Length(message) <= 2000
    && forall i :: 0 <= i < |message| ==> message[i] >= ' ' && message[i] != '\U{7f}'
  }

  predicate ValidLease(lease: Lease) {
    lease.revision != 0 && TwitchSession.ValidUserId(lease.userId) && TwitchSession.ValidToken(lease.access)
  }

  function SessionFailure(code: DeliveryErrorCode, retryAfter: Option<nat>): ChatResult {
    match code
    case Retry => ResultRetryAfter(RetryDelay(retryAfter))
    case Cancelled => ResultCancelled
    case NotConnected => ResultFailed(NoConnection)
    case ReconnectRequired => ResultFailed(MustReconnect)
    case Failed => ResultFailed(SessionFailed)
  }

  function SendFailure(error: ApiError): ChatResult {
    if error.disposition.DoRetry? && (error.ConnectionNeverMade() || error.Status(429)) then ResultRetryAfter(RetryDelay(error.retryAfter))
    else if error.code.HttpStatus? && error.httpStatus.Some? && 400 <= error.httpStatus.value < 500
            && error.httpStatus.value != 408 then ResultFailed(SendFailed)
    else Unconfirmed
  }

  function ReceiptResult(receipt: TwitchReceipt): ChatResult {
    if !receipt.Valid() then Unconfirmed
    else if receipt.status.Sent? then ChatResult.Sent(receipt)
    else Dropped(receipt)
  }

  /** The attempts from `attempt` on, with `lease`; `first` is the lease that was acquired. */
  function Attempts(script: Script, attempt: nat, lease: Lease, first: Lease): Delivery
    requires attempt < 2
    decreases 2 - attempt
  {
    if script.stops(1 + 2 * attempt) then Delivery(ResultCancelled, [])
    else
      var answer := script.sends(attempt);
      if script.stops(2 + 2 * attempt) || answer.SendPanicked? then Delivery(Unconfirmed, [lease])
      else if answer.Receipt? then Delivery(ReceiptResult(answer.receipt), [lease])
      else if !answer.error.Status(401) then Delivery(SendFailure(answer.error), [lease])
      else if attempt == 1 then Delivery(ResultFailed(MustReconnect), [lease])
      else
        match script.recovered
        case Refused(code, retryAfter) => Delivery(SessionFailure(code, retryAfter), [lease])
        case SessionPanicked => Delivery(ResultFailed(SessionFailed), [lease])
        case Granted(renewed) =>
          if !ValidLease(renewed) || renewed.userId != first.userId || renewed.revision < first.revision
          then Delivery(ResultFailed(MustReconnect), [lease])
          else
            var rest := Attempts(script, attempt + 1, renewed, first);
            Delivery(rest.result, [lease] + rest.leases)
  }

  function Delivering(script: Script, message: string): Delivery {
    if script.stops(0) then Delivery(ResultCancelled, [])
    else if !ValidMessage(message) then Delivery(ResultFailed(InvalidMessage), [])
    else
      match script.acquired
      case Refused(code, retryAfter) => Delivery(SessionFailure(code, retryAfter), [])
      case SessionPanicked => Delivery(ResultFailed(SessionFailed), [])
      case Granted(lease) =>
        if !ValidLease(lease) then Delivery(ResultFailed(SessionFailed), []) else Attempts(script, 0, lease, lease)
  }

  function UploadOutcomeOf(result: ChatResult): UploadOutcome {
    match result
    case Sent(receipt) => OutcomeSucceeded(TwitchDone(receipt))
    case Dropped(receipt) => TwitchDropped(receipt)
    case ResultRetryAfter(delay) => UploadOutcome.RetryAfter(delay)
    case ResultFailed(_) => OutcomeFailed
    case Unconfirmed => UploadOutcome.Ambiguous
    case ResultCancelled => OutcomeCancelled
  }

  // ---------------------------------------------------------------- what was delivered

  /** The service's promise: these refusals mean that the message did not get through. */
  ghost predicate Honest(script: Script) {
    forall k: nat :: var answer := script.sends(k);
      answer.Error? && (answer.error.Status(401) || answer.error.Status(429) || answer.error.ConnectionNeverMade()) ==> !answer.delivered
  }

  /** Messages that got through in the calls from `from` on. */
  function DeliveredFrom(script: Script, calls: nat, from: nat): nat
    decreases if from < calls then calls - from else 0
  {
    if from >= calls then 0 else (if script.sends(from).delivered then 1 else 0) + DeliveredFrom(script, calls, from + 1)
  }

  function Delivered(script: Script, message: string): nat {
    DeliveredFrom(script, |Delivering(script, message).leases|, 0)
  }

  /** At most two calls; the second only after a 401, for the same user, with a valid lease that
      is not older than the first. */
  lemma CallsAreBounded(script: Script, message: string)
    ensures var leases := Delivering(script, message).leases;
            && |leases| <= 2
            && (forall k :: 0 <= k < |leases| ==>
                  ValidLease(leases[k]) && leases[k].userId == leases[0].userId && leases[k].revision >= leases[0].revision)
            && (|leases| == 2 ==> script.sends(0).Error? && script.sends(0).error.Status(401))
            && (leases != [] ==> ValidMessage(message) && script.acquired == Granted(leases[0]))
  {
    if Delivering(script, message).leases != [] && script.acquired.Granted? && script.recovered.Granted? {
      var rest := Attempts(script, 1, script.recovered.lease, script.acquired.lease);
      assert |rest.leases| <= 1;
    }
  }

  /** At most one message gets through; a retry, a cancellation or a demand to reconnect is
      reported only if none did; and a retry delay is one that a caller can schedule. */
  lemma AtMostOneMessage(script: Script, message: string)
    requires Honest(script)
    ensures Delivered(script, message) <= 1
    ensures var result := Delivering(script, message).result;
            && (result.ResultRetryAfter? ==> Delivered(script, message) == 0 && 0 < result.delay <= DAY)
            && (result.ResultCancelled? || result == ResultFailed(MustReconnect) ==> Delivered(script, message) == 0)
  {
    CallsAreBounded(script, message);
    var d := Delivering(script, message);
    assert Delivered(script, message) == DeliveredFrom(script, |d.leases|, 0);
    assert DeliveredFrom(script, |d.leases|, 2) == 0;
    assert DeliveredFrom(script, |d.leases|, 1) <= 1;
    if |d.leases| == 2 {
      assert !script.sends(0).delivered;
      AttemptsTell(script, 1, script.recovered.lease, script.acquired.lease);
    } else if |d.leases| == 1 {
      AttemptsTell(script, 0, script.acquired.lease, script.acquired.lease);
    }
  }

  lemma AttemptsTell(script: Script, attempt: nat, lease: Lease, first: Lease)
    requires Honest(script) && attempt < 2
    ensures var d := Attempts(script, attempt, lease, first);
            |d.leases| == 1 && (d.result.ResultRetryAfter? || d.result.ResultCancelled? || d.result == ResultFailed(MustReconnect)) ==>
              !script.sends(attempt).delivered
  {
  }

  /** Every result is one the coordinator accepts for an active attempt with an empty slot. */
  lemma ResultIsAcceptable(script: Script, message: string, job: Job, now: nat)
    requires job.State(Twitch).Active? && job.record.twitch.None? && now + MAX_RETRY_DELAY < INSTANT_LIMIT
    ensures var outcome := UploadOutcomeOf(Delivering(script, message).result);
            Evaluate(job, Twitch, outcome, now).Ok?
  {
    ResultIsWellFormed(script, message);
  }

  lemma ResultIsWellFormed(script: Script, message: string)
    ensures var result := Delivering(script, message).result;
            && (result.Sent? ==> result.receipt.Valid() && result.receipt.status.Sent?)
            && (result.Dropped? ==> result.receipt.Valid() && !result.receipt.status.Sent?)
            && (result.ResultRetryAfter? ==> 0 < result.delay <= DAY)
  {
    if script.acquired.Granted? && script.recovered.Granted? {
      var rest := Attempts(script, 1, script.recovered.lease, script.acquired.lease);
      assert rest.result.ResultRetryAfter? ==> 0 < rest.result.delay <= DAY;
    }
  }

  // ---------------------------------------------------------------- what each answer leads to

  /** The delay asked for if it is positive and at most a day, and half a minute otherwise. */
  predicate WaitsAsAsked(result: ChatResult, asked: Option<nat>) {
    result.ResultRetryAfter?
    && (if asked.Some? && 0 < asked.value <= 86_400 * SECOND then result.delay == asked.value else result.delay == 30 * SECOND)
  }

  /** Twitch says that trying again may help, and the message cannot have got through: it was not
      accepted yet, or no connection came about. */
  predicate Retryable(error: ApiError) {
    error.disposition.DoRetry?
    && ((error.code.HttpStatus? && error.httpStatus == Some(429))
        || (error.code.Transport?
            && error.httpError in {Some(NameResolutionFailed), Some(ConnectionFailed), Some(TlsFailed)}))
  }

  predicate RejectsToken(answer: SendAnswer) {
    answer.Error? && answer.error.code.HttpStatus? && answer.error.httpStatus == Some(401)
  }

  /** A valid lease of the same user that is not older. */
  predicate Renews(renewed: SessionAnswer, first: Lease) {
    renewed.Granted? && ValidLease(renewed.lease) && renewed.lease.userId == first.userId && renewed.lease.revision >= first.revision
  }

  /** The calls made: one for the lease acquired, if the message and the lease are in order and no
      stop was asked for; and one more after a rejected token, for the lease recovered. */
  lemma CallsAreMadeIff(script: Script, message: string)
    ensures var leases := Delivering(script, message).leases;
            var begins := !script.stops(0) && ValidMessage(message) && script.acquired.Granted? && ValidLease(script.acquired.lease)
                          && !script.stops(1);
            && (leases != [] <==> begins)
            && (begins ==> leases[0] == script.acquired.lease)
            && (|leases| >= 2 <==> begins && !script.stops(2) && RejectsToken(script.sends(0))
                                   && Renews(script.recovered, script.acquired.lease) && !script.stops(3))
            && (|leases| >= 2 ==> leases == [script.acquired.lease, script.recovered.lease])
  {
    if script.acquired.Granted? && script.recovered.Granted? {
      var rest := Attempts(script, 1, script.recovered.lease, script.acquired.lease);
      assert rest.leases == if script.stops(3) then [] else [script.recovered.lease];
    }
  }

  /** Why no call was made. */
  predicate TellsWhyUnsent(script: Script, message: string, result: ChatResult) {
    if script.stops(0) then result.ResultCancelled?
    else if !ValidMessage(message) then result == ResultFailed(InvalidMessage)
    else
      match script.acquired
      case SessionPanicked => result == ResultFailed(SessionFailed)
      case Granted(lease) => if ValidLease(lease) then result.ResultCancelled? else result == ResultFailed(SessionFailed)
      case Refused(code, retryAfter) => TellsRefusal(code, retryAfter, result)
  }

  predicate TellsRefusal(code: DeliveryErrorCode, retryAfter: Option<nat>, result: ChatResult) {
    && (code.Retry? ==> WaitsAsAsked(result, retryAfter))
    && (code.Cancelled? ==> result.ResultCancelled?)
    && (code.NotConnected? ==> result == ResultFailed(NoConnection))
    && (code.ReconnectRequired? ==> result == ResultFailed(MustReconnect))
    && (code.Failed? ==> result == ResultFailed(SessionFailed))
  }

  /** What the answer to the last call means. Where nothing is known of the message it is
      unconfirmed; it counts as sent or dropped with the very receipt that came back. */
  predicate TellsAnswer(answer: SendAnswer, result: ChatResult) {
    match answer
    case SendPanicked(_) => result.Unconfirmed?
    case Receipt(receipt, _) =>
      if !receipt.Valid() then result.Unconfirmed?
      else if receipt.status.Sent? then result == ChatResult.Sent(receipt)
      else result == Dropped(receipt)
    case Error(error, _) =>
      if Retryable(error) then WaitsAsAsked(result, error.retryAfter)
      else if error.code.HttpStatus? && error.httpStatus.Some? && 400 <= error.httpStatus.value <= 499
              && error.httpStatus.value != 408 then result == ResultFailed(SendFailed)
      else result.Unconfirmed?
  }

  /** Why a rejected token led to no second call. */
  predicate TellsRecovery(script: Script, first: Lease, result: ChatResult) {
    match script.recovered
    case SessionPanicked => result == ResultFailed(SessionFailed)
    case Refused(code, retryAfter) => TellsRefusal(code, retryAfter, result)
    case Granted(_) =>
      if Renews(script.recovered, first) then result.ResultCancelled? else result == ResultFailed(MustReconnect)
  }

  /** The result is decided by the last answer received: the session's, a recovery's, or that of the
      last call, which is unconfirmed if a stop was asked for meanwhile. */
  lemma LastAnswerDecides(script: Script, message: string)
    ensures var d := Delivering(script, message);
            var n := |d.leases|;
            if n == 0 then TellsWhyUnsent(script, message, d.result)
            else if script.stops(2 * n) then d.result.Unconfirmed?
            else if !RejectsToken(script.sends(n - 1)) then TellsAnswer(script.sends(n - 1), d.result)
            else if n == 2 then d.result == ResultFailed(MustReconnect)
            else TellsRecovery(script, d.leases[0], d.result)
  {
    CallsAreMadeIff(script, message);
    if |Delivering(script, message).leases| == 2 {
      CallTells(script, 1, script.recovered.lease, script.acquired.lease);
    } else if |Delivering(script, message).leases| == 1 {
      CallTells(script, 0, script.acquired.lease, script.acquired.lease);
    }
  }

  lemma CallTells(script: Script, attempt: nat, lease: Lease, first: Lease)
    requires attempt < 2
    ensures var d := Attempts(script, attempt, lease, first);
            |d.leases| == 1 ==>
              if script.stops(2 + 2 * attempt) then d.result.Unconfirmed?
              else if !RejectsToken(script.sends(attempt)) then TellsAnswer(script.sends(attempt), d.result)
              else if attempt == 1 then d.result == ResultFailed(MustReconnect)
              else TellsRecovery(script, first, d.result)
  {
  }

  /** The limit on bytes never bites: a message is valid by its characters alone. */
  lemma {:induction false} CharactersAreAtMostFourBytes(text: string)
    ensures |text| <= Utf8Length(text) <= 4 * |text|
  {
    if text != [] {
      CharactersAreAtMostFourBytes(text[..|text| - 1]);
    }
  }

  lemma MessageIsValidIff(message: string)
    ensures ValidMessage(message) <==>
              1 <= |message| <= 500 && forall i :: 0 <= i < |message| ==> message[i] as int >= 0x20 && message[i] as int != 0x7f
  {
    CharactersAreAtMostFourBytes(message);
  }

  // ---------------------------------------------------------------- the sender

  method Send(message: string, script: Script) returns (result: ChatResult, leases: seq<Lease>)
    ensures Delivery(result, leases) == Delivering(script, message)
  {
    leases := [];
    if script.stops(0) {
      return ResultCancelled, leases;
    }
    if !ValidMessage(message) {
      return ResultFailed(InvalidMessage), leases;
    }
    var lease: Lease;
    match script.acquired {
      case Refused(code, retryAfter) => return SessionFailure(code, retryAfter), leases;
      case SessionPanicked => return ResultFailed(SessionFailed), leases;
      case Granted(granted) => lease := granted;
    }
    if !ValidLease(lease) {
      return ResultFailed(SessionFailed), leases;
    }
    var broadcaster, revision := lease.userId, lease.revision;
    ghost var first := lease;
    var attempt := 0;
    while true
      invariant attempt < 2
      invariant broadcaster == first.userId && revision == first.revision
      invariant var rest := Attempts(script, attempt, lease, first);
                Delivering(script, message) == Delivery(rest.result, leases + rest.leases)
      decreases 2 - attempt
    {
      if script.stops(1 + 2 * attempt) {
        assert leases + [] == leases;
        return ResultCancelled, leases;
      }
      var answer := script.sends(attempt);
      ghost var before := leases;
      leases := leases + [lease];
      if script.stops(2 + 2 * attempt) || answer.SendPanicked? {
        return Unconfirmed, leases;
      }
      if answer.Receipt? {
        return ReceiptResult(answer.receipt), leases;
      }
      if !answer.error.Status(401) {
        return SendFailure(answer.error), leases;
      }
      if attempt == 1 {
        return ResultFailed(MustReconnect), leases;
      }
      ghost var used := lease;
      match script.recovered {
        case Refused(code, retryAfter) => return SessionFailure(code, retryAfter), leases;
        case SessionPanicked => return ResultFailed(SessionFailed), leases;
        case Granted(recovered) => lease := recovered;
      }
      if !ValidLease(lease) || lease.userId != broadcaster || lease.revision < revision {
        return ResultFailed(MustReconnect), leases;
      }
      ghost var rest := Attempts(script, attempt + 1, lease, first);
      assert before + ([used] + rest.leases) == leases + rest.leases;
      attempt := attempt + 1;
    }
  }
}
