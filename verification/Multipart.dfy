/** Request bodies that are streamed: a source held to its declared length, and a multipart
    form made of such sources. What a reader gets is compared with the plain concatenation. */
module Multipart {
  import opened Outcomes
  import opened ByteStrings
  import opened StopTokens

  const MAX_BODY_BYTES: nat := 512 * 1024 * 1024
  const MAX_BOUNDARY_BYTES: nat := 70
  const MAX_PARTS: nat := 16

  datatype BodyErrorCode = Cancelled | SourceUnavailable | SourceChanged | ReadFailed | Panicked

  datatype MultipartError =
    | EmptyParts | TooManyParts | InvalidBoundary | InvalidPartName | InvalidFilename | InvalidContentType
    | BodyTooLarge | InvalidBody

  /** What a read comes back with: bytes, a count beyond the buffer, an error, or a panic. */
  datatype Answer = Gives(bytes: Bytes) | Overran | Fails(code: BodyErrorCode) | Panics

  /** What a port makes of a buffer: it fills up to so many bytes of it, or misbehaves. */
  datatype Offer = Fills(count: nat) | Overruns | Breaks(code: BodyErrorCode) | Throws

  /** A body source: bytes in memory, or a port that declares a length and decides at every read,
      from the bytes it has left and the space it is offered, how much of it to fill. A port that
      has ended gives nothing, and one that gives nothing has ended. */
  datatype Source =
    | Memory(rest: Bytes)
    | Port(declared: Option<nat>, rest: Bytes, offer: (nat, nat) -> Offer)

  // ---------------------------------------------------------------- what sources hold

  function DeclaredLength(source: Source): Option<nat> {
    match source
    case Memory(rest) => Some(|rest|)
    case Port(declared, _, _) => declared
  }

  /** How much of the space a port fills: at least a byte of what it has left. */
  function Filled(count: nat, capacity: nat, left: nat): (filled: nat)
    ensures filled <= capacity && filled <= left
    ensures capacity > 0 && left > 0 ==> filled > 0
  {
    var most := if capacity < left then capacity else left;
    if most < count then most else if count == 0 && most > 0 then 1 else count
  }

  /** The next answer for a buffer of the given size, and the source after it. */
  function Next(source: Source, capacity: nat, stopped: bool): (r: (Source, Answer))
    ensures r.1.Gives? ==> |r.1.bytes| <= capacity
  {
    match source
    case Memory(rest) =>
      if stopped then (source, Fails(Cancelled))
      else
        var count := if capacity < |rest| then capacity else |rest|;
        (Memory(rest[count..]), Gives(rest[..count]))
    case Port(_, rest, offer) =>
      match offer(|rest|, capacity)
      case Fills(count) =>
        var filled := Filled(count, capacity, |rest|);
        (source.(rest := rest[filled..]), Gives(rest[..filled]))
      case Overruns => (source, Overran)
      case Breaks(code) => (source, Fails(code))
      case Throws => (source, Panics)
  }

  lemma NextDelivers(source: Source, capacity: nat, stopped: bool)
    ensures var (after, answer) := Next(source, capacity, stopped);
            answer.Gives? ==>
              && |answer.bytes| <= capacity && source.rest == answer.bytes + after.rest
              && (answer.bytes == [] && capacity > 0 ==> source.rest == [])
  {
  }

  // ---------------------------------------------------------------- one source, exactly

  /** What a read leaves behind and returns when nobody asks it to stop. */
  datatype Serving = Serving(source: Source, remaining: nat, eofChecked: bool, result: Result<Bytes, BodyErrorCode>)

  function ErrorOf(answer: Answer): Option<BodyErrorCode> {
    match answer
    case Gives(_) => None
    case Overran => Some(ReadFailed)
    case Fails(code) => Some(code)
    case Panics => Some(Panicked)
  }

  /** Nothing may follow the declared bytes. */
  function EndServed(source: Source, read: Bytes): Serving {
    var (after, extra) := Next(source, 1, false);
    if ErrorOf(extra).Some? then Serving(after, 0, false, Err(ErrorOf(extra).value))
    else if extra.bytes != [] then Serving(after, 0, false, Err(ReadFailed))
    else Serving(after, 0, true, Ok(read))
  }

  /** A read into a buffer of `size` bytes: some of the bytes that remain and, with the last of
      them, the proof that the source ends there. */
  function Served(source: Source, remaining: nat, size: nat): Serving {
    if remaining == 0 then EndServed(source, [])
    else
      var capacity := if remaining < size then remaining else size;
      var (after, answer) := Next(source, capacity, false);
      if ErrorOf(answer).Some? then Serving(after, remaining, false, Err(ErrorOf(answer).value))
      else if answer.bytes == [] then Serving(after, remaining, false, Err(ReadFailed))
      else if |answer.bytes| == remaining then EndServed(after, answer.bytes)
      else Serving(after, remaining - |answer.bytes|, false, Ok(answer.bytes))
  }

  /** A source that keeps its word: in memory, or a port that holds exactly the declared bytes and
      neither fails nor overruns, however small the buffers. */
  ghost predicate Honest(source: Source, remaining: nat) {
    && |source.rest| == remaining
    && (source.Port? ==> forall left: nat, capacity: nat :: left <= remaining && capacity > 0 ==> source.offer(left, capacity).Fills?)
  }

  lemma HonestEnd(source: Source, read: Bytes)
    requires Honest(source, 0)
    ensures var served := EndServed(source, read);
            served.result == Ok(read) && served.eofChecked && served.remaining == 0 && Honest(served.source, 0)
  {
  }

  /** One honest answer: non-empty, within the buffer, and the rest is honest too. */
  lemma HonestAnswer(source: Source, remaining: nat, capacity: nat)
    requires Honest(source, remaining) && 0 < capacity <= remaining
    ensures var (after, answer) := Next(source, capacity, false);
            answer.Gives? && 0 < |answer.bytes| <= capacity && Honest(after, remaining - |answer.bytes|)
  {
  }

  /** An honest source is read without an error, and stays honest to its end. */
  lemma HonestSourceServes(source: Source, remaining: nat, size: nat)
    requires Honest(source, remaining) && size > 0
    ensures var served := Served(source, remaining, size);
            && served.result.Ok? && Honest(served.source, served.remaining)
            && |served.result.value| + served.remaining == remaining && (remaining > 0 ==> served.result.value != [])
            && (served.eofChecked <==> served.remaining == 0)
  {
    if remaining == 0 {
      HonestEnd(source, []);
    } else {
      var capacity := if remaining < size then remaining else size;
      HonestAnswer(source, remaining, capacity);
      var (after, answer) := Next(source, capacity, false);
      if |answer.bytes| == remaining {
        HonestEnd(after, answer.bytes);
      }
    }
  }

  /** A source that does not keep its word is found out: one with too little or too much, and one that
      overruns its buffer, counts as failed; a failure keeps its code, and a panic is told as one. */
  lemma FaultsAreTold(source: Source, remaining: nat, size: nat)
    requires size > 0
    ensures var capacity := if remaining == 0 then 1 else if remaining < size then remaining else size;
            var (after, answer) := Next(source, capacity, false);
            var result := Served(source, remaining, size).result;
            && (answer.Overran? ==> result == Err(ReadFailed)) && (answer.Panics? ==> result == Err(Panicked))
            && (answer.Fails? ==> result == Err(answer.code))
            && (answer.Gives? && remaining > 0 && answer.bytes == [] ==> result == Err(ReadFailed))
            && (answer.Gives? && remaining == 0 ==> result == if answer.bytes == [] then Ok([]) else Err(ReadFailed))
            && (answer.Gives? && 0 < |answer.bytes| < remaining ==> result == Ok(answer.bytes))
            && (answer.Gives? && |answer.bytes| == remaining > 0 ==>
                  var extra := Next(after, 1, false).1;
                  && (extra.Gives? ==> result == if extra.bytes == [] then Ok(answer.bytes) else Err(ReadFailed))
                  && (extra.Overran? ==> result == Err(ReadFailed)) && (extra.Panics? ==> result == Err(Panicked))
                  && (extra.Fails? ==> result == Err(extra.code)))
  {
  }

  /** A read that is cancelled exactly if the token said so meanwhile. */
  ghost predicate ReadAs(readings: nat -> bool, from: nat, to: nat, result: ReadResult, data: Bytes, unstopped: Result<Bytes, BodyErrorCode>) {
    && from <= to
    && if StopAsked(readings, from, to) then result == Err(Cancelled)
       else if unstopped.Err? then result == Err(unstopped.error)
       else result == Ok(|unstopped.value|) && |unstopped.value| <= |data| && data[..|unstopped.value|] == unstopped.value
  }

  /** The same for the answer of one source. */
  ghost predicate SomeAs(stopped: bool, next: (Source, Answer), source: Source, result: ReadResult, data: Bytes) {
    if stopped then result == Err(Cancelled)
    else if ErrorOf(next.1).Some? then result == Err(ErrorOf(next.1).value)
    else if next.1.bytes == [] then result == Err(ReadFailed)
    else result == Ok(|next.1.bytes|) && source == next.0 && |next.1.bytes| <= |data| && data[..|next.1.bytes|] == next.1.bytes
  }

  ghost predicate StopAsked(readings: nat -> bool, from: nat, to: nat) {
    exists k :: from <= k < to && readings(k)
  }

  /** A read's answer: a byte count, or an error. */
  type ReadResult = Result<nat, BodyErrorCode>

  /** A read that is due succeeds, and the source stays as good as its word. */
  lemma KeptReadIsOk(source: Source, remaining: nat, eofChecked: bool, size: nat, due: Serving)
    requires size > 0 && (eofChecked || Honest(source, remaining))
    requires due == if size == 0 || eofChecked then Serving(source, remaining, eofChecked, Ok([])) else Served(source, remaining, size)
    ensures due.result.Ok? && (due.eofChecked || Honest(due.source, due.remaining))
  {
    if !eofChecked {
      HonestSourceServes(source, remaining, size);
    }
  }

  class ExactLengthBody {
    var source: Source
    const length: nat
    var remaining: nat
    var eofChecked: bool
    var failure: Option<BodyErrorCode>

    ghost const content: Bytes
    ghost var delivered: Bytes

    /** Until it fails, what was delivered and what the source still has make up its content;
        the end is known only when exactly the declared number of bytes was there. */
    ghost predicate Valid()
      reads this
    {
      && remaining <= length <= MAX_BODY_BYTES
      && (failure.None? ==>
            && |delivered| + remaining == length && delivered + Rest() == content
            && (eofChecked ==> remaining == 0))
    }

    ghost function Rest(): Bytes
      reads this
    {
      if eofChecked then [] else source.rest
    }

    constructor (source: Source, length: nat)
      requires length <= MAX_BODY_BYTES
      ensures Valid() && fresh(this) && this.length == length && remaining == length && failure.None? && !eofChecked
      ensures content == source.rest && delivered == [] && this.source == source
    {
      this.source, this.length, remaining, eofChecked, failure := source, length, length, false, None;
      content, delivered := source.rest, [];
    }

    static method Create(source: Source) returns (result: Result<ExactLengthBody, BodyErrorCode>)
      ensures DeclaredLength(source).None? ==> result == Err(Panicked)
      ensures DeclaredLength(source).Some? && DeclaredLength(source).value > MAX_BODY_BYTES ==> result == Err(ReadFailed)
      ensures DeclaredLength(source).Some? && DeclaredLength(source).value <= MAX_BODY_BYTES ==>
                && result.Ok? && fresh(result.value) && result.value.Valid() && result.value.failure.None?
                && result.value.length == DeclaredLength(source).value && result.value.content == source.rest
                && result.value.delivered == [] && result.value.Rest() == source.rest && result.value.remaining == result.value.length
                && result.value.source == source
    {
      var length := DeclaredLength(source);
      if length.None? {
        return Err(Panicked);
      }
      if length.value > MAX_BODY_BYTES {
        return Err(ReadFailed);
      }
      var body := new ExactLengthBody(source, length.value);
      return Ok(body);
    }

    /** Takes one answer from the source. */
    method Take(capacity: nat, stop: StopToken) returns (answer: Answer)
      modifies this`source, stop
      ensures stop.polled >= old(stop.polled)
      ensures var next := Next(old(source), capacity, StopAsked(stop.readings, old(stop.polled), stop.polled));
              source == next.0 && answer == next.1
      ensures StopAsked(stop.readings, old(stop.polled), stop.polled) ==> answer == Fails(BodyErrorCode.Cancelled)
      ensures answer.Gives? ==> |answer.bytes| <= capacity && old(source).rest == answer.bytes + source.rest
      ensures answer.Gives? && answer.bytes == [] && capacity > 0 ==> old(source).rest == []
    {
      var stopped := false;
      if source.Memory? {
        stopped := stop.Poll();
        assert stopped ==> stop.readings(stop.polled - 1);
      }
      assert stopped == StopAsked(stop.readings, old(stop.polled), stop.polled);
      NextDelivers(source, capacity, stopped);
      var next := Next(source, capacity, stopped);
      source, answer := next.0, next.1;
    }

    method Copy(destination: array<Byte>, bytes: Bytes)
      requires |bytes| <= destination.Length
      modifies destination
      ensures destination[..|bytes|] == bytes
    {
      for i := 0 to |bytes|
        invariant destination[..i] == bytes[..i]
      {
        destination[i] := bytes[i];
      }
    }

    /** Up to a buffer of the bytes that remain. */
    method ReadSome(destination: array<Byte>, capacity: nat, stop: StopToken) returns (result: ReadResult)
      requires Valid() && failure.None? && !eofChecked && 0 < capacity <= destination.Length && capacity <= remaining
      modifies this`source, this`remaining, this`delivered, destination, stop
      ensures result.Ok? ==>
                && Valid() && 0 < result.value <= capacity
                && delivered == old(delivered) + destination[..result.value] && remaining == old(remaining) - result.value
      ensures result.Err? ==> remaining == old(remaining) && delivered == old(delivered)
      ensures stop.polled >= old(stop.polled)
      ensures SomeAs(StopAsked(stop.readings, old(stop.polled), stop.polled), Next(old(source), capacity, false), source, result,
                     destination[..])
    {
      var answer := Take(capacity, stop);
      match answer {
        case Overran => return Err(ReadFailed);
        case Fails(code) => return Err(code);
        case Panics => return Err(Panicked);
        case Gives(bytes) =>
          if bytes == [] {
            return Err(ReadFailed);
          }
          Copy(destination, bytes);
          Regroup(delivered, bytes, source.rest);
          remaining := remaining - |bytes|;
          delivered := delivered + bytes;
          return Ok(|bytes|);
      }
    }

    /** Nothing may follow the declared bytes. */
    method CheckEnd(stop: StopToken) returns (error: Option<BodyErrorCode>)
      requires Valid() && failure.None? && remaining == 0 && !eofChecked
      modifies this`source, this`eofChecked, stop
      ensures error.None? ==> Valid() && eofChecked && old(source).rest == []
      ensures error.Some? ==> !eofChecked
      ensures stop.polled >= old(stop.polled)
      ensures var served := EndServed(old(source), []);
              if StopAsked(stop.readings, old(stop.polled), stop.polled) then error == Some(Cancelled)
              else if served.result.Err? then error == Some(served.result.error) else error.None? && source == served.source
    {
      var answer := Take(1, stop);
      match answer {
        case Overran => return Some(ReadFailed);
        case Fails(code) => return Some(code);
        case Panics => return Some(Panicked);
        case Gives(bytes) =>
          if bytes != [] {
            return Some(ReadFailed);
          }
          eofChecked := true;
          return None;
      }
    }

    /** Behind the bytes of a read: a look at the token, at the end if it is due, and again. */
    method Conclude(read: nat, stop: StopToken) returns (result: ReadResult)
      requires Valid() && failure.None? && !eofChecked
      modifies this`source, this`eofChecked, stop
      ensures stop.polled >= old(stop.polled)
      ensures result.Ok? ==> Valid() && (eofChecked <==> remaining == 0) && result.value == read
                             && (eofChecked ==> old(source).rest == [])
      ensures var served := EndServed(old(source), []);
              if StopAsked(stop.readings, old(stop.polled), stop.polled) then result == Err(Cancelled)
              else if remaining == 0 && served.result.Err? then result == Err(served.result.error)
              else result == Ok(read) && source == if remaining == 0 then served.source else old(source)
    {
      var stopped := stop.Poll();
      if stopped {
        assert stop.readings(stop.polled - 1);
        return Err(Cancelled);
      }
      ghost var mid := stop.polled;
      if remaining == 0 {
        var error := CheckEnd(stop);
        if error.Some? {
          assert StopAsked(stop.readings, old(stop.polled), stop.polled) <==> StopAsked(stop.readings, mid, stop.polled);
          return Err(error.value);
        }
      }
      assert !StopAsked(stop.readings, mid, stop.polled);
      stopped := stop.Poll();
      if stopped {
        assert stop.readings(stop.polled - 1);
        return Err(Cancelled);
      }
      return Ok(read);
    }

    /** A read that is due. */
    method Serve(destination: array<Byte>, stop: StopToken) returns (result: ReadResult)
      requires Valid() && failure.None? && !eofChecked && destination.Length > 0
      modifies this`source, this`remaining, this`eofChecked, this`delivered, destination, stop
      ensures remaining <= length && stop.polled >= old(stop.polled)
      ensures result.Ok? ==> Valid() && result.value <= destination.Length && delivered == old(delivered) + destination[..result.value]
      ensures result.Ok? ==> (result.value == 0 ==> eofChecked) && (eofChecked ==> delivered == content)
      ensures var served := Served(old(source), old(remaining), destination.Length);
              && ReadAs(stop.readings, old(stop.polled), stop.polled, result, destination[..], served.result)
              && (result.Ok? ==> source == served.source && remaining == served.remaining && eofChecked == served.eofChecked)
    {
      var capacity := if remaining < destination.Length then remaining else destination.Length;
      var read := 0;
      assert destination[..0] == [] && delivered + [] == delivered;
      if capacity != 0 {
        result := ReadSome(destination, capacity, stop);
        if result.Err? {
          return;
        }
        read := result.value;
      }
      ghost var mid := stop.polled;
      assert !StopAsked(stop.readings, old(stop.polled), mid);
      result := Conclude(read, stop);
      assert StopAsked(stop.readings, old(stop.polled), stop.polled) <==> StopAsked(stop.readings, mid, stop.polled);
    }

    /** The source keeps its word. */
    ghost predicate Keeps()
      reads this
    {
      failure.None? && (eofChecked || Honest(source, remaining))
    }

    /** What a read of this body gives if nobody stops it. */
    ghost function Due(size: nat): Serving
      reads this
    {
      if size == 0 || eofChecked then Serving(source, remaining, eofChecked, Ok([])) else Served(source, remaining, size)
    }

    method ReadInner(destination: array<Byte>, stop: StopToken) returns (result: ReadResult)
      requires Valid() && failure.None?
      modifies this`source, this`remaining, this`eofChecked, this`delivered, destination, stop
      ensures remaining <= length && stop.polled >= old(stop.polled)
      ensures result.Ok? ==>
                && Valid() && result.value <= destination.Length
                && delivered == old(delivered) + destination[..result.value]
                && (destination.Length > 0 && result.value == 0 ==> eofChecked)
                && (eofChecked ==> delivered == content)
      ensures var due := old(Due(destination.Length));
              && ReadAs(stop.readings, old(stop.polled), stop.polled, result, destination[..], due.result)
              && (result.Ok? ==> source == due.source && remaining == due.remaining && eofChecked == due.eofChecked)
    {
      var stopped := stop.Poll();
      if stopped {
        assert stop.readings(stop.polled - 1);
        return Err(Cancelled);
      }
      assert destination[..0] == [] && delivered + [] == delivered;
      if destination.Length == 0 || eofChecked {
        return Ok(0);
      }
      ghost var mid := stop.polled;
      result := Serve(destination, stop);
      assert StopAsked(stop.readings, old(stop.polled), stop.polled) <==> StopAsked(stop.readings, mid, stop.polled);
    }

    /** The first failure is final; until then reads deliver the content, and at its end exactly
        the declared number of bytes was there. */
    method Read(destination: array<Byte>, stop: StopToken) returns (result: ReadResult)
      requires Valid()
      modifies this`source, this`remaining, this`eofChecked, this`delivered, this`failure, destination, stop
      ensures Valid()
      ensures old(failure).Some? ==> result == Err(old(failure).value) && failure == old(failure)
      ensures old(failure).None? ==> failure == if result.Err? then Some(result.error) else None
      ensures result.Ok? ==>
                && result.value <= destination.Length && delivered == old(delivered) + destination[..result.value]
                && (destination.Length > 0 && result.value == 0 ==> eofChecked)
                && (eofChecked ==> delivered == content && |content| == length)
      ensures stop.polled >= old(stop.polled)
      ensures old(failure).None? ==>
                var due := old(Due(destination.Length));
                && ReadAs(stop.readings, old(stop.polled), stop.polled, result, destination[..], due.result)
                && (result.Ok? ==> source == due.source && remaining == due.remaining && eofChecked == due.eofChecked)
    {
      if failure.Some? {
        return Err(failure.value);
      }
      result := ReadInner(destination, stop);
      if result.Err? {
        failure := Some(result.error);
      }
    }

    /** The same, with what it means for a source that keeps its word. */
    method ReadKeeping(destination: array<Byte>, stop: StopToken) returns (result: ReadResult)
      requires Valid() && failure.None? && destination.Length > 0
      modifies this`source, this`remaining, this`eofChecked, this`delivered, this`failure, destination, stop
      ensures Valid() && (result.Ok? <==> failure.None?) && (result.Err? ==> failure == Some(result.error))
      ensures result.Ok? ==>
                && result.value <= destination.Length
                && old(Rest()) == destination[..result.value] + Rest() && old(remaining) == result.value + remaining
                && (result.value == 0 ==> Rest() == [] && remaining == 0)
      ensures stop.polled >= old(stop.polled)
      ensures StopAsked(stop.readings, old(stop.polled), stop.polled) ==> result == Err(Cancelled)
      ensures old(Keeps()) ==>
                StopAsked(stop.readings, old(stop.polled), stop.polled) || (result.Ok? && Keeps())
    {
      ghost var due := Due(destination.Length);
      if Keeps() {
        KeptReadIsOk(source, remaining, eofChecked, destination.Length, due);
      }
      ghost var before, had := delivered, Rest();
      result := Read(destination, stop);
      if result.Ok? {
        Cancel(before, destination[..result.value], had, Rest(), content);
      }
    }
  }

  lemma Regroup(a: Bytes, b: Bytes, c: Bytes)
    ensures a + (b + c) == (a + b) + c
  {
  }

  lemma MoveOver(returned: Bytes, read: Bytes, had: Bytes, has: Bytes, behind: Bytes)
    requires had == read + has
    ensures returned + (had + behind) == (returned + read) + (has + behind)
  {
  }

  lemma Cancel(front: Bytes, middle: Bytes, before: Bytes, after: Bytes, whole: Bytes)
    requires front + before == whole && (front + middle) + after == whole
    ensures before == middle + after
  {
    assert before == whole[|front|..];
    assert (front + middle) + after == front + (middle + after);
  }

  // ---------------------------------------------------------------- sources one after the other

  ghost predicate Suffix<T>(a: seq<T>, b: seq<T>) {
    |a| <= |b| && a == b[|b| - |a|..]
  }

  lemma SuffixMembers<T>(a: seq<T>, b: seq<T>)
    requires Suffix(a, b)
    ensures forall i :: 0 <= i < |a| ==> a[i] in b
    ensures forall x :: x in a ==> x in b
  {
  }

  lemma SuffixTail<T>(a: seq<T>, b: seq<T>)
    requires Suffix(a, b) && a != []
    ensures Suffix(a[1..], b)
  {
  }

  lemma SuffixOfSuffix<T>(a: seq<T>, b: seq<T>, c: seq<T>)
    requires Suffix(a, b) && Suffix(b, c)
    ensures Suffix(a, c)
  {
    assert forall i :: 0 <= i < |a| ==> a[i] == b[|b| - |a| + i] == c[|c| - |a| + i];
  }

  /** What the segments have still to deliver. */
  ghost function RestOf(segments: seq<ExactLengthBody>): Bytes
    reads segments
  {
    if segments == [] then [] else segments[0].Rest() + RestOf(segments[1..])
  }

  ghost function RemainingOf(segments: seq<ExactLengthBody>): nat
    reads segments
  {
    if segments == [] then 0 else segments[0].remaining + RemainingOf(segments[1..])
  }

  ghost predicate Healthy(segments: seq<ExactLengthBody>)
    reads segments
  {
    && (forall i, j :: 0 <= i < j < |segments| ==> segments[i] != segments[j])
    && (forall i :: 0 <= i < |segments| ==> segments[i].Valid() && segments[i].failure.None?)
  }

  ghost predicate AllKeep(segments: seq<ExactLengthBody>)
    reads segments
  {
    forall i :: 0 <= i < |segments| ==> segments[i].Keeps()
  }

  lemma AllKeepFront(segments: seq<ExactLengthBody>)
    requires segments != []
    ensures AllKeep(segments) <==> segments[0].Keeps() && AllKeep(segments[1..])
  {
    assert forall i :: 0 < i < |segments| ==> segments[i] == segments[1..][i - 1];
  }

  class MultipartBody {
    var segments: seq<ExactLengthBody>
    const length: nat
    var failure: Option<BodyErrorCode>

    ghost const whole: Bytes
    ghost var returned: Bytes

    /** Until the first failure, what was returned and what is left is the whole, and the lengths
        add up to the declared one; after it nothing is left. */
    ghost predicate Valid()
      reads this, segments
    {
      if failure.Some? then segments == []
      else Healthy(segments) && returned + RestOf(segments) == whole && |returned| + RemainingOf(segments) == length
    }

    constructor (segments: seq<ExactLengthBody>, length: nat)
      requires Healthy(segments) && RemainingOf(segments) == length
      ensures Valid() && failure.None? && returned == [] && this.segments == segments && this.length == length
      ensures whole == RestOf(segments)
    {
      this.segments, this.length, failure := segments, length, None;
      whole, returned := RestOf(segments), [];
    }

    method Fail(code: BodyErrorCode)
      modifies this`failure, this`segments
      ensures Valid() && failure == Some(code) && segments == []
    {
      failure, segments := Some(code), [];
    }

    /** The front has delivered some of its bytes; those behind it are as they were. */
    ghost method NoteRead(read: Bytes, had: Bytes, left: nat)
      requires failure.None? && segments != [] && segments[0].Valid() && segments[0].failure.None?
      requires segments[0] !in segments[1..] && Healthy(segments[1..])
      requires had == read + segments[0].Rest() && left == |read| + segments[0].remaining
      requires returned + (had + RestOf(segments[1..])) == whole && |returned| + left + RemainingOf(segments[1..]) == length
      modifies this`returned
      ensures Valid() && returned == old(returned) + read
    {
      assert forall i :: 0 < i < |segments| ==> segments[i] == segments[1..][i - 1];
      MoveOver(returned, read, had, segments[0].Rest(), RestOf(segments[1..]));
      returned := returned + read;
    }

    /** One read of the front segment, which stays in front. */
    method ReadFront(destination: array<Byte>, stop: StopToken) returns (result: ReadResult)
      requires Valid() && failure.None? && segments != [] && destination.Length > 0
      modifies segments[0], destination, stop, this`returned
      ensures segments == old(segments)
      ensures result.Ok? ==>
                && Valid() && result.value <= destination.Length
                && returned == old(returned) + destination[..result.value]
                && (result.value == 0 ==> segments[0].Rest() == [] && segments[0].remaining == 0)
      ensures result.Err? ==> segments[0].failure == Some(result.error)
      ensures stop.polled >= old(stop.polled)
      ensures StopAsked(stop.readings, old(stop.polled), stop.polled) ==> result == Err(Cancelled)
      ensures old(segments[0].Keeps()) ==>
                StopAsked(stop.readings, old(stop.polled), stop.polled) || (result.Ok? && segments[0].Keeps())
    {
      var front := segments[0];
      ghost var rest, had, left := segments[1..], front.Rest(), front.remaining;
      assert forall i :: 0 <= i < |rest| ==> rest[i] == segments[i + 1];
      assert front !in rest && Healthy(rest);
      result := front.ReadKeeping(destination, stop);
      if result.Ok? {
        NoteRead(destination[..result.value], had, left);
      }
    }

    /** The same for all segments at once: those behind the front are left alone. */
    method ReadOnce(destination: array<Byte>, stop: StopToken) returns (result: ReadResult)
      requires Valid() && failure.None? && segments != [] && destination.Length > 0
      modifies segments[0], destination, stop, this`returned
      ensures segments == old(segments)
      ensures result.Ok? ==>
                && Valid() && result.value <= destination.Length
                && returned == old(returned) + destination[..result.value]
                && (result.value == 0 ==> segments[0].Rest() == [] && segments[0].remaining == 0)
      ensures stop.polled >= old(stop.polled)
      ensures StopAsked(stop.readings, old(stop.polled), stop.polled) ==> result == Err(Cancelled)
      ensures old(AllKeep(segments)) ==>
                StopAsked(stop.readings, old(stop.polled), stop.polled) || (result.Ok? && AllKeep(segments))
    {
      ghost var rest := segments[1..];
      ghost var kept := AllKeep(rest);
      AllKeepFront(segments);
      assert forall i :: 0 <= i < |rest| ==> rest[i] == segments[i + 1] != segments[0];
      assert segments[0] !in rest;
      result := ReadFront(destination, stop);
      assert AllKeep(rest) == kept;
      AllKeepFront(segments);
    }

    /** Returns the next bytes of the whole, or none when all of it was returned and every source
        ended where it said it would. */
    method Read(destination: array<Byte>, stop: StopToken) returns (result: ReadResult)
      requires Valid()
      modifies this`segments, this`failure, this`returned, segments, destination, stop
      ensures Valid() && Suffix(segments, old(segments))
      ensures old(failure).Some? ==> result == Err(old(failure).value) && failure == old(failure) && returned == old(returned)
      ensures old(failure).None? ==> failure == if result.Err? then Some(result.error) else None
      ensures result.Ok? ==> result.value <= destination.Length && returned == old(returned) + destination[..result.value]
      ensures result == Ok(0) && destination.Length > 0 ==> returned == whole && |whole| == length
      ensures stop.polled >= old(stop.polled)
      ensures StopAsked(stop.readings, old(stop.polled), stop.polled) ==> result.Err?
      ensures old(failure).None? && old(AllKeep(segments)) ==>
                StopAsked(stop.readings, old(stop.polled), stop.polled) || (result.Ok? && AllKeep(segments))
    {
      if failure.Some? {
        return Err(failure.value);
      }
      var stopped := stop.Poll();
      if stopped {
        assert stop.readings(stop.polled - 1);
        Fail(Cancelled);
        return Err(Cancelled);
      }
      ghost var mid := stop.polled;
      if destination.Length == 0 {
        assert destination[..0] == [] && returned + [] == returned;
        return Ok(0);
      }
      result := ReadSegments(destination, stop);
      assert StopAsked(stop.readings, old(stop.polled), stop.polled) <==> StopAsked(stop.readings, mid, stop.polled);
      if result.Err? {
        Fail(result.error);
      }
    }

    /** One read of the front segment, which is dropped if it has ended. */
    method ReadOrPop(destination: array<Byte>, stop: StopToken) returns (result: ReadResult)
      requires Valid() && failure.None? && segments != [] && destination.Length > 0
      modifies this`segments, this`returned, segments[0], destination, stop
      ensures result.Ok? ==> Valid() && result.value <= destination.Length && returned == old(returned) + destination[..result.value]
      ensures segments == if result == Ok(0) then old(segments)[1..] else old(segments)
      ensures stop.polled >= old(stop.polled)
      ensures StopAsked(stop.readings, old(stop.polled), stop.polled) ==> result == Err(Cancelled)
      ensures old(AllKeep(segments)) ==>
                StopAsked(stop.readings, old(stop.polled), stop.polled) || (result.Ok? && AllKeep(segments))
    {
      result := ReadOnce(destination, stop);
      if result == Ok(0) {
        AllKeepFront(segments);
        Pop();
      }
    }

    /** The same as part of a longer read, which began with these segments and that many readings. */
    method ReadStep(destination: array<Byte>, stop: StopToken, ghost from: nat, ghost all: seq<ExactLengthBody>) returns (result: ReadResult)
      requires Valid() && failure.None? && segments != [] && destination.Length > 0
      requires Suffix(segments, all) && from <= stop.polled && !StopAsked(stop.readings, from, stop.polled)
      modifies this`segments, this`returned, segments[0], destination, stop
      ensures Suffix(segments, all)
      ensures result.Ok? ==> Valid() && result.value <= destination.Length && returned == old(returned) + destination[..result.value]
      ensures result == Ok(0) ==> |segments| < |old(segments)| && returned == old(returned) && (segments != [] ==> segments[0] in all)
      ensures stop.polled >= old(stop.polled)
      ensures StopAsked(stop.readings, from, stop.polled) ==> result == Err(Cancelled)
      ensures old(AllKeep(segments)) ==>
                StopAsked(stop.readings, from, stop.polled) || (result.Ok? && AllKeep(segments))
    {
      ghost var mid := stop.polled;
      SuffixTail(segments, all);
      result := ReadOrPop(destination, stop);
      SuffixMembers(segments, all);
      AskedMeanwhile(stop.readings, from, mid, stop.polled);
      NothingMore(old(returned), destination[..0]);
    }

    /** Front by front, until one has bytes or all have ended. */
    method ReadSegments(destination: array<Byte>, stop: StopToken) returns (result: ReadResult)
      requires Valid() && failure.None? && destination.Length > 0
      modifies this`segments, this`returned, segments, destination, stop
      ensures Suffix(segments, old(segments))
      ensures result.Ok? ==> Valid() && result.value <= destination.Length && returned == old(returned) + destination[..result.value]
      ensures result == Ok(0) ==> segments == []
      ensures stop.polled >= old(stop.polled)
      ensures StopAsked(stop.readings, old(stop.polled), stop.polled) ==> result == Err(Cancelled)
      ensures old(AllKeep(segments)) ==>
                StopAsked(stop.readings, old(stop.polled), stop.polled) || (result.Ok? && AllKeep(segments))
    {
      ghost var honest := AllKeep(segments);
      while segments != []
        invariant Valid() && failure.None? && returned == old(returned)
        invariant Suffix(segments, old(segments)) && (segments != [] ==> segments[0] in old(segments))
        invariant stop.polled >= old(stop.polled) && !StopAsked(stop.readings, old(stop.polled), stop.polled)
        invariant honest ==> AllKeep(segments)
        decreases |segments|
      {
        result := ReadStep(destination, stop, old(stop.polled), old(segments));
        if result.Err? || result.value != 0 {
          return;
        }
      }
      NothingMore(returned, destination[..0]);
      return Ok(0);
    }

    method Pop()
      requires Valid() && failure.None? && segments != [] && segments[0].Rest() == [] && segments[0].remaining == 0
      modifies this`segments
      ensures Valid() && segments == old(segments)[1..]
    {
      PopEmpty(segments);
      segments := segments[1..];
    }
  }

  lemma PopEmpty(segments: seq<ExactLengthBody>)
    requires Healthy(segments) && segments != [] && segments[0].Rest() == [] && segments[0].remaining == 0
    ensures Healthy(segments[1..]) && RestOf(segments[1..]) == RestOf(segments) && RemainingOf(segments[1..]) == RemainingOf(segments)
  {
    assert [] + RestOf(segments[1..]) == RestOf(segments[1..]);
  }

  lemma NothingMore(returned: Bytes, read: Bytes)
    requires read == []
    ensures returned + read == returned
  {
  }

  lemma AskedMeanwhile(readings: nat -> bool, from: nat, mid: nat, to: nat)
    requires from <= mid <= to
    ensures StopAsked(readings, from, to) <==> StopAsked(readings, from, mid) || StopAsked(readings, mid, to)
  {
  }

  /** One more read with a buffer of its own. */
  method ReadMore(body: MultipartBody, size: nat, stop: StopToken) returns (read: Bytes, error: Option<BodyErrorCode>)
    requires body.Valid() && body.failure.None? && size > 0
    modifies body, body.segments, stop
    ensures body.Valid() && Suffix(body.segments, old(body.segments)) && body.failure == error
    ensures error.None? ==> body.returned == old(body.returned) + read && body.returned <= body.whole
                            && (read == [] ==> body.returned == body.whole && |body.whole| == body.length)
    ensures stop.polled >= old(stop.polled)
    ensures StopAsked(stop.readings, old(stop.polled), stop.polled) ==> error.Some?
    ensures old(AllKeep(body.segments)) ==>
              StopAsked(stop.readings, old(stop.polled), stop.polled) || (error.None? && AllKeep(body.segments))
  {
    var buffer := new Byte[size](_ => 0);
    var result := body.Read(buffer, stop);
    if result.Err? {
      return [], Some(result.error);
    }
    PrefixOf(body.returned, RestOf(body.segments), body.whole);
    return buffer[..result.value], None;
  }

  /** Reading on with buffers of any sizes: what comes back is exactly the whole, byte for byte,
      of the declared length, and nothing after it; or the first failure, again and again. */
  method ReadAll(body: MultipartBody, sizes: seq<nat>, stop: StopToken) returns (bytes: Bytes, outcome: Option<BodyErrorCode>)
    requires body.Valid() && body.returned == [] && body.failure.None? && forall k :: 0 <= k < |sizes| ==> sizes[k] > 0
    modifies body, body.segments, stop
    ensures bytes <= body.whole && (outcome.None? ==> bytes == body.returned)
    ensures outcome.None? && |sizes| > |bytes| ==> bytes == body.whole && |bytes| == body.length
    ensures body.failure == outcome
    ensures stop.polled >= old(stop.polled)
    ensures old(AllKeep(body.segments)) && !StopAsked(stop.readings, old(stop.polled), stop.polled) ==> outcome.None?
  {
    bytes, outcome := [], None;
    ghost var ended := false;
    for k := 0 to |sizes|
      invariant body.Valid() && body.failure.None? && outcome.None? && bytes == body.returned && bytes <= body.whole
      invariant Suffix(body.segments, old(body.segments))
      invariant ended ==> bytes == body.whole && |bytes| == body.length
      invariant !ended ==> |bytes| >= k
      invariant stop.polled >= old(stop.polled)
      invariant old(AllKeep(body.segments)) && !StopAsked(stop.readings, old(stop.polled), stop.polled) ==> AllKeep(body.segments)
    {
      SuffixMembers(body.segments, old(body.segments));
      ghost var before, mid := body.segments, stop.polled;
      var read: Bytes;
      read, outcome := ReadMore(body, sizes[k], stop);
      AskedMeanwhile(stop.readings, old(stop.polled), mid, stop.polled);
      if outcome.Some? {
        return;
      }
      SuffixOfSuffix(body.segments, before, old(body.segments));
      bytes := bytes + read;
      ended := ended || read == [];
    }
  }

  lemma PrefixOf(front: Bytes, rest: Bytes, whole: Bytes)
    requires front + rest == whole
    ensures front <= whole && (|front| >= |whole| ==> front == whole)
  {
  }

  // ---------------------------------------------------------------- framing

  datatype Part = Part(name: string, filename: Option<string>, contentType: Option<string>, source: Source)

  /** The bytes of ASCII text; other text does not pass validation. */
  function Octets(text: string): (r: Bytes)
    ensures |r| == |text|
  {
    seq(|text|, i requires 0 <= i < |text| => text[i] as int % 256)
  }

  predicate Alphanumeric(c: char) {
    'a' <= c <= 'z' || 'A' <= c <= 'Z' || '0' <= c <= '9'
  }

  predicate TokenChar(c: char) {
    Alphanumeric(c) || c in "!#$%&'*+-.^_`|~"
  }

  predicate SimpleChar(c: char) {
    Alphanumeric(c) || c == '_' || c == '-'
  }

  predicate ValidName(name: string) {
    0 < |name| <= 64 && forall i :: 0 <= i < |name| ==> SimpleChar(name[i])
  }

  predicate ValidFilename(name: string) {
    0 < |name| <= 255 && forall i :: 0 <= i < |name| ==> SimpleChar(name[i]) || name[i] == '.'
  }

  predicate ValidContentType(value: string) {
    |value| <= 255
    && exists k :: 0 < k < |value| - 1 && value[k] == '/' && forall i :: 0 <= i < |value| && i != k ==> TokenChar(value[i])
  }

  predicate ValidPart(part: Part) {
    && ValidName(part.name)
    && (part.filename.Some? ==> ValidFilename(part.filename.value))
    && (part.contentType.Some? ==> ValidContentType(part.contentType.value))
  }

  predicate ValidBoundary(boundary: string) {
    0 < |boundary| <= MAX_BOUNDARY_BYTES && forall i :: 0 <= i < |boundary| ==> TokenChar(boundary[i])
  }

  const CRLF := "\r\n"

  /** The header lines of a body part. */
  function Headers(part: Part): string {
    "Content-Disposition: form-data; name=\"" + part.name + "\""
    + (if part.filename.Some? then "; filename=\"" + part.filename.value + "\"" else "")
    + CRLF
    + (if part.contentType.Some? then "Content-Type: " + part.contentType.value + CRLF else "")
  }

  /** Section 5.1.1 of RFC 2046: a body part is its headers, an empty line and its content. */
  function BodyPart(part: Part): Bytes {
    Octets(Headers(part) + CRLF) + part.source.rest
  }

  /** The first parts, each behind its delimiter line; the first line has no break in front. */
  function Encapsulated(parts: seq<Part>, boundary: string, count: nat): Bytes
    requires count <= |parts|
  {
    if count == 0 then []
    else
      Encapsulated(parts, boundary, count - 1)
      + (Octets((if count == 1 then "" else CRLF) + "--" + boundary + CRLF) + BodyPart(parts[count - 1]))
  }

  /** The whole multipart body, as one concatenation. */
  function Framing(parts: seq<Part>, boundary: string): Bytes {
    Encapsulated(parts, boundary, |parts|) + Octets(CRLF + "--" + boundary + "--" + CRLF)
  }

  /** The text in front of a part's content. */
  function Prefix(part: Part, boundary: string, index: nat): string {
    (if index == 0 then "" else CRLF) + "--" + boundary + CRLF
    + "Content-Disposition: form-data; name=\"" + part.name + "\""
    + (if part.filename.Some? then "; filename=\"" + part.filename.value + "\"" else "")
    + CRLF
    + (if part.contentType.Some? then "Content-Type: " + part.contentType.value + CRLF else "")
    + CRLF
  }

  function Closing(boundary: string): string {
    CRLF + "--" + boundary + "--" + CRLF
  }

  lemma OctetsConcat(a: string, b: string)
    ensures Octets(a + b) == Octets(a) + Octets(b)
  {
  }

  lemma PrefixIsDelimiterAndHeaders(part: Part, boundary: string, index: nat)
    ensures Octets(Prefix(part, boundary, index)) + part.source.rest
         == Octets((if index == 0 then "" else CRLF) + "--" + boundary + CRLF) + BodyPart(part)
  {
    var line := (if index == 0 then "" else CRLF) + "--" + boundary + CRLF;
    assert Prefix(part, boundary, index) == line + (Headers(part) + CRLF);
    OctetsConcat(line, Headers(part) + CRLF);
    Regroup(Octets(line), Octets(Headers(part) + CRLF), part.source.rest);
  }

  function DeclaredBytes(source: Source): nat {
    if DeclaredLength(source).Some? then DeclaredLength(source).value else 0
  }

  /** The declared length of the first parts, with their prefixes. */
  function DeclaredBefore(parts: seq<Part>, boundary: string, count: nat): nat
    requires count <= |parts|
  {
    if count == 0 then 0
    else DeclaredBefore(parts, boundary, count - 1) + |Prefix(parts[count - 1], boundary, count - 1)| + DeclaredBytes(parts[count - 1].source)
  }

  lemma {:induction false} RestOfAppend(segments: seq<ExactLengthBody>, last: ExactLengthBody)
    ensures RestOf(segments + [last]) == RestOf(segments) + last.Rest()
    ensures RemainingOf(segments + [last]) == RemainingOf(segments) + last.remaining
    decreases |segments|
  {
    if segments == [] {
      assert segments + [last] == [last] && RestOf([]) == [] && last.Rest() + [] == last.Rest();
    } else {
      assert (segments + [last])[1..] == segments[1..] + [last];
      RestOfAppend(segments[1..], last);
    }
  }

  lemma HealthyAppend(segments: seq<ExactLengthBody>, last: ExactLengthBody)
    requires Healthy(segments) && last.Valid() && last.failure.None? && last !in segments
    ensures Healthy(segments + [last])
  {
  }

  lemma AppendedFacts(segments: seq<ExactLengthBody>, last: ExactLengthBody)
    requires Healthy(segments) && last.Valid() && last.failure.None? && last !in segments
    ensures var longer := segments + [last];
            && Healthy(longer) && (forall i :: 0 <= i < |longer| ==> longer[i] in segments || longer[i] == last)
            && RestOf(longer) == RestOf(segments) + last.Rest() && RemainingOf(longer) == RemainingOf(segments) + last.remaining
            && (AllKeep(segments) && last.Keeps() ==> AllKeep(longer))
  {
    RestOfAppend(segments, last);
    HealthyAppend(segments, last);
  }

  /** Puts a source behind the segments, if the total stays within the limit. */
  method Append(segments: seq<ExactLengthBody>, total: nat, source: Source)
    returns (longer: seq<ExactLengthBody>, error: Option<BodyErrorCode>)
    requires Healthy(segments) && RemainingOf(segments) == total <= MAX_BODY_BYTES
    ensures error.None? <==> DeclaredLength(source).Some? && total + DeclaredLength(source).value <= MAX_BODY_BYTES
    ensures error.Some? ==> (error.value.Panicked? <==> DeclaredLength(source).None?)
    ensures error.None? ==>
              && Healthy(longer) && RestOf(longer) == RestOf(segments) + source.rest
              && RemainingOf(longer) == total + DeclaredLength(source).value
              && (AllKeep(segments) && Honest(source, DeclaredLength(source).value) ==> AllKeep(longer))
    ensures forall i :: 0 <= i < |longer| ==> longer[i] in segments || fresh(longer[i])
  {
    var body := ExactLengthBody.Create(source);
    if body.Err? {
      return segments, Some(body.error);
    }
    var last := body.value;
    if last.length > MAX_BODY_BYTES - total {
      return segments, Some(ReadFailed);
    }
    assert forall i :: 0 <= i < |segments| ==> segments[i] != last;
    AppendedFacts(segments, last);
    return segments + [last], None;
  }

  function PartError(part: Part): Option<MultipartError> {
    if !ValidName(part.name) then Some(InvalidPartName)
    else if part.filename.Some? && !ValidFilename(part.filename.value) then Some(InvalidFilename)
    else if part.contentType.Some? && !ValidContentType(part.contentType.value) then Some(InvalidContentType)
    else None
  }

  predicate PartFits(part: Part, boundary: string, index: nat, total: nat) {
    && ValidPart(part) && DeclaredLength(part.source).Some?
    && total + |Prefix(part, boundary, index)| + DeclaredBytes(part.source) <= MAX_BODY_BYTES
  }

  ghost predicate HonestPart(part: Part) {
    Honest(part.source, DeclaredBytes(part.source))
  }

  ghost predicate HonestParts(parts: seq<Part>) {
    forall i :: 0 <= i < |parts| ==> HonestPart(parts[i])
  }

  /** A prefix in memory and the source behind it. */
  method AppendBoth(segments: seq<ExactLengthBody>, total: nat, prefix: Bytes, source: Source)
    returns (longer: seq<ExactLengthBody>, fits: bool)
    requires Healthy(segments) && RemainingOf(segments) == total <= MAX_BODY_BYTES && DeclaredLength(source).Some?
    ensures fits <==> total + |prefix| + DeclaredBytes(source) <= MAX_BODY_BYTES
    ensures fits ==>
              && Healthy(longer) && RestOf(longer) == RestOf(segments) + (prefix + source.rest)
              && RemainingOf(longer) == total + |prefix| + DeclaredBytes(source)
              && (AllKeep(segments) && Honest(source, DeclaredBytes(source)) ==> AllKeep(longer))
    ensures forall i :: 0 <= i < |longer| ==> longer[i] in segments || fresh(longer[i])
  {
    var behindPrefix, error := Append(segments, total, Memory(prefix));
    if error.Some? {
      return segments, false;
    }
    longer, error := Append(behindPrefix, total + |prefix|, source);
    if error.Some? {
      return segments, false;
    }
    Regroup(RestOf(segments), prefix, source.rest);
    return longer, true;
  }

  /** One part: its prefix, then its content. */
  method AppendPart(segments: seq<ExactLengthBody>, total: nat, part: Part, boundary: string, index: nat)
    returns (longer: seq<ExactLengthBody>, error: Option<MultipartError>)
    requires Healthy(segments) && RemainingOf(segments) == total <= MAX_BODY_BYTES
    ensures error.None? <==> PartFits(part, boundary, index, total)
    ensures PartError(part).Some? ==> error == PartError(part)
    ensures PartError(part).None? && DeclaredLength(part.source).None? ==> error == Some(InvalidBody)
    ensures PartError(part).None? && DeclaredLength(part.source).Some? && error.Some? ==> error == Some(BodyTooLarge)
    ensures error.None? ==>
              && Healthy(longer)
              && RestOf(longer) == RestOf(segments) + (Octets(Prefix(part, boundary, index)) + part.source.rest)
              && RemainingOf(longer) == total + |Prefix(part, boundary, index)| + DeclaredBytes(part.source)
              && (AllKeep(segments) && HonestPart(part) ==> AllKeep(longer))
    ensures forall i :: 0 <= i < |longer| ==> longer[i] in segments || fresh(longer[i])
  {
    if PartError(part).Some? {
      return segments, PartError(part);
    }
    var declared := DeclaredLength(part.source);
    if declared.None? {
      return segments, Some(InvalidBody);
    }
    if declared.value > MAX_BODY_BYTES {
      return segments, Some(BodyTooLarge);
    }
    var fits: bool;
    longer, fits := AppendBoth(segments, total, Octets(Prefix(part, boundary, index)), part.source);
    return longer, if fits then None else Some(BodyTooLarge);
  }

  /** The first parts are valid and their declared lengths fit. */
  predicate Acceptable(parts: seq<Part>, boundary: string, count: nat)
    requires count <= |parts|
  {
    count == 0
    || (Acceptable(parts, boundary, count - 1)
        && PartFits(parts[count - 1], boundary, count - 1, DeclaredBefore(parts, boundary, count - 1)))
  }

  lemma {:induction false} NotAcceptable(parts: seq<Part>, boundary: string, i: nat, j: nat)
    requires i <= j <= |parts| && !Acceptable(parts, boundary, i)
    ensures !Acceptable(parts, boundary, j)
  {
    if i < j {
      NotAcceptable(parts, boundary, i, j - 1);
    }
  }

  lemma {:induction false} AcceptableMeans(parts: seq<Part>, boundary: string, count: nat)
    requires count <= |parts|
    ensures Acceptable(parts, boundary, count) <==>
              (forall i :: 0 <= i < count ==> ValidPart(parts[i]) && DeclaredLength(parts[i].source).Some?)
              && DeclaredBefore(parts, boundary, count) <= MAX_BODY_BYTES
  {
    if count > 0 {
      AcceptableMeans(parts, boundary, count - 1);
    }
  }

  /** The segments stand for the first parts, and keep their word if all sources do. */
  ghost predicate Stands(segments: seq<ExactLengthBody>, parts: seq<Part>, boundary: string, count: nat)
    requires count <= |parts|
    reads segments
  {
    && Acceptable(parts, boundary, count) && Healthy(segments)
    && RestOf(segments) == Encapsulated(parts, boundary, count) && RemainingOf(segments) == DeclaredBefore(parts, boundary, count)
    && (HonestParts(parts) ==> AllKeep(segments))
  }

  lemma StandsAtStart(parts: seq<Part>, boundary: string)
    ensures Stands([], parts, boundary, 0)
  {
  }

  lemma EncapsulatedNext(parts: seq<Part>, boundary: string, index: nat)
    requires index < |parts|
    ensures Encapsulated(parts, boundary, index + 1)
         == Encapsulated(parts, boundary, index) + (Octets(Prefix(parts[index], boundary, index)) + parts[index].source.rest)
  {
    PrefixIsDelimiterAndHeaders(parts[index], boundary, index);
  }

  lemma StandsNext(segments: seq<ExactLengthBody>, longer: seq<ExactLengthBody>, parts: seq<Part>, boundary: string, index: nat)
    requires index < |parts| && Stands(segments, parts, boundary, index)
    requires PartFits(parts[index], boundary, index, DeclaredBefore(parts, boundary, index)) && Healthy(longer)
    requires RestOf(longer) == RestOf(segments) + (Octets(Prefix(parts[index], boundary, index)) + parts[index].source.rest)
    requires RemainingOf(longer) == RemainingOf(segments) + |Prefix(parts[index], boundary, index)| + DeclaredBytes(parts[index].source)
    requires AllKeep(segments) && HonestPart(parts[index]) ==> AllKeep(longer)
    ensures Stands(longer, parts, boundary, index + 1)
  {
    EncapsulatedNext(parts, boundary, index);
  }

  method AppendNext(segments: seq<ExactLengthBody>, parts: seq<Part>, boundary: string, index: nat)
    returns (longer: seq<ExactLengthBody>, error: Option<MultipartError>)
    requires index < |parts| && Stands(segments, parts, boundary, index)
    ensures error.Some? ==> !Acceptable(parts, boundary, |parts|)
    ensures error.None? ==> Stands(longer, parts, boundary, index + 1)
    ensures forall i :: 0 <= i < |longer| ==> longer[i] in segments || fresh(longer[i])
  {
    ghost var total := DeclaredBefore(parts, boundary, index);
    longer, error := AppendPart(segments, DeclaredBefore(parts, boundary, index), parts[index], boundary, index);
    if error.Some? {
      assert !PartFits(parts[index], boundary, index, total);
      NotAcceptable(parts, boundary, index + 1, |parts|);
    } else {
      StandsNext(segments, longer, parts, boundary, index);
    }
  }

  /** The parts one after the other. */
  method AppendParts(parts: seq<Part>, boundary: string) returns (segments: seq<ExactLengthBody>, error: Option<MultipartError>)
    ensures error.Some? ==> !Acceptable(parts, boundary, |parts|)
    ensures error.None? ==> Stands(segments, parts, boundary, |parts|)
    ensures forall i :: 0 <= i < |segments| ==> fresh(segments[i])
  {
    segments, error := [], None;
    StandsAtStart(parts, boundary);
    for index := 0 to |parts|
      invariant Stands(segments, parts, boundary, index)
      invariant error.None?
      invariant forall i :: 0 <= i < |segments| ==> fresh(segments[i])
    {
      ghost var had := segments;
      segments, error := AppendNext(segments, parts, boundary, index);
      forall i | 0 <= i < |segments|
        ensures fresh(segments[i])
      {
        assert segments[i] in had ==> fresh(segments[i]);
      }
      if error.Some? {
        return;
      }
    }
  }

  predicate AcceptableForm(parts: seq<Part>, boundary: string) {
    && 1 <= |parts| <= MAX_PARTS && ValidBoundary(boundary) && Acceptable(parts, boundary, |parts|)
    && DeclaredBefore(parts, boundary, |parts|) + |Closing(boundary)| <= MAX_BODY_BYTES
  }

  lemma FramingIsClosed(parts: seq<Part>, boundary: string)
    ensures Framing(parts, boundary) == Encapsulated(parts, boundary, |parts|) + Octets(Closing(boundary))
  {
  }

  /** Puts the closing delimiter behind the parts. */
  method Close(segments: seq<ExactLengthBody>, parts: seq<Part>, boundary: string, total: nat) returns (result: Result<MultipartBody, MultipartError>)
    requires Stands(segments, parts, boundary, |parts|) && total == DeclaredBefore(parts, boundary, |parts|) <= MAX_BODY_BYTES
    ensures result.Ok? <==> total + |Closing(boundary)| <= MAX_BODY_BYTES
    ensures result.Ok? ==>
              && fresh(result.value) && result.value.Valid() && result.value.failure.None? && result.value.returned == []
              && (forall i :: 0 <= i < |result.value.segments| ==> result.value.segments[i] in segments || fresh(result.value.segments[i]))
              && result.value.whole == Framing(parts, boundary) && result.value.length == total + |Closing(boundary)|
              && (HonestParts(parts) ==> AllKeep(result.value.segments))
  {
    var closing := Octets(Closing(boundary));
    var closed, error := Append(segments, total, Memory(closing));
    if error.Some? {
      return Err(BodyTooLarge);
    }
    FramingIsClosed(parts, boundary);
    var body := new MultipartBody(closed, total + |closing|);
    return Ok(body);
  }

  lemma AcceptableFits(parts: seq<Part>, boundary: string)
    requires Acceptable(parts, boundary, |parts|)
    ensures DeclaredBefore(parts, boundary, |parts|) <= MAX_BODY_BYTES
  {
    AcceptableMeans(parts, boundary, |parts|);
  }

  /** A form is accepted exactly when its parts are valid and its declared length fits; what it
      will stream is the multipart framing of its parts. */
  method WithBoundary(parts: seq<Part>, boundary: string) returns (result: Result<MultipartBody, MultipartError>)
    ensures result.Ok? <==> AcceptableForm(parts, boundary)
    ensures parts == [] ==> result == Err(EmptyParts)
    ensures |parts| > MAX_PARTS ==> result == Err(TooManyParts)
    ensures 1 <= |parts| <= MAX_PARTS && !ValidBoundary(boundary) ==> result == Err(InvalidBoundary)
    ensures result.Ok? ==>
              && fresh(result.value) && result.value.Valid() && result.value.failure.None? && result.value.returned == []
              && (forall i :: 0 <= i < |result.value.segments| ==> fresh(result.value.segments[i]))
              && result.value.whole == Framing(parts, boundary)
              && result.value.length == DeclaredBefore(parts, boundary, |parts|) + |Closing(boundary)|
              && (HonestParts(parts) ==> AllKeep(result.value.segments))
  {
    if |parts| == 0 {
      return Err(EmptyParts);
    }
    if |parts| > MAX_PARTS {
      return Err(TooManyParts);
    }
    if !ValidBoundary(boundary) {
      return Err(InvalidBoundary);
    }
    var segments, error := AppendParts(parts, boundary);
    if error.Some? {
      return Err(error.value);
    }
    AcceptableFits(parts, boundary);
    result := Close(segments, parts, boundary, DeclaredBefore(parts, boundary, |parts|));
  }

  /** A form that reaches its end has streamed its framing, and every source held exactly what it
      declared: a form with a short or a long source never gets there. One whose sources keep
      their word does, unless somebody asks it to stop or the reader leaves early. */
  method StreamForm(parts: seq<Part>, boundary: string, sizes: seq<nat>, stop: StopToken)
    returns (bytes: Bytes, ended: bool)
    requires AcceptableForm(parts, boundary) && forall k :: 0 <= k < |sizes| ==> sizes[k] > 0
    modifies stop
    ensures ended ==> bytes == Framing(parts, boundary)
                      && |bytes| == DeclaredBefore(parts, boundary, |parts|) + |Closing(boundary)|
    ensures !ended ==> bytes <= Framing(parts, boundary)
    ensures stop.polled >= old(stop.polled)
    ensures HonestParts(parts) && |sizes| > |Framing(parts, boundary)| ==>
              StopAsked(stop.readings, old(stop.polled), stop.polled) || ended
  {
    var form := WithBoundary(parts, boundary);
    var read, outcome := ReadAll(form.value, sizes, stop);
    ended := outcome.None? && |sizes| > |read|;
    bytes := read;
  }
}
