/** The archive reader: finds the directory of a ZIP file, selects the one log in it, checks its
    headers and hands out its payload (PKWARE APPNOTE, sections 4.3 and 4.5.3). */
module ZevtcArchive {
  import opened Outcomes
  import opened ByteStrings
  import opened StopTokens

  datatype Fault = Invalid | Limit | Cancelled

  datatype Limits = Limits(archive: nat, uncompressed: nat, entries: nat, filename: nat, ratio: nat)

  datatype Directory = Directory(offset: nat, size: nat, count: nat)

  datatype Entry = Entry(
    name: Bytes, flags: nat, method_: nat, crc: nat, compressed: nat, uncompressed: nat, offset: nat, zip64Sizes: bool)

  const MAX_U16: nat := 0xFFFF
  const MAX_U32: nat := 0xFFFF_FFFF
  const MAX_U64: nat := 0xFFFF_FFFF_FFFF_FFFF
  const CHUNK: nat := 64 * 1024

  /** "PK" and two type bytes. */
  const LOCAL: Bytes := [0x50, 0x4b, 3, 4]
  const CENTRAL: Bytes := [0x50, 0x4b, 1, 2]
  const END: Bytes := [0x50, 0x4b, 5, 6]
  const END64: Bytes := [0x50, 0x4b, 6, 6]
  const LOCATOR: Bytes := [0x50, 0x4b, 6, 7]
  const DESCRIPTOR_SIGNATURE: nat := 0x0807_4b50

  // ---------------------------------------------------------------- fields

  /** The little-endian integer of `width` bytes at a place that has them. */
  function Word(bytes: Bytes, offset: nat, width: nat): nat
    requires offset + width <= |bytes|
  {
    FromLittleEndian(bytes[offset..offset + width])
  }

  function Field(bytes: Bytes, offset: nat, width: nat): Result<nat, Fault> {
    if offset + width <= |bytes| then Ok(Word(bytes, offset, width)) else Err(Invalid)
  }

  function Least(a: nat, b: nat): nat {
    if a < b then a else b
  }

  // ---------------------------------------------------------------- the directory

  /** An end record at the offset whose comment reaches exactly to the end. */
  predicate IsEnd(tail: Bytes, offset: nat)
    requires offset + 22 <= |tail|
  {
    tail[offset..offset + 4] == END && offset + 22 + Word(tail, offset + 20, 2) == |tail|
  }

  /** The last such offset up to the given one. */
  function LastEnd(tail: Bytes, from: nat): (r: Option<nat>)
    requires from + 22 <= |tail|
    ensures r.Some? ==> r.value <= from && IsEnd(tail, r.value)
  {
    if IsEnd(tail, from) then Some(from) else if from == 0 then None else LastEnd(tail, from - 1)
  }

  /** No end record lies behind the one that is found. */
  lemma {:induction false} LastEndIsLast(tail: Bytes, from: nat, o: nat)
    requires o <= from && from + 22 <= |tail| && IsEnd(tail, o)
    ensures LastEnd(tail, from).Some? && o <= LastEnd(tail, from).value
  {
    if !IsEnd(tail, from) {
      LastEndIsLast(tail, from - 1, o);
    }
  }

  /** A directory and where its end record starts. */
  datatype Located = Located(directory: Directory, end: nat)

  predicate Agrees(short: nat, long: nat, sentinel: nat) {
    short == sentinel || short == long
  }

  /** The ZIP64 end record that the locator in front of the end record points to. */
  function Zip64Directory(file: Bytes, endOffset: nat, short: Directory): Result<Located, Fault>
    requires 20 <= endOffset <= |file|
  {
    var locator := file[endOffset - 20..endOffset];
    if Word(locator, 4, 4) != 0 || Word(locator, 16, 4) != 1 then Err(Invalid)
    else
      var offset := Word(locator, 8, 8);
      if offset + 56 > |file| then Err(Invalid)
      else
        var record := file[offset..offset + 56];
        var recordSize := Word(record, 4, 8);
        if record[..4] != END64 || recordSize < 44 || offset + 12 + recordSize != endOffset - 20
           || Word(record, 16, 4) != 0 || Word(record, 20, 4) != 0 || Word(record, 24, 8) != Word(record, 32, 8) then Err(Invalid)
        else
          var extended := Directory(Word(record, 48, 8), Word(record, 40, 8), Word(record, 32, 8));
          if !Agrees(short.offset, extended.offset, MAX_U32) || !Agrees(short.size, extended.size, MAX_U32)
             || !Agrees(short.count, extended.count, MAX_U16) then Err(Invalid)
          else Ok(Located(extended, offset))
  }

  predicate HasLocator(file: Bytes, endOffset: nat)
    requires endOffset <= |file|
  {
    endOffset >= 20 && file[endOffset - 20..endOffset - 16] == LOCATOR
  }

  function Locate(file: Bytes, endOffset: nat): Result<Located, Fault>
    requires endOffset + 22 <= |file|
  {
    var end := file[endOffset..];
    if Word(end, 4, 2) != 0 || Word(end, 6, 2) != 0 || Word(end, 8, 2) != Word(end, 10, 2) then Err(Invalid)
    else
      var short := Directory(Word(end, 16, 4), Word(end, 12, 4), Word(end, 10, 2));
      if HasLocator(file, endOffset) then Zip64Directory(file, endOffset, short)
      else if short.offset == MAX_U32 || short.size == MAX_U32 || short.count == MAX_U16 then Err(Invalid)
      else Ok(Located(short, endOffset))
  }

  /** Bounds on the directory; products that do not fit 64 bits count as beyond the limit. */
  function CheckDirectory(located: Located, limits: Limits): Result<Directory, Fault> {
    var d := located.directory;
    var perEntry := 46 + limits.filename + 2 * MAX_U16;
    if d.count > limits.entries then Err(Limit)
    else if d.offset + d.size != located.end then Err(Invalid)
    else if perEntry > MAX_U64 || d.count * perEntry > MAX_U64 || d.size > d.count * perEntry then Err(Limit)
    else Ok(d)
  }

  function TailSize(file: Bytes): nat {
    Least(|file|, 22 + MAX_U16)
  }

  /** The offset of the end record, looked for from the back. */
  function EndOffset(file: Bytes): Option<nat>
    requires |file| >= 22
  {
    var tail := file[|file| - TailSize(file)..];
    var end := LastEnd(tail, |tail| - 22);
    if end.None? then None else Some(|file| - |tail| + end.value)
  }

  function ReadDirectory(file: Bytes, limits: Limits): Result<Directory, Fault> {
    if |file| < 22 || EndOffset(file).None? then Err(Invalid)
    else
      var located :- Locate(file, EndOffset(file).value);
      CheckDirectory(located, limits)
  }

  // ---------------------------------------------------------------- central records

  /** The value of the first extra field with tag 1; two of them are an error. */
  function Zip64Extra(rest: Bytes, found: Option<Bytes>): Result<Option<Bytes>, Fault>
    decreases |rest|
  {
    if rest == [] then Ok(found)
    else
      var tag :- Field(rest, 0, 2);
      var length :- Field(rest, 2, 2);
      if 4 + length > |rest| then Err(Invalid)
      else if tag == 1 && found.Some? then Err(Invalid)
      else Zip64Extra(rest[4 + length..], if tag == 1 then Some(rest[4..4 + length]) else found)
  }

  function ValueOrEmpty(found: Option<Bytes>): Bytes {
    if found.Some? then found.value else []
  }

  datatype Wide = Wide(value: nat, rest: Bytes)

  /** A saturated 32-bit field continues in the ZIP64 extra field. */
  function Extended(value: nat, extra: Bytes): Result<Wide, Fault> {
    if value != MAX_U32 then Ok(Wide(value, extra))
    else
      var wide :- Field(extra, 0, 8);
      Ok(Wide(wide, extra[8..]))
  }

  function LowerAscii(b: Byte): Byte {
    if 0x41 <= b <= 0x5a then b + 32 else b
  }

  /** The name ends in ".evtc", in any ASCII case. */
  predicate IsEvtc(name: Bytes) {
    |name| >= 5 && name[|name| - 5] == 0x2e && LowerAscii(name[|name| - 4]) == 0x65 && LowerAscii(name[|name| - 3]) == 0x76
    && LowerAscii(name[|name| - 2]) == 0x74 && LowerAscii(name[|name| - 1]) == 0x63
  }

  /** What follows the last slash or backslash. */
  function Leaf(name: Bytes): Bytes {
    if name == [] then []
    else
      var last := name[|name| - 1];
      if last == 0x2f || last == 0x5c then [] else Leaf(name[..|name| - 1]) + [last]
  }

  predicate IsPlainLeaf(name: Bytes) {
    Leaf(name) != [] && 0x2e !in Leaf(name)
  }

  /** One central record: its length, whether it is a directory, and its entry. */
  datatype Record = Record(length: nat, isDirectory: bool, entry: Entry)

  function ReadRecord(bytes: Bytes, limits: Limits): Result<Record, Fault> {
    if |bytes| < 4 || bytes[..4] != CENTRAL then Err(Invalid)
    else
      var nameLength :- Field(bytes, 28, 2);
      var extraLength :- Field(bytes, 30, 2);
      var commentLength :- Field(bytes, 32, 2);
      if nameLength > limits.filename then Err(Limit)
      else if 46 + nameLength + extraLength > |bytes| then Err(Invalid)
      else
        RecordAround(bytes, nameLength, bytes[46 + nameLength..46 + nameLength + extraLength], commentLength)
  }

  /** A record whose name is followed by these extra fields. */
  function RecordAround(bytes: Bytes, nameLength: nat, extra: Bytes, commentLength: nat): Result<Record, Fault>
    requires 46 + nameLength + |extra| <= |bytes|
  {
    var found :- Zip64Extra(extra, None);
    RecordWith(bytes, nameLength, |extra|, commentLength, ValueOrEmpty(found))
  }

  /** The rest of a record, once its lengths are known and its ZIP64 field was found. */
  function RecordWith(bytes: Bytes, nameLength: nat, extraLength: nat, commentLength: nat, wide: Bytes): Result<Record, Fault>
    requires 46 + nameLength + extraLength <= |bytes|
  {
    var name := bytes[46..46 + nameLength];
    var uncompressed :- Extended(Word(bytes, 24, 4), wide);
    var compressed :- Extended(Word(bytes, 20, 4), uncompressed.rest);
    var offset :- Extended(Word(bytes, 42, 4), compressed.rest);
    var disk := Word(bytes, 34, 2);
    var wideDisk :- if disk == MAX_U16 then Field(offset.rest, 0, 4) else Ok(disk);
    if wideDisk != 0 then Err(Invalid)
    else
      var isDirectory := (name != [] && name[|name| - 1] == 0x2f) || Word(bytes, 38, 4) / 16 % 2 == 1;
      Ok(Record(46 + nameLength + extraLength + commentLength, isDirectory,
        Entry(name, Word(bytes, 8, 2), Word(bytes, 10, 2), Word(bytes, 16, 4), compressed.value, uncompressed.value, offset.value,
              Word(bytes, 24, 4) == MAX_U32 || Word(bytes, 20, 4) == MAX_U32)))
  }

  /** What the records seen so far leave to choose from. */
  datatype Choice = Choice(selected: Option<Entry>, fallback: Option<Entry>, files: nat)

  const NO_CHOICE: Choice := Choice(None, None, 0)

  /** A second log is an error; a file without an extension may stand in for one. */
  function Consider(choice: Choice, record: Record): Result<Choice, Fault> {
    if record.isDirectory then Ok(choice)
    else
      var counted := choice.(files := choice.files + 1);
      if IsEvtc(record.entry.name) then
        if choice.selected.Some? then Err(Invalid) else Ok(counted.(selected := Some(record.entry)))
      else if IsPlainLeaf(record.entry.name) then Ok(counted.(fallback := Some(record.entry)))
      else Ok(counted)
  }

  type RecordReader = Bytes -> Result<Record, Fault>

  function Reader(limits: Limits): RecordReader {
    (bytes: Bytes) => ReadRecord(bytes, limits)
  }

  /** Exactly `count` records, one after the other, and nothing behind them. */
  function Scan(bytes: Bytes, count: nat, read: RecordReader, choice: Choice): Result<Choice, Fault>
    decreases count
  {
    if count == 0 then (if bytes == [] then Ok(choice) else Err(Invalid))
    else
      var record :- read(bytes);
      var next :- Consider(choice, record);
      if record.length > |bytes| then Err(Invalid) else Scan(bytes[record.length..], count - 1, read, next)
  }

  function Chosen(choice: Choice): Result<Entry, Fault> {
    if choice.selected.Some? then Ok(choice.selected.value)
    else if choice.files == 1 && choice.fallback.Some? then Ok(choice.fallback.value)
    else Err(Invalid)
  }

  /** The entry that a directory of so many records leads to. */
  function Picked(directory: Bytes, count: nat, read: RecordReader): Result<Entry, Fault> {
    var choice :- Scan(directory, count, read, NO_CHOICE);
    Chosen(choice)
  }

  // ---------------------------------------------------------------- local header and descriptor

  /** Where the payload starts, and the entry with what the local header adds to it. */
  datatype Payload = Payload(start: nat, entry: Entry)

  predicate Streamed(entry: Entry) {
    entry.flags / 8 % 2 == 1
  }

  predicate ZeroOr(value: nat, expected: nat) {
    value == 0 || value == expected
  }

  function ValidateLocal(file: Bytes, entry: Entry, directoryStart: nat): Result<Payload, Fault> {
    if entry.offset + 30 > |file| then Err(Invalid)
    else
      var header := file[entry.offset..entry.offset + 30];
      if header[..4] != LOCAL || Word(header, 6, 2) != entry.flags || Word(header, 8, 2) != entry.method_ then Err(Invalid)
      else
        var nameLength, extraLength := Word(header, 26, 2), Word(header, 28, 2);
        var variableStart := entry.offset + 30;
        var start := variableStart + nameLength + extraLength;
        if nameLength != |entry.name| || start > directoryStart || start > |file| then Err(Invalid)
        else if file[variableStart..variableStart + nameLength] != entry.name then Err(Invalid)
        else
          LocalAround(header, entry, start, file[variableStart + nameLength..start])
  }

  /** A local header with these extra fields agrees with the entry. */
  function LocalAround(header: Bytes, entry: Entry, start: nat, extra: Bytes): Result<Payload, Fault>
    requires |header| == 30
  {
    var found :- Zip64Extra(extra, None);
    var uncompressed :- Extended(Word(header, 22, 4), ValueOrEmpty(found));
    var compressed :- Extended(Word(header, 18, 4), uncompressed.rest);
    var crc := Word(header, 14, 4);
    var wide := entry.zip64Sizes || Word(header, 22, 4) == MAX_U32 || Word(header, 18, 4) == MAX_U32;
    var consistent := if Streamed(entry)
      then ZeroOr(crc, entry.crc) && ZeroOr(compressed.value, entry.compressed) && ZeroOr(uncompressed.value, entry.uncompressed)
      else crc == entry.crc && compressed.value == entry.compressed && uncompressed.value == entry.uncompressed;
    if consistent then Ok(Payload(start, entry.(zip64Sizes := wide))) else Err(Invalid)
  }

  /** A descriptor at the place has the entry's checksum and sizes. */
  predicate Describes(bytes: Bytes, at: nat, entry: Entry) {
    var width := if entry.zip64Sizes then 20 else 12;
    && at + width <= |bytes|
    && Word(bytes, at, 4) == entry.crc
    && (if entry.zip64Sizes
        then Word(bytes, at + 4, 8) == entry.compressed && Word(bytes, at + 12, 8) == entry.uncompressed
        else Word(bytes, at + 4, 4) == entry.compressed && Word(bytes, at + 8, 4) == entry.uncompressed)
  }

  /** With or without its signature. */
  predicate HasDescriptor(file: Bytes, offset: nat, bound: nat, entry: Entry)
    requires offset <= bound <= |file|
  {
    var width := if entry.zip64Sizes then 20 else 12;
    && offset + width <= bound
    && var bytes := file[offset..offset + Least(bound - offset, width + 4)];
       Describes(bytes, 0, entry) || (Word(bytes, 0, 4) == DESCRIPTOR_SIGNATURE && Describes(bytes, 4, entry))
  }

  // ---------------------------------------------------------------- extraction

  /** What inflating yields: the bytes, how much of the input it took, and whether it failed
      after them. */
  datatype Inflated = Inflated(bytes: Bytes, taken: nat, failed: bool)

  /** The two foreign computations. */
  datatype Codec = Codec(crc: Bytes -> nat, inflate: Bytes -> Inflated)

  /** Only the deflate level, streaming and UTF-8 flags. */
  predicate KnownFlags(flags: nat) {
    flags % 2 == 0 && flags / 16 % 128 == 0 && flags / 4096 == 0
  }

  function CheckEntry(entry: Entry, limits: Limits): Option<Fault> {
    if !KnownFlags(entry.flags) || (entry.method_ != 0 && entry.method_ != 8) || entry.uncompressed == 0 then Some(Invalid)
    else if entry.uncompressed > limits.uncompressed || entry.uncompressed > entry.compressed * limits.ratio then Some(Limit)
    else None
  }

  /** The payload as a stream, and whether the stream ends in a failure. */
  function StreamOf(compressed: Bytes, method_: nat, codec: Codec): Inflated {
    if method_ == 0 then Inflated(compressed, |compressed|, false) else codec.inflate(compressed)
  }

  /** Everything the stream has, unless it fails or has more than expected. */
  function Drained(stream: Inflated, expected: nat): Result<Bytes, Fault> {
    if |stream.bytes| > expected || stream.failed then Err(Invalid) else Ok(stream.bytes)
  }

  function Unpacked(compressed: Bytes, entry: Entry, codec: Codec): Result<Bytes, Fault> {
    if entry.method_ == 0 && entry.compressed != entry.uncompressed then Err(Invalid)
    else
      var stream := StreamOf(compressed, entry.method_, codec);
      var output :- Drained(stream, entry.uncompressed);
      if entry.method_ == 8 && stream.taken != entry.compressed then Err(Invalid)
      else if |output| != entry.uncompressed || codec.crc(output) != entry.crc then Err(Invalid)
      else Ok(output)
  }

  function Checked(d: Directory, picked: Result<Entry, Fault>, limits: Limits): Result<(Directory, Entry), Fault> {
    var entry :- picked;
    if CheckEntry(entry, limits).Some? then Err(CheckEntry(entry, limits).value) else Ok((d, entry))
  }

  /** The entry a directory leads to, checked against the limits. */
  function SelectedIn(file: Bytes, d: Directory, limits: Limits): Result<(Directory, Entry), Fault> {
    SelectedBy(file, d, Reader(limits), limits)
  }

  function SelectedBy(file: Bytes, d: Directory, read: RecordReader, limits: Limits): Result<(Directory, Entry), Fault> {
    if d.offset + d.size > |file| then Err(Invalid)
    else Checked(d, Picked(file[d.offset..d.offset + d.size], d.count, read), limits)
  }

  function Selected(file: Bytes, limits: Limits): Result<(Directory, Entry), Fault> {
    var directory :- ReadDirectory(file, limits);
    SelectedIn(file, directory, limits)
  }

  /** Where the payload lies, after the headers around it were checked. */
  function PayloadOf(file: Bytes, directory: Directory, entry: Entry): Result<Payload, Fault>
    requires directory.offset <= |file|
  {
    var payload :- ValidateLocal(file, entry, directory.offset);
    var end := payload.start + entry.compressed;
    if end > directory.offset then Err(Invalid)
    else if Streamed(entry) && !HasDescriptor(file, end, directory.offset, payload.entry) then Err(Invalid)
    else Ok(payload)
  }

  /** The payload of an entry of the file. */
  function PayloadBytes(file: Bytes, directory: Directory, entry: Entry, codec: Codec): Result<Bytes, Fault>
    requires directory.offset <= |file|
  {
    var payload :- PayloadOf(file, directory, entry);
    Unpacked(file[payload.start..payload.start + payload.entry.compressed], payload.entry, codec)
  }

  function FromSelected(file: Bytes, limits: Limits, codec: Codec): Result<Bytes, Fault> {
    var selected :- Selected(file, limits);
    PayloadBytes(file, selected.0, selected.1, codec)
  }

  /** What extraction yields when nobody stops it; `size` is what the caller takes the file for. */
  function Extracted(file: Bytes, size: nat, limits: Limits, codec: Codec): Result<Bytes, Fault> {
    if size > limits.archive then Err(Limit)
    else if |file| != size then Err(Invalid)
    else FromSelected(file, limits, codec)
  }

  // ---------------------------------------------------------------- the loops

  /** Looks for the end record from the back. */
  method FindEnd(tail: Bytes) returns (end: Option<nat>)
    requires |tail| >= 22
    ensures end == LastEnd(tail, |tail| - 22)
  {
    var offset := |tail| - 22;
    while !IsEnd(tail, offset)
      invariant 0 <= offset <= |tail| - 22 && LastEnd(tail, offset) == LastEnd(tail, |tail| - 22)
      decreases offset
    {
      if offset == 0 {
        return None;
      }
      offset := offset - 1;
    }
    return Some(offset);
  }

  /** Walks the extra fields. */
  method ScanExtra(extra: Bytes) returns (result: Result<Option<Bytes>, Fault>)
    ensures result == Zip64Extra(extra, None)
  {
    var rest, found: Option<Bytes> := extra, None;
    while rest != []
      invariant Zip64Extra(rest, found) == Zip64Extra(extra, None)
      decreases |rest|
    {
      var tag, length := Field(rest, 0, 2), Field(rest, 2, 2);
      if tag.Err? || length.Err? || 4 + length.value > |rest| {
        return Err(Invalid);
      }
      if tag.value == 1 {
        if found.Some? {
          return Err(Invalid);
        }
        found := Some(rest[4..4 + length.value]);
      }
      rest := rest[4 + length.value..];
    }
    return Ok(found);
  }

  /** The token was read as requesting a stop between two of its readings. */
  ghost predicate Asked(readings: nat -> bool, from: nat, to: nat) {
    exists k :: from <= k < to && readings(k)
  }

  /** The result of a step that is cancelled exactly if the token said so meanwhile. */
  ghost predicate StoppedOr<T>(readings: nat -> bool, from: nat, to: nat, result: Result<T, Fault>, unstopped: Result<T, Fault>) {
    from <= to && result == if Asked(readings, from, to) then Err(Cancelled) else unstopped
  }

  lemma StoppedNow<T>(readings: nat -> bool, from: nat, at: nat, unstopped: Result<T, Fault>)
    requires from <= at && readings(at)
    ensures StoppedOr(readings, from, at + 1, Err(Cancelled), unstopped)
  {
  }

  /** A reading that did not ask for a stop changes nothing. */
  lemma NotStoppedYet<T>(readings: nat -> bool, from: nat, to: nat, result: Result<T, Fault>, unstopped: Result<T, Fault>)
    requires !readings(from) && StoppedOr(readings, from + 1, to, result, unstopped)
    ensures StoppedOr(readings, from, to, result, unstopped)
  {
    assert Asked(readings, from, to) <==> Asked(readings, from + 1, to);
  }

  lemma NotStoppedBefore<T>(readings: nat -> bool, from: nat, mid: nat, to: nat, result: Result<T, Fault>, unstopped: Result<T, Fault>)
    requires from <= mid && !Asked(readings, from, mid) && StoppedOr(readings, mid, to, result, unstopped)
    ensures StoppedOr(readings, from, to, result, unstopped)
  {
    assert Asked(readings, from, to) <==> Asked(readings, mid, to);
  }

  /** Advances from record to record. */
  method SelectEntry(directory: Bytes, count: nat, read: RecordReader, stop: StopToken) returns (result: Result<Entry, Fault>)
    modifies stop
    ensures StoppedOr(stop.readings, old(stop.polled), stop.polled, result, Picked(directory, count, read))
  {
    var bytes, choice := directory, NO_CHOICE;
    for k := 0 to count
      invariant old(stop.polled) <= stop.polled && !Asked(stop.readings, old(stop.polled), stop.polled)
      invariant Scan(bytes, count - k, read, choice) == Scan(directory, count, read, NO_CHOICE)
    {
      var stopped := stop.Poll();
      if stopped {
        StoppedNow(stop.readings, old(stop.polled), stop.polled - 1, Picked(directory, count, read));
        return Err(Cancelled);
      }
      var record := read(bytes);
      if record.Err? {
        return Err(record.error);
      }
      var next := Consider(choice, record.value);
      if next.Err? {
        return Err(next.error);
      }
      if record.value.length > |bytes| {
        return Err(Invalid);
      }
      choice := next.value;
      bytes := bytes[record.value.length..];
    }
    if bytes != [] {
      return Err(Invalid);
    }
    return Chosen(choice);
  }

  function Clamp(count: nat, most: nat): nat {
    if most == 0 then 0 else if count == 0 then 1 else Least(count, most)
  }

  /** Drains a stream chunk by chunk; `counts` are the sizes its reads happen to have. */
  method ReadPayload(stream: Inflated, expected: nat, counts: nat -> nat, stop: StopToken) returns (result: Result<Bytes, Fault>)
    modifies stop
    ensures StoppedOr(stop.readings, old(stop.polled), stop.polled, result, Drained(stream, expected))
  {
    var output: Bytes := [];
    var round := 0;
    while true
      invariant |output| <= |stream.bytes| && output == stream.bytes[..|output|] && |output| <= expected
      invariant old(stop.polled) <= stop.polled && !Asked(stop.readings, old(stop.polled), stop.polled)
      decreases |stream.bytes| - |output|
    {
      var stopped := stop.Poll();
      if stopped {
        assert stop.readings(stop.polled - 1);
        return Err(Cancelled);
      }
      var rest := |stream.bytes| - |output|;
      var count := Clamp(counts(round), Least(rest, CHUNK));
      if count == 0 {
        if stream.failed {
          return Err(Invalid);
        }
        assert output == stream.bytes;
        return Ok(output);
      }
      if |output| + count > expected {
        return Err(Invalid);
      }
      output := output + stream.bytes[|output|..|output| + count];
      round := round + 1;
    }
  }

  /** The chosen entry's payload. */
  method Unpack(compressed: Bytes, entry: Entry, codec: Codec, counts: nat -> nat, stop: StopToken) returns (result: Result<Bytes, Fault>)
    modifies stop
    ensures StoppedOr(stop.readings, old(stop.polled), stop.polled, result, Unpacked(compressed, entry, codec))
  {
    if entry.method_ == 0 && entry.compressed != entry.uncompressed {
      return Err(Invalid);
    }
    var stream := StreamOf(compressed, entry.method_, codec);
    var output := ReadPayload(stream, entry.uncompressed, counts, stop);
    if output.Err? {
      return output;
    }
    if entry.method_ == 8 && stream.taken != entry.compressed {
      return Err(Invalid);
    }
    if |output.value| != entry.uncompressed || codec.crc(output.value) != entry.crc {
      return Err(Invalid);
    }
    var stopped := stop.Poll();
    if stopped {
      assert stop.readings(stop.polled - 1);
      return Err(Cancelled);
    }
    return output;
  }

  /** The directory, and the entry it leads to. */
  method Choose(file: Bytes, limits: Limits, stop: StopToken) returns (result: Result<(Directory, Entry), Fault>)
    modifies stop
    ensures StoppedOr(stop.readings, old(stop.polled), stop.polled, result, Selected(file, limits))
  {
    var directory := ReadDirectory(file, limits);
    if directory.Err? {
      return Err(directory.error);
    }
    var stopped := stop.Poll();
    if stopped {
      StoppedNow(stop.readings, old(stop.polled), stop.polled - 1, Selected(file, limits));
      return Err(Cancelled);
    }
    result := ChooseIn(file, directory.value, limits, stop);
    NotStoppedYet(stop.readings, old(stop.polled), stop.polled, result, SelectedIn(file, directory.value, limits));
  }

  method ChooseIn(file: Bytes, d: Directory, limits: Limits, stop: StopToken) returns (result: Result<(Directory, Entry), Fault>)
    modifies stop
    ensures StoppedOr(stop.readings, old(stop.polled), stop.polled, result, SelectedIn(file, d, limits))
  {
    if d.offset + d.size > |file| {
      return Err(Invalid);
    }
    var entry := SelectEntry(file[d.offset..d.offset + d.size], d.count, Reader(limits), stop);
    if entry.Err? {
      return Err(entry.error);
    }
    var refused := CheckEntry(entry.value, limits);
    return if refused.Some? then Err(refused.value) else Ok((d, entry.value));
  }

  /** Reads a bounded archive: what comes back is what extraction yields, or a cancellation that
      the token asked for. */
  method ExtractFrom(file: Bytes, size: nat, limits: Limits, codec: Codec, counts: nat -> nat, stop: StopToken)
    returns (result: Result<Bytes, Fault>)
    modifies stop
    ensures StoppedOr(stop.readings, old(stop.polled), stop.polled, result, Extracted(file, size, limits, codec))
  {
    var stopped := stop.Poll();
    if stopped {
      StoppedNow(stop.readings, old(stop.polled), stop.polled - 1, Extracted(file, size, limits, codec));
      return Err(Cancelled);
    }
    if size > limits.archive {
      return Err(Limit);
    }
    if |file| != size {
      return Err(Invalid);
    }
    result := ExtractWhole(file, limits, codec, counts, stop);
    NotStoppedYet(stop.readings, old(stop.polled), stop.polled, result, FromSelected(file, limits, codec));
  }

  /** Of the file as it is. */
  method ExtractWhole(file: Bytes, limits: Limits, codec: Codec, counts: nat -> nat, stop: StopToken) returns (result: Result<Bytes, Fault>)
    modifies stop
    ensures StoppedOr(stop.readings, old(stop.polled), stop.polled, result, FromSelected(file, limits, codec))
  {
    var selected := Choose(file, limits, stop);
    if selected.Err? {
      return Err(selected.error);
    }
    ghost var mid := stop.polled;
    result := Deliver(file, selected.value.0, selected.value.1, codec, counts, stop);
    NotStoppedBefore(stop.readings, old(stop.polled), mid, stop.polled, result, FromSelected(file, limits, codec));
  }

  method Deliver(file: Bytes, directory: Directory, entry: Entry, codec: Codec, counts: nat -> nat, stop: StopToken)
    returns (result: Result<Bytes, Fault>)
    requires directory.offset <= |file|
    modifies stop
    ensures StoppedOr(stop.readings, old(stop.polled), stop.polled, result, PayloadBytes(file, directory, entry, codec))
  {
    var payload := PayloadOf(file, directory, entry);
    if payload.Err? {
      return Err(payload.error);
    }
    var start, checked := payload.value.start, payload.value.entry;
    result := Unpack(file[start..start + checked.compressed], checked, codec, counts, stop);
  }
}
