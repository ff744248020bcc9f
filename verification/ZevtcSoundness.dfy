/** What a successful extraction says about the archive, and when a plain stored archive can be
    read back. */
module ZevtcSoundness {
  import opened Outcomes
  import opened ByteStrings
  import opened ZevtcArchive

  // ---------------------------------------------------------------- the end record

  /** An end record that reaches the end of the file. */
  predicate EndsAt(file: Bytes, at: nat) {
    at + 22 <= |file| && file[at..at + 4] == END && at + 22 + Word(file, at + 20, 2) == |file|
  }

  /** A ZIP64 end record that reaches up to the locator in front of the end record. */
  predicate Ends64At(file: Bytes, at: nat, end: nat) {
    at + 56 <= |file| && file[at..at + 4] == END64 && end >= 20 && HasLocatorAt(file, end) && at + 12 + Word(file, at + 4, 8) == end - 20
  }

  predicate HasLocatorAt(file: Bytes, end: nat) {
    20 <= end <= |file| && HasLocator(file, end)
  }

  lemma WordInSlice(bytes: Bytes, from: nat, to: nat, offset: nat, width: nat)
    requires from <= to <= |bytes| && offset + width <= to - from
    ensures Word(bytes[from..to], offset, width) == Word(bytes, from + offset, width)
  {
    SliceOfSlice(bytes, from, to, offset, offset + width);
  }

  lemma EndOffsetEnds(file: Bytes)
    requires |file| >= 22 && EndOffset(file).Some?
    ensures EndsAt(file, EndOffset(file).value)
  {
    var tail := file[|file| - TailSize(file)..];
    var o := LastEnd(tail, |tail| - 22).value;
    assert file[|file| - |tail|..|file|] == tail;
    WordInSlice(file, |file| - |tail|, |file|, o + 20, 2);
    SliceOfSlice(file, |file| - |tail|, |file|, o, o + 4);
  }

  lemma Zip64Ends(file: Bytes, end: nat, short: Directory)
    requires 20 <= end <= |file| && HasLocator(file, end) && Zip64Directory(file, end, short).Ok?
    ensures Ends64At(file, Zip64Directory(file, end, short).value.end, end)
  {
    var at := Zip64Directory(file, end, short).value.end;
    WordInSlice(file, at, at + 56, 4, 8);
    SliceOfSlice(file, at, at + 56, 0, 4);
  }

  /** The directory abuts its end record: the ordinary one, or the ZIP64 one in front of it. */
  predicate AbutsItsEnd(file: Bytes, limits: Limits, d: Directory) {
    && |file| >= 22 && EndOffset(file).Some? && EndsAt(file, EndOffset(file).value) && d.count <= limits.entries
    && d.offset + d.size <= EndOffset(file).value
    && (d.offset + d.size == EndOffset(file).value || Ends64At(file, d.offset + d.size, EndOffset(file).value))
  }

  lemma DirectoryAbutsItsEnd(file: Bytes, limits: Limits, d: Directory)
    requires ReadDirectory(file, limits) == Ok(d)
    ensures AbutsItsEnd(file, limits, d)
  {
    EndOffsetEnds(file);
    var end := EndOffset(file).value;
    if HasLocator(file, end) {
      var tail := file[end..];
      Zip64Ends(file, end, Directory(Word(tail, 16, 4), Word(tail, 12, 4), Word(tail, 10, 2)));
    }
  }

  // ---------------------------------------------------------------- the records

  function RecordLength(bytes: Bytes): nat
    requires |bytes| >= 46
  {
    46 + Word(bytes, 28, 2) + Word(bytes, 30, 2) + Word(bytes, 32, 2)
  }

  /** Exactly `count` central records, back to back. */
  predicate Tiled(bytes: Bytes, count: nat)
    decreases count
  {
    if count == 0 then bytes == []
    else |bytes| >= 46 && bytes[..4] == CENTRAL && RecordLength(bytes) <= |bytes| && Tiled(bytes[RecordLength(bytes)..], count - 1)
  }

  predicate Shaped(bytes: Bytes, record: Record) {
    |bytes| >= 46 && bytes[..4] == CENTRAL && record.length == RecordLength(bytes)
  }

  lemma RecordShape(bytes: Bytes, limits: Limits)
    requires ReadRecord(bytes, limits).Ok?
    ensures Shaped(bytes, ReadRecord(bytes, limits).value)
    ensures |ReadRecord(bytes, limits).value.entry.name| <= limits.filename
  {
  }

  /** The records that a scan goes through. */
  function Records(bytes: Bytes, count: nat, read: RecordReader): seq<Record>
    decreases count
  {
    if count == 0 || read(bytes).Err? || read(bytes).value.length > |bytes| then []
    else [read(bytes).value] + Records(bytes[read(bytes).value.length..], count - 1, read)
  }

  lemma {:induction false} RecordsTile(bytes: Bytes, count: nat, read: RecordReader, choice: Choice)
    requires Scan(bytes, count, read, choice).Ok?
    requires forall b :: read(b).Ok? ==> Shaped(b, read(b).value)
    ensures Tiled(bytes, count) && |Records(bytes, count, read)| == count
    decreases count
  {
    if count > 0 {
      var record := read(bytes).value;
      RecordsTile(bytes[record.length..], count - 1, read, Consider(choice, record).value);
    }
  }

  lemma DirectoryTiles(bytes: Bytes, count: nat, limits: Limits)
    requires Picked(bytes, count, Reader(limits)).Ok?
    ensures Tiled(bytes, count) && |Records(bytes, count, Reader(limits))| == count
  {
    var read := Reader(limits);
    forall b | read(b).Ok? ensures Shaped(b, read(b).value) {
      RecordShape(b, limits);
    }
    RecordsTile(bytes, count, read, NO_CHOICE);
  }

  predicate IsLog(record: Record) {
    !record.isDirectory && IsEvtc(record.entry.name)
  }

  predicate IsPlain(record: Record) {
    !record.isDirectory && !IsEvtc(record.entry.name) && IsPlainLeaf(record.entry.name)
  }

  function Files(records: seq<Record>): nat {
    if records == [] then 0 else (if records[0].isDirectory then 0 else 1) + Files(records[1..])
  }

  lemma {:induction false} ScanCounts(bytes: Bytes, count: nat, read: RecordReader, choice: Choice)
    requires Scan(bytes, count, read, choice).Ok?
    ensures Scan(bytes, count, read, choice).value.files == choice.files + Files(Records(bytes, count, read))
    decreases count
  {
    if count > 0 {
      var record := read(bytes).value;
      ScanCounts(bytes[record.length..], count - 1, read, Consider(choice, record).value);
      assert Records(bytes, count, read)[1..] == Records(bytes[record.length..], count - 1, read);
    }
  }

  /** Position k is the only log. */
  predicate OnlyLog(records: seq<Record>, k: nat) {
    k < |records| && IsLog(records[k]) && forall j :: 0 <= j < |records| && j != k ==> !IsLog(records[j])
  }

  predicate NoLog(records: seq<Record>) {
    forall j :: 0 <= j < |records| ==> !IsLog(records[j])
  }

  /** Once a log is selected no other may come. */
  lemma {:induction false} ScanKeepsSelected(bytes: Bytes, count: nat, read: RecordReader, choice: Choice)
    requires Scan(bytes, count, read, choice).Ok? && choice.selected.Some?
    ensures Scan(bytes, count, read, choice).value.selected == choice.selected && NoLog(Records(bytes, count, read))
    decreases count
  {
    if count > 0 {
      var record := read(bytes).value;
      ScanKeepsSelected(bytes[record.length..], count - 1, read, Consider(choice, record).value);
    }
  }

  lemma {:induction false} ScanSelects(bytes: Bytes, count: nat, read: RecordReader, choice: Choice) returns (k: nat)
    requires Scan(bytes, count, read, choice).Ok? && choice.selected.None? && Scan(bytes, count, read, choice).value.selected.Some?
    ensures OnlyLog(Records(bytes, count, read), k)
    ensures Records(bytes, count, read)[k].entry == Scan(bytes, count, read, choice).value.selected.value
    decreases count
  {
    var record := read(bytes).value;
    var next := Consider(choice, record).value;
    if next.selected.Some? {
      ScanKeepsSelected(bytes[record.length..], count - 1, read, next);
      k := 0;
    } else {
      var later := ScanSelects(bytes[record.length..], count - 1, read, next);
      k := later + 1;
    }
  }

  lemma {:induction false} ScanFallsBack(bytes: Bytes, count: nat, read: RecordReader, choice: Choice) returns (k: nat)
    requires Scan(bytes, count, read, choice).Ok?
    requires Scan(bytes, count, read, choice).value.fallback.Some? && Scan(bytes, count, read, choice).value.fallback != choice.fallback
    ensures k < |Records(bytes, count, read)| && IsPlain(Records(bytes, count, read)[k])
    ensures Records(bytes, count, read)[k].entry == Scan(bytes, count, read, choice).value.fallback.value
    decreases count
  {
    var record := read(bytes).value;
    var next := Consider(choice, record).value;
    if Scan(bytes, count, read, choice).value.fallback == next.fallback {
      k := 0;
    } else {
      var later := ScanFallsBack(bytes[record.length..], count - 1, read, next);
      k := later + 1;
    }
  }

  /** The chosen entry is the only log in the archive, or else the only file, without an extension. */
  predicate Distinguished(records: seq<Record>, entry: Entry) {
    exists k :: 0 <= k < |records| && records[k].entry == entry
      && (OnlyLog(records, k) || (IsPlain(records[k]) && Files(records) == 1))
  }

  lemma PickedIsDistinguished(bytes: Bytes, count: nat, read: RecordReader)
    requires Picked(bytes, count, read).Ok?
    ensures Distinguished(Records(bytes, count, read), Picked(bytes, count, read).value)
  {
    if Scan(bytes, count, read, NO_CHOICE).value.selected.Some? {
      var k := ScanSelects(bytes, count, read, NO_CHOICE);
    } else {
      ScanCounts(bytes, count, read, NO_CHOICE);
      var k := ScanFallsBack(bytes, count, read, NO_CHOICE);
    }
  }

  // ---------------------------------------------------------------- the payload

  /** The expected value; a streamed entry may leave it zero. */
  predicate Matches(value: nat, expected: nat, streamed: bool) {
    value == expected || (streamed && value == 0)
  }

  /** A size in the header, or at a place of the ZIP64 field if the header's is saturated. */
  predicate SizeMatches(short: nat, wide: Bytes, at: nat, expected: nat, streamed: bool) {
    if short == MAX_U32 then at + 8 <= |wide| && Matches(Word(wide, at, 8), expected, streamed)
    else Matches(short, expected, streamed)
  }

  /** Both sizes agree with the entry; the uncompressed one comes first in the ZIP64 field. */
  predicate SizesMatch(uncompressed: nat, compressed: nat, extra: Bytes, entry: Entry) {
    var found := Zip64Extra(extra, None);
    && found.Ok?
    && SizeMatches(uncompressed, ValueOrEmpty(found.value), 0, entry.uncompressed, Streamed(entry))
    && SizeMatches(compressed, ValueOrEmpty(found.value), if uncompressed == MAX_U32 then 8 else 0, entry.compressed, Streamed(entry))
  }

  /** Whether the descriptor's sizes have 64 bits: if a size of the directory's record or of the
      local header is saturated. */
  predicate IsWide(file: Bytes, entry: Entry)
    requires entry.offset + 30 <= |file|
  {
    var header := file[entry.offset..entry.offset + 30];
    entry.zip64Sizes || Word(header, 22, 4) == MAX_U32 || Word(header, 18, 4) == MAX_U32
  }

  /** The local header of an entry agrees with it in flags, method, checksum, sizes and name, and
      the payload starts right behind its extra fields. */
  predicate HasLocalHeader(file: Bytes, entry: Entry, start: nat) {
    && entry.offset + 30 + |entry.name| <= start <= |file|
    && var header := file[entry.offset..entry.offset + 30];
       && header[..4] == LOCAL && Word(header, 6, 2) == entry.flags && Word(header, 8, 2) == entry.method_
       && Word(header, 26, 2) == |entry.name| && start == entry.offset + 30 + |entry.name| + Word(header, 28, 2)
       && file[entry.offset + 30..entry.offset + 30 + |entry.name|] == entry.name
       && Matches(Word(header, 14, 4), entry.crc, Streamed(entry))
       && SizesMatch(Word(header, 22, 4), Word(header, 18, 4), file[entry.offset + 30 + |entry.name|..start], entry)
  }

  lemma SizesAreRead(header: Bytes, entry: Entry, start: nat, extra: Bytes)
    requires |header| == 30 && LocalAround(header, entry, start, extra).Ok?
    ensures Matches(Word(header, 14, 4), entry.crc, Streamed(entry))
    ensures SizesMatch(Word(header, 22, 4), Word(header, 18, 4), extra, entry)
    ensures var payload := LocalAround(header, entry, start, extra).value;
            payload.start == start
            && payload.entry == entry.(zip64Sizes := entry.zip64Sizes || Word(header, 22, 4) == MAX_U32 || Word(header, 18, 4) == MAX_U32)
  {
    var wide := ValueOrEmpty(Zip64Extra(extra, None).value);
    if Word(header, 22, 4) == MAX_U32 && Word(header, 18, 4) == MAX_U32 {
      assert wide[8..][0..8] == wide[8..16];
    }
  }

  lemma LocalHeaderIsThere(file: Bytes, entry: Entry, directoryStart: nat)
    requires ValidateLocal(file, entry, directoryStart).Ok?
    ensures var payload := ValidateLocal(file, entry, directoryStart).value;
            && HasLocalHeader(file, entry, payload.start) && payload.start <= directoryStart
            && payload.entry == entry.(zip64Sizes := IsWide(file, entry))
  {
    var header := file[entry.offset..entry.offset + 30];
    var start := entry.offset + 30 + |entry.name| + Word(header, 28, 2);
    var extra := file[entry.offset + 30 + |entry.name|..start];
    assert ValidateLocal(file, entry, directoryStart) == LocalAround(header, entry, start, extra);
    SizesAreRead(header, entry, start, extra);
  }

  /** Header, data and descriptor lie in this order before the directory. */
  lemma PayloadLiesBeforeDirectory(file: Bytes, d: Directory, entry: Entry)
    requires d.offset <= |file| && PayloadOf(file, d, entry).Ok?
    ensures var payload := PayloadOf(file, d, entry).value;
            && HasLocalHeader(file, entry, payload.start) && payload.start + entry.compressed <= d.offset
            && payload.entry == entry.(zip64Sizes := IsWide(file, entry))
            && (Streamed(entry) ==>
                  payload.start + entry.compressed + (if IsWide(file, entry) then 20 else 12) <= d.offset
                  && HasDescriptor(file, payload.start + entry.compressed, d.offset, payload.entry))
  {
    LocalHeaderIsThere(file, entry, d.offset);
  }

  /** The directory's bytes are exactly its records, and the entry is distinguished among them. */
  predicate FilledWithRecords(directory: Bytes, count: nat, limits: Limits, entry: Entry) {
    Tiled(directory, count) && Distinguished(Records(directory, count, Reader(limits)), entry)
  }

  lemma PickedFromRecords(directory: Bytes, count: nat, limits: Limits, entry: Entry)
    requires Picked(directory, count, Reader(limits)) == Ok(entry)
    ensures FilledWithRecords(directory, count, limits, entry)
  {
    DirectoryTiles(directory, count, limits);
    PickedIsDistinguished(directory, count, Reader(limits));
  }

  /** The directory that was found: in front of its end record, and full of its records. */
  predicate SoundDirectory(file: Bytes, limits: Limits, d: Directory, entry: Entry) {
    && AbutsItsEnd(file, limits, d) && d.offset + d.size <= |file|
    && FilledWithRecords(file[d.offset..d.offset + d.size], d.count, limits, entry)
  }

  /** The payload that was handed out: behind its local header and before the directory. */
  predicate SoundPayload(file: Bytes, limits: Limits, codec: Codec, d: Directory, entry: Entry, start: nat, output: Bytes) {
    && HasLocalHeader(file, entry, start) && start + entry.compressed <= d.offset <= |file|
    && (Streamed(entry) ==> HasDescriptor(file, start + entry.compressed, d.offset, entry.(zip64Sizes := IsWide(file, entry))))
    && |output| == entry.uncompressed && codec.crc(output) == entry.crc
    && 0 < |output| <= limits.uncompressed && |output| <= entry.compressed * limits.ratio
    && (entry.method_ == 0 ==> output == file[start..start + entry.compressed])
  }

  lemma SelectionSteps(file: Bytes, limits: Limits, d: Directory, entry: Entry)
    requires Selected(file, limits) == Ok((d, entry))
    ensures ReadDirectory(file, limits) == Ok(d) && SelectedIn(file, d, limits) == Ok((d, entry))
  {
  }

  lemma SelectionInDirectory(file: Bytes, limits: Limits, d: Directory, entry: Entry)
    requires SelectedIn(file, d, limits) == Ok((d, entry))
    ensures d.offset + d.size <= |file|
    ensures Picked(file[d.offset..d.offset + d.size], d.count, Reader(limits)) == Ok(entry)
    ensures CheckEntry(entry, limits).None?
  {
  }

  lemma SelectionIsSound(file: Bytes, limits: Limits, d: Directory, entry: Entry)
    requires Selected(file, limits) == Ok((d, entry))
    ensures SoundDirectory(file, limits, d, entry) && CheckEntry(entry, limits).None? && d.offset <= |file|
  {
    SelectionSteps(file, limits, d, entry);
    SelectionInDirectory(file, limits, d, entry);
    DirectoryAbutsItsEnd(file, limits, d);
    PickedFromRecords(file[d.offset..d.offset + d.size], d.count, limits, entry);
  }

  lemma PayloadIsSound(file: Bytes, limits: Limits, codec: Codec, d: Directory, entry: Entry)
    requires d.offset <= |file| && PayloadBytes(file, d, entry, codec).Ok? && CheckEntry(entry, limits).None?
    ensures SoundPayload(file, limits, codec, d, entry, PayloadOf(file, d, entry).value.start, PayloadBytes(file, d, entry, codec).value)
  {
    PayloadLiesBeforeDirectory(file, d, entry);
    var payload := PayloadOf(file, d, entry).value;
    assert payload.entry == entry.(zip64Sizes := IsWide(file, entry));
    UnpackedIsChecked(file[payload.start..payload.start + payload.entry.compressed], payload.entry, codec);
  }

  /** Soundness: whatever bytes the archive consists of, an extraction that succeeds has found a
      directory of exactly `count` records, back to back, in front of its end record; the one
      distinguished entry; and its headers and data before the directory. A stored entry comes
      out as exactly its bytes in the archive, and every output has the recorded checksum and
      size, within the limits. */
  lemma ExtractionIsSound(file: Bytes, size: nat, limits: Limits, codec: Codec)
    returns (d: Directory, entry: Entry, start: nat)
    requires Extracted(file, size, limits, codec).Ok?
    ensures |file| == size <= limits.archive
    ensures SoundDirectory(file, limits, d, entry)
    ensures SoundPayload(file, limits, codec, d, entry, start, Extracted(file, size, limits, codec).value)
  {
    var selected := Selected(file, limits);
    d, entry := selected.value.0, selected.value.1;
    SelectionIsSound(file, limits, d, entry);
    PayloadIsSound(file, limits, codec, d, entry);
    start := PayloadOf(file, d, entry).value.start;
  }

  lemma UnpackedIsChecked(compressed: Bytes, entry: Entry, codec: Codec)
    requires Unpacked(compressed, entry, codec).Ok?
    ensures var output := Unpacked(compressed, entry, codec).value;
            |output| == entry.uncompressed && codec.crc(output) == entry.crc && (entry.method_ == 0 ==> output == compressed)
  {
  }
}
