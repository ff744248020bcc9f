/** Exactly which archives the reader accepts, and what it hands out: any number of records, stored or
    deflated, streamed or not, with or without ZIP64 (sections 4.3 and 4.5.3 of the PKWARE APPNOTE). */
module ZevtcAcceptance {
  import opened Outcomes
  import opened ByteStrings
  import opened ZevtcArchive
  import opened ZevtcSoundness
  import opened ZevtcRoundTrip

  // ---------------------------------------------------------------- extra fields

  /** A list of extra fields, and the data of the only one with tag 1, if there is one. */
  ghost predicate Carries(fields: seq<ExtraField>, found: Option<Bytes>) {
    && (forall i :: 0 <= i < |fields| ==> fields[i].tag <= MAX_U16 && |fields[i].data| <= MAX_U16)
    && (if found.None? then forall i :: 0 <= i < |fields| ==> fields[i].tag != 1
        else exists k :: OnlyZip64(fields, k) && fields[k].data == found.value)
  }

  predicate OnlyZip64(fields: seq<ExtraField>, k: int) {
    0 <= k < |fields| && fields[k].tag == 1 && forall i :: 0 <= i < |fields| && i != k ==> fields[i].tag != 1
  }

  ghost predicate ListsFields(extra: Bytes, found: Option<Bytes>) {
    exists fields :: extra == ExtraBytes(fields) && Carries(fields, found)
  }

  lemma FirstField(field: ExtraField, rest: Bytes)
    requires field.tag <= MAX_U16 && |field.data| <= MAX_U16
    ensures var bytes := Glue([LittleEndian(field.tag, 2), LittleEndian(|field.data|, 2), field.data]) + rest;
            && |bytes| >= 4 + |field.data| && Word(bytes, 0, 2) == field.tag && Word(bytes, 2, 2) == |field.data|
            && bytes[4..4 + |field.data|] == field.data && bytes[4 + |field.data|..] == rest
  {
    var tag, length := LittleEndian(field.tag, 2), LittleEndian(|field.data|, 2);
    Glue3(tag, length, field.data);
    FiveParts(tag, length, field.data, rest, []);
    var bytes := Glue([tag, length, field.data]) + rest;
    assert bytes == tag + length + field.data + rest + [];
    Widths();
    WordReads(bytes, 0, 2, field.tag);
    WordReads(bytes, 2, 2, |field.data|);
  }

  lemma {:induction false} FieldsAreFound(fields: seq<ExtraField>, found: Option<Bytes>, before: Option<Bytes>)
    requires Carries(fields, found) && (before.Some? ==> found.None?)
    ensures Zip64Extra(ExtraBytes(fields), before) == Ok(if found.Some? then found else before)
    decreases |fields|
  {
    if fields != [] {
      var field, rest := fields[0], ExtraBytes(fields[1..]);
      FirstField(field, rest);
      assert forall i :: 0 <= i < |fields[1..]| ==> fields[1..][i] == fields[i + 1];
      if field.tag == 1 {
        assert Carries(fields[1..], None);
        FieldsAreFound(fields[1..], None, found);
      } else {
        if found.Some? {
          var k :| OnlyZip64(fields, k) && fields[k].data == found.value;
          assert OnlyZip64(fields[1..], k - 1);
        }
        FieldsAreFound(fields[1..], found, before);
      }
    }
  }

  lemma FieldInFront(extra: Bytes)
    requires |extra| >= 4 && 4 + Word(extra, 2, 2) <= |extra|
    ensures var tag, length := Word(extra, 0, 2), Word(extra, 2, 2);
            && tag <= MAX_U16 && length <= MAX_U16
            && extra == Glue([LittleEndian(tag, 2), LittleEndian(length, 2), extra[4..4 + length]]) + extra[4 + length..]
  {
    var length := Word(extra, 2, 2);
    ReadingThenWriting(extra[0..2]);
    ReadingThenWriting(extra[2..4]);
    Widths();
    Glue3(extra[0..2], extra[2..4], extra[4..4 + length]);
    assert extra == extra[0..2] + extra[2..4] + extra[4..4 + length] + extra[4 + length..];
  }

  lemma {:induction false} ExtraSplits(extra: Bytes, before: Option<Bytes>) returns (fields: seq<ExtraField>, found: Option<Bytes>)
    requires Zip64Extra(extra, before).Ok?
    ensures extra == ExtraBytes(fields) && Carries(fields, found) && (before.Some? ==> found.None?)
    ensures Zip64Extra(extra, before) == Ok(if found.Some? then found else before)
    decreases |extra|
  {
    if extra == [] {
      fields, found := [], None;
    } else {
      var tag, length := Word(extra, 0, 2), Word(extra, 2, 2);
      var field := ExtraField(tag, extra[4..4 + length]);
      var more, later := ExtraSplits(extra[4 + length..], if tag == 1 then Some(field.data) else before);
      fields, found := [field] + more, if tag == 1 then Some(field.data) else later;
      assert fields[1..] == more;
      FieldInFront(extra);
      if tag == 1 {
        assert OnlyZip64(fields, 0);
      } else if later.Some? {
        var k :| OnlyZip64(more, k) && more[k].data == later.value;
        assert OnlyZip64(fields, k + 1) && fields[k + 1].data == later.value;
      }
    }
  }

  /** The extra fields are read exactly if they are a list of tagged fields with at most one of tag 1;
      and that one's data is what is found. */
  lemma FieldsAreReadIff(extra: Bytes, found: Option<Bytes>)
    ensures Zip64Extra(extra, None) == Ok(found) <==> ListsFields(extra, found)
  {
    if Zip64Extra(extra, None) == Ok(found) {
      var fields, data := ExtraSplits(extra, None);
    }
    forall fields | extra == ExtraBytes(fields) && Carries(fields, found) ensures Zip64Extra(extra, None) == Ok(found) {
      FieldsAreFound(fields, found, None);
    }
  }

  // ---------------------------------------------------------------- records

  /** A 32-bit number, or if that is saturated the 64-bit one at this place of the ZIP64 field. */
  predicate Holds(short: nat, wide: Bytes, at: nat, value: nat) {
    if short == 0xFFFF_FFFF then at + 8 <= |wide| && value == Word(wide, at, 8) else value == short
  }

  function Room(short: nat): nat {
    if short == 0xFFFF_FFFF then 8 else 0
  }

  /** Sizes, offset and disk, in the order of the ZIP64 field. */
  predicate FieldsHold(bytes: Bytes, wide: Bytes, entry: Entry)
    requires |bytes| >= 46
  {
    NumbersHold(Word(bytes, 24, 4), Word(bytes, 20, 4), Word(bytes, 42, 4), Word(bytes, 34, 2), wide,
                entry.uncompressed, entry.compressed, entry.offset)
  }

  predicate NumbersHold(shortSize: nat, shortCompressed: nat, shortOffset: nat, disk: nat, wide: Bytes, size: nat, compressed: nat, offset: nat) {
    var afterSize := Room(shortSize);
    var afterCompressed := afterSize + Room(shortCompressed);
    var afterOffset := afterCompressed + Room(shortOffset);
    && Holds(shortSize, wide, 0, size) && Holds(shortCompressed, wide, afterSize, compressed)
    && Holds(shortOffset, wide, afterCompressed, offset)
    && (if disk == 0xFFFF then afterOffset + 4 <= |wide| && Word(wide, afterOffset, 4) == 0 else disk == 0)
  }

  /** The number read at this place, if there is one. */
  function NumberAt(short: nat, wide: Bytes, at: nat): Option<nat> {
    if short != 0xFFFF_FFFF then Some(short) else if at + 8 <= |wide| then Some(Word(wide, at, 8)) else None
  }

  lemma ExtendedReads(short: nat, wide: Bytes, at: nat)
    requires at <= |wide|
    ensures var number := NumberAt(short, wide, at);
            Extended(short, wide[at..])
            == (if number.None? then Err(Invalid)
                else assert at + Room(short) <= |wide|; Ok(Wide(number.value, wide[at + Room(short)..])))
  {
    if short == 0xFFFF_FFFF && at + 8 <= |wide| {
      SliceOfSlice(wide, at, |wide|, 0, 8);
      assert wide[at..|wide|] == wide[at..];
      assert wide[at..][8..] == wide[at + 8..];
    }
  }

  lemma DiskHolds(disk: nat, wide: Bytes, at: nat)
    requires at <= |wide|
    ensures var read := if disk == MAX_U16 then Field(wide[at..], 0, 4) else Ok(disk);
            read == Ok(0) <==> if disk == 0xFFFF then at + 4 <= |wide| && Word(wide, at, 4) == 0 else disk == 0
  {
    if disk == MAX_U16 && at + 4 <= |wide| {
      SliceOfSlice(wide, at, |wide|, 0, 4);
      assert wide[at..|wide|] == wide[at..];
    }
  }

  /** The three numbers, as a record reads them one after the other. */
  function NumbersIn(shortSize: nat, shortCompressed: nat, shortOffset: nat, disk: nat, wide: Bytes): Result<(nat, nat, nat), Fault> {
    var size :- Extended(shortSize, wide);
    var compressed :- Extended(shortCompressed, size.rest);
    var offset :- Extended(shortOffset, compressed.rest);
    var wideDisk :- if disk == MAX_U16 then Field(offset.rest, 0, 4) else Ok(disk);
    if wideDisk != 0 then Err(Invalid) else Ok((size.value, compressed.value, offset.value))
  }

  lemma NumbersAreReadIff(shortSize: nat, shortCompressed: nat, shortOffset: nat, disk: nat, wide: Bytes, size: nat, compressed: nat, offset: nat)
    ensures NumbersIn(shortSize, shortCompressed, shortOffset, disk, wide) == Ok((size, compressed, offset))
            <==> NumbersHold(shortSize, shortCompressed, shortOffset, disk, wide, size, compressed, offset)
  {
    assert wide[0..] == wide;
    ExtendedReads(shortSize, wide, 0);
    if NumberAt(shortSize, wide, 0).Some? {
      var at := Room(shortSize);
      ExtendedReads(shortCompressed, wide, at);
      if NumberAt(shortCompressed, wide, at).Some? {
        ExtendedReads(shortOffset, wide, at + Room(shortCompressed));
        if NumberAt(shortOffset, wide, at + Room(shortCompressed)).Some? {
          DiskHolds(disk, wide, at + Room(shortCompressed) + Room(shortOffset));
        }
      }
    }
  }

  /** What a record says of itself but for those numbers. */
  predicate IsDescribed(bytes: Bytes, nameLength: nat, length: nat, r: Record)
    requires 46 + nameLength <= |bytes|
  {
    && r.length == length && r.entry.name == bytes[46..46 + nameLength]
    && r.isDirectory == ((nameLength > 0 && bytes[46 + nameLength - 1] == '/' as int) || bytes[38] / 16 % 2 == 1)
    && r.entry.flags == Word(bytes, 8, 2) && r.entry.method_ == Word(bytes, 10, 2) && r.entry.crc == Word(bytes, 16, 4)
    && r.entry.zip64Sizes == (Word(bytes, 20, 4) == 0xFFFF_FFFF || Word(bytes, 24, 4) == 0xFFFF_FFFF)
  }

  lemma DirectoryBit(bytes: Bytes)
    requires |bytes| >= 46
    ensures Word(bytes, 38, 4) / 16 % 2 == bytes[38] / 16 % 2
  {
    LowBits(bytes[38..42]);
  }

  /** A record with its ZIP64 field at hand. */
  lemma RecordWithHolds(bytes: Bytes, nameLength: nat, extraLength: nat, commentLength: nat, wide: Bytes, r: Record)
    requires 46 + nameLength + extraLength <= |bytes|
    ensures RecordWith(bytes, nameLength, extraLength, commentLength, wide) == Ok(r) <==>
              IsDescribed(bytes, nameLength, 46 + nameLength + extraLength + commentLength, r) && FieldsHold(bytes, wide, r.entry)
  {
    var e := r.entry;
    DirectoryBit(bytes);
    NumbersAreReadIff(Word(bytes, 24, 4), Word(bytes, 20, 4), Word(bytes, 42, 4), Word(bytes, 34, 2), wide, e.uncompressed, e.compressed, e.offset);
    var numbers := NumbersIn(Word(bytes, 24, 4), Word(bytes, 20, 4), Word(bytes, 42, 4), Word(bytes, 34, 2), wide);
    assert RecordWith(bytes, nameLength, extraLength, commentLength, wide).Ok? <==> numbers.Ok?;
    if numbers.Ok? {
      var read := RecordWith(bytes, nameLength, extraLength, commentLength, wide).value;
      assert (read.entry.uncompressed, read.entry.compressed, read.entry.offset) == numbers.value;
      assert IsDescribed(bytes, nameLength, 46 + nameLength + extraLength + commentLength, read);
    }
  }

  /** A record with a name of this length, these extra fields and a comment of this length. */
  ghost predicate RecordHolds(bytes: Bytes, nameLength: nat, extra: Bytes, commentLength: nat, r: Record)
    requires 46 + nameLength + |extra| <= |bytes|
  {
    && IsDescribed(bytes, nameLength, 46 + nameLength + |extra| + commentLength, r)
    && exists found :: ListsFields(extra, found) && FieldsHold(bytes, ValueOrEmpty(found), r.entry)
  }

  lemma RecordAroundHolds(bytes: Bytes, nameLength: nat, extra: Bytes, commentLength: nat, r: Record)
    requires 46 + nameLength + |extra| <= |bytes|
    ensures RecordAround(bytes, nameLength, extra, commentLength) == Ok(r) <==> RecordHolds(bytes, nameLength, extra, commentLength, r)
  {
    var found := Zip64Extra(extra, None);
    forall data: Option<Bytes> ensures ListsFields(extra, data) <==> found == Ok(data) {
      FieldsAreReadIff(extra, data);
    }
    if found.Ok? {
      RecordWithHolds(bytes, nameLength, |extra|, commentLength, ValueOrEmpty(found.value), r);
      assert ListsFields(extra, found.value);
    }
  }

  /** Signature, lengths that fit, and a name that is not too long. */
  predicate HasRoom(bytes: Bytes, limits: Limits) {
    |bytes| >= 46 && bytes[..4] == [0x50, 0x4b, 1, 2] && 46 + Word(bytes, 28, 2) + Word(bytes, 30, 2) <= |bytes|
    && Word(bytes, 28, 2) <= limits.filename
  }

  /** The extra fields of a record. */
  function ExtraOf(bytes: Bytes, limits: Limits): Bytes
    requires HasRoom(bytes, limits)
  {
    bytes[46 + Word(bytes, 28, 2)..46 + Word(bytes, 28, 2) + Word(bytes, 30, 2)]
  }

  /** The record at the front of these bytes, field by field. */
  ghost predicate IsRecord(bytes: Bytes, limits: Limits, r: Record) {
    HasRoom(bytes, limits) && RecordHolds(bytes, Word(bytes, 28, 2), ExtraOf(bytes, limits), Word(bytes, 32, 2), r)
  }

  lemma RecordHasRoom(bytes: Bytes, limits: Limits)
    ensures ReadRecord(bytes, limits).Ok? ==> HasRoom(bytes, limits)
    ensures HasRoom(bytes, limits) ==>
              ReadRecord(bytes, limits) == RecordAround(bytes, Word(bytes, 28, 2), ExtraOf(bytes, limits), Word(bytes, 32, 2))
  {
  }

  /** A record is read exactly as its fields say. */
  lemma RecordIsReadIff(bytes: Bytes, limits: Limits, r: Record)
    ensures ReadRecord(bytes, limits) == Ok(r) <==> IsRecord(bytes, limits, r)
  {
    RecordHasRoom(bytes, limits);
    if HasRoom(bytes, limits) {
      RecordAroundHolds(bytes, Word(bytes, 28, 2), ExtraOf(bytes, limits), Word(bytes, 32, 2), r);
    }
  }

  // ---------------------------------------------------------------- names

  /** A name is a log's if it ends in ".evtc", in any case. */
  lemma LogNameIff(name: Bytes)
    ensures IsEvtc(name) <==>
              && |name| >= 5 && name[|name| - 5] == '.' as int && name[|name| - 4] in {'e' as int, 'E' as int}
              && name[|name| - 3] in {'v' as int, 'V' as int} && name[|name| - 2] in {'t' as int, 'T' as int}
              && name[|name| - 1] in {'c' as int, 'C' as int}
  {
  }

  /** The last part of a path: what follows the last slash of either kind. */
  lemma {:induction false} LeafFollowsLastSlash(name: Bytes)
    ensures |Leaf(name)| <= |name| && name[|name| - |Leaf(name)|..] == Leaf(name)
    ensures forall i :: 0 <= i < |Leaf(name)| ==> Leaf(name)[i] != '/' as int && Leaf(name)[i] != 92
    ensures |Leaf(name)| < |name| ==> name[|name| - |Leaf(name)| - 1] in {'/' as int, 92}
  {
    if name != [] {
      var front := name[..|name| - 1];
      LeafFollowsLastSlash(front);
      if name[|name| - 1] != 0x2f && name[|name| - 1] != 0x5c {
        assert name[|name| - |Leaf(name)|..] == front[|front| - |Leaf(front)|..] + [name[|name| - 1]];
      }
    }
  }

  // ---------------------------------------------------------------- the choice

  /** These bytes are exactly these records, one after the other. */
  ghost predicate ReadAs(bytes: Bytes, records: seq<Record>, limits: Limits)
    decreases |records|
  {
    if records == [] then bytes == []
    else IsRecord(bytes, limits, records[0]) && records[0].length <= |bytes| && ReadAs(bytes[records[0].length..], records[1..], limits)
  }

  /** The reader finds exactly these records. */
  predicate Finds(bytes: Bytes, records: seq<Record>, read: RecordReader)
    decreases |records|
  {
    if records == [] then bytes == []
    else read(bytes) == Ok(records[0]) && records[0].length <= |bytes| && Finds(bytes[records[0].length..], records[1..], read)
  }

  lemma {:induction false} RecordsAreFoundIff(bytes: Bytes, records: seq<Record>, limits: Limits)
    ensures Finds(bytes, records, Reader(limits)) <==> ReadAs(bytes, records, limits)
    decreases |records|
  {
    if records != [] {
      RecordIsReadIff(bytes, limits, records[0]);
      if records[0].length <= |bytes| {
        RecordsAreFoundIff(bytes[records[0].length..], records[1..], limits);
      }
    }
  }

  function Considered(records: seq<Record>, choice: Choice): Result<Choice, Fault> {
    if records == [] then Ok(choice)
    else
      var next :- Consider(choice, records[0]);
      Considered(records[1..], next)
  }

  lemma {:induction false} ScanConsiders(bytes: Bytes, records: seq<Record>, read: RecordReader, choice: Choice)
    requires Finds(bytes, records, read)
    ensures Scan(bytes, |records|, read, choice) == Considered(records, choice)
    decreases |records|
  {
    if records != [] {
      if Consider(choice, records[0]).Ok? {
        ScanConsiders(bytes[records[0].length..], records[1..], read, Consider(choice, records[0]).value);
      }
    }
  }

  lemma {:induction false} ScannedRecordsAreFound(bytes: Bytes, count: nat, read: RecordReader, choice: Choice)
    requires Scan(bytes, count, read, choice).Ok?
    ensures Finds(bytes, Records(bytes, count, read), read) && |Records(bytes, count, read)| == count
    decreases count
  {
    if count > 0 {
      var record := read(bytes).value;
      ScannedRecordsAreFound(bytes[record.length..], count - 1, read, Consider(choice, record).value);
      assert Records(bytes, count, read)[1..] == Records(bytes[record.length..], count - 1, read);
    }
  }

  /** Without a log among them no record is refused; the files are counted and the last plain one kept. */
  lemma {:induction false} NoLogIsConsidered(records: seq<Record>, choice: Choice)
    requires NoLog(records)
    ensures var all := Considered(records, choice);
            && all.Ok? && all.value.selected == choice.selected && all.value.files == choice.files + Files(records)
            && (Files(records) == 0 ==> all.value.fallback == choice.fallback)
    decreases |records|
  {
    if records != [] {
      assert forall j :: 0 <= j < |records[1..]| ==> records[1..][j] == records[j + 1];
      NoLogIsConsidered(records[1..], Consider(choice, records[0]).value);
    }
  }

  lemma {:induction false} OnlyLogIsSelected(records: seq<Record>, choice: Choice, k: nat)
    requires OnlyLog(records, k) && choice.selected.None?
    ensures Considered(records, choice).Ok? && Considered(records, choice).value.selected == Some(records[k].entry)
    decreases |records|
  {
    assert forall j :: 0 <= j < |records[1..]| ==> records[1..][j] == records[j + 1];
    var next := Consider(choice, records[0]).value;
    if k == 0 {
      NoLogIsConsidered(records[1..], next);
    } else {
      OnlyLogIsSelected(records[1..], next, k - 1);
    }
  }

  lemma {:induction false} OnlyFileFallsBack(records: seq<Record>, choice: Choice, k: nat)
    requires k < |records| && IsPlain(records[k]) && Files(records) == 1 && choice.selected.None?
    ensures var all := Considered(records, choice);
            all.Ok? && all.value.selected.None? && all.value.files == choice.files + 1 && all.value.fallback == Some(records[k].entry)
    decreases |records|
  {
    assert forall j :: 0 <= j < |records[1..]| ==> records[1..][j] == records[j + 1];
    var next := Consider(choice, records[0]).value;
    if k == 0 {
      NoFilesNoLog(records[1..]);
      NoLogIsConsidered(records[1..], next);
    } else {
      FilesInclude(records[1..], k - 1);
      OnlyFileFallsBack(records[1..], next, k - 1);
    }
  }

  lemma {:induction false} NoFilesNoLog(records: seq<Record>)
    requires Files(records) == 0
    ensures NoLog(records)
  {
    if records != [] {
      NoFilesNoLog(records[1..]);
      assert forall j :: 1 <= j < |records| ==> records[j] == records[1..][j - 1];
    }
  }

  lemma {:induction false} FilesInclude(records: seq<Record>, k: nat)
    requires k < |records| && !records[k].isDirectory
    ensures Files(records) >= 1
  {
    if k > 0 {
      FilesInclude(records[1..], k - 1);
    }
  }

  /** Exactly these records lead to the entry: the only log among them, or the only file at all if that
      has no extension. */
  ghost predicate LeadsTo(bytes: Bytes, count: nat, limits: Limits, entry: Entry) {
    exists records :: |records| == count && ReadAs(bytes, records, limits) && Distinguished(records, entry)
  }

  lemma DistinguishedIsPicked(bytes: Bytes, records: seq<Record>, read: RecordReader, entry: Entry)
    requires Finds(bytes, records, read) && Distinguished(records, entry)
    ensures Picked(bytes, |records|, read) == Ok(entry)
  {
    ScanConsiders(bytes, records, read, NO_CHOICE);
    var k :| 0 <= k < |records| && records[k].entry == entry && (OnlyLog(records, k) || (IsPlain(records[k]) && Files(records) == 1));
    if OnlyLog(records, k) {
      OnlyLogIsSelected(records, NO_CHOICE, k);
    } else {
      OnlyFileFallsBack(records, NO_CHOICE, k);
    }
  }

  lemma EntryIsPickedIff(bytes: Bytes, count: nat, limits: Limits, entry: Entry)
    ensures Picked(bytes, count, Reader(limits)) == Ok(entry) <==> LeadsTo(bytes, count, limits, entry)
  {
    var read := Reader(limits);
    if Picked(bytes, count, read) == Ok(entry) {
      ScannedRecordsAreFound(bytes, count, read, NO_CHOICE);
      PickedIsDistinguished(bytes, count, read);
      RecordsAreFoundIff(bytes, Records(bytes, count, read), limits);
    }
    forall records | |records| == count && ReadAs(bytes, records, limits) && Distinguished(records, entry)
      ensures Picked(bytes, count, read) == Ok(entry)
    {
      RecordsAreFoundIff(bytes, records, limits);
      DistinguishedIsPicked(bytes, records, read, entry);
    }
  }

  // ---------------------------------------------------------------- the directory

  /** The end record: the last one in the file whose comment reaches to the very end. */
  ghost predicate IsLastEnd(file: Bytes, end: nat) {
    EndsAt(file, end) && forall later: nat :: end < later ==> !EndsAt(file, later)
  }

  lemma TailEnds(file: Bytes, o: nat)
    requires |file| >= 22 && o + 22 <= TailSize(file)
    ensures IsEnd(file[|file| - TailSize(file)..], o) <==> EndsAt(file, |file| - TailSize(file) + o)
  {
    var from := |file| - TailSize(file);
    assert file[from..|file|] == file[from..];
    WordInSlice(file, from, |file|, o + 20, 2);
    SliceOfSlice(file, from, |file|, o, o + 4);
  }

  lemma EndIsFoundIff(file: Bytes, end: nat)
    requires |file| >= 22
    ensures EndOffset(file) == Some(end) <==> IsLastEnd(file, end)
  {
    var tail, from := file[|file| - TailSize(file)..], |file| - TailSize(file);
    forall later: nat | EndsAt(file, later) ensures later >= from && EndOffset(file).Some? && later <= EndOffset(file).value {
      CommentIsShort(file, later);
      TailEnds(file, later - from);
      LastEndIsLast(tail, |tail| - 22, later - from);
    }
    if EndOffset(file).Some? {
      EndOffsetEnds(file);
    }
  }

  lemma CommentIsShort(file: Bytes, at: nat)
    requires EndsAt(file, at)
    ensures at + 22 + MAX_U16 >= |file|
  {
    Widths();
    ReadingThenWriting(file[at + 20..at + 22]);
  }

  /** A number of the end record, which may be saturated if the ZIP64 end record has it. */
  predicate Agreeing(short: nat, saturated: nat, value: nat) {
    short == saturated || short == value
  }

  /** The ZIP64 end record that the locator in front of the end record points to. */
  predicate Extends(file: Bytes, end: nat, at: nat, d: Directory)
    requires 20 <= end && end + 22 <= |file|
  {
    && Word(file, end - 16, 4) == 0 && Word(file, end - 12, 8) == at && Word(file, end - 4, 4) == 1
    && at + 56 <= |file| && file[at..at + 4] == [0x50, 0x4b, 6, 6] && Word(file, at + 4, 8) >= 44 && at + 12 + Word(file, at + 4, 8) == end - 20
    && Word(file, at + 16, 4) == 0 && Word(file, at + 20, 4) == 0 && Word(file, at + 24, 8) == Word(file, at + 32, 8)
    && d == Directory(Word(file, at + 48, 8), Word(file, at + 40, 8), Word(file, at + 32, 8))
    && Agreeing(Word(file, end + 16, 4), 0xFFFF_FFFF, d.offset) && Agreeing(Word(file, end + 12, 4), 0xFFFF_FFFF, d.size)
    && Agreeing(Word(file, end + 10, 2), 0xFFFF, d.count)
  }

  /** A locator right in front of the end record. */
  predicate Locates(file: Bytes, end: nat)
    requires end <= |file|
  {
    end >= 20 && file[end - 20..end - 16] == [0x50, 0x4b, 6, 7]
  }

  /** What the end records say of the directory, and where the first of them begins. */
  predicate SaysOf(file: Bytes, end: nat, d: Directory, first: nat)
    requires end + 22 <= |file|
  {
    && Word(file, end + 4, 2) == 0 && Word(file, end + 6, 2) == 0 && Word(file, end + 8, 2) == Word(file, end + 10, 2)
    && (if Locates(file, end) then Extends(file, end, first, d)
        else d == Directory(Word(file, end + 16, 4), Word(file, end + 12, 4), Word(file, end + 10, 2)) && first == end
             && d.offset != 0xFFFF_FFFF && d.size != 0xFFFF_FFFF && d.count != 0xFFFF)
  }

  lemma EndWords(file: Bytes, end: nat)
    requires end + 22 <= |file|
    ensures var tail := file[end..];
            && Word(tail, 4, 2) == Word(file, end + 4, 2) && Word(tail, 6, 2) == Word(file, end + 6, 2)
            && Word(tail, 8, 2) == Word(file, end + 8, 2) && Word(tail, 10, 2) == Word(file, end + 10, 2)
            && Word(tail, 12, 4) == Word(file, end + 12, 4) && Word(tail, 16, 4) == Word(file, end + 16, 4)
  {
    assert file[end..|file|] == file[end..];
    WordInSlice(file, end, |file|, 4, 2);
    WordInSlice(file, end, |file|, 6, 2);
    WordInSlice(file, end, |file|, 8, 2);
    WordInSlice(file, end, |file|, 10, 2);
    WordInSlice(file, end, |file|, 12, 4);
    WordInSlice(file, end, |file|, 16, 4);
  }

  lemma LocatorWords(file: Bytes, end: nat)
    requires 20 <= end <= |file|
    ensures var locator := file[end - 20..end];
            Word(locator, 4, 4) == Word(file, end - 16, 4) && Word(locator, 8, 8) == Word(file, end - 12, 8) && Word(locator, 16, 4) == Word(file, end - 4, 4)
  {
    WordInSlice(file, end - 20, end, 4, 4);
    WordInSlice(file, end - 20, end, 8, 8);
    WordInSlice(file, end - 20, end, 16, 4);
  }

  lemma ExtendedWords(file: Bytes, at: nat)
    requires at + 56 <= |file|
    ensures var record := file[at..at + 56];
            && record[..4] == file[at..at + 4] && Word(record, 4, 8) == Word(file, at + 4, 8)
            && Word(record, 16, 4) == Word(file, at + 16, 4) && Word(record, 20, 4) == Word(file, at + 20, 4)
            && Word(record, 24, 8) == Word(file, at + 24, 8) && Word(record, 32, 8) == Word(file, at + 32, 8)
            && Word(record, 40, 8) == Word(file, at + 40, 8) && Word(record, 48, 8) == Word(file, at + 48, 8)
  {
    SliceOfSlice(file, at, at + 56, 0, 4);
    WordInSlice(file, at, at + 56, 4, 8);
    WordInSlice(file, at, at + 56, 16, 4);
    WordInSlice(file, at, at + 56, 20, 4);
    WordInSlice(file, at, at + 56, 24, 8);
    WordInSlice(file, at, at + 56, 32, 8);
    WordInSlice(file, at, at + 56, 40, 8);
    WordInSlice(file, at, at + 56, 48, 8);
  }

  lemma ExtensionIsReadIff(file: Bytes, end: nat, d: Directory, first: nat, short: Directory)
    requires 20 <= end && end + 22 <= |file|
    requires short == Directory(Word(file, end + 16, 4), Word(file, end + 12, 4), Word(file, end + 10, 2))
    ensures Zip64Directory(file, end, short) == Ok(Located(d, first)) <==> Extends(file, end, first, d)
  {
    LocatorWords(file, end);
    if Word(file, end - 12, 8) + 56 <= |file| {
      ExtendedWords(file, Word(file, end - 12, 8));
    }
  }

  lemma DirectoryIsLocatedIff(file: Bytes, end: nat, d: Directory, first: nat)
    requires end + 22 <= |file|
    ensures Locate(file, end) == Ok(Located(d, first)) <==> SaysOf(file, end, d, first)
  {
    EndWords(file, end);
    if HasLocator(file, end) {
      ExtensionIsReadIff(file, end, d, first, Directory(Word(file, end + 16, 4), Word(file, end + 12, 4), Word(file, end + 10, 2)));
    }
  }

  /** The directory that the file has: right in front of its end records, with no more entries than
      allowed, and no longer than so many can be. */
  ghost predicate HasDirectory(file: Bytes, limits: Limits, d: Directory) {
    && |file| >= 22 && d.count <= limits.entries
    && d.size <= d.count * (46 + limits.filename + 131_070) && d.count * (46 + limits.filename + 131_070) <= 0xFFFF_FFFF_FFFF_FFFF
    && 46 + limits.filename + 131_070 <= 0xFFFF_FFFF_FFFF_FFFF
    && exists end, first :: IsLastEnd(file, end) && SaysOf(file, end, d, first) && d.offset + d.size == first
  }

  lemma DirectoryIsReadIff(file: Bytes, limits: Limits, d: Directory)
    ensures ReadDirectory(file, limits) == Ok(d) <==> HasDirectory(file, limits, d)
  {
    if |file| >= 22 {
      forall end: nat ensures EndOffset(file) == Some(end) <==> IsLastEnd(file, end) {
        EndIsFoundIff(file, end);
      }
      if EndOffset(file).Some? {
        var end := EndOffset(file).value;
        forall first: nat ensures Locate(file, end) == Ok(Located(d, first)) <==> SaysOf(file, end, d, first) {
          DirectoryIsLocatedIff(file, end, d, first);
        }
      }
    }
  }

  // ---------------------------------------------------------------- the payload

  /** The checksum and both sizes at this place, the sizes in 64 bits if wide. */
  predicate DescribesAt(file: Bytes, at: nat, bound: nat, wide: bool, entry: Entry)
    requires bound <= |file|
  {
    if wide then
      at + 20 <= bound && Word(file, at, 4) == entry.crc
      && Word(file, at + 4, 8) == entry.compressed && Word(file, at + 12, 8) == entry.uncompressed
    else
      at + 12 <= bound && Word(file, at, 4) == entry.crc
      && Word(file, at + 4, 4) == entry.compressed && Word(file, at + 8, 4) == entry.uncompressed
  }

  /** With or without the signature in front. */
  predicate DescriptorFollows(file: Bytes, at: nat, bound: nat, wide: bool, entry: Entry)
    requires at <= bound <= |file|
  {
    DescribesAt(file, at, bound, wide, entry)
    || (at + 4 <= bound && Word(file, at, 4) == 0x0807_4b50 && DescribesAt(file, at + 4, bound, wide, entry))
  }

  lemma DescribesInSlice(file: Bytes, from: nat, to: nat, at: nat, entry: Entry)
    requires from <= to <= |file|
    ensures Describes(file[from..to], at, entry) <==> DescribesAt(file, from + at, to, entry.zip64Sizes, entry)
  {
    if entry.zip64Sizes && from + at + 20 <= to {
      WordInSlice(file, from, to, at, 4);
      WordInSlice(file, from, to, at + 4, 8);
      WordInSlice(file, from, to, at + 12, 8);
    } else if !entry.zip64Sizes && from + at + 12 <= to {
      WordInSlice(file, from, to, at, 4);
      WordInSlice(file, from, to, at + 4, 4);
      WordInSlice(file, from, to, at + 8, 4);
    }
  }

  lemma ShorterBound(file: Bytes, at: nat, bound: nat, shorter: nat, wide: bool, entry: Entry)
    requires shorter <= bound <= |file| && (if wide then 20 else 12) + at <= shorter
    ensures DescribesAt(file, at, bound, wide, entry) <==> DescribesAt(file, at, shorter, wide, entry)
  {
  }

  lemma DescriptorIsReadIff(file: Bytes, offset: nat, bound: nat, entry: Entry)
    requires offset <= bound <= |file|
    ensures HasDescriptor(file, offset, bound, entry) <==> DescriptorFollows(file, offset, bound, entry.zip64Sizes, entry)
  {
    var width := if entry.zip64Sizes then 20 else 12;
    if offset + width <= bound {
      var to := offset + Least(bound - offset, width + 4);
      DescribesInSlice(file, offset, to, 0, entry);
      DescribesInSlice(file, offset, to, 4, entry);
      WordInSlice(file, offset, to, 0, 4);
      ShorterBound(file, offset, bound, to, entry.zip64Sizes, entry);
      if offset + 4 + width <= bound {
        ShorterBound(file, offset + 4, bound, to, entry.zip64Sizes, entry);
      }
    }
  }

  /** Header, payload and, if streamed, descriptor, in this order in front of the directory. */
  predicate LiesAt(file: Bytes, d: Directory, entry: Entry, start: nat) {
    && d.offset <= |file| && HasLocalHeader(file, entry, start) && start + entry.compressed <= d.offset
    && (entry.flags / 8 % 2 == 1 ==> DescriptorFollows(file, start + entry.compressed, d.offset, IsWide(file, entry), entry))
  }

  lemma MatchingSizesAreRead(header: Bytes, entry: Entry, start: nat, extra: Bytes)
    requires |header| == 30 && Matches(Word(header, 14, 4), entry.crc, Streamed(entry))
    requires SizesMatch(Word(header, 22, 4), Word(header, 18, 4), extra, entry)
    ensures LocalAround(header, entry, start, extra)
         == Ok(Payload(start, entry.(zip64Sizes := entry.zip64Sizes || Word(header, 22, 4) == MAX_U32 || Word(header, 18, 4) == MAX_U32)))
  {
    var wide := ValueOrEmpty(Zip64Extra(extra, None).value);
    ExtendedReads(Word(header, 22, 4), wide, 0);
    assert wide[0..] == wide;
    ExtendedReads(Word(header, 18, 4), wide, Room(Word(header, 22, 4)));
  }

  lemma LocalHeaderIsRead(file: Bytes, entry: Entry, directoryStart: nat, start: nat)
    requires HasLocalHeader(file, entry, start) && start <= directoryStart <= |file|
    ensures ValidateLocal(file, entry, directoryStart) == Ok(Payload(start, entry.(zip64Sizes := IsWide(file, entry))))
  {
    var header := file[entry.offset..entry.offset + 30];
    var extra := file[entry.offset + 30 + |entry.name|..start];
    MatchingSizesAreRead(header, entry, start, extra);
    LocalFromLengths(file, header, entry, extra, start, directoryStart);
  }

  /** The descriptor of the entry as it is and with the width noted in it. */
  lemma DescriptorWithWidth(file: Bytes, at: nat, bound: nat, entry: Entry, wide: bool)
    requires at <= bound <= |file|
    ensures HasDescriptor(file, at, bound, entry.(zip64Sizes := wide)) <==> DescriptorFollows(file, at, bound, wide, entry)
  {
    DescriptorIsReadIff(file, at, bound, entry.(zip64Sizes := wide));
  }

  lemma FoundPayloadLies(file: Bytes, d: Directory, entry: Entry)
    requires d.offset <= |file| && PayloadOf(file, d, entry).Ok?
    ensures LiesAt(file, d, entry, PayloadOf(file, d, entry).value.start)
    ensures PayloadOf(file, d, entry).value.entry == entry.(zip64Sizes := IsWide(file, entry))
  {
    PayloadLiesBeforeDirectory(file, d, entry);
    var payload := PayloadOf(file, d, entry).value;
    DescriptorWithWidth(file, payload.start + entry.compressed, d.offset, entry, IsWide(file, entry));
    assert payload.entry == entry.(zip64Sizes := IsWide(file, entry));
    LiesInOrder(file, d, entry, payload.start);
  }

  lemma LiesInOrder(file: Bytes, d: Directory, entry: Entry, start: nat)
    requires d.offset <= |file| && HasLocalHeader(file, entry, start) && start + entry.compressed <= d.offset
    requires Streamed(entry) ==> DescriptorFollows(file, start + entry.compressed, d.offset, IsWide(file, entry), entry)
    ensures LiesAt(file, d, entry, start)
  {
  }

  lemma PayloadPasses(file: Bytes, d: Directory, entry: Entry, payload: Payload)
    requires d.offset <= |file| && ValidateLocal(file, entry, d.offset) == Ok(payload) && payload.start + entry.compressed <= d.offset
    requires Streamed(entry) ==> HasDescriptor(file, payload.start + entry.compressed, d.offset, payload.entry)
    ensures PayloadOf(file, d, entry) == Ok(payload)
  {
  }

  lemma LyingPayloadIsFound(file: Bytes, d: Directory, entry: Entry, start: nat)
    requires LiesAt(file, d, entry, start)
    ensures PayloadOf(file, d, entry) == Ok(Payload(start, entry.(zip64Sizes := IsWide(file, entry))))
  {
    LocalHeaderIsRead(file, entry, d.offset, start);
    DescriptorWithWidth(file, start + entry.compressed, d.offset, entry, IsWide(file, entry));
    PayloadPasses(file, d, entry, Payload(start, entry.(zip64Sizes := IsWide(file, entry))));
  }

  /** The payload is found exactly where it lies. */
  lemma PayloadIsFoundIff(file: Bytes, d: Directory, entry: Entry, start: nat)
    requires d.offset <= |file|
    ensures PayloadOf(file, d, entry).Ok? && PayloadOf(file, d, entry).value.start == start <==> LiesAt(file, d, entry, start)
    ensures PayloadOf(file, d, entry).Ok? ==> PayloadOf(file, d, entry).value.entry == entry.(zip64Sizes := IsWide(file, entry))
  {
    if PayloadOf(file, d, entry).Ok? {
      FoundPayloadLies(file, d, entry);
    }
    if LiesAt(file, d, entry, start) {
      LyingPayloadIsFound(file, d, entry, start);
    }
  }

  // ---------------------------------------------------------------- extraction

  /** An entry the reader takes: known flags, stored or deflated, and within the limits. */
  predicate Takes(entry: Entry, limits: Limits) {
    && entry.flags % 2 == 0 && entry.flags / 16 % 128 == 0 && entry.flags < 4096 && entry.method_ in {0, 8}
    && 0 < entry.uncompressed <= limits.uncompressed && entry.uncompressed <= entry.compressed * limits.ratio
  }

  /** What the payload amounts to: itself if stored, or what inflating all of it gives, of exactly the
      recorded size and checksum. */
  predicate Yields(payload: Bytes, entry: Entry, codec: Codec, output: Bytes) {
    && |output| == entry.uncompressed && codec.crc(output) == entry.crc
    && (if entry.method_ == 0 then entry.compressed == entry.uncompressed && output == payload
        else codec.inflate(payload) == Inflated(output, entry.compressed, false))
  }

  lemma PayloadYieldsIff(payload: Bytes, entry: Entry, codec: Codec, output: Bytes)
    requires entry.method_ in {0, 8}
    ensures Unpacked(payload, entry, codec) == Ok(output) <==> Yields(payload, entry, codec, output)
  {
  }

  /** The entry that the directory leads to, if the reader takes it. */
  ghost predicate HasEntry(file: Bytes, limits: Limits, d: Directory, entry: Entry) {
    && HasDirectory(file, limits, d) && d.offset + d.size <= |file|
    && LeadsTo(file[d.offset..d.offset + d.size], d.count, limits, entry) && Takes(entry, limits)
  }

  /** Its payload lies where its headers say, and amounts to the output. */
  ghost predicate HandsOut(file: Bytes, d: Directory, entry: Entry, codec: Codec, output: Bytes) {
    exists start: nat :: LiesAt(file, d, entry, start) && Yields(file[start..start + entry.compressed], entry, codec, output)
  }

  lemma EntryIsTakenIff(entry: Entry, limits: Limits)
    ensures CheckEntry(entry, limits).None? <==> Takes(entry, limits)
  {
  }

  lemma SelectedByIff(file: Bytes, d: Directory, read: RecordReader, limits: Limits, entry: Entry)
    ensures SelectedBy(file, d, read, limits) == Ok((d, entry)) <==>
              d.offset + d.size <= |file| && Picked(file[d.offset..d.offset + d.size], d.count, read) == Ok(entry) && CheckEntry(entry, limits).None?
  {
  }

  lemma SelectedInIff(file: Bytes, d: Directory, limits: Limits, entry: Entry)
    ensures SelectedIn(file, d, limits) == Ok((d, entry)) <==>
              d.offset + d.size <= |file| && LeadsTo(file[d.offset..d.offset + d.size], d.count, limits, entry) && Takes(entry, limits)
  {
    SelectedByIff(file, d, Reader(limits), limits, entry);
    EntryIsTakenIff(entry, limits);
    if d.offset + d.size <= |file| {
      EntryIsPickedIff(file[d.offset..d.offset + d.size], d.count, limits, entry);
    }
  }

  lemma SelectedStepsIff(file: Bytes, limits: Limits, d: Directory, entry: Entry)
    ensures Selected(file, limits) == Ok((d, entry)) <==> ReadDirectory(file, limits) == Ok(d) && SelectedIn(file, d, limits) == Ok((d, entry))
  {
    if ReadDirectory(file, limits) == Ok(d) {
      SelectionContinues(file, limits, d);
    }
    if Selected(file, limits) == Ok((d, entry)) {
      SelectionSteps(file, limits, d, entry);
    }
  }

  lemma EntryIsSelectedIff(file: Bytes, limits: Limits, d: Directory, entry: Entry)
    ensures Selected(file, limits) == Ok((d, entry)) <==> HasEntry(file, limits, d, entry)
  {
    DirectoryIsReadIff(file, limits, d);
    SelectedInIff(file, d, limits, entry);
    SelectedStepsIff(file, limits, d, entry);
  }

  lemma PayloadBytesIff(file: Bytes, d: Directory, entry: Entry, codec: Codec, output: Bytes, payload: Payload)
    requires d.offset <= |file| && PayloadOf(file, d, entry) == Ok(payload) && payload.entry.method_ in {0, 8}
    requires payload.start + payload.entry.compressed <= |file|
    ensures PayloadBytes(file, d, entry, codec) == Ok(output) <==>
              Yields(file[payload.start..payload.start + payload.entry.compressed], payload.entry, codec, output)
  {
    PayloadYieldsIff(file[payload.start..payload.start + payload.entry.compressed], payload.entry, codec, output);
  }

  lemma PayloadIsHandedOutIff(file: Bytes, d: Directory, entry: Entry, codec: Codec, output: Bytes)
    requires d.offset <= |file| && entry.method_ in {0, 8}
    ensures PayloadBytes(file, d, entry, codec) == Ok(output) <==> HandsOut(file, d, entry, codec, output)
  {
    if PayloadOf(file, d, entry).Ok? {
      var payload := PayloadOf(file, d, entry).value;
      PayloadIsFoundIff(file, d, entry, payload.start);
      PayloadBytesIff(file, d, entry, codec, output, payload);
    }
    forall start: nat | LiesAt(file, d, entry, start) ensures PayloadOf(file, d, entry).Ok? && PayloadOf(file, d, entry).value.start == start {
      PayloadIsFoundIff(file, d, entry, start);
    }
  }

  lemma ExtractionSteps(file: Bytes, size: nat, limits: Limits, codec: Codec, output: Bytes)
    requires |file| == size <= limits.archive
    ensures Extracted(file, size, limits, codec) == Ok(output) <==>
              Selected(file, limits).Ok? && PayloadBytes(file, Selected(file, limits).value.0, Selected(file, limits).value.1, codec) == Ok(output)
  {
  }

  /** Exactly which archives are read, and to what: a file of the announced size within the limit, with
      a directory right in front of its last end record, whose records lead to one entry, whose headers
      and data lie in front of the directory, and whose data amount to this output. */
  lemma ExtractionSucceedsIff(file: Bytes, size: nat, limits: Limits, codec: Codec, output: Bytes)
    ensures Extracted(file, size, limits, codec) == Ok(output) <==>
              |file| == size <= limits.archive && exists d, entry :: HasEntry(file, limits, d, entry) && HandsOut(file, d, entry, codec, output)
  {
    if |file| == size <= limits.archive {
      ExtractionSteps(file, size, limits, codec, output);
      if Selected(file, limits).Ok? {
        var (d, entry) := Selected(file, limits).value;
        EntryIsSelectedIff(file, limits, d, entry);
        PayloadIsHandedOutIff(file, d, entry, codec, output);
      }
      forall d, entry | HasEntry(file, limits, d, entry) ensures Selected(file, limits) == Ok((d, entry)) {
        EntryIsSelectedIff(file, limits, d, entry);
      }
    }
  }

  /** Which refusals are for a limit: a file, a directory or a log that is larger than allowed. */
  lemma LimitsAreTold(file: Bytes, size: nat, limits: Limits, codec: Codec)
    ensures size > limits.archive ==> Extracted(file, size, limits, codec) == Err(Limit)
    ensures size <= limits.archive && |file| != size ==> Extracted(file, size, limits, codec) == Err(Invalid)
    ensures forall d: Directory, end: nat, first: nat | |file| == size <= limits.archive && d.count > limits.entries && size >= 22
                                   && IsLastEnd(file, end) && SaysOf(file, end, d, first) ::
              Extracted(file, size, limits, codec) == Err(Limit)
  {
    forall d: Directory, end: nat, first: nat | |file| == size <= limits.archive && d.count > limits.entries && size >= 22
                           && IsLastEnd(file, end) && SaysOf(file, end, d, first)
      ensures Extracted(file, size, limits, codec) == Err(Limit)
    {
      EndIsFoundIff(file, end);
      DirectoryIsLocatedIff(file, end, d, first);
    }
  }

  /** A log that would be too large, or too large for what it is compressed from. */
  lemma TooLargeIsTold(file: Bytes, limits: Limits, codec: Codec, d: Directory, entry: Entry)
    requires |file| <= limits.archive && ReadDirectory(file, limits) == Ok(d) && d.offset + d.size <= |file|
    requires LeadsTo(file[d.offset..d.offset + d.size], d.count, limits, entry)
    requires entry.flags % 2 == 0 && entry.flags / 16 % 128 == 0 && entry.flags < 4096 && entry.method_ in {0, 8} && entry.uncompressed > 0
    requires entry.uncompressed > limits.uncompressed || entry.uncompressed > entry.compressed * limits.ratio
    ensures Extracted(file, |file|, limits, codec) == Err(Limit)
  {
    EntryIsPickedIff(file[d.offset..d.offset + d.size], d.count, limits, entry);
    TooLargeIsRefused(file, d, Reader(limits), limits, entry);
    LimitIsPassedOn(file, limits, codec, d);
  }

  lemma LimitIsPassedOn(file: Bytes, limits: Limits, codec: Codec, d: Directory)
    requires |file| <= limits.archive && ReadDirectory(file, limits) == Ok(d) && SelectedIn(file, d, limits) == Err(Limit)
    ensures Extracted(file, |file|, limits, codec) == Err(Limit)
  {
    SelectionContinues(file, limits, d);
  }

  lemma TooLargeIsRefused(file: Bytes, d: Directory, read: RecordReader, limits: Limits, entry: Entry)
    requires d.offset + d.size <= |file| && Picked(file[d.offset..d.offset + d.size], d.count, read) == Ok(entry)
    requires CheckEntry(entry, limits) == Some(Limit)
    ensures SelectedBy(file, d, read, limits) == Err(Limit)
  {
  }
}
