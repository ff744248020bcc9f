/** A single stored log as ZIP writers lay it out: any versions, stamps and attributes, any extra
    fields and entry comment, no archive comment; and exactly when the reader gives its payload
    back. */
module ZevtcRoundTrip {
  import opened Outcomes
  import opened ByteStrings
  import opened ZevtcArchive

  // ---------------------------------------------------------------- the writer

  function Zeros(count: nat): (r: Bytes)
    ensures |r| == count
  {
    seq(count, _ => 0)
  }

  /** The parts of a record, one after the other. */
  function Glue(parts: seq<Bytes>): Bytes {
    if parts == [] then [] else Glue(parts[..|parts| - 1]) + parts[|parts| - 1]
  }

  lemma GlueMore(parts: seq<Bytes>, last: Bytes)
    ensures Glue(parts + [last]) == Glue(parts) + last
  {
    assert (parts + [last])[..|parts|] == parts;
  }

  lemma Glue2(a: Bytes, b: Bytes)
    ensures Glue([a, b]) == a + b
  {
    GlueMore([], a);
    GlueMore([a], b);
    assert [] + [a] == [a] && [a] + [b] == [a, b] && Glue([]) + a == a;
  }

  lemma Glue3(a: Bytes, b: Bytes, c: Bytes)
    ensures Glue([a, b, c]) == a + b + c
  {
    Glue2(a, b);
    GlueMore([a, b], c);
    assert [a, b] + [c] == [a, b, c];
  }

  lemma Glue4(a: Bytes, b: Bytes, c: Bytes, d: Bytes)
    ensures Glue([a, b, c, d]) == a + b + c + d
  {
    Glue3(a, b, c);
    GlueMore([a, b, c], d);
    assert [a, b, c] + [d] == [a, b, c, d];
  }

  lemma Glue5(a: Bytes, b: Bytes, c: Bytes, d: Bytes, e: Bytes)
    ensures Glue([a, b, c, d, e]) == a + b + c + d + e
  {
    Glue4(a, b, c, d);
    GlueMore([a, b, c, d], e);
    assert [a, b, c, d] + [e] == [a, b, c, d, e];
  }

  lemma Glue7(a: Bytes, b: Bytes, c: Bytes, d: Bytes, e: Bytes, f: Bytes, g: Bytes)
    ensures Glue([a, b, c, d, e, f, g]) == a + b + c + d + e + f + g
  {
    Glue5(a, b, c, d, e);
    GlueMore([a, b, c, d, e], f);
    assert [a, b, c, d, e] + [f] == [a, b, c, d, e, f];
    GlueMore([a, b, c, d, e, f], g);
    assert [a, b, c, d, e, f] + [g] == [a, b, c, d, e, f, g];
  }

  /** One extra field: a tag and its data (section 4.5.1 of the PKWARE APPNOTE). */
  datatype ExtraField = ExtraField(tag: nat, data: Bytes)

  function ExtraBytes(fields: seq<ExtraField>): Bytes {
    if fields == [] then []
    else Glue([LittleEndian(fields[0].tag, 2), LittleEndian(|fields[0].data|, 2), fields[0].data]) + ExtraBytes(fields[1..])
  }

  function Zip64Fields(fields: seq<ExtraField>): nat {
    if fields == [] then 0 else (if fields[0].tag == 1 then 1 else 0) + Zip64Fields(fields[1..])
  }

  /** What a writer is free to put into the headers. */
  datatype Style = Style(
    made: Bytes, needed: Bytes, flags: nat, stamp: Bytes, localExtra: seq<ExtraField>, extra: seq<ExtraField>, comment: Bytes,
    internal: Bytes, external: Bytes)

  predicate SoundFields(fields: seq<ExtraField>) {
    && |ExtraBytes(fields)| <= MAX_U16 && Zip64Fields(fields) <= 1
    && forall i :: 0 <= i < |fields| ==> fields[i].tag <= MAX_U16 && |fields[i].data| <= MAX_U16
  }

  /** The fields have their widths, the flags are ones the reader knows, without streaming, and
      the attributes do not make the entry a directory. */
  predicate Proper(style: Style) {
    && |style.made| == |style.needed| == |style.internal| == 2 && |style.stamp| == |style.external| == 4
    && style.flags <= MAX_U16 && KnownFlags(style.flags) && style.flags / 8 % 2 == 0 && style.external[0] / 16 % 2 == 0
    && |style.comment| <= MAX_U16 && SoundFields(style.localExtra) && SoundFields(style.extra)
  }

  /** Signature, versions, flags, method and stamp. */
  function Opening(signature: Bytes, versions: Bytes, style: Style): Bytes {
    Glue([signature, versions, LittleEndian(style.flags, 2), Zeros(2), style.stamp])
  }

  /** Checksum, both sizes and two lengths. */
  function Numbers(nameLength: nat, extraLength: nat, length: nat, crc: nat): Bytes {
    Glue([LittleEndian(crc, 4), LittleEndian(length, 4), LittleEndian(length, 4), LittleEndian(nameLength, 2), LittleEndian(extraLength, 2)])
  }

  /** Comment length, disk, attributes and the offset of the local header. */
  function Placement(style: Style): Bytes {
    Glue([LittleEndian(|style.comment|, 2), Zeros(2), style.internal, style.external, Zeros(4)])
  }

  /** The 30 bytes before a name. */
  function LocalHeader(style: Style, nameLength: nat, length: nat, crc: nat): Bytes {
    Glue([Opening(LOCAL, style.needed, style), Numbers(nameLength, |ExtraBytes(style.localExtra)|, length, crc)])
  }

  /** The 46 bytes before a name in the directory. */
  function CentralHeader(style: Style, nameLength: nat, length: nat, crc: nat): Bytes {
    Glue([Opening(CENTRAL, style.made + style.needed, style), Numbers(nameLength, |ExtraBytes(style.extra)|, length, crc), Placement(style)])
  }

  /** The 22 bytes at the end. */
  function EndRecord(directorySize: nat, directoryOffset: nat): Bytes {
    Glue([END, Zeros(4), LittleEndian(1, 2), LittleEndian(1, 2), LittleEndian(directorySize, 4), LittleEndian(directoryOffset, 4), Zeros(2)])
  }

  /** Name, extra fields and comment of the directory's record. */
  function Variable(style: Style, name: Bytes): Bytes {
    Glue([name, ExtraBytes(style.extra), style.comment])
  }

  function DirectoryBytes(style: Style, name: Bytes, length: nat, crc: nat): Bytes {
    Glue([CentralHeader(style, |name|, length, crc), Variable(style, name)])
  }

  function DirectorySize(style: Style, name: Bytes): nat {
    46 + |name| + |ExtraBytes(style.extra)| + |style.comment|
  }

  /** Where the payload starts. */
  function DataStart(style: Style, name: Bytes): nat {
    30 + |name| + |ExtraBytes(style.localExtra)|
  }

  function DirectoryOffset(style: Style, name: Bytes, payload: Bytes): nat {
    DataStart(style, name) + |payload|
  }

  /** Local header, name, extra fields and payload; the directory; the end record. */
  function StoredArchive(style: Style, name: Bytes, payload: Bytes, crc: nat): Bytes {
    Glue([Glue([LocalHeader(style, |name|, |payload|, crc), name, ExtraBytes(style.localExtra)]), payload,
          DirectoryBytes(style, name, |payload|, crc), EndRecord(DirectorySize(style, name), DirectoryOffset(style, name, payload))])
  }

  /** The archive and its entry are within the limits and the fields' widths. */
  predicate Fits(style: Style, name: Bytes, payload: Bytes, limits: Limits, codec: Codec) {
    && Proper(style) && IsEvtc(name) && |name| <= limits.filename && |name| <= MAX_U16 && limits.filename + 46 + 2 * MAX_U16 <= MAX_U64
    && 0 < |payload| <= limits.uncompressed
    && DirectoryOffset(style, name, payload) + DirectorySize(style, name) + 22 <= limits.archive
    && DirectoryOffset(style, name, payload) < MAX_U32
    && 1 <= limits.entries && 1 <= limits.ratio && codec.crc(payload) <= MAX_U32
  }

  /** The directory's record ends like a ZIP64 locator. */
  predicate ForgesLocator(record: Bytes) {
    |record| >= 20 && record[|record| - 20..|record| - 16] == LOCATOR
  }

  // ---------------------------------------------------------------- reading fields back

  lemma {:induction false} ZerosRead(count: nat)
    ensures FromLittleEndian(Zeros(count)) == 0
  {
    if count > 0 {
      assert Zeros(count)[1..] == Zeros(count - 1);
      ZerosRead(count - 1);
    }
  }

  lemma Widths()
    ensures Power256(2) == 0x1_0000 && Power256(4) == 0x1_0000_0000
  {
    assert Power256(1) == 256 && Power256(3) == 0x100_0000;
  }

  lemma WordReads(bytes: Bytes, offset: nat, width: nat, value: nat)
    requires offset + width <= |bytes| && bytes[offset..offset + width] == LittleEndian(value, width) && value < Power256(width)
    ensures Word(bytes, offset, width) == value
  {
    WritingThenReading(value, width);
  }

  /** A field of a part of the whole. */
  lemma WordOfPart(whole: Bytes, from: nat, part: Bytes, offset: nat, width: nat)
    requires from + |part| <= |whole| && whole[from..from + |part|] == part && offset + width <= |part|
    ensures Word(whole, from + offset, width) == Word(part, offset, width)
  {
    SliceOfSlice(whole, from, from + |part|, offset, offset + width);
  }

  lemma FiveParts(a: Bytes, b: Bytes, c: Bytes, d: Bytes, e: Bytes)
    ensures var all := a + b + c + d + e;
            && all[..|a|] == a && all[|a|..|a| + |b|] == b && all[|a| + |b|..|a| + |b| + |c|] == c
            && all[|a| + |b| + |c|..|a| + |b| + |c| + |d|] == d && all[|a| + |b| + |c| + |d|..] == e
  {
  }

  lemma OpeningFields(signature: Bytes, versions: Bytes, style: Style)
    requires Proper(style) && |signature| == 4
    ensures var o, v := Opening(signature, versions, style), |versions|;
            && |o| == 12 + v && o[..4] == signature && Word(o, 4 + v, 2) == style.flags && Word(o, 6 + v, 2) == 0
  {
    var o, v, flags := Opening(signature, versions, style), |versions|, LittleEndian(style.flags, 2);
    Glue5(signature, versions, flags, Zeros(2), style.stamp);
    FiveParts(signature, versions, flags, Zeros(2), style.stamp);
    Widths();
    ZerosRead(2);
    WordReads(o, 4 + v, 2, style.flags);
    assert o[6 + v..6 + v + 2] == Zeros(2);
  }

  lemma NumbersFields(nameLength: nat, extraLength: nat, length: nat, crc: nat)
    requires nameLength <= MAX_U16 && extraLength <= MAX_U16 && length <= MAX_U32 && crc <= MAX_U32
    ensures var n := Numbers(nameLength, extraLength, length, crc);
            && |n| == 16 && Word(n, 0, 4) == crc && Word(n, 4, 4) == length && Word(n, 8, 4) == length
            && Word(n, 12, 2) == nameLength && Word(n, 14, 2) == extraLength
  {
    var n := Numbers(nameLength, extraLength, length, crc);
    var size := LittleEndian(length, 4);
    Glue5(LittleEndian(crc, 4), size, size, LittleEndian(nameLength, 2), LittleEndian(extraLength, 2));
    FiveParts(LittleEndian(crc, 4), size, size, LittleEndian(nameLength, 2), LittleEndian(extraLength, 2));
    Widths();
    WordReads(n, 0, 4, crc);
    WordReads(n, 4, 4, length);
    WordReads(n, 8, 4, length);
    WordReads(n, 12, 2, nameLength);
    WordReads(n, 14, 2, extraLength);
  }

  lemma BitBelow(low: nat, high: nat)
    ensures (low + 256 * high) / 16 % 2 == low / 16 % 2
  {
    var sixteens := low / 16;
    assert (low + 256 * high) / 16 == sixteens + 16 * high;
  }

  /** The directory bit is in the first byte of the attributes. */
  lemma LowBits(bytes: Bytes)
    requires bytes != []
    ensures FromLittleEndian(bytes) / 16 % 2 == bytes[0] / 16 % 2
  {
    BitBelow(bytes[0], FromLittleEndian(bytes[1..]));
  }

  lemma PlacementFields(style: Style)
    requires Proper(style)
    ensures var p := Placement(style);
            && |p| == 14 && Word(p, 0, 2) == |style.comment| && Word(p, 2, 2) == 0 && Word(p, 6, 4) / 16 % 2 == 0 && Word(p, 10, 4) == 0
            && p[2..4] == Zeros(2) && p[4..6] == style.internal && p[6..10] == style.external && p[10..14] == Zeros(4)
  {
    var p, count := Placement(style), LittleEndian(|style.comment|, 2);
    Glue5(count, Zeros(2), style.internal, style.external, Zeros(4));
    FiveParts(count, Zeros(2), style.internal, style.external, Zeros(4));
    Widths();
    ZerosRead(2);
    ZerosRead(4);
    WordReads(p, 0, 2, |style.comment|);
    assert p[2..4] == Zeros(2) && p[6..10] == style.external && p[10..14] == Zeros(4);
    LowBits(style.external);
  }

  /** The fields of a local header. */
  lemma LocalFields(style: Style, nameLength: nat, length: nat, crc: nat)
    requires Proper(style) && nameLength <= MAX_U16 && length <= MAX_U32 && crc <= MAX_U32
    ensures var h := LocalHeader(style, nameLength, length, crc);
            && |h| == 30 && h[..4] == LOCAL && Word(h, 6, 2) == style.flags && Word(h, 8, 2) == 0 && Word(h, 14, 4) == crc
            && Word(h, 18, 4) == length && Word(h, 22, 4) == length && Word(h, 26, 2) == nameLength
            && Word(h, 28, 2) == |ExtraBytes(style.localExtra)|
  {
    var h, extraLength := LocalHeader(style, nameLength, length, crc), |ExtraBytes(style.localExtra)|;
    var opening, numbers := Opening(LOCAL, style.needed, style), Numbers(nameLength, extraLength, length, crc);
    OpeningFields(LOCAL, style.needed, style);
    NumbersFields(nameLength, extraLength, length, crc);
    Glue2(opening, numbers);
    assert h[0..14] == opening && h[14..30] == numbers;
    WordOfPart(h, 0, opening, 6, 2);
    WordOfPart(h, 0, opening, 8, 2);
    NumbersInside(h, 14, nameLength, extraLength, length, crc);
    assert h[..4] == opening[..4];
  }

  lemma NumbersInside(h: Bytes, from: nat, nameLength: nat, extraLength: nat, length: nat, crc: nat)
    requires nameLength <= MAX_U16 && extraLength <= MAX_U16 && length <= MAX_U32 && crc <= MAX_U32
    requires from + 16 <= |h| && h[from..from + 16] == Numbers(nameLength, extraLength, length, crc)
    ensures Word(h, from, 4) == crc && Word(h, from + 4, 4) == length && Word(h, from + 8, 4) == length
    ensures Word(h, from + 12, 2) == nameLength && Word(h, from + 14, 2) == extraLength
  {
    var numbers := Numbers(nameLength, extraLength, length, crc);
    NumbersFields(nameLength, extraLength, length, crc);
    WordOfPart(h, from, numbers, 0, 4);
    WordOfPart(h, from, numbers, 4, 4);
    WordOfPart(h, from, numbers, 8, 4);
    WordOfPart(h, from, numbers, 12, 2);
    WordOfPart(h, from, numbers, 14, 2);
  }

  /** The blocks of a central header. */
  lemma CentralBlocks(style: Style, nameLength: nat, length: nat, crc: nat)
    requires Proper(style) && nameLength <= MAX_U16 && length <= MAX_U32 && crc <= MAX_U32
    ensures var h := CentralHeader(style, nameLength, length, crc);
            && |h| == 46 && h[0..16] == Opening(CENTRAL, style.made + style.needed, style)
            && h[16..32] == Numbers(nameLength, |ExtraBytes(style.extra)|, length, crc) && h[32..46] == Placement(style)
  {
    var opening, numbers := Opening(CENTRAL, style.made + style.needed, style), Numbers(nameLength, |ExtraBytes(style.extra)|, length, crc);
    OpeningFields(CENTRAL, style.made + style.needed, style);
    NumbersFields(nameLength, |ExtraBytes(style.extra)|, length, crc);
    PlacementFields(style);
    Glue3(opening, numbers, Placement(style));
  }

  ghost predicate HasFields(h: Bytes, style: Style, nameLength: nat, length: nat, crc: nat) {
    && |h| >= 46 && h[..4] == CENTRAL && Word(h, 8, 2) == style.flags && Word(h, 10, 2) == 0 && Word(h, 16, 4) == crc
    && Word(h, 20, 4) == length && Word(h, 24, 4) == length && Word(h, 28, 2) == nameLength
    && Word(h, 30, 2) == |ExtraBytes(style.extra)| && Word(h, 32, 2) == |style.comment| && Word(h, 34, 2) == 0
    && Word(h, 38, 4) / 16 % 2 == 0 && Word(h, 42, 4) == 0
  }

  /** The fields of a central header, wherever it stands in front. */
  lemma CentralFields(style: Style, nameLength: nat, length: nat, crc: nat, h: Bytes)
    requires Proper(style) && nameLength <= MAX_U16 && length <= MAX_U32 && crc <= MAX_U32
    requires |h| >= 46 && h[..46] == CentralHeader(style, nameLength, length, crc)
    ensures HasFields(h, style, nameLength, length, crc)
  {
    var versions := style.made + style.needed;
    CentralBlocks(style, nameLength, length, crc);
    SliceOfSlice(h, 0, 46, 0, 16);
    SliceOfSlice(h, 0, 46, 16, 32);
    SliceOfSlice(h, 0, 46, 32, 46);
    assert h[0..46] == h[..46];
    OpeningFields(CENTRAL, versions, style);
    WordOfPart(h, 0, Opening(CENTRAL, versions, style), 8, 2);
    WordOfPart(h, 0, Opening(CENTRAL, versions, style), 10, 2);
    SliceOfSlice(h, 0, 16, 0, 4);
    assert h[..4] == Opening(CENTRAL, versions, style)[0..4] == Opening(CENTRAL, versions, style)[..4];
    NumbersInside(h, 16, nameLength, |ExtraBytes(style.extra)|, length, crc);
    PlacementInside(h, style);
  }

  lemma PlacementInside(h: Bytes, style: Style)
    requires Proper(style) && |h| >= 46 && h[32..46] == Placement(style)
    ensures Word(h, 32, 2) == |style.comment| && Word(h, 34, 2) == 0 && Word(h, 38, 4) / 16 % 2 == 0 && Word(h, 42, 4) == 0
  {
    PlacementFields(style);
    WordOfPart(h, 32, Placement(style), 0, 2);
    WordOfPart(h, 32, Placement(style), 2, 2);
    WordOfPart(h, 32, Placement(style), 6, 4);
    WordOfPart(h, 32, Placement(style), 10, 4);
  }

  lemma EndParts(sig: Bytes, zeros: Bytes, count: Bytes, total: Bytes, size: Bytes, offset: Bytes, last: Bytes)
    requires |sig| == |zeros| == |size| == |offset| == 4 && |count| == |total| == |last| == 2
    ensures var bytes := sig + zeros + count + total + size + offset + last;
            && |bytes| == 22 && bytes[..4] == sig && bytes[4..8] == zeros && bytes[8..10] == count && bytes[10..12] == total
            && bytes[12..16] == size && bytes[16..20] == offset && bytes[20..22] == last
  {
  }

  lemma EndFields(directorySize: nat, directoryOffset: nat)
    requires directorySize <= MAX_U32 && directoryOffset <= MAX_U32
    ensures var e := EndRecord(directorySize, directoryOffset);
            && |e| == 22 && e[..4] == END && Word(e, 4, 2) == 0 && Word(e, 6, 2) == 0 && Word(e, 8, 2) == 1 && Word(e, 10, 2) == 1
            && Word(e, 12, 4) == directorySize && Word(e, 16, 4) == directoryOffset && Word(e, 20, 2) == 0
  {
    var e := EndRecord(directorySize, directoryOffset);
    Glue7(END, Zeros(4), LittleEndian(1, 2), LittleEndian(1, 2), LittleEndian(directorySize, 4), LittleEndian(directoryOffset, 4), Zeros(2));
    EndParts(END, Zeros(4), LittleEndian(1, 2), LittleEndian(1, 2), LittleEndian(directorySize, 4), LittleEndian(directoryOffset, 4), Zeros(2));
    Widths();
    WordReads(e, 8, 2, 1);
    WordReads(e, 10, 2, 1);
    WordReads(e, 12, 4, directorySize);
    WordReads(e, 16, 4, directoryOffset);
    ZerosRead(2);
    SliceOfSlice(e, 4, 8, 0, 2);
    SliceOfSlice(e, 4, 8, 2, 4);
    assert Zeros(4)[0..2] == Zeros(2) && Zeros(4)[2..4] == Zeros(2);
  }

  /** Extra fields with at most one ZIP64 field are walked to their end. */
  lemma {:induction false} ExtraIsWalked(fields: seq<ExtraField>, found: Option<Bytes>)
    requires forall i :: 0 <= i < |fields| ==> fields[i].tag <= MAX_U16 && |fields[i].data| <= MAX_U16
    requires Zip64Fields(fields) + (if found.Some? then 1 else 0) <= 1
    ensures Zip64Extra(ExtraBytes(fields), found).Ok?
    decreases |fields|
  {
    if fields != [] {
      var tag, length, data, rest := LittleEndian(fields[0].tag, 2), LittleEndian(|fields[0].data|, 2), fields[0].data, ExtraBytes(fields[1..]);
      var bytes := ExtraBytes(fields);
      Glue3(tag, length, data);
      FiveParts(tag, length, data, rest, []);
      assert bytes == tag + length + data + rest + [];
      Widths();
      WordReads(bytes, 0, 2, fields[0].tag);
      WordReads(bytes, 2, 2, |data|);
      assert bytes[4 + |data|..] == rest;
      ExtraIsWalked(fields[1..], if fields[0].tag == 1 then Some(bytes[4..4 + |data|]) else found);
    }
  }

  // ---------------------------------------------------------------- the parts of the archive

  lemma FourParts(a: Bytes, b: Bytes, c: Bytes, d: Bytes)
    ensures var all := a + b + c + d;
            && all[..|a|] == a && all[|a|..|a| + |b|] == b && all[|a| + |b|..|a| + |b| + |c|] == c && all[|a| + |b| + |c|..] == d
  {
  }

  /** The record of the directory: its header, its name, its extra fields and its comment. */
  ghost predicate Recorded(d: Bytes, style: Style, name: Bytes, length: nat, crc: nat) {
    var n, x := |name|, |ExtraBytes(style.extra)|;
    && |d| == DirectorySize(style, name) && d[..46] == CentralHeader(style, n, length, crc) && d[46..46 + n] == name
    && d[46 + n..46 + n + x] == ExtraBytes(style.extra) && d[46..] == Variable(style, name)
  }

  lemma DirectoryIsRecorded(style: Style, name: Bytes, length: nat, crc: nat)
    requires Proper(style) && |name| <= MAX_U16 && length <= MAX_U32 && crc <= MAX_U32
    ensures Recorded(DirectoryBytes(style, name, length, crc), style, name, length, crc)
  {
    var header, extra := CentralHeader(style, |name|, length, crc), ExtraBytes(style.extra);
    CentralBlocks(style, |name|, length, crc);
    Glue2(header, Variable(style, name));
    Glue3(name, extra, style.comment);
    FourParts(header, name, extra, style.comment);
    assert DirectoryBytes(style, name, length, crc) == header + name + extra + style.comment;
    assert (header + Variable(style, name))[46..] == Variable(style, name);
  }

  /** Where the parts of the archive are. */
  ghost predicate Laid(file: Bytes, style: Style, name: Bytes, payload: Bytes, crc: nat) {
    var n, start, at, end := |name|, DataStart(style, name), DirectoryOffset(style, name, payload), |file| - 22;
    && |file| == DirectoryOffset(style, name, payload) + DirectorySize(style, name) + 22
    && file[..30] == LocalHeader(style, n, |payload|, crc) && file[30..30 + n] == name && file[30 + n..start] == ExtraBytes(style.localExtra)
    && file[start..at] == payload && file[at..end] == DirectoryBytes(style, name, |payload|, crc)
    && file[end..] == EndRecord(DirectorySize(style, name), at)
  }

  /** Four parts of the file, the first of which is made of three. */
  lemma PartsOfParts(file: Bytes, a: Bytes, b: Bytes, c: Bytes, payload: Bytes, directory: Bytes, end: Bytes)
    requires file == Glue([Glue([a, b, c]), payload, directory, end])
    ensures var start := |a| + |b| + |c|;
            && |file| == start + |payload| + |directory| + |end|
            && file[..|a|] == a && file[|a|..|a| + |b|] == b && file[|a| + |b|..start] == c && file[start..start + |payload|] == payload
            && file[start + |payload|..start + |payload| + |directory|] == directory && file[start + |payload| + |directory|..] == end
  {
    Glue3(a, b, c);
    Glue4(Glue([a, b, c]), payload, directory, end);
    FourParts(a + b + c, payload, directory, end);
    FrontParts(file, a, b, c);
  }

  /** The archive's parts are where the records say they are. */
  lemma ArchiveIsLaid(style: Style, name: Bytes, payload: Bytes, crc: nat)
    requires Proper(style) && |name| <= MAX_U16 && DirectoryOffset(style, name, payload) <= MAX_U32 && crc <= MAX_U32
    ensures Laid(StoredArchive(style, name, payload, crc), style, name, payload, crc)
  {
    var end := EndRecord(DirectorySize(style, name), DirectoryOffset(style, name, payload));
    LocalFields(style, |name|, |payload|, crc);
    DirectoryIsRecorded(style, name, |payload|, crc);
    EndFields(DirectorySize(style, name), DirectoryOffset(style, name, payload));
    PartsOfParts(StoredArchive(style, name, payload, crc), LocalHeader(style, |name|, |payload|, crc), name, ExtraBytes(style.localExtra),
                 payload, DirectoryBytes(style, name, |payload|, crc), end);
  }

  lemma FrontParts(file: Bytes, a: Bytes, b: Bytes, c: Bytes)
    requires |a + b + c| <= |file| && file[..|a + b + c|] == a + b + c
    ensures file[..|a|] == a && file[|a|..|a| + |b|] == b && file[|a| + |b|..|a| + |b| + |c|] == c
  {
    var front := a + b + c;
    SliceOfSlice(file, 0, |front|, 0, |a|);
    SliceOfSlice(file, 0, |front|, |a|, |a| + |b|);
    SliceOfSlice(file, 0, |front|, |a| + |b|, |front|);
    assert file[0..|front|] == front;
    assert front[0..|a|] == a && front[|a|..|a| + |b|] == b && front[|a| + |b|..] == c;
  }

  /** The end record is found at once: it has no comment. */
  lemma EndIsFound(file: Bytes, size: nat, offset: nat)
    requires |file| >= 22 && size <= MAX_U32 && offset <= MAX_U32 && file[|file| - 22..] == EndRecord(size, offset)
    ensures EndOffset(file) == Some(|file| - 22)
  {
    var tail := file[|file| - TailSize(file)..];
    var at := |tail| - 22;
    EndFields(size, offset);
    SliceOfSlice(file, |file| - |tail|, |file|, at, |tail|);
    assert tail[at..|tail|] == EndRecord(size, offset);
    SliceOfSlice(tail, at, |tail|, 0, 4);
    SliceOfSlice(tail, at, |tail|, 20, 22);
  }

  /** The twenty bytes in front of the end record look like a locator only if the record does. */
  lemma LocatorIsForged(file: Bytes, record: Bytes, end: nat)
    requires 20 <= |record| <= end <= |file| && file[end - |record|..end] == record
    ensures HasLocator(file, end) <==> ForgesLocator(record)
  {
    SliceOfSlice(file, end - |record|, end, |record| - 20, |record| - 16);
  }

  /** If the record's header has no 0x50 in its internal attributes, what forges a locator is the
      last 20 bytes of name, extra fields and comment. */
  lemma VariablePartForges(style: Style, name: Bytes, length: nat, crc: nat)
    requires Proper(style) && IsEvtc(name) && |name| <= MAX_U16 && length <= MAX_U32 && crc <= MAX_U32
    requires style.internal[0] != 0x50 && style.internal[1] != 0x50
    ensures ForgesLocator(DirectoryBytes(style, name, length, crc)) <==> ForgesLocator(Variable(style, name))
  {
    var d, v := DirectoryBytes(style, name, length, crc), Variable(style, name);
    DirectoryIsRecorded(style, name, length, crc);
    assert forall i :: 46 <= i < |d| ==> d[i] == v[i - 46];
    if |v| >= 20 {
      assert d[|d| - 20..|d| - 16] == v[|v| - 20..|v| - 16];
    } else {
      HeaderTail(style, name, length, crc, d);
      ShortTail(d, style);
    }
  }

  /** A header that is followed by less than twenty bytes has no place for the signature. */
  lemma ShortTail(d: Bytes, style: Style)
    requires 51 <= |d| < 66 && Proper(style) && style.internal[0] != 0x50 && style.internal[1] != 0x50
    requires d[31] == 0 && d[32] < 20 && d[33] == 0 && d[34] == 0 && d[35] == 0
    requires d[36] == style.internal[0] && d[37] == style.internal[1] && d[38] == style.external[0]
    requires d[42] == 0 && d[43] == 0 && d[44] == 0 && d[45] == 0
    ensures !ForgesLocator(d)
  {
    var q := |d| - 20;
    assert d[q..q + 4][0] == d[q] && d[q..q + 4][1] == d[q + 1] && d[q..q + 4][2] == d[q + 2] && d[q..q + 4][3] == d[q + 3];
  }

  /** The bytes of a header from the extra length's high byte on, if what follows is short. */
  lemma HeaderTail(style: Style, name: Bytes, length: nat, crc: nat, d: Bytes)
    requires Proper(style) && |name| <= MAX_U16 && length <= MAX_U32 && crc <= MAX_U32
    requires Recorded(d, style, name, length, crc) && |ExtraBytes(style.extra)| < 20 && |style.comment| < 20
    ensures d[31] == 0 && d[32] < 20 && d[33] == 0 && d[34] == 0 && d[35] == 0
    ensures d[36] == style.internal[0] && d[37] == style.internal[1] && d[38] == style.external[0]
    ensures d[42] == 0 && d[43] == 0 && d[44] == 0 && d[45] == 0
  {
    var h := CentralHeader(style, |name|, length, crc);
    var extra, comment := |ExtraBytes(style.extra)|, |style.comment|;
    CentralBlocks(style, |name|, length, crc);
    PlacementFields(style);
    assert forall i :: 0 <= i < 46 ==> d[i] == h[i];
    assert forall i :: 32 <= i < 46 ==> h[i] == h[32..46][i - 32];
    assert forall i :: 16 <= i < 32 ==> h[i] == h[16..32][i - 16];
    var numbers, placement := Numbers(|name|, extra, length, crc), Placement(style);
    NumbersEnd(|name|, extra, length, crc);
    assert placement[2] == placement[2..4][0] && placement[3] == placement[2..4][1];
    assert placement[4] == placement[4..6][0] && placement[5] == placement[4..6][1] && placement[6] == placement[6..10][0];
    assert forall i :: 10 <= i < 14 ==> placement[i] == placement[10..14][i - 10];
    PlacementStart(style);
  }

  lemma NumbersEnd(nameLength: nat, extraLength: nat, length: nat, crc: nat)
    requires extraLength < 20
    ensures var n := Numbers(nameLength, extraLength, length, crc);
            |n| == 16 && n[15] == 0
  {
    var size := LittleEndian(length, 4);
    Glue5(LittleEndian(crc, 4), size, size, LittleEndian(nameLength, 2), LittleEndian(extraLength, 2));
    assert LittleEndian(extraLength, 2) == [extraLength % 256] + LittleEndian(extraLength / 256, 1);
  }

  lemma PlacementStart(style: Style)
    requires Proper(style) && |style.comment| < 20
    ensures |Placement(style)| == 14 && Placement(style)[0] < 20 && Placement(style)[1] == 0
  {
    var count := LittleEndian(|style.comment|, 2);
    Glue5(count, Zeros(2), style.internal, style.external, Zeros(4));
    assert count == [|style.comment| % 256] + LittleEndian(|style.comment| / 256, 1);
  }

  function EntryOf(style: Style, name: Bytes, payload: Bytes, crc: nat): Entry {
    Entry(name, style.flags, 0, crc, |payload|, |payload|, 0, false)
  }

  /** A record with these fields, none of them saturated. */
  lemma RecordFromFields(d: Bytes, name: Bytes, extra: nat, comment: nat, wide: Bytes, flags: nat, length: nat, crc: nat)
    requires |d| >= 46 + |name| + extra && d[46..46 + |name|] == name && length < MAX_U32
    requires Word(d, 8, 2) == flags && Word(d, 10, 2) == 0 && Word(d, 16, 4) == crc && Word(d, 20, 4) == length && Word(d, 24, 4) == length
    requires Word(d, 34, 2) == 0 && Word(d, 38, 4) / 16 % 2 == 0 && Word(d, 42, 4) == 0 && name != [] && name[|name| - 1] != 0x2f
    ensures RecordWith(d, |name|, extra, comment, wide)
         == Ok(Record(46 + |name| + extra + comment, false, Entry(name, flags, 0, crc, length, length, 0, false)))
  {
  }

  /** The lengths of a record, and its extra fields. */
  lemma RecordFromLengths(d: Bytes, limits: Limits, nameLength: nat, extra: Bytes, comment: nat)
    requires |d| >= 46 + nameLength + |extra| && d[..4] == CENTRAL && nameLength <= limits.filename
    requires d[46 + nameLength..46 + nameLength + |extra|] == extra
    requires Word(d, 28, 2) == nameLength && Word(d, 30, 2) == |extra| && Word(d, 32, 2) == comment
    ensures ReadRecord(d, limits) == RecordAround(d, nameLength, extra, comment)
  {
  }

  lemma RecordFromExtra(d: Bytes, nameLength: nat, extra: Bytes, comment: nat)
    requires 46 + nameLength + |extra| <= |d| && Zip64Extra(extra, None).Ok?
    ensures RecordAround(d, nameLength, extra, comment)
         == RecordWith(d, nameLength, |extra|, comment, ValueOrEmpty(Zip64Extra(extra, None).value))
  {
  }

  lemma RecordFromStyle(d: Bytes, style: Style, limits: Limits, name: Bytes, extra: Bytes, length: nat, crc: nat)
    requires HasFields(d, style, |name|, length, crc) && extra == ExtraBytes(style.extra) && SoundFields(style.extra)
    requires |d| >= 46 + |name| + |extra| && d[46..46 + |name|] == name && d[46 + |name|..46 + |name| + |extra|] == extra
    requires |name| <= limits.filename && length < MAX_U32 && IsEvtc(name)
    ensures ReadRecord(d, limits)
         == Ok(Record(46 + |name| + |extra| + |style.comment|, false, Entry(name, style.flags, 0, crc, length, length, 0, false)))
  {
    ExtraIsWalked(style.extra, None);
    RecordFromLengths(d, limits, |name|, extra, |style.comment|);
    RecordFromExtra(d, |name|, extra, |style.comment|);
    RecordFromFields(d, name, |extra|, |style.comment|, ValueOrEmpty(Zip64Extra(extra, None).value), style.flags, length, crc);
  }

  /** The directory's one record reads back. */
  lemma RecordReadsBack(style: Style, name: Bytes, payload: Bytes, limits: Limits, codec: Codec)
    requires Fits(style, name, payload, limits, codec)
    ensures var crc := codec.crc(payload);
            ReadRecord(DirectoryBytes(style, name, |payload|, crc), limits)
            == Ok(Record(DirectorySize(style, name), false, EntryOf(style, name, payload, crc)))
  {
    var crc := codec.crc(payload);
    var d := DirectoryBytes(style, name, |payload|, crc);
    DirectoryIsRecorded(style, name, |payload|, crc);
    CentralFields(style, |name|, |payload|, crc, d);
    RecordFromStyle(d, style, limits, name, ExtraBytes(style.extra), |payload|, crc);
  }

  lemma DirectoryIsLocated(file: Bytes, size: nat, offset: nat)
    requires |file| >= 22 && size < MAX_U32 && offset < MAX_U32 && file[|file| - 22..] == EndRecord(size, offset)
    requires !HasLocator(file, |file| - 22)
    ensures Locate(file, |file| - 22) == Ok(Located(Directory(offset, size, 1), |file| - 22))
  {
    EndFields(size, offset);
  }

  /** The directory that a locator leads to would have to agree with the end record, and to end
      where the ZIP64 end record starts. */
  lemma Zip64MustAgree(file: Bytes, end: nat, short: Directory)
    requires 20 <= end <= |file| && short.offset != MAX_U32 && short.size != MAX_U32 && short.count != MAX_U16
    ensures var located := Zip64Directory(file, end, short);
            if located.Ok? then located.value.directory == short && located.value.end < end else located.error.Invalid?
  {
  }

  lemma LocatorIsFollowed(file: Bytes, size: nat, offset: nat)
    requires |file| >= 22 && size < MAX_U32 && offset < MAX_U32 && file[|file| - 22..] == EndRecord(size, offset)
    requires HasLocator(file, |file| - 22)
    ensures Locate(file, |file| - 22) == Zip64Directory(file, |file| - 22, Directory(offset, size, 1))
  {
    EndFields(size, offset);
  }

  lemma DirectoryIsRead(file: Bytes, limits: Limits, end: nat)
    requires |file| >= 22 && EndOffset(file) == Some(end) && end + 22 <= |file|
    ensures ReadDirectory(file, limits)
         == if Locate(file, end).Err? then Err(Locate(file, end).error) else CheckDirectory(Locate(file, end).value, limits)
  {
  }

  lemma CheckRefuses(located: Located, limits: Limits)
    requires located.directory.count <= limits.entries && located.directory.offset + located.directory.size != located.end
    ensures CheckDirectory(located, limits) == Err(Invalid)
  {
  }

  /** With a forged locator there is no directory. */
  lemma ForgedDirectoryIsInvalid(file: Bytes, size: nat, offset: nat, limits: Limits)
    requires |file| >= 22 && size < MAX_U32 && offset < MAX_U32 && file[|file| - 22..] == EndRecord(size, offset)
    requires HasLocator(file, |file| - 22) && offset + size == |file| - 22 && limits.entries >= 1
    ensures ReadDirectory(file, limits) == Err(Invalid)
  {
    var end, short := |file| - 22, Directory(offset, size, 1);
    EndIsFound(file, size, offset);
    DirectoryIsRead(file, limits, end);
    LocatorIsFollowed(file, size, offset);
    Zip64MustAgree(file, end, short);
    if Locate(file, end).Ok? {
      CheckRefuses(Locate(file, end).value, limits);
    }
  }

  lemma DirectoryReadsBack(file: Bytes, style: Style, name: Bytes, size: nat, offset: nat, limits: Limits)
    requires |file| >= 22 && size < MAX_U32 && offset < MAX_U32 && file[|file| - 22..] == EndRecord(size, offset)
    requires !HasLocator(file, |file| - 22) && offset + size == |file| - 22 && limits.entries >= 1
    requires Proper(style) && |name| <= limits.filename && size == DirectorySize(style, name) && limits.filename + 46 + 2 * MAX_U16 <= MAX_U64
    ensures ReadDirectory(file, limits) == Ok(Directory(offset, size, 1))
  {
    EndIsFound(file, size, offset);
    DirectoryIsLocated(file, size, offset);
  }

  lemma SelectedInDirectory(file: Bytes, limits: Limits, d: Directory, directory: Bytes, read: RecordReader, entry: Entry)
    requires d.offset + d.size <= |file| && file[d.offset..d.offset + d.size] == directory
    requires Picked(directory, d.count, read) == Ok(entry) && CheckEntry(entry, limits).None?
    ensures SelectedBy(file, d, read, limits) == Ok((d, entry))
  {
  }

  lemma SelectionContinues(file: Bytes, limits: Limits, d: Directory)
    requires ReadDirectory(file, limits) == Ok(d)
    ensures Selected(file, limits) == SelectedIn(file, d, limits)
  {
  }

  lemma SelectionEnds(file: Bytes, limits: Limits, d: Directory, entry: Entry)
    requires ReadDirectory(file, limits) == Ok(d) && SelectedBy(file, d, Reader(limits), limits) == Ok((d, entry))
    ensures Selected(file, limits) == Ok((d, entry))
  {
    SelectionContinues(file, limits, d);
  }

  lemma DirectoryLies(file: Bytes, style: Style, name: Bytes, payload: Bytes, crc: nat)
    requires Laid(file, style, name, payload, crc)
    ensures var offset, size := DirectoryOffset(style, name, payload), DirectorySize(style, name);
            offset + size <= |file| && file[offset..offset + size] == DirectoryBytes(style, name, |payload|, crc)
  {
  }

  lemma EntryPasses(style: Style, name: Bytes, payload: Bytes, limits: Limits, codec: Codec)
    requires Fits(style, name, payload, limits, codec)
    ensures CheckEntry(EntryOf(style, name, payload, codec.crc(payload)), limits).None?
  {
    Scaled(|payload|, limits.ratio);
  }

  lemma Scaled(length: nat, ratio: nat)
    requires ratio >= 1
    ensures length <= length * ratio
  {
  }

  lemma OneRecordIsPicked(style: Style, name: Bytes, payload: Bytes, limits: Limits, codec: Codec)
    requires Fits(style, name, payload, limits, codec)
    ensures Picked(DirectoryBytes(style, name, |payload|, codec.crc(payload)), 1, Reader(limits))
         == Ok(EntryOf(style, name, payload, codec.crc(payload)))
  {
    var d := DirectoryBytes(style, name, |payload|, codec.crc(payload));
    RecordReadsBack(style, name, payload, limits, codec);
    DirectoryIsRecorded(style, name, |payload|, codec.crc(payload));
    LoneRecord(d, Reader(limits), Record(|d|, false, EntryOf(style, name, payload, codec.crc(payload))));
  }

  lemma LoneRecord(d: Bytes, read: RecordReader, record: Record)
    requires read(d) == Ok(record) && record.length == |d| && !record.isDirectory && IsEvtc(record.entry.name)
    ensures Picked(d, 1, read) == Ok(record.entry)
  {
    var next := Consider(NO_CHOICE, record).value;
    assert d[record.length..] == [];
    assert Scan([], 0, read, next) == Ok(next);
    assert Scan(d, 1, read, NO_CHOICE) == Ok(next);
  }

  lemma DirectoryIsFound(file: Bytes, style: Style, name: Bytes, payload: Bytes, limits: Limits, codec: Codec)
    requires Fits(style, name, payload, limits, codec) && Laid(file, style, name, payload, codec.crc(payload))
    requires !ForgesLocator(DirectoryBytes(style, name, |payload|, codec.crc(payload)))
    ensures ReadDirectory(file, limits) == Ok(Directory(DirectoryOffset(style, name, payload), DirectorySize(style, name), 1))
  {
    DirectoryIsRecorded(style, name, |payload|, codec.crc(payload));
    LocatorIsForged(file, DirectoryBytes(style, name, |payload|, codec.crc(payload)), |file| - 22);
    DirectoryReadsBack(file, style, name, DirectorySize(style, name), DirectoryOffset(style, name, payload), limits);
  }

  lemma EntryIsSelected(file: Bytes, style: Style, name: Bytes, payload: Bytes, limits: Limits, codec: Codec)
    requires Fits(style, name, payload, limits, codec) && Laid(file, style, name, payload, codec.crc(payload))
    requires !ForgesLocator(DirectoryBytes(style, name, |payload|, codec.crc(payload)))
    ensures Selected(file, limits) == Ok((Directory(DirectoryOffset(style, name, payload), DirectorySize(style, name), 1),
                                          EntryOf(style, name, payload, codec.crc(payload))))
  {
    var d := Directory(DirectoryOffset(style, name, payload), DirectorySize(style, name), 1);
    var entry := EntryOf(style, name, payload, codec.crc(payload));
    DirectoryIsFound(file, style, name, payload, limits, codec);
    DirectoryLies(file, style, name, payload, codec.crc(payload));
    OneRecordIsPicked(style, name, payload, limits, codec);
    EntryPasses(style, name, payload, limits, codec);
    SelectedInDirectory(file, limits, d, DirectoryBytes(style, name, |payload|, codec.crc(payload)), Reader(limits), entry);
    SelectionEnds(file, limits, d, entry);
  }

  /** The payload is where the entry says it is. */
  ghost predicate Placed(file: Bytes, d: Directory, entry: Entry, start: nat, payload: Bytes) {
    && d.offset <= |file| && PayloadOf(file, d, entry) == Ok(Payload(start, entry)) && start + |payload| <= |file|
    && file[start..start + |payload|] == payload
  }

  /** A local header with these fields, none of them saturated. */
  lemma LocalFromFields(header: Bytes, entry: Entry, start: nat, extra: Bytes)
    requires |header| == 30 && Zip64Extra(extra, None).Ok? && !entry.zip64Sizes
    requires Word(header, 14, 4) == entry.crc && Word(header, 18, 4) == entry.compressed < MAX_U32
    requires Word(header, 22, 4) == entry.uncompressed < MAX_U32
    ensures LocalAround(header, entry, start, extra) == Ok(Payload(start, entry))
  {
  }

  /** The name behind a local header, and its extra fields. */
  lemma LocalFromLengths(file: Bytes, header: Bytes, entry: Entry, extra: Bytes, start: nat, directoryStart: nat)
    requires start == entry.offset + 30 + |entry.name| + |extra| && start <= directoryStart <= |file|
    requires file[entry.offset..entry.offset + 30] == header && header[..4] == LOCAL
    requires Word(header, 6, 2) == entry.flags && Word(header, 8, 2) == entry.method_
    requires Word(header, 26, 2) == |entry.name| && Word(header, 28, 2) == |extra|
    requires file[entry.offset + 30..entry.offset + 30 + |entry.name|] == entry.name
    requires file[entry.offset + 30 + |entry.name|..start] == extra
    ensures ValidateLocal(file, entry, directoryStart) == LocalAround(header, entry, start, extra)
  {
  }

  lemma HeaderPasses(file: Bytes, style: Style, name: Bytes, payload: Bytes, crc: nat)
    requires Proper(style) && |name| <= MAX_U16 && crc <= MAX_U32 && DirectoryOffset(style, name, payload) < MAX_U32
    requires Laid(file, style, name, payload, crc)
    ensures ValidateLocal(file, EntryOf(style, name, payload, crc), DirectoryOffset(style, name, payload))
         == Ok(Payload(DataStart(style, name), EntryOf(style, name, payload, crc)))
  {
    var header, entry, extra := LocalHeader(style, |name|, |payload|, crc), EntryOf(style, name, payload, crc), ExtraBytes(style.localExtra);
    LocalFields(style, |name|, |payload|, crc);
    ExtraIsWalked(style.localExtra, None);
    assert file[0..30] == header;
    LocalFromFields(header, entry, DataStart(style, name), extra);
    LocalFromLengths(file, header, entry, extra, DataStart(style, name), DirectoryOffset(style, name, payload));
  }

  lemma PassedIsPlaced(file: Bytes, d: Directory, entry: Entry, start: nat, payload: Bytes)
    requires d.offset <= |file| && ValidateLocal(file, entry, d.offset) == Ok(Payload(start, entry)) && !Streamed(entry)
    requires entry.compressed == |payload| && start + |payload| <= d.offset && file[start..start + |payload|] == payload
    ensures Placed(file, d, entry, start, payload)
  {
  }

  lemma PayloadIsPlaced(file: Bytes, style: Style, name: Bytes, payload: Bytes, limits: Limits, codec: Codec)
    requires Fits(style, name, payload, limits, codec) && Laid(file, style, name, payload, codec.crc(payload))
    ensures Placed(file, Directory(DirectoryOffset(style, name, payload), DirectorySize(style, name), 1),
                   EntryOf(style, name, payload, codec.crc(payload)), DataStart(style, name), payload)
  {
    HeaderPasses(file, style, name, payload, codec.crc(payload));
    PassedIsPlaced(file, Directory(DirectoryOffset(style, name, payload), DirectorySize(style, name), 1),
                   EntryOf(style, name, payload, codec.crc(payload)), DataStart(style, name), payload);
  }

  lemma ExtractionContinues(file: Bytes, limits: Limits, codec: Codec, d: Directory, entry: Entry)
    requires |file| <= limits.archive && Selected(file, limits) == Ok((d, entry)) && d.offset <= |file|
    ensures Extracted(file, |file|, limits, codec) == PayloadBytes(file, d, entry, codec)
  {
  }

  lemma PayloadUnpacks(file: Bytes, codec: Codec, d: Directory, entry: Entry, start: nat, payload: Bytes)
    requires d.offset <= |file| && PayloadOf(file, d, entry) == Ok(Payload(start, entry)) && start + |payload| <= |file|
    requires file[start..start + |payload|] == payload && entry.compressed == |payload|
    ensures PayloadBytes(file, d, entry, codec) == Unpacked(payload, entry, codec)
  {
  }

  lemma StoredUnpacks(payload: Bytes, entry: Entry, codec: Codec)
    requires entry.compressed == entry.uncompressed == |payload| && entry.method_ == 0 && codec.crc(payload) == entry.crc
    ensures Unpacked(payload, entry, codec) == Ok(payload)
  {
  }

  lemma NotExtracted(file: Bytes, limits: Limits, codec: Codec)
    requires |file| <= limits.archive && ReadDirectory(file, limits) == Err(Invalid)
    ensures Extracted(file, |file|, limits, codec) == Err(Invalid)
  {
  }

  lemma PlacedReadsBack(file: Bytes, limits: Limits, codec: Codec, d: Directory, entry: Entry, start: nat, payload: Bytes)
    requires |file| <= limits.archive && Selected(file, limits) == Ok((d, entry)) && Placed(file, d, entry, start, payload)
    requires entry.compressed == entry.uncompressed == |payload| && entry.method_ == 0 && codec.crc(payload) == entry.crc
    ensures Extracted(file, |file|, limits, codec) == Ok(payload)
  {
    ExtractionContinues(file, limits, codec, d, entry);
    PayloadUnpacks(file, codec, d, entry, start, payload);
    StoredUnpacks(payload, entry, codec);
  }

  lemma LaidReadsBack(file: Bytes, style: Style, name: Bytes, payload: Bytes, limits: Limits, codec: Codec)
    requires Fits(style, name, payload, limits, codec) && Laid(file, style, name, payload, codec.crc(payload))
    requires !ForgesLocator(DirectoryBytes(style, name, |payload|, codec.crc(payload)))
    ensures Extracted(file, |file|, limits, codec) == Ok(payload)
  {
    var d := Directory(DirectoryOffset(style, name, payload), DirectorySize(style, name), 1);
    var entry := EntryOf(style, name, payload, codec.crc(payload));
    EntryIsSelected(file, style, name, payload, limits, codec);
    PayloadIsPlaced(file, style, name, payload, limits, codec);
    PlacedReadsBack(file, limits, codec, d, entry, DataStart(style, name), payload);
  }

  lemma ForgedIsRefused(file: Bytes, style: Style, name: Bytes, payload: Bytes, limits: Limits, codec: Codec)
    requires Fits(style, name, payload, limits, codec) && Laid(file, style, name, payload, codec.crc(payload))
    requires ForgesLocator(DirectoryBytes(style, name, |payload|, codec.crc(payload)))
    ensures Extracted(file, |file|, limits, codec) == Err(Invalid)
  {
    DirectoryIsRecorded(style, name, |payload|, codec.crc(payload));
    LocatorIsForged(file, DirectoryBytes(style, name, |payload|, codec.crc(payload)), |file| - 22);
    ForgedDirectoryIsInvalid(file, DirectorySize(style, name), DirectoryOffset(style, name, payload), limits);
    NotExtracted(file, limits, codec);
  }

  /** The round trip, and exactly when it works: the payload comes back if and only if the
      directory's record does not end like a ZIP64 locator; such an archive is refused as
      invalid. */
  lemma StoredArchiveReadsBack(style: Style, name: Bytes, payload: Bytes, limits: Limits, codec: Codec)
    requires Fits(style, name, payload, limits, codec)
    ensures var file := StoredArchive(style, name, payload, codec.crc(payload));
            var forged := ForgesLocator(DirectoryBytes(style, name, |payload|, codec.crc(payload)));
            && (Extracted(file, |file|, limits, codec) == Ok(payload) <==> !forged)
            && (forged ==> Extracted(file, |file|, limits, codec) == Err(Invalid))
  {
    var crc := codec.crc(payload);
    var file := StoredArchive(style, name, payload, crc);
    ArchiveIsLaid(style, name, payload, crc);
    if ForgesLocator(DirectoryBytes(style, name, |payload|, crc)) {
      ForgedIsRefused(file, style, name, payload, limits, codec);
    } else {
      LaidReadsBack(file, style, name, payload, limits, codec);
    }
  }

  /** There is such a name, and such an archive. */
  const FORGED_NAME: Bytes :=
    LOCATOR + [0x61, 0x61, 0x61, 0x61, 0x61, 0x61, 0x61, 0x61, 0x61, 0x61, 0x61] + [0x2e, 0x65, 0x76, 0x74, 0x63]

  lemma ForgedNameIsRefused(style: Style, payload: Bytes, limits: Limits, codec: Codec)
    requires Fits(style, FORGED_NAME, payload, limits, codec) && style.extra == [] && style.comment == []
    ensures var file := StoredArchive(style, FORGED_NAME, payload, codec.crc(payload));
            IsEvtc(FORGED_NAME) && Extracted(file, |file|, limits, codec) == Err(Invalid)
  {
    var d := DirectoryBytes(style, FORGED_NAME, |payload|, codec.crc(payload));
    DirectoryIsRecorded(style, FORGED_NAME, |payload|, codec.crc(payload));
    assert d[46..46 + 20][0..4] == LOCATOR;
    SliceOfSlice(d, 46, 66, 0, 4);
    StoredArchiveReadsBack(style, FORGED_NAME, payload, limits, codec);
  }

  const SHORT_NAME: Bytes := [0x61, 0x61, 0x61, 0x61, 0x61, 0x2e, 0x65, 0x76, 0x74, 0x63]

  lemma AttributesForge(style: Style, length: nat, crc: nat)
    requires Proper(style) && style.extra == [] && style.comment == [] && length <= MAX_U32 && crc <= MAX_U32
    requires style.internal == [0x50, 0x4b] && style.external[..2] == [6, 7]
    ensures ForgesLocator(DirectoryBytes(style, SHORT_NAME, length, crc))
  {
    var d, p := DirectoryBytes(style, SHORT_NAME, length, crc), Placement(style);
    DirectoryIsRecorded(style, SHORT_NAME, length, crc);
    CentralBlocks(style, |SHORT_NAME|, length, crc);
    PlacementFields(style);
    SliceOfSlice(d, 0, 46, 32, 46);
    SliceOfSlice(d, 32, 46, 4, 8);
    assert d[0..46] == d[..46];
    assert p[4] == p[4..6][0] && p[5] == p[4..6][1] && p[6] == p[6..10][0] == style.external[..2][0] && p[7] == p[6..10][1] == style.external[..2][1];
    assert p[4..8] == LOCATOR;
  }

  /** With a name of ten bytes and nothing behind it, attributes can do the same. */
  lemma ForgedAttributesAreRefused(style: Style, payload: Bytes, limits: Limits, codec: Codec)
    requires Fits(style, SHORT_NAME, payload, limits, codec) && style.extra == [] && style.comment == []
    requires style.internal == [0x50, 0x4b] && style.external[..2] == [6, 7]
    ensures var file := StoredArchive(style, SHORT_NAME, payload, codec.crc(payload));
            IsEvtc(SHORT_NAME) && Extracted(file, |file|, limits, codec) == Err(Invalid)
  {
    AttributesForge(style, |payload|, codec.crc(payload));
    StoredArchiveReadsBack(style, SHORT_NAME, payload, limits, codec);
  }
}
