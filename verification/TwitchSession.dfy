/** The protected Twitch session record: one flat byte layout, its writer and its reader. */
module TwitchSession {
  import opened Outcomes
  import opened Times
  import opened ByteStrings

  const MAX_UNIX_SECONDS: nat := 253_402_300_799
  const MAX_TOKEN_BYTES: nat := 8 * 1024
  const MAX_SECRET_BYTES: nat := 16 * 1024
  const MAX_U64: nat := 0xFFFF_FFFF_FFFF_FFFF
  const HEADER_BYTES: nat := 40
  const FIELDS: nat := 4

  /** "MNYTWSN1" and "user:write:chat". */
  const MAGIC: Bytes := [77, 78, 89, 84, 87, 83, 78, 49]
  const CHAT_SCOPE: Bytes := [117, 115, 101, 114, 58, 119, 114, 105, 116, 101, 58, 99, 104, 97, 116]

  /** Texts are their UTF-8 bytes; the expiry counts nanoseconds from the Unix epoch. */
  datatype Session = Session(access: Bytes, refresh: Bytes, expiresAt: int, userId: Bytes, login: Bytes, scopes: seq<Bytes>)

  datatype SessionError = InvalidSession | ValueTooLarge | UnsupportedVersion | CorruptRecord

  // ---------------------------------------------------------------- validity

  predicate ValidToken(token: Bytes) {
    0 < |token| <= MAX_TOKEN_BYTES && forall i :: 0 <= i < |token| ==> 0x21 <= token[i] <= 0x7e
  }

  predicate Digits(text: Bytes) {
    forall i :: 0 <= i < |text| ==> 0x30 <= text[i] <= 0x39
  }

  function Decimal(text: Bytes): nat
    requires Digits(text)
  {
    if text == [] then 0 else 10 * Decimal(text[..|text| - 1]) + (text[|text| - 1] - 0x30)
  }

  predicate ValidUserId(text: Bytes) {
    0 < |text| <= 20 && text[0] != 0x30 && Digits(text) && 0 < Decimal(text) <= MAX_U64
  }

  predicate ValidLogin(text: Bytes) {
    0 < |text| <= 64
    && forall i :: 0 <= i < |text| ==> 0x61 <= text[i] <= 0x7a || 0x30 <= text[i] <= 0x39 || text[i] == 0x5f
  }

  /** Whole seconds since the epoch, or nothing for an earlier time. */
  function UnixSeconds(time: int): Option<nat> {
    if time < 0 then None else Some(time / SECOND)
  }

  predicate Storable(s: Session) {
    && s.expiresAt >= 0 && 1 <= s.expiresAt / SECOND <= MAX_UNIX_SECONDS
    && ValidToken(s.access) && ValidToken(s.refresh) && ValidUserId(s.userId) && ValidLogin(s.login)
    && s.scopes == [CHAT_SCOPE]
  }

  function Truncated(s: Session): Session
    requires Storable(s)
  {
    s.(expiresAt := s.expiresAt / SECOND * SECOND)
  }

  // ---------------------------------------------------------------- the layout

  /** Two's complement reading of a 64-bit word. */
  function Signed64(word: nat): int {
    if word >= 0x8000_0000_0000_0000 then word - 0x1_0000_0000_0000_0000 else word
  }

  function Concat(parts: seq<Bytes>): Bytes {
    if parts == [] then [] else parts[0] + Concat(parts[1..])
  }

  function Header(seconds: nat, a: nat, b: nat, c: nat, d: nat): (r: Bytes)
    ensures |r| == HEADER_BYTES
  {
    MAGIC + LittleEndian(1, 4) + LittleEndian(seconds, 8)
    + LittleEndian(a, 4) + LittleEndian(b, 4) + LittleEndian(c, 4) + LittleEndian(d, 4) + LittleEndian(1, 4)
  }

  function Trailer(): (r: Bytes)
    ensures |r| == 19
  {
    LittleEndian(|CHAT_SCOPE|, 4) + CHAT_SCOPE
  }

  /** The record of a session, part after part. */
  function Layout(s: Session): Bytes
    requires s.expiresAt >= 0
  {
    Header(s.expiresAt / SECOND, |s.access|, |s.refresh|, |s.userId|, |s.login|)
    + (s.access + (s.refresh + (s.userId + (s.login + Trailer()))))
  }

  function Size(s: Session): nat {
    HEADER_BYTES + |s.access| + |s.refresh| + |s.userId| + |s.login| + 19
  }

  /** What encoding yields. */
  function Encoded(s: Session): Result<Bytes, SessionError> {
    if !Storable(s) then Err(InvalidSession)
    else if Size(s) > MAX_SECRET_BYTES then Err(ValueTooLarge)
    else Ok(Layout(s))
  }

  function FieldLength(bytes: Bytes, index: nat): nat
    requires index < FIELDS && |bytes| >= HEADER_BYTES
  {
    FromLittleEndian(bytes[20 + index * 4..24 + index * 4])
  }

  datatype Pieces = Pieces(fields: seq<Bytes>, rest: Bytes)

  /** Cuts the fields from `index` on off the front of `remaining`. */
  function Cut(bytes: Bytes, index: nat, remaining: Bytes): (r: Option<Pieces>)
    requires index <= FIELDS && |bytes| >= HEADER_BYTES
    ensures r.Some? ==> |r.value.fields| == FIELDS - index
    decreases FIELDS - index
  {
    if index == FIELDS then Some(Pieces([], remaining))
    else
      var length := FieldLength(bytes, index);
      if length > |remaining| then None
      else
        var tail := Cut(bytes, index + 1, remaining[length..]);
        if tail.None? then None else Some(Pieces([remaining[..length]] + tail.value.fields, tail.value.rest))
  }

  /** What decoding yields. */
  function Decoded(bytes: Bytes): Result<Session, SessionError> {
    if bytes == [] || |bytes| > MAX_SECRET_BYTES then Err(ValueTooLarge)
    else if |bytes| < 12 || bytes[..8] != MAGIC then Err(CorruptRecord)
    else if bytes[8..12] != LittleEndian(1, 4) then Err(UnsupportedVersion)
    else if |bytes| < HEADER_BYTES then Err(CorruptRecord)
    else
      var seconds := Signed64(FromLittleEndian(bytes[12..20]));
      if seconds <= 0 || seconds > MAX_UNIX_SECONDS || bytes[36..40] != LittleEndian(1, 4) then Err(CorruptRecord)
      else
        var cut := Cut(bytes, 0, bytes[HEADER_BYTES..]);
        if cut.None? || cut.value.rest != Trailer() then Err(CorruptRecord)
        else
          var f := cut.value.fields;
          if !ValidToken(f[0]) || !ValidToken(f[1]) || !ValidUserId(f[2]) || !ValidLogin(f[3]) then Err(CorruptRecord)
          else Ok(Session(f[0], f[1], seconds * SECOND, f[2], f[3], [CHAT_SCOPE]))
  }

  // ---------------------------------------------------------------- the bijection

  /** Eight parts of the header's widths, cut out again. */
  lemma HeaderParts(magic: Bytes, version: Bytes, time: Bytes, a: Bytes, b: Bytes, c: Bytes, d: Bytes, scopes: Bytes, body: Bytes)
    requires |magic| == |time| == 8 && |version| == |a| == |b| == |c| == |d| == |scopes| == 4
    ensures var bytes := magic + version + time + a + b + c + d + scopes + body;
            && bytes[..8] == magic && bytes[8..12] == version && bytes[12..20] == time
            && bytes[20..24] == a && bytes[24..28] == b && bytes[28..32] == c && bytes[32..36] == d
            && bytes[36..40] == scopes && bytes[40..] == body
  {
  }

  lemma HeaderFields(seconds: nat, a: nat, b: nat, c: nat, d: nat, body: Bytes)
    requires seconds < Power256(8) && a < Power256(4) && b < Power256(4) && c < Power256(4) && d < Power256(4)
    ensures var bytes := Header(seconds, a, b, c, d) + body;
            && bytes[..8] == MAGIC && bytes[8..12] == LittleEndian(1, 4) && bytes[36..40] == LittleEndian(1, 4)
            && FromLittleEndian(bytes[12..20]) == seconds && bytes[HEADER_BYTES..] == body
            && FieldLength(bytes, 0) == a && FieldLength(bytes, 1) == b
            && FieldLength(bytes, 2) == c && FieldLength(bytes, 3) == d
  {
    HeaderParts(MAGIC, LittleEndian(1, 4), LittleEndian(seconds, 8), LittleEndian(a, 4), LittleEndian(b, 4),
                LittleEndian(c, 4), LittleEndian(d, 4), LittleEndian(1, 4), body);
    WritingThenReading(seconds, 8);
    WritingThenReading(a, 4);
    WritingThenReading(b, 4);
    WritingThenReading(c, 4);
    WritingThenReading(d, 4);
  }

  lemma CutOne(bytes: Bytes, index: nat, field: Bytes, tail: Bytes)
    requires index < FIELDS && |bytes| >= HEADER_BYTES && FieldLength(bytes, index) == |field|
    requires Cut(bytes, index + 1, tail).Some?
    ensures Cut(bytes, index, field + tail) ==
              Some(Pieces([field] + Cut(bytes, index + 1, tail).value.fields, Cut(bytes, index + 1, tail).value.rest))
  {
    assert (field + tail)[..|field|] == field && (field + tail)[|field|..] == tail;
  }

  lemma CutLayout(bytes: Bytes, a: Bytes, b: Bytes, c: Bytes, d: Bytes, rest: Bytes)
    requires |bytes| >= HEADER_BYTES
    requires FieldLength(bytes, 0) == |a| && FieldLength(bytes, 1) == |b|
    requires FieldLength(bytes, 2) == |c| && FieldLength(bytes, 3) == |d|
    ensures Cut(bytes, 0, a + (b + (c + (d + rest)))) == Some(Pieces([a, b, c, d], rest))
  {
    CutOne(bytes, 3, d, rest);
    CutOne(bytes, 2, c, d + rest);
    CutOne(bytes, 1, b, c + (d + rest));
    CutOne(bytes, 0, a, b + (c + (d + rest)));
    assert [a] + ([b] + ([c] + ([d] + []))) == [a, b, c, d];
  }

  // ---------------------------------------------------------------- the format

  /** A four-byte word at this place, least significant byte first. */
  function WordAt(bytes: Bytes, at: nat): nat
    requires at + 4 <= |bytes|
  {
    (bytes[at] as int) + 0x100 * (bytes[at + 1] as int) + 0x1_0000 * (bytes[at + 2] as int) + 0x100_0000 * (bytes[at + 3] as int)
  }

  lemma WordOfFour(bytes: Bytes, at: nat)
    requires at + 4 <= |bytes|
    ensures FromLittleEndian(bytes[at..at + 4]) == WordAt(bytes, at)
  {
    var four := bytes[at..at + 4];
    assert four[1..][1..][1..] == [four[3]] && FromLittleEndian(four[1..][1..][1..]) == four[3];
    assert FromLittleEndian(four[1..][1..]) == (four[2] as int) + 256 * (four[3] as int);
    assert FromLittleEndian(four[1..]) == (four[1] as int) + 256 * ((four[2] as int) + 256 * (four[3] as int));
  }

  lemma WordOfEight(bytes: Bytes, at: nat)
    requires at + 8 <= |bytes|
    ensures FromLittleEndian(bytes[at..at + 8]) == WordAt(bytes, at) + 0x1_0000_0000 * WordAt(bytes, at + 4)
  {
    var eight := bytes[at..at + 8];
    WordOfFour(bytes, at + 4);
    assert eight[1..][1..][1..][1..] == bytes[at + 4..at + 8];
    assert FromLittleEndian(eight[1..][1..][1..]) == (eight[3] as int) + 256 * FromLittleEndian(bytes[at + 4..at + 8]);
    assert FromLittleEndian(eight[1..][1..]) == (eight[2] as int) + 256 * FromLittleEndian(eight[1..][1..][1..]);
    assert FromLittleEndian(eight[1..]) == (eight[1] as int) + 256 * FromLittleEndian(eight[1..][1..]);
  }

  /** Four fields, and what follows them, one after the other from the fortieth byte on. */
  lemma FieldsFollow(bytes: Bytes, head: Bytes, a: Bytes, b: Bytes, c: Bytes, d: Bytes, rest: Bytes)
    requires |head| == 40 && bytes == head + (a + (b + (c + (d + rest))))
    ensures var atB, atC, atD := 40 + |a|, 40 + |a| + |b|, 40 + |a| + |b| + |c|;
            && bytes[40..atB] == a && bytes[atB..atC] == b && bytes[atC..atD] == c && bytes[atD..atD + |d|] == d
            && bytes[atD + |d|..] == rest
  {
    assert bytes == head + a + b + c + d + rest;
  }

  /** Where the parts of a record begin. */
  function RefreshAt(s: Session): nat { 40 + |s.access| }
  function UserAt(s: Session): nat { RefreshAt(s) + |s.refresh| }
  function LoginAt(s: Session): nat { UserAt(s) + |s.userId| }
  function ScopeAt(s: Session): nat { LoginAt(s) + |s.login| }

  /** The magic word, version 1, the expiry in seconds, the four lengths, and one scope. */
  predicate BeginsWith(bytes: Bytes, s: Session) {
    && |bytes| >= 40 && bytes[..8] == [0x4D, 0x4E, 0x59, 0x54, 0x57, 0x53, 0x4E, 0x31] && WordAt(bytes, 8) == 1
    && WordAt(bytes, 12) + 0x1_0000_0000 * WordAt(bytes, 16) == s.expiresAt / 1_000_000_000
    && WordAt(bytes, 20) == |s.access| && WordAt(bytes, 24) == |s.refresh|
    && WordAt(bytes, 28) == |s.userId| && WordAt(bytes, 32) == |s.login| && WordAt(bytes, 36) == 1
  }

  /** The access token, the refresh token, user and login, and the scope's text behind its length. */
  predicate GoesOn(bytes: Bytes, s: Session) {
    && |bytes| == ScopeAt(s) + 19
    && bytes[40..RefreshAt(s)] == s.access && bytes[RefreshAt(s)..UserAt(s)] == s.refresh
    && bytes[UserAt(s)..LoginAt(s)] == s.userId && bytes[LoginAt(s)..ScopeAt(s)] == s.login
    && WordAt(bytes, ScopeAt(s)) == 15
    && bytes[ScopeAt(s) + 4..] == [117, 115, 101, 114, 58, 119, 114, 105, 116, 101, 58, 99, 104, 97, 116]
  }

  lemma LayoutBegins(s: Session)
    requires Encoded(s).Ok?
    ensures BeginsWith(Layout(s), s)
  {
    var bytes, seconds := Layout(s), s.expiresAt / SECOND;
    WordSizes();
    HeaderFields(seconds, |s.access|, |s.refresh|, |s.userId|, |s.login|, s.access + (s.refresh + (s.userId + (s.login + Trailer()))));
    WordOfEight(bytes, 12);
    WordsOfHeader(bytes);
    WritingThenReading(1, 4);
  }

  lemma PartsGoOn(bytes: Bytes, head: Bytes, s: Session, rest: Bytes)
    requires |head| == 40 && |rest| == 19 && WordAt(rest, 0) == 15 && rest[4..] == CHAT_SCOPE
    requires bytes == head + (s.access + (s.refresh + (s.userId + (s.login + rest))))
    ensures GoesOn(bytes, s)
  {
    FieldsFollow(bytes, head, s.access, s.refresh, s.userId, s.login, rest);
    assert bytes[ScopeAt(s)..][4..] == bytes[ScopeAt(s) + 4..];
    assert forall k :: 0 <= k < 4 ==> bytes[ScopeAt(s)..][k] == bytes[ScopeAt(s) + k];
  }

  lemma LayoutGoesOn(s: Session)
    requires Encoded(s).Ok?
    ensures GoesOn(Layout(s), s)
  {
    TrailerWords();
    PartsGoOn(Layout(s), Header(s.expiresAt / SECOND, |s.access|, |s.refresh|, |s.userId|, |s.login|), s, Trailer());
  }

  /** The record, byte by byte: the header of forty bytes, and the fields one after the other. Numbers
      are written with the least significant byte first, and nothing exceeds sixteen kilobytes. */
  lemma RecordIsLaidOut(s: Session)
    requires Encoded(s).Ok?
    ensures BeginsWith(Encoded(s).value, s) && GoesOn(Encoded(s).value, s) && |Encoded(s).value| <= 16_384
  {
    LayoutBegins(s);
    LayoutGoesOn(s);
  }

  lemma WordsOfHeader(bytes: Bytes)
    requires |bytes| >= 40
    ensures WordAt(bytes, 8) == FromLittleEndian(bytes[8..12]) && WordAt(bytes, 36) == FromLittleEndian(bytes[36..40])
    ensures WordAt(bytes, 20) == FieldLength(bytes, 0) && WordAt(bytes, 24) == FieldLength(bytes, 1)
    ensures WordAt(bytes, 28) == FieldLength(bytes, 2) && WordAt(bytes, 32) == FieldLength(bytes, 3)
  {
    WordOfFour(bytes, 8);
    WordOfFour(bytes, 20);
    WordOfFour(bytes, 24);
    WordOfFour(bytes, 28);
    WordOfFour(bytes, 32);
    WordOfFour(bytes, 36);
  }

  lemma TrailerWords()
    ensures WordAt(Trailer(), 0) == 15 && Trailer()[4..] == CHAT_SCOPE
  {
    WordSizes();
    WritingThenReading(15, 4);
    assert Trailer()[0..4] == LittleEndian(15, 4);
    WordOfFour(Trailer(), 0);
  }

  /** A number in decimal digits. */
  function Written(number: nat): Bytes {
    if number < 10 then [0x30 + number] else Written(number / 10) + [0x30 + number % 10]
  }

  lemma {:induction false} WrittenReadsBack(number: nat)
    ensures Digits(Written(number)) && Decimal(Written(number)) == number && |Written(number)| >= 1
    ensures number > 0 ==> Written(number)[0] != 0x30
    ensures |Written(number)| > 20 ==> number > MAX_U64
  {
    if number >= 10 {
      WrittenReadsBack(number / 10);
      var text, front := Written(number), Written(number / 10);
      assert text[..|text| - 1] == front;
      WrittenIsShort(number);
    }
  }

  /** A number below ten to the k has at most k digits. */
  lemma {:induction false} WrittenWithin(number: nat, k: nat)
    requires k >= 1 && number < Power10(k)
    ensures |Written(number)| <= k
  {
    if number >= 10 {
      assert Power10(k) == 10 * Power10(k - 1);
      WrittenWithin(number / 10, k - 1);
    }
  }

  function Power10(k: nat): nat {
    if k == 0 then 1 else 10 * Power10(k - 1)
  }

  lemma WrittenIsShort(number: nat)
    ensures number <= MAX_U64 ==> |Written(number)| <= 20
  {
    assert Power10(5) == 100_000;
    assert Power10(10) == 10_000_000_000;
    assert Power10(15) == 1_000_000_000_000_000;
    assert Power10(20) == 100_000_000_000_000_000_000;
    if number <= MAX_U64 {
      WrittenWithin(number, 20);
    }
  }

  lemma {:induction false} ReadWritesBack(text: Bytes)
    requires text != [] && Digits(text) && (text[0] != 0x30 || |text| == 1)
    ensures Written(Decimal(text)) == text && (text[0] != 0x30 ==> Decimal(text) > 0)
  {
    var n := |text| - 1;
    if n > 0 {
      ReadWritesBack(text[..n]);
      assert text == text[..n] + [text[n]];
      assert Decimal(text) / 10 == Decimal(text[..n]) && Decimal(text) % 10 == text[n] - 0x30;
    } else {
      assert Decimal(text[..0]) == 0;
      assert text == [text[0]];
    }
  }

  /** A user id is valid exactly if it is a positive 64-bit number, written in decimal as usual. */
  lemma UserIdIsANumber(text: Bytes)
    ensures ValidUserId(text) <==> exists n: nat :: 1 <= n <= MAX_U64 && text == Written(n)
  {
    if ValidUserId(text) {
      ReadWritesBack(text);
    }
    forall n: nat | 1 <= n <= MAX_U64 && text == Written(n) ensures ValidUserId(text) {
      WrittenReadsBack(n);
      WrittenIsShort(n);
    }
  }

  /** Some visible ASCII characters, and no more than so many. */
  predicate Visible(text: Bytes, most: nat) {
    1 <= |text| <= most && forall i :: 0 <= i < |text| ==> '!' as int <= text[i] <= '~' as int
  }

  predicate IsLogin(text: Bytes) {
    && 1 <= |text| <= 64
    && forall i :: 0 <= i < |text| ==>
         'a' as int <= text[i] <= 'z' as int || '0' as int <= text[i] <= '9' as int || text[i] == '_' as int
  }

  /** A session can be kept exactly if it expires between the epoch's second second and the end of the
      year 9999, has two tokens, a user and a login, the one scope there is, and fits the record. */
  lemma SessionIsKeptIff(s: Session)
    ensures var sound := && 1_000_000_000 <= s.expiresAt < 253_402_300_800_000_000_000 && Visible(s.access, 8192) && Visible(s.refresh, 8192)
                         && (exists n: nat :: 1 <= n <= MAX_U64 && s.userId == Written(n)) && IsLogin(s.login)
                         && s.scopes == [[117, 115, 101, 114, 58, 119, 114, 105, 116, 101, 58, 99, 104, 97, 116]];
            var size := 59 + |s.access| + |s.refresh| + |s.userId| + |s.login|;
            && (Encoded(s).Ok? <==> sound && size <= 16_384)
            && (Encoded(s) == Err(ValueTooLarge) <==> sound && size > 16_384)
  {
    UserIdIsANumber(s.userId);
  }

  /** Why a record is refused: for its size, as another version's, or as damaged. */
  lemma RecordIsRefusedAs(bytes: Bytes)
    ensures Decoded(bytes) == Err(ValueTooLarge) <==> |bytes| == 0 || |bytes| > 16_384
    ensures Decoded(bytes) == Err(UnsupportedVersion) <==>
              12 <= |bytes| <= 16_384 && bytes[..8] == [0x4D, 0x4E, 0x59, 0x54, 0x57, 0x53, 0x4E, 0x31] && WordAt(bytes, 8) != 1
    ensures Decoded(bytes) != Err(InvalidSession)
  {
    if 12 <= |bytes| {
      WordOfFour(bytes, 8);
      WordSizes();
      WritingThenReading(1, 4);
      ReadingThenWriting(bytes[8..12]);
    }
  }

  /** Decoding what was encoded gives the session back, its expiry cut to whole seconds. */
  lemma DecodeAfterEncode(s: Session)
    requires Encoded(s).Ok?
    ensures Decoded(Encoded(s).value) == Ok(Truncated(s))
  {
    var bytes := Layout(s);
    var seconds := s.expiresAt / SECOND;
    var body := s.access + (s.refresh + (s.userId + (s.login + Trailer())));
    WordSizes();
    HeaderFields(seconds, |s.access|, |s.refresh|, |s.userId|, |s.login|, body);
    CutLayout(bytes, s.access, s.refresh, s.userId, s.login, Trailer());
    assert |bytes| == Size(s);
  }

  lemma ConcatFirst(first: Bytes, fields: seq<Bytes>, rest: Bytes)
    ensures Concat([first] + fields) + rest == first + (Concat(fields) + rest)
  {
    assert ([first] + fields)[1..] == fields;
  }

  lemma PrependPiece(pieces: Pieces, first: Bytes, behind: Bytes, whole: Bytes)
    requires Concat(pieces.fields) + pieces.rest == behind && first + behind == whole
    ensures Concat([first] + pieces.fields) + pieces.rest == whole
  {
    ConcatFirst(first, pieces.fields, pieces.rest);
  }

  lemma SplitAt(whole: Bytes, at: nat)
    requires at <= |whole|
    ensures whole[..at] + whole[at..] == whole
  {
  }

  lemma {:induction false} CutReassembles(bytes: Bytes, index: nat, remaining: Bytes)
    requires index <= FIELDS && |bytes| >= HEADER_BYTES && Cut(bytes, index, remaining).Some?
    ensures var pieces := Cut(bytes, index, remaining).value; Concat(pieces.fields) + pieces.rest == remaining
    decreases FIELDS - index
  {
    if index < FIELDS {
      var length := FieldLength(bytes, index);
      CutReassembles(bytes, index + 1, remaining[length..]);
      SplitAt(remaining, length);
      PrependPiece(Cut(bytes, index + 1, remaining[length..]).value, remaining[..length], remaining[length..], remaining);
    } else {
      assert Concat([]) + remaining == remaining;
    }
  }

  lemma {:induction false} CutLengths(bytes: Bytes, index: nat, remaining: Bytes, k: nat)
    requires index <= k < FIELDS && |bytes| >= HEADER_BYTES && Cut(bytes, index, remaining).Some?
    ensures FieldLength(bytes, k) == |Cut(bytes, index, remaining).value.fields[k - index]|
    decreases FIELDS - index
  {
    if index < k {
      CutLengths(bytes, index + 1, remaining[FieldLength(bytes, index)..], k);
    }
  }

  lemma HeaderReassembles(bytes: Bytes)
    requires |bytes| >= HEADER_BYTES && bytes[..8] == MAGIC
    requires bytes[8..12] == LittleEndian(1, 4) && bytes[36..40] == LittleEndian(1, 4)
    ensures bytes[..HEADER_BYTES] == Header(FromLittleEndian(bytes[12..20]), FieldLength(bytes, 0), FieldLength(bytes, 1),
                                            FieldLength(bytes, 2), FieldLength(bytes, 3))
  {
    ReadingThenWriting(bytes[12..20]);
    ReadingThenWriting(bytes[20..24]);
    ReadingThenWriting(bytes[24..28]);
    ReadingThenWriting(bytes[28..32]);
    ReadingThenWriting(bytes[32..36]);
    assert bytes[..40] == bytes[..8] + bytes[8..12] + bytes[12..20] + bytes[20..24] + bytes[24..28]
                          + bytes[28..32] + bytes[32..36] + bytes[36..40];
  }

  lemma FourLengths(bytes: Bytes, body: Bytes, fields: seq<Bytes>, rest: Bytes)
    requires |bytes| >= HEADER_BYTES && |fields| == 4 && Cut(bytes, 0, body) == Some(Pieces(fields, rest))
    ensures FieldLength(bytes, 0) == |fields[0]| && FieldLength(bytes, 1) == |fields[1]|
    ensures FieldLength(bytes, 2) == |fields[2]| && FieldLength(bytes, 3) == |fields[3]|
  {
    CutLengths(bytes, 0, body, 0);
    CutLengths(bytes, 0, body, 1);
    CutLengths(bytes, 0, body, 2);
    CutLengths(bytes, 0, body, 3);
  }

  /** A cut that leaves the trailer is the layout of what was cut. */
  lemma CutIsLayout(bytes: Bytes, s: Session)
    requires |bytes| >= HEADER_BYTES && s.expiresAt >= 0
    requires bytes[..8] == MAGIC && bytes[8..12] == LittleEndian(1, 4) && bytes[36..40] == LittleEndian(1, 4)
    requires FromLittleEndian(bytes[12..20]) == s.expiresAt / SECOND
    requires Cut(bytes, 0, bytes[HEADER_BYTES..]) == Some(Pieces([s.access, s.refresh, s.userId, s.login], Trailer()))
    ensures bytes == Layout(s)
  {
    var body := bytes[HEADER_BYTES..];
    CutReassembles(bytes, 0, body);
    FourLengths(bytes, body, [s.access, s.refresh, s.userId, s.login], Trailer());
    HeaderReassembles(bytes);
    ConcatOfFour(s.access, s.refresh, s.userId, s.login, Trailer());
    assert bytes == bytes[..HEADER_BYTES] + body;
  }

  /** Every accepted record is the encoding of the session it decodes to, bit for bit. */
  lemma EncodeAfterDecode(bytes: Bytes)
    requires Decoded(bytes).Ok?
    ensures Encoded(Decoded(bytes).value) == Ok(bytes)
    ensures Truncated(Decoded(bytes).value) == Decoded(bytes).value
  {
    var s := Decoded(bytes).value;
    var seconds := Signed64(FromLittleEndian(bytes[12..20]));
    assert s.expiresAt / SECOND == seconds;
    var f := Cut(bytes, 0, bytes[HEADER_BYTES..]).value.fields;
    assert f == [s.access, s.refresh, s.userId, s.login];
    ReadingThenWriting(bytes[12..20]);
    WordSizes();
    assert FromLittleEndian(bytes[12..20]) == seconds;
    CutIsLayout(bytes, s);
    assert |bytes| == Size(s);
  }

  lemma ConcatOfFour(a: Bytes, b: Bytes, c: Bytes, d: Bytes, rest: Bytes)
    ensures Concat([a, b, c, d]) + rest == a + (b + (c + (d + rest)))
  {
    ConcatFirst(d, [], rest);
    ConcatFirst(c, [d], rest);
    ConcatFirst(b, [c, d], rest);
    ConcatFirst(a, [b, c, d], rest);
    assert [d] + [] == [d] && [c] + [d] == [c, d] && [b] + [c, d] == [b, c, d] && [a] + [b, c, d] == [a, b, c, d];
    assert Concat([]) + rest == rest;
  }

  /** So encodings are unique: two accepted records of one session are the same record, and two
      sessions with one record differ at most within the second of their expiry. */
  lemma EncodingsAreUnique(x: Bytes, y: Bytes, s: Session, t: Session)
    ensures Decoded(x).Ok? && Decoded(x) == Decoded(y) ==> x == y
    ensures Encoded(s).Ok? && Encoded(s) == Encoded(t) ==> Truncated(s) == Truncated(t)
  {
    if Decoded(x).Ok? && Decoded(x) == Decoded(y) {
      EncodeAfterDecode(x);
      EncodeAfterDecode(y);
    }
    if Encoded(s).Ok? && Encoded(s) == Encoded(t) {
      DecodeAfterEncode(s);
      DecodeAfterEncode(t);
    }
  }

  /** The reader accepts exactly what the writer writes. */
  lemma AcceptedIffWritten(bytes: Bytes)
    ensures Decoded(bytes).Ok? <==> exists s :: Encoded(s) == Ok(bytes)
  {
    if Decoded(bytes).Ok? {
      EncodeAfterDecode(bytes);
    }
    if s :| Encoded(s) == Ok(bytes) {
      DecodeAfterEncode(s);
    }
  }

  // ---------------------------------------------------------------- writer and reader

  method CopyAt(target: array<Byte>, at: nat, source: Bytes)
    requires at + |source| <= target.Length
    modifies target
    ensures target[..] == old(target[..at]) + source + old(target[at + |source|..])
  {
    for i := 0 to |source|
      invariant target[..] == old(target[..at]) + source[..i] + old(target[at + i..])
    {
      target[at + i] := source[i];
    }
  }

  /** The length words, and the fields themselves, in order. */
  function Lengths(fields: seq<Bytes>): (r: Bytes)
    ensures |r| == 4 * |fields|
  {
    if fields == [] then [] else Lengths(fields[..|fields| - 1]) + LittleEndian(|fields[|fields| - 1]|, 4)
  }

  function Joined(fields: seq<Bytes>): Bytes {
    if fields == [] then [] else Joined(fields[..|fields| - 1]) + fields[|fields| - 1]
  }

  lemma OneMoreField(fields: seq<Bytes>, last: Bytes)
    ensures Lengths(fields + [last]) == Lengths(fields) + LittleEndian(|last|, 4)
    ensures Joined(fields + [last]) == Joined(fields) + last
  {
    assert (fields + [last])[..|fields|] == fields;
  }

  lemma FourFields(a: Bytes, b: Bytes, c: Bytes, d: Bytes)
    ensures Lengths([a, b, c, d]) == LittleEndian(|a|, 4) + LittleEndian(|b|, 4) + LittleEndian(|c|, 4) + LittleEndian(|d|, 4)
    ensures Joined([a, b, c, d]) == a + b + c + d
  {
    OneMoreField([], a);
    OneMoreField([a], b);
    OneMoreField([a, b], c);
    OneMoreField([a, b, c], d);
    assert [] + [a] == [a] && [a] + [b] == [a, b] && [a, b] + [c] == [a, b, c] && [a, b, c] + [d] == [a, b, c, d];
    assert Lengths([]) == [] && Joined([]) == [];
    assert [] + LittleEndian(|a|, 4) == LittleEndian(|a|, 4) && [] + a == a;
  }

  /** The four length words behind the first 20 bytes. */
  method WriteLengths(bytes: array<Byte>, fields: seq<Bytes>)
    requires |fields| == FIELDS && bytes.Length >= HEADER_BYTES
    modifies bytes
    ensures bytes[..36] == old(bytes[..20]) + Lengths(fields)
  {
    ghost var front := bytes[..20];
    for index := 0 to FIELDS
      invariant bytes[..20 + 4 * index] == front + Lengths(fields[..index])
    {
      assert fields[..index] + [fields[index]] == fields[..index + 1];
      OneMoreField(fields[..index], fields[index]);
      CopyAt(bytes, 20 + index * 4, LittleEndian(|fields[index]|, 4));
    }
    assert fields[..FIELDS] == fields;
  }

  /** The fields back to back behind the header; returns the position after them. */
  method WriteFields(bytes: array<Byte>, fields: seq<Bytes>) returns (cursor: nat)
    requires HEADER_BYTES + |Joined(fields)| <= bytes.Length
    modifies bytes
    ensures cursor == HEADER_BYTES + |Joined(fields)|
    ensures bytes[..cursor] == old(bytes[..HEADER_BYTES]) + Joined(fields)
  {
    ghost var front := bytes[..HEADER_BYTES];
    cursor := HEADER_BYTES;
    for index := 0 to |fields|
      invariant cursor == HEADER_BYTES + |Joined(fields[..index])| <= bytes.Length
      invariant bytes[..cursor] == front + Joined(fields[..index])
    {
      JoinedPrefix(fields, index);
      assert fields[..index] + [fields[index]] == fields[..index + 1];
      OneMoreField(fields[..index], fields[index]);
      CopyAt(bytes, cursor, fields[index]);
      cursor := cursor + |fields[index]|;
    }
    assert fields[..|fields|] == fields;
  }

  method WriteFront(bytes: array<Byte>, seconds: nat)
    requires bytes.Length >= HEADER_BYTES
    modifies bytes
    ensures bytes[..20] == MAGIC + LittleEndian(1, 4) + LittleEndian(seconds, 8)
  {
    CopyAt(bytes, 0, MAGIC);
    CopyAt(bytes, 8, LittleEndian(1, 4));
    CopyAt(bytes, 12, LittleEndian(seconds, 8));
  }

  lemma LayoutInOrder(s: Session)
    requires s.expiresAt >= 0
    ensures var fields := [s.access, s.refresh, s.userId, s.login];
            Layout(s) == MAGIC + LittleEndian(1, 4) + LittleEndian(s.expiresAt / SECOND, 8) + Lengths(fields)
                         + LittleEndian(1, 4) + Joined(fields) + LittleEndian(|CHAT_SCOPE|, 4) + CHAT_SCOPE
  {
    var fields := [s.access, s.refresh, s.userId, s.login];
    FourFields(s.access, s.refresh, s.userId, s.login);
    var front := MAGIC + LittleEndian(1, 4) + LittleEndian(s.expiresAt / SECOND, 8);
    Reassociate(front, LittleEndian(|s.access|, 4), LittleEndian(|s.refresh|, 4), LittleEndian(|s.userId|, 4),
                LittleEndian(|s.login|, 4), LittleEndian(1, 4));
    Reassociate5(front + Lengths(fields) + LittleEndian(1, 4), s.access, s.refresh, s.userId, s.login,
                 LittleEndian(|CHAT_SCOPE|, 4), CHAT_SCOPE);
  }

  lemma Reassociate(front: Bytes, a: Bytes, b: Bytes, c: Bytes, d: Bytes, last: Bytes)
    ensures front + a + b + c + d + last == front + (a + b + c + d) + last
  {
  }

  lemma Reassociate5(front: Bytes, a: Bytes, b: Bytes, c: Bytes, d: Bytes, x: Bytes, y: Bytes)
    ensures front + (a + (b + (c + (d + (x + y))))) == front + (a + b + c + d) + x + y
  {
  }

  method WriteRecord(s: Session, total: nat) returns (bytes: array<Byte>)
    requires s.expiresAt >= 0 && total == Size(s)
    ensures fresh(bytes) && bytes[..] == Layout(s)
  {
    var fields := [s.access, s.refresh, s.userId, s.login];
    FourFields(s.access, s.refresh, s.userId, s.login);
    bytes := new Byte[total](_ => 0);
    WriteFront(bytes, s.expiresAt / SECOND);
    WriteLengths(bytes, fields);
    CopyAt(bytes, 36, LittleEndian(1, 4));
    ghost var header := bytes[..HEADER_BYTES];
    var cursor := WriteFields(bytes, fields);
    CopyAt(bytes, cursor, LittleEndian(|CHAT_SCOPE|, 4));
    CopyAt(bytes, cursor + 4, CHAT_SCOPE);
    assert bytes[..] == header + Joined(fields) + LittleEndian(|CHAT_SCOPE|, 4) + CHAT_SCOPE;
    LayoutInOrder(s);
  }

  method Encode(s: Session) returns (result: Result<Bytes, SessionError>)
    ensures result == Encoded(s)
  {
    var seconds := UnixSeconds(s.expiresAt);
    if seconds.None? {
      return Err(InvalidSession);
    }
    if !(1 <= seconds.value <= MAX_UNIX_SECONDS) || !ValidToken(s.access) || !ValidToken(s.refresh)
       || !ValidUserId(s.userId) || !ValidLogin(s.login) || |s.scopes| != 1 || s.scopes[0] != CHAT_SCOPE {
      return Err(InvalidSession);
    }
    assert s.scopes == [CHAT_SCOPE];
    var total := HEADER_BYTES + |s.access| + |s.refresh| + |s.userId| + |s.login| + 4 + |CHAT_SCOPE|;
    if total > MAX_SECRET_BYTES {
      return Err(ValueTooLarge);
    }
    var bytes := WriteRecord(s, total);
    return Ok(bytes[..]);
  }

  lemma {:induction false} JoinedPrefix(fields: seq<Bytes>, index: nat)
    requires index < |fields|
    ensures |Joined(fields[..index])| + |fields[index]| <= |Joined(fields)|
  {
    if index + 1 == |fields| {
      assert fields[..index] == fields[..|fields| - 1];
    } else {
      JoinedPrefix(fields[..|fields| - 1], index);
      assert fields[..|fields| - 1][..index] == fields[..index];
    }
  }

  lemma AppendPiece(fields: seq<Bytes>, piece: Bytes, tail: seq<Bytes>)
    ensures fields + ([piece] + tail) == (fields + [piece]) + tail
  {
  }

  /** Cuts field after field off the front. */
  method CutFields(bytes: Bytes) returns (pieces: Option<Pieces>)
    requires |bytes| >= HEADER_BYTES
    ensures pieces == Cut(bytes, 0, bytes[HEADER_BYTES..])
  {
    var fields: seq<Bytes> := [];
    var remaining := bytes[HEADER_BYTES..];
    ghost var whole := Cut(bytes, 0, remaining);
    if whole.Some? {
      assert fields + whole.value.fields == whole.value.fields;
    }
    for index := 0 to FIELDS
      invariant |fields| == index
      invariant whole == match Cut(bytes, index, remaining)
                         case None => None
                         case Some(rest) => Some(Pieces(fields + rest.fields, rest.rest))
    {
      var length := FieldLength(bytes, index);
      if length > |remaining| {
        return None;
      }
      ghost var tail := Cut(bytes, index + 1, remaining[length..]);
      if tail.Some? {
        AppendPiece(fields, remaining[..length], tail.value.fields);
      }
      fields, remaining := fields + [remaining[..length]], remaining[length..];
    }
    assert fields + [] == fields;
    return Some(Pieces(fields, remaining));
  }

  predicate IsTrailer(rest: Bytes) {
    |rest| == 4 + |CHAT_SCOPE| && rest[..4] == LittleEndian(|CHAT_SCOPE|, 4) && rest[4..] == CHAT_SCOPE
  }

  lemma TrailerParts(rest: Bytes)
    ensures IsTrailer(rest) <==> rest == Trailer()
  {
    if IsTrailer(rest) {
      assert rest == rest[..4] + rest[4..];
    }
    assert Trailer()[..4] == LittleEndian(|CHAT_SCOPE|, 4) && Trailer()[4..] == CHAT_SCOPE;
  }

  method Decode(bytes: Bytes) returns (result: Result<Session, SessionError>)
    ensures result == Decoded(bytes)
  {
    if bytes == [] || |bytes| > MAX_SECRET_BYTES {
      return Err(ValueTooLarge);
    }
    if |bytes| < 12 || bytes[..8] != MAGIC {
      return Err(CorruptRecord);
    }
    if bytes[8..12] != LittleEndian(1, 4) {
      return Err(UnsupportedVersion);
    }
    if |bytes| < HEADER_BYTES {
      return Err(CorruptRecord);
    }
    var seconds := Signed64(FromLittleEndian(bytes[12..20]));
    if seconds <= 0 || seconds > MAX_UNIX_SECONDS || bytes[36..40] != LittleEndian(1, 4) {
      return Err(CorruptRecord);
    }
    var pieces := CutFields(bytes);
    if pieces.None? {
      return Err(CorruptRecord);
    }
    var fields := pieces.value.fields;
    TrailerParts(pieces.value.rest);
    if !IsTrailer(pieces.value.rest) || !ValidToken(fields[0]) || !ValidToken(fields[1]) {
      return Err(CorruptRecord);
    }
    if !ValidUserId(fields[2]) || !ValidLogin(fields[3]) {
      return Err(CorruptRecord);
    }
    return Ok(Session(fields[0], fields[1], seconds * SECOND, fields[2], fields[3], [CHAT_SCOPE]));
  }
}
