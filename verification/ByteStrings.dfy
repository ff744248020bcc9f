/** Byte strings, and little-endian integers in them. */
module ByteStrings {

  type Byte = b: int | 0 <= b < 256

  type Bytes = seq<Byte>

  function LittleEndian(value: nat, width: nat): (r: Bytes)
    ensures |r| == width
  {
    if width == 0 then [] else [value % 256] + LittleEndian(value / 256, width - 1)
  }

  function FromLittleEndian(bytes: Bytes): nat {
    if bytes == [] then 0 else bytes[0] + 256 * FromLittleEndian(bytes[1..])
  }

  function Power256(width: nat): (r: nat)
    ensures r > 0
  {
    if width == 0 then 1 else 256 * Power256(width - 1)
  }

  lemma {:induction false} WritingThenReading(value: nat, width: nat)
    requires value < Power256(width)
    ensures FromLittleEndian(LittleEndian(value, width)) == value
  {
    if width > 0 {
      WritingThenReading(value / 256, width - 1);
      assert LittleEndian(value, width)[1..] == LittleEndian(value / 256, width - 1);
    }
  }

  lemma {:induction false} ReadingThenWriting(bytes: Bytes)
    ensures FromLittleEndian(bytes) < Power256(|bytes|)
    ensures LittleEndian(FromLittleEndian(bytes), |bytes|) == bytes
  {
    if bytes != [] {
      ReadingThenWriting(bytes[1..]);
      var value := FromLittleEndian(bytes);
      assert value % 256 == bytes[0] && value / 256 == FromLittleEndian(bytes[1..]);
      assert bytes == [bytes[0]] + bytes[1..];
    }
  }

  lemma WordSizes()
    ensures Power256(4) == 0x1_0000_0000 && Power256(8) == 0x1_0000_0000_0000_0000
  {
    assert Power256(1) == 256 && Power256(2) == 0x1_0000 && Power256(3) == 0x100_0000;
    assert Power256(4) == 0x1_0000_0000 && Power256(5) == 0x100_0000_0000;
    assert Power256(6) == 0x1_0000_0000_0000 && Power256(7) == 0x100_0000_0000_0000;
  }

  lemma SliceOfSlice(bytes: Bytes, from: nat, to: nat, a: nat, b: nat)
    requires from <= to <= |bytes| && a <= b <= to - from
    ensures bytes[from..to][a..b] == bytes[from + a..from + b]
  {
    var slice := bytes[from..to];
    assert forall i :: 0 <= i < |slice| ==> slice[i] == bytes[from + i];
    assert forall i :: 0 <= i < b - a ==> slice[a..b][i] == bytes[from + a..from + b][i];
  }
}
