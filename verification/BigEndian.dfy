/** Big-endian integers: the helper's readers and writers against one pair of functions. */
module BigEndian {

  type Byte = b: int | 0 <= b < 256

  function Power256(n: nat): nat { if n == 0 then 1 else 256 * Power256(n - 1) }

  function ReadBE(bytes: seq<Byte>): nat {
    if bytes == [] then 0 else ReadBE(bytes[..|bytes| - 1]) * 256 + bytes[|bytes| - 1]
  }

  function WriteBE(value: nat, n: nat): (bytes: seq<Byte>)
    ensures |bytes| == n
  {
    if n == 0 then [] else WriteBE(value / 256, n - 1) + [value % 256]
  }

  lemma {:induction false} ReadBound(bytes: seq<Byte>)
    ensures ReadBE(bytes) < Power256(|bytes|)
  {
    if bytes != [] {
      ReadBound(bytes[..|bytes| - 1]);
    }
  }

  lemma {:induction false} ReadWrite(value: nat, n: nat)
    requires value < Power256(n)
    ensures ReadBE(WriteBE(value, n)) == value
  {
    if n > 0 {
      ReadWrite(value / 256, n - 1);
      var bytes := WriteBE(value, n);
      assert bytes[..n - 1] == WriteBE(value / 256, n - 1);
    }
  }

  lemma {:induction false} WriteRead(bytes: seq<Byte>)
    ensures WriteBE(ReadBE(bytes), |bytes|) == bytes
  {
    if bytes != [] {
      WriteRead(bytes[..|bytes| - 1]);
    }
  }

  lemma Powers()
    ensures Power256(1) == 0x100 && Power256(2) == 0x1_0000 && Power256(4) == 0x1_0000_0000
    ensures Power256(8) == 0x1_0000_0000_0000_0000
  {
    assert Power256(4) == 256 * 256 * Power256(2);
    assert Power256(6) == 256 * 256 * Power256(4);
    assert Power256(8) == 256 * 256 * Power256(6);
  }

  lemma ReadTwo(bytes: seq<Byte>)
    requires |bytes| == 2
    ensures ReadBE(bytes) == 0x100 * (bytes[0] as int) + bytes[1]
  {
    assert bytes[..1][..0] == [];
    assert ReadBE(bytes[..1]) == bytes[0];
  }

  lemma ReadFour(bytes: seq<Byte>)
    requires |bytes| == 4
    ensures ReadBE(bytes) == 0x100_0000 * (bytes[0] as int) + 0x1_0000 * (bytes[1] as int) + 0x100 * (bytes[2] as int)
            + bytes[3]
  {
    ReadTwo(bytes[..2]);
    assert bytes[..3][..2] == bytes[..2];
    assert ReadBE(bytes[..3]) == ReadBE(bytes[..2]) * 256 + bytes[2];
  }

  // ---- the helper's readers and writers ----

  /** Shifts and ors of disjoint bytes are sums here. */
  method ReadU32(input: array<Byte>, at: nat) returns (result: nat)
    requires at + 4 <= input.Length
    ensures result == ReadBE(input[at..at + 4]) < 0x1_0000_0000
  {
    ReadFour(input[at..at + 4]);
    result := 0x100_0000 * (input[at] as int) + 0x1_0000 * (input[at + 1] as int) + 0x100 * (input[at + 2] as int)
      + input[at + 3];
  }

  /** The loop's shift never loses a bit: the value stays below 2^64. */
  method ReadU64(input: array<Byte>, at: nat) returns (result: nat)
    requires at + 8 <= input.Length
    ensures result == ReadBE(input[at..at + 8]) < 0x1_0000_0000_0000_0000
  {
    result := 0;
    for index := 0 to 8
      invariant result == ReadBE(input[at..at + index])
    {
      assert input[at..at + index + 1][..index] == input[at..at + index];
      result := result * 256 + input[at + index];
    }
    ReadBound(input[at..at + 8]);
    Powers();
  }

  /** Writes the low byte last, from the end of the field to its start. */
  method WriteU64(output: array<Byte>, at: nat, value: nat)
    requires at + 8 <= output.Length && value < 0x1_0000_0000_0000_0000
    modifies output
    ensures output[at..at + 8] == WriteBE(value, 8)
    ensures output[..at] == old(output[..at]) && output[at + 8..] == old(output[at + 8..])
  {
    var left: nat := value;
    for index := 0 to 8
      invariant left < Power256(8 - index)
      invariant WriteBE(left, 8 - index) + output[at + 8 - index..at + 8] == WriteBE(value, 8)
      invariant output[..at] == old(output[..at]) && output[at + 8..] == old(output[at + 8..])
    {
      ghost var before := output[at + 8 - index..at + 8];
      output[at + 7 - index] := left % 256;
      assert output[at + 7 - index..at + 8] == [left % 256] + before;
      assert WriteBE(left, 8 - index) == WriteBE(left / 256, 7 - index) + [left % 256];
      left := left / 256;
    }
  }
}
