/** The helper's binary frames and payloads: request encoding, decoding, and the response
    layouts the native side writes. */
module HelperCodec {
  import opened Evidence
  import opened BigEndian

  datatype Frame = Frame(opcode: int, sequence: int, payload: seq<Byte>)

  const MAGIC: seq<Byte> := [0x50, 0x54, 0x4c, 0x43]
  const HEADER_BYTES := 24
  const MAX_PAYLOAD_BYTES := 256
  const RESPONSE_BIT := 0x8000

  predicate ValidFrame(f: Frame) {
    1 <= f.opcode <= 0xffff && 1 <= f.sequence <= MAX_UINT64 && |f.payload| <= MAX_PAYLOAD_BYTES
  }

  predicate ValidRequest(f: Frame) { ValidFrame(f) && f.opcode < RESPONSE_BIT }

  /** The bytes of a frame, as either side writes it. */
  function FrameBytes(f: Frame): (bytes: seq<Byte>)
    requires f.opcode >= 0 && f.sequence >= 0
    ensures |bytes| == HEADER_BYTES + |f.payload|
  {
    MAGIC + WriteBE(1, 2) + WriteBE(f.opcode, 2) + WriteBE(|f.payload|, 4) + WriteBE(0, 4) + WriteBE(f.sequence, 8)
      + f.payload
  }

  predicate ValidHeader(bytes: seq<Byte>) {
    |bytes| >= HEADER_BYTES && bytes[..4] == MAGIC && ReadBE(bytes[4..6]) == 1 && ReadBE(bytes[12..16]) == 0
  }

  function Decode(bytes: seq<Byte>): Option<Frame> {
    if !ValidHeader(bytes) then None
    else
      var opcode, length, sequence := ReadBE(bytes[6..8]), ReadBE(bytes[8..12]), ReadBE(bytes[16..24]);
      if !(1 <= opcode <= 0xffff) || sequence == 0 || length > MAX_PAYLOAD_BYTES || |bytes| != HEADER_BYTES + length
        then None
      else Some(Frame(opcode, sequence, bytes[HEADER_BYTES..]))
  }

  /** The length a stream header announces; None when the reader throws. */
  function FrameLength(header: seq<Byte>): Option<nat> {
    if |header| != HEADER_BYTES || !ValidHeader(header) || ReadBE(header[8..12]) > MAX_PAYLOAD_BYTES then None
    else Some(HEADER_BYTES + ReadBE(header[8..12]))
  }

  /** The last field of a prefix of the bytes stands right after the fields before it. */
  lemma Field(pre: seq<Byte>, field: seq<Byte>, bytes: seq<Byte>)
    requires pre + field <= bytes
    ensures pre <= bytes && bytes[|pre|..|pre| + |field|] == field
  {
    assert bytes[..|pre + field|] == pre + field;
    assert (pre + field)[|pre|..] == field;
  }

  /** Where the fields of a frame stand in its bytes. */
  lemma FrameFields(f: Frame)
    requires f.opcode >= 0 && f.sequence >= 0
    ensures var bytes := FrameBytes(f);
            bytes[..4] == MAGIC && bytes[4..6] == WriteBE(1, 2) && bytes[6..8] == WriteBE(f.opcode, 2)
            && bytes[8..12] == WriteBE(|f.payload|, 4) && bytes[12..16] == WriteBE(0, 4)
            && bytes[16..24] == WriteBE(f.sequence, 8) && bytes[24..] == f.payload
  {
    var v, o, l, z, q, p := WriteBE(1, 2), WriteBE(f.opcode, 2), WriteBE(|f.payload|, 4), WriteBE(0, 4),
      WriteBE(f.sequence, 8), f.payload;
    var bytes := FrameBytes(f);
    Field(MAGIC + v + o + l + z + q, p, bytes);
    Field(MAGIC + v + o + l + z, q, bytes);
    Field(MAGIC + v + o + l, z, bytes);
    Field(MAGIC + v + o, l, bytes);
    Field(MAGIC + v, o, bytes);
    Field(MAGIC, v, bytes);
  }

  /** Decoding what was encoded returns it, for requests and responses alike. */
  lemma DecodeEncoded(f: Frame)
    requires ValidFrame(f)
    ensures Decode(FrameBytes(f)) == Some(f)
    ensures FrameLength(FrameBytes(f)[..HEADER_BYTES]) == Some(|FrameBytes(f)|)
  {
    var bytes := FrameBytes(f);
    FrameFields(f);
    Powers();
    ReadWrite(1, 2);
    ReadWrite(f.opcode, 2);
    ReadWrite(|f.payload|, 4);
    ReadWrite(0, 4);
    ReadWrite(f.sequence, 8);
    HeaderSlices(bytes);
  }

  lemma HeaderSlices(bytes: seq<Byte>)
    requires |bytes| >= HEADER_BYTES
    ensures var header := bytes[..HEADER_BYTES];
            header[..4] == bytes[..4] && header[4..6] == bytes[4..6] && header[8..12] == bytes[8..12]
            && header[12..16] == bytes[12..16]
  {}

  /** And only the encoding of a frame decodes to it. */
  lemma DecodedIsEncoding(bytes: seq<Byte>)
    requires Decode(bytes).Some?
    ensures ValidFrame(Decode(bytes).value) && FrameBytes(Decode(bytes).value) == bytes
  {
    var f := Decode(bytes).value;
    Powers();
    ReadBound(bytes[16..24]);
    WriteRead(bytes[4..6]);
    WriteRead(bytes[6..8]);
    WriteRead(bytes[8..12]);
    WriteRead(bytes[12..16]);
    WriteRead(bytes[16..24]);
    assert bytes == bytes[..4] + bytes[4..6] + bytes[6..8] + bytes[8..12] + bytes[12..16] + bytes[16..24] + bytes[24..];
  }

  /** A stream header announces a length exactly when the version, the magic and the reserved bytes
      are right and the payload is not too long: when it is the header of some frame but for its
      opcode and sequence, which may be zero; and the length is that frame's. */
  lemma LengthExactly(header: seq<Byte>)
    ensures FrameLength(header).Some? <==> exists f :: HeaderOf(f, header)
    ensures forall f | HeaderOf(f, header) :: FrameLength(header) == Some(HEADER_BYTES + |f.payload|)
  {
    if FrameLength(header).Some? {
      HeaderIsWritten(header);
    }
    forall f | HeaderOf(f, header)
      ensures FrameLength(header) == Some(HEADER_BYTES + |f.payload|)
    {
      WrittenHeader(f, header);
    }
  }

  ghost predicate HeaderOf(f: Frame, header: seq<Byte>) {
    0 <= f.opcode <= 0xffff && 0 <= f.sequence <= MAX_UINT64 && |f.payload| <= MAX_PAYLOAD_BYTES
    && FrameBytes(f)[..HEADER_BYTES] == header
  }

  lemma WrittenHeader(f: Frame, header: seq<Byte>)
    requires HeaderOf(f, header)
    ensures FrameLength(header) == Some(HEADER_BYTES + |f.payload|)
  {
    FrameFields(f);
    Powers();
    ReadWrite(1, 2);
    ReadWrite(|f.payload|, 4);
    ReadWrite(0, 4);
    HeaderSlices(FrameBytes(f));
  }

  lemma HeaderIsWritten(header: seq<Byte>)
    requires FrameLength(header).Some?
    ensures exists f :: HeaderOf(f, header)
  {
    var f := Frame(ReadBE(header[6..8]), ReadBE(header[16..24]), seq(ReadBE(header[8..12]), _ => 0));
    Powers();
    ReadBound(header[6..8]);
    ReadBound(header[16..24]);
    WriteRead(header[4..6]);
    WriteRead(header[6..8]);
    WriteRead(header[8..12]);
    WriteRead(header[12..16]);
    WriteRead(header[16..24]);
    assert header == header[..4] + header[4..6] + header[6..8] + header[8..12] + header[12..16] + header[16..24];
    assert FrameBytes(f) == header + f.payload;
    assert HeaderOf(f, header);
  }

  // ---- the encoder ----

  method Put(output: array<Byte>, at: nat, bytes: seq<Byte>)
    requires at + |bytes| <= output.Length
    modifies output
    ensures output[..at + |bytes|] == old(output[..at]) + bytes && output[at + |bytes|..] == old(output[at + |bytes|..])
  {
    for i := 0 to |bytes|
      invariant output[at..at + i] == bytes[..i]
      invariant output[..at] == old(output[..at]) && output[at + |bytes|..] == old(output[at + |bytes|..])
    {
      output[at + i] := bytes[i];
    }
  }

  /** Refuses what is not a request frame; otherwise fills one buffer field by field. */
  method EncodeFrame(f: Frame) returns (output: Option<array<Byte>>)
    ensures output.Some? <==> ValidRequest(f)
    ensures output.Some? ==> fresh(output.value) && output.value[..] == FrameBytes(f)
  {
    if !ValidRequest(f) {
      return None;
    }
    var buffer := new Byte[HEADER_BYTES + |f.payload|](_ => 0);
    Put(buffer, 0, MAGIC);
    Put(buffer, 4, WriteBE(1, 2));
    Put(buffer, 6, WriteBE(f.opcode, 2));
    Put(buffer, 8, WriteBE(|f.payload|, 4));
    Put(buffer, 12, WriteBE(0, 4));
    Put(buffer, 16, WriteBE(f.sequence, 8));
    Put(buffer, HEADER_BYTES, f.payload);
    assert buffer[..] == buffer[..buffer.Length];
    return Some(buffer);
  }

  // ---- payloads ----

  datatype BoundIdentity = BoundIdentity(handle: int, role: int, startTicks: int, device: int, inode: int, mount: int,
                                         usage: int, rawNs: int)

  predicate Fits(value: int, n: nat) { 0 <= value < Power256(n) }

  /** The response the native side writes for a bind. */
  function BindBytes(b: BoundIdentity): (bytes: seq<Byte>)
    requires Fits(b.handle, 4) && Fits(b.role, 1) && Fits(b.startTicks, 8) && Fits(b.device, 8)
    requires Fits(b.inode, 8) && Fits(b.mount, 8) && Fits(b.usage, 8) && Fits(b.rawNs, 8)
    ensures |bytes| == 56
  {
    WriteBE(b.handle, 4) + WriteBE(b.role, 1) + [0, 0, 0] + WriteBE(b.startTicks, 8) + WriteBE(b.device, 8)
    + WriteBE(b.inode, 8) + WriteBE(b.mount, 8) + WriteBE(b.usage, 8) + WriteBE(b.rawNs, 8)
  }

  function DecodeBind(payload: seq<Byte>): Option<BoundIdentity> {
    if |payload| != 56 || payload[5] != 0 || payload[6] != 0 || payload[7] != 0 then None
    else
      var b := BoundIdentity(ReadBE(payload[..4]), ReadBE(payload[4..5]), ReadBE(payload[8..16]),
                             ReadBE(payload[16..24]), ReadBE(payload[24..32]), ReadBE(payload[32..40]),
                             ReadBE(payload[40..48]), ReadBE(payload[48..56]));
      if b.handle < 1 || b.startTicks == 0 || b.device == 0 || b.inode == 0 || b.mount == 0 || b.rawNs == 0
         || !(1 <= b.role <= 3) then None
      else Some(b)
  }

  lemma BindFields(b: BoundIdentity)
    requires Fits(b.handle, 4) && Fits(b.role, 1) && Fits(b.startTicks, 8) && Fits(b.device, 8)
    requires Fits(b.inode, 8) && Fits(b.mount, 8) && Fits(b.usage, 8) && Fits(b.rawNs, 8)
    ensures var bytes := BindBytes(b);
            bytes[..4] == WriteBE(b.handle, 4) && bytes[4..5] == WriteBE(b.role, 1) && bytes[5..8] == [0, 0, 0]
            && bytes[8..16] == WriteBE(b.startTicks, 8) && bytes[16..24] == WriteBE(b.device, 8)
            && bytes[24..32] == WriteBE(b.inode, 8) && bytes[32..40] == WriteBE(b.mount, 8)
            && bytes[40..48] == WriteBE(b.usage, 8) && bytes[48..56] == WriteBE(b.rawNs, 8)
  {
    var bytes := BindBytes(b);
    var h, r, z, t := WriteBE(b.handle, 4), WriteBE(b.role, 1), [0, 0, 0], WriteBE(b.startTicks, 8);
    var d, i, m, u, n := WriteBE(b.device, 8), WriteBE(b.inode, 8), WriteBE(b.mount, 8), WriteBE(b.usage, 8),
      WriteBE(b.rawNs, 8);
    Field(h + r + z + t + d + i + m + u, n, bytes);
    Field(h + r + z + t + d + i + m, u, bytes);
    Field(h + r + z + t + d + i, m, bytes);
    Field(h + r + z + t + d, i, bytes);
    Field(h + r + z + t, d, bytes);
    Field(h + r + z, t, bytes);
    Field(h + r, z, bytes);
    Field(h, r, bytes);
  }

  /** The client reads exactly the identity the native side wrote, and refuses a zero in it. */
  lemma BindRoundTrip(b: BoundIdentity)
    requires Fits(b.handle, 4) && Fits(b.role, 1) && Fits(b.startTicks, 8) && Fits(b.device, 8)
    requires Fits(b.inode, 8) && Fits(b.mount, 8) && Fits(b.usage, 8) && Fits(b.rawNs, 8)
    ensures DecodeBind(BindBytes(b))
         == if b.handle != 0 && 1 <= b.role <= 3 && b.startTicks != 0 && b.device != 0 && b.inode != 0 && b.mount != 0
           && b.rawNs != 0
            then Some(b) else None
  {
    var bytes := BindBytes(b);
    BindFields(b);
    ReadWrite(b.handle, 4);
    ReadWrite(b.role, 1);
    ReadWrite(b.startTicks, 8);
    ReadWrite(b.device, 8);
    ReadWrite(b.inode, 8);
    ReadWrite(b.mount, 8);
    ReadWrite(b.usage, 8);
    ReadWrite(b.rawNs, 8);
    assert bytes[5] == bytes[5..8][0] && bytes[6] == bytes[5..8][1] && bytes[7] == bytes[5..8][2];
  }

  /** And nothing but such a response is read as an identity. */
  lemma DecodedBindIsWritten(payload: seq<Byte>)
    requires DecodeBind(payload).Some?
    ensures var b := DecodeBind(payload).value;
            Fits(b.handle, 4) && Fits(b.role, 1) && Fits(b.startTicks, 8) && Fits(b.device, 8) && Fits(b.inode, 8)
            && Fits(b.mount, 8) && Fits(b.usage, 8) && Fits(b.rawNs, 8) && BindBytes(b) == payload
  {
    Reads(payload[..4]);
    Reads(payload[4..5]);
    Reads(payload[8..16]);
    Reads(payload[16..24]);
    Reads(payload[24..32]);
    Reads(payload[32..40]);
    Reads(payload[40..48]);
    Reads(payload[48..56]);
    assert payload == payload[..4] + payload[4..5] + [0, 0, 0] + payload[8..16] + payload[16..24] + payload[24..32]
                      + payload[32..40] + payload[40..48] + payload[48..56];
  }

  lemma Reads(bytes: seq<Byte>)
    ensures Fits(ReadBE(bytes), |bytes|) && WriteBE(ReadBE(bytes), |bytes|) == bytes
  {
    ReadBound(bytes);
    WriteRead(bytes);
  }

  datatype RoleSample = RoleSample(handle: int, rawNs: int, usage: int, populated: bool, frozen: bool, processes: int)

  function Flag(b: bool): Byte { if b then 1 else 0 }

  /** The response the native side writes for a sample. */
  function SampleBytes(s: RoleSample): (bytes: seq<Byte>)
    requires Fits(s.handle, 4) && Fits(s.rawNs, 8) && Fits(s.usage, 8) && Fits(s.processes, 4)
    ensures |bytes| == 28
  {
    WriteBE(s.handle, 4) + WriteBE(s.rawNs, 8) + WriteBE(s.usage, 8) + [Flag(s.populated), Flag(s.frozen), 0, 0]
    + WriteBE(s.processes, 4)
  }

  function DecodeSample(payload: seq<Byte>): Option<RoleSample> {
    if |payload| != 28 || payload[22] != 0 || payload[23] != 0 then None
    else
      var handle, rawNs := ReadBE(payload[..4]), ReadBE(payload[4..12]);
      if handle < 1 || rawNs == 0 || payload[20] > 1 || payload[21] > 1 then None
      else Some(RoleSample(handle, rawNs, ReadBE(payload[12..20]), payload[20] == 1, payload[21] == 1,
        ReadBE(payload[24..28])))
  }

  lemma SampleRoundTrip(s: RoleSample)
    requires Fits(s.handle, 4) && Fits(s.rawNs, 8) && Fits(s.usage, 8) && Fits(s.processes, 4)
    ensures DecodeSample(SampleBytes(s)) == if s.handle != 0 && s.rawNs != 0 then Some(s) else None
  {
    var bytes := SampleBytes(s);
    var h, n, u, f, p := WriteBE(s.handle, 4), WriteBE(s.rawNs, 8), WriteBE(s.usage, 8),
                         [Flag(s.populated), Flag(s.frozen), 0, 0], WriteBE(s.processes, 4);
    Field(h + n + u + f, p, bytes);
    Field(h + n + u, f, bytes);
    Field(h + n, u, bytes);
    Field(h, n, bytes);
    ReadWrite(s.handle, 4);
    ReadWrite(s.rawNs, 8);
    ReadWrite(s.usage, 8);
    ReadWrite(s.processes, 4);
    assert bytes[..4] == h && bytes[4..12] == n && bytes[12..20] == u && bytes[20..24] == f && bytes[24..28] == p;
    assert bytes[20] == f[0] && bytes[21] == f[1] && bytes[22] == f[2] && bytes[23] == f[3];
  }

  lemma DecodedSampleIsWritten(payload: seq<Byte>)
    requires DecodeSample(payload).Some?
    ensures var s := DecodeSample(payload).value;
            Fits(s.handle, 4) && Fits(s.rawNs, 8) && Fits(s.usage, 8) && Fits(s.processes, 4)
            && SampleBytes(s) == payload
  {
    Reads(payload[..4]);
    Reads(payload[4..12]);
    Reads(payload[12..20]);
    Reads(payload[24..28]);
    assert payload == payload[..4] + payload[4..12] + payload[12..20] + payload[20..24] + payload[24..28];
    assert payload[20..24] == [payload[20], payload[21], 0, 0];
  }

  /** The native error frame: which request failed, and why. */
  function ErrorBytes(failed: int, code: int): seq<Byte>
    requires Fits(failed, 2) && Fits(code, 2)
  {
    WriteBE(failed, 2) + WriteBE(code, 2)
  }

  function DecodeError(payload: seq<Byte>): Option<(int, int)> {
    if |payload| != 4 then None
    else
      var failed, code := ReadBE(payload[..2]), ReadBE(payload[2..4]);
      if 1 <= failed < RESPONSE_BIT && 1 <= code <= 8 then Some((failed, code)) else None
  }

  lemma ErrorRoundTrip(failed: int, code: int)
    requires Fits(failed, 2) && Fits(code, 2)
    ensures DecodeError(ErrorBytes(failed, code)) == if 1 <= failed < RESPONSE_BIT && 1 <= code <= 8
            then Some((failed, code)) else None
  {
    ReadWrite(failed, 2);
    ReadWrite(code, 2);
    Field(WriteBE(failed, 2), WriteBE(code, 2), ErrorBytes(failed, code));
    Powers();
  }

  lemma DecodedErrorIsWritten(payload: seq<Byte>)
    requires DecodeError(payload).Some?
    ensures var (failed, code) := DecodeError(payload).value;
            Fits(failed, 2) && Fits(code, 2) && ErrorBytes(failed, code) == payload
  {
    Reads(payload[..2]);
    Reads(payload[2..4]);
    assert payload == payload[..2] + payload[2..4];
  }
}
