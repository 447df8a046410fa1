/** Reading frames from a stream that arrives in chunks: how the bytes are cut does not matter. */
module HelperStream {
  import opened Evidence
  import opened BigEndian
  import opened HelperCodec

  const BUFFER_BOUND := 4096

  /** How reading one frame ends. */
  datatype Reading = Got(frame: Frame) | EndedEarly | Malformed | OverBound

  // ---- the reader, as a function of its buffer and the chunks still to come ----

  datatype Reader = Reader(buffered: seq<Byte>, chunks: seq<seq<Byte>>)

  datatype Filled = Filled(reader: Reader, failure: Option<Reading>)

  /** One reading and what is left to read from. */
  datatype Step<S> = Step(next: S, reading: Reading)

  /** Takes chunks until the buffer holds `minimum` bytes; None when it returns normally. */
  function Fill(r: Reader, minimum: nat): (result: Filled)
    ensures result.failure.None? ==> |result.reader.buffered| >= minimum
    decreases |r.chunks|
  {
    if |r.buffered| >= minimum then Filled(r, None)
    else if r.chunks == [] then Filled(r, Some(EndedEarly))
    else if r.chunks[0] == [] then Fill(Reader(r.buffered, r.chunks[1..]), minimum)
    else if |r.buffered| + |r.chunks[0]| > BUFFER_BOUND then Filled(Reader(r.buffered, r.chunks[1..]), Some(OverBound))
    else Fill(Reader(r.buffered + r.chunks[0], r.chunks[1..]), minimum)
  }

  function ReadFrame(r: Reader): Step<Reader> {
    var Filled(filled, failure) := Fill(r, HEADER_BYTES);
    if failure.Some? then Step(filled, failure.value)
    else
      var length := FrameLength(filled.buffered[..HEADER_BYTES]);
      if length.None? then Step(filled, Malformed)
      else
        var Filled(whole, failure2) := Fill(filled, length.value);
        if failure2.Some? then Step(whole, failure2.value)
        else
          var rest := Reader(whole.buffered[length.value..], whole.chunks);
          var frame := Decode(whole.buffered[..length.value]);
          Step(rest, if frame.None? then Malformed else Got(frame.value))
  }

  /** The readings of successive calls, up to the first that fails. */
  function Repeat<S>(step: S -> Step<S>, s: S, count: nat): seq<Reading>
    decreases count
  {
    if count == 0 then []
    else [step(s).reading] + if step(s).reading.Got? then Repeat(step, step(s).next, count - 1) else []
  }

  /** None of the calls meets the buffer's bound. */
  predicate BoundKept<S>(step: S -> Step<S>, s: S, count: nat)
    decreases count
  {
    count == 0 || (!step(s).reading.OverBound? && (step(s).reading.Got? ==> BoundKept(step, step(s).next, count - 1)))
  }

  function ReadFrames(r: Reader, count: nat): seq<Reading> { Repeat(ReadFrame, r, count) }

  predicate WithinBound(r: Reader, count: nat) { BoundKept(ReadFrame, r, count) }

  // ---- the same, on the bytes alone ----

  function Flat(chunks: seq<seq<Byte>>): seq<Byte> { if chunks == [] then [] else chunks[0] + Flat(chunks[1..]) }

  function Pending(r: Reader): seq<Byte> { r.buffered + Flat(r.chunks) }

  function ParseFrame(bytes: seq<Byte>): Step<seq<Byte>> {
    if |bytes| < HEADER_BYTES then Step(bytes, EndedEarly)
    else
      var length := FrameLength(bytes[..HEADER_BYTES]);
      if length.None? then Step(bytes, Malformed)
      else if |bytes| < length.value then Step(bytes, EndedEarly)
      else
        var frame := Decode(bytes[..length.value]);
        Step(bytes[length.value..], if frame.None? then Malformed else Got(frame.value))
  }

  function ParseFrames(bytes: seq<Byte>, count: nat): seq<Reading> { Repeat(ParseFrame, bytes, count) }

  // ---- chunks do not matter ----

  lemma {:induction false} FillKeeps(r: Reader, minimum: nat)
    ensures var Filled(filled, failure) := Fill(r, minimum);
            (failure.None? ==> |filled.buffered| >= minimum && Pending(filled) == Pending(r))
            && (failure.Some? ==> failure.value.EndedEarly? || failure.value.OverBound?)
            && (failure == Some(EndedEarly) ==> |Pending(r)| < minimum)
    decreases |r.chunks|
  {
    if |r.buffered| < minimum && r.chunks != [] {
      assert Flat(r.chunks) == r.chunks[0] + Flat(r.chunks[1..]);
      if r.chunks[0] == [] {
        FillKeeps(Reader(r.buffered, r.chunks[1..]), minimum);
      } else if |r.buffered| + |r.chunks[0]| <= BUFFER_BOUND {
        FillKeeps(Reader(r.buffered + r.chunks[0], r.chunks[1..]), minimum);
        assert r.buffered + r.chunks[0] + Flat(r.chunks[1..]) == r.buffered + (r.chunks[0] + Flat(r.chunks[1..]));
      }
    }
  }

  lemma Cut(front: seq<Byte>, rest: seq<Byte>, k: nat)
    requires k <= |front|
    ensures (front + rest)[..k] == front[..k] && (front + rest)[k..] == front[k..] + rest
  {}

  /** One call reads from the bytes what parsing them gives, unless the bound is hit. */
  lemma ReadIsParse(r: Reader)
    requires !ReadFrame(r).reading.OverBound?
    ensures ReadFrame(r).reading == ParseFrame(Pending(r)).reading
    ensures ReadFrame(r).reading.Got? ==> Pending(ReadFrame(r).next) == ParseFrame(Pending(r)).next
  {
    var Filled(filled, failure) := Fill(r, HEADER_BYTES);
    FillKeeps(r, HEADER_BYTES);
    if failure.None? {
      Cut(filled.buffered, Flat(filled.chunks), HEADER_BYTES);
      var length := FrameLength(filled.buffered[..HEADER_BYTES]);
      if length.Some? {
        var Filled(whole, failure2) := Fill(filled, length.value);
        FillKeeps(filled, length.value);
        if failure2.None? {
          Cut(whole.buffered, Flat(whole.chunks), length.value);
        }
      }
    }
  }

  ghost predicate StepsAgree<S(!new), T(!new)>(f: S -> Step<S>, g: T -> Step<T>, related: (S, T) -> bool) {
    forall s, t | related(s, t) && !f(s).reading.OverBound? ::
      f(s).reading == g(t).reading && (f(s).reading.Got? ==> related(f(s).next, g(t).next))
  }

  /** Steps that agree on related states read the same, as long as the bound is kept. */
  lemma {:induction false} Simulates<S(!new), T(!new)>(f: S -> Step<S>, g: T -> Step<T>, related: (S, T) -> bool, s: S,
                                       t: T, count: nat)
    requires StepsAgree(f, g, related) && related(s, t) && BoundKept(f, s, count)
    ensures Repeat(f, s, count) == Repeat(g, t, count)
    decreases count
  {
    if count > 0 && f(s).reading.Got? {
      Simulates(f, g, related, f(s).next, g(t).next, count - 1);
    }
  }

  /** Successive calls read the same frames however the stream is cut, as long as no chunk is
      refused for the bound. */
  lemma ChunksDoNotMatter(r: Reader, count: nat)
    requires WithinBound(r, count)
    ensures ReadFrames(r, count) == ParseFrames(Pending(r), count)
  {
    var related := (x: Reader, y: seq<Byte>) => Pending(x) == y;
    forall x, y | related(x, y) && !ReadFrame(x).reading.OverBound?
      ensures ReadFrame(x).reading == ParseFrame(y).reading
      ensures ReadFrame(x).reading.Got? ==> related(ReadFrame(x).next, ParseFrame(y).next)
    {
      ReadIsParse(x);
    }
    Simulates(ReadFrame, ParseFrame, related, r, Pending(r), count);
  }

  // ---- the bound ----

  const SAFE_CHUNK := BUFFER_BOUND - (HEADER_BYTES + MAX_PAYLOAD_BYTES - 1)

  ghost predicate SmallChunk(chunks: seq<seq<Byte>>, i: int) { 0 <= i < |chunks| ==> |chunks[i]| <= SAFE_CHUNK }

  lemma {:induction false} FillWithinBound(r: Reader, minimum: nat)
    requires minimum <= HEADER_BYTES + MAX_PAYLOAD_BYTES && forall i :: SmallChunk(r.chunks, i)
    ensures Fill(r, minimum).failure != Some(OverBound) && forall i :: SmallChunk(Fill(r, minimum).reader.chunks, i)
    decreases |r.chunks|
  {
    if |r.buffered| < minimum && r.chunks != [] {
      assert SmallChunk(r.chunks, 0);
      forall i
        ensures SmallChunk(r.chunks[1..], i)
      {
        assert SmallChunk(r.chunks, i + 1);
      }
      if r.chunks[0] == [] {
        FillWithinBound(Reader(r.buffered, r.chunks[1..]), minimum);
      } else {
        FillWithinBound(Reader(r.buffered + r.chunks[0], r.chunks[1..]), minimum);
      }
    }
  }

  ghost predicate AllSmall(r: Reader) { forall i :: SmallChunk(r.chunks, i) }

  lemma SmallStep(r: Reader)
    requires AllSmall(r)
    ensures !ReadFrame(r).reading.OverBound? && AllSmall(ReadFrame(r).next)
  {
    FillWithinBound(r, HEADER_BYTES);
    FillKeeps(r, HEADER_BYTES);
    var Filled(filled, failure) := Fill(r, HEADER_BYTES);
    if failure.None? && FrameLength(filled.buffered[..HEADER_BYTES]).Some? {
      FillWithinBound(filled, FrameLength(filled.buffered[..HEADER_BYTES]).value);
      FillKeeps(filled, FrameLength(filled.buffered[..HEADER_BYTES]).value);
    }
  }

  lemma {:induction false} KeptBound<S(!new)>(step: S -> Step<S>, good: S -> bool, s: S, count: nat)
    requires (forall x | good(x) :: !step(x).reading.OverBound? && good(step(x).next)) && good(s)
    ensures BoundKept(step, s, count)
    decreases count
  {
    if count > 0 {
      KeptBound(step, good, step(s).next, count - 1);
    }
  }

  /** The bound is never hit while every chunk leaves room for one incomplete frame. */
  lemma SmallChunksPass(r: Reader, count: nat)
    requires forall i :: SmallChunk(r.chunks, i)
    ensures WithinBound(r, count)
  {
    ghost var good := (x: Reader) => AllSmall(x);
    forall x | good(x)
      ensures !ReadFrame(x).reading.OverBound? && good(ReadFrame(x).next)
    {
      SmallStep(x);
    }
    KeptBound(ReadFrame, good, r, count);
  }

  /** The first of the chunks that comes while too little is buffered and does not fit. */
  ghost predicate Refused(r: Reader, minimum: nat, k: nat) {
    k < |r.chunks| && r.chunks[k] != []
    && |r.buffered + Flat(r.chunks[..k])| < minimum
    && |r.buffered + Flat(r.chunks[..k])| + |r.chunks[k]| > BUFFER_BOUND
  }

  lemma FlatNext(chunks: seq<seq<Byte>>, k: nat)
    requires 0 < k <= |chunks|
    ensures Flat(chunks[..k]) == chunks[0] + Flat(chunks[1..][..k - 1])
  {
    assert chunks[..k][1..] == chunks[1..][..k - 1];
  }

  lemma RefusedNext(r: Reader, minimum: nat, k: nat)
    requires r.chunks != [] && k > 0
    ensures Refused(r, minimum, k) <==> Refused(Reader(r.buffered + r.chunks[0], r.chunks[1..]), minimum, k - 1)
  {
    if k <= |r.chunks| {
      FlatNext(r.chunks, k);
    }
  }

  /** The bound is hit exactly when a chunk does not fit beside what is buffered, too little of it
      still; and what is buffered never exceeds the bound. */
  lemma {:induction false} BoundExactly(r: Reader, minimum: nat)
    requires minimum <= BUFFER_BOUND
    ensures Fill(r, minimum).failure == Some(OverBound) <==> exists k :: Refused(r, minimum, k)
    ensures |r.buffered| <= BUFFER_BOUND ==> |Fill(r, minimum).reader.buffered| <= BUFFER_BOUND
    decreases |r.chunks|
  {
    if |r.buffered| < minimum && r.chunks != [] {
      var next := Reader(r.buffered + r.chunks[0], r.chunks[1..]);
      assert r.chunks[..0] == [] && r.buffered + [] == r.buffered;
      if r.chunks[0] != [] && |r.buffered| + |r.chunks[0]| > BUFFER_BOUND {
        assert Refused(r, minimum, 0);
      } else {
        assert r.chunks[0] == [] ==> next.buffered == r.buffered;
        BoundExactly(next, minimum);
        if k: nat :| Refused(r, minimum, k) {
          RefusedNext(r, minimum, k);
        }
        if k: nat :| Refused(next, minimum, k) {
          RefusedNext(r, minimum, k + 1);
        }
      }
    }
  }

  // ---- encoding, cutting and reading back ----

  function Encoded(frames: seq<Frame>): seq<Byte>
    requires forall i | 0 <= i < |frames| :: ValidFrame(frames[i])
  {
    if frames == [] then []
    else
      assert ValidFrame(frames[0]);
      FrameBytes(frames[0]) + Encoded(frames[1..])
  }

  function AllGot(frames: seq<Frame>): seq<Reading> {
    if frames == [] then [] else [Got(frames[0])] + AllGot(frames[1..])
  }

  lemma {:induction false} ParseEncoded(frames: seq<Frame>, rest: seq<Byte>)
    requires forall i | 0 <= i < |frames| :: ValidFrame(frames[i])
    ensures ParseFrames(Encoded(frames) + rest, |frames|) == AllGot(frames)
  {
    if frames != [] {
      var bytes, more := FrameBytes(frames[0]), Encoded(frames[1..]) + rest;
      assert Encoded(frames) + rest == bytes + more;
      DecodeEncoded(frames[0]);
      Cut(bytes, more, HEADER_BYTES);
      Cut(bytes, more, |bytes|);
      assert bytes[..|bytes|] == bytes && bytes[|bytes|..] + more == more;
      ParseEncoded(frames[1..], rest);
    }
  }

  /** Frames written one after another are read back exactly, however the stream is cut into
      chunks that respect the bound. */
  lemma StreamRoundTrip(frames: seq<Frame>, chunks: seq<seq<Byte>>)
    requires forall i | 0 <= i < |frames| :: ValidFrame(frames[i])
    requires Flat(chunks) == Encoded(frames) && WithinBound(Reader([], chunks), |frames|)
    ensures ReadFrames(Reader([], chunks), |frames|) == AllGot(frames)
  {
    ChunksDoNotMatter(Reader([], chunks), |frames|);
    ParseEncoded(frames, []);
    assert Pending(Reader([], chunks)) == Encoded(frames) + [];
  }

  // ---- the reader as it runs ----

  class HelperFrameReader {
    var buffered: seq<Byte>
    var chunks: seq<seq<Byte>>

    function State(): Reader
      reads this
    {
      Reader(buffered, chunks)
    }

    constructor (chunks: seq<seq<Byte>>)
      ensures State() == Reader([], chunks)
    {
      buffered, this.chunks := [], chunks;
    }

    method FillTo(minimum: nat) returns (failure: Option<Reading>)
      modifies this
      ensures Filled(State(), failure) == Fill(old(State()), minimum)
    {
      while |buffered| < minimum
        invariant Fill(State(), minimum) == Fill(old(State()), minimum)
        decreases |chunks|
      {
        if chunks == [] {
          return Some(EndedEarly);
        }
        var chunk := chunks[0];
        chunks := chunks[1..];
        if chunk == [] {
          continue;
        }
        if |buffered| + |chunk| > BUFFER_BOUND {
          return Some(OverBound);
        }
        buffered := buffered + chunk;
      }
      return None;
    }

    method Read() returns (reading: Reading)
      modifies this
      ensures Step(State(), reading) == ReadFrame(old(State()))
    {
      FillKeeps(State(), HEADER_BYTES);
      var failure := FillTo(HEADER_BYTES);
      if failure.Some? {
        return failure.value;
      }
      var length := FrameLength(buffered[..HEADER_BYTES]);
      if length.None? {
        return Malformed;
      }
      FillKeeps(State(), length.value);
      failure := FillTo(length.value);
      if failure.Some? {
        return failure.value;
      }
      var frameBytes := buffered[..length.value];
      buffered := buffered[length.value..];
      var frame := Decode(frameBytes);
      return if frame.None? then Malformed else Got(frame.value);
    }
  }
}
