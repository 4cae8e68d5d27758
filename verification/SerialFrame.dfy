/** The PG100 serial frame codec: start-of-frame delimiters, byte stuffing (the transparency
    rule of section 4.2 of RFC 1662) and a CRC-16 trailer. */
module SerialFrame {
  import opened Lifecycle
  import opened Crc16
  import opened Streams
  import opened Iteration

  const SOF: Byte := 0x7E
  const ESC: Byte := 0x7D
  const MASK: Byte := 0x20
  const MAX_PAYLOAD := 64

  datatype Frame = Frame(frameType: Byte, sequence: Byte, payload: seq<Byte>)

  // ---------------------------------------------------------------------------
  // Encoder
  // ---------------------------------------------------------------------------

  function Stuffed(value: Byte): seq<Byte> {
    if value == SOF || value == ESC then [ESC, value ^ MASK] else [value]
  }

  function StuffedAll(body: seq<Byte>): seq<Byte> {
    FlatMap(Stuffed, body)
  }

  function Header(frame: Frame): seq<Byte>
    requires |frame.payload| <= MAX_PAYLOAD
  {
    [frame.frameType, frame.sequence, |frame.payload| as Byte]
  }

  /** The unescaped content of a frame: header, payload, CRC low byte first. */
  function Body(frame: Frame): seq<Byte>
    requires |frame.payload| <= MAX_PAYLOAD
  {
    var content := Header(frame) + frame.payload;
    content + [Low(Crc(content)), High(Crc(content))]
  }

  function Encoded(frame: Frame): seq<Byte>
    requires |frame.payload| <= MAX_PAYLOAD
  {
    [SOF] + StuffedAll(Body(frame)) + [SOF]
  }

  /** The stuffing loop of the encoder. */
  method AppendEscaped(start: seq<Byte>, body: seq<Byte>) returns (output: seq<Byte>)
    ensures output == start + StuffedAll(body)
  {
    output := start;
    for index := 0 to |body|
      invariant output == start + StuffedAll(body[..index])
    {
      var value := body[index];
      assert body[..index + 1] == body[..index] + [value];
      FlatMapSnoc(Stuffed, body[..index], value);
      if value == SOF || value == ESC {
        output := output + [ESC, value ^ MASK];
      } else {
        output := output + [value];
      }
    }
    assert body[..|body|] == body;
  }

  /** Rejects an oversized payload, as the source throws. */
  method EncodeFrame(frame: Frame) returns (bytes: Option<seq<Byte>>)
    ensures |frame.payload| > MAX_PAYLOAD ==> bytes == None
    ensures |frame.payload| <= MAX_PAYLOAD ==> bytes == Some(Encoded(frame))
  {
    if |frame.payload| > MAX_PAYLOAD {
      return None;
    }
    var content := Header(frame) + frame.payload;
    var checksum := ComputeCrc(content);
    var body := content + [Low(checksum), High(checksum)];
    var output := AppendEscaped([SOF], body);
    return Some(output + [SOF]);
  }

  // ---------------------------------------------------------------------------
  // Decoder
  // ---------------------------------------------------------------------------

  datatype State = State(buffer: seq<Byte>, inFrame: bool, escape: bool)

  const FRESH := State([], false, false)
  const READY := State([], true, false)

  function Finished(buffer: seq<Byte>): Option<Frame> {
    if |buffer| < 5 then None
    else
      var length := buffer[2] as nat;
      if |buffer| != 3 + length + 2 || length > MAX_PAYLOAD then None
      else if Crc(buffer[..3 + length]) != Word(buffer[3 + length], buffer[4 + length]) then None
      else Some(Frame(buffer[0], buffer[1], buffer[3..3 + length]))
  }

  /** One byte: the new state and the frame it completes, if any. */
  function Fed(s: State, value: Byte): (State, Option<Frame>) {
    if value == SOF then (READY, if s.inFrame && s.buffer != [] then Finished(s.buffer) else None)
    else if !s.inFrame then (s, None)
    else if s.escape then (State(s.buffer + [value ^ MASK], true, false), None)
    else if value == ESC then (s.(escape := true), None)
    else if |s.buffer| + 1 > MAX_PAYLOAD + 5 then (FRESH, None)
    else (State(s.buffer + [value], true, false), None)
  }

  function Emitted(output: Option<Frame>): seq<Frame> {
    if output.Some? then [output.value] else []
  }

  function ByteStepper(): (State, Byte) -> (State, seq<Frame>) {
    (s, value) => (Fed(s, value).0, Emitted(Fed(s, value).1))
  }

  function FedAll(s: State, data: seq<Byte>): (State, seq<Frame>) {
    Run(ByteStepper(), s, data)
  }

  class Decoder {
    var buffer: seq<Byte>
    var inFrame: bool
    var escape: bool

    ghost function View(): State
      reads this
    {
      State(buffer, inFrame, escape)
    }

    constructor ()
      ensures View() == FRESH
    {
      buffer, inFrame, escape := [], false, false;
    }

    method FinishFrame() returns (frame: Option<Frame>)
      ensures frame == Finished(buffer)
    {
      if |buffer| < 5 {
        return None;
      }
      var length := buffer[2] as nat;
      if |buffer| != 3 + length + 2 || length > MAX_PAYLOAD {
        return None;
      }
      var received := Word(buffer[3 + length], buffer[4 + length]);
      var computed := ComputeCrc(buffer[..3 + length]);
      if computed != received {
        return None;
      }
      return Some(Frame(buffer[0], buffer[1], buffer[3..3 + length]));
    }

    method FeedByte(value: Byte) returns (frame: Option<Frame>)
      modifies this
      ensures (View(), frame) == Fed(old(View()), value)
    {
      frame := None;
      if value == SOF {
        if inFrame && buffer != [] {
          frame := FinishFrame();
        }
        buffer := [];
        inFrame := true;
        escape := false;
        return;
      }
      if !inFrame {
        return;
      }
      if escape {
        buffer := buffer + [value ^ MASK];
        escape := false;
        return;
      }
      if value == ESC {
        escape := true;
        return;
      }
      buffer := buffer + [value];
      if |buffer| > MAX_PAYLOAD + 5 {
        buffer := [];
        inFrame := false;
        escape := false;
      }
    }

    method Feed(data: seq<Byte>) returns (frames: seq<Frame>)
      modifies this
      ensures (View(), frames) == FedAll(old(View()), data)
    {
      frames := [];
      for index := 0 to |data|
        invariant (View(), frames) == FedAll(old(View()), data[..index])
      {
        assert data[..index + 1] == data[..index] + [data[index]];
        RunSnoc(ByteStepper(), old(View()), data[..index], data[index]);
        assert frames + [] == frames;
        var frame := FeedByte(data[index]);
        if frame.Some? {
          frames := frames + [frame.value];
        }
      }
      assert data[..|data|] == data;
    }
  }

  // ---------------------------------------------------------------------------
  // Chunks
  // ---------------------------------------------------------------------------

  function FedChunks(s: State, chunks: seq<seq<Byte>>): (State, seq<Frame>) {
    if chunks == [] then (s, [])
    else
      var (before, frames) := FedChunks(s, chunks[..|chunks| - 1]);
      var (after, more) := FedAll(before, chunks[|chunks| - 1]);
      (after, frames + more)
  }

  /** How the stream is cut into chunks does not matter. */
  lemma {:induction false} ChunksDoNotMatter(s: State, chunks: seq<seq<Byte>>)
    ensures FedChunks(s, chunks) == FedAll(s, Joined(chunks))
  {
    if chunks == [] {
    } else {
      var last := |chunks| - 1;
      ChunksDoNotMatter(s, chunks[..last]);
      RunAppend(ByteStepper(), s, Joined(chunks[..last]), chunks[last]);
    }
  }

  // ---------------------------------------------------------------------------
  // Stuffing
  // ---------------------------------------------------------------------------

  lemma MaskFacts(value: Byte)
    ensures (value ^ MASK) ^ MASK == value
    ensures SOF ^ MASK != SOF && ESC ^ MASK != SOF
  {
  }

  lemma FedOne(s: State, value: Byte)
    ensures var (t, output) := Fed(s, value);
      FedAll(s, [value]) == (t, Emitted(output))
  {
    RunSnoc(ByteStepper(), s, [], value);
    assert [] + [value] == [value];
    assert [] + Emitted(Fed(s, value).1) == Emitted(Fed(s, value).1);
  }

  /** A stuffed byte adds exactly itself to the buffer of a decoder inside a frame. */
  lemma StuffedByteArrives(buffer: seq<Byte>, value: Byte)
    requires |buffer| < MAX_PAYLOAD + 5
    ensures FedAll(State(buffer, true, false), Stuffed(value)) == (State(buffer + [value], true, false), [])
  {
    var s := State(buffer, true, false);
    MaskFacts(value);
    if value == SOF || value == ESC {
      assert [ESC, value ^ MASK] == [ESC] + [value ^ MASK];
      RunAppend(ByteStepper(), s, [ESC], [value ^ MASK]);
      FedOne(s, ESC);
      FedOne(s.(escape := true), value ^ MASK);
    } else {
      FedOne(s, value);
    }
  }

  /** Two streams in a row, when neither emits anything. */
  lemma SilentAppend(s: State, a: seq<Byte>, middle: State, b: seq<Byte>, end: State)
    requires FedAll(s, a) == (middle, []) && FedAll(middle, b) == (end, [])
    ensures FedAll(s, a + b) == (end, [])
  {
    RunAppend(ByteStepper(), s, a, b);
    assert FedAll(s, a + b).1 == [];
  }

  lemma StuffedStep(stream: seq<Byte>, body: seq<Byte>, value: Byte)
    requires |body| < MAX_PAYLOAD + 5 && FedAll(READY, stream) == (State(body, true, false), [])
    ensures FedAll(READY, stream + Stuffed(value)) == (State(body + [value], true, false), [])
  {
    StuffedByteArrives(body, value);
    SilentAppend(READY, stream, State(body, true, false), Stuffed(value), State(body + [value], true, false));
  }

  lemma NothingStuffed()
    ensures FedAll(READY, StuffedAll([])) == (READY, [])
  {
  }

  lemma {:induction false} StuffedBodyArrives(body: seq<Byte>)
    requires |body| <= MAX_PAYLOAD + 5
    ensures FedAll(READY, StuffedAll(body)) == (State(body, true, false), [])
  {
    if body == [] {
      NothingStuffed();
    } else {
      var last := |body| - 1;
      StuffedBodyArrives(body[..last]);
      assert body[..last] + [body[last]] == body;
      FlatMapSnoc(Stuffed, body[..last], body[last]);
      StuffedStep(StuffedAll(body[..last]), body[..last], body[last]);
    }
  }

  // ---------------------------------------------------------------------------
  // Main results
  // ---------------------------------------------------------------------------

  lemma LengthByte(n: nat)
    requires n <= MAX_PAYLOAD
    ensures (n as Byte) as nat == n
  {
  }

  lemma ByteOfLength(b: Byte)
    ensures (b as nat) as Byte == b
  {
  }

  lemma BodyFinishes(frame: Frame)
    requires |frame.payload| <= MAX_PAYLOAD
    ensures Finished(Body(frame)) == Some(frame)
  {
    var n := |frame.payload|;
    LengthByte(n);
    var content := Header(frame) + frame.payload;
    var crc := Crc(content);
    var buffer := Body(frame);
    assert buffer[..3 + n] == content;
    assert buffer[3 + n] == Low(crc) && buffer[4 + n] == High(crc);
    PartsOfWord(crc);
    assert buffer[3..3 + n] == frame.payload;
  }

  /** The parts a finished buffer was cut into, put together again. */
  lemma FinishedParts(buffer: seq<Byte>)
    requires Finished(buffer).Some?
    ensures var frame := Finished(buffer).value;
      var n := buffer[2] as nat;
      && n == |frame.payload| <= MAX_PAYLOAD && |buffer| == n + 5
      && buffer[..3 + n] == [frame.frameType, frame.sequence, buffer[2]] + frame.payload
      && Crc(buffer[..3 + n]) == Word(buffer[3 + n], buffer[4 + n])
  {
    var n := buffer[2] as nat;
    assert buffer[..3] == [buffer[0], buffer[1], buffer[2]];
    assert buffer[..3 + n] == buffer[..3] + buffer[3..3 + n];
  }

  lemma FinishedIsBody(buffer: seq<Byte>)
    requires Finished(buffer).Some?
    ensures var frame := Finished(buffer).value;
      |frame.payload| <= MAX_PAYLOAD && buffer == Body(frame)
  {
    FinishedParts(buffer);
    var frame := Finished(buffer).value;
    var n := |frame.payload|;
    ByteOfLength(buffer[2]);
    assert Header(frame) == [frame.frameType, frame.sequence, buffer[2]];
    RebuildTrailer(buffer, Header(frame) + frame.payload);
  }

  lemma RebuildTrailer(buffer: seq<Byte>, content: seq<Byte>)
    requires |buffer| == |content| + 2 && buffer[..|content|] == content
    requires Crc(content) == Word(buffer[|content|], buffer[|content| + 1])
    ensures buffer == content + [Low(Crc(content)), High(Crc(content))]
  {
    WordOfParts(buffer[|content|], buffer[|content| + 1]);
  }

  /** The decoder's frame check is exactly the inverse of the encoder's body: a buffer finishes
      as a frame if and only if it is the body of that frame. */
  lemma FinishedIffBody(buffer: seq<Byte>, frame: Frame)
    ensures Finished(buffer) == Some(frame) <==> |frame.payload| <= MAX_PAYLOAD && buffer == Body(frame)
  {
    if |frame.payload| <= MAX_PAYLOAD {
      BodyFinishes(frame);
    }
    if Finished(buffer).Some? {
      FinishedIsBody(buffer);
    }
  }

  /** From a decoder that is ready for a frame, the rest of an encoded frame yields that frame. */
  lemma ReadyRoundTrip(frame: Frame)
    requires |frame.payload| <= MAX_PAYLOAD
    ensures FedAll(READY, StuffedAll(Body(frame)) + [SOF]) == (READY, [frame])
  {
    var body := Body(frame);
    StuffedBodyArrives(body);
    RunAppend(ByteStepper(), READY, StuffedAll(body), [SOF]);
    FedOne(State(body, true, false), SOF);
    FinishedIffBody(body, frame);
  }

  /** Round trip from any decoder state: an encoded frame yields at most the one frame left over
      from earlier bytes, then exactly itself, and leaves the decoder ready. */
  lemma RoundTrip(s: State, frame: Frame)
    requires |frame.payload| <= MAX_PAYLOAD
    ensures FedAll(s, Encoded(frame)) == (READY, Emitted(Fed(s, SOF).1) + [frame])
  {
    var rest := StuffedAll(Body(frame)) + [SOF];
    assert Encoded(frame) == [SOF] + rest;
    RunAppend(ByteStepper(), s, [SOF], rest);
    FedOne(s, SOF);
    ReadyRoundTrip(frame);
  }

  function EncodedAll(frames: seq<Frame>): seq<Byte>
    requires Encodable(frames)
  {
    if frames == [] then [] else EncodedAll(frames[..|frames| - 1]) + Encoded(frames[|frames| - 1])
  }

  /** Bytes before the first delimiter are skipped by a fresh decoder. */
  lemma {:induction false} GarbageIsSkipped(garbage: seq<Byte>)
    requires SOF !in garbage
    ensures FedAll(FRESH, garbage) == (FRESH, [])
  {
    if garbage == [] {
      assert FedAll(FRESH, []) == (FRESH, []);
    } else {
      var last := |garbage| - 1;
      assert garbage == garbage[..last] + [garbage[last]];
      assert garbage[last] in garbage;
      GarbageIsSkipped(garbage[..last]);
      RunSnoc(ByteStepper(), FRESH, garbage[..last], garbage[last]);
      assert FedAll(FRESH, garbage).1 == [];
    }
  }

  predicate Quiet(s: State) {
    s == FRESH || s == READY
  }

  /** A quiet decoder leaves nothing over. */
  lemma QuietRoundTrip(s: State, frame: Frame)
    requires Quiet(s) && |frame.payload| <= MAX_PAYLOAD
    ensures FedAll(s, Encoded(frame)) == (READY, [frame])
  {
    RoundTrip(s, frame);
    assert Emitted(Fed(s, SOF).1) == [];
    assert [] + [frame] == [frame];
  }

  predicate Encodable(frames: seq<Frame>) {
    forall i :: 0 <= i < |frames| ==> |frames[i].payload| <= MAX_PAYLOAD
  }

  lemma FramesRoundTripStep(s: State, front: seq<Frame>, stream: seq<Byte>, frame: Frame)
    requires Quiet(FedAll(s, stream).0) && FedAll(s, stream).1 == front && |frame.payload| <= MAX_PAYLOAD
    ensures FedAll(s, stream + Encoded(frame)) == (READY, front + [frame])
  {
    RunAppend(ByteStepper(), s, stream, Encoded(frame));
    QuietRoundTrip(FedAll(s, stream).0, frame);
  }

  lemma EncodedSnoc(frames: seq<Frame>)
    requires Encodable(frames) && frames != []
    ensures var last := |frames| - 1;
      && Encodable(frames[..last]) && |frames[last].payload| <= MAX_PAYLOAD
      && EncodedAll(frames) == EncodedAll(frames[..last]) + Encoded(frames[last])
  {
  }

  lemma {:induction false} FramesRoundTrip(s: State, frames: seq<Frame>)
    requires Quiet(s) && Encodable(frames)
    ensures Quiet(FedAll(s, EncodedAll(frames)).0)
    ensures FedAll(s, EncodedAll(frames)).1 == frames
  {
    if frames == [] {
      NothingFed(s);
    } else {
      var last := |frames| - 1;
      EncodedSnoc(frames);
      FramesRoundTrip(s, frames[..last]);
      FramesRoundTripStep(s, frames[..last], EncodedAll(frames[..last]), frames[last]);
      assert frames[..last] + [frames[last]] == frames;
    }
  }

  lemma NothingFed(s: State)
    ensures FedAll(s, EncodedAll([])) == (s, [])
  {
  }

  /** From a fresh decoder, any list of encoded frames after any delimiter-free prefix, cut into
      chunks in any way, decodes to exactly that list. */
  lemma StreamRoundTrip(garbage: seq<Byte>, frames: seq<Frame>, chunks: seq<seq<Byte>>)
    requires SOF !in garbage && Encodable(frames)
    requires Joined(chunks) == garbage + EncodedAll(frames)
    ensures FedChunks(FRESH, chunks).1 == frames
  {
    ChunksDoNotMatter(FRESH, chunks);
    RunAppend(ByteStepper(), FRESH, garbage, EncodedAll(frames));
    GarbageIsSkipped(garbage);
    FramesRoundTrip(FRESH, frames);
  }

  /** The stuffed body is transparent: no delimiter occurs inside it. */
  lemma {:induction false} StuffedIsTransparent(body: seq<Byte>)
    ensures SOF !in StuffedAll(body)
  {
    if body == [] {
    } else {
      StuffedIsTransparent(body[..|body| - 1]);
      MaskFacts(body[|body| - 1]);
    }
  }

  /** Corruption confined to two adjacent bytes of the unescaped content never yields a frame. */
  lemma CorruptedBodyIsRejected(frame: Frame, buffer: seq<Byte>, at: nat)
    requires |frame.payload| <= MAX_PAYLOAD
    requires DifferWithinTwo(Body(frame), buffer, at) && buffer != Body(frame)
    ensures Finished(buffer) == None
  {
    if Finished(buffer).Some? {
      var other := Finished(buffer).value;
      FinishedIffBody(buffer, other);
      AppendedCrcPasses(Header(frame) + frame.payload);
      AppendedCrcPasses(Header(other) + other.payload);
      AdjacentErrorsAreDetected(Body(frame), buffer, at);
    }
  }

  /** The size limit guards plain bytes only: escaped bytes can grow the buffer without bound. */
  function EscapedRun(n: nat): seq<Byte> {
    if n == 0 then [] else EscapedRun(n - 1) + [ESC, ESC ^ MASK]
  }

  /** An escape pair adds one byte, however long the buffer is. */
  lemma EscapePair(buffer: seq<Byte>)
    ensures FedAll(State(buffer, true, false), [ESC, ESC ^ MASK]) == (State(buffer + [ESC], true, false), [])
  {
    var s := State(buffer, true, false);
    MaskFacts(ESC);
    FedOne(s, ESC);
    FedOne(s.(escape := true), ESC ^ MASK);
    SilentAppend(s, [ESC], s.(escape := true), [ESC ^ MASK], State(buffer + [ESC], true, false));
    assert [ESC, ESC ^ MASK] == [ESC] + [ESC ^ MASK];
  }

  lemma {:induction false} EscapesEvadeTheLimit(n: nat)
    ensures FedAll(READY, EscapedRun(n)) == (State(seq(n, i => ESC), true, false), [])
  {
    if n == 0 {
      assert FedAll(READY, []) == (READY, []);
    } else {
      EscapesEvadeTheLimit(n - 1);
      var buffer := seq(n - 1, i => ESC);
      EscapePair(buffer);
      SilentAppend(READY, EscapedRun(n - 1), State(buffer, true, false), [ESC, ESC ^ MASK],
                   State(buffer + [ESC], true, false));
      assert buffer + [ESC] == seq(n, i => ESC);
    }
  }

  predicate Bounded(s: State) { |s.buffer| <= MAX_PAYLOAD + 5 }

  /** A stretch ends in an escape byte that is not itself escaped. */
  predicate Escaping(stretch: seq<Byte>) {
    stretch != [] && stretch[|stretch| - 1] == ESC && !Escaping(stretch[..|stretch| - 1])
  }

  /** The content bytes of a stretch: an escape and the byte after it are one. */
  function ContentCount(stretch: seq<Byte>): nat {
    if stretch == [] then 0
    else ContentCount(stretch[..|stretch| - 1]) + if Escaping(stretch) then 0 else 1
  }

  /** The byte at `k` belongs to a stretch after a delimiter, arrives escaped, and is one more
      content byte than the largest legal body has. */
  predicate EscapedPastLimit(stream: seq<Byte>, start: nat, k: nat) {
    && 0 < start <= k < |stream| && stream[start - 1] == SOF
    && SOF !in stream[start..k + 1]
    && Escaping(stream[start..k]) && ContentCount(stream[start..k]) == MAX_PAYLOAD + 5
  }

  /** No byte of a stretch is the escaped one past the limit. */
  predicate Tame(stretch: seq<Byte>) {
    forall k :: 0 <= k < |stretch| ==> !(Escaping(stretch[..k]) && ContentCount(stretch[..k]) == MAX_PAYLOAD + 5)
  }

  /** Where a decoder is inside a stretch without delimiters: with at most the limit of content
      bytes it holds them all; with more it has given the frame up. */
  predicate Follows(s: State, stretch: seq<Byte>) {
    if ContentCount(stretch) <= MAX_PAYLOAD + 5 then
      s.inFrame && s.escape == Escaping(stretch) && |s.buffer| == ContentCount(stretch)
    else
      s == FRESH
  }

  lemma FollowsStep(s: State, stretch: seq<Byte>, value: Byte)
    requires Follows(s, stretch) && value != SOF
    ensures !(Escaping(stretch) && ContentCount(stretch) == MAX_PAYLOAD + 5) ==>
      Follows(Fed(s, value).0, stretch + [value])
    ensures Escaping(stretch) && ContentCount(stretch) == MAX_PAYLOAD + 5 ==> !Bounded(Fed(s, value).0)
  {
    assert (stretch + [value])[..|stretch|] == stretch;
  }

  lemma {:induction false} TameFollows(stretch: seq<Byte>)
    requires SOF !in stretch && Tame(stretch)
    ensures Follows(FedAll(READY, stretch).0, stretch)
  {
    if stretch == [] {
    } else {
      var last := |stretch| - 1;
      var front := stretch[..last];
      assert Tame(front) by {
        forall k | 0 <= k < |front| ensures front[..k] == stretch[..k] {
        }
      }
      TameFollows(front);
      assert stretch[..last] == front && front + [stretch[last]] == stretch;
      FollowsStep(FedAll(READY, front).0, front, stretch[last]);
    }
  }

  lemma {:induction false} ContentGrows(stretch: seq<Byte>, k: nat)
    requires k <= |stretch|
    ensures ContentCount(stretch[..k]) <= ContentCount(stretch)
    decreases |stretch|
  {
    if k < |stretch| {
      var front := stretch[..|stretch| - 1];
      assert front[..k] == stretch[..k];
      ContentGrows(front, k);
    } else {
      assert stretch[..k] == stretch;
    }
  }

  /** Before a byte that is past the limit no other is. */
  lemma LimitIsReachedOnce(stretch: seq<Byte>)
    requires ContentCount(stretch) <= MAX_PAYLOAD + 5
    ensures Tame(stretch)
  {
    forall k | 0 <= k < |stretch|
      ensures !(Escaping(stretch[..k]) && ContentCount(stretch[..k]) == MAX_PAYLOAD + 5)
    {
      ContentGrows(stretch, k + 1);
      assert stretch[..k + 1][..k] == stretch[..k];
    }
  }

  /** The state after the first `k` bytes of a stream, from a fresh decoder. */
  function StateAt(stream: seq<Byte>, k: nat): State
    requires k <= |stream|
  {
    FedAll(FRESH, stream[..k]).0
  }

  lemma StateFollows(stream: seq<Byte>, k: nat)
    requires k < |stream|
    ensures StateAt(stream, k + 1) == Fed(StateAt(stream, k), stream[k]).0
  {
    assert stream[..k + 1] == stream[..k] + [stream[k]];
    RunSnoc(ByteStepper(), FRESH, stream[..k], stream[k]);
  }

  /** After a delimiter only the stretch counts. */
  lemma StateInStretch(stream: seq<Byte>, start: nat, k: nat)
    requires 0 < start <= k <= |stream| && stream[start - 1] == SOF
    ensures StateAt(stream, k) == FedAll(READY, stream[start..k]).0
  {
    StateFollows(stream, start - 1);
    assert stream[..k] == stream[..start] + stream[start..k];
    RunAppend(ByteStepper(), FRESH, stream[..start], stream[start..k]);
  }

  /** Where the stretch that reaches `k` starts: after the last delimiter, zero without one. */
  function StretchStart(stream: seq<Byte>, k: nat): (start: nat)
    requires k <= |stream|
    ensures start <= k && SOF !in stream[start..k]
    ensures start > 0 ==> stream[start - 1] == SOF
  {
    if k == 0 then 0 else if stream[k - 1] == SOF then k else StretchStart(stream, k - 1)
  }

  lemma BoundedWithout(stream: seq<Byte>, k: nat)
    requires k <= |stream| && forall start: nat, j: nat :: !EscapedPastLimit(stream, start, j)
    ensures Bounded(StateAt(stream, k))
  {
    var start := StretchStart(stream, k);
    var stretch := stream[start..k];
    if start == 0 {
      GarbageIsSkipped(stretch);
    } else {
      StateInStretch(stream, start, k);
      forall j | 0 <= j < |stretch|
        ensures !(Escaping(stretch[..j]) && ContentCount(stretch[..j]) == MAX_PAYLOAD + 5)
      {
        assert stretch[..j] == stream[start..start + j];
        assert !EscapedPastLimit(stream, start, start + j);
      }
      TameFollows(stretch);
    }
  }

  lemma UnboundedAfter(stream: seq<Byte>, start: nat, k: nat)
    requires EscapedPastLimit(stream, start, k)
    ensures !Bounded(StateAt(stream, k + 1))
  {
    var stretch := stream[start..k];
    StateInStretch(stream, start, k);
    LimitIsReachedOnce(stretch);
    assert stream[start..k + 1] == stretch + [stream[k]];
    TameFollows(stretch);
    FollowsStep(StateAt(stream, k), stretch, stream[k]);
    StateFollows(stream, k);
  }

  /** The buffer of a fresh decoder keeps to the largest legal body throughout a stream if and only
      if, in no stretch after a delimiter, the first content byte past that size arrives escaped. */
  lemma BufferBoundIff(stream: seq<Byte>)
    ensures (forall k :: 0 <= k <= |stream| ==> Bounded(StateAt(stream, k)))
      <==> (forall start: nat, k: nat :: !EscapedPastLimit(stream, start, k))
  {
    if forall start: nat, k: nat :: !EscapedPastLimit(stream, start, k) {
      forall k | 0 <= k <= |stream| ensures Bounded(StateAt(stream, k)) {
        BoundedWithout(stream, k);
      }
    } else {
      var start: nat, k: nat :| EscapedPastLimit(stream, start, k);
      UnboundedAfter(stream, start, k);
      assert k + 1 <= |stream|;
    }
  }

  // ---------------------------------------------------------------------------
  // A frame on the wire
  // ---------------------------------------------------------------------------

  /** A data frame whose payload holds both control bytes, and the CRC of its content. */
  const CONTROL: Frame := Frame(0x01, 0x01, [0x7E, 0x7D, 0x11])
  const CONTROL_CONTENT: seq<Byte> := [0x01, 0x01, 0x03, 0x7E, 0x7D, 0x11]
  const CONTROL_CRCS: seq<bv16> := [0xFFFF, 0x807E, 0xE0C1, 0x9161, 0xC8D0, 0xBD09, 0x0ABD]

  lemma ControlSteps(i: nat)
    requires i < 6
    ensures ByteStep(CONTROL_CRCS[i], CONTROL_CONTENT[i]) == CONTROL_CRCS[i + 1]
  {
    ByteStepIsEight(CONTROL_CRCS[i], CONTROL_CONTENT[i]);
  }

  lemma ControlCrc()
    ensures Crc(CONTROL_CONTENT) == 0x0ABD
  {
    forall i | 0 <= i < |CONTROL_CONTENT|
      ensures ByteStep(CONTROL_CRCS[i], CONTROL_CONTENT[i]) == CONTROL_CRCS[i + 1]
    {
      ControlSteps(i);
    }
    FoldedAlong(ByteStep, CONTROL_CONTENT, CONTROL_CRCS, 6);
    assert CONTROL_CONTENT[..6] == CONTROL_CONTENT;
  }

  lemma ControlBody(crc: bv16)
    requires crc == 0x0ABD && Crc(CONTROL_CONTENT) == crc
    ensures Body(CONTROL) == CONTROL_CONTENT + [0xBD, 0x0A]
  {
    LengthByte(3);
    assert Header(CONTROL) + CONTROL.payload == CONTROL_CONTENT;
  }

  lemma StuffedOne(front: seq<Byte>, value: Byte, whole: seq<Byte>)
    requires whole == front + [value]
    ensures StuffedAll(whole) == StuffedAll(front) + Stuffed(value)
  {
    FlatMapSnoc(Stuffed, front, value);
  }

  lemma ControlStuffed()
    ensures StuffedAll(CONTROL_CONTENT + [0xBD, 0x0A])
      == [0x01, 0x01, 0x03, 0x7D, 0x5E, 0x7D, 0x5D, 0x11, 0xBD, 0x0A]
  {
    assert StuffedAll([]) == [];
    StuffedOne([], 0x01, [0x01]);
    StuffedOne([0x01], 0x01, [0x01, 0x01]);
    StuffedOne([0x01, 0x01], 0x03, [0x01, 0x01, 0x03]);
    StuffedOne([0x01, 0x01, 0x03], 0x7E, [0x01, 0x01, 0x03, 0x7E]);
    StuffedOne([0x01, 0x01, 0x03, 0x7E], 0x7D, [0x01, 0x01, 0x03, 0x7E, 0x7D]);
    StuffedOne([0x01, 0x01, 0x03, 0x7E, 0x7D], 0x11, CONTROL_CONTENT);
    StuffedOne(CONTROL_CONTENT, 0xBD, CONTROL_CONTENT + [0xBD]);
    StuffedOne(CONTROL_CONTENT + [0xBD], 0x0A, CONTROL_CONTENT + [0xBD, 0x0A]);
  }

  /** Byte for byte: delimiters, escapes, length, and the CRC with its low byte first. */
  lemma ControlBytesOnTheWire()
    ensures Encoded(CONTROL) == [0x7E, 0x01, 0x01, 0x03, 0x7D, 0x5E, 0x7D, 0x5D, 0x11, 0xBD, 0x0A, 0x7E]
  {
    ControlCrc();
    ControlBody(0x0ABD);
    ControlStuffed();
  }
}
