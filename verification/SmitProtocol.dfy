/** The SMIT lidar byte-stream parser: a buffer that is resynchronised on A5 5A, delivers whole
    frames, and decodes point and configuration packets. Angles are integers in 0.0001 degree. */
module SmitProtocol {
  import opened Streams
  import opened Iteration
  import Crc8

  type Byte = Crc8.Byte

  const SOF1: Byte := 0xA5
  const SOF2: Byte := 0x5A
  const HEADER := 4
  const MAX_FRAME := 2048
  const MAX_BUFFER := 10000
  const MAX_POINTS := 64
  const FULL_CIRCLE := 3600000
  /** The raw increments whose float value lies within the source's double bounds 0.172 and 0.188:
      1720 times the float 0.0001 falls just short of 0.172. */
  const MIN_DELTA := 1721
  const MAX_DELTA := 1880

  /** Distance in units of 0.0025 m, intensity raw. */
  datatype Point = Point(angle: int, distance: nat, intensity: nat)

  /** A packet with a failed checksum carries no points; it only signals the damage. */
  datatype Packet = Packet(points: seq<Point>, timestamp: nat, crcOk: bool)

  datatype ConfigInfo = ConfigInfo(
    sn: seq<Byte>, hwVersion: seq<Byte>, fpgaVersion: seq<Byte>, mcuVersion: seq<Byte>,
    motorSpeed: nat, instantSpeed: nat, lidarFreq: nat, temperature: nat, tenthVolts: nat, state: Byte)

  datatype Callback = Configured(config: ConfigInfo) | Received(packet: Packet)

  function U8(b: Byte): nat { b as nat }
  function U16(high: Byte, low: Byte): nat { U8(high) * 256 + U8(low) }
  function U24(high: Byte, middle: Byte, low: Byte): nat { U8(high) * 65536 + U8(middle) * 256 + U8(low) }

  // ---------------------------------------------------------------------------
  // Frames
  // ---------------------------------------------------------------------------

  function Folded(angle: nat): int {
    if angle > FULL_CIRCLE then angle - FULL_CIRCLE else angle
  }

  /** Point `i` of a point payload. */
  function PointAt(payload: seq<Byte>, i: nat): Point
    requires 5 + 3 * i + 3 <= |payload|
  {
    var p := 5 + 3 * i;
    Point(Folded(U16(payload[1], payload[2]) * 100 + U16(payload[3], payload[4]) * i),
          U16(payload[p + 1], payload[p + 2]), U8(payload[p]))
  }

  function PointCount(payload: seq<Byte>): nat
    requires |payload| > 9
  {
    (|payload| - 9) / 3
  }

  function PointsOf(payload: seq<Byte>, count: nat): seq<Point>
    requires 5 + 3 * count <= |payload|
  {
    seq(count, i requires 0 <= i < count => PointAt(payload, i))
  }

  function ParsedPoints(payload: seq<Byte>, crcOk: bool): seq<Callback> {
    if !crcOk then [Received(Packet([], 0, false))]
    else if |payload| <= 9 || PointCount(payload) > MAX_POINTS then []
    else
      var delta := U16(payload[3], payload[4]);
      if delta < MIN_DELTA || delta > MAX_DELTA then []
      else
        var n := |payload|;
        var timestamp := U24(payload[n - 4], payload[n - 3], payload[n - 2]);
        [Received(Packet(PointsOf(payload, PointCount(payload)), timestamp, true))]
  }

  function ParsedConfig(payload: seq<Byte>): seq<Callback> {
    if |payload| < 33 then []
    else
      [Configured(ConfigInfo(
        payload[1..15], payload[15..18], payload[18..21], payload[21..24],
        if payload[25] == 3 then 20 else if payload[25] == 2 then 15 else 10,
        U16(payload[26], payload[27]),
        if payload[28] == 0 then 10000 else if payload[28] == 1 then 20000 else 40000,
        U8(payload[29]), U8(payload[30]), payload[31]))]
  }

  /** The callbacks one whole frame causes: at most one. A payload holds at least an id and a checksum. */
  function Processed(frame: seq<Byte>): seq<Callback> {
    if |frame| < HEADER + 2 then []
    else
      var payload := frame[HEADER..];
      var crcOk := Crc8.Checked(payload);
      if payload[0] == 1 then ParsedPoints(payload, crcOk)
      else if payload[0] == 2 && crcOk then ParsedConfig(payload)
      else []
  }

  // ---------------------------------------------------------------------------
  // The resynchronising buffer
  // ---------------------------------------------------------------------------

  datatype Action = Wait | Drop(count: nat) | Deliver(length: nat)

  /** What one turn of the loop does, from the first bytes of the buffer. */
  function Decide(buffer: seq<Byte>): Action {
    if |buffer| < HEADER then Wait
    else if buffer[0] != SOF1 || buffer[1] != SOF2 then Drop(1)
    else
      var total := U16(buffer[2], buffer[3]) + HEADER;
      if total > MAX_FRAME then Drop(2)
      else if |buffer| < total then Wait
      else Deliver(total)
  }

  /** One pass over a buffer, without the overload guard: the callbacks and the leftover.
      `process` is what a whole frame causes. */
  function Drained<C>(process: seq<Byte> -> seq<C>, buffer: seq<Byte>): (seq<C>, seq<Byte>)
    decreases |buffer|
  {
    match Decide(buffer)
    case Wait => ([], buffer)
    case Drop(count) => Drained(process, buffer[count..])
    case Deliver(length) =>
      var (callbacks, rest) := Drained(process, buffer[length..]);
      (process(buffer[..length]) + callbacks, rest)
  }

  function Fed(buffer: seq<Byte>, chunk: seq<Byte>): (seq<Callback>, seq<Byte>) {
    if |buffer| + |chunk| > MAX_BUFFER then ([], []) else Drained(Processed, buffer + chunk)
  }

  function FedAll(chunks: seq<seq<Byte>>): (seq<Callback>, seq<Byte>) {
    if chunks == [] then ([], [])
    else
      var (before, buffer) := FedAll(chunks[..|chunks| - 1]);
      var (callbacks, rest) := Fed(buffer, chunks[|chunks| - 1]);
      (before + callbacks, rest)
  }

  class Protocol {
    var buffer: seq<Byte>

    constructor ()
      ensures buffer == []
    {
      buffer := [];
    }

    /** `callbacks` collects what the config and point callbacks were invoked with, in order. */
    method Feed(data: seq<Byte>) returns (callbacks: seq<Callback>)
      modifies this
      ensures (callbacks, buffer) == Fed(old(buffer), data)
    {
      callbacks := [];
      buffer := buffer + data;
      if |buffer| > MAX_BUFFER {
        buffer := [];
        return;
      }
      ghost var whole := buffer;
      DrainsNothingYet(Processed, buffer);
      while |buffer| >= HEADER
        invariant Partly(Processed, whole, callbacks, buffer)
        decreases |buffer|
      {
        if buffer[0] != SOF1 || buffer[1] != SOF2 {
          PartlyDropped(Processed, whole, callbacks, buffer, 1);
          buffer := buffer[1..];
          continue;
        }
        var total := U16(buffer[2], buffer[3]) + HEADER;
        if total > MAX_FRAME {
          PartlyDropped(Processed, whole, callbacks, buffer, 2);
          buffer := buffer[2..];
          continue;
        }
        if |buffer| < total {
          break;
        }
        var caused := ProcessFrame(buffer[..total]);
        PartlyDelivered(Processed, whole, callbacks, buffer, total);
        callbacks := callbacks + caused;
        buffer := buffer[total..];
      }
      PartlyDone(Processed, whole, callbacks, buffer);
    }

    method ProcessFrame(frame: seq<Byte>) returns (callbacks: seq<Callback>)
      requires |frame| >= HEADER
      ensures callbacks == Processed(frame)
    {
      var payload := frame[HEADER..];
      if |payload| < 2 {
        return [];
      }
      var crc := Crc8.ComputeCrc(payload[..|payload| - 1]);
      var crcOk := crc == payload[|payload| - 1];
      if payload[0] == 1 {
        callbacks := ParsePoints(payload, crcOk);
      } else if payload[0] == 2 && crcOk {
        callbacks := ParsedConfig(payload);
      } else {
        callbacks := [];
      }
    }

    method ParsePoints(payload: seq<Byte>, crcOk: bool) returns (callbacks: seq<Callback>)
      ensures callbacks == ParsedPoints(payload, crcOk)
    {
      if !crcOk {
        return [Received(Packet([], 0, false))];
      }
      if |payload| <= 9 {
        return [];
      }
      var count := (|payload| - 9) / 3;
      if count > MAX_POINTS {
        return [];
      }
      var start, delta := U16(payload[1], payload[2]), U16(payload[3], payload[4]);
      if delta < MIN_DELTA || delta > MAX_DELTA {
        return [];
      }
      var n := |payload|;
      var timestamp := U24(payload[n - 4], payload[n - 3], payload[n - 2]);
      var points: seq<Point> := [];
      for i := 0 to count
        invariant points == PointsOf(payload, i)
      {
        var p := 5 + 3 * i;
        var angle := start * 100 + delta * i;
        points := points + [Point(if angle > FULL_CIRCLE then angle - FULL_CIRCLE else angle,
                                  U16(payload[p + 1], payload[p + 2]), U8(payload[p]))];
      }
      return [Received(Packet(points, timestamp, true))];
    }
  }

  // ---------------------------------------------------------------------------
  // Chunk independence
  // ---------------------------------------------------------------------------

  /** A turn that does not wait is decided by bytes that are already there. */
  lemma DecisionIsStable(buffer: seq<Byte>, more: seq<Byte>)
    requires Decide(buffer) != Wait
    ensures Decide(buffer + more) == Decide(buffer)
  {
  }

  lemma DrainedTurn<C>(process: seq<Byte> -> seq<C>, buffer: seq<Byte>)
    ensures Decide(buffer).Drop? ==> Drained(process, buffer) == Drained(process, buffer[Decide(buffer).count..])
    ensures Decide(buffer).Deliver? ==>
      var n := Decide(buffer).length;
      var (callbacks, rest) := Drained(process, buffer[n..]);
      Drained(process, buffer) == (process(buffer[..n]) + callbacks, rest)
    ensures Decide(buffer).Wait? ==> Drained(process, buffer) == ([], buffer)
  {
  }

  /** The loop has caused `done` so far and still holds `buffer`. */
  ghost predicate Partly<C>(process: seq<Byte> -> seq<C>, whole: seq<Byte>, done: seq<C>, buffer: seq<Byte>) {
    Drained(process, whole) == (done + Drained(process, buffer).0, Drained(process, buffer).1)
  }

  lemma DrainsNothingYet<C>(process: seq<Byte> -> seq<C>, whole: seq<Byte>)
    ensures Partly(process, whole, [], whole)
  {
    assert [] + Drained(process, whole).0 == Drained(process, whole).0;
  }

  lemma PartlyDropped<C>(process: seq<Byte> -> seq<C>, whole: seq<Byte>, done: seq<C>, buffer: seq<Byte>, n: nat)
    requires Partly(process, whole, done, buffer) && Decide(buffer) == Drop(n)
    ensures Partly(process, whole, done, buffer[n..])
  {
    DrainedTurn(process, buffer);
  }

  lemma PartlyDelivered<C>(process: seq<Byte> -> seq<C>, whole: seq<Byte>, done: seq<C>, buffer: seq<Byte>, n: nat)
    requires Partly(process, whole, done, buffer) && Decide(buffer) == Deliver(n)
    ensures Partly(process, whole, done + process(buffer[..n]), buffer[n..])
  {
    DrainedTurn(process, buffer);
    var later := Drained(process, buffer[n..]).0;
    assert done + (process(buffer[..n]) + later) == (done + process(buffer[..n])) + later;
  }

  lemma PartlyDone<C>(process: seq<Byte> -> seq<C>, whole: seq<Byte>, done: seq<C>, buffer: seq<Byte>)
    requires Partly(process, whole, done, buffer) && Decide(buffer) == Wait
    ensures Drained(process, whole) == (done, buffer)
  {
    DrainedTurn(process, buffer);
    assert done + [] == done;
  }

  /** A leftover is shorter than the longest frame. */
  lemma {:induction false} LeftoverIsShort<C>(process: seq<Byte> -> seq<C>, buffer: seq<Byte>)
    ensures Decide(Drained(process, buffer).1) == Wait && |Drained(process, buffer).1| < MAX_FRAME
    decreases |buffer|
  {
    match Decide(buffer)
    case Wait =>
    case Drop(count) => LeftoverIsShort(process, buffer[count..]);
    case Deliver(length) => LeftoverIsShort(process, buffer[length..]);
  }

  /** Draining early and draining the leftover with the rest gives what one pass gives. */
  ghost predicate DrainsInTwo<C>(process: seq<Byte> -> seq<C>, a: seq<Byte>, b: seq<Byte>) {
    var (first, rest) := Drained(process, a);
    var (second, end) := Drained(process, rest + b);
    Drained(process, a + b) == (first + second, end)
  }

  lemma DropInTwo<C>(process: seq<Byte> -> seq<C>, a: seq<Byte>, b: seq<Byte>, count: nat)
    requires Decide(a) == Drop(count) && DrainsInTwo(process, a[count..], b)
    ensures DrainsInTwo(process, a, b)
  {
    DecisionIsStable(a, b);
    DrainedTurn(process, a);
    DrainedTurn(process, a + b);
    assert (a + b)[count..] == a[count..] + b;
  }

  lemma DeliverInTwo<C>(process: seq<Byte> -> seq<C>, a: seq<Byte>, b: seq<Byte>, length: nat)
    requires Decide(a) == Deliver(length) && DrainsInTwo(process, a[length..], b)
    ensures DrainsInTwo(process, a, b)
  {
    DecisionIsStable(a, b);
    DrainedTurn(process, a);
    DrainedTurn(process, a + b);
    assert (a + b)[length..] == a[length..] + b;
    assert (a + b)[..length] == a[..length];
    var frame := process(a[..length]);
    var (first, rest) := Drained(process, a[length..]);
    var second := Drained(process, rest + b).0;
    assert frame + (first + second) == (frame + first) + second;
  }

  lemma {:induction false} DrainedInTwo<C>(process: seq<Byte> -> seq<C>, a: seq<Byte>, b: seq<Byte>)
    ensures DrainsInTwo(process, a, b)
    decreases |a|
  {
    match Decide(a)
    case Wait =>
      DrainedTurn(process, a);
      assert [] + Drained(process, a + b).0 == Drained(process, a + b).0;
    case Drop(count) =>
      DrainedInTwo(process, a[count..], b);
      DropInTwo(process, a, b, count);
    case Deliver(length) =>
      DrainedInTwo(process, a[length..], b);
      DeliverInTwo(process, a, b, length);
  }

  /** Chunk independence: for chunks of at most 7953 bytes, feeding them in turn causes the same
      callbacks in the same order and leaves the same buffer as one unguarded pass over the
      whole stream, so the overload guard never fires. */
  lemma {:induction false} ChunksDoNotMatter(chunks: seq<seq<Byte>>)
    requires forall i :: 0 <= i < |chunks| ==> |chunks[i]| <= MAX_BUFFER - MAX_FRAME + 1
    ensures FedAll(chunks) == Drained(Processed, Joined(chunks))
    ensures |FedAll(chunks).1| < MAX_FRAME
  {
    if chunks != [] {
      var last := |chunks| - 1;
      ChunksDoNotMatter(chunks[..last]);
      DrainedInTwo(Processed, Joined(chunks[..last]), chunks[last]);
    }
    LeftoverIsShort(Processed, Joined(chunks));
  }

  /** The guard fires exactly when leftover and chunk together exceed the limit; then the whole
      buffer is gone. */
  lemma GuardDropsEverything(chunks: seq<seq<Byte>>, chunk: seq<Byte>)
    requires forall i :: 0 <= i < |chunks| ==> |chunks[i]| <= MAX_BUFFER - MAX_FRAME + 1
    ensures var leftover := Drained(Processed, Joined(chunks)).1;
      if |leftover| + |chunk| > MAX_BUFFER then FedAll(chunks + [chunk]) == (Drained(Processed, Joined(chunks)).0, [])
      else FedAll(chunks + [chunk]) == Drained(Processed, Joined(chunks) + chunk)
  {
    ChunksDoNotMatter(chunks);
    assert (chunks + [chunk])[..|chunks|] == chunks;
    DrainedInTwo(Processed, Joined(chunks), chunk);
    assert Drained(Processed, Joined(chunks)).0 + [] == Drained(Processed, Joined(chunks)).0;
  }

  // ---------------------------------------------------------------------------
  // Resynchronisation
  // ---------------------------------------------------------------------------

  predicate PairFree(garbage: seq<Byte>) {
    forall i :: 0 <= i < |garbage| - 1 ==> !(garbage[i] == SOF1 && garbage[i + 1] == SOF2)
  }

  predicate WellFormed(frame: seq<Byte>) {
    && HEADER <= |frame| <= MAX_FRAME
    && frame[0] == SOF1 && frame[1] == SOF2
    && U16(frame[2], frame[3]) + HEADER == |frame|
  }

  /** Garbage in front of a frame start is dropped byte by byte. */
  lemma {:induction false} GarbageIsSkipped<C>(process: seq<Byte> -> seq<C>, garbage: seq<Byte>, rest: seq<Byte>)
    requires PairFree(garbage) && |rest| >= HEADER && rest[0] == SOF1
    ensures Drained(process, garbage + rest) == Drained(process, rest)
    decreases |garbage|
  {
    if garbage == [] {
      assert garbage + rest == rest;
    } else {
      var stream := garbage + rest;
      assert |garbage| > 1 ==> stream[1] == garbage[1];
      assert Decide(stream) == Drop(1);
      assert stream[1..] == garbage[1..] + rest;
      GarbageIsSkipped(process, garbage[1..], rest);
    }
  }

  lemma {:induction false} GarbageIsSilent<C>(process: seq<Byte> -> seq<C>, garbage: seq<Byte>)
    requires PairFree(garbage)
    ensures Drained(process, garbage).0 == []
    decreases |garbage|
  {
    if |garbage| >= HEADER {
      assert Decide(garbage) == Drop(1);
      GarbageIsSilent(process, garbage[1..]);
    }
  }

  /** garbage, frame, garbage, frame, ..., garbage */
  function Interleaved(garbage: seq<seq<Byte>>, frames: seq<seq<Byte>>): seq<Byte>
    requires |garbage| == |frames| + 1
  {
    if frames == [] then garbage[0] else garbage[0] + (frames[0] + Interleaved(garbage[1..], frames[1..]))
  }

  /** What the frames cause, in order. */
  function AllProcessed<C>(process: seq<Byte> -> seq<C>, frames: seq<seq<Byte>>): seq<C> {
    if frames == [] then [] else process(frames[0]) + AllProcessed(process, frames[1..])
  }

  lemma FrameIsDelivered<C>(process: seq<Byte> -> seq<C>, frame: seq<Byte>, rest: seq<Byte>)
    requires WellFormed(frame)
    ensures Drained(process, frame + rest)
         == (process(frame) + Drained(process, rest).0, Drained(process, rest).1)
  {
    var stream := frame + rest;
    assert stream[..|frame|] == frame && stream[|frame|..] == rest;
    DrainedTurn(process, stream);
  }

  /** Well-formed frames separated by pair-free garbage are all delivered, in order, and nothing
      else is. */
  lemma {:induction false} FramesSurviveGarbage<C>(
      process: seq<Byte> -> seq<C>, garbage: seq<seq<Byte>>, frames: seq<seq<Byte>>)
    requires |garbage| == |frames| + 1
    requires forall i :: 0 <= i < |garbage| ==> PairFree(garbage[i])
    requires forall i :: 0 <= i < |frames| ==> WellFormed(frames[i])
    ensures Drained(process, Interleaved(garbage, frames)).0 == AllProcessed(process, frames)
    decreases |frames|
  {
    if frames == [] {
      GarbageIsSilent(process, garbage[0]);
    } else {
      var rest := Interleaved(garbage[1..], frames[1..]);
      GarbageIsSkipped(process, garbage[0], frames[0] + rest);
      FrameIsDelivered(process, frames[0], rest);
      FramesSurviveGarbage(process, garbage[1..], frames[1..]);
    }
  }

  /** The same, fed in chunks of at most 7953 bytes. */
  lemma ChunkedFramesSurvive(garbage: seq<seq<Byte>>, frames: seq<seq<Byte>>, chunks: seq<seq<Byte>>)
    requires |garbage| == |frames| + 1
    requires forall i :: 0 <= i < |garbage| ==> PairFree(garbage[i])
    requires forall i :: 0 <= i < |frames| ==> WellFormed(frames[i])
    requires forall i :: 0 <= i < |chunks| ==> |chunks[i]| <= MAX_BUFFER - MAX_FRAME + 1
    requires Joined(chunks) == Interleaved(garbage, frames)
    ensures FedAll(chunks).0 == AllProcessed(Processed, frames)
  {
    ChunksDoNotMatter(chunks);
    FramesSurviveGarbage(Processed, garbage, frames);
  }

  // ---------------------------------------------------------------------------
  // Points
  // ---------------------------------------------------------------------------

  /** Every delivered packet that is not damaged has at most 64 points, each with an angle in
      [0, 360]; and the documented half-open range [0, 360) is left exactly by a point whose
      unfolded angle is 360 degrees. */
  lemma PointAngles(payload: seq<Byte>, i: nat)
    requires |payload| > 9 && i < PointCount(payload) <= MAX_POINTS
    requires MIN_DELTA <= U16(payload[3], payload[4]) <= MAX_DELTA
    ensures ParsedPoints(payload, true)[0].packet.points[i] == PointAt(payload, i)
    ensures var raw := U16(payload[1], payload[2]) * 100 + U16(payload[3], payload[4]) * i;
      && 0 <= PointAt(payload, i).angle <= FULL_CIRCLE
      && (PointAt(payload, i).angle == FULL_CIRCLE <==> raw == FULL_CIRCLE)
      && (PointAt(payload, i).angle - raw) % FULL_CIRCLE == 0
  {
    var start, delta := U16(payload[1], payload[2]), U16(payload[3], payload[4]);
    ByteRange(payload[1]);
    ByteRange(payload[2]);
    ProductBound(delta, i);
    assert start <= 65535;
  }

  lemma ByteRange(b: Byte)
    ensures U8(b) <= 255
  {
  }

  lemma ProductBound(delta: nat, i: nat)
    requires delta <= MAX_DELTA && i <= MAX_POINTS
    ensures 0 <= delta * i <= MAX_DELTA * MAX_POINTS
  {
  }

  /** A point frame damaged in any one byte of its payload yields no points, and neither does a
      configuration frame yield a configuration: at most the damage is reported. */
  lemma DamagedFrameYieldsNothing(frame: seq<Byte>, at: nat, value: Byte)
    requires |frame| >= HEADER + 2 && Crc8.Checked(frame[HEADER..])
    requires HEADER <= at < |frame| && value != frame[at]
    ensures Processed(frame[at := value]) in {[], [Received(Packet([], 0, false))]}
  {
    var damaged := frame[at := value];
    assert damaged[HEADER..] == frame[HEADER..][at - HEADER := value];
    Crc8.DamagedPayloadFails(frame[HEADER..], at - HEADER, value);
  }

  /** A frame with a correct checksum and one point, which starts at 360.00 degrees. */
  const FULL_CIRCLE_FRAME: seq<Byte> := [0xA5, 0x5A, 0, 12, 1, 0x8C, 0xA0, 0x07, 0x08, 0, 0, 0, 0, 0, 0, 0xD7]

  const FULL_CIRCLE_CRCS: seq<Byte> := [0, 0x07, 0xB8, 0x48, 0xEA, 0xA0, 0x69, 0x18, 0x48, 0xFF, 0xF3, 0xD7]

  /** Feeding the next byte takes the CRC from one value to the next. */
  predicate Steps(from: Byte, byte: Byte, next: Byte) {
    Crc8.Eight(Crc8.Xor(from, byte)) == next
  }

  lemma FullCircleSteps(data: seq<Byte>, i: nat)
    requires data == FULL_CIRCLE_FRAME[HEADER..15] && i < 11
    ensures Steps(FULL_CIRCLE_CRCS[i], data[i], FULL_CIRCLE_CRCS[i + 1])
  {
  }

  lemma FullCircleCrc(data: seq<Byte>)
    requires data == FULL_CIRCLE_FRAME[HEADER..15]
    ensures Crc8.Crc(data) == 0xD7
  {
    forall i | 0 <= i < |data|
      ensures Crc8.ByteStep(FULL_CIRCLE_CRCS[i], data[i]) == FULL_CIRCLE_CRCS[i + 1]
    {
      FullCircleSteps(data, i);
      Crc8.ByteStepIsEight(FULL_CIRCLE_CRCS[i], data[i]);
    }
    FoldedAlong(Crc8.ByteStep, data, FULL_CIRCLE_CRCS, 11);
    assert data[..11] == data;
  }

  lemma FullCirclePayload(payload: seq<Byte>)
    requires payload == FULL_CIRCLE_FRAME[HEADER..]
    ensures Crc8.Checked(payload)
    ensures ParsedPoints(payload, true) == [Received(Packet([Point(FULL_CIRCLE, 0, 0)], 0, true))]
  {
    assert payload == [1, 0x8C, 0xA0, 0x07, 0x08, 0, 0, 0, 0, 0, 0, 0xD7];
    assert payload[..11] == FULL_CIRCLE_FRAME[HEADER..15];
    FullCircleCrc(payload[..11]);
    assert U16(0x8C, 0xA0) == 36000 && U16(0x07, 0x08) == 1800;
    assert PointAt(payload, 0) == Point(FULL_CIRCLE, 0, 0);
    assert PointsOf(payload, 1) == [Point(FULL_CIRCLE, 0, 0)];
  }

  lemma FullCircleDrained<C>(process: seq<Byte> -> seq<C>)
    ensures Drained(process, FULL_CIRCLE_FRAME) == (process(FULL_CIRCLE_FRAME), [])
  {
    assert U16(0, 12) == 12;
    DrainedTurn(process, FULL_CIRCLE_FRAME);
    assert FULL_CIRCLE_FRAME[..16] == FULL_CIRCLE_FRAME && FULL_CIRCLE_FRAME[16..] == [];
    DrainedTurn(process, []);
    assert process(FULL_CIRCLE_FRAME) + [] == process(FULL_CIRCLE_FRAME);
  }

  lemma FullCircleProcessed()
    ensures Processed(FULL_CIRCLE_FRAME) == [Received(Packet([Point(FULL_CIRCLE, 0, 0)], 0, true))]
  {
    FullCirclePayload(FULL_CIRCLE_FRAME[HEADER..]);
  }

  /** The documented range is really left: a frame the parser accepts, its checksum included,
      delivers a point at 360 degrees. */
  lemma FullCircleAngleExists()
    ensures FedAll([FULL_CIRCLE_FRAME])
      == ([Received(Packet([Point(FULL_CIRCLE, 0, 0)], 0, true))], [])
  {
    FullCircleProcessed();
    FullCircleDrained(Processed);
    OneChunk(FULL_CIRCLE_FRAME);
  }

  lemma OneChunk(chunk: seq<Byte>)
    requires |chunk| <= MAX_BUFFER
    ensures FedAll([chunk]) == Drained(Processed, chunk)
  {
    assert [chunk][..0] == [] && FedAll([]) == ([], []) && [] + chunk == chunk;
    var (callbacks, rest) := Drained(Processed, chunk);
    assert [] + callbacks == callbacks;
  }
}
