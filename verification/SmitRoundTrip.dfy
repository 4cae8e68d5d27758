/** A sender of SMIT frames, written from the layout of the protocol, and the round trip through the
    parser: everything sent arrives with the values it was sent with. */
module SmitRoundTrip {
  import opened Streams
  import opened SmitProtocol
  import Crc8

  // ---------------------------------------------------------------------------
  // The sender
  // ---------------------------------------------------------------------------

  lemma Increment(b: Byte)
    requires b < 255
    ensures (b + 1) as nat == b as nat + 1
  {
  }

  /** The byte of a value. */
  function ByteOf(n: nat): (b: Byte)
    requires n < 256
    ensures b as nat == n
  {
    if n == 0 then 0
    else
      var before := ByteOf(n - 1);
      assert before < 255;
      Increment(before);
      before + 1
  }

  /** Two and three bytes, the highest first. */
  function Two(n: nat): seq<Byte>
    requires n < 0x1_0000
  {
    [ByteOf(n / 256), ByteOf(n % 256)]
  }

  function Three(n: nat): seq<Byte>
    requires n < 0x100_0000
  {
    [ByteOf(n / 256 / 256), ByteOf(n / 256 % 256), ByteOf(n % 256)]
  }

  /** What a sweep measures at one angle. */
  datatype Sample = Sample(distance: nat, intensity: nat) {
    predicate Valid() { distance < 0x1_0000 && intensity < 256 }
  }

  predicate AllValid(samples: seq<Sample>) {
    forall i :: 0 <= i < |samples| ==> samples[i].Valid()
  }

  /** Intensity first, then the distance. */
  function SampleBytes(samples: seq<Sample>): seq<Byte>
    requires AllValid(samples)
  {
    if samples == [] then []
    else
      var last := |samples| - 1;
      SampleBytes(samples[..last]) + ([ByteOf(samples[last].intensity)] + Two(samples[last].distance))
  }

  /** `start` is in 0.01 degree, `delta` in 0.0001 degree; the codes of a configuration are those
      that stand for its speed and frequency; `reserved` and `extra` are bytes nobody reads. */
  datatype Message =
    | Sweep(start: nat, delta: nat, samples: seq<Sample>, timestamp: nat)
    | Settings(config: ConfigInfo, speedCode: Byte, freqCode: Byte, reserved: Byte, extra: seq<Byte>)

  predicate SpeedMeans(code: Byte, speed: nat) {
    (speed == 20 && code == 3) || (speed == 15 && code == 2) || (speed == 10 && code != 2 && code != 3)
  }

  predicate FreqMeans(code: Byte, freq: nat) {
    (freq == 10000 && code == 0) || (freq == 20000 && code == 1) || (freq == 40000 && code > 1)
  }

  predicate Sendable(m: Message) {
    match m
    case Sweep(start, delta, samples, timestamp) =>
      && start < 0x1_0000 && 1721 <= delta <= 1880
      && |samples| <= 64 && AllValid(samples) && timestamp < 0x100_0000
    case Settings(config, speedCode, freqCode, _, extra) =>
      && |config.sn| == 14 && |config.hwVersion| == |config.fpgaVersion| == |config.mcuVersion| == 3
      && SpeedMeans(speedCode, config.motorSpeed) && FreqMeans(freqCode, config.lidarFreq)
      && config.instantSpeed < 0x1_0000 && config.temperature < 256 && config.tenthVolts < 256
      && |extra| <= 2000
  }

  /** Speed, instantaneous speed, frequency, temperature, voltage and state. */
  function Codes(m: Message): (codes: seq<Byte>)
    requires Sendable(m) && m.Settings?
    ensures |codes| == 8
  {
    [m.reserved, m.speedCode] + Two(m.config.instantSpeed)
    + [m.freqCode, ByteOf(m.config.temperature), ByteOf(m.config.tenthVolts), m.config.state]
  }

  function Content(m: Message): seq<Byte>
    requires Sendable(m)
  {
    match m
    case Sweep(start, delta, samples, timestamp) =>
      ([1] + Two(start) + Two(delta)) + SampleBytes(samples) + Three(timestamp)
    case Settings(config, _, _, _, extra) =>
      [2] + config.sn + config.hwVersion + config.fpgaVersion + config.mcuVersion + Codes(m) + extra
  }

  lemma TwoValue(n: nat)
    requires n < 0x1_0000
    ensures U16(Two(n)[0], Two(n)[1]) == n
  {
  }

  lemma {:induction false} SampleBytesAt(samples: seq<Sample>, i: nat)
    requires AllValid(samples)
    ensures |SampleBytes(samples)| == 3 * |samples|
    ensures i < |samples| ==>
      var bytes := SampleBytes(samples);
      U8(bytes[3 * i]) == samples[i].intensity && U16(bytes[3 * i + 1], bytes[3 * i + 2]) == samples[i].distance
  {
    if samples == [] {
    } else {
      var last := |samples| - 1;
      SampleBytesAt(samples[..last], i);
      TwoValue(samples[last].distance);
    }
  }

  lemma ContentLength(m: Message)
    requires Sendable(m)
    ensures |Content(m)| == if m.Sweep? then 8 + 3 * |m.samples| else 32 + |m.extra|
  {
    if m.Sweep? {
      SampleBytesAt(m.samples, 0);
    }
  }

  /** The start pair, the length, and the payload. */
  function Framed(payload: seq<Byte>): seq<Byte>
    requires |payload| < 0x1_0000
  {
    [0xA5, 0x5A] + Two(|payload|) + payload
  }

  /** The content with its checksum, in a frame. */
  function Encoded(m: Message): seq<Byte>
    requires Sendable(m)
  {
    ContentLength(m);
    Framed(Content(m) + [Crc8.Crc(Content(m))])
  }

  /** The points of a sweep: every sample at its angle, folded once past a full turn. */
  function Sent(start: nat, delta: nat, samples: seq<Sample>): seq<Point> {
    seq(|samples|, i requires 0 <= i < |samples| =>
      var angle := 100 * start + delta * i;
      Point(if angle > 3600000 then angle - 3600000 else angle, samples[i].distance, samples[i].intensity))
  }

  /** What should arrive. A sweep without samples is taken for a frame too short. */
  function Arrives(m: Message): seq<Callback> {
    match m
    case Sweep(start, delta, samples, timestamp) =>
      if samples == [] then [] else [Received(Packet(Sent(start, delta, samples), timestamp, true))]
    case Settings(config, _, _, _, _) => [Configured(config)]
  }

  // ---------------------------------------------------------------------------
  // Frames
  // ---------------------------------------------------------------------------

  lemma ThreeValue(n: nat)
    requires n < 0x100_0000
    ensures U24(Three(n)[0], Three(n)[1], Three(n)[2]) == n
  {
    var high := n / 256;
    assert n == 256 * high + n % 256 && high == 256 * (high / 256) + high % 256;
  }

  lemma FramedIsWellFormed(payload: seq<Byte>)
    requires |payload| <= MAX_FRAME - HEADER
    ensures WellFormed(Framed(payload)) && Framed(payload)[HEADER..] == payload
  {
    TwoValue(|payload|);
    var size := Two(|payload|);
    var frame := Framed(payload);
    assert frame == ([0xA5, 0x5A] + size) + payload;
    assert frame[2] == size[0] && frame[3] == size[1];
  }

  lemma EncodedIsWellFormed(m: Message)
    requires Sendable(m)
    ensures WellFormed(Encoded(m))
    ensures Encoded(m)[HEADER..] == Content(m) + [Crc8.Crc(Content(m))]
  {
    ContentLength(m);
    FramedIsWellFormed(Content(m) + [Crc8.Crc(Content(m))]);
  }

  lemma SealedIsChecked(content: seq<Byte>)
    requires content != []
    ensures Crc8.Checked(content + [Crc8.Crc(content)])
  {
    assert (content + [Crc8.Crc(content)])[..|content|] == content;
  }

  // ---------------------------------------------------------------------------
  // What the parser reads
  // ---------------------------------------------------------------------------

  /** The payload of a sweep, field by field; the checksum is any byte. */
  predicate SweepPayload(payload: seq<Byte>, m: Message)
    requires Sendable(m) && m.Sweep?
  {
    var k := |m.samples|;
    && |payload| == 9 + 3 * k
    && payload[0] == 1
    && U16(payload[1], payload[2]) == m.start
    && U16(payload[3], payload[4]) == m.delta
    && payload[5..5 + 3 * k] == SampleBytes(m.samples)
    && U24(payload[5 + 3 * k], payload[6 + 3 * k], payload[7 + 3 * k]) == m.timestamp
  }

  lemma SweepParts(head: seq<Byte>, bytes: seq<Byte>, tail: seq<Byte>, crc: Byte, payload: seq<Byte>)
    requires |head| == 5 && |tail| == 3 && payload == head + bytes + tail + [crc]
    ensures forall i :: 0 <= i < 5 ==> payload[i] == head[i]
    ensures payload[5..5 + |bytes|] == bytes
    ensures forall i :: 0 <= i < 3 ==> payload[5 + |bytes| + i] == tail[i]
  {
  }

  lemma SweepLayout(m: Message, crc: Byte)
    requires Sendable(m) && m.Sweep?
    ensures SweepPayload(Content(m) + [crc], m)
  {
    SampleBytesAt(m.samples, 0);
    TwoValue(m.start);
    TwoValue(m.delta);
    ThreeValue(m.timestamp);
    var head := [1] + Two(m.start) + Two(m.delta);
    SweepParts(head, SampleBytes(m.samples), Three(m.timestamp), crc, Content(m) + [crc]);
  }

  lemma PointArrives(payload: seq<Byte>, m: Message, i: nat)
    requires Sendable(m) && m.Sweep? && SweepPayload(payload, m) && i < |m.samples|
    ensures PointAt(payload, i) == Sent(m.start, m.delta, m.samples)[i]
  {
    SampleBytesAt(m.samples, i);
    var p := 5 + 3 * i;
    var bytes := payload[5..5 + 3 * |m.samples|];
    assert payload[p] == bytes[3 * i] && payload[p + 1] == bytes[3 * i + 1] && payload[p + 2] == bytes[3 * i + 2];
  }

  lemma PointsArrive(payload: seq<Byte>, m: Message)
    requires Sendable(m) && m.Sweep? && SweepPayload(payload, m)
    ensures PointsOf(payload, |m.samples|) == Sent(m.start, m.delta, m.samples)
  {
    forall i | 0 <= i < |m.samples| ensures PointAt(payload, i) == Sent(m.start, m.delta, m.samples)[i] {
      PointArrives(payload, m, i);
    }
  }

  lemma SweepArrives(payload: seq<Byte>, m: Message)
    requires Sendable(m) && m.Sweep? && SweepPayload(payload, m)
    ensures ParsedPoints(payload, true) == Arrives(m)
  {
    var k := |m.samples|;
    assert |payload| - 4 == 5 + 3 * k;
    if k > 0 {
      CountIs(payload, k);
      PointsArrive(payload, m);
    }
  }

  lemma CountIs(payload: seq<Byte>, k: nat)
    requires |payload| == 9 + 3 * k && k > 0
    ensures PointCount(payload) == k
  {
  }

  /** The places of the fields of a configuration. */
  lemma SettingsParts(c: ConfigInfo, codes: seq<Byte>, rest: seq<Byte>, payload: seq<Byte>)
    requires |c.sn| == 14 && |c.hwVersion| == |c.fpgaVersion| == |c.mcuVersion| == 3 && |codes| == 8
    requires payload == [2] + c.sn + c.hwVersion + c.fpgaVersion + c.mcuVersion + codes + rest
    ensures payload[1..15] == c.sn && payload[15..18] == c.hwVersion
    ensures payload[18..21] == c.fpgaVersion && payload[21..24] == c.mcuVersion
    ensures forall i :: 0 <= i < 8 ==> payload[24 + i] == codes[i]
  {
  }

  lemma SettingsArrive(m: Message, crc: Byte)
    requires Sendable(m) && m.Settings?
    ensures ParsedConfig(Content(m) + [crc]) == Arrives(m)
  {
    var c, payload := m.config, Content(m) + [crc];
    assert payload == [2] + c.sn + c.hwVersion + c.fpgaVersion + c.mcuVersion + Codes(m) + (m.extra + [crc]);
    SettingsParts(c, Codes(m), m.extra + [crc], payload);
    CodesMean(m, payload);
  }

  lemma CodesMean(m: Message, payload: seq<Byte>)
    requires Sendable(m) && m.Settings? && |payload| >= 33
    requires forall i :: 0 <= i < 8 ==> payload[24 + i] == Codes(m)[i]
    requires payload[1..15] == m.config.sn && payload[15..18] == m.config.hwVersion
    requires payload[18..21] == m.config.fpgaVersion && payload[21..24] == m.config.mcuVersion
    ensures ParsedConfig(payload) == Arrives(m)
  {
    var codes := Codes(m);
    TwoValue(m.config.instantSpeed);
    assert payload[25] == codes[1] && payload[28] == codes[4] && payload[31] == codes[7];
    assert payload[26] == codes[2] && payload[27] == codes[3];
    assert payload[29] == codes[5] && payload[30] == codes[6];
  }

  /** One frame: the parser delivers what was sent, whatever the message. */
  lemma EncodedArrives(m: Message)
    requires Sendable(m)
    ensures Processed(Encoded(m)) == Arrives(m)
  {
    var content := Content(m);
    EncodedIsWellFormed(m);
    ContentLength(m);
    SealedIsChecked(content);
    if m.Sweep? {
      SweepLayout(m, Crc8.Crc(content));
      SweepArrives(content + [Crc8.Crc(content)], m);
    } else {
      SettingsArrive(m, Crc8.Crc(content));
    }
  }

  // ---------------------------------------------------------------------------
  // Main result
  // ---------------------------------------------------------------------------

  predicate AllSendable(messages: seq<Message>) {
    forall i :: 0 <= i < |messages| ==> Sendable(messages[i])
  }

  function AllEncoded(messages: seq<Message>): (frames: seq<seq<Byte>>)
    requires AllSendable(messages)
    ensures |frames| == |messages|
  {
    if messages == [] then [] else [Encoded(messages[0])] + AllEncoded(messages[1..])
  }

  /** What should arrive of several messages. */
  function AllArrive(messages: seq<Message>): seq<Callback> {
    if messages == [] then [] else Arrives(messages[0]) + AllArrive(messages[1..])
  }

  lemma {:induction false} AllEncodedArrive(messages: seq<Message>)
    requires AllSendable(messages)
    ensures AllProcessed(Processed, AllEncoded(messages)) == AllArrive(messages)
    ensures forall i :: 0 <= i < |messages| ==> WellFormed(AllEncoded(messages)[i])
  {
    if messages == [] {
    } else {
      var frames := AllEncoded(messages);
      EncodedArrives(messages[0]);
      EncodedIsWellFormed(messages[0]);
      AllEncodedArrive(messages[1..]);
      assert frames[0] == Encoded(messages[0]) && frames[1..] == AllEncoded(messages[1..]);
    }
  }

  /** The round trip. Any sweeps and configurations, sent as frames with garbage free of the start
      pair in between and received in chunks of at most 7953 bytes, arrive in order with the values
      they were sent with: every distance, intensity and angle, every time stamp, every field of a
      configuration; and nothing else arrives. */
  lemma MessagesArrive(messages: seq<Message>, garbage: seq<seq<Byte>>, chunks: seq<seq<Byte>>)
    requires AllSendable(messages) && |garbage| == |messages| + 1
    requires forall i :: 0 <= i < |garbage| ==> PairFree(garbage[i])
    requires forall i :: 0 <= i < |chunks| ==> |chunks[i]| <= MAX_BUFFER - MAX_FRAME + 1
    requires Joined(chunks) == Interleaved(garbage, AllEncoded(messages))
    ensures FedAll(chunks).0 == AllArrive(messages)
  {
    AllEncodedArrive(messages);
    ChunkedFramesSurvive(garbage, AllEncoded(messages), chunks);
  }
}
