/** The SMIT driver's read loop: the parser's callbacks drive the assembler. */
module SmitDriver {
  import opened Lifecycle
  import opened Streams
  import opened SmitProtocol
  import opened SmitScan
  import opened SmitRoundTrip

  /** What the callbacks change: the configured speed and frequency, once received, and the scan in
      progress. */
  datatype Assembly = Assembly(config: Option<(nat, nat)>, progress: Progress)

  const NEW := Assembly(None, CLEARED)

  /** One callback: a configuration is kept, a packet is assembled once there is one. */
  function Handled(w: Window, a: Assembly, callback: Callback): (Assembly, seq<Scan>) {
    match callback
    case Configured(config) => (a.(config := Some((config.motorSpeed, config.lidarFreq))), [])
    case Received(packet) =>
      if a.config.None? then (a, [])
      else
        var (after, emitted) := AfterPacket(w, a.progress, packet);
        (a.(progress := after), Labelled(emitted, w, a.config.value.0, a.config.value.1))
  }

  function Handler(w: Window): (Assembly, Callback) -> (Assembly, seq<Scan>) {
    (a, callback) => Handled(w, a, callback)
  }

  class Driver {
    const protocol: Protocol
    const assembler: Assembler

    ghost function Assembled(): Assembly
      reads assembler
    {
      Assembly(if assembler.hasConfig then Some((assembler.motorSpeed, assembler.lidarFreq)) else None,
               assembler.View())
    }

    constructor (window: Window)
      ensures fresh(protocol) && fresh(assembler)
      ensures protocol.buffer == [] && assembler.window == window && Assembled() == NEW
    {
      protocol := new Protocol();
      assembler := new Assembler(window);
    }

    /** One read from the line: the callbacks in order, each handled as it comes. */
    method ReadOnce(data: seq<Byte>) returns (scans: seq<Scan>)
      modifies protocol, assembler
      ensures assembler.window == old(assembler.window)
      ensures protocol.buffer == Fed(old(protocol.buffer), data).1
      ensures (Assembled(), scans)
        == Run(Handler(assembler.window), old(Assembled()), Fed(old(protocol.buffer), data).0)
    {
      ghost var start, w := Assembled(), assembler.window;
      var callbacks := protocol.Feed(data);
      scans := [];
      for i := 0 to |callbacks|
        invariant assembler.window == w && protocol.buffer == Fed(old(protocol.buffer), data).1
        invariant (Assembled(), scans) == Run(Handler(w), start, callbacks[..i])
      {
        assert callbacks[..i + 1] == callbacks[..i] + [callbacks[i]];
        RunSnoc(Handler(w), start, callbacks[..i], callbacks[i]);
        var more: seq<Scan> := [];
        match callbacks[i] {
          case Configured(config) => assembler.SetConfig(config.motorSpeed, config.lidarFreq);
          case Received(packet) => more := assembler.AddPacket(packet);
        }
        scans := scans + more;
      }
      assert callbacks[..|callbacks|] == callbacks;
    }
  }

  // ---------------------------------------------------------------------------
  // Scans carry the settings in force
  // ---------------------------------------------------------------------------

  /** The configuration received last. */
  function Latest(callbacks: seq<Callback>): Option<ConfigInfo> {
    if callbacks == [] then None
    else if callbacks[|callbacks| - 1].Configured? then Some(callbacks[|callbacks| - 1].config)
    else Latest(callbacks[..|callbacks| - 1])
  }

  predicate KeepsLatest(a: Assembly, latest: Option<ConfigInfo>) {
    match latest
    case None => a.config == None
    case Some(config) => a.config == Some((config.motorSpeed, config.lidarFreq))
  }

  lemma {:induction false} LatestIsKept(w: Window, callbacks: seq<Callback>)
    ensures KeepsLatest(Run(Handler(w), NEW, callbacks).0, Latest(callbacks))
  {
    if callbacks == [] {
    } else {
      LatestIsKept(w, callbacks[..|callbacks| - 1]);
    }
  }

  /** A scan carries the window, and the speed and frequency of the configuration received last before
      it was completed; before the first configuration there is none. */
  lemma ScansCarryTheLatestConfig(w: Window, callbacks: seq<Callback>, next: Callback, scan: Scan)
    requires scan in Handled(w, Run(Handler(w), NEW, callbacks).0, next).1
    ensures Latest(callbacks).Some?
    ensures scan.window == w
    ensures scan.motorSpeed == Latest(callbacks).value.motorSpeed
    ensures scan.lidarFreq == Latest(callbacks).value.lidarFreq
  {
    LatestIsKept(w, callbacks);
  }

  // ---------------------------------------------------------------------------
  // How the line is read does not matter
  // ---------------------------------------------------------------------------

  /** A driver read chunk by chunk: what is left in the buffer, the assembly, and all scans. */
  function ReadAll(w: Window, chunks: seq<seq<Byte>>): (seq<Byte>, Assembly, seq<Scan>) {
    if chunks == [] then ([], NEW, [])
    else
      var (buffer, a, scans) := ReadAll(w, chunks[..|chunks| - 1]);
      var (callbacks, rest) := Fed(buffer, chunks[|chunks| - 1]);
      var (after, more) := Run(Handler(w), a, callbacks);
      (rest, after, scans + more)
  }

  /** Reading and handling by turns is handling all callbacks at the end. */
  lemma {:induction false} ReadAllIsOneRun(w: Window, chunks: seq<seq<Byte>>)
    ensures var (callbacks, buffer) := FedAll(chunks);
      var (a, scans) := Run(Handler(w), NEW, callbacks);
      ReadAll(w, chunks) == (buffer, a, scans)
  {
    if chunks == [] {
    } else {
      var front := chunks[..|chunks| - 1];
      ReadAllIsOneRun(w, front);
      var (before, buffer) := FedAll(front);
      RunAppend(Handler(w), NEW, before, Fed(buffer, chunks[|chunks| - 1]).0);
    }
  }

  /** End to end: for any byte stream, in chunks of at most 7953 bytes, the scans, the scan in
      progress and the leftover bytes depend only on the stream, not on how it was read. */
  lemma ScansDependOnTheStreamOnly(w: Window, chunks: seq<seq<Byte>>, others: seq<seq<Byte>>)
    requires forall i :: 0 <= i < |chunks| ==> |chunks[i]| <= MAX_BUFFER - MAX_FRAME + 1
    requires forall i :: 0 <= i < |others| ==> |others[i]| <= MAX_BUFFER - MAX_FRAME + 1
    requires Joined(chunks) == Joined(others)
    ensures ReadAll(w, chunks) == ReadAll(w, others)
  {
    ReadAllIsOneRun(w, chunks);
    ReadAllIsOneRun(w, others);
    ChunksDoNotMatter(chunks);
    ChunksDoNotMatter(others);
  }

  // ---------------------------------------------------------------------------
  // From the sensor to the scans
  // ---------------------------------------------------------------------------

  predicate AllSweeps(messages: seq<Message>) {
    forall i :: 0 <= i < |messages| ==> messages[i].Sweep?
  }

  /** A sweep with samples arrives as one packet. */
  function PacketOf(m: Message): seq<Packet>
    requires m.Sweep?
  {
    if m.samples == [] then [] else [Packet(Sent(m.start, m.delta, m.samples), m.timestamp, true)]
  }

  /** What should arrive of sweeps. */
  function Packets(sweeps: seq<Message>): seq<Packet>
    requires AllSweeps(sweeps)
  {
    if sweeps == [] then [] else PacketOf(sweeps[0]) + Packets(sweeps[1..])
  }

  function Receptions(packets: seq<Packet>): seq<Callback> {
    seq(|packets|, i requires 0 <= i < |packets| => Received(packets[i]))
  }

  lemma ReceptionsAppend(a: seq<Packet>, b: seq<Packet>)
    ensures Receptions(a + b) == Receptions(a) + Receptions(b)
  {
  }

  predicate AllClean(packets: seq<Packet>) {
    forall i :: 0 <= i < |packets| ==> Clean(packets[i])
  }

  lemma SweepArrivesAsPacket(m: Message)
    requires m.Sweep? && Sendable(m)
    ensures Arrives(m) == Receptions(PacketOf(m)) && AllClean(PacketOf(m))
  {
  }

  lemma {:induction false} SweepsArriveAsPackets(sweeps: seq<Message>)
    requires AllSweeps(sweeps) && AllSendable(sweeps)
    ensures AllArrive(sweeps) == Receptions(Packets(sweeps)) && AllClean(Packets(sweeps))
  {
    if sweeps == [] {
    } else {
      SweepArrivesAsPacket(sweeps[0]);
      SweepsArriveAsPackets(sweeps[1..]);
      ReceptionsAppend(PacketOf(sweeps[0]), Packets(sweeps[1..]));
    }
  }

  /** Once configured, the driver assembles every packet it receives. */
  lemma {:induction false} ReceptionsAreFolded(w: Window, config: (nat, nat), packets: seq<Packet>)
    ensures var (progress, emitted) := FoldPackets(w, CLEARED, packets);
      Run(Handler(w), Assembly(Some(config), CLEARED), Receptions(packets))
        == (Assembly(Some(config), progress), Labelled(emitted, w, config.0, config.1))
  {
    if packets == [] {
      assert Receptions(packets) == [] && Labelled([], w, config.0, config.1) == [];
    } else {
      var front, last := packets[..|packets| - 1], packets[|packets| - 1];
      ReceptionsAreFolded(w, config, front);
      assert Receptions(packets) == Receptions(front) + [Received(last)];
      RunSnoc(Handler(w), Assembly(Some(config), CLEARED), Receptions(front), Received(last));
      var (progress, emitted) := FoldPackets(w, CLEARED, front);
      var more := AfterPacket(w, progress, last).1;
      assert Labelled(emitted + more, w, config.0, config.1)
        == Labelled(emitted, w, config.0, config.1) + Labelled(more, w, config.0, config.1);
    }
  }

  /** What a configuration and then sweeps make of a new driver. */
  lemma HandledAfterSettings(w: Window, config: ConfigInfo, packets: seq<Packet>)
    ensures Run(Handler(w), NEW, [Configured(config)] + Receptions(packets)).1
      == Labelled(FoldPackets(w, CLEARED, packets).1, w, config.motorSpeed, config.lidarFreq)
  {
    RunAppend(Handler(w), NEW, [Configured(config)], Receptions(packets));
    assert [Configured(config)] == [] + [Configured(config)];
    RunSnoc(Handler(w), NEW, [], Configured(config));
    ReceptionsAreFolded(w, (config.motorSpeed, config.lidarFreq), packets);
  }

  /** A configuration, and after it sweeps. */
  predicate Session(messages: seq<Message>) {
    messages != [] && messages[0].Settings? && AllSweeps(messages[1..]) && AllSendable(messages)
  }

  /** Sent and received: a driver scans what was sent to it. */
  lemma SweepsBecomeScans(w: Window, messages: seq<Message>, garbage: seq<seq<Byte>>, chunks: seq<seq<Byte>>)
    requires Session(messages) && |garbage| == |messages| + 1
    requires forall i :: 0 <= i < |garbage| ==> PairFree(garbage[i])
    requires forall i :: 0 <= i < |chunks| ==> |chunks[i]| <= MAX_BUFFER - MAX_FRAME + 1
    requires Joined(chunks) == Interleaved(garbage, AllEncoded(messages))
    ensures var config := messages[0].config;
      ReadAll(w, chunks).2
        == Labelled(FoldPackets(w, CLEARED, Packets(messages[1..])).1, w, config.motorSpeed, config.lidarFreq)
  {
    MessagesArrive(messages, garbage, chunks);
    SweepsArriveAsPackets(messages[1..]);
    ReadAllIsOneRun(w, chunks);
    HandledAfterSettings(w, messages[0].config, Packets(messages[1..]));
  }

  /** From the sensor to the scans. A sensor sends its configuration and then any sweeps, with garbage
      in between; the driver reads it in any chunks; its window is not a full circle. Then the scans
      are, in order, the passes of the measured points through the window, each point with the
      distance and intensity it was sent with, each scan with the settings sent. */
  lemma MeasuredPassesAreScanned(
      w: Window, messages: seq<Message>, garbage: seq<seq<Byte>>, chunks: seq<seq<Byte>>)
    requires Session(messages) && |garbage| == |messages| + 1
    requires forall i :: 0 <= i < |garbage| ==> PairFree(garbage[i])
    requires forall i :: 0 <= i < |chunks| ==> |chunks[i]| <= MAX_BUFFER - MAX_FRAME + 1
    requires Joined(chunks) == Interleaved(garbage, AllEncoded(messages))
    requires w.angleMax - w.angleMin < FULL_CIRCLE - TOLERANCE
    ensures var config, points := messages[0].config, PointsIn(Packets(messages[1..]));
      var runs := Runs(w.Span(), NormalizedAll(points));
      && Ordered(runs, |points|)
      && (forall lo: nat, hi: nat :: (lo, hi) in runs <==> Pass(w, points, lo, hi))
      && ReadAll(w, chunks).2
           == Labelled(RunSlices(NormalizedAll(points), runs), w, config.motorSpeed, config.lidarFreq)
  {
    SweepsBecomeScans(w, messages, garbage, chunks);
    SweepsArriveAsPackets(messages[1..]);
    ScansAreTheMaximalRuns(w, Packets(messages[1..]));
  }
}
