/** The SMIT scan assembler: points become scans, either one per revolution (full-circle window)
    or one per pass through the window. Angles are integers in 0.0001 degree. */
module SmitScan {
  import opened Streams
  import opened SmitProtocol

  const TOLERANCE := 10

  /** A part of the circle, from `start` on to `end`. */
  datatype Arc = Arc(start: int, end: int)

  datatype Window = Window(angleMin: int, angleMax: int) {
    function StartRaw(): int { angleMin % FULL_CIRCLE }
    function EndRaw(): int { angleMax % FULL_CIRCLE }
    function Span(): Arc { Arc(StartRaw(), EndRaw()) }
    predicate FullCircle() { angleMax - angleMin >= FULL_CIRCLE - TOLERANCE }
  }

  /** A scan carries its points and the settings it was taken with. */
  datatype Scan = Scan(points: seq<Point>, window: Window, motorSpeed: nat, lidarFreq: nat)

  /** What `reset` clears. */
  datatype Progress = Progress(
    points: seq<Point>, collecting: bool, havePrevious: bool, previousIn: bool, previousRaw: int)

  const CLEARED := Progress([], false, false, false, 0)

  // ---------------------------------------------------------------------------
  // Circular angles
  // ---------------------------------------------------------------------------

  /** The raw angle of a point is its angle on the circle; scans carry raw angles. */
  function Normalized(p: Point): Point { p.(angle := p.angle % FULL_CIRCLE) }

  function NormalizedAll(points: seq<Point>): seq<Point> {
    seq(|points|, i requires 0 <= i < |points| => Normalized(points[i]))
  }

  predicate InWindow(raw: int, start: int, end: int) {
    if start <= end then start <= raw <= end else raw >= start || raw <= end
  }

  predicate Crossed(previous: int, current: int, boundary: int) {
    if previous <= current then previous < boundary <= current
    else previous < boundary || current >= boundary
  }

  /** Membership, plain or wrapped, is distance along the circle from the window's start. */
  lemma InWindowIsCircular(raw: int, start: int, end: int)
    requires 0 <= raw < FULL_CIRCLE && 0 <= start < FULL_CIRCLE && 0 <= end < FULL_CIRCLE
    ensures InWindow(raw, start, end) <==> (raw - start) % FULL_CIRCLE <= (end - start) % FULL_CIRCLE
  {
    WrapOnce(raw - start);
    WrapOnce(end - start);
  }

  /** In the window, told from the settings alone: the way from its start to the point is no longer
      than the way to its end. */
  predicate Within(w: Window, p: Point) {
    (p.angle - w.angleMin) % FULL_CIRCLE <= (w.angleMax - w.angleMin) % FULL_CIRCLE
  }

  /** For any window that is not a full circle, wrapped ones and ones that begin past zero included,
      and any angle: the test made is that one. Between ordered ends it allows the plain distance. */
  lemma WindowIsItsFields(w: Window, p: Point)
    requires w.angleMax - w.angleMin < FULL_CIRCLE - TOLERANCE
    ensures Inside(w.Span(), Normalized(p)) <==> Within(w, p)
    ensures w.angleMin <= w.angleMax ==>
      (Within(w, p) <==> (p.angle - w.angleMin) % FULL_CIRCLE <= w.angleMax - w.angleMin)
  {
    InWindowIsCircular(p.angle % FULL_CIRCLE, w.StartRaw(), w.EndRaw());
    WayIsCircular(p.angle, w.angleMin);
    WayIsCircular(w.angleMax, w.angleMin);
    if w.angleMin <= w.angleMax {
      WrapOnce(w.angleMax - w.angleMin);
    }
  }

  /** The way along the circle does not depend on how its ends are wrapped. */
  lemma WayIsCircular(a: int, b: int)
    ensures (a % FULL_CIRCLE - b % FULL_CIRCLE) % FULL_CIRCLE == (a - b) % FULL_CIRCLE
  {
    var q, r := a / FULL_CIRCLE - b / FULL_CIRCLE, a % FULL_CIRCLE - b % FULL_CIRCLE;
    assert a - b == q * FULL_CIRCLE + r;
    Quotient(q, r);
  }

  lemma WrapOnce(d: int)
    requires -FULL_CIRCLE < d < FULL_CIRCLE
    ensures d % FULL_CIRCLE == if d < 0 then d + FULL_CIRCLE else d
    ensures d / FULL_CIRCLE == if d < 0 then -1 else 0
  {
  }

  /** One advance of less than a revolution passes the boundary at most once, and the crossing
      test says exactly when. */
  lemma CrossingIsFloorStep(unwrapped: int, current: int, boundary: int)
    requires 0 <= current < FULL_CIRCLE && 0 <= boundary < FULL_CIRCLE
    ensures var previous := unwrapped % FULL_CIRCLE;
      var advanced := unwrapped + (current - previous) % FULL_CIRCLE;
      && advanced % FULL_CIRCLE == current
      && (advanced - boundary) / FULL_CIRCLE - (unwrapped - boundary) / FULL_CIRCLE
         == if Crossed(previous, current, boundary) then 1 else 0
  {
    var q, previous := unwrapped / FULL_CIRCLE, unwrapped % FULL_CIRCLE;
    assert unwrapped == q * FULL_CIRCLE + previous;
    WrapOnce(current - previous);
    WrapOnce(previous - boundary);
    WrapOnce(current - boundary);
    Quotient(q, previous - boundary);
    var turns := if current < previous then q + 1 else q;
    assert unwrapped + (current - previous) % FULL_CIRCLE == turns * FULL_CIRCLE + current;
    Quotient(turns, current - boundary);
    Quotient(turns, current);
  }

  lemma Quotient(q: int, r: int)
    ensures (q * FULL_CIRCLE + r) / FULL_CIRCLE == q + r / FULL_CIRCLE
    ensures (q * FULL_CIRCLE + r) % FULL_CIRCLE == r % FULL_CIRCLE
  {
  }

  // ---------------------------------------------------------------------------
  // One point, its angle already on the circle
  // ---------------------------------------------------------------------------

  predicate Inside(arc: Arc, p: Point) {
    InWindow(p.angle, arc.start, arc.end)
  }

  function FullStep(boundary: int, s: Progress, p: Point): (Progress, seq<seq<Point>>) {
    var crossed := s.havePrevious && Crossed(s.previousRaw, p.angle, boundary);
    var emitted := if crossed && s.collecting && s.points != [] then [s.points] else [];
    var kept := if crossed then [] else s.points;
    var collecting := s.collecting || crossed;
    (Progress(if collecting then kept + [p] else kept, collecting, true, s.previousIn, p.angle), emitted)
  }

  function PartialStep(arc: Arc, s: Progress, p: Point): (Progress, seq<seq<Point>>) {
    var inside := Inside(arc, p);
    if !s.collecting then
      if s.havePrevious && !s.previousIn && inside then (Progress([p], true, true, inside, p.angle), [])
      else (Progress(s.points, false, true, inside, p.angle), [])
    else if !inside then
      (Progress([], false, true, inside, p.angle), if s.points != [] then [s.points] else [])
    else (Progress(s.points + [p], true, true, inside, p.angle), [])
  }

  function FullStepper(boundary: int): (Progress, Point) -> (Progress, seq<seq<Point>>) {
    (s, p) => FullStep(boundary, s, p)
  }

  function PartialStepper(arc: Arc): (Progress, Point) -> (Progress, seq<seq<Point>>) {
    (s, p) => PartialStep(arc, s, p)
  }

  function Stepper(w: Window): (Progress, Point) -> (Progress, seq<seq<Point>>) {
    if w.FullCircle() then FullStepper(w.StartRaw()) else PartialStepper(w.Span())
  }

  /** A stream of points: where the assembler ends up, and the scans it emits on the way. */
  function Fold(w: Window, s: Progress, points: seq<Point>): (Progress, seq<seq<Point>>) {
    Run(Stepper(w), s, NormalizedAll(points))
  }

  // ---------------------------------------------------------------------------
  // The mutable assembler
  // ---------------------------------------------------------------------------

  predicate Clean(packet: Packet) {
    packet.crcOk && |packet.points| <= MAX_POINTS
  }

  function AfterPacket(w: Window, s: Progress, packet: Packet): (Progress, seq<seq<Point>>) {
    if !Clean(packet) then (s.(points := [], collecting := false, havePrevious := false, previousIn := false), [])
    else Fold(w, s, packet.points)
  }

  function Labelled(scans: seq<seq<Point>>, w: Window, motorSpeed: nat, lidarFreq: nat): seq<Scan> {
    seq(|scans|, i requires 0 <= i < |scans| => Scan(scans[i], w, motorSpeed, lidarFreq))
  }

  class Assembler {
    var window: Window
    var motorSpeed: nat
    var lidarFreq: nat
    var hasConfig: bool
    var points: seq<Point>
    var collecting: bool
    var havePrevious: bool
    var previousIn: bool
    var previousRaw: int

    ghost function View(): Progress
      reads this
    {
      Progress(points, collecting, havePrevious, previousIn, previousRaw)
    }

    constructor (window: Window)
      ensures View() == CLEARED && !hasConfig && this.window == window
    {
      this.window := window;
      motorSpeed, lidarFreq, hasConfig := 0, 0, false;
      points, collecting, havePrevious, previousIn, previousRaw := [], false, false, false, 0;
    }

    method SetWindow(newWindow: Window)
      modifies this
      ensures window == newWindow && View() == CLEARED.(previousRaw := old(previousRaw))
      ensures hasConfig == old(hasConfig) && motorSpeed == old(motorSpeed) && lidarFreq == old(lidarFreq)
    {
      window := newWindow;
      Reset();
    }

    method SetConfig(speed: nat, freq: nat)
      modifies this`motorSpeed, this`lidarFreq, this`hasConfig
      ensures motorSpeed == speed && lidarFreq == freq && hasConfig
    {
      motorSpeed, lidarFreq, hasConfig := speed, freq, true;
    }

    method Reset()
      modifies this`points, this`collecting, this`havePrevious, this`previousIn
      ensures View() == CLEARED.(previousRaw := previousRaw)
    {
      points := [];
      collecting, havePrevious, previousIn := false, false, false;
    }

    method AddFullPoint(point: Point) returns (emitted: seq<seq<Point>>)
      modifies this`points, this`collecting, this`havePrevious, this`previousRaw
      ensures (View(), emitted) == FullStep(window.StartRaw(), old(View()), Normalized(point))
    {
      var raw := point.angle % FULL_CIRCLE;
      emitted := [];
      if havePrevious && Crossed(previousRaw, raw, window.StartRaw()) {
        if collecting && points != [] {
          emitted := [points];
        }
        points := [];
        collecting := true;
      }
      if collecting {
        points := points + [Normalized(point)];
      }
      previousRaw := raw;
      havePrevious := true;
    }

    method AddPartialPoint(point: Point) returns (emitted: seq<seq<Point>>)
      modifies this`points, this`collecting, this`havePrevious, this`previousIn, this`previousRaw
      ensures (View(), emitted) == PartialStep(window.Span(), old(View()), Normalized(point))
    {
      var raw := point.angle % FULL_CIRCLE;
      var inside := InWindow(raw, window.StartRaw(), window.EndRaw());
      emitted := [];
      if !collecting {
        if havePrevious && !previousIn && inside {
          points := [];
          collecting := true;
          points := points + [Normalized(point)];
          assert points == [Normalized(point)];
        }
      } else if !inside {
        if points != [] {
          emitted := [points];
        }
        points := [];
        collecting := false;
      } else {
        points := points + [Normalized(point)];
      }
      previousRaw := raw;
      previousIn := inside;
      havePrevious := true;
    }

    /** `scans` collects what the scan callback was invoked with, in order. */
    method AddPacket(packet: Packet) returns (scans: seq<Scan>)
      modifies this`points, this`collecting, this`havePrevious, this`previousIn, this`previousRaw
      ensures !hasConfig ==> View() == old(View()) && scans == []
      ensures hasConfig ==>
        var (after, emitted) := AfterPacket(window, old(View()), packet);
        View() == after && scans == Labelled(emitted, window, motorSpeed, lidarFreq)
      ensures forall scan :: scan in scans ==>
        scan.window == window && scan.motorSpeed == motorSpeed && scan.lidarFreq == lidarFreq
    {
      if !hasConfig {
        return [];
      }
      if !packet.crcOk || |packet.points| > MAX_POINTS {
        Reset();
        return [];
      }
      ghost var start := View();
      var emitted: seq<seq<Point>> := [];
      for i := 0 to |packet.points|
        invariant (View(), emitted) == Fold(window, start, packet.points[..i])
      {
        assert NormalizedAll(packet.points[..i + 1])
          == NormalizedAll(packet.points[..i]) + [Normalized(packet.points[i])];
        RunSnoc(Stepper(window), start, NormalizedAll(packet.points[..i]), Normalized(packet.points[i]));
        var more: seq<seq<Point>>;
        if window.FullCircle() {
          more := AddFullPoint(packet.points[i]);
        } else {
          more := AddPartialPoint(packet.points[i]);
        }
        emitted := emitted + more;
      }
      assert packet.points[..|packet.points|] == packet.points;
      return Labelled(emitted, window, motorSpeed, lidarFreq);
    }
  }

  // ---------------------------------------------------------------------------
  // Packets
  // ---------------------------------------------------------------------------

  function PacketStepper(w: Window): (Progress, Packet) -> (Progress, seq<seq<Point>>) {
    (s, packet) => AfterPacket(w, s, packet)
  }

  function FoldPackets(w: Window, s: Progress, packets: seq<Packet>): (Progress, seq<seq<Point>>) {
    Run(PacketStepper(w), s, packets)
  }

  function PointsIn(packets: seq<Packet>): seq<Point> {
    if packets == [] then [] else PointsIn(packets[..|packets| - 1]) + packets[|packets| - 1].points
  }

  /** How a clean stream is cut into packets does not matter. */
  lemma {:induction false} PacketsDoNotMatter(w: Window, s: Progress, packets: seq<Packet>)
    requires forall i :: 0 <= i < |packets| ==> Clean(packets[i])
    ensures FoldPackets(w, s, packets) == Fold(w, s, PointsIn(packets))
  {
    if packets == [] {
    } else {
      var last := |packets| - 1;
      PacketsDoNotMatter(w, s, packets[..last]);
      var before, more := PointsIn(packets[..last]), packets[last].points;
      assert NormalizedAll(before + more) == NormalizedAll(before) + NormalizedAll(more);
      RunAppend(Stepper(w), s, NormalizedAll(before), NormalizedAll(more));
    }
  }

  /** Two positions that differ only in a previous angle nobody will look at. */
  predicate SameProgress(a: Progress, b: Progress) {
    a == b || (a == b.(previousRaw := a.previousRaw) && !a.havePrevious)
  }

  lemma {:induction false} PreviousAngleForgotten(w: Window, a: Progress, b: Progress, packets: seq<Packet>)
    requires SameProgress(a, b)
    ensures SameProgress(FoldPackets(w, a, packets).0, FoldPackets(w, b, packets).0)
    ensures FoldPackets(w, a, packets).1 == FoldPackets(w, b, packets).1
  {
    if packets == [] {
    } else {
      var last := |packets| - 1;
      PreviousAngleForgotten(w, a, b, packets[..last]);
      PointsForget(w, FoldPackets(w, a, packets[..last]).0, FoldPackets(w, b, packets[..last]).0,
                   NormalizedAll(packets[last].points));
    }
  }

  lemma {:induction false} PointsForget(w: Window, a: Progress, b: Progress, stream: seq<Point>)
    requires SameProgress(a, b)
    ensures SameProgress(Run(Stepper(w), a, stream).0, Run(Stepper(w), b, stream).0)
    ensures Run(Stepper(w), a, stream).1 == Run(Stepper(w), b, stream).1
  {
    if stream == [] {
    } else {
      PointsForget(w, a, b, stream[..|stream| - 1]);
    }
  }

  /** No scan mixes points from both sides of a bad packet: what comes after it is assembled
      exactly as by a cleared assembler. */
  lemma BadPacketSeparates(w: Window, s: Progress, before: seq<Packet>, bad: Packet, after: seq<Packet>)
    requires !Clean(bad)
    ensures FoldPackets(w, s, before + [bad] + after).1
         == FoldPackets(w, s, before).1 + FoldPackets(w, CLEARED, after).1
  {
    RunAppend(PacketStepper(w), s, before + [bad], after);
    RunSnoc(PacketStepper(w), s, before, bad);
    var middle := FoldPackets(w, s, before).0;
    var reset := AfterPacket(w, middle, bad).0;
    assert FoldPackets(w, s, before + [bad]) == (reset, FoldPackets(w, s, before).1 + []);
    assert FoldPackets(w, s, before).1 + [] == FoldPackets(w, s, before).1;
    PreviousAngleForgotten(w, reset, CLEARED, after);
  }

  // ---------------------------------------------------------------------------
  // Full circle: scans are revolutions
  // ---------------------------------------------------------------------------

  /** The boundary lies between point `i - 1` and point `i`. */
  predicate CrossingAt(boundary: int, stream: seq<Point>, i: nat) {
    0 < i < |stream| && Crossed(stream[i - 1].angle, stream[i].angle, boundary)
  }

  /** All crossings, in order. */
  function Cuts(boundary: int, stream: seq<Point>): seq<nat> {
    if stream == [] then []
    else
      var last := |stream| - 1;
      Cuts(boundary, stream[..last]) + if CrossingAt(boundary, stream, last) then [last] else []
  }

  predicate Increasing(cuts: seq<nat>, bound: nat) {
    && (forall k :: 0 <= k < |cuts| ==> cuts[k] < bound)
    && (forall j, k :: 0 <= j < k < |cuts| ==> cuts[j] < cuts[k])
  }

  /** The stretches between consecutive cuts. */
  function Slices<T>(s: seq<T>, cuts: seq<nat>): seq<seq<T>>
    requires Increasing(cuts, |s|)
  {
    if |cuts| < 2 then []
    else seq(|cuts| - 1, k requires 0 <= k < |cuts| - 1 => s[cuts[k]..cuts[k + 1]])
  }

  /** `Cuts` lists exactly the crossings. */
  lemma {:induction false} CutsAreTheCrossings(boundary: int, stream: seq<Point>)
    ensures Increasing(Cuts(boundary, stream), |stream|)
    ensures forall i: nat :: i in Cuts(boundary, stream) <==> CrossingAt(boundary, stream, i)
  {
    if stream == [] {
    } else {
      var last := |stream| - 1;
      CutsAreTheCrossings(boundary, stream[..last]);
      forall i: nat ensures i in Cuts(boundary, stream) <==> CrossingAt(boundary, stream, i) {
        if i < last {
          assert CrossingAt(boundary, stream, i) <==> CrossingAt(boundary, stream[..last], i);
        }
      }
    }
  }

  /** Cutting a longer stream at the same places gives the same stretches. */
  lemma SlicesStay<T>(s: seq<T>, cuts: seq<nat>, x: T)
    requires Increasing(cuts, |s|)
    ensures Slices(s + [x], cuts) == Slices(s, cuts)
  {
    forall k | 0 <= k < |cuts| - 1 ensures (s + [x])[cuts[k]..cuts[k + 1]] == s[cuts[k]..cuts[k + 1]] {
    }
  }

  lemma SlicesSnoc<T>(s: seq<T>, cuts: seq<nat>)
    requires |cuts| > 1 && Increasing(cuts, |s|)
    ensures Slices(s, cuts)
         == Slices(s, cuts[..|cuts| - 1]) + [s[cuts[|cuts| - 2]..cuts[|cuts| - 1]]]
  {
    var m := |cuts| - 1;
    var front := cuts[..m];
    forall k | 0 <= k < m - 1 ensures Slices(s, cuts)[k] == Slices(s, front)[k] {
      assert front[k] == cuts[k] && front[k + 1] == cuts[k + 1];
    }
  }

  lemma SlicesGrow<T>(s: seq<T>, cuts: seq<nat>, x: T)
    requires Increasing(cuts, |s|)
    ensures Slices(s + [x], cuts + [|s|])
         == Slices(s, cuts) + if cuts == [] then [] else [s[cuts[|cuts| - 1]..]]
  {
    if cuts != [] {
      var grown := cuts + [|s|];
      assert grown[..|grown| - 1] == cuts;
      SlicesSnoc(s + [x], grown);
      SlicesStay(s, cuts, x);
      assert (s + [x])[cuts[|cuts| - 1]..|s|] == s[cuts[|cuts| - 1]..];
    }
  }

  /** The points in progress are those since the last cut. */
  predicate Aligned(s: Progress, stream: seq<Point>, cuts: seq<nat>) {
    && Increasing(cuts, |stream|)
    && s.collecting == (cuts != [])
    && s.points == (if cuts == [] then [] else stream[cuts[|cuts| - 1]..])
  }

  /** A crossing closes the stretch in progress and opens the next one. */
  lemma CrossingAligned(boundary: int, s: Progress, stream: seq<Point>, cuts: seq<nat>, p: Point)
    requires Aligned(s, stream, cuts)
    requires s.havePrevious && Crossed(s.previousRaw, p.angle, boundary)
    ensures var (after, emitted) := FullStep(boundary, s, p);
      && Aligned(after, stream + [p], cuts + [|stream|])
      && Slices(stream + [p], cuts + [|stream|]) == Slices(stream, cuts) + emitted
  {
    SlicesGrow(stream, cuts, p);
    var (after, emitted) := FullStep(boundary, s, p);
    assert after.points == [p];
    assert emitted == if cuts == [] then [] else [stream[cuts[|cuts| - 1]..]];
    assert (stream + [p])[|stream|..] == [p];
  }

  lemma NoCrossingAligned(boundary: int, s: Progress, stream: seq<Point>, cuts: seq<nat>, p: Point)
    requires Aligned(s, stream, cuts)
    requires !(s.havePrevious && Crossed(s.previousRaw, p.angle, boundary))
    ensures var (after, emitted) := FullStep(boundary, s, p);
      && emitted == []
      && Aligned(after, stream + [p], cuts)
      && Slices(stream + [p], cuts) == Slices(stream, cuts)
  {
    SlicesStay(stream, cuts, p);
    if cuts != [] {
      var c := cuts[|cuts| - 1];
      assert (stream + [p])[c..] == stream[c..] + [p];
    }
  }

  /** Where a cleared full-circle assembler is after a stream, and what it has emitted. */
  ghost predicate Revolved(boundary: int, stream: seq<Point>) {
    var (s, scans) := Run(FullStepper(boundary), CLEARED, stream);
    && Aligned(s, stream, Cuts(boundary, stream))
    && scans == Slices(stream, Cuts(boundary, stream))
    && s.havePrevious == (stream != [])
    && (stream != [] ==> s.previousRaw == stream[|stream| - 1].angle)
  }

  /** One point moves the assembler, the stream and the cuts together. */
  lemma FullStepAligned(boundary: int, s: Progress, stream: seq<Point>, cuts: seq<nat>, p: Point, turned: bool)
    requires Aligned(s, stream, cuts)
    requires turned == (s.havePrevious && Crossed(s.previousRaw, p.angle, boundary))
    ensures var (after, emitted) := FullStep(boundary, s, p);
      var grown := cuts + if turned then [|stream|] else [];
      && Aligned(after, stream + [p], grown)
      && Slices(stream + [p], grown) == Slices(stream, cuts) + emitted
      && after.havePrevious && after.previousRaw == p.angle
  {
    if turned {
      CrossingAligned(boundary, s, stream, cuts, p);
    } else {
      NoCrossingAligned(boundary, s, stream, cuts, p);
      assert cuts + [] == cuts && Slices(stream, cuts) + [] == Slices(stream, cuts);
    }
  }

  lemma CutsSnoc(boundary: int, stream: seq<Point>, p: Point)
    ensures Cuts(boundary, stream + [p]) == Cuts(boundary, stream)
      + if stream != [] && Crossed(stream[|stream| - 1].angle, p.angle, boundary) then [|stream|] else []
  {
    assert (stream + [p])[..|stream|] == stream;
  }

  lemma RevolveStep(boundary: int, stream: seq<Point>, p: Point)
    requires Revolved(boundary, stream)
    ensures Revolved(boundary, stream + [p])
  {
    var s := Run(FullStepper(boundary), CLEARED, stream).0;
    var turned := s.havePrevious && Crossed(s.previousRaw, p.angle, boundary);
    CutsSnoc(boundary, stream, p);
    RunSnoc(FullStepper(boundary), CLEARED, stream, p);
    FullStepAligned(boundary, s, stream, Cuts(boundary, stream), p, turned);
  }

  lemma RevolvedAlways(boundary: int, stream: seq<Point>)
    ensures Revolved(boundary, stream)
  {
    forall front, p | Revolved(boundary, front) ensures Revolved(boundary, front + [p]) {
      RevolveStep(boundary, front, p);
    }
    StreamInduction(some => Revolved(boundary, some), stream);
  }

  predicate OnCircle(stream: seq<Point>) {
    forall i :: 0 <= i < |stream| ==> 0 <= stream[i].angle < FULL_CIRCLE
  }

  /** The unwrapped angle: it advances by less than a revolution from point to point. */
  function Unwrapped(stream: seq<Point>): int
    requires stream != []
  {
    if |stream| == 1 then stream[0].angle
    else
      var last := |stream| - 1;
      Unwrapped(stream[..last]) + (stream[last].angle - stream[last - 1].angle) % FULL_CIRCLE
  }

  /** Boundary multiples the unwrapped angle has passed. */
  function Turns(boundary: int, stream: seq<Point>): int
    requires stream != []
  {
    (Unwrapped(stream) - boundary) / FULL_CIRCLE - (stream[0].angle - boundary) / FULL_CIRCLE
  }

  /** Each of them is a crossing, and there are no others. */
  lemma {:induction false} CrossingsCountRevolutions(boundary: int, stream: seq<Point>)
    requires stream != [] && OnCircle(stream) && 0 <= boundary < FULL_CIRCLE
    ensures Unwrapped(stream) % FULL_CIRCLE == stream[|stream| - 1].angle
    ensures |Cuts(boundary, stream)| == Turns(boundary, stream)
  {
    var last := |stream| - 1;
    if last == 0 {
      assert stream[..0] == [];
    } else {
      var front := stream[..last];
      CrossingsCountRevolutions(boundary, front);
      CrossingIsFloorStep(Unwrapped(front), stream[last].angle, boundary);
      assert |Cuts(boundary, stream)| == |Cuts(boundary, front)| + if CrossingAt(boundary, stream, last) then 1 else 0;
    }
  }

  lemma JoinedGrow<T>(s: seq<T>, a: nat, b: nat, c: nat, parts: seq<seq<T>>)
    requires a <= b < c <= |s| && NonEmpty(parts) && Joined(parts) == s[a..b]
    ensures NonEmpty(parts + [s[b..c]]) && Joined(parts + [s[b..c]]) == s[a..c]
  {
    JoinedSnoc(parts, s[b..c]);
    assert s[a..b] + s[b..c] == s[a..c];
  }

  /** Consecutive stretches are never empty, and put together again they are the stream from the
      first cut to the last. */
  lemma {:induction false} SlicesJoin<T>(s: seq<T>, cuts: seq<nat>)
    requires cuts != [] && Increasing(cuts, |s|)
    ensures NonEmpty(Slices(s, cuts))
    ensures Joined(Slices(s, cuts)) == s[cuts[0]..cuts[|cuts| - 1]]
  {
    if |cuts| > 1 {
      var m := |cuts| - 1;
      SlicesJoin(s, cuts[..m]);
      SlicesSnoc(s, cuts);
      JoinedGrow(s, cuts[0], cuts[m - 1], cuts[m], Slices(s, cuts[..m]));
    }
  }

  /** The closed stretches and the open one are everything from the first cut on. */
  lemma SlicesCover<T>(s: seq<T>, cuts: seq<nat>)
    requires cuts != [] && Increasing(cuts, |s|)
    ensures Joined(Slices(s, cuts)) + s[cuts[|cuts| - 1]..] == s[cuts[0]..]
  {
    SlicesJoin(s, cuts);
    var a, b := cuts[0], cuts[|cuts| - 1];
    assert s[a..b] + s[b..] == s[a..];
  }

  lemma StreamRevolves(boundary: int, stream: seq<Point>)
    ensures var (s, scans) := Run(FullStepper(boundary), CLEARED, stream);
      var cuts := Cuts(boundary, stream);
      && Increasing(cuts, |stream|)
      && scans == Slices(stream, cuts)
      && NonEmpty(scans)
      && (cuts != [] ==> Joined(scans) + s.points == stream[cuts[0]..])
  {
    RevolvedAlways(boundary, stream);
    if Cuts(boundary, stream) != [] {
      SlicesJoin(stream, Cuts(boundary, stream));
      SlicesCover(stream, Cuts(boundary, stream));
    }
  }

  /** Full-circle scans are whole revolutions. For any clean stream of points after configuration,
      however it was cut into packets: the scans are exactly the stretches between consecutive
      crossings of the window's start, none is empty, and together with the points in progress they
      are the stream from the first crossing on. */
  lemma ScansAreRevolutions(w: Window, packets: seq<Packet>)
    requires w.angleMax - w.angleMin >= FULL_CIRCLE - TOLERANCE
    requires forall i :: 0 <= i < |packets| ==> Clean(packets[i])
    ensures var stream := NormalizedAll(PointsIn(packets));
      var (s, scans) := FoldPackets(w, CLEARED, packets);
      var cuts := Cuts(w.angleMin % FULL_CIRCLE, stream);
      && OnCircle(stream)
      && Increasing(cuts, |stream|)
      && scans == Slices(stream, cuts)
      && NonEmpty(scans)
      && (cuts != [] ==> Joined(scans) + s.points == stream[cuts[0]..])
  {
    PacketsDoNotMatter(w, CLEARED, packets);
    StreamRevolves(w.StartRaw(), NormalizedAll(PointsIn(packets)));
  }

  lemma ScansFollowCuts(w: Window, packets: seq<Packet>)
    requires w.FullCircle()
    requires forall i :: 0 <= i < |packets| ==> Clean(packets[i])
    ensures var cuts := Cuts(w.angleMin % FULL_CIRCLE, NormalizedAll(PointsIn(packets)));
      |FoldPackets(w, CLEARED, packets).1| == if |cuts| == 0 then 0 else |cuts| - 1
  {
    ScansAreRevolutions(w, packets);
  }

  /** Full-circle scans count revolutions: one less than the multiples of the window's start the
      unwrapped angle has passed. */
  lemma ScansCountRevolutions(w: Window, packets: seq<Packet>)
    requires w.angleMax - w.angleMin >= FULL_CIRCLE - TOLERANCE && PointsIn(packets) != []
    requires forall i :: 0 <= i < |packets| ==> Clean(packets[i])
    ensures var turns := Turns(w.angleMin % FULL_CIRCLE, NormalizedAll(PointsIn(packets)));
      |FoldPackets(w, CLEARED, packets).1| == if turns == 0 then 0 else turns - 1
  {
    ScansFollowCuts(w, packets);
    CrossingsCountRevolutions(w.angleMin % FULL_CIRCLE, NormalizedAll(PointsIn(packets)));
  }

  // ---------------------------------------------------------------------------
  // Partial window: scans are the maximal runs
  // ---------------------------------------------------------------------------

  /** Points `lo..hi` are in the window, with a point out of it on both sides. */
  predicate MaximalRun(arc: Arc, stream: seq<Point>, lo: nat, hi: nat) {
    && 0 < lo < hi < |stream|
    && (forall i :: lo <= i < hi ==> Inside(arc, stream[i]))
    && !Inside(arc, stream[lo - 1])
    && !Inside(arc, stream[hi])
  }

  /** A run that has begun and not ended yet. */
  predicate OpenRun(arc: Arc, stream: seq<Point>, lo: nat) {
    && 0 < lo < |stream|
    && (forall i :: lo <= i < |stream| ==> Inside(arc, stream[i]))
    && !Inside(arc, stream[lo - 1])
  }

  /** The start of the open run, if there is one. */
  function OpenStart(arc: Arc, stream: seq<Point>): nat {
    if |stream| < 2 || !Inside(arc, stream[|stream| - 1]) then 0
    else if !Inside(arc, stream[|stream| - 2]) then |stream| - 1
    else OpenStart(arc, stream[..|stream| - 1])
  }

  lemma {:induction false} OpenStartIsTheOpenRun(arc: Arc, stream: seq<Point>)
    ensures OpenStart(arc, stream) > 0 ==> OpenRun(arc, stream, OpenStart(arc, stream))
    ensures forall lo: nat :: OpenRun(arc, stream, lo) ==> lo == OpenStart(arc, stream)
  {
    if |stream| >= 2 && Inside(arc, stream[|stream| - 1]) {
      var front := stream[..|stream| - 1];
      if !Inside(arc, stream[|stream| - 2]) {
        assert forall lo: nat :: OpenRun(arc, stream, lo) ==> lo >= |stream| - 1;
      } else {
        OpenStartIsTheOpenRun(arc, front);
        forall lo: nat | OpenRun(arc, stream, lo) ensures lo == OpenStart(arc, stream) {
          assert lo < |stream| - 1;
          assert OpenRun(arc, front, lo);
        }
      }
    }
  }

  /** All maximal runs, in order, as index pairs. */
  function Runs(arc: Arc, stream: seq<Point>): seq<(nat, nat)> {
    if stream == [] then []
    else
      var last := |stream| - 1;
      var front := stream[..last];
      var ends := !Inside(arc, stream[last]) && OpenStart(arc, front) > 0;
      Runs(arc, front) + if ends then [(OpenStart(arc, front), last)] else []
  }

  predicate Ordered(runs: seq<(nat, nat)>, bound: nat) {
    && (forall k :: 0 <= k < |runs| ==> 0 < runs[k].0 < runs[k].1 < bound)
    && (forall j, k :: 0 <= j < k < |runs| ==> runs[j].1 < runs[k].1)
  }

  /** `Runs` lists exactly the maximal runs. */
  lemma {:induction false} RunsAreTheMaximalRuns(arc: Arc, stream: seq<Point>)
    ensures Ordered(Runs(arc, stream), |stream|)
    ensures forall lo: nat, hi: nat :: (lo, hi) in Runs(arc, stream) <==> MaximalRun(arc, stream, lo, hi)
  {
    if stream == [] {
    } else {
      var last := |stream| - 1;
      var front := stream[..last];
      RunsAreTheMaximalRuns(arc, front);
      OpenStartIsTheOpenRun(arc, front);
      forall lo: nat, hi: nat ensures (lo, hi) in Runs(arc, stream) <==> MaximalRun(arc, stream, lo, hi) {
        RunMembership(arc, stream, lo, hi);
      }
    }
  }

  lemma RunMembership(arc: Arc, stream: seq<Point>, lo: nat, hi: nat)
    requires stream != []
    requires var front := stream[..|stream| - 1];
      && ((lo, hi) in Runs(arc, front) <==> MaximalRun(arc, front, lo, hi))
      && (OpenStart(arc, front) > 0 ==> OpenRun(arc, front, OpenStart(arc, front)))
      && (OpenRun(arc, front, lo) ==> lo == OpenStart(arc, front))
    ensures (lo, hi) in Runs(arc, stream) <==> MaximalRun(arc, stream, lo, hi)
  {
    var last := |stream| - 1;
    var front := stream[..last];
    if hi < last {
      assert MaximalRun(arc, stream, lo, hi) <==> MaximalRun(arc, front, lo, hi);
    } else if hi == last {
      assert !MaximalRun(arc, front, lo, hi);
      assert MaximalRun(arc, stream, lo, hi) <==> OpenRun(arc, front, lo) && !Inside(arc, stream[last]);
    }
  }

  function RunSlices<T>(s: seq<T>, runs: seq<(nat, nat)>): seq<seq<T>>
    requires Ordered(runs, |s|)
  {
    seq(|runs|, k requires 0 <= k < |runs| => s[runs[k].0..runs[k].1])
  }

  lemma RunSlicesStay<T>(s: seq<T>, runs: seq<(nat, nat)>, x: T)
    requires Ordered(runs, |s|)
    ensures RunSlices(s + [x], runs) == RunSlices(s, runs)
  {
    forall k | 0 <= k < |runs| ensures (s + [x])[runs[k].0..runs[k].1] == s[runs[k].0..runs[k].1] {
    }
  }

  /** The open run after one more point. */
  lemma OpenStartGrows(arc: Arc, stream: seq<Point>, p: Point)
    ensures OpenStart(arc, stream + [p])
      == if !Inside(arc, p) || stream == [] then 0
         else if !Inside(arc, stream[|stream| - 1]) then |stream|
         else OpenStart(arc, stream)
  {
    var longer := stream + [p];
    assert longer[|longer| - 1] == p && longer[..|longer| - 1] == stream;
    assert stream != [] ==> longer[|longer| - 2] == stream[|stream| - 1];
  }

  /** A run that ends here is emitted as a non-empty stretch. */
  lemma EmittedRun<T>(s: seq<T>, runs: seq<(nat, nat)>, open: nat, x: T)
    requires Ordered(runs, |s|) && open <= |s|
    ensures 0 < open < |s| ==>
      && Ordered(runs + [(open, |s|)], |s| + 1)
      && RunSlices(s + [x], runs + [(open, |s|)]) == RunSlices(s, runs) + [s[open..]]
  {
    if 0 < open < |s| {
      RunSlicesStay(s, runs, x);
      assert (s + [x])[open..|s|] == s[open..];
      var grown := RunSlices(s + [x], runs + [(open, |s|)]);
      forall k | 0 <= k < |runs| ensures grown[k] == RunSlices(s, runs)[k] {
        assert (s + [x])[runs[k].0..runs[k].1] == s[runs[k].0..runs[k].1];
      }
      assert grown == RunSlices(s, runs) + [s[open..]];
    }
  }

  /** The points in progress are those of the open run. */
  predicate RunAligned(s: Progress, stream: seq<Point>, open: nat) {
    && open <= |stream|
    && s.collecting == (open > 0)
    && s.points == (if open > 0 then stream[open..] else [])
  }

  /** Where the run in progress begins after one more point. */
  function NextOpen(s: Progress, count: nat, open: nat, inside: bool): nat {
    if !inside || !s.havePrevious then 0 else if !s.previousIn then count else open
  }

  lemma PartialStepAligned(arc: Arc, s: Progress, stream: seq<Point>, open: nat, p: Point)
    requires RunAligned(s, stream, open)
    requires s.havePrevious <==> stream != []
    requires open > 0 ==> s.previousIn
    requires open < |stream| || open == 0
    ensures var (after, emitted) := PartialStep(arc, s, p);
      && RunAligned(after, stream + [p], NextOpen(s, |stream|, open, Inside(arc, p)))
      && emitted == (if !Inside(arc, p) && open > 0 then [stream[open..]] else [])
      && after.havePrevious && after.previousIn == Inside(arc, p)
  {
    var after := PartialStep(arc, s, p).0;
    if Inside(arc, p) && !s.collecting && s.havePrevious && !s.previousIn {
      assert (stream + [p])[|stream|..] == [p];
    } else if open > 0 {
      assert (stream + [p])[open..] == stream[open..] + [p];
    }
  }

  /** Where a cleared partial-window assembler is after a stream, and what it has emitted. */
  ghost predicate Passed(arc: Arc, stream: seq<Point>) {
    var (s, scans) := Run(PartialStepper(arc), CLEARED, stream);
    && Ordered(Runs(arc, stream), |stream|)
    && scans == RunSlices(stream, Runs(arc, stream))
    && RunAligned(s, stream, OpenStart(arc, stream))
    && s.havePrevious == (stream != [])
    && (stream != [] ==> s.previousIn == Inside(arc, stream[|stream| - 1]))
  }

  lemma RunsSnoc(arc: Arc, stream: seq<Point>, p: Point)
    ensures Runs(arc, stream + [p]) == Runs(arc, stream)
      + if !Inside(arc, p) && OpenStart(arc, stream) > 0 then [(OpenStart(arc, stream), |stream|)] else []
  {
    assert (stream + [p])[..|stream|] == stream;
  }

  lemma PassStep(arc: Arc, stream: seq<Point>, p: Point)
    requires Passed(arc, stream)
    ensures Passed(arc, stream + [p])
  {
    var open, runs := OpenStart(arc, stream), Runs(arc, stream);
    var (s, scans) := Run(PartialStepper(arc), CLEARED, stream);
    RunSnoc(PartialStepper(arc), CLEARED, stream, p);
    RunsSnoc(arc, stream, p);
    OpenStartGrows(arc, stream, p);
    OpenStartIsTheOpenRun(arc, stream);
    PartialStepAligned(arc, s, stream, open, p);
    if !Inside(arc, p) && open > 0 {
      EmittedRun(stream, runs, open, p);
    } else {
      RunSlicesStay(stream, runs, p);
      assert runs + [] == runs && scans + [] == scans;
    }
  }

  lemma PassedAlways(arc: Arc, stream: seq<Point>)
    ensures Passed(arc, stream)
  {
    forall front, p | Passed(arc, front) ensures Passed(arc, front + [p]) {
      PassStep(arc, front, p);
    }
    StreamInduction(some => Passed(arc, some), stream);
  }

  /** Points `lo..hi` are in the window, as its settings tell, with a point out of it on both sides. */
  predicate Pass(w: Window, points: seq<Point>, lo: nat, hi: nat) {
    && 0 < lo < hi < |points|
    && (forall i :: lo <= i < hi ==> Within(w, points[i]))
    && !Within(w, points[lo - 1])
    && !Within(w, points[hi])
  }

  lemma MaximalRunsArePasses(w: Window, points: seq<Point>, lo: nat, hi: nat)
    requires w.angleMax - w.angleMin < FULL_CIRCLE - TOLERANCE
    ensures MaximalRun(w.Span(), NormalizedAll(points), lo, hi) <==> Pass(w, points, lo, hi)
  {
    var stream := NormalizedAll(points);
    forall i | 0 <= i < |points| ensures Inside(w.Span(), stream[i]) <==> Within(w, points[i]) {
      WindowIsItsFields(w, points[i]);
    }
  }

  /** Partial-window scans are exactly the passes through the window: between resets, however the
      stream was cut into packets, the emitted scans are, in order, the stretches of points within
      the window with a point out of it on both sides, all of them and nothing else. */
  lemma ScansAreTheMaximalRuns(w: Window, packets: seq<Packet>)
    requires w.angleMax - w.angleMin < FULL_CIRCLE - TOLERANCE
    requires forall i :: 0 <= i < |packets| ==> Clean(packets[i])
    ensures var points := PointsIn(packets);
      var runs := Runs(w.Span(), NormalizedAll(points));
      && OnCircle(NormalizedAll(points))
      && Ordered(runs, |points|)
      && (forall lo: nat, hi: nat :: (lo, hi) in runs <==> Pass(w, points, lo, hi))
      && FoldPackets(w, CLEARED, packets).1 == RunSlices(NormalizedAll(points), runs)
  {
    var points := PointsIn(packets);
    PacketsDoNotMatter(w, CLEARED, packets);
    PassedAlways(w.Span(), NormalizedAll(points));
    RunsAreTheMaximalRuns(w.Span(), NormalizedAll(points));
    forall lo: nat, hi: nat ensures (lo, hi) in Runs(w.Span(), NormalizedAll(points)) <==> Pass(w, points, lo, hi) {
      MaximalRunsArePasses(w, points, lo, hi);
    }
  }
}
