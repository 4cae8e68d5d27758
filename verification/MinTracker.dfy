/** The approximate sliding minimum of the CH020 IMU driver, and the time stamps made with it. */
module MinTracker {

  datatype Tracker = Tracker(window: int, minValue: int, backup: int, minIndex: int, count: nat)

  function Pushed(t: Tracker, value: int): Tracker {
    if t.count == 0 then t.(minValue := value, minIndex := 0, backup := value, count := 1)
    else if value <= t.minValue then
      t.(minValue := value, minIndex := t.count, backup := value, count := t.count + 1)
    else
      var backup := if value < t.backup then value else t.backup;
      if t.count - t.minIndex >= t.window then
        t.(minValue := backup, minIndex := t.count, backup := value, count := t.count + 1)
      else
        t.(backup := backup, count := t.count + 1)
  }

  class CircleMinTracker {
    const window: int
    var minValue: int
    var backup: int
    var minIndex: int
    var count: nat

    ghost function View(): Tracker
      reads this
    {
      Tracker(window, minValue, backup, minIndex, count)
    }

    constructor (window: int)
      ensures View() == Tracker(window, 0, 0, 0, 0)
    {
      this.window := window;
      minValue, backup, minIndex, count := 0, 0, 0, 0;
    }

    method PushBack(value: int)
      modifies this
      ensures View() == Pushed(old(View()), value)
    {
      if count == 0 {
        minValue, minIndex, backup := value, 0, value;
      } else if value <= minValue {
        minValue, minIndex, backup := value, count, value;
      } else {
        if value < backup {
          backup := value;
        }
        if count - minIndex >= window {
          minValue, minIndex, backup := backup, count, value;
        }
      }
      count := count + 1;
    }

    function GetMin(): int
      reads this
    {
      minValue
    }

    /** Only the count is cleared; the old minimum stays readable until the next push. */
    method Reset()
      modifies this`count
      ensures View() == old(View()).(count := 0)
    {
      count := 0;
    }
  }

  // ---------------------------------------------------------------------------
  // What the tracker knows
  // ---------------------------------------------------------------------------

  /** A tracker, reset in any state, after a run of pushes. */
  function After(start: Tracker, values: seq<int>): Tracker {
    if values == [] then start.(count := 0)
    else Pushed(After(start, values[..|values| - 1]), values[|values| - 1])
  }

  predicate AtMostAll(x: int, values: seq<int>, from: int) {
    forall i :: 0 <= i < |values| && from <= i ==> x <= values[i]
  }

  predicate OneOf(x: int, values: seq<int>, from: int) {
    exists i :: 0 <= i < |values| && from <= i && values[i] == x
  }

  /** The minimum reaches back over one window before its index, the backup back to the index. */
  ghost predicate Tracks(t: Tracker, values: seq<int>) {
    && t.count == |values|
    && 0 <= t.minIndex < |values|
    && |values| - t.minIndex <= t.window
    && AtMostAll(t.minValue, values, t.minIndex - t.window)
    && OneOf(t.minValue, values[..t.minIndex + 1], t.minIndex - t.window)
    && AtMostAll(t.backup, values, t.minIndex)
    && OneOf(t.backup, values, t.minIndex)
  }

  lemma PushTracks(t: Tracker, values: seq<int>, value: int)
    requires Tracks(t, values)
    ensures Tracks(Pushed(t, value), values + [value])
  {
    var grown := values + [value];
    assert grown[|values|] == value;
    if value > t.minValue && t.count - t.minIndex >= t.window {
      assert grown[..|values| + 1] == grown;
      if value < t.backup {
        assert OneOf(value, grown, t.minIndex);
      } else {
        var i :| 0 <= i < |values| && t.minIndex <= i && values[i] == t.backup;
        assert grown[i] == t.backup;
      }
    } else if value > t.minValue {
      assert grown[..t.minIndex + 1] == values[..t.minIndex + 1];
      var i :| 0 <= i < |values| && t.minIndex <= i && values[i] == t.backup;
      assert grown[i] == t.backup;
    } else {
      assert grown[..|values| + 1] == grown;
    }
  }

  lemma {:induction false} AlwaysTracks(start: Tracker, values: seq<int>)
    requires start.window >= 1 && values != []
    ensures Tracks(After(start, values), values)
    ensures After(start, values).window == start.window
  {
    var last := |values| - 1;
    if last == 0 {
      assert values[..1][0] == values[0];
    } else {
      AlwaysTracks(start, values[..last]);
      PushTracks(After(start, values[..last]), values[..last], values[last]);
      assert values[..last] + [values[last]] == values;
    }
  }

  /** The sliding minimum is sandwiched: it is at most each of the last `w + 1` values, and it
      is one of the last `2 * w` values, whatever was in the tracker before its reset. */
  lemma MinIsSandwiched(start: Tracker, values: seq<int>)
    requires start.window >= 1 && values != []
    ensures var w, min := start.window, After(start, values).minValue;
      AtMostAll(min, values, |values| - (w + 1)) && OneOf(min, values, |values| - 2 * w)
  {
    AlwaysTracks(start, values);
    var t := After(start, values);
    var i :| 0 <= i < t.minIndex + 1 && t.minIndex - t.window <= i && values[..t.minIndex + 1][i] == t.minValue;
    assert values[i] == t.minValue;
  }

  function Ramp(n: nat): (r: seq<int>)
    ensures |r| == n && forall i :: 0 <= i < n ==> r[i] == i
  {
    seq(n, i => i)
  }

  lemma {:induction false} RampTracked(start: Tracker, n: nat)
    requires start.window >= 1 && 1 <= n <= 2 * start.window + 1
    ensures var w, t := start.window, After(start, Ramp(n));
      && t.count == n && t.window == w
      && t.minIndex == (if n <= w then 0 else if n <= 2 * w then w else 2 * w)
      && t.minValue == (if n <= 2 * w then 0 else w)
      && t.backup == t.minIndex
  {
    assert Ramp(n)[..n - 1] == Ramp(n - 1);
    if n > 1 {
      RampTracked(start, n - 1);
    }
  }

  /** Both bounds are tight for every window: on a ramp the minimum is once the oldest of the
      last `2 * w` values, and one push later it misses the value `w + 2` back. */
  lemma SandwichIsTight(start: Tracker)
    requires start.window >= 1
    ensures var w := start.window;
      && !OneOf(After(start, Ramp(2 * w)).minValue, Ramp(2 * w), |Ramp(2 * w)| - (2 * w - 1))
      && !AtMostAll(After(start, Ramp(2 * w + 1)).minValue, Ramp(2 * w + 1), |Ramp(2 * w + 1)| - (w + 2))
  {
    var w := start.window;
    RampTracked(start, 2 * w);
    RampTracked(start, 2 * w + 1);
    assert Ramp(2 * w + 1)[w - 1] == w - 1;
  }

  // ---------------------------------------------------------------------------
  // Time stamps
  // ---------------------------------------------------------------------------

  const MAX_SKEW_NS := 100_000_000
  const STAMP_WINDOW := 200
  const NS_PER_MS := 1_000_000

  /** The sensor sends its clock in milliseconds; the host adds its own time on arrival. */
  datatype Sample = Sample(localNs: int, hardwareMs: nat) {
    function Offset(): int { localNs - hardwareMs * NS_PER_MS }
  }

  function Stamped(t: Tracker, s: Sample): (Tracker, int) {
    var pushed := Pushed(t, s.Offset());
    var synchronized := pushed.minValue + s.hardwareMs * NS_PER_MS;
    if synchronized > s.localNs + MAX_SKEW_NS || synchronized < s.localNs - MAX_SKEW_NS then
      (pushed.(count := 0), s.localNs)
    else
      (pushed, synchronized)
  }

  class StampMaker {
    var useHardwareTime: bool
    const timeSync: CircleMinTracker

    constructor (useHardwareTime: bool)
      ensures this.useHardwareTime == useHardwareTime && fresh(timeSync)
      ensures timeSync.View() == Tracker(STAMP_WINDOW, 0, 0, 0, 0)
    {
      this.useHardwareTime := useHardwareTime;
      timeSync := new CircleMinTracker(STAMP_WINDOW);
    }

    /** A stamp is never later than the sample's arrival and never more than the allowed skew
        before it. */
    method MakeStamp(s: Sample) returns (stamp: int)
      modifies timeSync
      ensures s.localNs - MAX_SKEW_NS <= stamp <= s.localNs
      ensures !useHardwareTime ==> stamp == s.localNs && timeSync.View() == old(timeSync.View())
      ensures useHardwareTime ==> (timeSync.View(), stamp) == Stamped(old(timeSync.View()), s)
    {
      if !useHardwareTime {
        return s.localNs;
      }
      var sensorNs := s.hardwareMs * NS_PER_MS;
      timeSync.PushBack(s.localNs - sensorNs);
      var synchronized := timeSync.GetMin() + sensorNs;
      if synchronized > s.localNs + MAX_SKEW_NS || synchronized < s.localNs - MAX_SKEW_NS {
        timeSync.Reset();
        return s.localNs;
      }
      return synchronized;
    }
  }

  /** The minimum just pushed to is at most the sample's own offset, so the stamp is never ahead of
      the arrival: only the backward half of the skew test can reject. */
  lemma NeverAhead(t: Tracker, s: Sample)
    ensures var synchronized := Pushed(t, s.Offset()).minValue + s.hardwareMs * NS_PER_MS;
      && synchronized <= s.localNs
      && (Stamped(t, s).0.count == 0 <==> synchronized < s.localNs - MAX_SKEW_NS)
  {
  }

  /** A run of samples: where the tracker was last reset, and the offsets pushed since. */
  datatype History = History(base: Tracker, offsets: seq<int>) {
    function Current(): Tracker { After(base, offsets) }
  }

  function NextHistory(h: History, s: Sample): History {
    var after := Stamped(h.Current(), s).0;
    if after.count == 0 then History(after, []) else History(h.base, h.offsets + [s.Offset()])
  }

  function HistoryOf(start: Tracker, samples: seq<Sample>): History {
    if samples == [] then History(start, [])
    else NextHistory(HistoryOf(start, samples[..|samples| - 1]), samples[|samples| - 1])
  }

  /** The tracker, stamped one sample after the other. */
  function TrackerAfter(start: Tracker, samples: seq<Sample>): Tracker {
    if samples == [] then start.(count := 0)
    else Stamped(TrackerAfter(start, samples[..|samples| - 1]), samples[|samples| - 1]).0
  }

  lemma AfterSnoc(base: Tracker, offsets: seq<int>, offset: int)
    ensures After(base, offsets + [offset]) == Pushed(After(base, offsets), offset)
  {
    assert (offsets + [offset])[..|offsets|] == offsets;
  }

  lemma {:induction false} HistoryIsTheTracker(start: Tracker, samples: seq<Sample>)
    ensures HistoryOf(start, samples).Current() == TrackerAfter(start, samples)
    ensures HistoryOf(start, samples).base.window == start.window
    ensures TrackerAfter(start, samples).window == start.window
  {
    if samples == [] {
    } else {
      var last := |samples| - 1;
      HistoryIsTheTracker(start, samples[..last]);
      var h := HistoryOf(start, samples[..last]);
      AfterSnoc(h.base, h.offsets, samples[last].Offset());
    }
  }

  /** Whole runs of stamps. After any run of samples, the next stamp is the arrival time, with a
      reset, exactly when the tracked minimum lies too far behind; otherwise it is the sensor's
      time moved by an offset that is at most each of the last `w + 1` offsets since the last
      reset and one of the last `2 * w`. */
  lemma StampsFollowTheSensor(start: Tracker, samples: seq<Sample>, s: Sample)
    requires start.window >= 1
    ensures var h := HistoryOf(start, samples);
      var offsets := h.offsets + [s.Offset()];
      var (after, stamp) := Stamped(TrackerAfter(start, samples), s);
      var offset := After(h.base, offsets).minValue;
      && AtMostAll(offset, offsets, |offsets| - (start.window + 1))
      && OneOf(offset, offsets, |offsets| - 2 * start.window)
      && (after.count == 0 <==> offset < s.Offset() - MAX_SKEW_NS)
      && stamp == (if after.count == 0 then s.localNs else s.hardwareMs * NS_PER_MS + offset)
  {
    HistoryIsTheTracker(start, samples);
    var h := HistoryOf(start, samples);
    AfterSnoc(h.base, h.offsets, s.Offset());
    MinIsSandwiched(h.base, h.offsets + [s.Offset()]);
    NeverAhead(h.Current(), s);
  }
}
