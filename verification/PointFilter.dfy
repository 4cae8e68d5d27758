/** The trailing-point filter of the Oradar driver: a sweep that zeroes distances in place while
    reading from a copy. The trigonometric test of two distances is a parameter. */
module PointFilter {

  type Distance = d: int | 0 <= d < 0x1_0000

  const HALF_WINDOW := 3
  const NEAR_LIMIT := 500

  datatype Settings = Settings(neighbors: nat, threshold: nat, abnormal: nat)

  predicate KnownSpeed(motorSpeed: nat) {
    motorSpeed == 10 || motorSpeed == 15 || motorSpeed == 20 || motorSpeed == 25 || motorSpeed == 30
  }

  /** Whether the sweep runs at all. */
  predicate Active(level: nat, motorSpeed: nat, count: nat) {
    count >= 2 * HALF_WINDOW + 1 && level != 0 && KnownSpeed(motorSpeed)
  }

  function SettingsFor(level: nat, motorSpeed: nat): Settings
    requires KnownSpeed(motorSpeed)
  {
    var abnormal := match motorSpeed case 10 => 15 case 15 => 30 case 20 => 25 case 25 => 35 case _ => 40;
    match level
    case 1 => Settings(0, 4, abnormal)
    case 2 => Settings(0, 3, abnormal)
    case 3 => Settings(0, 3, abnormal)
    case 4 => Settings(1, 3, abnormal)
    case 5 => Settings(1, 3, abnormal)
    case _ => Settings(0, 0, abnormal)
  }

  // ---------------------------------------------------------------------------
  // Specification, point by point
  // ---------------------------------------------------------------------------

  function Gap(a: Distance, b: Distance): nat { if a > b then a - b else b - a }

  /** Points `lo..hi` whose line to the centre is too flat. */
  function Flat(flat: (Distance, Distance) -> bool, points: seq<Distance>, centre: Distance, lo: nat, hi: nat): nat
    requires lo <= hi <= |points|
  {
    if lo == hi then 0
    else Flat(flat, points, centre, lo, hi - 1) + if flat(centre, points[hi - 1]) then 1 else 0
  }

  predicate IsCentre(points: seq<Distance>, i: nat) { HALF_WINDOW <= i < |points| - HALF_WINDOW }

  predicate Smooth(settings: Settings, points: seq<Distance>, i: nat)
    requires IsCentre(points, i)
  {
    && Gap(points[i], points[i + 1]) < settings.abnormal
    && Gap(points[i], points[i - 1]) < settings.abnormal
    && points[i] > NEAR_LIMIT
  }

  function LeftCount(flat: (Distance, Distance) -> bool, points: seq<Distance>, i: nat): nat
    requires IsCentre(points, i)
  {
    Flat(flat, points, points[i], i - HALF_WINDOW, i)
  }

  function RightCount(flat: (Distance, Distance) -> bool, points: seq<Distance>, i: nat): nat
    requires IsCentre(points, i)
  {
    Flat(flat, points, points[i], i + 1, i + HALF_WINDOW + 1)
  }

  /** A centre taken for a trailing or noise point. */
  predicate Trailing(settings: Settings, flat: (Distance, Distance) -> bool, points: seq<Distance>, i: nat) {
    && IsCentre(points, i)
    && !Smooth(settings, points, i)
    && points[i] != 0
    && (LeftCount(flat, points, i) >= settings.threshold || RightCount(flat, points, i) >= settings.threshold)
  }

  predicate Reaches(settings: Settings, i: nat, j: nat) {
    i - settings.neighbors <= j <= i + settings.neighbors
  }

  /** Some trailing centre below `bound` reaches `j`. */
  predicate Zeroed(settings: Settings, flat: (Distance, Distance) -> bool, points: seq<Distance>, j: nat, bound: nat) {
    exists i :: 0 <= i < bound && Trailing(settings, flat, points, i) && Reaches(settings, i, j)
  }

  /** What the filter leaves at `j`. */
  function Filtered(level: nat, motorSpeed: nat, flat: (Distance, Distance) -> bool, points: seq<Distance>, j: nat)
    : Distance
    requires j < |points|
  {
    if Active(level, motorSpeed, |points|) && Zeroed(SettingsFor(level, motorSpeed), flat, points, j, |points|) then 0
    else points[j]
  }

  // ---------------------------------------------------------------------------
  // The sweep
  // ---------------------------------------------------------------------------

  /** The inner loop at one centre: stops as soon as a side has enough flat points. */
  method IsTrailing(settings: Settings, flat: (Distance, Distance) -> bool, points: seq<Distance>, i: nat)
    returns (trailing: bool)
    requires IsCentre(points, i)
    ensures trailing <==>
      points[i] != 0 &&
      (LeftCount(flat, points, i) >= settings.threshold || RightCount(flat, points, i) >= settings.threshold)
  {
    var centre := points[i];
    var left, right := 0, 0;
    trailing := false;
    for pos := i - HALF_WINDOW to i + HALF_WINDOW + 1
      invariant !trailing
      invariant left == Flat(flat, points, centre, i - HALF_WINDOW, if pos <= i then pos else i) || centre == 0
      invariant right == (if pos <= i then 0 else Flat(flat, points, centre, i + 1, pos)) || centre == 0
      invariant pos > i - HALF_WINDOW && centre != 0 ==> left < settings.threshold && right < settings.threshold
    {
      if pos == i || centre == 0 {
        continue;
      }
      if flat(centre, points[pos]) {
        if pos < i {
          left := left + 1;
        } else {
          right := right + 1;
        }
      }
      if left >= settings.threshold || right >= settings.threshold {
        if pos < i {
          FlatGrows(flat, points, centre, i - HALF_WINDOW, pos + 1, i);
        } else {
          FlatGrows(flat, points, centre, i + 1, pos + 1, i + HALF_WINDOW + 1);
        }
        return true;
      }
    }
  }

  lemma {:induction false} FlatGrows(
      flat: (Distance, Distance) -> bool, points: seq<Distance>, centre: Distance, lo: nat, middle: nat, hi: nat)
    requires lo <= middle <= hi <= |points|
    ensures Flat(flat, points, centre, lo, middle) <= Flat(flat, points, centre, lo, hi)
    ensures Flat(flat, points, centre, lo, hi) <= hi - lo
    decreases hi
  {
    if middle < hi {
      FlatGrows(flat, points, centre, lo, middle, hi - 1);
    } else if lo < hi {
      FlatGrows(flat, points, centre, lo, hi - 1, hi - 1);
    }
  }

  /** The centre and its neighbours. */
  method ZeroAround(distances: array<Distance>, i: nat, neighbors: nat)
    requires neighbors <= i < distances.Length - neighbors
    modifies distances
    ensures forall j :: 0 <= j < distances.Length ==>
      distances[j] == if i - neighbors <= j <= i + neighbors then 0 else old(distances[j])
  {
    for num := -(neighbors as int) to neighbors + 1
      invariant forall j :: 0 <= j < distances.Length ==>
        distances[j] == if i - neighbors <= j < i + num then 0 else old(distances[j])
    {
      distances[i + num] := 0;
    }
  }

  method PointCloudFilter(level: nat, motorSpeed: nat, flat: (Distance, Distance) -> bool, distances: array<Distance>)
    modifies distances
    ensures forall j :: 0 <= j < distances.Length ==>
      distances[j] == Filtered(level, motorSpeed, flat, old(distances[..]), j)
  {
    var count := distances.Length;
    if count < 2 * HALF_WINDOW + 1 {
      return;
    }
    if level == 0 {
      return;
    }
    if !KnownSpeed(motorSpeed) {
      return;
    }
    var points := distances[..];
    var settings := SettingsFor(level, motorSpeed);
    for i := HALF_WINDOW to count - HALF_WINDOW
      invariant forall j :: 0 <= j < count ==>
        distances[j] == if Zeroed(settings, flat, points, j, i) then 0 else points[j]
    {
      if Gap(points[i], points[i + 1]) < settings.abnormal && Gap(points[i], points[i - 1]) < settings.abnormal {
        if points[i] > NEAR_LIMIT {
          ZeroedStep(settings, flat, points, i);
          continue;
        }
      }
      var trailing := IsTrailing(settings, flat, points, i);
      ZeroedStep(settings, flat, points, i);
      if trailing {
        ZeroAround(distances, i, settings.neighbors);
      }
    }
    forall j | 0 <= j < count
      ensures Zeroed(settings, flat, points, j, count) <==> Zeroed(settings, flat, points, j, count - HALF_WINDOW)
    {
    }
  }

  lemma ZeroedStep(settings: Settings, flat: (Distance, Distance) -> bool, points: seq<Distance>, i: nat)
    ensures forall j: nat ::
      var here := Trailing(settings, flat, points, i) && Reaches(settings, i, j);
      Zeroed(settings, flat, points, j, i + 1) == (Zeroed(settings, flat, points, j, i) || here)
  {
  }

  // ---------------------------------------------------------------------------
  // What the settings mean
  // ---------------------------------------------------------------------------

  /** Level 1 asks for four flat points on a side that has three: it never filters anything. */
  lemma LevelOneFiltersNothing(motorSpeed: nat, flat: (Distance, Distance) -> bool, points: seq<Distance>, j: nat)
    requires j < |points|
    ensures Filtered(1, motorSpeed, flat, points, j) == points[j]
  {
    forall i: nat | IsCentre(points, i) ensures LeftCount(flat, points, i) <= 3 && RightCount(flat, points, i) <= 3 {
      FlatGrows(flat, points, points[i], i - HALF_WINDOW, i, i);
      FlatGrows(flat, points, points[i], i + 1, i + HALF_WINDOW + 1, i + HALF_WINDOW + 1);
    }
  }

  /** Levels 2 to 5 take a centre for trailing when all three points of a side are flat. */
  lemma LevelsTwoToFiveNeedAWholeSide(
      level: nat, motorSpeed: nat, flat: (Distance, Distance) -> bool, points: seq<Distance>, i: nat)
    requires 2 <= level <= 5 && KnownSpeed(motorSpeed)
    ensures var settings := SettingsFor(level, motorSpeed);
      Trailing(settings, flat, points, i) <==>
        && IsCentre(points, i) && !Smooth(settings, points, i) && points[i] != 0
        && (AllFlat(flat, points, points[i], i - HALF_WINDOW) || AllFlat(flat, points, points[i], i + 1))
  {
    if IsCentre(points, i) {
      ThreeFlat(flat, points, points[i], i - HALF_WINDOW);
      ThreeFlat(flat, points, points[i], i + 1);
    }
  }

  predicate AllFlat(flat: (Distance, Distance) -> bool, points: seq<Distance>, centre: Distance, lo: nat)
    requires lo + HALF_WINDOW <= |points|
  {
    flat(centre, points[lo]) && flat(centre, points[lo + 1]) && flat(centre, points[lo + 2])
  }

  lemma ThreeFlat(flat: (Distance, Distance) -> bool, points: seq<Distance>, centre: Distance, lo: nat)
    requires lo + HALF_WINDOW <= |points|
    ensures Flat(flat, points, centre, lo, lo + HALF_WINDOW) >= 3 <==> AllFlat(flat, points, centre, lo)
  {
    assert Flat(flat, points, centre, lo, lo + 1) == if flat(centre, points[lo]) then 1 else 0;
  }

  /** How far a distance must stand out from one of its neighbours, by motor speed. */
  function Limit(motorSpeed: nat): nat {
    if motorSpeed == 10 then 15 else if motorSpeed == 15 then 30 else if motorSpeed == 20 then 25
    else if motorSpeed == 25 then 35 else 40
  }

  /** Three points on either side; a distance that is not zero; and it is near, or stands out from a
      neighbour. */
  predicate Suspect(points: seq<Distance>, i: nat, limit: nat) {
    && 3 <= i < |points| - 3 && points[i] != 0
    && (points[i] <= 500
        || points[i] - points[i + 1] >= limit || points[i + 1] - points[i] >= limit
        || points[i] - points[i - 1] >= limit || points[i - 1] - points[i] >= limit)
  }

  predicate Trails(flat: (Distance, Distance) -> bool, points: seq<Distance>, i: nat, limit: nat) {
    && Suspect(points, i, limit)
    && (AllFlat(flat, points, points[i], i - 3) || AllFlat(flat, points, points[i], i + 1))
  }

  /** Levels 2 and 3 zero exactly the suspect points with a side that is flat throughout; levels 4 and
      5 zero their two neighbours as well. */
  lemma LevelsTwoToFiveExactly(
      level: nat, motorSpeed: nat, flat: (Distance, Distance) -> bool, points: seq<Distance>, j: nat)
    requires 2 <= level <= 5 && KnownSpeed(motorSpeed) && j < |points|
    ensures var limit := Limit(motorSpeed);
      var around := Trails(flat, points, j + 1, limit) || (j > 0 && Trails(flat, points, j - 1, limit));
      Filtered(level, motorSpeed, flat, points, j)
        == if Trails(flat, points, j, limit) || (level >= 4 && around) then 0 else points[j]
  {
    var settings := SettingsFor(level, motorSpeed);
    forall i: nat ensures Trailing(settings, flat, points, i) <==> Trails(flat, points, i, Limit(motorSpeed)) {
      LevelsTwoToFiveNeedAWholeSide(level, motorSpeed, flat, points, i);
    }
    if |points| >= 7 {
      ZeroedNearby(settings, flat, points, j);
    }
  }

  /** With at most one neighbour to either side only three centres can reach a point. */
  lemma ZeroedNearby(settings: Settings, flat: (Distance, Distance) -> bool, points: seq<Distance>, j: nat)
    requires settings.neighbors <= 1 && j < |points|
    ensures Zeroed(settings, flat, points, j, |points|) <==>
      || Trailing(settings, flat, points, j)
      || (settings.neighbors == 1
          && (Trailing(settings, flat, points, j + 1) || (j > 0 && Trailing(settings, flat, points, j - 1))))
  {
    assert settings.neighbors == 1 ==> Reaches(settings, j + 1, j) && (j > 0 ==> Reaches(settings, j - 1, j));
    assert Reaches(settings, j, j);
  }

  /** Levels above 5 filter every centre that is neither smooth nor zero, whatever the angles. */
  lemma UnknownLevelsIgnoreAngles(
      level: nat, motorSpeed: nat, flat: (Distance, Distance) -> bool, points: seq<Distance>, j: nat)
    requires level > 5 && Active(level, motorSpeed, |points|) && j < |points|
    ensures Filtered(level, motorSpeed, flat, points, j)
      == if IsCentre(points, j) && !Smooth(SettingsFor(level, motorSpeed), points, j) then 0 else points[j]
  {
    var settings := SettingsFor(level, motorSpeed);
    if IsCentre(points, j) && !Smooth(settings, points, j) && points[j] != 0 {
      assert Trailing(settings, flat, points, j) && Reaches(settings, j, j);
    }
  }

  /** The sweep has no order: what it leaves at a point depends on the original distances of at
      most four points on either side. */
  lemma FilterIsLocal(
      level: nat, motorSpeed: nat, flat: (Distance, Distance) -> bool, s: seq<Distance>, t: seq<Distance>, j: nat)
    requires |s| == |t| && j < |s|
    requires forall k :: 0 <= k < |s| && j - 4 <= k <= j + 4 ==> s[k] == t[k]
    ensures Filtered(level, motorSpeed, flat, s, j) == Filtered(level, motorSpeed, flat, t, j)
  {
    if Active(level, motorSpeed, |s|) {
      var settings := SettingsFor(level, motorSpeed);
      forall i: nat | Reaches(settings, i, j)
        ensures Trailing(settings, flat, s, i) <==> Trailing(settings, flat, t, i)
      {
        if IsCentre(s, i) {
          SameFlat(flat, s, t, s[i], i - HALF_WINDOW, i);
          SameFlat(flat, s, t, s[i], i + 1, i + HALF_WINDOW + 1);
        }
      }
    }
  }

  lemma {:induction false} SameFlat(
      flat: (Distance, Distance) -> bool, s: seq<Distance>, t: seq<Distance>, centre: Distance, lo: nat, hi: nat)
    requires lo <= hi <= |s| == |t|
    requires forall k :: lo <= k < hi ==> s[k] == t[k]
    ensures Flat(flat, s, centre, lo, hi) == Flat(flat, t, centre, lo, hi)
    decreases hi
  {
    if lo < hi {
      SameFlat(flat, s, t, centre, lo, hi - 1);
    }
  }
}
