/**
 * The small pure helpers the dashboard uses around the tracking core
 * (app/page.tsx): transport modes and the speed gauge, the compass rose, the
 * map's zoom and style controls, the path-marker subsampling and the speed
 * and GPS-accuracy colour buckets.
 */
module Display {
  import opened Wrappers
  import Format
  import opened Arith

  /** `TransportMode` with the nominal maximum speeds of `transportModes`. */
  datatype TransportMode = Walking | Running | Car | Train | Flight

  function ModeMaxSpeed(m: TransportMode): real
  {
    match m
    case Walking => 8.0
    case Running => 25.0
    case Car => 200.0
    case Train => 300.0
    case Flight => 900.0
  }

  /** `getSpeedPercentage(speed, currentMode.maxSpeed)`: the gauge fill, capped at 100. */
  function SpeedPercentage(speed: real, mode: TransportMode): (r: real)
    ensures r <= 100.0
    ensures speed >= 0.0 ==> r >= 0.0
  {
    Min((speed / ModeMaxSpeed(mode)) * 100.0, 100.0)
  }

  /**
   * The gauge is full exactly at or above the mode's maximum, proportional
   * below it, never above 100, non-negative for a non-negative speed, and it
   * never drops when the speed rises.
   */
  lemma SpeedPercentageScale(speed: real, speed': real, mode: TransportMode)
    ensures SpeedPercentage(speed, mode) <= 100.0
    ensures SpeedPercentage(speed, mode) == 100.0 <==> speed >= ModeMaxSpeed(mode)
    ensures speed < ModeMaxSpeed(mode) ==> SpeedPercentage(speed, mode) * ModeMaxSpeed(mode) == speed * 100.0
    ensures speed >= 0.0 ==> SpeedPercentage(speed, mode) >= 0.0
    ensures speed <= speed' ==> SpeedPercentage(speed, mode) <= SpeedPercentage(speed', mode)
  {
    var m := ModeMaxSpeed(mode);
    assert (speed / m) * 100.0 == speed * 100.0 / m;
    assert (speed' / m) * 100.0 == speed' * 100.0 / m;
    assert speed >= m <==> speed * 100.0 / m >= 100.0;
  }

  /** The sixteen compass points, clockwise from north. */
  const Directions: seq<string> := ["N", "NNE", "NE", "ENE", "E", "ESE", "SE", "SSE",
                                    "S", "SSW", "SW", "WSW", "W", "WNW", "NW", "NNW"]

  /** `Math.round(heading / 22.5) % 16`, with JavaScript's truncating `%`. */
  function CompassIndex(heading: real): int
  {
    Format.JsRem(Round(heading / 22.5), 16)
  }

  /** `getCompassDirection`: the point at that index, or nothing (`undefined`) for a negative index. */
  function CompassDirection(heading: real): (r: Option<string>)
    ensures heading >= 0.0 ==> r.Some?
  {
    var i := CompassIndex(heading);
    if 0 <= i < 16 then Some(Directions[i]) else None
  }

  /**
   * For a heading in [0, 360) the direction is the compass point whose
   * 22.5-degree sector holds the heading: sector k spans
   * [22.5k - 11.25, 22.5k + 11.25), and north also takes [348.75, 360).
   */
  lemma CompassSector(heading: real, k: int)
    requires 0.0 <= heading < 360.0 && 0 <= k < 16
    requires 22.5 * k as real - 11.25 <= heading < 22.5 * k as real + 11.25
          || (k == 0 && heading >= 348.75)
    ensures CompassDirection(heading) == Some(Directions[k])
  {
    var x := heading / 22.5 + 0.5;
    assert heading == (x - 0.5) * 22.5;
    if 22.5 * k as real - 11.25 <= heading < 22.5 * k as real + 11.25 {
      assert k as real <= x < k as real + 1.0;
      assert Round(heading / 22.5) == k;
    } else {
      assert 16.0 <= x < 17.0;
      assert Round(heading / 22.5) == 16;
    }
  }

  /** A heading of at least 0 always names a point, and a full turn names the same one. */
  lemma CompassPeriodic(heading: real)
    requires heading >= 0.0
    ensures CompassDirection(heading).Some?
    ensures CompassDirection(heading + 360.0) == CompassDirection(heading)
  {
    var x := heading / 22.5 + 0.5;
    assert (heading + 360.0) / 22.5 + 0.5 == x + 16.0;
    assert (x + 16.0).Floor == x.Floor + 16;
    assert x.Floor >= 0;
    assert (x.Floor + 16) % 16 == x.Floor % 16;
  }

  /** The zoom-in and zoom-out buttons: `Math.min(18, zoom + 1)` and `Math.max(10, zoom - 1)`. */
  function ZoomIn(zoom: int): int
  {
    if zoom + 1 <= 18 then zoom + 1 else 18
  }

  function ZoomOut(zoom: int): int
  {
    if zoom - 1 >= 10 then zoom - 1 else 10
  }

  /**
   * Both buttons keep a zoom level in [10, 18] inside it, each undoes the
   * other away from the limits, and at a limit the button is a no-op.
   */
  lemma ZoomStaysInRange(zoom: int)
    requires 10 <= zoom <= 18
    ensures 10 <= ZoomIn(zoom) <= 18 && 10 <= ZoomOut(zoom) <= 18
    ensures zoom < 18 ==> ZoomOut(ZoomIn(zoom)) == zoom
    ensures zoom > 10 ==> ZoomIn(ZoomOut(zoom)) == zoom
    ensures ZoomIn(18) == 18 && ZoomOut(10) == 10
  {
  }

  /** The ids of `mapStyles`, in order. */
  const MapStyleIds: seq<string> := ["standard", "satellite", "terrain"]

  /** `findIndex`: the first position holding `x`, or -1. */
  function FindIndex(s: seq<string>, x: string): (i: int)
    ensures -1 <= i < |s|
    ensures i == -1 <==> x !in s
    ensures i >= 0 ==> s[i] == x && x !in s[..i]
  {
    if s == [] then -1
    else if s[0] == x then 0
    else
      var j := FindIndex(s[1..], x);
      assert j >= 0 ==> s[..j + 1] == [s[0]] + s[1..][..j];
      if j == -1 then -1 else j + 1
  }

  /** The layers button: the style after the current one, cyclically. */
  function NextMapStyle(style: string): string
  {
    MapStyleIds[(FindIndex(MapStyleIds, style) + 1) % |MapStyleIds|]
  }

  /**
   * The button always lands on a known style; from an unknown id it goes to
   * the first ("standard"); three presses bring any known style back.
   */
  lemma MapStylesCycle(style: string)
    ensures NextMapStyle(style) in MapStyleIds
    ensures style !in MapStyleIds ==> NextMapStyle(style) == "standard"
    ensures style in MapStyleIds ==> NextMapStyle(NextMapStyle(NextMapStyle(style))) == style
  {
    var s := MapStyleIds;
    assert FindIndex(s, "standard") == 0;
    assert FindIndex(s, "satellite") == 1 by { assert s[1..][0] == "satellite"; }
    assert FindIndex(s, "terrain") == 2 by { assert s[1..][1..][0] == "terrain"; }
  }

  /** The spacing of the speed markers drawn along the path: `Math.max(1, Math.floor(n / 8))`. */
  function MarkerStep(n: nat): nat
  {
    if n / 8 >= 1 then n / 8 else 1
  }

  /** The points at positions `i`, `i + 1`, ... of `path` whose position is a multiple of `step`. */
  function EveryNth<T>(path: seq<T>, step: nat, i: nat): (r: seq<T>)
    requires step >= 1 && i <= |path|
    ensures |r| <= |path| - i
    ensures forall x :: x in r ==> x in path[i..]
    decreases |path| - i
  {
    if i == |path| then []
    else (if i % step == 0 then [path[i]] else []) + EveryNth(path, step, i + 1)
  }

  /** `journeyPath.filter((_, index) => index % step === 0)`. */
  function PathMarkers<T>(path: seq<T>): (r: seq<T>)
    ensures |r| <= |path| && forall x :: x in r ==> x in path
    ensures path != [] ==> r != [] && r[0] == path[0]
  {
    EveryNth(path, MarkerStep(|path|), 0)
  }

  /** A multiple of `b` plus a remainder below `b` leaves that remainder. */
  lemma MultiplePlus(i: nat, b: nat, r: nat)
    requires b >= 1 && i % b == 0 && r < b
    ensures (i + r) % b == r
  {
    var c := i / b;
    assert i == c * b;
    var a := i + r;
    var q, m := a / b, a % b;
    assert a == q * b + m;
    if q > c {
      MulMono(c + 1, q, b);
      assert false;
    } else if q < c {
      MulMono(q + 1, c, b);
      assert false;
    }
  }

  /** Positions strictly between two multiples of `step` are skipped. */
  lemma {:induction false} SkipToNextMultiple<T>(path: seq<T>, step: nat, i: nat, j: nat, e: nat)
    requires step >= 1 && i % step == 0 && i < j <= e <= |path| && e <= i + step
    ensures EveryNth(path, step, j) == EveryNth(path, step, e)
    decreases e - j
  {
    if j < e {
      MultiplePlus(i, step, j - i);
      SkipToNextMultiple(path, step, i, j + 1, e);
    }
  }

  /** The reference subsampling: the point at `i`, then every `step`-th point after it. */
  function Strided<T>(path: seq<T>, step: nat, i: nat): seq<T>
    requires step >= 1
    decreases |path| - i
  {
    if i >= |path| then [] else [path[i]] + Strided(path, step, i + step)
  }

  /** From a multiple of `step` on, the index filter picks exactly the strided points. */
  lemma {:induction false} EveryNthIsStrided<T>(path: seq<T>, step: nat, i: nat)
    requires step >= 1 && i % step == 0 && i <= |path|
    ensures EveryNth(path, step, i) == Strided(path, step, i)
    decreases |path| - i
  {
    var n := |path|;
    if i < n {
      var next := i + step;
      var e := if next <= n then next else n;
      SkipToNextMultiple(path, step, i, i + 1, e);
      if next <= n {
        assert next % step == 0 by { MultiplePlus(i, step, 0); MultipleStep(i, step); }
        EveryNthIsStrided(path, step, next);
      }
    }
  }

  lemma MultipleStep(i: nat, b: nat)
    requires b >= 1 && i % b == 0
    ensures (i + b) % b == 0
  {
    var c := i / b;
    assert i == c * b;
    MulSucc(c, b);
    var a := (c + 1) * b;
    var q, m := a / b, a % b;
    assert a == q * b + m;
    if q > c + 1 {
      MulMono(c + 2, q, b);
      assert false;
    } else if q < c + 1 {
      MulMono(q + 1, c + 1, b);
      assert false;
    }
  }

  /**
   * The strided points from `i` are `path[i + k * step]` for k = 0, 1, ...,
   * the last one inside the path and the next one past its end.
   */
  lemma {:induction false} StridedPicks<T>(path: seq<T>, step: nat, i: nat)
    requires step >= 1
    ensures var m := Strided(path, step, i);
      && (m == [] <==> i >= |path|)
      && (m != [] ==> i + (|m| - 1) * step < |path| <= i + |m| * step)
      && forall k :: 0 <= k < |m| ==> i + k * step < |path| && m[k] == path[i + k * step]
    decreases |path| - i
  {
    if i < |path| {
      var rest := Strided(path, step, i + step);
      StridedPicks(path, step, i + step);
      var m := Strided(path, step, i);
      MulSucc(|rest|, step);
      if rest != [] { MulSucc(|rest| - 1, step); }
      forall k | 0 <= k < |m| ensures i + k * step < |path| && m[k] == path[i + k * step] {
        if k > 0 {
          MulSucc(k - 1, step);
          assert m[k] == rest[k - 1];
        }
      }
    }
  }

  /**
   * The markers are the strided points of the path: positions 0, step,
   * 2*step, ... and all of those inside the path. The first point is always
   * one, and there are never more markers than points, nor more than 15.
   */
  lemma PathMarkersSubsample<T>(path: seq<T>)
    ensures var m := PathMarkers(path); var step := MarkerStep(|path|);
      && m == Strided(path, step, 0)
      && |m| * step >= |path| && |m| <= |path| && |m| <= 15
      && (path != [] ==> m[0] == path[0])
      && forall k :: 0 <= k < |m| ==> k * step < |path| && m[k] == path[k * step]
  {
    var n, step := |path|, MarkerStep(|path|);
    EveryNthIsStrided(path, step, 0);
    StridedPicks(path, step, 0);
    var m := PathMarkers(path);
    if |m| > 0 {
      var k := |m| - 1;
      assert k * step < n;
      MulMono(1, step, k);
      if n >= 8 && |m| >= 16 {
        MulMono(15, k, step);
        assert false;
      }
    }
  }

  /** The marker colour bands: above 50 km/h, above 20 km/h, otherwise. */
  datatype SpeedBand = Fast | Moderate | Slow

  function SpeedBandOf(speed: real): SpeedBand
  {
    if speed > 50.0 then Fast else if speed > 20.0 then Moderate else Slow
  }

  /** The colour of a band in the light and the dark theme. */
  function SpeedColor(speed: real, darkMode: bool): string
  {
    match SpeedBandOf(speed)
    case Fast => if darkMode then "#f87171" else "#ef4444"
    case Moderate => if darkMode then "#fcd34d" else "#facc15"
    case Slow => if darkMode then "#34d399" else "#10b981"
  }

  function BandRank(b: SpeedBand): nat
  {
    match b
    case Slow => 0
    case Moderate => 1
    case Fast => 2
  }

  /**
   * The bands have strict lower bounds and are ordered by speed; within a
   * theme different bands get different colours.
   */
  lemma SpeedBandsOrdered(speed: real, speed': real, darkMode: bool)
    ensures SpeedBandOf(speed) == Fast <==> speed > 50.0
    ensures SpeedBandOf(speed) == Slow <==> speed <= 20.0
    ensures speed <= speed' ==> BandRank(SpeedBandOf(speed)) <= BandRank(SpeedBandOf(speed'))
    ensures SpeedColor(speed, darkMode) == SpeedColor(speed', darkMode) <==> SpeedBandOf(speed) == SpeedBandOf(speed')
  {
  }

  /** The GPS status dot: green below 10 m, yellow below 20 m, red otherwise or with no (or a zero) value. */
  datatype AccuracyBand = Good | Fair | Poor

  function AccuracyBandOf(gpsAccuracy: Option<real>): AccuracyBand
  {
    if gpsAccuracy.Some? && gpsAccuracy.value != 0.0 && gpsAccuracy.value < 10.0 then Good
    else if gpsAccuracy.Some? && gpsAccuracy.value != 0.0 && gpsAccuracy.value < 20.0 then Fair
    else Poor
  }

  function AccuracyRank(b: AccuracyBand): nat
  {
    match b
    case Poor => 0
    case Fair => 1
    case Good => 2
  }

  /**
   * A worse (larger) positive accuracy radius never gets a better colour,
   * and a missing reading is always red.
   */
  lemma AccuracyBandsOrdered(a: real, a': real)
    requires 0.0 < a <= a'
    ensures AccuracyRank(AccuracyBandOf(Some(a'))) <= AccuracyRank(AccuracyBandOf(Some(a)))
    ensures AccuracyBandOf(Some(a)) == Good <==> a < 10.0
    ensures AccuracyBandOf(Some(a)) == Poor <==> a >= 20.0
    ensures AccuracyBandOf(None) == Poor
  {
  }
}
