/**
 * Coordinates, the great-circle distance used by the tracker, and the
 * per-sample speed derivation of the location-watch callback
 * (app/page.tsx, calculateDistance and lines 234-240).
 */
module Geo {
  import opened Wrappers

  /** A latitude/longitude pair, in degrees. */
  datatype Coordinate = Coordinate(lat: real, lng: real)

  /** The remembered last position: a coordinate and the time (ms) it was taken. */
  datatype Fix = Fix(pos: Coordinate, timestamp: int)

  /**
   * The distance function in kilometres. The haversine formula itself is
   * trigonometry and is not modelled; all the tracker relies on is that a
   * distance is never negative and that a point is at distance 0 from itself.
   */
  type Metric = d: (Coordinate, Coordinate) -> real
    | forall a, b :: d(a, b) >= 0.0 && d(a, a) == 0.0
    witness (a: Coordinate, b: Coordinate) => 0.0

  /** JavaScript truthiness of an optional number (`null` and `0` are falsy). */
  predicate Truthy(x: Option<real>)
  {
    x.Some? && x.value != 0.0
  }

  /** Seconds between a fix and a later timestamp in ms, as `(t - last.timestamp) / 1000`. */
  function ElapsedSeconds(last: Fix, now: int): real
  {
    (now - last.timestamp) as real / 1000.0
  }

  /**
   * `calculatedSpeed` in km/h: a truthy reported speed (m/s) times 3.6;
   * otherwise, with a last fix, distance over elapsed time, or 0 when no
   * time has elapsed; otherwise 0.
   */
  function DerivedSpeed(reported: Option<real>, last: Option<Fix>, pos: Coordinate, now: int, d: Metric): (r: real)
    ensures r < 0.0 ==> Truthy(reported) && reported.value < 0.0
  {
    if Truthy(reported) then reported.value * 3.6
    else if last.None? then 0.0
    else
      var timeDiff := ElapsedSeconds(last.value, now);
      if timeDiff > 0.0 then (d(last.value.pos, pos) / timeDiff) * 3600.0 else 0.0
  }

  /**
   * Without a usable reported speed, the derived speed is the one that covers
   * the measured distance in the elapsed time: speed (km/h) times elapsed
   * hours gives back the distance (km).
   */
  lemma DerivedSpeedCoversDistance(reported: Option<real>, last: Fix, pos: Coordinate, now: int, d: Metric)
    requires !Truthy(reported) && now > last.timestamp
    ensures DerivedSpeed(reported, Some(last), pos, now, d) * ElapsedSeconds(last, now) / 3600.0
            == d(last.pos, pos)
  {
  }

  /**
   * The derived speed is negative only when the location provider itself
   * reported a negative speed, and it is 0 whenever there is no truthy
   * reported speed and no time has passed since the last fix (or there is no
   * last fix at all).
   */
  lemma DerivedSpeedSign(reported: Option<real>, last: Option<Fix>, pos: Coordinate, now: int, d: Metric)
    ensures DerivedSpeed(reported, last, pos, now, d) < 0.0 ==> Truthy(reported) && reported.value < 0.0
    ensures !Truthy(reported) && (last.None? || now <= last.value.timestamp)
            ==> DerivedSpeed(reported, last, pos, now, d) == 0.0
    ensures Truthy(reported) ==> DerivedSpeed(reported, last, pos, now, d) == reported.value * 3.6
  {
  }

  /** A reported speed of exactly 0 is treated like a missing one. */
  lemma ZeroReportedSpeedIsIgnored(last: Option<Fix>, pos: Coordinate, now: int, d: Metric)
    ensures DerivedSpeed(Some(0.0), last, pos, now, d) == DerivedSpeed(None, last, pos, now, d)
  {
  }

  /** Standing still (same coordinate as the last fix) gives speed 0 unless a speed is reported. */
  lemma StandingStillIsZero(reported: Option<real>, last: Fix, now: int, d: Metric)
    requires !Truthy(reported)
    ensures DerivedSpeed(reported, Some(last), last.pos, now, d) == 0.0
  {
  }
}
