/**
 * The tracking session of the dashboard component (app/page.tsx): its state
 * and refs as the fields of one object, and the handlers that update them —
 * starting a session, the one-shot initial fix, the location-watch callback
 * that folds each sample into the running aggregates, the 1-second duration
 * ticker, stopping (which records a Journey), and the journey list kept in
 * local storage.
 */
module Tracking {
  import opened Wrappers
  import opened Geo
  import Stats
  import Arith
  import Achievements
  import Display
  import Tiles

  /** One position report of the watch: coordinate and the optional readings. */
  datatype Sample = Sample(
    pos: Coordinate,
    speed: Option<real>,
    accuracy: Option<real>,
    altitude: Option<real>,
    heading: Option<real>)

  /** One recorded point of the path, with the (unclamped) speed derived for it. */
  datatype PathPoint = PathPoint(pos: Coordinate, timestamp: int, speed: real)

  /** The record saved when a session stops. */
  datatype Journey = Journey(
    id: string,
    startTime: int,
    endTime: int,
    startLocation: Coordinate,
    endLocation: Coordinate,
    distance: real,
    maxSpeed: real,
    avgSpeed: real,
    duration: int,
    mode: Display.TransportMode,
    path: seq<PathPoint>)

  /** What local storage holds under a key (the JSON text is not modelled). */
  datatype Stored = JourneyList(journeys: seq<Journey>) | IdList(ids: seq<string>)

  type Storage = map<string, Stored>

  const JourneysKey: string := "speedometer-journeys"
  const AchievementsKey: string := "speedometer-achievements"

  /** `localStorage.setItem` of the whole journey list. */
  function StoreJourneys(st: Storage, journeys: seq<Journey>): Storage
  {
    st[JourneysKey := JourneyList(journeys)]
  }

  /** `localStorage.removeItem` of the journey list. */
  function RemoveJourneys(st: Storage): Storage
  {
    st - {JourneysKey}
  }

  /** The journey list found in storage on load, if any. */
  function LoadedJourneys(st: Storage): Option<seq<Journey>>
  {
    if JourneysKey in st && st[JourneysKey].JourneyList? then Some(st[JourneysKey].journeys) else None
  }

  /**
   * Writing the list and loading it gives the same list back; after removal
   * nothing loads; neither touches any other key.
   */
  lemma StorageRoundTrip(st: Storage, journeys: seq<Journey>, key: string)
    ensures LoadedJourneys(StoreJourneys(st, journeys)) == Some(journeys)
    ensures LoadedJourneys(RemoveJourneys(st)) == None
    ensures key != JourneysKey ==>
      (key in StoreJourneys(st, journeys) <==> key in st) && (key in RemoveJourneys(st) <==> key in st)
      && (key in st ==> StoreJourneys(st, journeys)[key] == st[key] && RemoveJourneys(st)[key] == st[key])
  {
  }

  /** The speeds recorded along a path. */
  function PathSpeeds(path: seq<PathPoint>): (r: seq<real>)
    ensures |r| == |path|
  {
    if path == [] then [] else PathSpeeds(path[..|path| - 1]) + [path[|path| - 1].speed]
  }

  /** Entry `i` of the speeds is the speed of point `i`. */
  lemma {:induction false} PathSpeedsAt(path: seq<PathPoint>)
    ensures forall i :: 0 <= i < |path| ==> PathSpeeds(path)[i] == path[i].speed
  {
    if path != [] {
      var init := path[..|path| - 1];
      PathSpeedsAt(init);
      forall i | 0 <= i < |path| ensures PathSpeeds(path)[i] == path[i].speed {
        if i < |path| - 1 { assert path[i] == init[i]; }
      }
    }
  }

  /** Recording one more point adds its speed at the end. */
  lemma PathSpeedsAppend(path: seq<PathPoint>, p: PathPoint)
    ensures PathSpeeds(path + [p]) == PathSpeeds(path) + [p.speed]
  {
    assert (path + [p])[..|path|] == path;
  }

  /**
   * The speed summary: the history is the list of speeds along the path,
   * the average is their mean and the maximum their running `Math.max` from 0.
   */
  predicate Summarised(history: seq<real>, path: seq<PathPoint>, avg: real, max: real)
  {
    && history == PathSpeeds(path)
    && avg == (if history == [] then 0.0 else Stats.Mean(history))
    && max == Stats.Peak(history)
  }

  /**
   * Recording one more point keeps the summary: the history gains its speed,
   * the mean is taken over the longer history, and the maximum is the larger
   * of the old maximum and the new speed.
   */
  lemma SummarisedAppend(history: seq<real>, path: seq<PathPoint>, avg: real, max: real, p: PathPoint)
    requires Summarised(history, path, avg, max)
    ensures Summarised(history + [p.speed], path + [p], Stats.Mean(history + [p.speed]), Arith.Max(max, p.speed))
  {
    PathSpeedsAppend(path, p);
    Stats.PeakAppend(history, p.speed);
  }

  /** A journey whose maximum and average are those of the speeds along its path. */
  predicate Summarises(j: Journey)
  {
    Summarised(PathSpeeds(j.path), j.path, j.avgSpeed, j.maxSpeed) && j.distance >= 0.0
  }

  /**
   * In a journey built from the session, no recorded point is faster than the
   * maximum, the average lies between 0-or-the-slowest point and the maximum,
   * and the maximum is never negative.
   */
  lemma SummaryBounds(j: Journey)
    requires Summarises(j)
    ensures j.maxSpeed >= 0.0
    ensures forall i :: 0 <= i < |j.path| ==> j.path[i].speed <= j.maxSpeed
    ensures j.avgSpeed <= j.maxSpeed
  {
    var s := PathSpeeds(j.path);
    PathSpeedsAt(j.path);
    Stats.PeakIsMaximum(s);
    if s != [] { Stats.MeanAtMostPeak(s); }
  }

  function Abs(x: real): real
  {
    if x >= 0.0 then x else -x
  }

  /** The accuracy shown for a reading: `accuracy || null`. */
  function ShownAccuracy(reading: Option<real>): (r: Option<real>)
    ensures r == None || r == reading
    ensures r.Some? <==> reading.Some? && reading.value != 0.0
  {
    if Truthy(reading) then reading else None
  }

  /** A value that a new reading replaces only when the reading is present. */
  function Latest(previous: Option<real>, reading: Option<real>): Option<real>
  {
    if reading.Some? then reading else previous
  }

  /** The altitudes a reading adds to the elevation history. */
  function Recorded(reading: Option<real>): seq<real>
  {
    if reading.Some? then [reading.value] else []
  }

  /** The climb a reading adds to the elevation gain: a positive change from the last altitude. */
  function Climb(last: Option<real>, reading: Option<real>): (r: real)
    ensures r >= 0.0
  {
    if last.Some? && reading.Some? && reading.value - last.value > 0.0 then reading.value - last.value else 0.0
  }

  /** The descent a reading adds to the elevation loss: `Math.abs` of a change that is not positive. */
  function Descent(last: Option<real>, reading: Option<real>): (r: real)
    ensures r >= 0.0
  {
    if last.Some? && reading.Some? && reading.value - last.value <= 0.0 then Abs(reading.value - last.value) else 0.0
  }

  /**
   * Each altitude change goes to exactly one of gain and loss, and
   * gain minus loss is the change; without two altitudes nothing is added.
   */
  lemma ClimbAndDescent(last: Option<real>, reading: Option<real>)
    ensures Climb(last, reading) == 0.0 || Descent(last, reading) == 0.0
    ensures last.Some? && reading.Some? ==>
      Climb(last, reading) - Descent(last, reading) == reading.value - last.value
    ensures !(last.Some? && reading.Some?) ==> Climb(last, reading) == 0.0 && Descent(last, reading) == 0.0
  {
  }

  /**
   * Elevation gain and loss after a run of altitude readings, as the source
   * has them: each reading is recorded with `setLastAltitude`, but every
   * callback was created by the same `startTracking` and compares against
   * `captured`, the last altitude as it was at that moment.
   */
  function StaleElevation(gain: real, loss: real, readings: seq<Option<real>>, captured: Option<real>): (r: (real, real))
    ensures r.0 >= gain && r.1 >= loss
    decreases |readings|
  {
    if readings == [] then (gain, loss)
    else StaleElevation(gain + Climb(captured, readings[0]), loss + Descent(captured, readings[0]), readings[1..], captured)
  }

  /** With no altitude known at the start, climbing from 100 m to 200 m records neither gain nor loss. */
  lemma StaleElevationMissesClimb()
    ensures StaleElevation(0.0, 0.0, [Some(100.0), Some(200.0)], None) == (0.0, 0.0)
  {
    var r: seq<Option<real>> := [Some(100.0), Some(200.0)];
    assert r[1..] == [Some(200.0)] && r[1..][1..] == [];
  }

  /** The intended totals: each reading is compared with the last altitude before it. */
  function Elevation(gain: real, loss: real, last: Option<real>, readings: seq<Option<real>>): (r: (real, real))
    ensures r.0 >= gain && r.1 >= loss
    decreases |readings|
  {
    if readings == [] then (gain, loss)
    else Elevation(gain + Climb(last, readings[0]), loss + Descent(last, readings[0]),
                   Latest(last, readings[0]), readings[1..])
  }

  /** The last altitude known after a run of readings. */
  function FinalAltitude(last: Option<real>, readings: seq<Option<real>>): (r: Option<real>)
    ensures last.Some? ==> r.Some?
    decreases |readings|
  {
    if readings == [] then last else FinalAltitude(Latest(last, readings[0]), readings[1..])
  }

  /**
   * Starting from a known altitude, the intended totals only grow, and gain
   * minus loss is the net change from the first altitude to the last.
   */
  lemma {:induction false} ElevationTelescopes(gain: real, loss: real, last: Option<real>, readings: seq<Option<real>>)
    requires last.Some?
    ensures var e := Elevation(gain, loss, last, readings);
      && e.0 >= gain && e.1 >= loss
      && (e.0 - gain) - (e.1 - loss) == FinalAltitude(last, readings).value - last.value
    decreases |readings|
  {
    if readings != [] {
      var r := readings[0];
      ClimbAndDescent(last, r);
      ElevationTelescopes(gain + Climb(last, r), loss + Descent(last, r), Latest(last, r), readings[1..]);
    }
  }

  /** On the same climb from 100 m to 200 m the intended totals record 100 m of gain. */
  lemma ElevationCountsClimb()
    ensures Elevation(0.0, 0.0, None, [Some(100.0), Some(200.0)]) == (100.0, 0.0)
  {
    var r: seq<Option<real>> := [Some(100.0), Some(200.0)];
    assert r[1..] == [Some(200.0)] && r[1..][1..] == [];
  }

  /** The distance a fix adds to the total: the step from the last fix, if there is one. */
  function Travelled(last: Option<Fix>, pos: Coordinate, d: Metric): (r: real)
    ensures r >= 0.0
  {
    if last.Some? then d(last.value.pos, pos) else 0.0
  }

  /** Local storage after earning `earned` on top of `have`: written only when something was earned. */
  function SaveUnlocked(st: Storage, have: seq<string>, earned: seq<string>): Storage
  {
    if earned == [] then st else st[AchievementsKey := IdList(have + earned)]
  }

  /**
   * One achievement check: the unlocked list grows by what the readings newly
   * earn, and local storage gets the grown list when anything was earned.
   */
  predicate Awarded(have: seq<string>, st: Storage, speed: real, dist: real, duration: int,
                    have': seq<string>, st': Storage)
  {
    var earned := Achievements.Unlocks(speed, dist, duration, have);
    have' == have + earned && st' == SaveUnlocked(st, have, earned)
  }

  /** Totals and the shown speed are never negative; the zoom is one the map buttons offer. */
  predicate Displayable(distance: real, gain: real, loss: real, speed: real, zoom: int)
  {
    distance >= 0.0 && gain >= 0.0 && loss >= 0.0 && speed >= 0.0 && 10 <= zoom <= 18
  }

  /** The state of the dashboard: React state and refs alike. */
  class SpeedometerApp {
    /** The distance function (`calculateDistance`). */
    const distanceKm: Metric

    var isTracking: bool
    var currentSpeed: real
    var maxSpeed: real
    var avgSpeed: real
    var distance: real
    var duration: int
    var selectedMode: Display.TransportMode
    var currentLocation: Option<Coordinate>
    var startLocation: Option<Coordinate>
    var journeyPath: seq<PathPoint>
    var journeys: seq<Journey>
    var mapStyle: string
    var mapZoom: int
    var mapCenter: Coordinate
    var gpsAccuracy: Option<real>
    var altitude: Option<real>
    var elevationGain: real
    var elevationLoss: real
    var heading: Option<real>
    var achievements: seq<string>
    var lastAltitude: Option<real>
    /** `startTimeRef`: when the current session started (ms). */
    var startTime: Option<int>
    /** `lastPositionRef`: the last fix taken. */
    var lastPosition: Option<Fix>
    /** `speedHistoryRef`: every speed derived since the session started. */
    var speedHistory: seq<real>
    /** `elevationHistoryRef`: every altitude reported. */
    var elevationHistory: seq<real>
    /** The browser's local storage. */
    var storage: Storage

    /** The speed summary holds of the current fields. */
    ghost predicate Consistent()
      reads this`speedHistory, this`journeyPath, this`avgSpeed, this`maxSpeed
    {
      Summarised(speedHistory, journeyPath, avgSpeed, maxSpeed)
    }

    /**
     * The invariant every handler keeps: the speed summary holds; distance,
     * elevation totals and the displayed speed are never negative; the zoom
     * level stays within the buttons' range.
     */
    ghost predicate Valid()
      reads this`speedHistory, this`journeyPath, this`avgSpeed, this`maxSpeed, this`distance,
            this`elevationGain, this`elevationLoss, this`currentSpeed, this`mapZoom
    {
      && Consistent()
      && Displayable(distance, elevationGain, elevationLoss, currentSpeed, mapZoom)
    }

    /**
     * The map style is one of `mapStyles`. Only the constructor and the style
     * button write `mapStyle`, so every other handler keeps this by its frame.
     */
    ghost predicate KnownStyle()
      reads this`mapStyle
    {
      mapStyle in Display.MapStyleIds
    }

    /** The component's initial state, over whatever local storage holds. */
    constructor (distanceKm: Metric, storage: Storage)
      ensures Valid() && KnownStyle()
      ensures this.distanceKm == distanceKm && this.storage == storage
      ensures !isTracking && startTime == None && lastPosition == None && lastAltitude == None
      ensures distance == 0.0 && maxSpeed == 0.0 && avgSpeed == 0.0 && duration == 0
      ensures journeyPath == [] && speedHistory == [] && journeys == [] && achievements == []
      ensures selectedMode == Display.Car && mapStyle == "satellite" && mapZoom == 15
      ensures currentSpeed == 0.0 && elevationGain == 0.0 && elevationLoss == 0.0 && elevationHistory == []
      ensures currentLocation == None && startLocation == None && gpsAccuracy == None && altitude == None && heading == None
      ensures mapCenter == Coordinate(40.7128, -74.006)
    {
      this.distanceKm := distanceKm;
      isTracking := false;
      currentSpeed, maxSpeed, avgSpeed, distance := 0.0, 0.0, 0.0, 0.0;
      duration := 0;
      selectedMode := Display.Car;
      currentLocation, startLocation := None, None;
      journeyPath, journeys := [], [];
      mapStyle, mapZoom := "satellite", 15;
      mapCenter := Coordinate(40.7128, -74.006);
      gpsAccuracy, altitude := None, None;
      elevationGain, elevationLoss := 0.0, 0.0;
      heading := None;
      achievements := [];
      lastAltitude := None;
      startTime, lastPosition := None, None;
      speedHistory, elevationHistory := [], [];
      this.storage := storage;
    }

    /** On mount: the journey list saved in local storage, if there is one. */
    method LoadJourneys()
      modifies this`journeys
      ensures journeys == LoadedJourneys(storage).GetOr(old(journeys))
    {
      if JourneysKey in storage && storage[JourneysKey].JourneyList? {
        journeys := storage[JourneysKey].journeys;
      }
    }

    /** On mount: the unlocked ids saved in local storage, if there are any. */
    method LoadAchievements()
      modifies this`achievements
      ensures AchievementsKey in storage && storage[AchievementsKey].IdList?
              ==> achievements == storage[AchievementsKey].ids
      ensures !(AchievementsKey in storage && storage[AchievementsKey].IdList?)
              ==> achievements == old(achievements)
    {
      if AchievementsKey in storage && storage[AchievementsKey].IdList? {
        achievements := storage[AchievementsKey].ids;
      }
    }

    /**
     * `startTracking`: without geolocation nothing happens; otherwise the
     * session starts at `now` with distance, speeds, duration, speed history
     * and path reset. The last fix, the elevation totals, the last altitude
     * and the start and current locations are NOT reset.
     */
    method Start(now: int, geolocationSupported: bool)
      requires Valid()
      modifies this`isTracking, this`startTime, this`distance, this`maxSpeed, this`avgSpeed,
               this`duration, this`speedHistory, this`journeyPath
      ensures Valid()
      ensures !geolocationSupported ==> unchanged(this)
      ensures geolocationSupported ==>
        isTracking && startTime == Some(now)
        && distance == 0.0 && maxSpeed == 0.0 && avgSpeed == 0.0 && duration == 0
        && speedHistory == [] && journeyPath == []
    {
      if geolocationSupported {
        isTracking := true;
        startTime := Some(now);
        distance := 0.0;
        maxSpeed := 0.0;
        avgSpeed := 0.0;
        duration := 0;
        speedHistory := [];
        journeyPath := [];
      }
    }

    /** The one-shot position of `startTracking`: start and current location, map centre and last fix. */
    method InitialFix(lat: real, lng: real, now: int)
      modifies this`currentLocation, this`mapCenter, this`startLocation, this`lastPosition
      ensures currentLocation == Some(Coordinate(lat, lng)) && mapCenter == Coordinate(lat, lng)
      ensures startLocation == Some(Coordinate(lat, lng))
      ensures lastPosition == Some(Fix(Coordinate(lat, lng), now))
    {
      currentLocation := Some(Coordinate(lat, lng));
      mapCenter := Coordinate(lat, lng);
      startLocation := Some(Coordinate(lat, lng));
      lastPosition := Some(Fix(Coordinate(lat, lng), now));
    }

    /** The readings the watch callback shows as they come: accuracy, heading and location. */
    method ShowReadings(sample: Sample)
      modifies this`gpsAccuracy, this`heading, this`currentLocation, this`mapCenter
      ensures gpsAccuracy == ShownAccuracy(sample.accuracy)
      ensures heading == Latest(old(heading), sample.heading)
      ensures currentLocation == Some(sample.pos) && mapCenter == sample.pos
    {
      gpsAccuracy := if Truthy(sample.accuracy) then sample.accuracy else None;
      if sample.heading.Some? {
        heading := sample.heading;
      }
      currentLocation := Some(sample.pos);
      mapCenter := sample.pos;
    }

    /** The altitude part of the watch callback. */
    method RecordAltitude(reading: Option<real>)
      modifies this`altitude, this`elevationGain, this`elevationLoss, this`lastAltitude, this`elevationHistory
      ensures altitude == Latest(old(altitude), reading)
      ensures lastAltitude == Latest(old(lastAltitude), reading)
      ensures elevationGain == old(elevationGain) + Climb(old(lastAltitude), reading)
      ensures elevationLoss == old(elevationLoss) + Descent(old(lastAltitude), reading)
      ensures elevationHistory == old(elevationHistory) + Recorded(reading)
    {
      if reading.Some? {
        var posAltitude := reading.value;
        altitude := Some(posAltitude);
        if lastAltitude.Some? {
          var elevationChange := posAltitude - lastAltitude.value;
          if elevationChange > 0.0 {
            elevationGain := elevationGain + elevationChange;
          } else {
            elevationLoss := elevationLoss + Abs(elevationChange);
          }
        }
        lastAltitude := Some(posAltitude);
        elevationHistory := elevationHistory + [posAltitude];
      }
    }

    /** Folding a derived speed into the display, the maximum, the path, the history and the mean. */
    method RecordSpeed(pos: Coordinate, now: int, calculatedSpeed: real)
      requires Summarised(speedHistory, journeyPath, avgSpeed, maxSpeed)
      modifies this`currentSpeed, this`maxSpeed, this`journeyPath, this`speedHistory, this`avgSpeed
      ensures Summarised(speedHistory, journeyPath, avgSpeed, maxSpeed) && currentSpeed >= 0.0
      ensures currentSpeed == Arith.Max(0.0, calculatedSpeed)
      ensures maxSpeed == Arith.Max(old(maxSpeed), calculatedSpeed)
      ensures journeyPath == old(journeyPath) + [PathPoint(pos, now, calculatedSpeed)]
      ensures speedHistory == old(speedHistory) + [calculatedSpeed]
      ensures avgSpeed == Stats.Mean(speedHistory)
    {
      SummarisedAppend(speedHistory, journeyPath, avgSpeed, maxSpeed, PathPoint(pos, now, calculatedSpeed));
      currentSpeed := Arith.Max(0.0, calculatedSpeed);
      maxSpeed := Arith.Max(maxSpeed, calculatedSpeed);
      journeyPath := journeyPath + [PathPoint(pos, now, calculatedSpeed)];
      speedHistory := speedHistory + [calculatedSpeed];
      avgSpeed := Stats.Sum(speedHistory) / |speedHistory| as real;
    }

    /** The achievement part of the watch callback: append what the readings newly earn, and save if anything was. */
    method Award(speed: real)
      modifies this`achievements, this`storage
      ensures Awarded(old(achievements), old(storage), speed, distance, duration, achievements, storage)
    {
      var newAchievements := Achievements.CheckAchievements(speed, distance, duration, achievements);
      if |newAchievements| > 0 {
        achievements := achievements + newAchievements;
        storage := storage[AchievementsKey := IdList(achievements)];
      } else {
        assert achievements + newAchievements == achievements;
      }
    }

    /** The first half of the watch callback: what it shows and the elevation it tracks. */
    method Sense(sample: Sample)
      modifies this`gpsAccuracy, this`heading, this`currentLocation, this`mapCenter,
               this`altitude, this`elevationGain, this`elevationLoss, this`lastAltitude, this`elevationHistory
      ensures currentLocation == Some(sample.pos) && mapCenter == sample.pos
      ensures gpsAccuracy == ShownAccuracy(sample.accuracy)
      ensures heading == Latest(old(heading), sample.heading)
      ensures altitude == Latest(old(altitude), sample.altitude)
      ensures lastAltitude == Latest(old(lastAltitude), sample.altitude)
      ensures elevationGain == old(elevationGain) + Climb(old(lastAltitude), sample.altitude)
      ensures elevationLoss == old(elevationLoss) + Descent(old(lastAltitude), sample.altitude)
      ensures elevationHistory == old(elevationHistory) + Recorded(sample.altitude)
    {
      ShowReadings(sample);
      RecordAltitude(sample.altitude);
    }

    /**
     * The second half of the watch callback: the derived speed, the distance,
     * the achievements and the last fix.
     */
    method Move(sample: Sample, now: int)
      requires Summarised(speedHistory, journeyPath, avgSpeed, maxSpeed) && distance >= 0.0
      modifies this`currentSpeed, this`maxSpeed, this`journeyPath, this`speedHistory, this`avgSpeed,
               this`distance, this`achievements, this`storage, this`lastPosition
      ensures Summarised(speedHistory, journeyPath, avgSpeed, maxSpeed) && distance >= 0.0 && currentSpeed >= 0.0
      ensures var speed := DerivedSpeed(sample.speed, old(lastPosition), sample.pos, now, distanceKm);
        && currentSpeed == Arith.Max(0.0, speed)
        && maxSpeed == Arith.Max(old(maxSpeed), speed)
        && journeyPath == old(journeyPath) + [PathPoint(sample.pos, now, speed)]
        && speedHistory == old(speedHistory) + [speed]
        && avgSpeed == Stats.Mean(speedHistory)
        && Awarded(old(achievements), old(storage), speed, distance, duration, achievements, storage)
      ensures distance == old(distance) + Travelled(old(lastPosition), sample.pos, distanceKm)
      ensures lastPosition == Some(Fix(sample.pos, now))
    {
      var calculatedSpeed := DerivedSpeed(sample.speed, lastPosition, sample.pos, now, distanceKm);
      RecordSpeed(sample.pos, now, calculatedSpeed);
      if lastPosition.Some? {
        distance := distance + distanceKm(lastPosition.value.pos, sample.pos);
      }
      Award(calculatedSpeed);
      lastPosition := Some(Fix(sample.pos, now));
    }

    /**
     * The watch callback, for a sample taken at `now`. It shows the accuracy,
     * heading and location, tracks elevation, derives the speed
     * (`DerivedSpeed`), shows it clamped at 0, folds the raw speed into the
     * maximum, the path, the history and the mean, adds the distance from
     * the last fix when there is one, appends newly earned achievements
     * (saving them), and remembers the sample as the last fix.
     */
    method Ingest(sample: Sample, now: int)
      requires Valid()
      modifies this`gpsAccuracy, this`altitude, this`elevationGain, this`elevationLoss,
               this`lastAltitude, this`elevationHistory, this`heading, this`currentLocation,
               this`mapCenter, this`currentSpeed, this`maxSpeed, this`distance, this`journeyPath,
               this`speedHistory, this`avgSpeed, this`achievements, this`storage, this`lastPosition
      ensures Valid()
      ensures var speed := DerivedSpeed(sample.speed, old(lastPosition), sample.pos, now, distanceKm);
        && currentSpeed == Arith.Max(0.0, speed)
        && maxSpeed == Arith.Max(old(maxSpeed), speed)
        && journeyPath == old(journeyPath) + [PathPoint(sample.pos, now, speed)]
        && speedHistory == old(speedHistory) + [speed]
        && avgSpeed == Stats.Mean(speedHistory)
        && Awarded(old(achievements), old(storage), speed, distance, duration, achievements, storage)
      ensures distance == old(distance) + Travelled(old(lastPosition), sample.pos, distanceKm)
      ensures lastPosition == Some(Fix(sample.pos, now))
      ensures currentLocation == Some(sample.pos) && mapCenter == sample.pos
      ensures gpsAccuracy == ShownAccuracy(sample.accuracy)
      ensures heading == Latest(old(heading), sample.heading)
      ensures altitude == Latest(old(altitude), sample.altitude)
      ensures lastAltitude == Latest(old(lastAltitude), sample.altitude)
      ensures elevationGain == old(elevationGain) + Climb(old(lastAltitude), sample.altitude)
      ensures elevationLoss == old(elevationLoss) + Descent(old(lastAltitude), sample.altitude)
      ensures elevationHistory == old(elevationHistory) + Recorded(sample.altitude)
    {
      Sense(sample);
      Move(sample, now);
    }

    /** The 1-second ticker: while tracking, the whole seconds since the start. */
    method Tick(now: int)
      modifies this`duration
      ensures isTracking && startTime.Some? && startTime.value != 0 ==>
        duration * 1000 <= now - startTime.value < duration * 1000 + 1000
      ensures !(isTracking && startTime.Some? && startTime.value != 0) ==> duration == old(duration)
    {
      if isTracking && startTime.Some? && startTime.value != 0 {
        duration := (now - startTime.value) / 1000;
      }
    }

    /** `saveJourneys`: store the whole list and show it. */
    method SaveJourneys(newJourneys: seq<Journey>)
      modifies this`journeys, this`storage
      ensures journeys == newJourneys && storage == StoreJourneys(old(storage), newJourneys)
    {
      storage := storage[JourneysKey := JourneyList(newJourneys)];
      journeys := newJourneys;
    }

    /**
     * `stopTracking`: tracking ends; when a start location, a current location
     * and a (truthy) start time are all known, the session becomes a Journey
     * ending at `now` with the ticker's duration, placed at the head of the
     * list and saved. Nothing else changes: the start location is kept.
     */
    method Stop(now: int, id: string)
      requires Valid()
      modifies this`isTracking, this`journeys, this`storage
      ensures !isTracking
      ensures startLocation.Some? && currentLocation.Some? && startTime.Some? && startTime.value != 0 ==>
        && journeys == [Journey(id, startTime.value, now, startLocation.value, currentLocation.value,
                                distance, maxSpeed, avgSpeed, duration, selectedMode, journeyPath)]
                       + old(journeys)
        && |journeys| == |old(journeys)| + 1
        && Summarises(journeys[0])
        && storage == StoreJourneys(old(storage), journeys)
      ensures !(startLocation.Some? && currentLocation.Some? && startTime.Some? && startTime.value != 0) ==>
        journeys == old(journeys) && storage == old(storage)
    {
      isTracking := false;
      if startLocation.Some? && currentLocation.Some? && startTime.Some? && startTime.value != 0 {
        var journey := Journey(id, startTime.value, now, startLocation.value, currentLocation.value,
                               distance, maxSpeed, avgSpeed, duration, selectedMode, journeyPath);
        SaveJourneys([journey] + journeys);
      }
    }

    /** `clearHistory`: remove the stored list and empty the shown one. */
    method ClearHistory()
      modifies this`journeys, this`storage
      ensures journeys == [] && storage == RemoveJourneys(old(storage))
    {
      storage := storage - {JourneysKey};
      journeys := [];
    }

    /** A mode button: it is disabled while tracking. */
    method SelectMode(mode: Display.TransportMode)
      modifies this`selectedMode
      ensures selectedMode == if old(isTracking) then old(selectedMode) else mode
    {
      if !isTracking {
        selectedMode := mode;
      }
    }

    method ZoomIn()
      requires Valid()
      modifies this`mapZoom
      ensures Valid() && mapZoom == Display.ZoomIn(old(mapZoom))
    {
      mapZoom := Display.ZoomIn(mapZoom);
    }

    method ZoomOut()
      requires Valid()
      modifies this`mapZoom
      ensures Valid() && mapZoom == Display.ZoomOut(old(mapZoom))
    {
      mapZoom := Display.ZoomOut(mapZoom);
    }

    /** The style button: the next of the three styles, whatever the current one is. */
    method CycleMapStyle()
      modifies this`mapStyle
      ensures KnownStyle() && mapStyle == Display.NextMapStyle(old(mapStyle))
      ensures old(mapStyle) !in Display.MapStyleIds ==> mapStyle == "standard"
    {
      Display.MapStylesCycle(mapStyle);
      mapStyle := Display.NextMapStyle(mapStyle);
    }

    /** The tiles drawn around the centre tile at the current zoom level. */
    method VisibleTiles(centerX: int, centerY: int) returns (tiles: seq<Tiles.Tile>)
      requires Valid()
      ensures |tiles| <= 9
      ensures forall t :: t in tiles <==> (centerX - 1 <= t.x <= centerX + 1 && centerY - 1 <= t.y <= centerY + 1
                                           && Tiles.InWorld(t.x, t.y, mapZoom))
    {
      tiles := Tiles.GenerateMapTiles(centerX, centerY, mapZoom);
      Tiles.MapTilesNeighbourhood(centerX, centerY, mapZoom);
    }
  }
}
