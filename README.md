# SpeedSync tracking core in Dafny

This project models the live-tracking core of SpeedSync, a browser GPS
speedometer. The core lives in `app/page.tsx`, the `SpeedometerApp`
component, and `components/achievement-panel.tsx`. The model covers:

- **The session state.** Class `Tracking.SpeedometerApp` has one field per
  React state hook and ref that the tracking handlers read or write: speed,
  distance, elevation, path, speed history, last fix, achievements, map
  controls. Local storage is a field of type `map`. The hooks without a
  field are listed under "## Left out".
- **The handlers, as methods that update those fields in place.**
  - `startTracking`: `Start` and `InitialFix`.
  - The location-watch callback: `Ingest`. It is `Sense` (accuracy, heading,
    location, elevation) followed by `Move` (derived speed, maximum, path,
    mean, distance, achievements, last fix).
  - `stopTracking`: `Stop`, with `SaveJourneys`.
  - The duration ticker: `Tick`.
  - `clearHistory`, the mode buttons, the zoom buttons and the map-style
    button.
- **The pure helpers, as functions with lemmas about them.**
  - The speed derivation: `Geo.DerivedSpeed`.
  - The running sum, mean and maximum: `Stats`.
  - `formatDuration` and its decimal and padding parts: `Format`.
  - `getSpeedPercentage`, `getCompassDirection`, zoom, style cycling, path
    markers and colour bands: `Display`.
  - The tile loops of `generateMapTiles`: `Tiles`.
  - The achievement evaluator `checkAchievements`: `Achievements`.
  - The achievement panel: `AchievementPanel`.

Class frames are field by field (``modifies this`f``). The component
invariant is split in two:

- `Valid()`: the speed summary agrees with the path and the history; distance,
  elevation totals and the shown speed are never negative; the zoom is within
  10..18.
- `KnownStyle()`: the map style is one of the three offered. Only the
  constructor and the style button write `mapStyle`.

How the model treats the source's values:

- **Numbers.** JavaScript numbers are Dafny `real`; timestamps and durations
  are `int` milliseconds and seconds.
- **Truthiness.** It is written out: a reported speed or accuracy of `0`
  counts as absent, as does a start time of `0`.
- **Storage writes.** The achievement list is written to storage whenever
  it changes and is non-empty (app/page.tsx:508-512). The model writes it when
  a check earns something; it omits the write-back of the list just loaded on
  mount, which stores the same list again.
- **Calling convention.** `Date.now()`, the position readings and the journey
  id are parameters of the methods. There are no clocks or callbacks inside.
- **State updates.** Each `set…` call is applied immediately, in statement
  order. This is how the handlers are evidently meant to behave. What the
  code does instead, because the watch callback holds the state of the
  render in which it was created, is modelled separately as value functions:
  see "## Findings".

## Model

| member | source | states |
|---|---|---|
| Geo.DerivedSpeed | app/page.tsx:234-240 | the speed of a fix is negative only when the provider reported a negative speed; its other properties are the `Geo` lemmas below |
| Geo.DerivedSpeedCoversDistance | app/page.tsx:234-240 | without a usable reported speed and with time elapsed, the derived km/h times the elapsed hours gives back the measured distance |
| Geo.DerivedSpeedSign | app/page.tsx:234-240 | a truthy reported speed gives speed × 3.6; with no truthy speed and no last fix or no elapsed time the speed is 0; the result is negative only for a negative reported speed |
| Geo.ZeroReportedSpeedIsIgnored | app/page.tsx:234-236 | a reported speed of exactly 0 is treated as a missing one |
| Geo.StandingStillIsZero | app/page.tsx:236-240 | with no usable reported speed, a fix at the last position gives speed 0 |
| Stats.Mean | app/page.tsx:264 | the `reduce` sum over the length; its bounds are stated by `Stats.MeanBetween` and `Stats.MeanAtMostPeak` |
| Stats.Peak | app/page.tsx:251 | the `Math.max` fold from 0; its properties are stated by `Stats.PeakIsMaximum` and `Stats.PeakAppend` |
| Stats.PeakIsMaximum | app/page.tsx:251 | the running `Math.max` from 0 is at least 0 and at least every entry, and it is 0 or one of the entries |
| Stats.SumBetween | app/page.tsx:264 | entries between lo and hi bound the `reduce` sum between n·lo and n·hi |
| Stats.MeanBetween | app/page.tsx:264 | the mean lies between any lower and upper bound of the entries |
| Stats.MeanAtMostPeak | app/page.tsx:251-265 | the average speed never exceeds the maximum speed |
| Stats.MinBound | app/page.tsx:264 | the smallest entry bounds every entry from below |
| Stats.SumAppend | app/page.tsx:263-264 | pushing one speed adds it to the sum |
| Stats.PeakAppend | app/page.tsx:251 | the maximum after one more speed is the larger of the old maximum and that speed |
| Format.PadStart2 | app/page.tsx:333 | the padded field is at least two characters, ends with the original string and has only '0' in front of it |
| Format.FormatDuration | app/page.tsx:329-334 | the string has at least eight characters; what it reads back as is `Format.FormatDurationRoundTrip` |
| Format.NatToStringRoundTrip | app/page.tsx:333 | `toString` of a natural is all digits and reads back as the number; one digit below 10, two below 100 |
| Format.LeadingZero | app/page.tsx:333 | the `padStart` zero does not change the value read back |
| Format.PaddedField | app/page.tsx:333 | a padded field reads back as its number and is exactly two characters below 100 |
| Format.FormatDurationRoundTrip | app/page.tsx:329-334 | any non-negative number of seconds formats as `H…:MM:SS` whose fields read back as hours, minutes below 60 and seconds below 60 that recombine to the input |
| Format.ClockFields | app/page.tsx:333 | three digit fields joined by colons, the last two of width 2, are found again at their places in the string |
| Format.DurationSplit | app/page.tsx:330-332 | the hours, minutes and seconds of the division recombine to the input, with minutes and seconds below 60 |
| Format.FormatDurationWidth | app/page.tsx:329-334 | below 100 hours the string is exactly eight characters |
| Display.SpeedPercentage | app/page.tsx:337-339 | the gauge fill is at most 100 and never negative for a non-negative speed; the rest is `Display.SpeedPercentageScale` |
| Display.SpeedPercentageScale | app/page.tsx:337-339 | the gauge fill is capped at 100, reaches 100 exactly from the mode's maximum speed up, is proportional below it, is non-negative for a non-negative speed, and grows with the speed |
| Display.CompassDirection | app/page.tsx:460-481 | a non-negative heading always names a point; which point is `Display.CompassSector` |
| Display.CompassSector | app/page.tsx:460-481 | a heading within 11.25° of point k (0 ≤ heading < 360) is named by point k |
| Display.CompassPeriodic | app/page.tsx:460-481 | every non-negative heading names a point, and a full turn names the same point |
| Display.ZoomStaysInRange | app/page.tsx:1087-1097 | the zoom buttons keep the zoom in 10..18, undo each other away from the ends, and saturate at 18 and 10 |
| Display.FindIndex | app/page.tsx:1072 | `findIndex` returns -1 exactly when the id is absent, and otherwise the first position holding it |
| Display.MapStylesCycle | app/page.tsx:1072-1074 | the style button lands on a known style; from an unknown id it goes to "standard"; three presses bring a known style back |
| Display.EveryNth | app/page.tsx:1218 | the filter from position i keeps at most the remaining points and only points of the path |
| Display.PathMarkers | app/page.tsx:1218 | no more markers than points, every marker a point of the path, and a non-empty path starts with its first point; the exact selection is `Display.PathMarkersSubsample` |
| Display.SkipToNextMultiple | app/page.tsx:1218 | the index filter skips the positions strictly between two multiples of the step |
| Display.EveryNthIsStrided | app/page.tsx:1218 | from a multiple of the step on, the index filter picks exactly the strided points |
| Display.StridedPicks | app/page.tsx:1218 | the strided subsequence holds point i + k·step at place k; it is empty exactly when i is past the end; its last point is inside the path and the next stride would fall past the end |
| Display.PathMarkersSubsample | app/page.tsx:1218 | the markers are the points at the multiples of `max(1, floor(n / 8))`, in order, starting with the first point of a non-empty path; there are never more markers than points, nor more than 15 |
| Display.SpeedBandOf | app/page.tsx:1221-1232 | the three speed bands; their thresholds and order are `Display.SpeedBandsOrdered` |
| Display.SpeedColor | app/page.tsx:1221-1232 | one colour per band and theme; that colours differ exactly between bands is `Display.SpeedBandsOrdered` |
| Display.SpeedBandsOrdered | app/page.tsx:1222-1232 | a point is red exactly above 50 km/h and green exactly at or below 20 km/h; the band never falls as the speed rises; two speeds share a colour exactly when they share a band |
| Display.AccuracyBandOf | app/page.tsx:614-618 | the GPS dot colour; its thresholds and order are `Display.AccuracyBandsOrdered` |
| Display.AccuracyBandsOrdered | app/page.tsx:614-618 | the GPS dot is green exactly below 10 m and red exactly from 20 m, a larger accuracy is never a better colour, and a missing reading is red |
| Tiles.GenerateMapTiles | app/page.tsx:348-368 | the nested loops push exactly the existing tiles of the 3×3 block around the centre tile, column by column |
| Tiles.ColumnMembers | app/page.tsx:358-362 | a column holds exactly the existing tiles of its row range |
| Tiles.GridMembers | app/page.tsx:357-364 | a grid holds exactly the existing tiles of its rectangle |
| Tiles.ConcatOrdered | app/page.tsx:357-364 | appending tiles that all come after an ordered list keeps it ordered |
| Tiles.ColumnOrdered | app/page.tsx:358-362 | a column lists its tiles top to bottom, none twice |
| Tiles.GridOrdered | app/page.tsx:357-364 | a grid lists its tiles column-major, none twice |
| Tiles.ColumnSize | app/page.tsx:358-362 | a column has at most one tile per row, and all of them when every row exists |
| Tiles.GridSize | app/page.tsx:357-364 | a grid has at most one tile per cell, and all of them when every cell exists |
| Tiles.MapTilesNeighbourhood | app/page.tsx:348-368 | with a 300×200 map and 256-pixel tiles the block is 3×3: at most 9 tiles, exactly those within one of the centre that exist at that zoom, column-major without repeats, and all 9 when the centre is at least one tile from every edge |
| Achievements.CheckAchievements | app/page.tsx:413-435 | the five pushes produce the rule table's firing, not-yet-held ids, in table order |
| Achievements.Unlocks | app/page.tsx:413-438 | the ids one check emits; what they are is `Achievements.UnlocksMember` and the threshold lemmas below |
| Achievements.UnlocksUnfolded | app/page.tsx:416-435 | the evaluator's output is the five candidates in source order |
| Achievements.EarnedCons | app/page.tsx:416-435 | one rule's candidate followed by the rest of the table |
| Achievements.EarnedMembers | app/page.tsx:416-435 | an id is emitted exactly when it is not held and a rule with that id fires |
| Achievements.EarnedInOrder | app/page.tsx:416-435 | the emitted ids are a subsequence of the table's ids |
| Achievements.EarnedDistinct | app/page.tsx:416-435 | a table with distinct ids never emits an id twice |
| Achievements.EarnedFromIds | app/page.tsx:416-435 | everything emitted is one of the table's ids |
| Achievements.IdsContain | app/page.tsx:416-435 | the id list of a table has one id per rule, in order |
| Achievements.RuleIdsAreIds | app/page.tsx:416-435 | the table's ids are the five listed ids, all distinct |
| Achievements.UnlocksMember | app/page.tsx:413-435 | an id is emitted exactly when it is not held and it is one of the five ids whose reading is strictly above its threshold |
| Achievements.UnlocksSpeedThresholds | app/page.tsx:417-422 | "speed_demon" is emitted exactly above 100 km/h and "highway_cruiser" exactly above 50 km/h, each only when not held |
| Achievements.UnlocksDistanceThresholds | app/page.tsx:425-430 | "century_rider" is emitted exactly above 100 km and "explorer" exactly above 10 km, each only when not held |
| Achievements.UnlocksDurationThreshold | app/page.tsx:433-435 | "endurance_master" is emitted exactly above 3600 s when not held, and no id outside the table is ever emitted |
| Achievements.UnlocksAreFreshAndOrdered | app/page.tsx:413-438 | nothing emitted is already held, nothing is emitted twice, the order is the table's, and appending to a duplicate-free list keeps it duplicate-free |
| Achievements.UnlocksSettle | app/page.tsx:413-438 | once the emitted ids are appended, the same or lower readings emit nothing |
| Achievements.StaleAwards | app/page.tsx:417-438 | as written, a session's unlocked list only grows at the end, each sample checked against the list captured at Start |
| Achievements.StaleAwardsRepeat | app/page.tsx:417-438 | as written, two samples above 50 km/h with nothing unlocked append "highway_cruiser" twice |
| Achievements.StaleAwardsSpeedOnly | app/page.tsx:425-435 | as written, with the distance and duration captured at 0, a session can only add the two speed ids |
| Achievements.FreshAwards | app/page.tsx:413-438 | as intended, a session's unlocked list only grows at the end, each sample checked against the current list |
| Achievements.FreshAwardsDistinct | app/page.tsx:413-438 | evaluating each sample against the current list keeps a duplicate-free list duplicate-free, only appends, and only adds evaluator ids |
| Achievements.FreshAwardsReachThresholds | app/page.tsx:425-435 | evaluating against the current distance and duration unlocks "century_rider", "explorer" and "endurance_master" once their thresholds are passed |
| AchievementPanel.CatalogueIds | components/achievement-panel.tsx:24-95 | the catalogue's ids, one per entry, in catalogue order |
| AchievementPanel.WithStatus | components/achievement-panel.tsx:98-101 | the ten catalogue entries in order, each unchanged except that it is unlocked exactly when its id was collected |
| AchievementPanel.UnlockedCount | components/achievement-panel.tsx:103 | the unlocked count is at most 10 |
| AchievementPanel.CompletionPercent | components/achievement-panel.tsx:142 | the percentage is within 0..100; that it is 10 per unlocked entry is `AchievementPanel.PercentIsTenPerUnlock` |
| AchievementPanel.CountAtMostLength | components/achievement-panel.tsx:103 | the unlocked count is at most the number of entries |
| AchievementPanel.CountMonotone | components/achievement-panel.tsx:103 | unlocking more entries at the same positions never lowers the count |
| AchievementPanel.UnlockedCountMonotone | components/achievement-panel.tsx:98-142 | collecting more catalogue ids never lowers the count (at most 10) or the percentage |
| AchievementPanel.UnlockedCountIgnoresExtras | components/achievement-panel.tsx:98-142 | ids outside the catalogue and repeated ids change neither the count nor the percentage |
| AchievementPanel.PercentIsTenPerUnlock | components/achievement-panel.tsx:142 | the rounded percentage is exactly 10 per unlocked entry, within 0..100 |
| AchievementPanel.NothingUnlocked | components/achievement-panel.tsx:103-142 | with no ids collected the count is 0 and the panel shows 0% |
| AchievementPanel.EverythingUnlocked | components/achievement-panel.tsx:103-142 | with every catalogue id collected the count is 10 and the panel shows 100% |
| AchievementPanel.AllLockedCountsZero | components/achievement-panel.tsx:103 | no unlocked entries count 0 |
| AchievementPanel.AllUnlockedCountsAll | components/achievement-panel.tsx:103 | all entries unlocked count all of them |
| AchievementPanel.PageIdsUnlockAtMostFive | components/achievement-panel.tsx:98-103 | every id the page's evaluator emits is in the catalogue, so ids from the evaluator unlock at most 5 of the 10 |
| AchievementPanel.FiveOfTen | components/achievement-panel.tsx:103 | ten entries of which exactly positions 1..5 are unlocked count 5 |
| AchievementPanel.CountConcat | components/achievement-panel.tsx:103 | the count of a concatenation is the sum of the counts |
| Tracking.StorageRoundTrip | app/page.tsx:116-133 | a saved journey list loads back unchanged; after `removeItem` nothing loads; neither touches another key |
| Tracking.PathSpeeds | app/page.tsx:260-263 | the speeds along a path: one per point, point i's at place i |
| Tracking.PathSpeedsAt | app/page.tsx:260-263 | entry i of the speeds is the speed of point i |
| Tracking.PathSpeedsAppend | app/page.tsx:260-263 | recording a point appends its speed |
| Tracking.SummarisedAppend | app/page.tsx:251-265 | recording a point keeps the history equal to the path's speeds, the average equal to their mean and the maximum equal to their running maximum |
| Tracking.SummaryBounds | app/page.tsx:294-310 | a journey built from the session has a non-negative maximum, no point faster than it, and an average no larger |
| Tracking.ShownAccuracy | app/page.tsx:207 | the shown accuracy is the reading or nothing, and it is present exactly for a present non-zero reading |
| Tracking.Climb | app/page.tsx:213-218 | the gain a reading adds is never negative |
| Tracking.Descent | app/page.tsx:213-220 | the loss a reading adds is never negative |
| Tracking.ClimbAndDescent | app/page.tsx:210-223 | at most one of gain and loss is non-zero; with both altitudes known the gain minus the loss is the altitude change; without both, neither changes |
| Tracking.StaleElevation | app/page.tsx:213-222 | as written, gain and loss never shrink, each reading compared with the altitude captured at Start |
| Tracking.StaleElevationMissesClimb | app/page.tsx:213-222 | as written, a climb from 100 m to 200 m records no gain and no loss |
| Tracking.Elevation | app/page.tsx:210-222 | as intended, gain and loss never shrink, each reading compared with the altitude before it |
| Tracking.FinalAltitude | app/page.tsx:210-222 | the last altitude stays known once it is known |
| Tracking.ElevationTelescopes | app/page.tsx:210-222 | in the intended run the totals never shrink, and the gain minus the loss is the final altitude minus the first one |
| Tracking.ElevationCountsClimb | app/page.tsx:210-222 | in the intended run the same climb records 100 m of gain |
| Tracking.Travelled | app/page.tsx:254-257 | the distance a fix adds is never negative |
| Tracking.SpeedometerApp.constructor | app/page.tsx:65-110 | the initial state: not tracking; current, maximum and average speed, distance, duration, elevation gain and loss 0; path, speed and elevation history, journeys and achievements empty; no current or start location, accuracy, altitude, heading, start time, last fix or last altitude; car mode, the satellite style, zoom 15, the map centred on 40.7128, -74.006; it satisfies both invariants |
| Tracking.SpeedometerApp.LoadJourneys | app/page.tsx:116-127 | on mount, the stored journey list if there is one, otherwise the list unchanged |
| Tracking.SpeedometerApp.LoadAchievements | app/page.tsx:500-505 | on mount, the stored id list if there is one, otherwise the list unchanged |
| Tracking.SpeedometerApp.Start | app/page.tsx:172-185 | without geolocation nothing changes; otherwise tracking starts at `now` with distance, speeds, duration, history and path reset; it keeps `Valid()` |
| Tracking.SpeedometerApp.InitialFix | app/page.tsx:188-198 | the first fix sets the start and current location, the map centre and the last fix |
| Tracking.SpeedometerApp.ShowReadings | app/page.tsx:207-231 | the shown accuracy (0 counted as none), the latest heading, the location and the map centre |
| Tracking.SpeedometerApp.RecordAltitude | app/page.tsx:210-223 | the altitude, gain, loss, last altitude and altitude history after one reading |
| Tracking.SpeedometerApp.RecordSpeed | app/page.tsx:242-265 | the clamped shown speed, the new maximum, the point appended to the path, the speed appended to the history, the mean over it; the summary is kept |
| Tracking.SpeedometerApp.Award | app/page.tsx:413-442 | the unlocked list gains exactly what the evaluator emits for the current speed, distance and duration, and storage is written only when something was gained |
| Tracking.SpeedometerApp.Sense | app/page.tsx:207-231 | the new readings shown and the elevation state after one sample |
| Tracking.SpeedometerApp.Move | app/page.tsx:234-270 | derived speed, maximum, path, mean, distance, achievements and last fix after one sample; the summary is kept and distance stays non-negative |
| Tracking.SpeedometerApp.Ingest | app/page.tsx:201-271 | the whole state after one sample, each field as a function of the old state and the sample; it keeps `Valid()` |
| Tracking.SpeedometerApp.Tick | app/page.tsx:318-326 | while tracking with a truthy start, the duration is the whole seconds since the start; otherwise unchanged |
| Tracking.SpeedometerApp.SaveJourneys | app/page.tsx:130-133 | the list is stored under its key and shown |
| Tracking.SpeedometerApp.Stop | app/page.tsx:284-315 | tracking ends; with a start location, current location and truthy start time, the session becomes a journey at the head of the list, saved to storage, whose maximum and average summarise its path; otherwise the list and storage are unchanged |
| Tracking.SpeedometerApp.ClearHistory | app/page.tsx:342-345 | the stored list is removed and the shown one emptied |
| Tracking.SpeedometerApp.SelectMode | app/page.tsx:837-838 | the mode changes only when not tracking |
| Tracking.SpeedometerApp.ZoomIn | app/page.tsx:1087 | zoom goes to `min(18, zoom + 1)` and stays valid |
| Tracking.SpeedometerApp.ZoomOut | app/page.tsx:1097 | zoom goes to `max(10, zoom - 1)` and stays valid |
| Tracking.SpeedometerApp.CycleMapStyle | app/page.tsx:1072-1074 | the next style, always a known one; "standard" from an unknown one |
| Tracking.SpeedometerApp.VisibleTiles | app/page.tsx:348-368 | at most 9 tiles, exactly those within one tile of the centre that exist at the current zoom |

## Left out

- The haversine formula of `calculateDistance` (app/page.tsx:136-145) is trigonometry. The distance is a parameter of type `Geo.Metric`: non-negative, and 0 from a point to itself.
- `latLngToTile`, `getTileUrl` (including its random subdomain) and `coordToScreen` are projections and URL building. `Tiles` and `VisibleTiles` take the centre tile as a parameter.
- Geolocation I/O is left out. Registering the watch with `watchIdRef`, `clearWatch`, the error callback and the "not supported" alert are callbacks into the browser. `Start` takes whether geolocation exists as a flag, and `Ingest` is one callback invocation.
- `Date.now()` and `new Date(...)` are clocks. Times are `int` milliseconds passed in, and the journey id (`Date.now().toString()`) is a parameter of `Stop`.
- JSON serialisation of local storage is left out. Storage maps a key to the list it holds; a stored value of the wrong shape is treated as absent.
- The exception `JSON.parse` throws on malformed stored text in the mount effects (app/page.tsx:116-127, app/page.tsx:500-505) is not modelled: it is uncaught there, while `LoadJourneys` and `LoadAchievements` leave the list as it was.
- Location names (`getLocationName`) are not part of `Journey` here, since the name is a label computed from the coordinates.
- `fetchWeather`, `getWeatherIcon`, the weather state and `achievementCheckRef` are left out. The weather is a network call and is not part of the tracking state; the ref is never read.
- The speed-alert branch (app/page.tsx:245-248) only writes to the console.
- The presentation-only hooks `darkMode`, `showHistory` and `showIconShowcase` have no field: they switch the theme and open the history and icon panels, and no tracking handler reads them. `speedLimit` and `speedAlerts` have none either, since they only feed the console-only speed-alert branch (app/page.tsx:245-248) and the rendered over-limit warning.
- The achievement toast (`showAchievements` and its 3-second `setTimeout`) is a timer driving presentation only.
- The interval registration of the ticker is a timer. `Tick` is one firing; its guard is evaluated per firing rather than once per effect run.
- Floating point is real arithmetic: no rounding error, no NaN and no infinity. A reported speed of NaN, which JavaScript treats as falsy, is not represented.
- React's deferred state updates are not modelled. Each update is applied in statement order, so `Award` sees the distance already increased by the current sample. The class's `Ingest`, `Award` and `RecordAltitude` use the current values; only the Findings functions `Achievements.StaleAwards` and `Tracking.StaleElevation` use the values the watch callback captured at Start.
- JSX rendering, theming and components/speedsync-icon.tsx are not part of this model.
- Tracking.SpeedometerApp.Stop: does not promise `Valid()` afterwards, although it writes no field that `Valid()` reads, so the invariant still holds by the method's frame.
- Tracking.SpeedometerApp.Ingest: does not check `isTracking`, as the source callback does not either; it relies on the watch being cleared.

## Findings

| source | as written | input that shows it | evidently intended | confidence | as-written member | corrected member |
|---|---|---|---|---|---|---|
| app/page.tsx:268,417-438 | the watch callback is created once by `startTracking` and calls that render's `checkAchievements`, whose `achievements.includes` sees the list as it was at Start | two samples at 60 km/h with nothing unlocked: "highway_cruiser" is appended twice | each sample is checked against the list as it stands, so no id is added twice | high, not executed | Achievements.StaleAwardsRepeat | Achievements.FreshAwardsDistinct |
| app/page.tsx:213-221 | the callback reads the `lastAltitude` state captured at Start (null in a first session), so no elevation change is ever added | altitudes 100 m then 200 m: gain 0, loss 0 | the change from the previous reading is added to the gain or the loss | high, not executed | Tracking.StaleElevationMissesClimb | Tracking.ElevationTelescopes |
| app/page.tsx:268,425-435 | the callback passes the `distance` and `duration` captured at Start (0 in a first session) to the evaluator | a first session that travels 20 km: "explorer" is never unlocked | the evaluator sees the session's current distance and duration | high, not executed | Achievements.StaleAwardsSpeedOnly | Achievements.FreshAwardsReachThresholds |

The class uses the corrected behaviour throughout:

- `Award` evaluates against the current list, distance and duration.
- `RecordAltitude` compares with the current last altitude.
- `Tracking.ElevationCountsClimb` shows the corrected totals on the same climb as the second finding.
