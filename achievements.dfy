/**
 * The achievement evaluator `checkAchievements` (app/page.tsx:413-442): five
 * strict thresholds on the current speed, distance and duration; an id
 * already unlocked is never emitted again, and the candidates come out in a
 * fixed order.
 */
module Achievements {

  /** Which reading a rule looks at. */
  datatype Measure = SpeedKmh | DistanceKm | DurationSeconds

  /** One row of the rule table: an id is earned when the reading exceeds the threshold. */
  datatype Rule = Rule(id: string, measure: Measure, threshold: real)

  /** The rule table, in the order the source checks it. */
  const Rules: seq<Rule> := [
    Rule("speed_demon", SpeedKmh, 100.0),
    Rule("highway_cruiser", SpeedKmh, 50.0),
    Rule("century_rider", DistanceKm, 100.0),
    Rule("explorer", DistanceKm, 10.0),
    Rule("endurance_master", DurationSeconds, 3600.0)
  ]

  /** The ids of the rule table, in order. */
  const RuleIds: seq<string> := ["speed_demon", "highway_cruiser", "century_rider", "explorer", "endurance_master"]

  function Reading(m: Measure, speed: real, dist: real, duration: int): real
  {
    match m
    case SpeedKmh => speed
    case DistanceKm => dist
    case DurationSeconds => duration as real
  }

  predicate Fires(r: Rule, speed: real, dist: real, duration: int)
  {
    Reading(r.measure, speed, dist, duration) > r.threshold
  }

  /** The ids of `rules` that fire and are not already in `have`, in table order. */
  function Earned(rules: seq<Rule>, speed: real, dist: real, duration: int, have: seq<string>): seq<string>
  {
    if rules == [] then []
    else
      (if Fires(rules[0], speed, dist, duration) && rules[0].id !in have then [rules[0].id] else [])
      + Earned(rules[1..], speed, dist, duration, have)
  }

  /** The list `checkAchievements` appends to the unlocked achievements. */
  function Unlocks(speed: real, dist: real, duration: int, have: seq<string>): seq<string>
  {
    Earned(Rules, speed, dist, duration, have)
  }

  /** The source's evaluator, pushing onto `newAchievements` one check at a time. */
  method CheckAchievements(speed: real, dist: real, duration: int, achievements: seq<string>)
    returns (newAchievements: seq<string>)
    ensures newAchievements == Unlocks(speed, dist, duration, achievements)
  {
    ghost var c0 := Candidate("speed_demon", speed > 100.0, achievements);
    ghost var c1 := Candidate("highway_cruiser", speed > 50.0, achievements);
    ghost var c2 := Candidate("century_rider", dist > 100.0, achievements);
    ghost var c3 := Candidate("explorer", dist > 10.0, achievements);
    ghost var c4 := Candidate("endurance_master", duration > 3600, achievements);
    newAchievements := [];
    if speed > 100.0 && "speed_demon" !in achievements {
      newAchievements := newAchievements + ["speed_demon"];
    }
    assert newAchievements == c0;
    if speed > 50.0 && "highway_cruiser" !in achievements {
      newAchievements := newAchievements + ["highway_cruiser"];
    }
    assert newAchievements == c0 + c1;
    if dist > 100.0 && "century_rider" !in achievements {
      newAchievements := newAchievements + ["century_rider"];
    }
    assert newAchievements == c0 + c1 + c2;
    if dist > 10.0 && "explorer" !in achievements {
      newAchievements := newAchievements + ["explorer"];
    }
    assert newAchievements == c0 + c1 + c2 + c3;
    if duration > 3600 && "endurance_master" !in achievements {
      newAchievements := newAchievements + ["endurance_master"];
    }
    assert newAchievements == c0 + c1 + c2 + c3 + c4;
    UnlocksUnfolded(speed, dist, duration, achievements);
    Associate(c0, c1, c2, c3, c4);
  }

  /** A candidate for one rule: its id, when the rule fires and it is not yet held. */
  function Candidate(id: string, fires: bool, have: seq<string>): seq<string>
  {
    if fires && id !in have then [id] else []
  }

  lemma UnlocksUnfolded(speed: real, dist: real, duration: int, have: seq<string>)
    ensures Unlocks(speed, dist, duration, have)
         == Candidate("speed_demon", speed > 100.0, have)
          + (Candidate("highway_cruiser", speed > 50.0, have)
          + (Candidate("century_rider", dist > 100.0, have)
          + (Candidate("explorer", dist > 10.0, have)
          + Candidate("endurance_master", duration > 3600, have))))
  {
    var r := Rules;
    var e4 := Candidate("endurance_master", duration > 3600, have);
    var e3 := Candidate("explorer", dist > 10.0, have) + e4;
    var e2 := Candidate("century_rider", dist > 100.0, have) + e3;
    var e1 := Candidate("highway_cruiser", speed > 50.0, have) + e2;
    assert r[4..] == [Rule("endurance_master", DurationSeconds, 3600.0)];
    EarnedCons(r[4..], speed, dist, duration, have);
    assert Earned(r[4..], speed, dist, duration, have) == e4;
    assert r[3..] == [r[3]] + r[4..];
    EarnedCons(r[3..], speed, dist, duration, have);
    assert Earned(r[3..], speed, dist, duration, have) == e3;
    assert r[2..] == [r[2]] + r[3..];
    EarnedCons(r[2..], speed, dist, duration, have);
    assert Earned(r[2..], speed, dist, duration, have) == e2;
    assert r[1..] == [r[1]] + r[2..];
    EarnedCons(r[1..], speed, dist, duration, have);
    assert Earned(r[1..], speed, dist, duration, have) == e1;
    EarnedCons(r, speed, dist, duration, have);
  }

  /** Proof aid, modelling nothing in the source: regrouping five concatenated id lists. */
  lemma Associate(a: seq<string>, b: seq<string>, c: seq<string>, d: seq<string>, e: seq<string>)
    ensures a + b + c + d + e == a + (b + (c + (d + e)))
  {
  }

  /** One step of `Earned`: the head rule's candidate, then the rest. */
  lemma EarnedCons(rules: seq<Rule>, speed: real, dist: real, duration: int, have: seq<string>)
    requires rules != []
    ensures Earned(rules, speed, dist, duration, have)
         == Candidate(rules[0].id, Fires(rules[0], speed, dist, duration), have)
          + Earned(rules[1..], speed, dist, duration, have)
  {
  }

  /** No two positions of a list hold the same id. */
  predicate NoDuplicates(s: seq<string>)
  {
    forall i, j :: 0 <= i < j < |s| ==> s[i] != s[j]
  }

  /** `sub` is `s` with some entries left out, the rest in the same order. */
  predicate IsSubsequence(sub: seq<string>, s: seq<string>)
  {
    if sub == [] then true
    else if s == [] then false
    else (sub[0] == s[0] && IsSubsequence(sub[1..], s[1..])) || IsSubsequence(sub, s[1..])
  }

  function Ids(rules: seq<Rule>): seq<string>
  {
    if rules == [] then [] else [rules[0].id] + Ids(rules[1..])
  }

  /** `Earned` emits exactly the ids of the firing rules that are not already held. */
  lemma {:induction false} EarnedMembers(rules: seq<Rule>, speed: real, dist: real, duration: int, have: seq<string>, id: string)
    ensures id in Earned(rules, speed, dist, duration, have)
        <==> id !in have && exists r :: r in rules && r.id == id && Fires(r, speed, dist, duration)
  {
    if rules != [] {
      var tail := rules[1..];
      EarnedMembers(tail, speed, dist, duration, have, id);
      EarnedCons(rules, speed, dist, duration, have);
      if exists r :: r in rules && r.id == id && Fires(r, speed, dist, duration) {
        var r :| r in rules && r.id == id && Fires(r, speed, dist, duration);
        if r != rules[0] { assert r in tail; }
      }
      if exists r :: r in tail && r.id == id && Fires(r, speed, dist, duration) {
        var r :| r in tail && r.id == id && Fires(r, speed, dist, duration);
        assert r in rules;
      }
    }
  }

  /** `Earned` keeps the table's order: its output is a subsequence of the table's ids. */
  lemma {:induction false} EarnedInOrder(rules: seq<Rule>, speed: real, dist: real, duration: int, have: seq<string>)
    ensures IsSubsequence(Earned(rules, speed, dist, duration, have), Ids(rules))
  {
    if rules != [] {
      var tail := rules[1..];
      EarnedInOrder(tail, speed, dist, duration, have);
      EarnedCons(rules, speed, dist, duration, have);
      var e := Earned(rules, speed, dist, duration, have);
      var et := Earned(tail, speed, dist, duration, have);
      assert Ids(rules) == [rules[0].id] + Ids(tail);
      if e != et {
        assert e[0] == Ids(rules)[0] && e[1..] == et;
      }
    }
  }

  /** A table with distinct ids never makes `Earned` emit an id twice. */
  lemma {:induction false} EarnedDistinct(rules: seq<Rule>, speed: real, dist: real, duration: int, have: seq<string>)
    requires NoDuplicates(Ids(rules))
    ensures NoDuplicates(Earned(rules, speed, dist, duration, have))
  {
    if rules != [] {
      var tail := rules[1..];
      var ids := Ids(rules);
      assert ids == [rules[0].id] + Ids(tail);
      assert NoDuplicates(Ids(tail)) by {
        forall i, j | 0 <= i < j < |Ids(tail)| ensures Ids(tail)[i] != Ids(tail)[j] {
          assert Ids(tail)[i] == ids[i + 1] && Ids(tail)[j] == ids[j + 1];
        }
      }
      EarnedDistinct(tail, speed, dist, duration, have);
      EarnedCons(rules, speed, dist, duration, have);
      var e := Earned(rules, speed, dist, duration, have);
      var et := Earned(tail, speed, dist, duration, have);
      if e != et {
        forall k | 0 <= k < |Ids(tail)| ensures Ids(tail)[k] != rules[0].id {
          assert Ids(tail)[k] == ids[k + 1] && ids[0] == rules[0].id;
          assert ids[0] != ids[k + 1];
        }
        EarnedFromIds(tail, speed, dist, duration, have);
        assert rules[0].id !in et;
        assert e == [rules[0].id] + et;
        forall i, j | 0 <= i < j < |e| ensures e[i] != e[j] {
          assert e[j] == et[j - 1];
          if i > 0 { assert e[i] == et[i - 1]; }
        }
      }
    }
  }

  /** Everything `Earned` emits is one of the table's ids. */
  lemma {:induction false} EarnedFromIds(rules: seq<Rule>, speed: real, dist: real, duration: int, have: seq<string>)
    ensures forall id :: id in Earned(rules, speed, dist, duration, have) ==> id in Ids(rules)
  {
    if rules != [] {
      EarnedFromIds(rules[1..], speed, dist, duration, have);
      EarnedCons(rules, speed, dist, duration, have);
      assert Ids(rules) == [rules[0].id] + Ids(rules[1..]);
    }
  }

  lemma {:induction false} IdsContain(rules: seq<Rule>)
    ensures |Ids(rules)| == |rules|
    ensures forall i :: 0 <= i < |rules| ==> Ids(rules)[i] == rules[i].id
  {
    if rules != [] { IdsContain(rules[1..]); }
  }

  lemma RuleIdsAreIds()
    ensures Ids(Rules) == RuleIds
    ensures NoDuplicates(RuleIds)
  {
    var r := Rules;
    assert Ids(r[4..]) == ["endurance_master"] by { assert r[4..][1..] == []; }
    assert Ids(r[3..]) == ["explorer"] + Ids(r[4..]) by { assert r[3..][1..] == r[4..]; }
    assert Ids(r[2..]) == ["century_rider"] + Ids(r[3..]) by { assert r[2..][1..] == r[3..]; }
    assert Ids(r[1..]) == ["highway_cruiser"] + Ids(r[2..]) by { assert r[1..][1..] == r[2..]; }
  }

  /**
   * Proof aid, modelling nothing in the source: the lengths of the five ids,
   * which differ, so the ids are pairwise different.
   */
  lemma RuleIdsDiffer()
    ensures |"speed_demon"| == 11 && |"highway_cruiser"| == 15 && |"century_rider"| == 13
    ensures |"explorer"| == 8 && |"endurance_master"| == 16
  {
  }

  /** An id is emitted exactly when it is one of the five, its reading passes the threshold and it is not held. */
  lemma UnlocksMember(speed: real, dist: real, duration: int, have: seq<string>, x: string)
    ensures x in Unlocks(speed, dist, duration, have)
        <==> (x !in have
              && (|| (x == "speed_demon" && speed > 100.0)
                  || (x == "highway_cruiser" && speed > 50.0)
                  || (x == "century_rider" && dist > 100.0)
                  || (x == "explorer" && dist > 10.0)
                  || (x == "endurance_master" && duration > 3600)))
  {
    UnlocksUnfolded(speed, dist, duration, have);
  }

  /**
   * The two speed thresholds: each id is emitted exactly when the speed is
   * strictly above its threshold and the id is not already held.
   */
  lemma UnlocksSpeedThresholds(speed: real, dist: real, duration: int, have: seq<string>)
    ensures var u := Unlocks(speed, dist, duration, have);
      && ("speed_demon" in u <==> speed > 100.0 && "speed_demon" !in have)
      && ("highway_cruiser" in u <==> speed > 50.0 && "highway_cruiser" !in have)
  {
    RuleIdsDiffer();
    UnlocksMember(speed, dist, duration, have, "speed_demon");
    UnlocksMember(speed, dist, duration, have, "highway_cruiser");
  }

  /** The two distance thresholds, 100 km and 10 km, likewise strict. */
  lemma UnlocksDistanceThresholds(speed: real, dist: real, duration: int, have: seq<string>)
    ensures var u := Unlocks(speed, dist, duration, have);
      && ("century_rider" in u <==> dist > 100.0 && "century_rider" !in have)
      && ("explorer" in u <==> dist > 10.0 && "explorer" !in have)
  {
    RuleIdsDiffer();
    UnlocksMember(speed, dist, duration, have, "century_rider");
    UnlocksMember(speed, dist, duration, have, "explorer");
  }

  /** The one-hour threshold on the duration in seconds; and nothing outside the table is ever emitted. */
  lemma UnlocksDurationThreshold(speed: real, dist: real, duration: int, have: seq<string>)
    ensures var u := Unlocks(speed, dist, duration, have);
      && ("endurance_master" in u <==> duration > 3600 && "endurance_master" !in have)
      && (forall id :: id in u ==> id in RuleIds)
  {
    RuleIdsDiffer();
    UnlocksMember(speed, dist, duration, have, "endurance_master");
    forall id | id in Unlocks(speed, dist, duration, have) ensures id in RuleIds {
      UnlocksMember(speed, dist, duration, have, id);
    }
  }

  /**
   * What a caller of `checkAchievements` relies on: nothing emitted is already
   * held, nothing is emitted twice, the emitted ids follow the table order,
   * and appending them to a duplicate-free list keeps it duplicate-free.
   */
  lemma UnlocksAreFreshAndOrdered(speed: real, dist: real, duration: int, have: seq<string>)
    ensures var u := Unlocks(speed, dist, duration, have);
      && (forall id :: id in u ==> id !in have)
      && NoDuplicates(u)
      && IsSubsequence(u, RuleIds)
      && (NoDuplicates(have) ==> NoDuplicates(have + u))
  {
    var u := Unlocks(speed, dist, duration, have);
    RuleIdsAreIds();
    EarnedDistinct(Rules, speed, dist, duration, have);
    EarnedInOrder(Rules, speed, dist, duration, have);
    forall id | id in u ensures id !in have {
      EarnedMembers(Rules, speed, dist, duration, have, id);
    }
    if NoDuplicates(have) {
      var m := have + u;
      forall i, j | 0 <= i < j < |m| ensures m[i] != m[j] {
        if j >= |have| {
          assert m[j] == u[j - |have|];
          if i >= |have| { assert m[i] == u[i - |have|]; } else { assert m[i] == have[i] && have[i] in have && u[j - |have|] in u; }
        } else {
          assert m[i] == have[i] && m[j] == have[j];
        }
      }
    }
  }

  /**
   * Once the emitted ids have been appended, evaluating the same readings again
   * emits nothing, and so does evaluating readings that are no higher.
   */
  lemma UnlocksSettle(speed: real, dist: real, duration: int, have: seq<string>,
                      speed': real, dist': real, duration': int)
    requires speed' <= speed && dist' <= dist && duration' <= duration
    ensures Unlocks(speed', dist', duration', have + Unlocks(speed, dist, duration, have)) == []
  {
    var u := Unlocks(speed, dist, duration, have);
    var u' := Unlocks(speed', dist', duration', have + u);
    UnlocksSpeedThresholds(speed, dist, duration, have);
    UnlocksDistanceThresholds(speed, dist, duration, have);
    UnlocksDurationThreshold(speed, dist, duration, have);
    UnlocksUnfolded(speed', dist', duration', have + u);
  }

  /**
   * The achievement list after a run of watch callbacks, as the source has
   * it: each callback appends what the evaluator emits (a functional update
   * of the list), but every callback was created by the same `startTracking`
   * and so tests `includes` against `seen`, the list captured at that
   * moment, and with the distance and duration captured then as well.
   */
  function StaleAwards(prev: seq<string>, speeds: seq<real>, dist: real, duration: int, seen: seq<string>): (r: seq<string>)
    ensures prev <= r
    decreases |speeds|
  {
    if speeds == [] then prev
    else StaleAwards(prev + Unlocks(speeds[0], dist, duration, seen), speeds[1..], dist, duration, seen)
  }

  /** Two samples above 50 km/h with nothing unlocked at the start append "highway_cruiser" twice. */
  lemma StaleAwardsRepeat()
    ensures StaleAwards([], [60.0, 60.0], 0.0, 0, []) == ["highway_cruiser", "highway_cruiser"]
    ensures !NoDuplicates(StaleAwards([], [60.0, 60.0], 0.0, 0, []))
  {
    UnlocksUnfolded(60.0, 0.0, 0, []);
    var u := Unlocks(60.0, 0.0, 0, []);
    assert u == ["highway_cruiser"];
    assert [60.0, 60.0][1..] == [60.0] && [60.0][1..] == [];
    calc {
      StaleAwards([], [60.0, 60.0], 0.0, 0, []);
      StaleAwards([] + u, [60.0], 0.0, 0, []);
      StaleAwards([] + u + u, [], 0.0, 0, []);
      [] + u + u;
    }
    var r := StaleAwards([], [60.0, 60.0], 0.0, 0, []);
    assert r[0] == r[1];
  }

  /**
   * With the distance and duration captured as 0 (a first session), the
   * stale callbacks can only ever add the two speed achievements.
   */
  lemma {:induction false} StaleAwardsSpeedOnly(prev: seq<string>, speeds: seq<real>, seen: seq<string>)
    ensures forall id :: id in StaleAwards(prev, speeds, 0.0, 0, seen) ==>
      id in prev || id == "speed_demon" || id == "highway_cruiser"
    decreases |speeds|
  {
    if speeds != [] {
      var u := Unlocks(speeds[0], 0.0, 0, seen);
      UnlocksDistanceThresholds(speeds[0], 0.0, 0, seen);
      UnlocksDurationThreshold(speeds[0], 0.0, 0, seen);
      StaleAwardsSpeedOnly(prev + u, speeds[1..], seen);
    }
  }

  /** The readings one callback hands to the evaluator. */
  datatype Readings = Readings(speed: real, dist: real, duration: int)

  /** The intended run: each callback tests against the list as it stands after the callbacks before it. */
  function FreshAwards(prev: seq<string>, readings: seq<Readings>): (r: seq<string>)
    ensures prev <= r
    decreases |readings|
  {
    if readings == [] then prev
    else
      var r := readings[0];
      FreshAwards(prev + Unlocks(r.speed, r.dist, r.duration, prev), readings[1..])
  }

  /**
   * In the intended run a duplicate-free list stays duplicate-free, it only
   * grows at the end, and everything it gains is an evaluator id.
   */
  lemma {:induction false} FreshAwardsDistinct(prev: seq<string>, readings: seq<Readings>)
    requires NoDuplicates(prev)
    ensures var a := FreshAwards(prev, readings);
      && NoDuplicates(a)
      && prev <= a
      && forall id :: id in a ==> id in prev || id in RuleIds
    decreases |readings|
  {
    if readings != [] {
      var r := readings[0];
      var u := Unlocks(r.speed, r.dist, r.duration, prev);
      UnlocksAreFreshAndOrdered(r.speed, r.dist, r.duration, prev);
      UnlocksDurationThreshold(r.speed, r.dist, r.duration, prev);
      FreshAwardsDistinct(prev + u, readings[1..]);
    }
  }

  /**
   * In the intended run one callback whose readings pass a distance or
   * duration threshold leaves that achievement unlocked, whatever was held.
   */
  lemma FreshAwardsReachThresholds(prev: seq<string>, r: Readings)
    ensures var a := FreshAwards(prev, [r]);
      && (r.dist > 100.0 ==> "century_rider" in a)
      && (r.dist > 10.0 ==> "explorer" in a)
      && (r.duration > 3600 ==> "endurance_master" in a)
  {
    var u := Unlocks(r.speed, r.dist, r.duration, prev);
    UnlocksDistanceThresholds(r.speed, r.dist, r.duration, prev);
    UnlocksDurationThreshold(r.speed, r.dist, r.duration, prev);
    assert [r][1..] == [];
    assert FreshAwards(prev, [r]) == prev + u;
  }
}
