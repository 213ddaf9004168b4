/**
 * The achievement panel (components/achievement-panel.tsx): a fixed catalogue
 * of ten achievements, each marked unlocked when its id is among the ids the
 * page has collected, with the unlocked count and the completion percentage.
 */
module AchievementPanel {
  import Achievements
  import opened Arith

  datatype Achievement = Achievement(id: string, name: string, description: string, icon: string, unlocked: bool)

  /** `allAchievements`, every entry initially locked. */
  const AllAchievements: seq<Achievement> := [
    Achievement("first_journey", "First Steps", "Complete your first journey", "🚶", false),
    Achievement("speed_demon", "Speed Demon", "Reach 100+ km/h", "🏎️", false),
    Achievement("highway_cruiser", "Highway Cruiser", "Reach 50+ km/h", "🛣️", false),
    Achievement("century_rider", "Century Rider", "Travel 100+ km in one journey", "🚴", false),
    Achievement("explorer", "Explorer", "Travel 10+ km", "🗺️", false),
    Achievement("endurance_master", "Endurance Master", "Journey for over 1 hour", "⏱️", false),
    Achievement("altitude_climber", "Altitude Climber", "Gain 500m elevation", "🏔️", false),
    Achievement("weather_warrior", "Weather Warrior", "Track in 5 different weather conditions", "🌦️", false),
    Achievement("night_rider", "Night Rider", "Complete a journey after sunset", "🌙", false),
    Achievement("multi_modal", "Multi-Modal Master", "Use all transport modes", "🚁", false)
  ]

  /** The catalogue's ids, in catalogue order. */
  function CatalogueIds(): (ids: seq<string>)
    ensures |ids| == |AllAchievements|
    ensures forall i :: 0 <= i < |ids| ==> ids[i] == AllAchievements[i].id
  {
    seq(|AllAchievements|, i requires 0 <= i < |AllAchievements| => AllAchievements[i].id)
  }

  /**
   * `achievementsWithStatus`: the catalogue in its own order, each entry
   * unchanged except that it is unlocked exactly when its id was collected.
   */
  function WithStatus(achievements: seq<string>): (r: seq<Achievement>)
    ensures |r| == |AllAchievements| == 10
    ensures forall i :: 0 <= i < |r| ==>
      && r[i].id == AllAchievements[i].id
      && r[i].name == AllAchievements[i].name
      && r[i].description == AllAchievements[i].description
      && r[i].icon == AllAchievements[i].icon
      && (r[i].unlocked <==> AllAchievements[i].id in achievements)
  {
    seq(|AllAchievements|, i requires 0 <= i < |AllAchievements| =>
      AllAchievements[i].(unlocked := AllAchievements[i].id in achievements))
  }

  /** The number of unlocked entries, as `filter((a) => a.unlocked).length`. */
  function CountUnlocked(s: seq<Achievement>): nat
  {
    if s == [] then 0 else (if s[0].unlocked then 1 else 0) + CountUnlocked(s[1..])
  }

  /** `unlockedCount`. */
  function UnlockedCount(achievements: seq<string>): (r: nat)
    ensures r <= 10
  {
    CountAtMostLength(WithStatus(achievements));
    CountUnlocked(WithStatus(achievements))
  }

  /** `totalCount`. */
  function TotalCount(): nat
  {
    |WithStatus([])|
  }

  /** The percentage shown under the progress bar, `Math.round(unlockedCount / totalCount * 100)`. */
  function CompletionPercent(achievements: seq<string>): (r: int)
    ensures 0 <= r <= 100
  {
    Round(UnlockedCount(achievements) as real / TotalCount() as real * 100.0)
  }

  /** At most as many entries are unlocked as there are entries. */
  lemma {:induction false} CountAtMostLength(s: seq<Achievement>)
    ensures CountUnlocked(s) <= |s|
  {
    if s != [] { CountAtMostLength(s[1..]); }
  }

  /** Entries that are unlocked in `a` are unlocked in `b` at the same positions: the count cannot drop. */
  lemma {:induction false} CountMonotone(a: seq<Achievement>, b: seq<Achievement>)
    requires |a| == |b|
    requires forall i :: 0 <= i < |a| ==> a[i].unlocked ==> b[i].unlocked
    ensures CountUnlocked(a) <= CountUnlocked(b)
  {
    if a != [] {
      forall i | 0 <= i < |a| - 1 ensures a[1..][i].unlocked ==> b[1..][i].unlocked {
        assert a[1..][i] == a[i + 1] && b[1..][i] == b[i + 1];
      }
      CountMonotone(a[1..], b[1..]);
    }
  }

  /**
   * The unlocked count is at most the catalogue size; it only grows when more
   * catalogue ids are collected, and so does the percentage.
   */
  lemma UnlockedCountMonotone(a: seq<string>, b: seq<string>)
    requires forall id :: id in CatalogueIds() && id in a ==> id in b
    ensures UnlockedCount(a) <= UnlockedCount(b) <= TotalCount() == 10
    ensures CompletionPercent(a) <= CompletionPercent(b)
  {
    var wa, wb := WithStatus(a), WithStatus(b);
    forall i | 0 <= i < |wa| ensures wa[i].unlocked ==> wb[i].unlocked {
      assert CatalogueIds()[i] == AllAchievements[i].id;
    }
    CountMonotone(wa, wb);
    CountAtMostLength(wb);
    PercentIsTenPerUnlock(a);
    PercentIsTenPerUnlock(b);
  }

  /**
   * Only which catalogue ids are present matters: ids outside the catalogue
   * and repeated ids leave the count and the percentage unchanged.
   */
  lemma UnlockedCountIgnoresExtras(a: seq<string>, b: seq<string>)
    requires forall id :: id in CatalogueIds() ==> (id in a <==> id in b)
    ensures UnlockedCount(a) == UnlockedCount(b)
    ensures CompletionPercent(a) == CompletionPercent(b)
  {
    UnlockedCountMonotone(a, b);
    UnlockedCountMonotone(b, a);
  }

  /** The percentage is exactly ten per unlocked achievement, so it lies in [0, 100]. */
  lemma PercentIsTenPerUnlock(achievements: seq<string>)
    ensures CompletionPercent(achievements) == 10 * UnlockedCount(achievements)
    ensures 0 <= CompletionPercent(achievements) <= 100
  {
    var c := UnlockedCount(achievements);
    CountAtMostLength(WithStatus(achievements));
    assert c as real / 10.0 * 100.0 + 0.5 == (10 * c) as real + 0.5;
  }

  /** With nothing collected nothing is unlocked, and the panel shows 0%. */
  lemma NothingUnlocked()
    ensures UnlockedCount([]) == 0 && CompletionPercent([]) == 0
  {
    AllLockedCountsZero(WithStatus([]));
    PercentIsTenPerUnlock([]);
  }

  /** With every catalogue id collected everything is unlocked, and the panel shows 100%. */
  lemma EverythingUnlocked(achievements: seq<string>)
    requires forall id :: id in CatalogueIds() ==> id in achievements
    ensures UnlockedCount(achievements) == 10 && CompletionPercent(achievements) == 100
  {
    var w := WithStatus(achievements);
    forall i | 0 <= i < |w| ensures w[i].unlocked {
      assert CatalogueIds()[i] == AllAchievements[i].id;
    }
    AllUnlockedCountsAll(w);
    PercentIsTenPerUnlock(achievements);
  }

  lemma {:induction false} AllLockedCountsZero(s: seq<Achievement>)
    requires forall i :: 0 <= i < |s| ==> !s[i].unlocked
    ensures CountUnlocked(s) == 0
  {
    if s != [] {
      assert forall i :: 0 <= i < |s| - 1 ==> s[1..][i] == s[i + 1];
      AllLockedCountsZero(s[1..]);
    }
  }

  lemma {:induction false} AllUnlockedCountsAll(s: seq<Achievement>)
    requires forall i :: 0 <= i < |s| ==> s[i].unlocked
    ensures CountUnlocked(s) == |s|
  {
    if s != [] {
      assert forall i :: 0 <= i < |s| - 1 ==> s[1..][i] == s[i + 1];
      AllUnlockedCountsAll(s[1..]);
    }
  }

  /**
   * Every id the page's evaluator can emit is a catalogue id; so when the
   * collected ids all come from the evaluator, at most 5 of the 10 are unlocked.
   */
  lemma PageIdsUnlockAtMostFive(achievements: seq<string>)
    requires forall id :: id in achievements ==> id in Achievements.RuleIds
    ensures forall id :: id in Achievements.RuleIds ==> id in CatalogueIds()
    ensures UnlockedCount(achievements) <= 5
  {
    var ids := CatalogueIds();
    assert ids[1] == "speed_demon" && ids[2] == "highway_cruiser" && ids[3] == "century_rider";
    assert ids[4] == "explorer" && ids[5] == "endurance_master";
    var w := WithStatus(achievements);
    var cap := seq(10, i requires 0 <= i < 10 => w[i].(unlocked := 1 <= i <= 5));
    forall i | 0 <= i < 10 ensures w[i].unlocked ==> cap[i].unlocked {
      if w[i].unlocked {
        assert AllAchievements[i].id in achievements;
        assert AllAchievements[i].id in Achievements.RuleIds;
      }
    }
    CountMonotone(w, cap);
    FiveOfTen(cap);
  }

  lemma FiveOfTen(s: seq<Achievement>)
    requires |s| == 10 && forall i :: 0 <= i < 10 ==> (s[i].unlocked <==> 1 <= i <= 5)
    ensures CountUnlocked(s) == 5
  {
    var a, b, c := s[..1], s[1..6], s[6..];
    assert s == a + (b + c);
    CountConcat(b, c);
    CountConcat(a, b + c);
    AllLockedCountsZero(a);
    AllUnlockedCountsAll(b);
    AllLockedCountsZero(c);
  }

  lemma {:induction false} CountConcat(a: seq<Achievement>, b: seq<Achievement>)
    ensures CountUnlocked(a + b) == CountUnlocked(a) + CountUnlocked(b)
  {
    if a != [] {
      assert (a + b)[1..] == a[1..] + b;
      CountConcat(a[1..], b);
    } else {
      assert a + b == b;
    }
  }
}
