/**
 * The buddy character that grows with the user's points: six stages cut at
 * 500, 1000, 2000, 3500 and 5000 points, a name and a picture per stage, and
 * the component state that tracks the stage and raises a level-up
 * celebration when the points cross into a higher stage.
 */
module Buddy {
  import opened Common

  /** The points at which stages 1 to 5 begin. */
  const StageThresholds: seq<int> := [500, 1000, 2000, 3500, 5000]

  /** The highest stage. */
  const TopStage: nat := 5

  /**
   * `getStage`: the number of thresholds the points have reached. Negative
   * points are below every threshold and give stage 0.
   */
  function GetStage(points: int): (stage: nat)
    ensures stage <= TopStage
    ensures stage > 0 ==> StageThresholds[stage - 1] <= points
    ensures stage < TopStage ==> points < StageThresholds[stage]
  {
    if points < 500 then 0
    else if points < 1000 then 1
    else if points < 2000 then 2
    else if points < 3500 then 3
    else if points < 5000 then 4
    else 5
  }

  /** More points never mean a lower stage. */
  lemma GetStageMonotone(p: int, q: int)
    requires p <= q
    ensures GetStage(p) <= GetStage(q)
  {
  }

  /** Each threshold is the first point value of its stage. */
  lemma GetStageBoundaries()
    ensures GetStage(499) == 0 && GetStage(500) == 1
    ensures GetStage(999) == 1 && GetStage(1000) == 2
    ensures GetStage(1999) == 2 && GetStage(2000) == 3
    ensures GetStage(3499) == 3 && GetStage(3500) == 4
    ensures GetStage(4999) == 4 && GetStage(5000) == 5
  {
  }

  const StageNames: seq<string> := [
    "Job Seeker", "Getting Started", "Rising Star", "Professional", "Executive", "Wealthy Entrepreneur"
  ]

  /** `getStageName`: the name of a stage; outside 0..5 the lookup is `undefined`. */
  function GetStageName(stage: int): (name: Option<string>)
    ensures name.Some? <==> 0 <= stage <= TopStage
    ensures stage == 0 ==> name == Some("Job Seeker")
    ensures stage == TopStage ==> name == Some("Wealthy Entrepreneur")
  {
    if 0 <= stage < |StageNames| then Some(StageNames[stage]) else None
  }

  /** Whatever the points, the stage the component shows has a name. */
  lemma EveryStageIsNamed(points: int)
    ensures GetStageName(GetStage(points)).Some?
  {
  }

  /** The six pictures, in stage order. */
  const BuddyImages: seq<string> := [
    "/characters/char1.png", "/characters/char2.png", "/characters/char3.png",
    "/characters/char4.png", "/characters/char5.png", "/characters/char6.png"
  ]

  /** `getBuddyImage`: the stage's picture, or the first picture for an index with none. */
  function GetBuddyImage(stage: int): (image: string)
    ensures image in BuddyImages
    ensures 0 <= stage <= TopStage ==> image == BuddyImages[stage]
    ensures !(0 <= stage <= TopStage) ==> image == BuddyImages[0]
  {
    if 0 <= stage < |BuddyImages| then BuddyImages[stage] else BuddyImages[0]
  }

  /** Different stages never share a picture. */
  lemma StageImagesDistinct(s1: nat, s2: nat)
    requires s1 <= TopStage && s2 <= TopStage && s1 != s2
    ensures GetBuddyImage(s1) != GetBuddyImage(s2)
  {
  }

  /**
   * The stage-change effect as a step: the new stage is `getStage(points)`,
   * and a celebration starts exactly when that stage is above the current one.
   */
  function StageChange(currentStage: nat, points: int): (r: (nat, bool))
    ensures r.0 == GetStage(points)
    ensures r.1 <==> currentStage < GetStage(points)
  {
    var newStage := GetStage(points);
    (newStage, newStage > currentStage)
  }

  /** A loss of points lowers the stage without a celebration. */
  lemma DropIsSilent(currentStage: nat, points: int)
    requires GetStage(points) < currentStage
    ensures StageChange(currentStage, points) == (GetStage(points), false)
  {
  }

  /** The celebrations fired by a run of point values, starting from `currentStage`. */
  function LevelUps(currentStage: nat, points: seq<int>): nat
    decreases |points|
  {
    if points == [] then 0
    else
      var (newStage, levelUp) := StageChange(currentStage, points[0]);
      (if levelUp then 1 else 0) + LevelUps(newStage, points[1..])
  }

  predicate NonDecreasing(points: seq<int>)
  {
    forall i, j :: 0 <= i < j < |points| ==> points[i] <= points[j]
  }

  /**
   * While the points only grow, each celebration marks at least one stage
   * gained, so there are no more of them than stages climbed.
   */
  lemma {:induction false} RisingPointsLevelUpsBounded(currentStage: nat, points: seq<int>)
    requires NonDecreasing(points)
    requires points != [] && currentStage <= GetStage(points[0])
    ensures LevelUps(currentStage, points) <= GetStage(points[|points| - 1]) - currentStage
    decreases |points|
  {
    var rest := points[1..];
    if rest != [] {
      GetStageMonotone(points[0], points[1]);
      assert NonDecreasing(rest) by {
        forall i, j | 0 <= i < j < |rest| ensures rest[i] <= rest[j] {
          assert rest[i] == points[i + 1] && rest[j] == points[j + 1];
        }
      }
      RisingPointsLevelUpsBounded(GetStage(points[0]), rest);
      assert rest[|rest| - 1] == points[|points| - 1];
    }
  }

  /** A freshly mounted buddy celebrates at most five times while the points rise. */
  lemma AtMostFiveLevelUps(points: seq<int>)
    requires NonDecreasing(points)
    ensures LevelUps(0, points) <= TopStage
  {
    if points != [] {
      RisingPointsLevelUpsBounded(0, points);
    }
  }

  /** The `currentStage` / `showLevelUp` state of one mounted buddy. */
  class BuddyState {
    var currentStage: nat
    var showLevelUp: bool

    constructor ()
      ensures currentStage == 0 && !showLevelUp
    {
      currentStage := 0;
      showLevelUp := false;
    }

    /**
     * The effect run when `points` changes: raises the celebration when the
     * stage goes up, and always moves to the stage of the new points.
     */
    method OnPointsChanged(points: int) returns (levelUp: bool)
      modifies this
      ensures (currentStage, levelUp) == StageChange(old(currentStage), points)
      ensures showLevelUp == (old(showLevelUp) || levelUp)
    {
      var newStage := GetStage(points);
      levelUp := newStage > currentStage;
      if levelUp {
        showLevelUp := true;
      }
      currentStage := newStage;
    }

    /** The timer that ends the celebration. */
    method EndCelebration()
      modifies this
      ensures !showLevelUp && currentStage == old(currentStage)
    {
      showLevelUp := false;
    }

    /** The label of the level badge: the current stage's name. */
    function StageLabel(): (name: Option<string>)
      reads this
      ensures currentStage <= TopStage ==> name.Some?
    {
      GetStageName(currentStage)
    }
  }
}
