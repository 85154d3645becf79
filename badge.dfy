/**
 * The badge contract: achievement badges minted with consecutive ids, kept in
 * per-owner id lists, with once-only achievement flags and transfers between
 * owners. The storage of the contract is gathered into a `BadgeStorage` value
 * so that a mint or a transfer is specified by a function on that value.
 */
module Badge {
  import opened Common

  datatype BadgeTier = Bronze | Silver | Gold | Platinum

  datatype AchievementType =
    | QuestCompletion(tier: BadgeTier)
    | PerfectAttendance
    | Overachiever
    | SpeedDemon
    | Streak10
    | Streak30
    | Applications100
    | MultiQuest5

  datatype Badge = Badge(
    id: nat,
    owner: Address,
    achievementType: AchievementType,
    questId: Option<nat>,
    mintedAt: nat,
    metadataUri: string,
    rarityScore: nat)

  datatype BadgeCollection = BadgeCollection(owner: Address, badges: seq<nat>, totalScore: nat)

  /** One constructor per abort message of the contract. */
  datatype BadgeError = InvalidDuration | AlreadyHasAchievement | BadgeNotFound | NotTheOwner

  /** `get_metadata_uri` returns this for every achievement. */
  const MetadataUri: string := "ipfs://badges/"

  /** The rarity scores fixed by the contract for its bonus badges. */
  const PerfectRarity: nat := 50
  const OverachieverRarity: nat := 40
  const MilestoneRarity: nat := 75

  /** A user reaches the MultiQuest5 milestone with this many badges. */
  const MilestoneBadgeCount: nat := 5

  /** The tier of a quest's completion badge, from its duration. */
  function TierFor(durationDays: nat): (r: Result<BadgeTier, BadgeError>)
    ensures r.Success? <==> durationDays == 7 || durationDays == 14 || durationDays == 30 || durationDays == 90
    ensures r.Failure? ==> r.error == InvalidDuration
  {
    match durationDays
    case 7 => Success(Bronze)
    case 14 => Success(Silver)
    case 30 => Success(Gold)
    case 90 => Success(Platinum)
    case _ => Failure(InvalidDuration)
  }

  /** Different durations never share a tier. */
  lemma TierForInjective(d1: nat, d2: nat)
    requires TierFor(d1).Success? && TierFor(d2).Success? && TierFor(d1) == TierFor(d2)
    ensures d1 == d2
  {
  }

  /** `calculate_rarity`: the duration, plus 20 for a perfect quest and 15 for an overachiever. */
  function CalculateRarity(duration: nat, perfect: bool, overachiever: bool): (r: nat)
    ensures r >= duration
    ensures r == duration <==> !perfect && !overachiever
    ensures perfect && overachiever ==> r == duration + 35
  {
    var score := duration;
    var score := if perfect then score + 20 else score;
    if overachiever then score + 15 else score
  }

  /** Each bonus adds its own amount, whatever the other bonus is: 20 for a perfect quest, 15 for an overachiever. */
  lemma RarityBonuses(duration: nat, perfect: bool, overachiever: bool)
    ensures CalculateRarity(duration, true, overachiever) == CalculateRarity(duration, false, overachiever) + 20
    ensures CalculateRarity(duration, perfect, true) == CalculateRarity(duration, perfect, false) + 15
  {
  }

  /** A badge the contract is about to mint: what it records besides id, owner and time. */
  datatype Mint = Mint(achievement: AchievementType, questId: Option<nat>, rarity: nat)

  /** The storage of the badge contract. */
  datatype BadgeStorage = BadgeStorage(
    counter: nat,
    badges: map<nat, Badge>,
    owners: map<nat, Address>,
    userBadges: map<Address, seq<nat>>,
    achievements: set<(Address, AchievementType)>)

  /** `get_user_badges` on a storage value: the list, or empty when none was stored. */
  function UserList(lists: map<Address, seq<nat>>, user: Address): seq<nat>
  {
    if user in lists then lists[user] else []
  }

  /** No id occurs twice in the list. */
  ghost predicate NoDup(xs: seq<nat>)
  {
    forall y :: multiset(xs)[y] <= 1
  }

  /** Every badge is stored under its id, at most the counter, and its owner entry agrees. */
  ghost predicate BadgesStored(s: BadgeStorage)
  {
    forall id :: id in s.badges ==>
      1 <= id <= s.counter && s.badges[id].id == id && id in s.owners && s.owners[id] == s.badges[id].owner
  }

  /** No owner entry without a badge. */
  ghost predicate OwnersStored(s: BadgeStorage)
  {
    forall id :: id in s.owners ==> id in s.badges
  }

  /** A user's list names only badges that user owns. */
  ghost predicate ListsOwned(s: BadgeStorage)
  {
    forall u, id :: u in s.userBadges && id in s.userBadges[u] ==> id in s.badges && s.badges[id].owner == u
  }

  /** Every badge is in its owner's list. */
  ghost predicate BadgesListed(s: BadgeStorage)
  {
    forall id :: id in s.badges ==> id in UserList(s.userBadges, s.badges[id].owner)
  }

  /** No list names a badge twice. */
  ghost predicate ListsDistinct(s: BadgeStorage)
  {
    forall u :: u in s.userBadges ==> NoDup(s.userBadges[u])
  }

  /**
   * The storage invariant: the badges, their owner entries and the per-user
   * lists agree, and each user's list holds each of that user's badges
   * exactly once and nothing else.
   */
  ghost predicate Consistent(s: BadgeStorage)
  {
    BadgesStored(s) && OwnersStored(s) && ListsOwned(s) && BadgesListed(s) && ListsDistinct(s)
  }

  lemma ListedAreStored(s: BadgeStorage, u: Address)
    requires ListsOwned(s)
    ensures forall id :: id in UserList(s.userBadges, u) ==> id in s.badges && s.badges[id].owner == u
  {
  }

  /** The badge a mint stores under `id`. */
  function BadgeOf(id: nat, owner: Address, m: Mint, now: nat): Badge
  {
    Badge(id, owner, m.achievement, m.questId, now, MetadataUri, m.rarity)
  }

  /** `mint_badge`: the next id, a new badge, its owner entry, the achievement flag, the owner's list. */
  function MintStep(s: BadgeStorage, owner: Address, m: Mint, now: nat): (t: BadgeStorage)
    ensures t.counter == s.counter + 1
    ensures UserList(t.userBadges, owner) == UserList(s.userBadges, owner) + [s.counter + 1]
    ensures t.achievements == s.achievements + {(owner, m.achievement)}
  {
    var id := s.counter + 1;
    BadgeStorage(
      id,
      s.badges[id := BadgeOf(id, owner, m, now)],
      s.owners[id := owner],
      s.userBadges[owner := UserList(s.userBadges, owner) + [id]],
      s.achievements + {(owner, m.achievement)})
  }

  /** A mint takes a fresh id, appends it to the owner's list only, keeps every older badge and sets the flag. */
  lemma MintStepFacts(s: BadgeStorage, owner: Address, m: Mint, now: nat)
    requires BadgesStored(s)
    ensures var t := MintStep(s, owner, m, now);
      && BadgesStored(t)
      && t.counter == s.counter + 1
      && s.counter + 1 !in s.badges
      && UserList(t.userBadges, owner) == UserList(s.userBadges, owner) + [s.counter + 1]
      && (forall u :: u != owner ==> UserList(t.userBadges, u) == UserList(s.userBadges, u))
      && (forall id :: id in s.badges ==> id in t.badges && t.badges[id] == s.badges[id])
      && t.achievements == s.achievements + {(owner, m.achievement)}
  {
  }

  lemma MintStepListsOwned(s: BadgeStorage, owner: Address, m: Mint, now: nat)
    requires BadgesStored(s) && ListsOwned(s)
    ensures ListsOwned(MintStep(s, owner, m, now))
  {
    var t := MintStep(s, owner, m, now);
    var list := UserList(s.userBadges, owner);
    forall u, x | u in t.userBadges && x in t.userBadges[u]
      ensures x in t.badges && t.badges[x].owner == u
    {
      var id := s.counter + 1;
      assert t.badges == s.badges[id := BadgeOf(id, owner, m, now)];
      if u == owner && x != id {
        assert t.userBadges[u] == list + [id];
        assert x in list;
        assert x in s.badges && x != id;
      } else if u != owner {
        assert t.userBadges[u] == s.userBadges[u];
        assert x in s.badges && x != id;
      }
    }
  }

  lemma MintStepListsDistinct(s: BadgeStorage, owner: Address, m: Mint, now: nat)
    requires BadgesStored(s) && ListsOwned(s) && ListsDistinct(s)
    ensures ListsDistinct(MintStep(s, owner, m, now))
  {
    var t := MintStep(s, owner, m, now);
    var id: nat := s.counter + 1;
    var list := UserList(s.userBadges, owner);
    ListedAreStored(s, owner);
    assert id !in list;
    assert NoDup(list) by {
      if owner !in s.userBadges {
        assert list == [];
      }
    }
    assert multiset(list + [id]) == multiset(list) + multiset{id};
    forall u | u in t.userBadges
      ensures NoDup(t.userBadges[u])
    {
      if u != owner {
        assert t.userBadges[u] == s.userBadges[u];
      }
    }
  }

  lemma MintStepBadgesListed(s: BadgeStorage, owner: Address, m: Mint, now: nat)
    requires BadgesStored(s) && BadgesListed(s)
    ensures BadgesListed(MintStep(s, owner, m, now))
  {
    var t := MintStep(s, owner, m, now);
    forall b | b in t.badges
      ensures b in UserList(t.userBadges, t.badges[b].owner)
    {
      if b != t.counter {
        var u := s.badges[b].owner;
        assert b in UserList(s.userBadges, u);
      }
    }
  }

  /** Minting keeps the storage consistent. */
  lemma MintStepConsistent(s: BadgeStorage, owner: Address, m: Mint, now: nat)
    requires Consistent(s)
    ensures Consistent(MintStep(s, owner, m, now))
  {
    MintStepFacts(s, owner, m, now);
    MintStepListsOwned(s, owner, m, now);
    MintStepListsDistinct(s, owner, m, now);
    MintStepBadgesListed(s, owner, m, now);
  }

  /** A run of mints, one after the other, as `mint_quest_badge` performs them. */
  function MintAll(s: BadgeStorage, owner: Address, plan: seq<Mint>, now: nat): (t: BadgeStorage)
    decreases |plan|
  {
    if plan == [] then s
    else MintStep(MintAll(s, owner, plan[..|plan| - 1], now), owner, plan[|plan| - 1], now)
  }

  /** The consecutive ids `first`, `first + 1`, ..., `n` of them. */
  function IdRange(first: nat, n: nat): (ids: seq<nat>)
    ensures |ids| == n && forall i :: 0 <= i < n ==> ids[i] == first + i
  {
    seq(n, i => first + i)
  }

  lemma IdRangeSnoc(first: nat, n: nat)
    ensures IdRange(first, n) + [first + n] == IdRange(first, n + 1)
  {
  }

  /** Extending a run of mints by one more. */
  lemma MintAllExtend(s: BadgeStorage, owner: Address, done: seq<Mint>, m: Mint, now: nat)
    ensures MintAll(s, owner, done + [m], now) == MintStep(MintAll(s, owner, done, now), owner, m, now)
    ensures MintAll(s, owner, done, now).counter == s.counter + |done|
  {
    var plan := done + [m];
    assert plan[..|plan| - 1] == done;
    MintAllCounter(s, owner, done, now);
  }

  /** A run of mints keeps the storage consistent. */
  lemma {:induction false} MintAllConsistent(s: BadgeStorage, owner: Address, plan: seq<Mint>, now: nat)
    requires Consistent(s)
    ensures Consistent(MintAll(s, owner, plan, now))
    decreases |plan|
  {
    if plan != [] {
      var init := plan[..|plan| - 1];
      MintAllConsistent(s, owner, init, now);
      MintStepConsistent(MintAll(s, owner, init, now), owner, plan[|plan| - 1], now);
    }
  }

  /** A run of mints counts up by its length, keeps every older badge and the storage shape. */
  lemma {:induction false} MintAllStored(s: BadgeStorage, owner: Address, plan: seq<Mint>, now: nat)
    requires BadgesStored(s)
    ensures var t := MintAll(s, owner, plan, now);
      && BadgesStored(t)
      && t.counter == s.counter + |plan|
      && (forall id :: id in s.badges ==> id in t.badges && t.badges[id] == s.badges[id])
    decreases |plan|
  {
    if plan != [] {
      var init := plan[..|plan| - 1];
      MintAllStored(s, owner, init, now);
      MintStepFacts(MintAll(s, owner, init, now), owner, plan[|plan| - 1], now);
    }
  }

  /** A run of mints advances the counter by its length. */
  lemma {:induction false} MintAllCounter(s: BadgeStorage, owner: Address, plan: seq<Mint>, now: nat)
    ensures MintAll(s, owner, plan, now).counter == s.counter + |plan|
    decreases |plan|
  {
    if plan != [] {
      MintAllCounter(s, owner, plan[..|plan| - 1], now);
    }
  }

  /** A run of mints appends the next consecutive ids to the owner's list and no other. */
  lemma {:induction false} MintAllLists(s: BadgeStorage, owner: Address, plan: seq<Mint>, now: nat)
    ensures var t := MintAll(s, owner, plan, now);
      && t.counter == s.counter + |plan|
      && UserList(t.userBadges, owner) == UserList(s.userBadges, owner) + IdRange(s.counter + 1, |plan|)
      && (forall u :: u != owner ==> UserList(t.userBadges, u) == UserList(s.userBadges, u))
    decreases |plan|
  {
    if plan != [] {
      var init := plan[..|plan| - 1];
      MintAllLists(s, owner, init, now);
      var mid := MintAll(s, owner, init, now);
      assert IdRange(s.counter + 1, |plan|) == IdRange(s.counter + 1, |init|) + [mid.counter + 1];
    }
  }

  /** A run of mints stores each planned badge under its id. */
  lemma {:induction false} MintAllNew(s: BadgeStorage, owner: Address, plan: seq<Mint>, now: nat)
    requires BadgesStored(s)
    ensures var t := MintAll(s, owner, plan, now);
      forall id :: s.counter < id <= s.counter + |plan| ==>
        id in t.badges && t.badges[id] == BadgeOf(id, owner, plan[id - s.counter - 1], now)
    decreases |plan|
  {
    if plan != [] {
      var init, last := plan[..|plan| - 1], plan[|plan| - 1];
      MintAllNew(s, owner, init, now);
      MintAllStored(s, owner, init, now);
      var mid := MintAll(s, owner, init, now);
      MintStepFacts(mid, owner, last, now);
      var t := MintAll(s, owner, plan, now);
      forall id | s.counter < id <= s.counter + |plan|
        ensures id in t.badges && t.badges[id] == BadgeOf(id, owner, plan[id - s.counter - 1], now)
      {
        if id <= s.counter + |init| {
          assert plan[id - s.counter - 1] == init[id - s.counter - 1];
          assert id in mid.badges;
        }
      }
    }
  }

  /** A run of mints sets exactly the planned achievement flags of the owner. */
  lemma {:induction false} MintAllAchievements(s: BadgeStorage, owner: Address, plan: seq<Mint>, now: nat)
    ensures MintAll(s, owner, plan, now).achievements == s.achievements + set i | 0 <= i < |plan| :: (owner, plan[i].achievement)
    decreases |plan|
  {
    if plan != [] {
      var init, last := plan[..|plan| - 1], plan[|plan| - 1];
      MintAllAchievements(s, owner, init, now);
      assert (set i | 0 <= i < |plan| :: (owner, plan[i].achievement))
          == (set i | 0 <= i < |init| :: (owner, init[i].achievement)) + {(owner, last.achievement)} by {
        forall i | 0 <= i < |init| ensures plan[i] == init[i] { }
        assert plan[|init|] == last;
      }
    }
  }

  /**
   * A run of mints hands out the next consecutive ids, appends them to the
   * owner's list in order, leaves every other list alone, stores each planned
   * badge under its id, keeps every older badge and sets the planned flags.
   */
  lemma MintAllEffect(s: BadgeStorage, owner: Address, plan: seq<Mint>, now: nat)
    requires BadgesStored(s)
    ensures var t := MintAll(s, owner, plan, now);
      && BadgesStored(t)
      && t.counter == s.counter + |plan|
      && UserList(t.userBadges, owner) == UserList(s.userBadges, owner) + IdRange(s.counter + 1, |plan|)
      && (forall u :: u != owner ==> UserList(t.userBadges, u) == UserList(s.userBadges, u))
      && (forall id :: id in s.badges ==> id in t.badges && t.badges[id] == s.badges[id])
      && (forall id :: s.counter < id <= s.counter + |plan| ==>
            id in t.badges && t.badges[id] == BadgeOf(id, owner, plan[id - s.counter - 1], now))
      && t.achievements == s.achievements + set i | 0 <= i < |plan| :: (owner, plan[i].achievement)
  {
    MintAllStored(s, owner, plan, now);
    MintAllLists(s, owner, plan, now);
    MintAllNew(s, owner, plan, now);
    MintAllAchievements(s, owner, plan, now);
  }

  /** The badges `mint_quest_badge` mints before it checks the milestone. */
  function QuestBadgePlan(tier: BadgeTier, questId: nat, durationDays: nat, isPerfect: bool, isOverachiever: bool): (plan: seq<Mint>)
    ensures |plan| == 1 + (if isPerfect then 1 else 0) + (if isOverachiever then 1 else 0)
    ensures plan[0] == Mint(QuestCompletion(tier), Some(questId), CalculateRarity(durationDays, false, false))
    ensures plan[0].rarity == durationDays
    ensures forall i :: 0 <= i < |plan| ==> plan[i].achievement != MultiQuest5
  {
    [Mint(QuestCompletion(tier), Some(questId), CalculateRarity(durationDays, false, false))]
      + (if isPerfect then [Mint(PerfectAttendance, Some(questId), PerfectRarity)] else [])
      + (if isOverachiever then [Mint(Overachiever, Some(questId), OverachieverRarity)] else [])
  }

  /** `check_and_mint_milestones`: the owner holds enough badges and lacks the achievement. */
  predicate MilestoneDue(s: BadgeStorage, owner: Address): (due: bool)
    ensures due ==> |UserList(s.userBadges, owner)| >= MilestoneBadgeCount
    ensures (owner, MultiQuest5) in s.achievements ==> !due
    ensures |UserList(s.userBadges, owner)| >= MilestoneBadgeCount && (owner, MultiQuest5) !in s.achievements ==> due
  {
    |UserList(s.userBadges, owner)| >= MilestoneBadgeCount && (owner, MultiQuest5) !in s.achievements
  }

  /** The milestone decision, read off the storage before the call. */
  lemma MilestoneDueBefore(s: BadgeStorage, owner: Address, plan: seq<Mint>, now: nat)
    requires BadgesStored(s)
    requires forall i :: 0 <= i < |plan| ==> plan[i].achievement != MultiQuest5
    ensures MilestoneDue(MintAll(s, owner, plan, now), owner)
        <==> |UserList(s.userBadges, owner)| + |plan| >= MilestoneBadgeCount && (owner, MultiQuest5) !in s.achievements
  {
    MintAllEffect(s, owner, plan, now);
    var t := MintAll(s, owner, plan, now);
    assert (owner, MultiQuest5) in t.achievements <==> (owner, MultiQuest5) in s.achievements;
  }

  /** The badge `check_and_mint_milestones` mints. */
  const MilestoneMint := Mint(MultiQuest5, None, MilestoneRarity)

  /** `check_and_mint_milestones` on a storage value. */
  function MilestoneStep(s: BadgeStorage, owner: Address, now: nat): (t: BadgeStorage)
    ensures !MilestoneDue(t, owner)
    ensures (owner, MultiQuest5) in t.achievements <==> (owner, MultiQuest5) in s.achievements || MilestoneDue(s, owner)
    ensures |UserList(t.userBadges, owner)| == |UserList(s.userBadges, owner)| + if MilestoneDue(s, owner) then 1 else 0
  {
    if MilestoneDue(s, owner) then MintStep(s, owner, MilestoneMint, now) else s
  }

  /** Every mint of a quest badge call, the milestone included. */
  function FullQuestPlan(s: BadgeStorage, owner: Address, base: seq<Mint>, now: nat): seq<Mint>
  {
    base + if MilestoneDue(MintAll(s, owner, base, now), owner) then [MilestoneMint] else []
  }

  /** The mints of a quest-badge call before the milestone, on a storage value. */
  function BaseBadgeStep(s: BadgeStorage, owner: Address, tier: BadgeTier, questId: nat, durationDays: nat,
                         isPerfect: bool, isOverachiever: bool, now: nat): (t: BadgeStorage)
    ensures (owner, QuestCompletion(tier)) in t.achievements
    ensures isPerfect ==> (owner, PerfectAttendance) in t.achievements
    ensures isOverachiever ==> (owner, Overachiever) in t.achievements
    ensures |UserList(t.userBadges, owner)|
         == |UserList(s.userBadges, owner)| + 1 + (if isPerfect then 1 else 0) + (if isOverachiever then 1 else 0)
  {
    var s1 := MintStep(s, owner, Mint(QuestCompletion(tier), Some(questId), CalculateRarity(durationDays, false, false)), now);
    var s2 := if isPerfect then MintStep(s1, owner, Mint(PerfectAttendance, Some(questId), PerfectRarity), now) else s1;
    if isOverachiever then MintStep(s2, owner, Mint(Overachiever, Some(questId), OverachieverRarity), now) else s2
  }

  /** `mint_quest_badge` on a storage value, for a duration that has a tier. */
  function QuestBadgeStep(s: BadgeStorage, owner: Address, questId: nat, durationDays: nat,
                          isPerfect: bool, isOverachiever: bool, now: nat): (t: BadgeStorage)
    requires TierFor(durationDays).Success?
    ensures (owner, QuestCompletion(TierFor(durationDays).value)) in t.achievements
    ensures !MilestoneDue(t, owner)
  {
    MilestoneStep(BaseBadgeStep(s, owner, TierFor(durationDays).value, questId, durationDays, isPerfect, isOverachiever, now), owner, now)
  }

  /** Every badge a quest-badge call for a tier duration mints, in order. */
  function QuestBadgeMints(s: BadgeStorage, owner: Address, questId: nat, durationDays: nat,
                           isPerfect: bool, isOverachiever: bool, now: nat): seq<Mint>
    requires TierFor(durationDays).Success?
  {
    FullQuestPlan(s, owner, QuestBadgePlan(TierFor(durationDays).value, questId, durationDays, isPerfect, isOverachiever), now)
  }

  /** The mints before the milestone are the run of the base plan. */
  lemma BaseBadgeStepIsRun(s: BadgeStorage, owner: Address, tier: BadgeTier, questId: nat, durationDays: nat,
                           isPerfect: bool, isOverachiever: bool, now: nat)
    ensures BaseBadgeStep(s, owner, tier, questId, durationDays, isPerfect, isOverachiever, now)
         == MintAll(s, owner, QuestBadgePlan(tier, questId, durationDays, isPerfect, isOverachiever), now)
  {
    var m1 := Mint(QuestCompletion(tier), Some(questId), CalculateRarity(durationDays, false, false));
    var m2 := Mint(PerfectAttendance, Some(questId), PerfectRarity);
    var m3 := Mint(Overachiever, Some(questId), OverachieverRarity);
    MintAllExtend(s, owner, [], m1, now);
    assert [] + [m1] == [m1];
    var done := [m1] + if isPerfect then [m2] else [];
    if isPerfect {
      MintAllExtend(s, owner, [m1], m2, now);
    }
    if isOverachiever {
      MintAllExtend(s, owner, done, m3, now);
    }
    assert QuestBadgePlan(tier, questId, durationDays, isPerfect, isOverachiever) == done + if isOverachiever then [m3] else [];
  }

  /**
   * A quest-badge call is the run of its full plan: the tier badge, the
   * optional bonus badges and the milestone when it falls due.
   */
  lemma QuestBadgeStepIsRun(s: BadgeStorage, owner: Address, questId: nat, durationDays: nat,
                            isPerfect: bool, isOverachiever: bool, now: nat)
    requires TierFor(durationDays).Success?
    ensures QuestBadgeStep(s, owner, questId, durationDays, isPerfect, isOverachiever, now)
         == MintAll(s, owner, QuestBadgeMints(s, owner, questId, durationDays, isPerfect, isOverachiever, now), now)
  {
    var tier := TierFor(durationDays).value;
    var base := QuestBadgePlan(tier, questId, durationDays, isPerfect, isOverachiever);
    BaseBadgeStepIsRun(s, owner, tier, questId, durationDays, isPerfect, isOverachiever, now);
    var plan := FullQuestPlan(s, owner, base, now);
    if MilestoneDue(MintAll(s, owner, base, now), owner) {
      MintAllExtend(s, owner, base, MilestoneMint, now);
    } else {
      assert plan == base;
    }
  }

  /** `mint_streak_badge`'s choice of achievement. */
  function StreakAchievement(streakDays: nat): (a: AchievementType)
    ensures a == Streak30 <==> streakDays >= 30
    ensures a == Streak10 <==> streakDays < 30
  {
    if streakDays >= 30 then Streak30 else Streak10
  }

  /** `transfer` on a storage value, once its checks have passed. */
  function TransferStep(s: BadgeStorage, badgeId: nat, from: Address, to: Address): (t: BadgeStorage)
    requires badgeId in s.badges
    ensures t.badges.Keys == s.badges.Keys && t.badges[badgeId].owner == to
    ensures badgeId in t.owners && t.owners[badgeId] == to
    ensures var list := UserList(t.userBadges, to); |list| >= 1 && list[|list| - 1] == badgeId
    ensures t.counter == s.counter && t.achievements == s.achievements
  {
    var fromList := Without<nat>(UserList(s.userBadges, from), badgeId);
    var lists := s.userBadges[from := fromList];
    s.(badges := s.badges[badgeId := s.badges[badgeId].(owner := to)],
       owners := s.owners[badgeId := to],
       userBadges := lists[to := UserList(lists, to) + [badgeId]])
  }

  /** Facts about a transfer that hold whatever the lists hold. */
  lemma TransferFacts(s: BadgeStorage, badgeId: nat, from: Address, to: Address)
    requires BadgesStored(s) && OwnersStored(s) && badgeId in s.badges
    ensures var t := TransferStep(s, badgeId, from, to);
      && BadgesStored(t) && OwnersStored(t)
      && t.badges.Keys == s.badges.Keys
      && t.badges[badgeId] == s.badges[badgeId].(owner := to) && t.owners[badgeId] == to
      && (forall id :: id in s.badges && id != badgeId ==> t.badges[id] == s.badges[id])
      && t.achievements == s.achievements && t.counter == s.counter
  {
  }

  lemma TransferListsOwned(s: BadgeStorage, badgeId: nat, from: Address, to: Address)
    requires ListsOwned(s) && badgeId in s.badges && s.badges[badgeId].owner == from
    ensures ListsOwned(TransferStep(s, badgeId, from, to))
  {
    var t := TransferStep(s, badgeId, from, to);
    var before := UserList(s.userBadges, from);
    WithoutMembers<nat>(before, badgeId);
    ListedAreStored(s, from);
    ListedAreStored(s, to);
    forall u, x | u in t.userBadges && x in t.userBadges[u]
      ensures x in t.badges && t.badges[x].owner == u
    {
      if u != from && u != to {
        assert x in s.userBadges[u];
      }
    }
  }

  lemma TransferBadgesListed(s: BadgeStorage, badgeId: nat, from: Address, to: Address)
    requires BadgesListed(s) && badgeId in s.badges && s.badges[badgeId].owner == from
    ensures BadgesListed(TransferStep(s, badgeId, from, to))
  {
    var t := TransferStep(s, badgeId, from, to);
    var before := UserList(s.userBadges, from);
    WithoutMembers<nat>(before, badgeId);
    forall id | id in t.badges
      ensures id in UserList(t.userBadges, t.badges[id].owner)
    {
      if id != badgeId {
        var u := s.badges[id].owner;
        assert id in UserList(s.userBadges, u);
      }
    }
  }

  lemma TransferListsDistinct(s: BadgeStorage, badgeId: nat, from: Address, to: Address)
    requires ListsOwned(s) && ListsDistinct(s) && badgeId in s.badges && s.badges[badgeId].owner == from
    ensures ListsDistinct(TransferStep(s, badgeId, from, to))
  {
    var t := TransferStep(s, badgeId, from, to);
    var before := UserList(s.userBadges, from);
    var kept := Without<nat>(before, badgeId);
    WithoutMultiset<nat>(before, badgeId);
    assert NoDup(before) by {
      if from !in s.userBadges {
        assert before == [];
      }
    }
    assert NoDup(kept);
    var lists := s.userBadges[from := kept];
    var toBefore := UserList(lists, to);
    ListedAreStored(s, to);
    assert badgeId !in toBefore && NoDup(toBefore) by {
      if to == from {
        assert toBefore == kept;
      } else if to !in s.userBadges {
        assert toBefore == [];
      } else {
        assert toBefore == s.userBadges[to];
      }
    }
    assert multiset(toBefore + [badgeId]) == multiset(toBefore) + multiset{badgeId};
    forall u | u in t.userBadges
      ensures NoDup(t.userBadges[u])
    {
      if u != from && u != to {
        assert t.userBadges[u] == s.userBadges[u];
      }
    }
  }

  /** Transferring a badge from its owner keeps the storage invariant, also when `from == to`. */
  lemma TransferKeepsConsistent(s: BadgeStorage, badgeId: nat, from: Address, to: Address)
    requires Consistent(s) && badgeId in s.badges && s.badges[badgeId].owner == from
    ensures Consistent(TransferStep(s, badgeId, from, to))
  {
    TransferFacts(s, badgeId, from, to);
    TransferListsOwned(s, badgeId, from, to);
    TransferBadgesListed(s, badgeId, from, to);
    TransferListsDistinct(s, badgeId, from, to);
  }

  /**
   * A transfer between two different users gives the badge to `to`, takes its
   * one occurrence out of `from`'s list with every other id in its place,
   * appends it to `to`'s list, and leaves every other list alone.
   */
  lemma TransferMovesId(s: BadgeStorage, badgeId: nat, from: Address, to: Address)
    requires BadgesListed(s) && ListsDistinct(s) && badgeId in s.badges && s.badges[badgeId].owner == from && from != to
    ensures var t := TransferStep(s, badgeId, from, to);
      var before := UserList(s.userBadges, from);
      && (exists k :: 0 <= k < |before| && before[k] == badgeId &&
            UserList(t.userBadges, from) == before[..k] + before[k + 1..])
      && badgeId !in UserList(t.userBadges, from)
      && UserList(t.userBadges, to) == UserList(s.userBadges, to) + [badgeId]
      && (forall u :: u != from && u != to ==> UserList(t.userBadges, u) == UserList(s.userBadges, u))
  {
    var t := TransferStep(s, badgeId, from, to);
    var before := UserList(s.userBadges, from);
    var lists := s.userBadges[from := Without<nat>(before, badgeId)];
    assert t.userBadges == lists[to := UserList(lists, to) + [badgeId]];
    assert t.userBadges[from] == Without<nat>(before, badgeId);
    assert badgeId in before;
    assert from in s.userBadges;
    var k :| 0 <= k < |before| && before[k] == badgeId;
    var pre, post := before[..k], before[k + 1..];
    assert before == pre + [badgeId] + post;
    assert badgeId !in pre && badgeId !in post by {
      assert multiset(before) == multiset(pre) + multiset{badgeId} + multiset(post);
      assert multiset(before)[badgeId] <= 1;
    }
    WithoutSingle<nat>(pre, badgeId, post);
    WithoutMembers<nat>(before, badgeId);
    assert Without<nat>(before, badgeId) == pre + post;
  }

  /** One badge's contribution to a collection's score: nothing for an id with no badge. */
  function Score(badges: map<nat, Badge>, id: nat): nat
  {
    if id in badges then badges[id].rarityScore else 0
  }

  /** The score of a list of badge ids, summed front to back. */
  function TotalScore(ids: seq<nat>, badges: map<nat, Badge>): (total: nat)
    ensures forall k :: 0 <= k < |ids| ==> Score(badges, ids[k]) <= total
    decreases |ids|
  {
    if ids == [] then 0 else TotalScore(ids[..|ids| - 1], badges) + Score(badges, ids[|ids| - 1])
  }

  /** Scores of lists that avoid a changed id do not change. */
  lemma {:induction false} TotalScoreFrame(ids: seq<nat>, badges: map<nat, Badge>, id: nat, b: Badge)
    requires id !in ids
    ensures TotalScore(ids, badges[id := b]) == TotalScore(ids, badges)
    decreases |ids|
  {
    if ids != [] {
      TotalScoreFrame(ids[..|ids| - 1], badges, id, b);
    }
  }

  /** Scoring a concatenation adds the scores of its parts. */
  lemma {:induction false} TotalScoreConcat(a: seq<nat>, b: seq<nat>, badges: map<nat, Badge>)
    ensures TotalScore(a + b, badges) == TotalScore(a, badges) + TotalScore(b, badges)
    decreases |b|
  {
    if b == [] {
      assert a + b == a;
    } else {
      assert (a + b)[..|a + b| - 1] == a + b[..|b| - 1];
      TotalScoreConcat(a, b[..|b| - 1], badges);
    }
  }

  /** Minting a badge raises its owner's collection score by exactly the badge's rarity. */
  lemma ScoreAfterMint(s: BadgeStorage, owner: Address, m: Mint, now: nat)
    requires BadgesStored(s) && ListsOwned(s)
    ensures var t := MintStep(s, owner, m, now);
      TotalScore(UserList(t.userBadges, owner), t.badges) == TotalScore(UserList(s.userBadges, owner), s.badges) + m.rarity
  {
    var t := MintStep(s, owner, m, now);
    var id := s.counter + 1;
    var list := UserList(s.userBadges, owner);
    MintStepFacts(s, owner, m, now);
    ListedAreStored(s, owner);
    assert id !in list;
    TotalScoreFrame(list, s.badges, id, t.badges[id]);
    TotalScoreConcat(list, [id], t.badges);
    assert TotalScore([id], t.badges) == Score(t.badges, id) by {
      assert [id][..0] == [];
    }
  }

  class BadgeContract {
    const admin: Address
    const questContract: Address
    var badgeCounter: nat
    var badges: map<nat, Badge>
    var badgeOwners: map<nat, Address>
    var userBadges: map<Address, seq<nat>>
    /** The `AchievementBadge` flags; the contract only ever stores `true`. */
    var achievements: set<(Address, AchievementType)>

    function Storage(): BadgeStorage
      reads this
    {
      BadgeStorage(badgeCounter, badges, badgeOwners, userBadges, achievements)
    }

    ghost predicate Valid()
      reads this
    {
      Consistent(Storage())
    }

    /** `initialize`. */
    constructor (admin: Address, questContract: Address)
      ensures Valid()
      ensures this.admin == admin && this.questContract == questContract
      ensures Storage() == BadgeStorage(0, map[], map[], map[], {})
    {
      this.admin := admin;
      this.questContract := questContract;
      badgeCounter := 0;
      badges := map[];
      badgeOwners := map[];
      userBadges := map[];
      achievements := {};
    }

    /** `get_badge`. */
    function GetBadge(badgeId: nat): (r: Option<Badge>)
      reads this
      ensures r.Some? <==> badgeId in badges
      ensures r.Some? ==> r.value == badges[badgeId]
      ensures Valid() && r.Some? ==> r.value.id == badgeId && badgeId in GetUserBadges(r.value.owner)
    {
      if badgeId in badges then Some(badges[badgeId]) else None
    }

    /** `get_user_badges`. */
    function GetUserBadges(user: Address): (ids: seq<nat>)
      reads this
      ensures ids == UserList(userBadges, user)
      ensures Valid() ==> forall i :: 0 <= i < |ids| ==> ids[i] in badges && badges[ids[i]].owner == user
    {
      if user in userBadges then userBadges[user] else []
    }

    /** `has_achievement`: an unset flag reads as false. */
    function HasAchievement(user: Address, achievement: AchievementType): (r: bool)
      reads this
      ensures r <==> (user, achievement) in Storage().achievements
    {
      (user, achievement) in achievements
    }

    /** `mint_badge`. */
    method MintBadge(owner: Address, achievement: AchievementType, questId: Option<nat>, metadataUri: string,
                     rarityScore: nat, now: nat) returns (id: nat)
      requires Valid()
      requires metadataUri == MetadataUri
      modifies this
      ensures Valid()
      ensures id == old(badgeCounter) + 1
      ensures Storage() == MintStep(old(Storage()), owner, Mint(achievement, questId, rarityScore), now)
    {
      ghost var before := Storage();
      id := badgeCounter + 1;
      badgeCounter := id;
      badges := badges[id := Badge(id, owner, achievement, questId, now, metadataUri, rarityScore)];
      badgeOwners := badgeOwners[id := owner];
      achievements := achievements + {(owner, achievement)};
      userBadges := userBadges[owner := UserList(userBadges, owner) + [id]];
      ghost var after := MintStep(before, owner, Mint(achievement, questId, rarityScore), now);
      assert after.badges == badges && after.userBadges == userBadges;
      MintStepConsistent(before, owner, Mint(achievement, questId, rarityScore), now);
      StorageValid(this, after);
    }

    /**
     * `mint_quest_badge`: the completion badge of the duration's tier, then a
     * PerfectAttendance and an Overachiever badge when asked for, then the
     * MultiQuest5 milestone when it is due; returns their ids in that order.
     */
    method MintQuestBadge(owner: Address, questId: nat, durationDays: nat, isPerfect: bool, isOverachiever: bool, now: nat)
      returns (r: Result<seq<nat>, BadgeError>)
      requires Valid()
      modifies this
      ensures Valid()
      ensures r.Failure? <==> TierFor(durationDays).Failure?
      ensures r.Failure? ==> r.error == InvalidDuration && unchanged(this)
      ensures r.Success? ==>
        && Storage() == QuestBadgeStep(old(Storage()), owner, questId, durationDays, isPerfect, isOverachiever, now)
        && old(badgeCounter) + |r.value| == badgeCounter
        && forall i :: 0 <= i < |r.value| ==> r.value[i] == old(badgeCounter) + 1 + i
    {
      var tier := TierFor(durationDays);
      if tier.Failure? {
        return Failure(tier.error);
      }
      var minted := MintBaseBadges(owner, tier.value, questId, durationDays, isPerfect, isOverachiever, now);
      minted := CheckAndMintMilestones(owner, minted, now);
      r := Success(minted);
    }

    /** The badges of `mint_quest_badge` before the milestone check, with their ids in order. */
    method MintBaseBadges(owner: Address, tier: BadgeTier, questId: nat, durationDays: nat,
                          isPerfect: bool, isOverachiever: bool, now: nat) returns (minted: seq<nat>)
      requires Valid()
      modifies this
      ensures Valid()
      ensures Storage() == BaseBadgeStep(old(Storage()), owner, tier, questId, durationDays, isPerfect, isOverachiever, now)
      ensures old(badgeCounter) + |minted| == badgeCounter
      ensures forall i :: 0 <= i < |minted| ==> minted[i] == old(badgeCounter) + 1 + i
    {
      ghost var first := badgeCounter + 1;
      minted := MintAppend(owner, Mint(QuestCompletion(tier), Some(questId), CalculateRarity(durationDays, false, false)), now, [], first);
      if isPerfect {
        minted := MintAppend(owner, Mint(PerfectAttendance, Some(questId), PerfectRarity), now, minted, first);
      }
      if isOverachiever {
        minted := MintAppend(owner, Mint(Overachiever, Some(questId), OverachieverRarity), now, minted, first);
      }
    }

    /**
     * One `mint_badge` call of `mint_quest_badge`, its id appended to those
     * minted so far, which are the consecutive ids from `first` on.
     */
    method MintAppend(owner: Address, m: Mint, now: nat, minted: seq<nat>, ghost first: nat) returns (ids: seq<nat>)
      requires Valid()
      requires badgeCounter + 1 == first + |minted|
      requires forall i :: 0 <= i < |minted| ==> minted[i] == first + i
      modifies this
      ensures Valid()
      ensures Storage() == MintStep(old(Storage()), owner, m, now)
      ensures ids == minted + [old(badgeCounter) + 1] && badgeCounter == first - 1 + |ids|
      ensures forall i :: 0 <= i < |ids| ==> ids[i] == first + i
    {
      var id := MintBadge(owner, m.achievement, m.questId, MetadataUri, m.rarity, now);
      ids := minted + [id];
    }

    /** `check_and_mint_milestones`: mints MultiQuest5 once the owner holds five badges without it. */
    method CheckAndMintMilestones(owner: Address, minted: seq<nat>, now: nat) returns (result: seq<nat>)
      requires Valid()
      modifies this
      ensures Valid()
      ensures Storage() == MilestoneStep(old(Storage()), owner, now)
      ensures result == minted + if MilestoneDue(old(Storage()), owner) then [old(badgeCounter) + 1] else []
    {
      result := minted;
      var badgeCount := |GetUserBadges(owner)|;
      if badgeCount >= MilestoneBadgeCount && !HasAchievement(owner, MultiQuest5) {
        var id := MintBadge(owner, MultiQuest5, None, MetadataUri, MilestoneRarity, now);
        result := result + [id];
      }
    }

    /**
     * `mint_streak_badge`: Streak30 from 30 days on and Streak10 below, with the
     * streak length as rarity; aborts when the owner already has it.
     */
    method MintStreakBadge(owner: Address, streakDays: nat, now: nat) returns (r: Result<nat, BadgeError>)
      requires Valid()
      modifies this
      ensures Valid()
      ensures r.Failure? <==> (owner, StreakAchievement(streakDays)) in old(achievements)
      ensures r.Failure? ==> r.error == AlreadyHasAchievement && unchanged(this)
      ensures r.Success? ==>
        && r.value == old(badgeCounter) + 1
        && Storage() == MintStep(old(Storage()), owner, Mint(StreakAchievement(streakDays), None, streakDays), now)
    {
      var achievement := if streakDays >= 30 then Streak30 else Streak10;
      if HasAchievement(owner, achievement) {
        return Failure(AlreadyHasAchievement);
      }
      var id := MintBadge(owner, achievement, None, MetadataUri, streakDays, now);
      r := Success(id);
    }

    /** `get_badge_collection`: the user's ids with the sum of their rarity scores. */
    method GetBadgeCollection(user: Address) returns (c: BadgeCollection)
      ensures c.owner == user && c.badges == GetUserBadges(user)
      ensures c.totalScore == TotalScore(c.badges, badges)
    {
      var ids := GetUserBadges(user);
      var total := 0;
      for i := 0 to |ids|
        invariant total == TotalScore(ids[..i], badges)
      {
        assert ids[..i + 1][..i] == ids[..i];
        if ids[i] in badges {
          total := total + badges[ids[i]].rarityScore;
        }
      }
      assert ids[..|ids|] == ids;
      c := BadgeCollection(user, ids, total);
    }

    /**
     * `transfer`: `from` must own the badge; the badge and its owner entry
     * name `to`, `from`'s list is rebuilt without the id, and the id is
     * appended to `to`'s list.
     */
    method Transfer(badgeId: nat, from: Address, to: Address) returns (r: Result<(), BadgeError>)
      requires Valid()
      modifies this
      ensures Valid()
      ensures badgeId !in old(badges) ==> r == Failure(BadgeNotFound)
      ensures badgeId in old(badges) && old(badges)[badgeId].owner != from ==> r == Failure(NotTheOwner)
      ensures r.Success? <==> badgeId in old(badges) && old(badges)[badgeId].owner == from
      ensures r.Failure? ==> unchanged(this)
      ensures r.Success? ==> Storage() == TransferStep(old(Storage()), badgeId, from, to)
    {
      if badgeId !in badges {
        return Failure(BadgeNotFound);
      }
      var badge := badges[badgeId];
      if badge.owner != from {
        return Failure(NotTheOwner);
      }
      ghost var before := Storage();
      badges := badges[badgeId := badge.(owner := to)];
      badgeOwners := badgeOwners[badgeId := to];
      var fromBadges := UserList(userBadges, from);
      var newFromBadges := RemoveAll<nat>(fromBadges, badgeId);
      userBadges := userBadges[from := newFromBadges];
      var toBadges := UserList(userBadges, to);
      userBadges := userBadges[to := toBadges + [badgeId]];
      assert Storage() == TransferStep(before, badgeId, from, to);
      TransferKeepsConsistent(before, badgeId, from, to);
      StorageValid(this, TransferStep(before, badgeId, from, to));
      r := Success(());
    }
  }

  /** A contract whose storage is a consistent value is valid. */
  lemma StorageValid(c: BadgeContract, s: BadgeStorage)
    requires c.Storage() == s
    requires Consistent(s)
    ensures c.Valid()
  {
  }

  /**
   * MultiQuest5 is minted at most once per owner: once an owner holds the
   * flag, no quest-badge call mints the milestone for them again and
   * `check_and_mint_milestones` leaves the storage as it is.
   * `AchievementsKept` shows that no call ever clears the flag.
   */
  lemma MilestoneAtMostOnce(s: BadgeStorage, owner: Address, questId: nat, durationDays: nat,
                            isPerfect: bool, isOverachiever: bool, now: nat)
    requires TierFor(durationDays).Success? && (owner, MultiQuest5) in s.achievements
    ensures MilestoneMint !in QuestBadgeMints(s, owner, questId, durationDays, isPerfect, isOverachiever, now)
    ensures MilestoneStep(s, owner, now) == s
  {
    var tier := TierFor(durationDays).value;
    BaseBadgeStepIsRun(s, owner, tier, questId, durationDays, isPerfect, isOverachiever, now);
    assert MilestoneMint !in QuestBadgePlan(tier, questId, durationDays, isPerfect, isOverachiever);
  }

  /**
   * No operation of the contract removes an achievement flag: mints only
   * add them and a transfer leaves them as they are.
   */
  lemma AchievementsKept(s: BadgeStorage, owner: Address, m: Mint, questId: nat, durationDays: nat,
                         isPerfect: bool, isOverachiever: bool, badgeId: nat, from: Address, to: Address, now: nat)
    ensures s.achievements <= MintStep(s, owner, m, now).achievements
    ensures s.achievements <= MilestoneStep(s, owner, now).achievements
    ensures TierFor(durationDays).Success? ==>
      s.achievements <= QuestBadgeStep(s, owner, questId, durationDays, isPerfect, isOverachiever, now).achievements
    ensures badgeId in s.badges ==> TransferStep(s, badgeId, from, to).achievements == s.achievements
  {
    if TierFor(durationDays).Success? {
      var tier := TierFor(durationDays).value;
      var s1 := MintStep(s, owner, Mint(QuestCompletion(tier), Some(questId), CalculateRarity(durationDays, false, false)), now);
      var s2 := if isPerfect then MintStep(s1, owner, Mint(PerfectAttendance, Some(questId), PerfectRarity), now) else s1;
      var b := BaseBadgeStep(s, owner, tier, questId, durationDays, isPerfect, isOverachiever, now);
      assert s.achievements <= s2.achievements;
      assert s.achievements <= b.achievements;
      assert b.achievements <= MilestoneStep(b, owner, now).achievements;
    }
  }
}
