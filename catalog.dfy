/**
 * The front end's constant tables: the four quest durations with their stakes
 * and badge names, the quest-type labels, and the numeric codes of the
 * quest-type and quest-status enums. They are copies of what the quest and
 * badge contracts decide, so the lemmas here check them against those models.
 */
module Catalog {
  import opened Common
  import Quest
  import Badge

  /** One row of `DURATION_CONFIGS`: a duration, its stake in stroops, its title and its badge name. */
  datatype DurationConfig = DurationConfig(days: nat, stake: int, title: string, badge: string)

  const DurationConfigs: seq<DurationConfig> := [
    DurationConfig(7, 10_000_000, "1 Week Sprint", "Bronze"),
    DurationConfig(14, 20_000_000, "2 Week Challenge", "Silver"),
    DurationConfig(30, 50_000_000, "Monthly Mission", "Gold"),
    DurationConfig(90, 100_000_000, "Quarter Quest", "Platinum")
  ]

  /** The name the badge contract's tier variant carries. */
  function TierName(t: Badge.BadgeTier): (name: string)
  {
    match t
    case Bronze => "Bronze"
    case Silver => "Silver"
    case Gold => "Gold"
    case Platinum => "Platinum"
  }

  /** Four rows, shortest first, and a longer quest always asks for a larger stake. */
  lemma DurationConfigsIncrease()
    ensures |DurationConfigs| == 4
    ensures forall i, j :: 0 <= i < j < |DurationConfigs| ==>
      DurationConfigs[i].days < DurationConfigs[j].days && DurationConfigs[i].stake < DurationConfigs[j].stake
  {
  }

  /**
   * Every row agrees with the contracts: its stake is what the quest contract
   * charges for that duration, and its badge is the tier the badge contract
   * mints for it.
   */
  lemma DurationConfigsMatchContracts()
    ensures forall i :: 0 <= i < |DurationConfigs| ==>
      Quest.CalculateStake(DurationConfigs[i].days) == Success(DurationConfigs[i].stake)
    ensures forall i :: 0 <= i < |DurationConfigs| ==>
      Badge.TierFor(DurationConfigs[i].days).Success? &&
      TierName(Badge.TierFor(DurationConfigs[i].days).value) == DurationConfigs[i].badge
  {
  }

  /** The table offers exactly the durations the quest contract accepts, no more and no fewer. */
  lemma DurationConfigsCoverContract(d: nat)
    ensures Quest.IsTierDuration(d) <==> exists i :: 0 <= i < |DurationConfigs| && DurationConfigs[i].days == d
  {
    if d == 7 {
      assert DurationConfigs[0].days == d;
    } else if d == 14 {
      assert DurationConfigs[1].days == d;
    } else if d == 30 {
      assert DurationConfigs[2].days == d;
    } else if d == 90 {
      assert DurationConfigs[3].days == d;
    }
  }

  /** `QuestStatus` in the front end: the contract's variants numbered in declaration order. */
  function StatusCode(s: Quest.QuestStatus): (code: nat)
    ensures code < 4
    ensures code == 0 <==> s == Quest.Active
  {
    match s
    case Active => 0
    case Completed => 1
    case Failed => 2
    case Cancelled => 3
  }

  /** The variant a status code stands for; codes past 3 name none. */
  function StatusOfCode(code: nat): (s: Option<Quest.QuestStatus>)
    ensures s.Some? <==> code < 4
  {
    match code
    case 0 => Some(Quest.Active)
    case 1 => Some(Quest.Completed)
    case 2 => Some(Quest.Failed)
    case 3 => Some(Quest.Cancelled)
    case _ => None
  }

  /** The status codes and the contract's variants are in one-to-one correspondence. */
  lemma StatusCodesRoundTrip(s: Quest.QuestStatus, code: nat)
    ensures StatusOfCode(StatusCode(s)) == Some(s)
    ensures code < 4 ==> StatusCode(StatusOfCode(code).value) == code
  {
  }

  /** `QuestType` in the front end: the contract's variants numbered in declaration order. */
  function TypeCode(t: Quest.QuestType): (code: nat)
    ensures code < 4
  {
    match t
    case JobApplications => 0
    case InterviewPrep => 1
    case Networking => 2
    case SkillBuilding => 3
  }

  /** `QUEST_TYPE_LABELS`, indexed by type code. */
  const QuestTypeLabels: seq<string> := ["Job Applications", "Interview Prep", "Networking", "Skill Building"]

  /** The label the front end shows for a quest type. */
  function TypeLabel(t: Quest.QuestType): (name: string)
    ensures name in QuestTypeLabels
  {
    QuestTypeLabels[TypeCode(t)]
  }

  /** Each code 0..3 has exactly one label, and different types never share a label or a code. */
  lemma TypeLabelsOnePerCode(t1: Quest.QuestType, t2: Quest.QuestType)
    ensures |QuestTypeLabels| == 4
    ensures TypeCode(t1) == TypeCode(t2) ==> t1 == t2
    ensures TypeLabel(t1) == TypeLabel(t2) ==> t1 == t2
  {
  }
}
