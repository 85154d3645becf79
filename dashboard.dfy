/**
 * The dashboard's derived figures: it keeps the user's active quests, scores
 * 50 points per day completed plus the demo points, counts the days as
 * activities, measures the distance to the 3500-point level, and lists one
 * activity entry per completed day, of which the panel shows ten.
 */
module Dashboard {
  import opened Common
  import Quest
  import Catalog
  import Buddy

  const PointsPerActivity: nat := 50
  const NextLevelScore: int := 3500
  const PanelSize: nat := 10
  const MockPointsStep: int := 100

  /**
   * The `loadQuests` filter: a record that could be fetched (`null`
   * otherwise) whose status is tagged `Active` or has code 0.
   */
  predicate IsActiveRecord(r: Option<Quest.Quest>): (keep: bool)
    ensures keep <==> r.Some? && r.value.status == Quest.Active
  {
    r.Some? && (r.value.status == Quest.Active || Catalog.StatusCode(r.value.status) == 0)
  }

  /** The quests `loadQuests` keeps, in the order they were fetched. */
  function ActiveOnly(fetched: seq<Option<Quest.Quest>>): (qs: seq<Quest.Quest>)
    ensures |qs| <= |fetched|
    ensures forall q :: q in qs <==> Some(q) in fetched && q.status == Quest.Active
  {
    if fetched == [] then []
    else
      var rest := ActiveOnly(fetched[1..]);
      assert forall r :: r in fetched <==> r == fetched[0] || r in fetched[1..];
      if IsActiveRecord(fetched[0]) then [fetched[0].value] + rest else rest
  }

  /**
   * The filter keeps the fetched order: filtering a concatenation is the
   * concatenation of the filtered parts, and a single record is kept
   * exactly when it is an active quest.
   */
  lemma {:induction false} ActiveOnlyConcat(a: seq<Option<Quest.Quest>>, b: seq<Option<Quest.Quest>>)
    ensures ActiveOnly(a + b) == ActiveOnly(a) + ActiveOnly(b)
    ensures |a| == 1 ==> ActiveOnly(a) == if IsActiveRecord(a[0]) then [a[0].value] else []
  {
    if a == [] {
      assert a + b == b;
    } else {
      assert (a + b)[1..] == a[1..] + b;
      ActiveOnlyConcat(a[1..], b);
    }
  }

  /** The filter keeps multiplicity: an active quest appears as often as it was fetched. */
  lemma {:induction false} ActiveOnlyCounts(fetched: seq<Option<Quest.Quest>>, q: Quest.Quest)
    ensures multiset(ActiveOnly(fetched))[q] == if q.status == Quest.Active then multiset(fetched)[Some(q)] else 0
  {
    if fetched != [] {
      ActiveOnlyCounts(fetched[1..], q);
      assert fetched == [fetched[0]] + fetched[1..];
    }
  }

  /** `activityCount`: the days completed, summed over the quests. */
  function ActivityCount(qs: seq<Quest.Quest>): (n: nat)
    ensures forall i :: 0 <= i < |qs| ==> qs[i].daysCompleted <= n
  {
    if qs == [] then 0 else qs[0].daysCompleted + ActivityCount(qs[1..])
  }

  /** The quests' share of `points`: 50 for every day completed. */
  function QuestPoints(qs: seq<Quest.Quest>): (n: nat)
    ensures forall i :: 0 <= i < |qs| ==> qs[i].daysCompleted * PointsPerActivity <= n
  {
    if qs == [] then 0 else qs[0].daysCompleted * PointsPerActivity + QuestPoints(qs[1..])
  }

  /** `points`: the quests' points plus the demo points. */
  function Points(qs: seq<Quest.Quest>, mockPoints: int): (p: int)
    ensures p == PointsPerActivity * ActivityCount(qs) + mockPoints
  {
    PointsAreFiftyPerActivity(qs);
    QuestPoints(qs) + mockPoints
  }

  /** The quests' points are 50 per activity counted. */
  lemma {:induction false} PointsAreFiftyPerActivity(qs: seq<Quest.Quest>)
    ensures QuestPoints(qs) == PointsPerActivity * ActivityCount(qs)
  {
    if qs != [] {
      PointsAreFiftyPerActivity(qs[1..]);
    }
  }

  /** `pointsToGo`: unclamped, so it is negative past the level score. */
  function PointsToGo(points: int): (togo: int)
    ensures togo + points == NextLevelScore
  {
    NextLevelScore - points
  }

  /** The progress line shows "Level Up!" instead of the points to go. */
  predicate ShowsLevelUp(points: int): (shown: bool)
    ensures shown <==> points >= NextLevelScore
  {
    !(PointsToGo(points) > 0)
  }

  /**
   * "Level Up!" appears exactly from 3500 points on, which is where the
   * buddy reaches its Executive stage.
   */
  lemma LevelUpTextMatchesBuddy(points: int)
    ensures ShowsLevelUp(points) <==> points >= NextLevelScore
    ensures ShowsLevelUp(points) <==> Buddy.GetStage(points) >= 4
  {
  }

  /** An entry of the activity list; its date and colour are display details. */
  datatype Activity = Activity(id: string, points: nat)

  predicate IsDigit(c: char)
  {
    '0' <= c <= '9'
  }

  function Digit(d: nat): (c: char)
    requires d < 10
    ensures IsDigit(c)
  {
    ('0' as int + d) as char
  }

  /** `toString()` of a non-negative integer: its decimal digits, no leading zeros. */
  function Decimal(n: nat): (s: string)
    ensures |s| >= 1 && (n >= 10 ==> |s| >= 2)
    ensures forall k :: 0 <= k < |s| ==> IsDigit(s[k])
    ensures s[0] == '0' ==> n == 0
    decreases n
  {
    if n < 10 then [Digit(n)] else Decimal(n / 10) + [Digit(n % 10)]
  }

  /** The number a string of decimal digits spells, most significant digit first. */
  function DigitsValue(s: string): nat
    requires forall k :: 0 <= k < |s| ==> IsDigit(s[k])
    decreases |s|
  {
    if s == [] then 0
    else
      assert IsDigit(s[|s| - 1]);
      DigitsValue(s[..|s| - 1]) * 10 + (s[|s| - 1] as int - '0' as int)
  }

  /** The digits `Decimal` prints spell the number back. */
  lemma {:induction false} DecimalRoundTrip(n: nat)
    ensures DigitsValue(Decimal(n)) == n
    decreases n
  {
    if n >= 10 {
      var s := Decimal(n);
      DecimalRoundTrip(n / 10);
      assert s[..|s| - 1] == Decimal(n / 10);
    }
  }

  /** Different numbers print differently. */
  lemma {:induction false} DecimalInjective(a: nat, b: nat)
    requires Decimal(a) == Decimal(b)
    ensures a == b
    decreases a
  {
    if a >= 10 && b >= 10 {
      var sa, sb := Decimal(a), Decimal(b);
      assert sa[|sa| - 1] == Digit(a % 10) && sb[|sb| - 1] == Digit(b % 10);
      assert Decimal(a / 10) == sa[..|sa| - 1] == sb[..|sb| - 1] == Decimal(b / 10);
      DecimalInjective(a / 10, b / 10);
    }
  }

  /** The entry id `q.id + "-day" + i`. */
  function DayId(questId: nat, day: nat): string
  {
    Decimal(questId) + "-day" + Decimal(day)
  }

  /** An entry id reads as the quest's digits, then `-day`, then the day's digits. */
  lemma DayIdParts(questId: nat, day: nat)
    ensures var id, q, d := DayId(questId, day), Decimal(questId), Decimal(day);
      && |id| == |q| + 4 + |d|
      && id[..|q|] == q
      && id[|q|..|q| + 4] == "-day"
      && id[|id| - |d|..] == d
  {
  }

  /** In an entry id the quest's digits are followed by the `-`. */
  lemma DashEndsQuestDigits(a: nat, i: nat)
    ensures |DayId(a, i)| > |Decimal(a)| && DayId(a, i)[|Decimal(a)|] == '-'
    ensures forall k :: 0 <= k < |Decimal(a)| ==> IsDigit(DayId(a, i)[k])
  {
  }

  /** An entry id names its quest and its day: the `-` ends the quest's digits. */
  lemma DayIdInjective(a: nat, i: nat, b: nat, j: nat)
    requires DayId(a, i) == DayId(b, j)
    ensures a == b && i == j
  {
    var sa, sb, id := Decimal(a), Decimal(b), DayId(a, i);
    DashEndsQuestDigits(a, i);
    DashEndsQuestDigits(b, j);
    assert |sa| == |sb|;
    assert sa == id[..|sa|] == sb;
    DecimalInjective(a, b);
    assert Decimal(i) == id[|sa| + 4..] == Decimal(j);
    DecimalInjective(i, j);
  }

  /** The entries of one quest: one per day completed, in day-index order. */
  function QuestActivities(q: Quest.Quest): (acts: seq<Activity>)
    ensures |acts| == q.daysCompleted
    ensures forall i :: 0 <= i < |acts| ==> acts[i].points == PointsPerActivity
    ensures forall i, j :: 0 <= i < j < |acts| ==> acts[i].id != acts[j].id
  {
    var acts := seq(q.daysCompleted, i requires 0 <= i < q.daysCompleted => Activity(DayId(q.id, i), PointsPerActivity));
    assert forall i, j :: 0 <= i < j < |acts| ==> acts[i].id != acts[j].id by {
      forall i, j | 0 <= i < j < |acts|
        ensures acts[i].id != acts[j].id
      {
        if acts[i].id == acts[j].id {
          DayIdInjective(q.id, i, q.id, j);
        }
      }
    }
    acts
  }

  /** `formattedActivities`: every quest's entries, quest after quest. */
  function FormattedActivities(qs: seq<Quest.Quest>): (acts: seq<Activity>)
    ensures |acts| == ActivityCount(qs)
    ensures forall k :: 0 <= k < |acts| ==> acts[k].points == PointsPerActivity
  {
    if qs == [] then [] else QuestActivities(qs[0]) + FormattedActivities(qs[1..])
  }

  /**
   * The quest and the day that entry `k` stands for: the entries enumerate
   * the pairs (quest, day < days completed) quest by quest.
   */
  function Origin(qs: seq<Quest.Quest>, k: nat): (o: (nat, nat))
    requires k < ActivityCount(qs)
    ensures o.0 < |qs| && o.1 < qs[o.0].daysCompleted
    ensures FormattedActivities(qs)[k] == Activity(DayId(qs[o.0].id, o.1), PointsPerActivity)
  {
    if k < qs[0].daysCompleted then (0, k)
    else
      var o := Origin(qs[1..], k - qs[0].daysCompleted);
      (o.0 + 1, o.1)
  }

  /** Later entries come from later quests, or from later days of the same quest. */
  lemma {:induction false} OriginOrdered(qs: seq<Quest.Quest>, k1: nat, k2: nat)
    requires k1 < k2 < ActivityCount(qs)
    ensures var o1, o2 := Origin(qs, k1), Origin(qs, k2);
      o1.0 < o2.0 || (o1.0 == o2.0 && o1.1 < o2.1)
  {
    var n := qs[0].daysCompleted;
    if n <= k1 {
      OriginOrdered(qs[1..], k1 - n, k2 - n);
    }
  }

  /** The quests in the list are different quests. */
  predicate DistinctQuestIds(qs: seq<Quest.Quest>)
  {
    forall j1, j2 :: 0 <= j1 < j2 < |qs| ==> qs[j1].id != qs[j2].id
  }

  /** Entry ids, the list's React keys, are unique when the quests are. */
  lemma ActivityIdsUnique(qs: seq<Quest.Quest>, k1: nat, k2: nat)
    requires DistinctQuestIds(qs)
    requires k1 < k2 < |FormattedActivities(qs)|
    ensures FormattedActivities(qs)[k1].id != FormattedActivities(qs)[k2].id
  {
    var o1, o2 := Origin(qs, k1), Origin(qs, k2);
    OriginOrdered(qs, k1, k2);
    if FormattedActivities(qs)[k1].id == FormattedActivities(qs)[k2].id {
      DayIdInjective(qs[o1.0].id, o1.1, qs[o2.0].id, o2.1);
      assert false;
    }
  }

  function Reverse<T>(s: seq<T>): (r: seq<T>)
    ensures |r| == |s|
    ensures forall k :: 0 <= k < |s| ==> r[k] == s[|s| - 1 - k]
  {
    if s == [] then [] else Reverse(s[1..]) + [s[0]]
  }

  /** The Recent Activity panel: the first ten entries, shown in reverse. */
  function RecentPanel(acts: seq<Activity>): (shown: seq<Activity>)
    ensures |shown| == if |acts| < PanelSize then |acts| else PanelSize
    ensures forall k :: 0 <= k < |shown| ==> shown[k] == acts[|shown| - 1 - k]
  {
    Reverse(if |acts| < PanelSize then acts else acts[..PanelSize])
  }

  /** The dashboard's own state: the loaded quests and the demo counters. */
  class DashboardState {
    var quests: seq<Quest.Quest>
    var mockPoints: int
    var yieldEarned: int
    var loading: bool

    /** Every figure is computed over active quests only. */
    ghost predicate Valid()
      reads this
    {
      forall q :: q in quests ==> q.status == Quest.Active
    }

    constructor ()
      ensures Valid()
      ensures quests == [] && mockPoints == 0 && yieldEarned == 0 && loading
    {
      quests := [];
      mockPoints := 0;
      yieldEarned := 0;
      loading := true;
    }

    /** The demo button: 100 more points and one more unit of yield, nothing else. */
    method HandleMockPoints()
      requires Valid()
      modifies this
      ensures Valid()
      ensures mockPoints == old(mockPoints) + MockPointsStep && yieldEarned == old(yieldEarned) + 1
      ensures quests == old(quests) && loading == old(loading)
      ensures Points(quests, mockPoints) == Points(old(quests), old(mockPoints)) + MockPointsStep
      ensures ActivityCount(quests) == ActivityCount(old(quests))
    {
      mockPoints := mockPoints + 100;
      yieldEarned := yieldEarned + 1;
    }

    /**
     * `loadQuests`: without a wallet address nothing happens; otherwise the
     * fetched records replace the list, filtered to the active ones, unless
     * the fetch fails, which keeps the old list. Either way loading ends.
     */
    method LoadQuests(address: Option<Address>, fetched: Option<seq<Option<Quest.Quest>>>)
      requires Valid()
      modifies this
      ensures Valid()
      ensures address.None? ==> unchanged(this)
      ensures address.Some? ==> !loading
      ensures address.Some? && fetched.Some? ==> quests == ActiveOnly(fetched.value)
      ensures address.Some? && fetched.None? ==> quests == old(quests)
      ensures mockPoints == old(mockPoints) && yieldEarned == old(yieldEarned)
    {
      if address.None? {
        return;
      }
      loading := true;
      if fetched.Some? {
        quests := ActiveOnly(fetched.value);
      }
      loading := false;
    }
  }
}
