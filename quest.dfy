/**
 * The quest ledger contract: users stake a fixed amount against a quest of a
 * published duration, log one day of activity at a time, and settle the quest
 * once it has run its course. The contract's storage (the quest records, the
 * per-user id lists, the per-day logs, the id counter and the two pools) is
 * the state of a `QuestContract` object.
 */
module Quest {
  import opened Common

  const SecondsPerDay: nat := 86400

  /** `u32` values wrap modulo this when a wider value is cast down with `as u32`. */
  const U32Modulus: nat := 0x1_0000_0000

  /** The advertised annual rate, in percent. */
  const AnnualRatePercent: int := 5

  /** The daily rate in basis points, as the contract computes it: 500 / 365 in integers. */
  const DailyRateBasisPoints: int := AnnualRatePercent * 100 / 365

  datatype QuestType = JobApplications | InterviewPrep | Networking | SkillBuilding

  datatype QuestStatus = Active | Completed | Failed | Cancelled

  datatype Quest = Quest(
    id: nat,
    user: Address,
    questType: QuestType,
    dailyTarget: nat,
    durationDays: nat,
    stakeAmount: int,
    graceDays: nat,
    startTime: nat,
    endTime: nat,
    status: QuestStatus,
    daysCompleted: nat,
    graceDaysUsed: nat,
    yieldAccrued: int)

  datatype DailyLog = DailyLog(
    questId: nat,
    day: nat,
    activitiesLogged: nat,
    timestamp: nat,
    verificationHash: string)

  /** One constructor per abort message of the contract. */
  datatype QuestError =
    | InvalidDailyTarget
    | InvalidDuration
    | TooManyGraceDays
    | QuestNotFound
    | QuestNotActive
    | QuestExpired
    | AlreadyLoggedToday
    | QuestNotFinished

  /** The four published quest durations, in days. */
  predicate IsTierDuration(d: nat)
  {
    d == 7 || d == 14 || d == 30 || d == 90
  }

  /** `calculate_stake`: the stake, in stroops, that a duration commits the user to. */
  function CalculateStake(durationDays: nat): (r: Result<int, QuestError>)
    ensures r.Success? <==> IsTierDuration(durationDays)
    ensures r.Failure? ==> r.error == InvalidDuration
    ensures r.Success? ==> 10_000_000 <= r.value <= 100_000_000
  {
    match durationDays
    case 7 => Success(10_000_000)
    case 14 => Success(20_000_000)
    case 30 => Success(50_000_000)
    case 90 => Success(100_000_000)
    case _ => Failure(InvalidDuration)
  }

  /** A longer quest always puts a strictly larger stake at risk. */
  lemma StakeGrowsWithDuration(d1: nat, d2: nat)
    requires IsTierDuration(d1) && IsTierDuration(d2) && d1 < d2
    ensures CalculateStake(d1).value < CalculateStake(d2).value
  {
  }

  /**
   * The three input checks of `create_quest`, in the order the contract makes
   * them, followed by the stake lookup.
   */
  function CheckQuestParams(dailyTarget: nat, durationDays: nat, graceDays: nat): (r: Result<int, QuestError>)
    ensures r.Success? <==> 1 <= dailyTarget <= 10 && IsTierDuration(durationDays) && graceDays <= 3
    ensures r.Success? ==> r == CalculateStake(durationDays)
    ensures !(1 <= dailyTarget <= 10) ==> r == Failure(InvalidDailyTarget)
    ensures 1 <= dailyTarget <= 10 && !IsTierDuration(durationDays) ==> r == Failure(InvalidDuration)
    ensures 1 <= dailyTarget <= 10 && IsTierDuration(durationDays) && graceDays > 3 ==> r == Failure(TooManyGraceDays)
  {
    if !(1 <= dailyTarget <= 10) then Failure(InvalidDailyTarget)
    else if !IsTierDuration(durationDays) then Failure(InvalidDuration)
    else if graceDays > 3 then Failure(TooManyGraceDays)
    else CalculateStake(durationDays)
  }

  /** `calculate_yield_share`: the stake prorated at the daily rate over the quest's duration. */
  function CalculateYieldShare(stakeAmount: int, durationDays: nat): (r: int)
    ensures stakeAmount >= 0 ==> r == stakeAmount * durationDays / 10000
  {
    TruncDiv(stakeAmount * DailyRateBasisPoints * durationDays, 10000)
  }

  /** The integer daily rate is one basis point, so 5% a year is credited as 3.65%. */
  lemma DailyRateIsOneBasisPoint()
    ensures DailyRateBasisPoints == 1
  {
  }

  /** For every published tier the yield share is a small fraction of the stake. */
  lemma YieldShareOfTiers()
    ensures CalculateYieldShare(CalculateStake(7).value, 7) == 7_000
    ensures CalculateYieldShare(CalculateStake(14).value, 14) == 28_000
    ensures CalculateYieldShare(CalculateStake(30).value, 30) == 150_000
    ensures CalculateYieldShare(CalculateStake(90).value, 90) == 900_000
  {
  }

  /** The bonus a successful quest draws from the community pool: 1% of a positive pool. */
  function Bonus(communityPool: int): (b: int)
    ensures communityPool <= 0 ==> b == 0
    ensures communityPool > 0 ==> 0 <= b <= communityPool && b == communityPool / 100
  {
    if communityPool > 0 then communityPool / 100 else 0
  }

  /** A quest succeeds when the days it missed fit within its grace days. */
  predicate Succeeds(q: Quest): (ok: bool)
    requires q.daysCompleted <= q.durationDays
    ensures ok <==> q.daysCompleted + q.graceDays >= q.durationDays
    ensures q.daysCompleted == q.durationDays ==> ok
  {
    q.durationDays - q.daysCompleted <= q.graceDays
  }

  /** The quest record and the two pools after `complete_quest` has settled a quest. */
  datatype Settlement = Settlement(quest: Quest, yieldPool: int, communityPool: int)

  /** The settlement branch of `complete_quest`, once its checks have passed. */
  function Settle(q: Quest, yieldPool: int, communityPool: int): (s: Settlement)
    requires q.daysCompleted <= q.durationDays
    ensures s.quest.status == (if Succeeds(q) then Completed else Failed)
    ensures s.quest == q.(status := s.quest.status, yieldAccrued := s.quest.yieldAccrued)
    ensures !Succeeds(q) ==> s.quest.yieldAccrued == q.yieldAccrued
  {
    if Succeeds(q) then
      var share := CalculateYieldShare(q.stakeAmount, q.durationDays);
      var bonus := Bonus(communityPool);
      Settlement(
        q.(status := Completed, yieldAccrued := share),
        yieldPool - (q.stakeAmount + share),
        if bonus > 0 then communityPool - bonus else communityPool)
    else
      Settlement(q.(status := Failed), yieldPool - q.stakeAmount, communityPool + q.stakeAmount)
  }

  /** The total reward `complete_quest` computes for a successful quest. */
  function TotalReward(q: Quest, communityPool: int): (r: int)
    ensures q.stakeAmount >= 0 ==> r >= q.stakeAmount
    ensures q.stakeAmount >= 0 && communityPool <= 0 ==> r == q.stakeAmount + q.stakeAmount * q.durationDays / 10000
  {
    q.stakeAmount + CalculateYieldShare(q.stakeAmount, q.durationDays) + Bonus(communityPool)
  }

  /**
   * Pool accounting: a failed quest moves its stake from the yield pool to the
   * community pool, so the two pools together hold as much as before; a
   * successful quest takes exactly its reward (stake, yield share and bonus)
   * out of the two pools, the bonus from the community pool alone.
   */
  lemma SettlementConservesPools(q: Quest, yieldPool: int, communityPool: int)
    requires q.daysCompleted <= q.durationDays
    ensures var s := Settle(q, yieldPool, communityPool);
      if Succeeds(q) then
        && s.yieldPool == yieldPool - q.stakeAmount - s.quest.yieldAccrued
        && s.communityPool == communityPool - Bonus(communityPool)
        && s.yieldPool + s.communityPool == yieldPool + communityPool - TotalReward(q, communityPool)
      else
        && s.yieldPool == yieldPool - q.stakeAmount
        && s.yieldPool + s.communityPool == yieldPool + communityPool
  {
  }

  /** Settlement never drives a non-negative community pool below zero. */
  lemma SettlementKeepsCommunityPoolNonNegative(q: Quest, yieldPool: int, communityPool: int)
    requires q.daysCompleted <= q.durationDays && q.stakeAmount >= 0 && communityPool >= 0
    ensures Settle(q, yieldPool, communityPool).communityPool >= 0
  {
  }

  /**
   * The yield share is paid out of the yield pool although nothing ever
   * credits it there: a lone 7-day quest that succeeds leaves the pool 7000
   * stroops below zero.
   */
  lemma SuccessOverdrawsYieldPool(q: Quest)
    requires q.durationDays == 7 && q.stakeAmount == CalculateStake(7).value
    requires q.daysCompleted == 7 && q.graceDays == 0
    ensures Settle(q, q.stakeAmount, 0).yieldPool == -7_000
  {
  }

  /** `days_elapsed` of `log_activity`: whole days since the start, cast to `u32`. */
  function DayIndex(q: Quest, now: nat): (d: nat)
    requires q.startTime <= now
    ensures d < U32Modulus
    ensures now - q.startTime < U32Modulus * SecondsPerDay ==>
      d * SecondsPerDay <= now - q.startTime < d * SecondsPerDay + SecondsPerDay
  {
    ((now - q.startTime) / SecondsPerDay) % U32Modulus
  }

  /** The quest after a log: one more day completed when the target was met, nothing else changed. */
  function CreditDay(q: Quest, met: bool): (q': Quest)
    ensures q'.daysCompleted == q.daysCompleted + (if met then 1 else 0)
    ensures q'.(daysCompleted := q.daysCompleted) == q
  {
    if met then q.(daysCompleted := q.daysCompleted + 1) else q
  }

  /** The day indices of quest `id` that already hold a log. */
  function LoggedDays(logs: map<(nat, nat), DailyLog>, id: nat): set<nat>
  {
    set k | k in logs && k.0 == id :: k.1
  }

  /** Storing the log for a fresh day adds exactly that day to the quest's logged days. */
  lemma LoggedDaysInsert(logs: map<(nat, nat), DailyLog>, id: nat, day: nat, log: DailyLog)
    requires (id, day) !in logs
    ensures day !in LoggedDays(logs, id)
    ensures LoggedDays(logs[(id, day) := log], id) == LoggedDays(logs, id) + {day}
    ensures |LoggedDays(logs[(id, day) := log], id)| == |LoggedDays(logs, id)| + 1
    ensures forall j :: j != id ==> LoggedDays(logs[(id, day) := log], j) == LoggedDays(logs, j)
  {
    forall k | k in logs && k.0 == id
      ensures k.1 != day
    {
      assert k != (id, day);
    }
  }

  /** A set of day indices below `n` has at most `n` elements. */
  lemma {:induction false} BoundedDaySetSize(days: set<nat>, n: nat)
    requires forall d :: d in days ==> d < n
    ensures |days| <= n
  {
    if n > 0 {
      var rest := days - {n - 1};
      BoundedDaySetSize(rest, n - 1);
      assert days <= rest + {n - 1};
      assert |days| <= |rest + {n - 1}| <= |rest| + 1;
    }
  }

  /** Every stored log belongs to a stored quest and to one of its days. */
  ghost predicate LogsWithinDuration(quests: map<nat, Quest>, logs: map<(nat, nat), DailyLog>)
  {
    forall k :: k in logs ==> k.0 in quests && k.1 < quests[k.0].durationDays
  }

  /** A quest is credited with at most one day per logged day. */
  ghost predicate CreditWithinLogs(quests: map<nat, Quest>, logs: map<(nat, nat), DailyLog>)
  {
    forall id :: id in quests ==> quests[id].daysCompleted <= |LoggedDays(logs, id)|
  }

  /**
   * `days_completed` never exceeds `duration_days`, so the subtraction that
   * gives `missed_days` in `complete_quest` cannot underflow.
   */
  lemma DaysCompletedWithinDuration(quests: map<nat, Quest>, logs: map<(nat, nat), DailyLog>, id: nat)
    requires LogsWithinDuration(quests, logs) && CreditWithinLogs(quests, logs)
    requires id in quests
    ensures quests[id].daysCompleted <= quests[id].durationDays
  {
    BoundedDaySetSize(LoggedDays(logs, id), quests[id].durationDays);
  }

  /** What `create_quest` checked and computed for a stored quest. */
  ghost predicate WellFormed(q: Quest)
  {
    && 1 <= q.dailyTarget <= 10
    && IsTierDuration(q.durationDays)
    && q.graceDays <= 3
    && q.stakeAmount == CalculateStake(q.durationDays).value
    && q.endTime == q.startTime + q.durationDays * SecondsPerDay
    && q.status != Cancelled
    && q.graceDaysUsed == 0
  }

  /** Stored quests sit under their own id, at most the counter, as `create_quest` built them. */
  ghost predicate QuestsWellFormed(counter: nat, quests: map<nat, Quest>)
  {
    forall id :: id in quests ==> 1 <= id <= counter && quests[id].id == id && WellFormed(quests[id])
  }

  /** Every id in a user's list names a stored quest of that user. */
  ghost predicate UserListsValid(quests: map<nat, Quest>, userQuests: map<Address, seq<nat>>)
  {
    forall u, i :: u in userQuests && 0 <= i < |userQuests[u]| ==>
      userQuests[u][i] in quests && quests[userQuests[u][i]].user == u
  }

  /** The invariant of the contract's storage maps. */
  ghost predicate StorageInvariant(counter: nat, quests: map<nat, Quest>, logs: map<(nat, nat), DailyLog>,
                                   userQuests: map<Address, seq<nat>>)
  {
    && QuestsWellFormed(counter, quests)
    && LogsWithinDuration(quests, logs)
    && CreditWithinLogs(quests, logs)
    && UserListsValid(quests, userQuests)
  }

  /** Storing the log of a fresh day of a stored quest keeps the invariant and adds one logged day. */
  lemma AddLogKeepsInvariant(counter: nat, quests: map<nat, Quest>, logs: map<(nat, nat), DailyLog>,
                             userQuests: map<Address, seq<nat>>, id: nat, day: nat, log: DailyLog)
    requires StorageInvariant(counter, quests, logs, userQuests)
    requires id in quests && day < quests[id].durationDays && (id, day) !in logs
    ensures StorageInvariant(counter, quests, logs[(id, day) := log], userQuests)
    ensures |LoggedDays(logs[(id, day) := log], id)| == |LoggedDays(logs, id)| + 1
  {
    LoggedDaysInsert(logs, id, day, log);
    var logs' := logs[(id, day) := log];
    forall j | j in quests
      ensures quests[j].daysCompleted <= |LoggedDays(logs', j)|
    {
      if j != id {
        assert LoggedDays(logs', j) == LoggedDays(logs, j);
      }
    }
  }

  /** Storing a new well-formed quest under the next id, and listing it for its user, keeps the invariant. */
  lemma AddQuestKeepsInvariant(counter: nat, quests: map<nat, Quest>, logs: map<(nat, nat), DailyLog>,
                               userQuests: map<Address, seq<nat>>, q: Quest, ids: seq<nat>)
    requires StorageInvariant(counter, quests, logs, userQuests)
    requires q.id == counter + 1 && WellFormed(q) && q.daysCompleted == 0
    requires forall i :: 0 <= i < |ids| ==> ids[i] in quests && quests[ids[i]].user == q.user
    ensures q.id !in quests
    ensures StorageInvariant(counter + 1, quests[q.id := q], logs, userQuests[q.user := ids + [q.id]])
  {
    var quests' := quests[q.id := q];
    forall id | id in quests'
      ensures quests'[id].daysCompleted <= |LoggedDays(logs, id)|
    {
      if id != q.id {
        assert quests'[id] == quests[id];
      }
    }
  }

  /**
   * Replacing a stored quest by a record that keeps what `create_quest` fixed
   * and is credited with no more days than it has logs keeps the invariant.
   */
  lemma ReplaceQuestKeepsInvariant(counter: nat, quests: map<nat, Quest>, logs: map<(nat, nat), DailyLog>,
                                   userQuests: map<Address, seq<nat>>, id: nat, q: Quest)
    requires StorageInvariant(counter, quests, logs, userQuests)
    requires id in quests && q.id == id && q.user == quests[id].user
    requires q.durationDays == quests[id].durationDays && WellFormed(q)
    requires q.daysCompleted <= |LoggedDays(logs, id)|
    ensures StorageInvariant(counter, quests[id := q], logs, userQuests)
  {
  }

  class QuestContract {
    var admin: Address
    var tokenAddress: Address
    var questCounter: nat
    var quests: map<nat, Quest>
    var userQuests: map<Address, seq<nat>>
    var dailyLogs: map<(nat, nat), DailyLog>
    var communityPool: int
    var yieldPool: int

    ghost predicate Valid()
      reads this
    {
      && StorageInvariant(questCounter, quests, dailyLogs, userQuests)
      && communityPool >= 0
    }

    /** `initialize`: a fresh ledger with a zero counter and empty pools. */
    constructor (admin: Address, token: Address)
      ensures Valid()
      ensures this.admin == admin && tokenAddress == token
      ensures questCounter == 0 && communityPool == 0 && yieldPool == 0
      ensures quests == map[] && userQuests == map[] && dailyLogs == map[]
    {
      this.admin := admin;
      tokenAddress := token;
      questCounter := 0;
      quests := map[];
      userQuests := map[];
      dailyLogs := map[];
      communityPool := 0;
      yieldPool := 0;
    }

    /** `get_user_quests`: the user's quest ids, in creation order. */
    function GetUserQuests(user: Address): (ids: seq<nat>)
      reads this
      ensures user !in userQuests ==> ids == []
      ensures user in userQuests ==> ids == userQuests[user]
      ensures Valid() ==> forall i :: 0 <= i < |ids| ==> ids[i] in quests && quests[ids[i]].user == user
    {
      if user in userQuests then userQuests[user] else []
    }

    /** `get_quest`: aborts for an unknown id. */
    function GetQuest(questId: nat): (r: Result<Quest, QuestError>)
      reads this
      ensures r.Success? <==> questId in quests
      ensures r.Success? ==> r.value == quests[questId]
      ensures Valid() && r.Success? ==> r.value.id == questId && r.value.status != Cancelled
    {
      if questId in quests then Success(quests[questId]) else Failure(QuestNotFound)
    }

    /** `get_daily_log`. */
    function GetDailyLog(questId: nat, day: nat): (r: Option<DailyLog>)
      reads this
      ensures r.Some? <==> (questId, day) in dailyLogs
      ensures r.Some? ==> r.value == dailyLogs[(questId, day)]
      ensures Valid() && r.Some? ==> questId in quests && day < quests[questId].durationDays
    {
      if (questId, day) in dailyLogs then Some(dailyLogs[(questId, day)]) else None
    }

    /** `get_pool_stats`: the community pool, then the yield pool. */
    function GetPoolStats(): (r: (int, int))
      reads this
      ensures r.0 == communityPool && r.1 == yieldPool
      ensures Valid() ==> r.0 >= 0
    {
      (communityPool, yieldPool)
    }

    /**
     * `create_quest`: validates the parameters, allocates the next id, stores
     * an Active quest for the user, appends it to the user's list and moves
     * the stake into the yield pool. Any invalid parameter aborts the call.
     */
    method CreateQuest(user: Address, questType: QuestType, dailyTarget: nat, durationDays: nat, graceDays: nat, now: nat)
      returns (r: Result<nat, QuestError>)
      requires Valid()
      modifies this
      ensures Valid()
      ensures r.Success? <==> CheckQuestParams(dailyTarget, durationDays, graceDays).Success?
      ensures r.Failure? ==> r.error == CheckQuestParams(dailyTarget, durationDays, graceDays).error && unchanged(this)
      ensures r.Success? ==>
        var stake := CalculateStake(durationDays).value;
        && r.value == old(questCounter) + 1
        && questCounter == r.value
        && r.value !in old(quests)
        && quests == old(quests)[r.value := Quest(r.value, user, questType, dailyTarget, durationDays, stake,
                                                  graceDays, now, now + durationDays * SecondsPerDay,
                                                  Active, 0, 0, 0)]
        && userQuests == old(userQuests)[user := old(GetUserQuests(user)) + [r.value]]
        && yieldPool == old(yieldPool) + stake
        && communityPool == old(communityPool)
        && dailyLogs == old(dailyLogs)
        && admin == old(admin) && tokenAddress == old(tokenAddress)
    {
      var check := CheckQuestParams(dailyTarget, durationDays, graceDays);
      if check.Failure? {
        return Failure(check.error);
      }
      var stake := check.value;
      var id := questCounter + 1;
      var q := Quest(id, user, questType, dailyTarget, durationDays, stake, graceDays,
                     now, now + durationDays * SecondsPerDay, Active, 0, 0, 0);
      AddQuestKeepsInvariant(questCounter, quests, dailyLogs, userQuests, q, GetUserQuests(user));
      questCounter := id;
      quests := quests[id := q];
      userQuests := userQuests[user := GetUserQuests(user) + [id]];
      yieldPool := yieldPool + stake;
      r := Success(id);
    }

    /**
     * `log_activity`: records today's log for an Active, unexpired quest and
     * credits one day when the logged count meets the daily target. A second
     * log on the same day aborts; a below-target log still uses up the day.
     */
    method LogActivity(questId: nat, activitiesCount: nat, verificationHash: string, now: nat)
      returns (r: Result<bool, QuestError>)
      requires Valid()
      requires questId in quests ==> quests[questId].startTime <= now
      modifies this
      ensures Valid()
      ensures questId !in old(quests) ==> r == Failure(QuestNotFound)
      ensures questId in old(quests) ==>
        var q := old(quests)[questId];
        var day := DayIndex(q, now);
        && (q.status != Active ==> r == Failure(QuestNotActive))
        && (q.status == Active && day >= q.durationDays ==> r == Failure(QuestExpired))
        && (q.status == Active && day < q.durationDays && (questId, day) in old(dailyLogs) ==>
              r == Failure(AlreadyLoggedToday))
        && (r.Success? <==> q.status == Active && day < q.durationDays && (questId, day) !in old(dailyLogs))
        && (r.Success? ==>
              && r.value == (activitiesCount >= q.dailyTarget)
              && dailyLogs == old(dailyLogs)[(questId, day) := DailyLog(questId, day, activitiesCount, now, verificationHash)]
              && quests == old(quests)[questId := CreditDay(q, r.value)])
      ensures r.Failure? ==> unchanged(this)
      ensures r.Success? ==>
        && questCounter == old(questCounter) && userQuests == old(userQuests)
        && yieldPool == old(yieldPool) && communityPool == old(communityPool)
        && admin == old(admin) && tokenAddress == old(tokenAddress)
    {
      if questId !in quests {
        return Failure(QuestNotFound);
      }
      var q := quests[questId];
      if q.status != Active {
        return Failure(QuestNotActive);
      }
      var day := DayIndex(q, now);
      if day >= q.durationDays {
        return Failure(QuestExpired);
      }
      if (questId, day) in dailyLogs {
        return Failure(AlreadyLoggedToday);
      }
      var log := DailyLog(questId, day, activitiesCount, now, verificationHash);
      AddLogKeepsInvariant(questCounter, quests, dailyLogs, userQuests, questId, day, log);
      dailyLogs := dailyLogs[(questId, day) := log];
      var met := activitiesCount >= q.dailyTarget;
      q := CreditDay(q, met);
      ReplaceQuestKeepsInvariant(questCounter, quests, dailyLogs, userQuests, questId, q);
      quests := quests[questId := q];
      r := Success(met);
    }

    /**
     * `complete_quest`: once an Active quest's end time has passed, marks it
     * Completed when its missed days fit within its grace days and Failed
     * otherwise, and moves the money between the pools accordingly.
     */
    method CompleteQuest(questId: nat, now: nat) returns (r: Result<(), QuestError>)
      requires Valid()
      modifies this
      ensures Valid()
      ensures questId !in old(quests) ==> r == Failure(QuestNotFound)
      ensures questId in old(quests) ==>
        var q := old(quests)[questId];
        && q.daysCompleted <= q.durationDays
        && (q.status != Active ==> r == Failure(QuestNotActive))
        && (q.status == Active && now < q.endTime ==> r == Failure(QuestNotFinished))
        && (r.Success? <==> q.status == Active && now >= q.endTime)
        && (r.Success? ==>
              var s := Settle(q, old(yieldPool), old(communityPool));
              && quests == old(quests)[questId := s.quest]
              && yieldPool == s.yieldPool
              && communityPool == s.communityPool)
      ensures r.Failure? ==> unchanged(this)
      ensures r.Success? ==>
        && questCounter == old(questCounter) && userQuests == old(userQuests) && dailyLogs == old(dailyLogs)
        && admin == old(admin) && tokenAddress == old(tokenAddress)
    {
      if questId !in quests {
        return Failure(QuestNotFound);
      }
      var q := quests[questId];
      DaysCompletedWithinDuration(quests, dailyLogs, questId);
      if q.status != Active {
        return Failure(QuestNotActive);
      }
      if now < q.endTime {
        return Failure(QuestNotFinished);
      }
      var settled := Settle(q, yieldPool, communityPool);
      ReplaceQuestKeepsInvariant(questCounter, quests, dailyLogs, userQuests, questId, settled.quest);
      SettlementKeepsCommunityPoolNonNegative(q, yieldPool, communityPool);
      quests := quests[questId := settled.quest];
      yieldPool, communityPool := settled.yieldPool, settled.communityPool;
      r := Success(());
    }
  }

  /**
   * Settlement is final: after `complete_quest` succeeds, the same quest is
   * refused by both `log_activity` and a second `complete_quest`, and nothing
   * changes.
   */
  method SettledQuestIsFinal(c: QuestContract, questId: nat, now: nat, later: nat, count: nat, hash: string)
    returns (first: Result<(), QuestError>, log: Result<bool, QuestError>, second: Result<(), QuestError>)
    requires c.Valid()
    requires questId in c.quests ==> c.quests[questId].startTime <= later
    modifies c
    ensures c.Valid()
    ensures first.Success? ==> log == Failure(QuestNotActive) && second == Failure(QuestNotActive)
    ensures first.Success? ==> questId in c.quests && c.quests[questId].status != Active
  {
    first := c.CompleteQuest(questId, now);
    log := c.LogActivity(questId, count, hash, later);
    second := c.CompleteQuest(questId, later);
  }

  /** Two logs for the same quest on the same quest day: the second is always refused, whatever its count or hash. */
  method SecondLogSameDayFails(c: QuestContract, questId: nat, now1: nat, now2: nat, count1: nat, count2: nat,
                               hash1: string, hash2: string)
    returns (first: Result<bool, QuestError>, second: Result<bool, QuestError>)
    requires c.Valid()
    requires questId in c.quests ==>
      && c.quests[questId].startTime <= now1 && c.quests[questId].startTime <= now2
      && DayIndex(c.quests[questId], now1) == DayIndex(c.quests[questId], now2)
    modifies c
    ensures c.Valid()
    ensures first.Success? ==> second == Failure(AlreadyLoggedToday)
  {
    ghost var before := c.quests;
    first := c.LogActivity(questId, count1, hash1, now1);
    assert questId in c.quests ==> questId in before && c.quests[questId].startTime == before[questId].startTime;
    ghost var mid, midLogs := c.quests, c.dailyLogs;
    second := c.LogActivity(questId, count2, hash2, now2);
    if first.Success? {
      var q := before[questId];
      assert questId in mid && mid[questId].startTime == q.startTime && mid[questId].status == Active;
      assert DayIndex(mid[questId], now2) == DayIndex(q, now1) && mid[questId].durationDays == q.durationDays;
      assert (questId, DayIndex(q, now1)) in midLogs;
    }
  }
}
