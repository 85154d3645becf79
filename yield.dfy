/**
 * The yield contract: each deposit of staked funds opens a position (always
 * in the liquidity-pool strategy), positions are revalued at a simulated 5%
 * APY, and a withdrawal pays back the principal with the yield and drops the
 * position from the active list. The contract's storage is gathered into a
 * `Vault` value so that each entry point is specified by a function on it.
 */
module YieldVault {
  import opened Common
  import Quest

  datatype YieldStrategy = LiquidityPool | LendingProtocol | StableSwap | PathPayment

  datatype Position = Position(
    id: nat,
    strategy: YieldStrategy,
    amountInvested: int,
    currentValue: int,
    yieldEarned: int,
    createdAt: nat,
    lastUpdated: nat)

  datatype PoolStats = PoolStats(
    totalDeposited: int,
    totalInvested: int,
    totalYieldEarned: int,
    currentApy: nat,
    activePositions: int)

  datatype YieldError = PositionNotFound

  const SecondsPerDay: nat := 86400

  /** The APY `initialize` sets, in basis points; no entry point changes it. */
  const InitialApy: nat := 500

  /** `query_position_value`'s daily rate in basis points: 500 * 100 / 36500 in integers. */
  const SimulatedDailyRate: int := 500 * 100 / 36500

  /** The contract's storage: the position counter, the positions, the active list and the pool statistics. */
  datatype Vault = Vault(counter: nat, positions: map<nat, Position>, active: seq<nat>, stats: PoolStats)

  // ---------------------------------------------------------------------
  // The yield arithmetic
  // ---------------------------------------------------------------------

  /** `estimate_yield`: amount times the daily rate of `apy` times the days, in basis points, rounded toward zero. */
  function EstimateYield(amount: int, days: nat, apy: nat): (y: int)
    ensures amount >= 0 ==> 0 <= y <= amount * (apy * 100 / 36500) * days / 10000
    ensures amount <= 0 ==> y <= 0
    ensures amount >= 0 ==> y == amount * (apy * 100 / 36500) * days / 10000
  {
    TruncDiv(amount * (apy * 100 / 36500) * days, 10000)
  }

  /** At the contract's APY the daily rate is one basis point, written out as the simulated rate. */
  lemma InitialApyRate()
    ensures InitialApy * 100 / 36500 == SimulatedDailyRate == 1
  {
  }

  /**
   * At the contract's APY, the estimate for a quest's stake and duration is
   * the yield share the quest contract pays out on success.
   */
  lemma EstimateIsQuestYieldShare(stake: int, durationDays: nat)
    ensures EstimateYield(stake, durationDays, InitialApy) == Quest.CalculateYieldShare(stake, durationDays)
  {
    assert Quest.DailyRateBasisPoints == 1;
  }

  /** Whole days from the position's creation to `now`. */
  function DaysElapsed(p: Position, now: nat): (d: nat)
    requires p.createdAt <= now
    ensures d * SecondsPerDay <= now - p.createdAt < d * SecondsPerDay + SecondsPerDay
  {
    (now - p.createdAt) / SecondsPerDay
  }

  /** `query_position_value`: the principal plus the simulated yield of the days elapsed. */
  function QueryPositionValue(p: Position, now: nat): (v: int)
    requires p.createdAt <= now
    ensures v - p.amountInvested == EstimateYield(p.amountInvested, DaysElapsed(p, now), InitialApy)
  {
    p.amountInvested + TruncDiv(p.amountInvested * SimulatedDailyRate * DaysElapsed(p, now), 10000)
  }

  /** A position is worth its principal when created and never less for a non-negative principal. */
  lemma QueryValueBounds(p: Position, now: nat)
    requires p.createdAt <= now
    ensures QueryPositionValue(p, p.createdAt) == p.amountInvested
    ensures p.amountInvested >= 0 ==> QueryPositionValue(p, now) >= p.amountInvested
  {
  }

  /** For a non-negative principal the simulated value never decreases as time passes. */
  lemma QueryValueMonotone(p: Position, now1: nat, now2: nat)
    requires p.createdAt <= now1 <= now2
    requires p.amountInvested >= 0
    ensures QueryPositionValue(p, now1) <= QueryPositionValue(p, now2)
  {
    var d1, d2 := DaysElapsed(p, now1), DaysElapsed(p, now2);
    FloorDivMonotone(now1 - p.createdAt, now2 - p.createdAt, SecondsPerDay);
    InitialApyRate();
    var a := p.amountInvested;
    assert a * SimulatedDailyRate * d1 <= a * SimulatedDailyRate * d2 by {
      assert a * d1 <= a * d2;
    }
    FloorDivMonotone(a * SimulatedDailyRate * d1, a * SimulatedDailyRate * d2, 10000);
  }

  /** Division by a positive number keeps the order of non-negative numbers. */
  lemma FloorDivMonotone(x: int, y: int, k: int)
    requires 0 <= x <= y && k > 0
    ensures x / k <= y / k
  {
    var qx, qy := x / k, y / k;
    assert k * qx <= y;
    assert y < k * (qy + 1);
    if qx > qy {
      ScaleMonotone(k, qy + 1, qx);
    }
  }

  /** Multiplying by a non-negative factor keeps the order. */
  lemma ScaleMonotone(k: int, a: int, b: int)
    requires k >= 0 && a <= b
    ensures k * a <= k * b
  {
  }

  /** `withdraw_position` and the four `withdraw_*` helpers: the principal and the gain over it. */
  function WithdrawPosition(p: Position): (r: (int, int))
    ensures r.0 == p.amountInvested
    ensures r.0 + r.1 == p.currentValue
  {
    match p.strategy
    case LiquidityPool => (p.amountInvested, p.currentValue - p.amountInvested)
    case LendingProtocol => (p.amountInvested, p.currentValue - p.amountInvested)
    case StableSwap => (p.amountInvested, p.currentValue - p.amountInvested)
    case PathPayment => (p.amountInvested, p.currentValue - p.amountInvested)
  }

  /** `update_position` on one record: revalued, gain recomputed, timestamp moved; nothing else. */
  function Revalue(p: Position, now: nat): (q: Position)
    requires p.createdAt <= now
    ensures q.currentValue == QueryPositionValue(p, now)
    ensures q.yieldEarned == q.currentValue - q.amountInvested
    ensures q.lastUpdated == now
    ensures q.(currentValue := p.currentValue, yieldEarned := p.yieldEarned, lastUpdated := p.lastUpdated) == p
  {
    var v := QueryPositionValue(p, now);
    p.(currentValue := v, yieldEarned := v - p.amountInvested, lastUpdated := now)
  }

  // ---------------------------------------------------------------------
  // The storage invariant
  // ---------------------------------------------------------------------

  /** The sum of the principals of the positions with ids 1..n. */
  function InvestedSum(positions: map<nat, Position>, n: nat): int
  {
    if n == 0 then 0
    else InvestedSum(positions, n - 1) + (if n in positions then positions[n].amountInvested else 0)
  }

  /** Sums over 1..n see only the principals stored under those ids. */
  lemma {:induction false} InvestedSumFrame(ps: map<nat, Position>, qs: map<nat, Position>, n: nat)
    requires forall k :: 1 <= k <= n ==> (k in ps <==> k in qs)
    requires forall k :: 1 <= k <= n && k in ps ==> ps[k].amountInvested == qs[k].amountInvested
    ensures InvestedSum(ps, n) == InvestedSum(qs, n)
  {
    if n > 0 {
      InvestedSumFrame(ps, qs, n - 1);
    }
  }

  /** Ids strictly increasing along the list. */
  ghost predicate Increasing(xs: seq<nat>)
  {
    forall i, j :: 0 <= i < j < |xs| ==> xs[i] < xs[j]
  }

  /** Filtering keeps a strictly increasing list strictly increasing. */
  lemma {:induction false} WithoutKeepsIncreasing(xs: seq<nat>, x: nat)
    requires Increasing(xs)
    ensures Increasing(Without<nat>(xs, x))
  {
    if xs != [] {
      var init, last := xs[..|xs| - 1], xs[|xs| - 1];
      WithoutKeepsIncreasing(init, x);
      WithoutMembers<nat>(init, x);
      var w := Without<nat>(init, x);
      forall i | 0 <= i < |w|
        ensures w[i] < last
      {
        assert w[i] in init;
        var k :| 0 <= k < |init| && init[k] == w[i];
        assert xs[k] == w[i];
      }
    }
  }

  /**
   * The storage invariant: positions are stored under the ids 1..counter,
   * each in the liquidity-pool strategy; the active list names stored
   * positions in increasing id order (so each at most once); the deposits
   * total the principals of all stored positions; and the APY is the
   * initial one.
   */
  ghost predicate Consistent(v: Vault)
  {
    && (forall id :: id in v.positions <==> 1 <= id <= v.counter)
    && (forall id :: id in v.positions ==> v.positions[id].id == id && v.positions[id].strategy == LiquidityPool)
    && (forall i :: 0 <= i < |v.active| ==> v.active[i] in v.positions)
    && Increasing(v.active)
    && v.stats.totalDeposited == InvestedSum(v.positions, v.counter)
    && v.stats.currentApy == InitialApy
  }

  // ---------------------------------------------------------------------
  // The entry points on a storage value
  // ---------------------------------------------------------------------

  /** `initialize`: no positions, an empty active list, zero statistics at 5% APY. */
  function Initial(): (v: Vault)
    ensures Consistent(v)
    ensures v.positions == map[] && v.active == [] && v.stats.activePositions == 0
  {
    Vault(0, map[], [], PoolStats(0, 0, 0, InitialApy, 0))
  }

  /** `determine_optimal_strategy` always picks the liquidity pool. */
  function DetermineOptimalStrategy(): (strategy: YieldStrategy)
    ensures strategy == LiquidityPool
  {
    LiquidityPool
  }

  /** `invest`: the next id, a position worth its principal with no gain, the id appended to the active list. */
  function InvestStep(v: Vault, strategy: YieldStrategy, amount: int, now: nat): (w: Vault)
    ensures w.counter == v.counter + 1 && w.counter in w.positions
    ensures var p := w.positions[w.counter];
      p.strategy == strategy && p.amountInvested == p.currentValue == amount && p.yieldEarned == 0
    ensures var p := w.positions[w.counter]; p.id == w.counter && p.createdAt == p.lastUpdated == now
    ensures w.positions.Keys == v.positions.Keys + {w.counter}
    ensures forall id :: id in v.positions && id != w.counter ==> w.positions[id] == v.positions[id]
    ensures w.active == v.active + [w.counter] && w.stats == v.stats
  {
    var id := v.counter + 1;
    v.(counter := id,
       positions := v.positions[id := Position(id, strategy, amount, amount, 0, now, now)],
       active := v.active + [id])
  }

  /** `deposit`: invest in the chosen strategy, then count the amount as deposited and invested. */
  function DepositStep(v: Vault, amount: int, now: nat): (w: Vault)
    ensures w.counter == v.counter + 1 && w.counter in w.positions && w.positions[w.counter].strategy == LiquidityPool
    ensures w.stats.totalDeposited == v.stats.totalDeposited + amount
    ensures w.stats.totalInvested == v.stats.totalInvested + amount
    ensures w.stats.activePositions == v.stats.activePositions + 1
  {
    var w := InvestStep(v, DetermineOptimalStrategy(), amount, now);
    w.(stats := w.stats.(totalDeposited := w.stats.totalDeposited + amount,
                         totalInvested := w.stats.totalInvested + amount,
                         activePositions := w.stats.activePositions + 1))
  }

  /**
   * `withdraw` on a stored position: the principal leaves the invested
   * total, the gain joins the earned total, one position fewer is counted,
   * and the id is filtered out of the active list. The record stays stored.
   */
  function WithdrawStep(v: Vault, id: nat): (w: Vault)
    requires id in v.positions
    ensures w.positions == v.positions && w.counter == v.counter
    ensures w.stats.totalInvested == v.stats.totalInvested - v.positions[id].amountInvested
    ensures w.stats.totalInvested + w.stats.totalYieldEarned
         == v.stats.totalInvested + v.stats.totalYieldEarned + v.positions[id].currentValue - 2 * v.positions[id].amountInvested
    ensures w.stats.activePositions == v.stats.activePositions - 1
  {
    var (principal, gain) := WithdrawPosition(v.positions[id]);
    v.(stats := v.stats.(totalInvested := v.stats.totalInvested - principal,
                         totalYieldEarned := v.stats.totalYieldEarned + gain,
                         activePositions := v.stats.activePositions - 1),
       active := Without<nat>(v.active, id))
  }

  /** `update_position` on a stored position. */
  function UpdateStep(v: Vault, id: nat, now: nat): (w: Vault)
    requires id in v.positions && v.positions[id].createdAt <= now
    ensures w.positions.Keys == v.positions.Keys
    ensures w.positions[id].currentValue == QueryPositionValue(v.positions[id], now) && w.positions[id].lastUpdated == now
    ensures forall other :: other in v.positions && other != id ==> w.positions[other] == v.positions[other]
    ensures w.counter == v.counter && w.active == v.active && w.stats == v.stats
  {
    v.(positions := v.positions[id := Revalue(v.positions[id], now)])
  }

  // ---------------------------------------------------------------------
  // What each step does, and that each keeps the invariant
  // ---------------------------------------------------------------------

  /**
   * A deposit opens position counter+1 worth the amount with no gain, at the
   * end of the active list, and adds the amount to both totals.
   */
  lemma DepositFacts(v: Vault, amount: int, now: nat)
    ensures var w := DepositStep(v, amount, now);
      var id := v.counter + 1;
      && w.counter == id
      && w.positions == v.positions[id := Position(id, LiquidityPool, amount, amount, 0, now, now)]
      && w.active == v.active + [id]
      && w.stats.totalDeposited == v.stats.totalDeposited + amount
      && w.stats.totalInvested == v.stats.totalInvested + amount
      && w.stats.totalYieldEarned == v.stats.totalYieldEarned
      && w.stats.activePositions == v.stats.activePositions + 1
      && w.stats.currentApy == v.stats.currentApy
  {
  }

  lemma DepositKeepsConsistent(v: Vault, amount: int, now: nat)
    requires Consistent(v)
    ensures Consistent(DepositStep(v, amount, now))
  {
    var w := DepositStep(v, amount, now);
    var id := v.counter + 1;
    InvestedSumFrame(v.positions, w.positions, v.counter);
    assert Increasing(w.active) by {
      forall i, j | 0 <= i < j < |w.active|
        ensures w.active[i] < w.active[j]
      {
        if j == |w.active| - 1 {
          assert w.active[i] == v.active[i] && v.active[i] in v.positions;
        }
      }
    }
  }

  /**
   * A withdrawal pays out the principal and the gain that make up the
   * position's current value; it removes exactly that id from the active
   * list, the others keeping their order, and leaves every record stored.
   */
  lemma WithdrawFacts(v: Vault, id: nat)
    requires id in v.positions
    ensures var w := WithdrawStep(v, id);
      var p := v.positions[id];
      && w.positions == v.positions && w.counter == v.counter
      && w.active == Without<nat>(v.active, id)
      && (forall k :: k in w.active <==> k in v.active && k != id)
      && w.stats.totalInvested == v.stats.totalInvested - p.amountInvested
      && w.stats.totalYieldEarned == v.stats.totalYieldEarned + (p.currentValue - p.amountInvested)
      && w.stats.activePositions == v.stats.activePositions - 1
      && w.stats.totalDeposited == v.stats.totalDeposited && w.stats.currentApy == v.stats.currentApy
  {
    WithoutMembers<nat>(v.active, id);
  }

  /**
   * When the id occurs once in the active list, the new list is the old one
   * with that single entry cut out.
   */
  lemma WithdrawCutsEntry(v: Vault, id: nat, k: nat)
    requires id in v.positions
    requires k < |v.active| && v.active[k] == id
    requires Increasing(v.active)
    ensures WithdrawStep(v, id).active == v.active[..k] + v.active[k + 1..]
  {
    var pre, post := v.active[..k], v.active[k + 1..];
    assert v.active == pre + [id] + post;
    assert id !in pre by {
      forall i | 0 <= i < |pre| ensures pre[i] != id {
        assert v.active[i] < v.active[k];
      }
    }
    assert id !in post by {
      forall i | 0 <= i < |post| ensures post[i] != id {
        assert v.active[k] < v.active[k + 1 + i];
      }
    }
    WithoutSingle(pre, id, post);
  }

  lemma WithdrawKeepsConsistent(v: Vault, id: nat)
    requires Consistent(v)
    requires id in v.positions
    ensures Consistent(WithdrawStep(v, id))
  {
    var w := WithdrawStep(v, id);
    WithoutKeepsIncreasing(v.active, id);
    WithoutMembers<nat>(v.active, id);
    forall i | 0 <= i < |w.active|
      ensures w.active[i] in w.positions
    {
      assert w.active[i] in v.active;
    }
  }

  /**
   * `withdraw` does not delete the record, so it accepts the same position
   * again: a second withdrawal pays the same amounts once more and counts
   * one more position gone, although the id already left the active list.
   */
  lemma WithdrawIsRepeatable(v: Vault, id: nat)
    requires id in v.positions
    ensures var w := WithdrawStep(v, id);
      && id in w.positions
      && id !in w.active
      && WithdrawStep(w, id).active == w.active
      && WithdrawStep(w, id).stats.activePositions == v.stats.activePositions - 2
      && WithdrawStep(w, id).stats.totalInvested == v.stats.totalInvested - 2 * v.positions[id].amountInvested
  {
    var w := WithdrawStep(v, id);
    WithoutMultiset<nat>(v.active, id);
    WithoutAbsent<nat>(w.active, id);
  }

  /** A revaluation changes only that record, and only its value, gain and timestamp. */
  lemma UpdateKeepsConsistent(v: Vault, id: nat, now: nat)
    requires Consistent(v)
    requires id in v.positions && v.positions[id].createdAt <= now
    ensures Consistent(UpdateStep(v, id, now))
    ensures UpdateStep(v, id, now).positions.Keys == v.positions.Keys
    ensures UpdateStep(v, id, now).stats == v.stats && UpdateStep(v, id, now).active == v.active
  {
    var w := UpdateStep(v, id, now);
    InvestedSumFrame(v.positions, w.positions, v.counter);
  }

  // ---------------------------------------------------------------------
  // The contract
  // ---------------------------------------------------------------------

  /** A contract whose storage is a consistent value is valid. */
  lemma StorageValid(c: YieldContract, v: Vault)
    requires c.Storage() == v && Consistent(v)
    ensures c.Valid()
  {
  }

  class YieldContract {
    const admin: Address
    const questContract: Address
    const token: Address
    var liquidityPool: Option<Address>
    var lendingPool: Option<Address>
    var positionCounter: nat
    var positions: map<nat, Position>
    var activePositions: seq<nat>
    var stats: PoolStats

    function Storage(): Vault
      reads this
    {
      Vault(positionCounter, positions, activePositions, stats)
    }

    ghost predicate Valid()
      reads this
    {
      Consistent(Storage())
    }

    /** `initialize`. */
    constructor (admin: Address, questContract: Address, token: Address)
      ensures Valid()
      ensures Storage() == Initial()
      ensures this.admin == admin && this.questContract == questContract && this.token == token
      ensures liquidityPool == None && lendingPool == None
    {
      this.admin := admin;
      this.questContract := questContract;
      this.token := token;
      liquidityPool := None;
      lendingPool := None;
      positionCounter := 0;
      positions := map[];
      activePositions := [];
      stats := PoolStats(0, 0, 0, InitialApy, 0);
    }

    /** `configure_protocols`: records the two protocol addresses and nothing else. */
    method ConfigureProtocols(liquidity: Address, lending: Address)
      modifies this
      ensures liquidityPool == Some(liquidity) && lendingPool == Some(lending)
      ensures Storage() == old(Storage())
    {
      liquidityPool := Some(liquidity);
      lendingPool := Some(lending);
    }

    /** `invest`: returns the new position's id. */
    method Invest(strategy: YieldStrategy, amount: int, now: nat) returns (id: nat)
      modifies this
      ensures id == old(positionCounter) + 1
      ensures Storage() == InvestStep(old(Storage()), strategy, amount, now)
      ensures liquidityPool == old(liquidityPool) && lendingPool == old(lendingPool)
    {
      id := positionCounter + 1;
      positionCounter := id;
      positions := positions[id := Position(id, strategy, amount, amount, 0, now, now)];
      activePositions := activePositions + [id];
    }

    /** `deposit`: returns the new position's id. */
    method Deposit(amount: int, now: nat) returns (id: nat)
      requires Valid()
      modifies this
      ensures Valid()
      ensures id == old(positionCounter) + 1
      ensures Storage() == DepositStep(old(Storage()), amount, now)
      ensures liquidityPool == old(liquidityPool) && lendingPool == old(lendingPool)
    {
      ghost var before := Storage();
      var strategy := DetermineOptimalStrategy();
      id := Invest(strategy, amount, now);
      stats := stats.(totalDeposited := stats.totalDeposited + amount,
                      totalInvested := stats.totalInvested + amount,
                      activePositions := stats.activePositions + 1);
      DepositKeepsConsistent(before, amount, now);
      StorageValid(this, DepositStep(before, amount, now));
    }

    /** `withdraw`: aborts for an unknown id; otherwise returns the principal and the gain. */
    method Withdraw(positionId: nat) returns (r: Result<(int, int), YieldError>)
      requires Valid()
      modifies this
      ensures Valid()
      ensures r.Failure? <==> positionId !in old(positions)
      ensures r.Failure? ==> r.error == PositionNotFound && unchanged(this)
      ensures r.Success? ==>
        && r.value == WithdrawPosition(old(positions)[positionId])
        && Storage() == WithdrawStep(old(Storage()), positionId)
      ensures liquidityPool == old(liquidityPool) && lendingPool == old(lendingPool)
    {
      if positionId !in positions {
        return Failure(PositionNotFound);
      }
      ghost var before := Storage();
      var position := positions[positionId];
      var (principal, gain) := WithdrawPosition(position);
      stats := stats.(totalInvested := stats.totalInvested - principal,
                      totalYieldEarned := stats.totalYieldEarned + gain,
                      activePositions := stats.activePositions - 1);
      RemovePosition(positionId);
      WithdrawKeepsConsistent(before, positionId);
      StorageValid(this, WithdrawStep(before, positionId));
      r := Success((principal, gain));
    }

    /** `remove_position`: rebuilds the active list without the id. */
    method RemovePosition(positionId: nat)
      modifies this
      ensures activePositions == Without<nat>(old(activePositions), positionId)
      ensures positionCounter == old(positionCounter) && positions == old(positions) && stats == old(stats)
      ensures liquidityPool == old(liquidityPool) && lendingPool == old(lendingPool)
    {
      activePositions := RemoveAll<nat>(activePositions, positionId);
    }

    /** `update_position`: aborts for an unknown id; otherwise revalues it and returns the new record. */
    method UpdatePosition(positionId: nat, now: nat) returns (r: Result<Position, YieldError>)
      requires Valid()
      requires positionId in positions ==> positions[positionId].createdAt <= now
      modifies this
      ensures Valid()
      ensures r.Failure? <==> positionId !in old(positions)
      ensures r.Failure? ==> r.error == PositionNotFound && unchanged(this)
      ensures r.Success? ==>
        && r.value == Revalue(old(positions)[positionId], now)
        && Storage() == UpdateStep(old(Storage()), positionId, now)
      ensures liquidityPool == old(liquidityPool) && lendingPool == old(lendingPool)
    {
      if positionId !in positions {
        return Failure(PositionNotFound);
      }
      ghost var before := Storage();
      var position := positions[positionId];
      var value := QueryPositionValue(position, now);
      var gain := value - position.amountInvested;
      position := position.(currentValue := value, yieldEarned := gain, lastUpdated := now);
      positions := positions[positionId := position];
      UpdateKeepsConsistent(before, positionId, now);
      StorageValid(this, UpdateStep(before, positionId, now));
      r := Success(position);
    }

    /** `get_position`: None for an unknown id, writing nothing; otherwise the result of `update_position`. */
    method GetPosition(positionId: nat, now: nat) returns (r: Option<Position>)
      requires Valid()
      requires positionId in positions ==> positions[positionId].createdAt <= now
      modifies this
      ensures Valid()
      ensures r.None? <==> positionId !in old(positions)
      ensures r.None? ==> unchanged(this)
      ensures r.Some? ==>
        && r.value == Revalue(old(positions)[positionId], now)
        && Storage() == UpdateStep(old(Storage()), positionId, now)
      ensures liquidityPool == old(liquidityPool) && lendingPool == old(lendingPool)
    {
      if positionId !in positions {
        return None;
      }
      var updated := UpdatePosition(positionId, now);
      r := Some(updated.value);
    }

    /** `get_pool_stats`. */
    function GetPoolStats(): (r: PoolStats)
      reads this
      ensures r == stats
      ensures Valid() ==> r.currentApy == InitialApy && r.totalDeposited == InvestedSum(positions, positionCounter)
    {
      stats
    }

    /** `estimate_yield` at the stored APY. */
    function EstimateYieldNow(amount: int, days: nat): (y: int)
      reads this
      ensures Valid() ==> y == Quest.CalculateYieldShare(amount, days)
    {
      EstimateIsQuestYieldShare(amount, days);
      EstimateYield(amount, days, stats.currentApy)
    }
  }
}
