# A Dafny model of the job-quest platform core

The platform lets a job seeker stake USDC on a quest: a daily job-search goal held for 7, 14, 30 or 90 days.
The model covers five Soroban contracts and three front-end modules:

- **quest**: creates quests, takes the stake, logs one day of activity at a time and settles the quest at its end.
- **badge**: mints achievement badges for settled quests, streaks and milestones, and transfers them.
- **verification**: records proofs of activity (ZK e-mail, LinkedIn oracle, manual) and lets an oracle or the admin decide them.
- **yield**: keeps the stakes in simulated DeFi positions.
- **jobquest**: a points game (rejections, connections, events) with levels.
- **BuddyCharacter**: the character that grows with the user's points.
- **Dashboard**: shows a user's points, activities and progress.
- **contracts.ts**: the front end's copy of the durations, stakes, badges, labels and enum codes.

| module (file) | models |
|---|---|
| `Common` (common.dfy) | addresses and bytes, `Option`/`Result`, Rust's truncating `/`, the order-keeping filter of `remove_position` and of the badge transfer |
| `Quest` (quest.dfy) | contracts/quest/src/lib.rs |
| `Badge` (badge.dfy) | contracts/badge/src/lib.rs |
| `Verification` (verification.dfy) | contracts/verification/src/lib.rs |
| `YieldVault` (yield.dfy) | contracts/yield/src/lib.rs |
| `JobQuest` (jobquest.dfy) | contracts/jobquest/src/lib.rs |
| `Catalog` (catalog.dfy) | src/config/contracts.ts |
| `Buddy` (buddy.dfy) | src/components/BuddyCharacter.tsx |
| `Dashboard` (dashboard.dfy) | src/pages/Dashboard.tsx |

## Conventions

- **Contracts as classes.** Each contract is a class whose fields are its storage entries. `initialize` is the constructor.
- **State steps as functions.** For badge, verification and yield, every state change is also a pure step function on a storage value: `BadgeStorage`, `Ledger` or `Vault`.
  - Each method promises `Storage() == Step(old(Storage()), …)`.
  - Lemmas prove that each step keeps the storage invariant `Consistent`.
  - Lemmas also prove what each step changes and what it leaves alone.
  - Each public method that writes storage requires and keeps `Valid()`, which is `Consistent(Storage())`.
  - Addresses that only `initialize` writes are `const` fields.
- **Panics are results.** A panic (`panic!`, `assert!`, `expect`, `unwrap` on a missing entry) becomes a `Failure` result that leaves the state unchanged. The error value names the panic's message.
- **The clock is a parameter.**
  - The ledger clock is a `now` parameter.
  - Where the code subtracts a start time from it in `u64`, `now` at or after that start time is a precondition: ledger time does not run backwards.
- **Integers are unbounded,** except for the `as u32` cast of the elapsed days in `log_activity`, which is written out modulo 2^32. Rust's `i128` division truncates toward zero, and the model does the same (`Common.TruncDiv`).
- **Behaviour of the code worth knowing.**
  - The dashboard keeps only quests whose status is `Active` (code 0). Its points and activity counts cover the active quests only, not the user's whole history.
  - `pointsToGo` is `3500 - points` and is not clamped at 0. The "Level Up!" text appears once it is not positive.
  - `log_activity` accepts one log per quest day. It credits a completed day only when the count reaches the daily target.
  - `create_quest` accepts up to 3 grace days.
  - `getStageName` yields `undefined` outside the stages 0..5. This is modelled as `None`.

## Model

| member | source | states |
|---|---|---|
| Quest.CalculateStake | contracts/quest/src/lib.rs:307-315 | the stake is defined exactly for the four tier durations and lies between 10 and 100 USDC; any other duration panics with "Invalid duration" |
| Quest.StakeGrowsWithDuration | contracts/quest/src/lib.rs:307-315 | a longer tier always costs a strictly larger stake |
| Quest.CheckQuestParams | contracts/quest/src/lib.rs:99-104 | a quest is accepted exactly when the daily target is 1..10, the duration is a tier and there are at most 3 grace days; each rejection reports the first failing check |
| Quest.CalculateYieldShare | contracts/quest/src/lib.rs:318-328 | the yield share of a non-negative stake is stake × days / 10000, a daily rate of one basis point |
| Quest.DailyRateIsOneBasisPoint | contracts/quest/src/lib.rs:318-328 | 5 % a year, divided in integers over 365 days, is 1 basis point a day |
| Quest.YieldShareOfTiers | contracts/quest/src/lib.rs:307-328 | the yield share for each of the four tiers at its own stake |
| Quest.Bonus | contracts/quest/src/lib.rs:238-243 | the success bonus is 1 % of a positive community pool, never more than the pool, and 0 when the pool is empty |
| Quest.Succeeds | contracts/quest/src/lib.rs:221-228 | a quest succeeds exactly when the days completed plus the grace days reach the duration; full attendance always succeeds |
| Quest.TotalReward | contracts/quest/src/lib.rs:245 | a successful staker gets at least the stake back, and exactly stake plus yield share when the community pool is empty |
| Quest.Settle | contracts/quest/src/lib.rs:228-271 | settlement marks the quest Completed when it succeeds and Failed otherwise; it changes nothing else of the quest but the accrued yield, which a failure leaves alone |
| Quest.SettlementConservesPools | contracts/quest/src/lib.rs:228-271 | success pays stake, yield share and bonus out of the pools; failure moves the stake from the yield pool to the community pool, so the pools' total is unchanged |
| Quest.SettlementKeepsCommunityPoolNonNegative | contracts/quest/src/lib.rs:228-271 | settlement never drives the community pool below zero |
| Quest.SuccessOverdrawsYieldPool | contracts/quest/src/lib.rs:228-259 | with only its own stake in the yield pool, a successful 7-day quest leaves the pool at -7000 stroops: nothing in the code funds the yield share |
| Quest.CreditDay | contracts/quest/src/lib.rs:199-201 | a log credits exactly one day when the daily target is met, and changes nothing else of the quest |
| Quest.DayIndex | contracts/quest/src/lib.rs:177 | the day index is below 2^32, and is the floor of the elapsed seconds over 86400 while that fits in `u32` |
| Quest.LoggedDaysInsert | contracts/quest/src/lib.rs:190-204 | storing a new day log adds exactly that day to the quest's logged days, and no other quest's |
| Quest.BoundedDaySetSize | contracts/quest/src/lib.rs:177-185 | a set of day indexes below n has at most n members |
| Quest.DaysCompletedWithinDuration | contracts/quest/src/lib.rs:177-201 | since each day is credited at most once and only within the duration, the days completed never exceed the duration |
| Quest.AddLogKeepsInvariant | contracts/quest/src/lib.rs:190-204 | a log for a day not yet logged, within the duration, keeps the storage invariant |
| Quest.AddQuestKeepsInvariant | contracts/quest/src/lib.rs:106-155 | storing a fresh quest under the next id and appending it to its user's list keeps the storage invariant |
| Quest.ReplaceQuestKeepsInvariant | contracts/quest/src/lib.rs:199-271 | rewriting a stored quest, with its credit still covered by its logs, keeps the storage invariant |
| Quest.QuestContract.constructor | contracts/quest/src/lib.rs:77-85 | a new contract has no quests, a zero counter and empty pools |
| Quest.QuestContract.GetUserQuests | contracts/quest/src/lib.rs:285-290 | exactly the user's stored list, empty when absent; every listed id is a stored quest of that user |
| Quest.QuestContract.GetQuest | contracts/quest/src/lib.rs:277-282 | a quest is found exactly when stored, carries its own id and is never Cancelled |
| Quest.QuestContract.GetDailyLog | contracts/quest/src/lib.rs:293-297 | the stored log for that quest and day, found exactly when stored, and only for a stored quest's day within its duration |
| Quest.QuestContract.GetPoolStats | contracts/quest/src/lib.rs:300-304 | the community and yield pools; the community pool is never negative |
| Quest.QuestContract.CreateQuest | contracts/quest/src/lib.rs:88-158 | valid parameters store an Active quest under the next id, with the tier's stake and an end of start + duration days; the stake is added to the yield pool and the id to the user's list; invalid parameters change nothing |
| Quest.QuestContract.LogActivity | contracts/quest/src/lib.rs:161-206 | fails for a missing, inactive or expired quest and for a second log on the same day; otherwise stores the day's log, credits the day exactly when the target is met, and returns whether it was met |
| Quest.QuestContract.CompleteQuest | contracts/quest/src/lib.rs:209-274 | fails for a missing or inactive quest and before the end time; otherwise settles the quest and the pools as `Settle` says |
| Quest.SettledQuestIsFinal | contracts/quest/src/lib.rs:170-174 | once a quest is settled, neither a log nor a second settlement is accepted |
| Quest.SecondLogSameDayFails | contracts/quest/src/lib.rs:182-185 | after a successful log, a second log at any moment of the same quest day, with any count and hash, fails with "Already logged for today" |
| Badge.TierFor | contracts/badge/src/lib.rs:96-101 | the badge tier is defined exactly for the four durations; any other panics |
| Badge.TierForInjective | contracts/badge/src/lib.rs:96-101 | different durations get different tiers |
| Badge.CalculateRarity | contracts/badge/src/lib.rs:329-338 | rarity is at least the duration, equals it exactly without a bonus, and is duration + 35 with both bonuses |
| Badge.RarityBonuses | contracts/badge/src/lib.rs:329-338 | a perfect quest adds 20 and an overachiever adds 15, each whatever the other bonus is |
| Badge.ListedAreStored | contracts/badge/src/lib.rs:184-189 | every id in a user's list is a stored badge owned by that user |
| Badge.MintStep | contracts/badge/src/lib.rs:263-303 | a mint raises the counter by one, appends the new id to the owner's list and sets the owner's achievement flag |
| Badge.MintStepFacts | contracts/badge/src/lib.rs:263-303 | a mint stores a badge under the next, unused id, appends it to the owner's list only, keeps every existing badge and records the achievement |
| Badge.MintStepConsistent | contracts/badge/src/lib.rs:263-303 | a mint keeps the badge storage invariant: lists are owned, distinct and cover every badge |
| Badge.MintAllConsistent | contracts/badge/src/lib.rs:80-146 | any run of mints keeps the storage invariant |
| Badge.MintAllEffect | contracts/badge/src/lib.rs:80-146 | a run of mints stores one badge per planned mint under consecutive ids, appends exactly those ids to the owner's list, keeps the old badges and records every achievement |
| Badge.BaseBadgeStep | contracts/badge/src/lib.rs:104-140 | the quest's badges set the tier achievement, and the attendance and overachiever ones when asked for, and add one, two or three ids to the owner's list |
| Badge.MilestoneStep | contracts/badge/src/lib.rs:306-326 | the milestone check mints MultiQuest5 exactly when it is due, adding one id to the owner's list, and leaves it no longer due |
| Badge.QuestBadgeStep | contracts/badge/src/lib.rs:80-146 | a quest-badge call sets the tier achievement and leaves the milestone no longer due |
| Badge.QuestBadgePlan | contracts/badge/src/lib.rs:104-140 | a settled quest earns its tier badge, whose rarity is the duration, plus one badge per bonus, and never the milestone |
| Badge.MilestoneDueBefore | contracts/badge/src/lib.rs:306-326 | after the quest's badges the milestone is due exactly when the owner then holds at least 5 badges and does not yet have it |
| Badge.MilestoneDue | contracts/badge/src/lib.rs:315 | the milestone is due exactly when the owner holds at least 5 listed badges, and never once the owner has the MultiQuest5 flag |
| Badge.BaseBadgeStepIsRun | contracts/badge/src/lib.rs:104-140 | minting the quest's badges one by one is the run of its plan |
| Badge.QuestBadgeStepIsRun | contracts/badge/src/lib.rs:80-146 | `mint_quest_badge` is the run of the quest's plan followed by the milestone when due |
| Badge.MilestoneAtMostOnce | contracts/badge/src/lib.rs:306-326 | from any storage in which the owner holds the MultiQuest5 flag, no quest-badge call mints the milestone again and `check_and_mint_milestones` changes nothing |
| Badge.AchievementsKept | contracts/badge/src/lib.rs:222-291 | no mint, milestone check, quest-badge call or transfer removes an achievement flag; together with `MilestoneAtMostOnce`, an owner who once received the milestone never receives it again |
| Badge.StreakAchievement | contracts/badge/src/lib.rs:149-174 | a streak of 30 days or more earns Streak30, a shorter one Streak10 |
| Badge.TransferFacts | contracts/badge/src/lib.rs:222-260 | a transfer changes only the badge's owner and owner entry, and no other badge |
| Badge.TransferStep | contracts/badge/src/lib.rs:222-260 | a transfer keeps the set of badges, gives the badge and its owner entry to the receiver, puts the id last in the receiver's list, and moves no achievement flag |
| Badge.TransferKeepsConsistent | contracts/badge/src/lib.rs:222-260 | a transfer by the owner keeps the storage invariant |
| Badge.TransferMovesId | contracts/badge/src/lib.rs:244-259 | a transfer removes the id from the sender's list, keeping the others in order, appends it to the receiver's, and touches nobody else's list |
| Badge.TotalScoreConcat | contracts/badge/src/lib.rs:192-211 | the collection score of two lists is the sum of their scores |
| Badge.TotalScore | contracts/badge/src/lib.rs:192-211 | the collection score is at least the rarity of each badge in the list |
| Badge.ScoreAfterMint | contracts/badge/src/lib.rs:192-211 | a mint raises the owner's collection score by exactly the new badge's rarity |
| Badge.BadgeContract.constructor | contracts/badge/src/lib.rs:71-77 | a new contract holds no badges, lists or achievements |
| Badge.BadgeContract.GetBadge | contracts/badge/src/lib.rs:177-181 | the stored badge, found exactly when stored; it carries its own id and is listed for its owner |
| Badge.BadgeContract.GetUserBadges | contracts/badge/src/lib.rs:184-189 | the user's list, empty when absent; every id in it is a badge the user owns |
| Badge.BadgeContract.HasAchievement | contracts/badge/src/lib.rs:214-219 | true exactly when the user has been minted that achievement |
| Badge.BadgeContract.MintBadge | contracts/badge/src/lib.rs:263-303 | returns the next id and makes one mint step |
| Badge.BadgeContract.MintQuestBadge | contracts/badge/src/lib.rs:80-146 | fails exactly for a non-tier duration and then changes nothing; otherwise mints the quest's badges and the milestone when due, under consecutive ids, and returns those ids |
| Badge.BadgeContract.MintBaseBadges | contracts/badge/src/lib.rs:104-140 | mints the tier badge and the attendance and overachiever badges, under consecutive ids |
| Badge.BadgeContract.MintAppend | contracts/badge/src/lib.rs:104-139 | one `mint_badge` call makes one mint step and pushes the returned id after the ids minted so far |
| Badge.BadgeContract.CheckAndMintMilestones | contracts/badge/src/lib.rs:306-326 | mints the milestone exactly when it is due, and appends its id |
| Badge.BadgeContract.MintStreakBadge | contracts/badge/src/lib.rs:149-174 | fails exactly when the owner already has that streak achievement; otherwise mints it with the streak length as rarity |
| Badge.BadgeContract.GetBadgeCollection | contracts/badge/src/lib.rs:192-211 | the user's list and the sum of its rarities |
| Badge.BadgeContract.Transfer | contracts/badge/src/lib.rs:222-260 | fails for an unknown badge or a sender who is not its owner, changing nothing; otherwise makes the transfer step |
| Verification.Verdict | contracts/verification/src/lib.rs:195-199 | a decision yields Verified exactly when accepted, Rejected exactly when not |
| Verification.Initial | contracts/verification/src/lib.rs:72-85 | the initial storage is consistent and empty |
| Verification.RegisterFacts | contracts/verification/src/lib.rs:88-112 | registering stores a fresh active oracle with reputation 100 and appends it to the list, leaving the other oracles and all proofs alone |
| Verification.RegisterStep | contracts/verification/src/lib.rs:88-112 | registration stores an active record for the address with reputation 100 and no verifications, appends the address to the list once more, and touches no proof |
| Verification.ReRegisterResets | contracts/verification/src/lib.rs:88-112 | registering a known oracle again resets its reputation and count and lists it twice |
| Verification.RegisterKeepsConsistent | contracts/verification/src/lib.rs:88-112 | registration keeps the storage invariant |
| Verification.CreateFacts | contracts/verification/src/lib.rs:301-346 | a new proof is stored under the next, unused id and appended to its user's and its quest's lists only |
| Verification.CreateStep | contracts/verification/src/lib.rs:301-346 | creation stores the proof with its user, quest, method, status and verifier under the next id, appends that id to the user's and the quest's index, and touches no oracle |
| Verification.CreateKeepsConsistent | contracts/verification/src/lib.rs:301-346 | creating a proof as the three submit calls do keeps the storage invariant |
| Verification.VerifyPost | contracts/verification/src/lib.rs:169-216 | the oracle's decision is accepted exactly for a registered, active oracle on a pending LinkedIn proof; each rejection reports the check that failed, in the code's order |
| Verification.VerifyPostEffect | contracts/verification/src/lib.rs:186-210 | an accepted decision sets the status, the proof data and the verifier, counts one more verification for the oracle and, when valid, one more reputation point, and changes nothing else |
| Verification.VerifyPostKeepsConsistent | contracts/verification/src/lib.rs:169-216 | an oracle's decision keeps the storage invariant |
| Verification.ApproveManual | contracts/verification/src/lib.rs:243-267 | the admin's decision is accepted exactly for a pending manual proof; each rejection reports the check that failed |
| Verification.ApproveManualEffect | contracts/verification/src/lib.rs:247-262 | an accepted decision sets the status and the admin as verifier, and changes nothing else |
| Verification.ApproveManualKeepsConsistent | contracts/verification/src/lib.rs:243-267 | the admin's decision keeps the storage invariant |
| Verification.DecidedProofIsFinal | contracts/verification/src/lib.rs:191-192 | a decided proof cannot be decided again, by an oracle or by the admin |
| Verification.DecidedProofsUnchanged | contracts/verification/src/lib.rs:169-267 | no decision and no new proof alters a proof that is already decided |
| Verification.VerificationContract.constructor | contracts/verification/src/lib.rs:72-85 | a new contract holds no proofs and no oracles |
| Verification.VerificationContract.RegisterOracle | contracts/verification/src/lib.rs:88-112 | makes the registration step |
| Verification.VerificationContract.CreateProof | contracts/verification/src/lib.rs:301-346 | returns the next id and makes the creation step |
| Verification.VerificationContract.SubmitZkProof | contracts/verification/src/lib.rs:115-141 | stores a ZK e-mail proof, already Verified |
| Verification.VerificationContract.RequestLinkedInVerification | contracts/verification/src/lib.rs:144-166 | stores a pending LinkedIn proof with an empty hash and the post URL as data |
| Verification.VerificationContract.SubmitManualProof | contracts/verification/src/lib.rs:219-240 | stores a pending manual proof |
| Verification.VerificationContract.VerifyLinkedInPost | contracts/verification/src/lib.rs:169-216 | succeeds exactly when `VerifyPost` does and then takes its new storage; a failure changes nothing |
| Verification.VerificationContract.ApproveManualProof | contracts/verification/src/lib.rs:243-267 | succeeds exactly when `ApproveManual` does and then takes its new storage; a failure changes nothing |
| Verification.VerificationContract.GetProof | contracts/verification/src/lib.rs:270-274 | the stored proof, found exactly when stored; it carries its id, is never Expired and is listed for its user and its quest |
| Verification.VerificationContract.GetUserProofs | contracts/verification/src/lib.rs:277-282 | every listed id is a stored proof of that user |
| Verification.VerificationContract.GetQuestProofs | contracts/verification/src/lib.rs:285-290 | every listed id is a stored proof of that quest |
| Verification.VerificationContract.GetOracle | contracts/verification/src/lib.rs:293-298 | the stored oracle record, found exactly when registered; it is listed and has reputation at least 100 |
| Verification.LinkedInRoundTrip | contracts/verification/src/lib.rs:144-216 | a LinkedIn request decided by an active oracle gets the oracle's verdict, and a second decision is refused as already processed |
| YieldVault.EstimateYield | contracts/yield/src/lib.rs:202-209 | for a non-negative amount the estimate is exactly amount × daily rate × days / 10000 rounded down, and it lies between 0 and that product; it never exceeds 0 for a non-positive amount |
| YieldVault.InitialApyRate | contracts/yield/src/lib.rs:359-367 | the initial 5 % APY is a daily rate of 1 basis point |
| YieldVault.EstimateIsQuestYieldShare | contracts/yield/src/lib.rs:202-209 | at the initial APY the vault's estimate equals the quest contract's yield share |
| YieldVault.QueryPositionValue | contracts/yield/src/lib.rs:359-367 | a position's value is its principal plus the estimate for the whole days since it was created |
| YieldVault.DaysElapsed | contracts/yield/src/lib.rs:362 | the whole days elapsed: floor of the seconds since creation over 86400 |
| YieldVault.QueryValueBounds | contracts/yield/src/lib.rs:359-367 | a position is worth its principal when created and never less later, for a non-negative principal |
| YieldVault.QueryValueMonotone | contracts/yield/src/lib.rs:359-367 | for a non-negative principal the value never falls as time passes |
| YieldVault.WithdrawPosition | contracts/yield/src/lib.rs:308-356 | the payout is the principal and the yield, which sum to the current value |
| YieldVault.Revalue | contracts/yield/src/lib.rs:164-181 | revaluing sets the current value, the yield as value minus principal and the update time, and nothing else |
| YieldVault.WithoutKeepsIncreasing | contracts/yield/src/lib.rs:370-385 | removing an id keeps the active list in increasing order |
| YieldVault.Initial | contracts/yield/src/lib.rs:62-84 | the initial vault is consistent, has no positions and an APY of 500 |
| YieldVault.DetermineOptimalStrategy | contracts/yield/src/lib.rs:212-221 | the strategy is always the liquidity pool |
| YieldVault.InvestStep | contracts/yield/src/lib.rs:224-265 | an investment opens position counter+1 with the given strategy, worth its principal with no gain, created and updated now; every other position is unchanged; the id is appended to the active list and the statistics are left alone |
| YieldVault.DepositStep | contracts/yield/src/lib.rs:100-126 | a deposit opens a liquidity-pool position under the next id and adds the amount to the deposited and invested totals and one to the position count |
| YieldVault.DepositFacts | contracts/yield/src/lib.rs:100-126 | a deposit opens a liquidity-pool position for the amount under the next id, lists it, and adds the amount to the deposited and invested totals and one to the active count |
| YieldVault.DepositKeepsConsistent | contracts/yield/src/lib.rs:100-126 | a deposit keeps the vault invariant |
| YieldVault.WithdrawFacts | contracts/yield/src/lib.rs:129-161 | a withdrawal keeps the position stored, removes it from the active list, and moves the totals by its principal and yield |
| YieldVault.WithdrawStep | contracts/yield/src/lib.rs:129-161 | a withdrawal keeps every position stored, takes the principal off the invested total, adds the gain to the earned total and counts one position fewer |
| YieldVault.WithdrawCutsEntry | contracts/yield/src/lib.rs:370-385 | on an increasing list, the removal cuts exactly the withdrawn entry |
| YieldVault.WithdrawKeepsConsistent | contracts/yield/src/lib.rs:129-161 | a withdrawal keeps the vault invariant |
| YieldVault.WithdrawIsRepeatable | contracts/yield/src/lib.rs:135-158 | the position stays stored after a withdrawal, so a second withdrawal is accepted and counts the principal and the active position off the totals twice |
| YieldVault.UpdateKeepsConsistent | contracts/yield/src/lib.rs:164-181 | revaluing one position keeps the vault invariant, the ids, the list and the statistics |
| YieldVault.UpdateStep | contracts/yield/src/lib.rs:164-181 | an update revalues that position at `now`, keeps every other position and the set of ids, and leaves the counter, the active list and the statistics alone |
| YieldVault.YieldContract.constructor | contracts/yield/src/lib.rs:62-84 | a new vault holds the initial storage and no protocol addresses |
| YieldVault.YieldContract.ConfigureProtocols | contracts/yield/src/lib.rs:87-97 | sets both protocol addresses and changes nothing else |
| YieldVault.YieldContract.Invest | contracts/yield/src/lib.rs:224-265 | returns the next id and opens a position with the given strategy |
| YieldVault.YieldContract.Deposit | contracts/yield/src/lib.rs:100-126 | returns the next id and makes the deposit step |
| YieldVault.YieldContract.Withdraw | contracts/yield/src/lib.rs:129-161 | fails exactly for an unknown position, changing nothing; otherwise returns its principal and yield and makes the withdrawal step |
| YieldVault.YieldContract.RemovePosition | contracts/yield/src/lib.rs:370-385 | the active list loses every occurrence of the id and keeps the rest in order; nothing else changes |
| YieldVault.YieldContract.UpdatePosition | contracts/yield/src/lib.rs:164-181 | fails exactly for an unknown position; otherwise stores and returns the revalued position |
| YieldVault.YieldContract.GetPosition | contracts/yield/src/lib.rs:184-194 | none for an unknown position; otherwise the revalued position, which is also stored |
| YieldVault.YieldContract.GetPoolStats | contracts/yield/src/lib.rs:197-199 | the statistics; the APY stays at 500 and the deposited total is the sum of the principals |
| YieldVault.YieldContract.EstimateYieldNow | contracts/yield/src/lib.rs:202-209 | the estimate at the stored APY, equal to the quest contract's yield share |
| JobQuest.Level | contracts/jobquest/src/lib.rs:16-18 | level l covers the points from (l - 1) × 100 below l × 100, starting at 1 |
| JobQuest.LevelMonotone | contracts/jobquest/src/lib.rs:16-18 | more points never give a lower level |
| JobQuest.Apply | contracts/jobquest/src/lib.rs:55-115 | each scoring call never lowers the points, and the counters' worth grows by exactly the points added |
| JobQuest.ApplyKeepsBalance | contracts/jobquest/src/lib.rs:55-115 | a scoring call keeps the points equal to 10 per rejection + 5 per connection + 50 per event, and never lowers the level |
| JobQuest.ApplyAllBalanced | contracts/jobquest/src/lib.rs:27-115 | from registration on, whatever calls are made, the points are what the counters earned |
| JobQuest.JobQuestGame.constructor | contracts/jobquest/src/lib.rs:27-52 | no player is registered at first |
| JobQuest.JobQuestGame.Register | contracts/jobquest/src/lib.rs:27-52 | fails exactly for a known player; otherwise stores and returns a zeroed record |
| JobQuest.JobQuestGame.LogRejection | contracts/jobquest/src/lib.rs:55-73 | fails exactly for an unknown player; otherwise adds 10 points and one rejection |
| JobQuest.JobQuestGame.LogConnections | contracts/jobquest/src/lib.rs:76-94 | fails exactly for an unknown player; otherwise adds 5 points per connection and the count |
| JobQuest.JobQuestGame.LogEvent | contracts/jobquest/src/lib.rs:97-115 | fails exactly for an unknown player; otherwise adds 50 points and one event |
| JobQuest.JobQuestGame.Stats | contracts/jobquest/src/lib.rs:118-127 | the stored record, found exactly for a registered player, whose points are what the counters earned |
| Catalog.DurationConfigsIncrease | src/config/contracts.ts:37-42 | four durations, shortest first, each longer one with a larger stake |
| Catalog.DurationConfigsMatchContracts | src/config/contracts.ts:37-42 | each row's stake is what the quest contract charges for its duration, and its badge name is the tier the badge contract mints |
| Catalog.DurationConfigsCoverContract | src/config/contracts.ts:37-42 | the table lists exactly the durations the quest contract accepts |
| Catalog.StatusCode | src/config/contracts.ts:29-34 | the four statuses have codes 0..3, and code 0 is exactly Active |
| Catalog.StatusOfCode | src/config/contracts.ts:29-34 | exactly the codes 0..3 name a status |
| Catalog.StatusCodesRoundTrip | src/config/contracts.ts:29-34 | status and code translate into each other without loss |
| Catalog.TypeCode | src/config/contracts.ts:14-19 | the four quest types have codes 0..3 |
| Catalog.TypeLabel | src/config/contracts.ts:21-26 | each type's label is one of the four labels |
| Catalog.TypeLabelsOnePerCode | src/config/contracts.ts:14-26 | different types never share a code or a label |
| Buddy.GetStage | src/components/BuddyCharacter.tsx:31-38 | the stage is the number of thresholds (500, 1000, 2000, 3500, 5000) the points have reached |
| Buddy.GetStageMonotone | src/components/BuddyCharacter.tsx:31-38 | more points never mean a lower stage |
| Buddy.GetStageBoundaries | src/components/BuddyCharacter.tsx:31-38 | each threshold is the first point value of its stage |
| Buddy.GetStageName | src/components/BuddyCharacter.tsx:47-57 | a name exists exactly for the stages 0..5 |
| Buddy.EveryStageIsNamed | src/components/BuddyCharacter.tsx:31-57 | whatever the points, the stage shown has a name |
| Buddy.GetBuddyImage | src/components/BuddyCharacter.tsx:41-44 | the picture is the stage's own for 0..5 and the first otherwise |
| Buddy.StageImagesDistinct | src/components/BuddyCharacter.tsx:41-44 | different stages show different pictures |
| Buddy.StageChange | src/components/BuddyCharacter.tsx:67-75 | the new stage is the points' stage, and a celebration starts exactly when it is above the current one |
| Buddy.DropIsSilent | src/components/BuddyCharacter.tsx:67-75 | losing points lowers the stage without a celebration |
| Buddy.RisingPointsLevelUpsBounded | src/components/BuddyCharacter.tsx:67-75 | while the points only grow, there are no more celebrations than stages climbed |
| Buddy.AtMostFiveLevelUps | src/components/BuddyCharacter.tsx:67-75 | a freshly mounted buddy celebrates at most five times while the points rise |
| Buddy.BuddyState.constructor | src/components/BuddyCharacter.tsx:26-27 | the buddy starts at stage 0 without a celebration |
| Buddy.BuddyState.OnPointsChanged | src/components/BuddyCharacter.tsx:67-75 | the state moves to the points' stage and raises the celebration exactly when the stage goes up |
| Buddy.BuddyState.EndCelebration | src/components/BuddyCharacter.tsx:71-73 | the celebration ends and the stage stays |
| Buddy.BuddyState.StageLabel | src/components/BuddyCharacter.tsx:170 | the level badge always has a name for a valid stage |
| Dashboard.ActiveOnly | src/pages/Dashboard.tsx:42-52 | the loaded list holds exactly the fetched quests that are Active, and never more than were fetched |
| Dashboard.ActiveOnlyConcat | src/pages/Dashboard.tsx:51 | the filter keeps the fetched order: the filter of a concatenation is the concatenation of the filters, and a single record is kept exactly when it is an active quest |
| Dashboard.ActiveOnlyCounts | src/pages/Dashboard.tsx:51 | the filter keeps multiplicity: an active quest appears as often as it was fetched, any other quest never |
| Dashboard.IsActiveRecord | src/pages/Dashboard.tsx:51 | a record is kept exactly when it exists and its status is `Active`; the code-0 test adds nothing |
| Dashboard.ActivityCount | src/pages/Dashboard.tsx:23 | the activity count is at least each quest's days completed |
| Dashboard.Points | src/pages/Dashboard.tsx:22 | the points are 50 per activity counted plus the demo points |
| Dashboard.QuestPoints | src/pages/Dashboard.tsx:22 | the quests' share of the points is at least 50 for every day any one quest completed; `PointsAreFiftyPerActivity` pins it to 50 × activity count |
| Dashboard.PointsAreFiftyPerActivity | src/pages/Dashboard.tsx:22-23 | the quests' points are 50 per activity counted |
| Dashboard.PointsToGo | src/pages/Dashboard.tsx:24-26 | the points to go and the points make 3500 |
| Dashboard.ShowsLevelUp | src/pages/Dashboard.tsx:321 | "Level Up!" shows exactly from 3500 points on |
| Dashboard.LevelUpTextMatchesBuddy | src/pages/Dashboard.tsx:24-26 | "Level Up!" shows exactly from 3500 points, which is where the buddy reaches stage 4 |
| Dashboard.Decimal | src/pages/Dashboard.tsx:119-126 | a number prints as one or more decimal digits, at least two from 10 on, with a leading `0` only for 0 itself |
| Dashboard.DecimalRoundTrip | src/pages/Dashboard.tsx:119-126 | the digits a number prints spell that number back (`DigitsValue` reads them, most significant first) |
| Dashboard.DecimalInjective | src/pages/Dashboard.tsx:119-126 | different numbers print differently |
| Dashboard.DayIdInjective | src/pages/Dashboard.tsx:119-126 | an entry id `quest-dayN` determines its quest and its day |
| Dashboard.DayIdParts | src/pages/Dashboard.tsx:121 | an entry id is the quest's decimal digits, then `-day`, then the day's decimal digits |
| Dashboard.QuestActivities | src/pages/Dashboard.tsx:119-126 | a quest yields one 50-point entry per day completed, no two with the same id |
| Dashboard.FormattedActivities | src/pages/Dashboard.tsx:119-126 | one 50-point entry per day completed |
| Dashboard.Origin | src/pages/Dashboard.tsx:119-126 | entry k stands for day d of quest j, with d below that quest's days completed |
| Dashboard.OriginOrdered | src/pages/Dashboard.tsx:119-126 | entries run quest after quest, each quest's days in order |
| Dashboard.ActivityIdsUnique | src/pages/Dashboard.tsx:119-126 | with distinct quests, no two entries share an id |
| Dashboard.RecentPanel | src/pages/Dashboard.tsx:223-226 | the panel shows the first ten entries, or all when fewer, in reverse order |
| Dashboard.DashboardState.constructor | src/pages/Dashboard.tsx:13-20 | the page starts loading, with no quests and zero demo counters |
| Dashboard.DashboardState.HandleMockPoints | src/pages/Dashboard.tsx:94-100 | the demo button adds 100 points and one unit of yield, and leaves the quests and activities alone |
| Dashboard.DashboardState.LoadQuests | src/pages/Dashboard.tsx:28-58 | no wallet address changes nothing; otherwise loading ends, with the active fetched quests replacing the list, or the old list kept when the fetch fails |
| Common.TruncDiv | contracts/quest/src/lib.rs:318-328 | Rust's `/`, rounding toward zero: the quotient has the sign of the dividend, and `q × b` lies within one divisor of the dividend on the side of zero (below it for a non-negative dividend, above it for a negative one) |
| Common.TruncDivOdd | contracts/yield/src/lib.rs:202-209 | truncating division commutes with negation |
| Common.RemoveAll | contracts/yield/src/lib.rs:370-385 | the loop's result is the order-keeping filter that drops the id |
| Common.WithoutMembers | contracts/yield/src/lib.rs:377-382 | the filter keeps exactly the elements other than the id: every copy of the id is dropped, nothing new appears |
| Common.WithoutConcat | contracts/yield/src/lib.rs:377-382 | the filter of a concatenation is the concatenation of the filters, so the kept elements stay in order |
| Common.WithoutMultiset | contracts/yield/src/lib.rs:370-385 | the filter drops every occurrence of the id and keeps every other element as often as before |
| Common.WithoutSingle | contracts/badge/src/lib.rs:244-250 | an id listed once is cut out, the rest kept in order |

## Left out

- Authorisation (`require_auth`): every call is taken as signed by whoever the code asks for.
- Token transfers: the stake, payout and vault transfers are commented out in the source or are calls into the token contract, so only the pool and total bookkeeping is modelled.
- Soroban storage tiers, TTLs and events are not modelled; every storage entry is a field.
- A second call to `initialize`: only the first, the constructor, is modelled.
- Integer overflow of `u32`, `u64` and `i128`: the model's integers are unbounded. The one exception is the elapsed-day cast in `log_activity`.
- The ZK verifier call in `submit_zk_proof` is commented out in the source; the proof is stored as Verified without any check.
- `notify_quest_contract` has an empty body, so an accepted decision does not reach the quest contract.
- The DeFi protocol calls in the `invest_*` and `withdraw_*` helpers are stubs; the model keeps their bookkeeping: the stored position and the principal-plus-yield payout.
- Badge metadata: every badge gets the constant URI `get_metadata_uri` returns (`MetadataUri`).
- The front end's floating-point figures are not modelled: `stroopToUSDC`/`usdcToStroop`, the progress percentage and `toFixed` formatting.
- Timers, animation, particles and dates of the front end are not modelled: the celebration's three-second timeout, the two-second timeouts of the particles and of the dashboard confetti, the particle effects, and the `Date.now()` timestamps of the activity entries.
- Network and wallet calls are not modelled: the contract reads behind `loadQuests` are the `fetched` parameter, and `handleLogActivity` is an on-chain call already modelled as `LogActivity`.
- The pages and components Landing.tsx, App.tsx, ProtectedRoute.tsx and CreateQuest.tsx are not part of this model.
- Yield: the code never deletes a withdrawn position, so a second `withdraw` of it is accepted again. The model states this (`YieldVault.WithdrawIsRepeatable`) instead of forbidding it.
- Quest: nothing in the code funds the yield pool beyond the stakes, so a successful settlement can leave it negative. The model states this (`Quest.SuccessOverdrawsYieldPool`).
