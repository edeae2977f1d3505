# eduFeed rewards and progress core, in Dafny

This project models the gamification core of eduFeed, a learning platform.
Learners earn skill coins (points) and XP for lessons and modules. XP raises
their level. Badges are awarded at milestones, and points can be spent in a
store. The model covers:

- **the rewards ledger** (`lib/services/rewardsService.ts`): the `Ledger`
  class in `rewards_ledger.dfy` holds the user-rewards documents, the
  append-only points transactions, the badge and store catalogs, the user
  badges and the redemptions. Its methods are the service's operations. Each
  one states its whole new state, in terms of the account functions
  `Credit`, `Debit`, `ApplyXP` and `AfterBadge`. `Valid()` is the ledger
  invariant:
  - every account conserves points
    (`totalPoints == lifetimePointsEarned == availablePoints + totalSpent`);
  - every account keeps its level counters in the shape `awardXP` gives
    them;
  - no user holds a badge twice.
- **the configuration** (`lib/models/rewards.ts`): `POINTS_CONFIG`,
  `XP_CONFIG`, `LEVEL_THRESHOLDS` and the record types, in
  `rewards_models.dfy`.
- **the reward and level arithmetic** (`progression.dfy`):
  - the module-completion formula and the lesson reward;
  - the two level rules the service uses side by side. The incremental
    rollover of `awardXP` makes each level n cost n * 100 XP. The threshold
    scan of `calculateLevelFromXP` reads the level off `LEVEL_THRESHOLDS`.
    The model proves what each rule guarantees and that they disagree.
- **the progress aggregator** (`lib/services/userService.ts`): the
  `ProgressStore` class in `user_service.dfy`, with `createUserProgress`,
  `recordLessonCompletion` and `recordModuleCompletion`. It also holds the
  skill-tier and subject-level rules and the id-to-display-name rule.
- **the module-completion endpoint** (`app/api/module-completion/route.ts`):
  `module_completion_route.dfy`. It gives the request's validation as a
  verdict on the parsed JSON body, and the POST handler as a method over
  both stores.
- **the reward hooks' derivations** (`hooks/use-user-rewards.ts`):
  `user_rewards_hooks.dfy`. These are the values `useSkillCoins`,
  `useUserLevel`, `useSubjectProgress` and `useSkillLevels` compute from the
  documents they are given.
- **database seeding** (`lib/database/initialize.ts`): `database_init.dfy`.
  It holds `cleanObject` over JSON-like values and the default badge and
  store catalogs.

The module-completion flow, step by step, is the ghost function
`RewardsLedger.ModuleCompletionStep`. It is built from `ModuleAwardStep`,
`MilestoneStep` and `LevelCheckStep` over the three collections the flow
writes (`Books`). The ledger's method is proved equal to it.

Observations the model proves about the code as written:

- **The level check counts the module XP twice.**
  `processModuleCompletionRewards` checks the level on a snapshot taken
  after `awardXP` has already added the module's XP, and then adds that XP
  again (`ModuleLevelCheckCountsXPTwice`). It also pays `100 * newLevel`
  points on top of the 50 points per level that `awardXP` already paid. A
  fresh account that completes 5 lessons at 85% in 120 minutes with 2 skills
  receives 125 + 50 + 300 = 475 points and is told it reached level 3. Its
  stored level is 2 (`WorkedModuleAccount`, `WorkedModuleCompletion`).
- **The two level rules disagree.** 250 XP is level 2 under the rollover
  and level 3 under the table (`LevelRulesDisagree`).
- **Two XP-to-next-level rules also disagree.** The stored
  `xpToNextLevel` of a level-2 account with no XP is 200. The table rule
  `calculateXPToNextLevel` in the hook gives 250 (`XPToNextLevelDisagrees`).
  The hook defines that rule but shows the stored field.
- **The recorded balance is a placeholder.** The `balance` of an earned
  transaction is always recorded as 0 (`EarnedTx`).

These are reported as properties of the code rather than as findings: the
source does not say which rule it intends.

## Model

| member | source | states |
|---|---|---|
| RewardsModels.ThresholdTableShape | lib/models/rewards.ts:448-451 | the threshold table has 21 entries, starts at 0 and strictly increases |
| RewardsModels.RateTableFacts | lib/models/rewards.ts:420-443 | a lesson is worth 10 points and 20 XP; a perfect quiz earns 10 points and 20 XP more than a pass |
| Progression.ScoreBonus | lib/services/rewardsService.ts:685-696 | the score-tier bonus is at most half the base: 0 below an average of 70, a tenth (floored) at 70-79, three tenths at 80-89 and half from 90 |
| Progression.TimeBonus | lib/services/rewardsService.ts:699 | 5 points per whole hour below 10 hours, capped at 50, always a multiple of 5 |
| Progression.ModuleReward | lib/services/rewardsService.ts:680-705 | module points lie between 10 per lesson + 25 per skill and 1.5 times the lesson base + 50 + 25 per skill; XP likewise with 20, 15 and a time part of at most 25 |
| Progression.ModuleRewardMonotoneInLessons | lib/services/rewardsService.ts:680-705 | more lessons never earn fewer points or less XP |
| Progression.ModuleRewardMonotoneInSkills | lib/services/rewardsService.ts:701-705 | more skills gained never earn fewer points or less XP |
| Progression.ModuleRewardMonotoneInScore | lib/services/rewardsService.ts:684-696 | a higher average never earns fewer points or less XP |
| Progression.ScoreBonusMonotoneInBase | lib/services/rewardsService.ts:684-696 | a larger base never gets a smaller score bonus |
| Progression.ModuleRewardWorkedExample | lib/services/rewardsService.ts:680-705 | 5 lessons at 85 over 120 minutes with 2 skills earn 125 points and 165 XP |
| Progression.LessonReward | lib/services/rewardsService.ts:635-642 | a lesson earns 10 points and 20 XP, plus 10 points and 20 XP exactly when a score of 100 or more is given |
| Progression.RollOverFacts | lib/services/rewardsService.ts:223-234 | the awardXP rollover never lowers the level, leaves less XP than the new level costs, and preserves the cumulative XP position |
| Progression.RollOverFromStart | lib/services/rewardsService.ts:223-234 | from level 1, the rollover lands on the level whose cumulative XP band holds the total |
| Progression.LevelRollOver | lib/services/rewardsService.ts:223-234 | the loop returns the rollover's level and remainder, leveledUp iff the level rose, and loses no XP |
| Progression.LevelOf | lib/services/rewardsService.ts:758-770 | the threshold level of any XP lies in 1..21 |
| Progression.ScanLevelFacts | lib/services/rewardsService.ts:764-769 | the descending scan returns a level whose threshold is reached and no higher scanned threshold is |
| Progression.LevelOfIsLargest | lib/services/rewardsService.ts:758-770 | the threshold level is the largest i + 1 whose threshold the XP reaches |
| Progression.LevelOfMonotone | lib/services/rewardsService.ts:758-770 | more XP never gives a lower threshold level |
| Progression.LevelOfBand | lib/services/rewardsService.ts:758-770 | XP inside a level's threshold band gets exactly that level |
| Progression.WorkedModuleLevels | lib/services/rewardsService.ts:728-731 | 165 XP from level 1 rolls over to level 2 with 65 left, while 330 XP is level 3 by the table |
| Progression.LevelOfLowValues | lib/models/rewards.ts:448-451 | 0-99 XP is level 1, 100-249 level 2, 250-499 level 3 |
| Progression.LevelOfTopValues | lib/models/rewards.ts:448-451 | 42999 XP is level 20 and 43000 level 21 |
| Progression.CalculateLevelFromXP | lib/services/rewardsService.ts:758-770 | the scan returns the table level: in 1..21, its threshold reached, every higher threshold not reached |
| Progression.LevelRulesDisagree | lib/services/rewardsService.ts:223-234 | 250 XP is level 2 by the rollover but level 3 by the table; the rollover reaches level 3 only at 300 |
| RewardsLedger.NewAccount | lib/services/rewardsService.ts:65-91 | a new account is valid, at level 1 with 100 XP to go and no points |
| RewardsLedger.ApplyXP | lib/services/rewardsService.ts:212-262 | awarding XP never lowers the level |
| RewardsLedger.AfterBadge | lib/services/rewardsService.ts:327-356 | awarding a badge never lowers the level |
| RewardsLedger.CreditFacts | lib/services/rewardsService.ts:125-130 | crediting points keeps the account valid, adds them to the available points and changes no other counter |
| RewardsLedger.DebitFacts | lib/services/rewardsService.ts:160-207 | a covered spend keeps the account valid, keeps totalPoints and takes exactly the points from the available ones |
| RewardsLedger.ApplyXPFacts | lib/services/rewardsService.ts:212-262 | awardXP keeps the account valid, keeps xpToNextLevel in 1..level*100, grows totalXPEarned by the award and pays 50 points per level gained |
| RewardsLedger.AfterBadgeFacts | lib/services/rewardsService.ts:304-361 | an awarded badge keeps the account valid, counts one more badge, adds its XP and at least its points |
| RewardsLedger.ReplayConserves | lib/services/rewardsService.ts:112-207 | from a new account, any sequence of awards and spends conserves points and leaves the level alone |
| RewardsLedger.DeliveryFor | lib/services/rewardsService.ts:521 | digital items are delivered digitally, all others by email |
| RewardsLedger.RecordBadgeKeepsUnique | lib/services/rewardsService.ts:315-356 | recording a badge the user does not hold keeps user badges unique and makes the user hold it |
| RewardsLedger.AssignRanks | lib/services/rewardsService.ts:613-616 | ranks are positions + 1 and every other field is kept |
| RewardsLedger.Ledger.InitializeUserRewards | lib/services/rewardsService.ts:65-91 | writes or overwrites the default account and keeps the ledger valid |
| RewardsLedger.Ledger.AwardPoints | lib/services/rewardsService.ts:112-155 | credits the account and appends one earned transaction; a missing account fails and writes nothing |
| RewardsLedger.Ledger.SpendPoints | lib/services/rewardsService.ts:160-207 | succeeds iff the account exists and holds enough available points; then debits it and appends a spent transaction with the balance after; else writes nothing |
| RewardsLedger.Ledger.AwardXP | lib/services/rewardsService.ts:212-262 | returns whether the level rose, writes the rolled-over account and appends the level-up bonus transaction when it did; a missing account fails and writes nothing |
| RewardsLedger.Ledger.HasUserBadge | lib/services/rewardsService.ts:775-789 | true iff some user badge records the user and badge |
| RewardsLedger.Ledger.AwardBadge | lib/services/rewardsService.ts:304-361 | an unknown badge fails first; a held badge changes nothing; otherwise records the badge and pays its points and XP, keeping badges unique |
| RewardsLedger.Ledger.GrantBadge | lib/services/rewardsService.ts:327-356 | the writes of an awarded badge: the user badge, the count, its points and its XP |
| RewardsLedger.Ledger.RedeemStoreItem | lib/services/rewardsService.ts:483-542 | an unknown item fails; a refused spend writes nothing; otherwise debits the cost, counts the redemption and records a pending redemption |
| RewardsLedger.Ledger.ProcessLessonCompletionRewards | lib/services/rewardsService.ts:628-653 | credits the lesson reward's points, then applies its XP; a missing account fails and writes nothing |
| RewardsLedger.Ledger.AwardMilestoneBadge | lib/services/rewardsService.ts:715-726 | one milestone badge check is the MilestoneStep of the collections |
| RewardsLedger.Ledger.AwardModuleReward | lib/services/rewardsService.ts:707-711 | the module reward as points then XP is the ModuleAwardStep; totalXPEarned grows by the module XP |
| RewardsLedger.Ledger.PayLevelCheck | lib/services/rewardsService.ts:728-738 | the closing level check is the LevelCheckStep |
| RewardsLedger.Ledger.ProcessModuleCompletionRewards | lib/services/rewardsService.ts:658-753 | a missing account fails and writes nothing; otherwise result and collections are those of ModuleCompletionStep |
| RewardsLedger.Ledger.AwardModuleBonuses | lib/services/rewardsService.ts:713-747 | the badge and level steps after the award are those of ModuleBonusStep |
| RewardsLedger.ModuleCompletionStep | lib/services/rewardsService.ts:658-753 | a successful module completion reports the module reward's points and XP, at most two badges, and levelUp iff a new level is given; it fails only on a badge missing from the catalog |
| RewardsLedger.ModuleBonusStep | lib/services/rewardsService.ts:713-747 | the badge and level steps keep the account present |
| RewardsLedger.ModuleBonusStepPasses | lib/services/rewardsService.ts:728-747 | when both badge steps pass, the summary lists the badges earned and the level check on the snapshot |
| RewardsLedger.ModuleLevelCheckCountsXPTwice | lib/services/rewardsService.ts:729-730 | the level check's XP is the old total plus twice the module XP, and the snapshot's level is the rollover's |
| RewardsLedger.MilestoneStep | lib/services/rewardsService.ts:715-726 | a milestone step keeps the account present and never lowers its level |
| RewardsLedger.WorkedModuleAccount | lib/services/rewardsService.ts:680-738 | the worked module leaves a fresh account at level 2 with 65 XP and 175 points, and the check then pays 300 more |
| RewardsLedger.WorkedModuleCompletion | lib/services/rewardsService.ts:658-753 | on a fresh account the worked module reports 125 points, 165 XP, no badges and a level-up to 3, leaving 475 points |
| UserService.ToUpper | lib/services/userService.ts:559 | upper-casing changes only a-z, by 32 code points, and keeps word characters word characters |
| UserService.FirstUnderscore | lib/services/userService.ts:559 | the search for '_' stops at an underscore with none before it, or at the end when there is none |
| UserService.FirstUnderscoreUnique | lib/services/userService.ts:559 | that index is the only one with those properties |
| UserService.FirstUnderscoreAfterPrefix | lib/services/userService.ts:559 | past an underscore-free prefix the search goes on in the rest |
| UserService.ReplaceFirstUnderscore | lib/services/userService.ts:559 | replacing the first underscore keeps the length |
| UserService.ReplaceFirstUnderscoreSpec | lib/services/userService.ts:559 | only the first underscore becomes a space: a position changes exactly when it holds an underscore and none precedes it |
| UserService.ReplaceFirstUnderscoreSplices | lib/services/userService.ts:559 | the replacement is the first underscore spliced out for a space, and the string itself when there is no underscore |
| UserService.FirstUnderscoreExample | lib/services/userService.ts:559 | the first underscore of 'algebra_basics' is at index 7 |
| UserService.CapitalizeWords | lib/services/userService.ts:559 | exactly the word starts are upper-cased |
| UserService.DisplayName | lib/services/userService.ts:559 | a display name has the id's length |
| UserService.CapitalizeWordsIdempotent | lib/services/userService.ts:559 | capitalising twice is capitalising once |
| UserService.ReplaceFirstUnderscoreExample | lib/services/userService.ts:559 | 'algebra_basics' becomes 'algebra basics' |
| UserService.ReplaceOnlyFirstUnderscoreExample | lib/services/userService.ts:559 | 'a_b_c' becomes 'a b_c' |
| UserService.CapitalizeWordsExample | lib/services/userService.ts:559 | 'algebra basics' becomes 'Algebra Basics' |
| UserService.DisplayNameExample | lib/services/userService.ts:596 | subject 'algebra_basics' is shown as 'Algebra Basics' |
| UserService.TierOf | lib/services/userService.ts:576-580 | each tier holds exactly its score band: expert from 80, advanced 60-79, intermediate 40-59, beginner 20-39, novice below 20 |
| UserService.RaisedScore | lib/services/userService.ts:574 | the raised score is capped at 100, never below an in-range score, and is either 100 or the score plus a tenth of the average |
| UserService.ApplySkillGainsFacts | lib/services/userService.ts:557-588 | only named skills change, each ends in range with its tier, a new one gets its display name, an in-range score never falls |
| UserService.DefaultSubject | lib/services/userService.ts:593-609 | a new subject is well-formed, with 50 lessons and no topics |
| UserService.UpdatedSubject | lib/services/userService.ts:611-636 | the rewritten subject: 20 XP per lesson, level and xpToNextLevel from XP, sums of lessons and time, the two-point mean score, the module appended, currentTopic dropped |
| UserService.SubjectsAfterModuleKeepsOthers | lib/services/userService.ts:592-636 | only the module's subject entry changes, and it is added if new |
| UserService.SubjectsAfterModuleEntry | lib/services/userService.ts:592-636 | the module's subject ends well-formed with the module appended to its topics |
| UserService.NewProgress | lib/services/userService.ts:218-243 | a new progress document is well-formed with goals of 120 minutes a week and 16 lessons a month |
| UserService.ModuleDefaultProgress | lib/services/userService.ts:534-552 | the document a module completion creates is well-formed with goals of 300 minutes and 20 lessons |
| UserService.ProgressAfterModuleShaped | lib/services/userService.ts:516-686 | a module completion keeps a well-formed document well-formed and creates a well-formed one |
| UserService.ProgressAfterModuleTotals | lib/services/userService.ts:638-658 | totals are incremented on an existing document and set on a new one; all other top-level fields are kept |
| UserService.ProgressAfterModuleEntries | lib/services/userService.ts:554-636 | only the module's subject and the named skills change; the subject's topics grow by the module; named skills end at most 100 |
| UserService.ModuleActivity | lib/services/userService.ts:660-679 | the module activity is a lesson-completed activity worth 10 points and 20 XP per lesson |
| UserService.ProgressStore.CreateUserProgress | lib/services/userService.ts:218-243 | writes or overwrites the initial document and keeps the store valid |
| UserService.ProgressStore.RecordLessonCompletion | lib/services/userService.ts:282-325 | adds one lesson and its time to the totals and logs a 10-point, 20-XP activity; a missing document fails and writes nothing |
| UserService.Stored | lib/services/userService.ts:530-532 | the stored document is present exactly when the uid has one, and is that document |
| UserService.StoreShapedUpdate | lib/services/userService.ts:516-686 | writing a well-formed document under its own uid keeps every stored document well-formed |
| UserService.RecordModuleKeepsStore | lib/services/userService.ts:516-686 | writing the module-completion document keeps every stored document well-formed and filed under its uid |
| UserService.ModuleProgress | lib/services/userService.ts:530-658 | the document the batch writes is ProgressAfterModule of the stored one (or of none) |
| UserService.ProgressStore.RecordModuleCompletion | lib/services/userService.ts:516-686 | the document becomes ProgressAfterModule of the stored one (or of none) and the module activity is logged; the store stays valid |
| UserService.UpdateSkillLevels | lib/services/userService.ts:555-589 | the skill loop computes ApplySkillGains |
| DatabaseInit.CleanObject | lib/database/initialize.ts:333-348 | exactly the non-null, non-undefined keys are kept; non-nested values are copied; nested plain objects stay objects |
| DatabaseInit.CleanObjectIsClean | lib/database/initialize.ts:333-348 | the result has no null or undefined at any depth reachable through plain objects |
| DatabaseInit.CleanObjectFixesClean | lib/database/initialize.ts:333-348 | a clean object is left unchanged |
| DatabaseInit.CleanObjectIdempotent | lib/database/initialize.ts:333-348 | cleaning twice is cleaning once |
| DatabaseInit.CleanObjectKeepsEmptiedObject | lib/database/initialize.ts:338-340 | a nested object that loses every property is kept as {} |
| DatabaseInit.CleanObjectCopiesArrays | lib/database/initialize.ts:337-343 | arrays are copied with their nulls; undefined properties are dropped |
| DatabaseInit.CleanObjectSkipsTimestamps | lib/database/initialize.ts:338 | an object with numeric seconds is copied, not cleaned |
| DatabaseInit.DefaultBadgesFacts | lib/database/initialize.ts:10-108 | six active, non-secret badges, each with one greater-than requirement and positive point and XP rewards |
| DatabaseInit.DefaultStoreItemsFacts | lib/database/initialize.ts:191-326 | seven items, all costing points; only the Takealot voucher is limited, with 50 in stock from level 10 |
| ModuleCompletionRoute.Field | app/api/module-completion/route.ts:8-16 | destructuring a non-object gives undefined for every field |
| ModuleCompletionRoute.Guard | app/api/module-completion/route.ts:8-46 | a null body throws; the missing-fields answer comes iff some id is falsy or some count undefined; the request proceeds iff it is an object whose counts are non-negative numbers and whose score lies in 0..100 |
| ModuleCompletionRoute.GuardIgnoresSkills | app/api/module-completion/route.ts:18-46 | skillsGained has no influence on validation |
| ModuleCompletionRoute.GuardEdgeCases | app/api/module-completion/route.ts:19-39 | zero lessons and a score of 100 proceed; a null count is refused with the lessons message; an empty uid is missing; 100.5 is refused with the score message |
| ModuleCompletionRoute.Count | app/api/module-completion/route.ts:49-68 | a whole-number field is passed on as its value |
| ModuleCompletionRoute.Skills | app/api/module-completion/route.ts:56 | a falsy skill list is passed on as empty, an array as its strings in order |
| ModuleCompletionRoute.Respond | app/api/module-completion/route.ts:70-91 | a rewards failure answers 500 with its detail; success answers with the summary and its points, XP, badges and level fields |
| ModuleCompletionRoute.Complete | app/api/module-completion/route.ts:49-79 | an accepted request writes the module's progress document and activity, then runs the rewards step: a missing account fails with the ledger unchanged, otherwise the result and the accounts, transactions and user badges are those of ModuleCompletionStep; the badge and store catalogs and the redemptions never change; the answer is Respond of the result |
| ModuleCompletionRoute.Post | app/api/module-completion/route.ts:5-92 | unreadable or null bodies answer 500 and rejected ones 400, with nothing written; an accepted one records the progress and activity, then answers with the rewards result, which fails with nothing written when the account is missing; otherwise the result and the accounts, transactions and user badges are those of ModuleCompletionStep, reporting the module reward; the badge and store catalogs and the redemptions never change |
| UserRewardsHooks.OrElse | hooks/use-user-rewards.ts:97-98 | a stored count is shown unless it is 0 or missing, when the fallback is shown |
| UserRewardsHooks.SkillCoinsShowsAccount | hooks/use-user-rewards.ts:96-98 | coins are the available points and the total the lifetime points; no document shows 0 and 0 |
| UserRewardsHooks.UserLevelShowsAccount | hooks/use-user-rewards.ts:127-131 | a valid account is shown exactly as stored |
| UserRewardsHooks.UserLevelFallbacks | hooks/use-user-rewards.ts:127-131 | no document shows level 1, 0 XP, 0 total and 100 to go; a stored 0 to go shows 100 and a level 0 shows 1 |
| UserRewardsHooks.CalculateXPToNextLevel | hooks/use-user-rewards.ts:111-122 | 0 from level 21, else the next level's threshold minus the XP |
| UserRewardsHooks.XPToNextLevelUnderTable | hooks/use-user-rewards.ts:111-122 | for total XP at its table level below 21, the distance is positive and at most that level's band width |
| UserRewardsHooks.XPToNextLevelDisagrees | hooks/use-user-rewards.ts:111-122 | a level-2 account with no XP stores 200 to go, while the table rule gives 250 |
| UserRewardsHooks.TotalSubjects | hooks/use-user-rewards.ts:144-148 | the number of subject entries, 0 without a document |
| UserRewardsHooks.SkillCountsAgree | hooks/use-user-rewards.ts:165-175 | a tier is in skillCounts iff some skill has it, with the count the filter gives |
| UserRewardsHooks.TierCountsSum | hooks/use-user-rewards.ts:165-175 | the five tier counts add up to the number of skills |

## Left out

- The document store and its I/O are not modelled as such. Collections are class fields. A batch is one method body. A document ID is the key it is stored under, and a redemption's ID is its position.
- `serverTimestamp()`, `lastEarnedAt`, `updatedAt` and the other timestamp fields are not carried, because no rule reads them.
- Concurrency is not modelled: the `Promise.all` pairs run as sequential calls, points first and then XP. Their writes touch different fields, so only the order of the transactions depends on this choice.
- Transaction descriptions are kept as their template arguments (`Description`), not as rendered text. The `metadata` argument of `awardPoints` survives only as the level pair of `LevelUpBonus`.
- Floating point is not modelled. Scores, counts and times are whole numbers in the services. The request body holds reals, checked exactly as the route checks them.
- ModuleCompletionRoute.Post: requires that an accepted body is well-typed: string ids, whole-number counts and score, and skillsGained falsy or an array of strings. A fractional count, or a truthy non-array skillsGained (the services would iterate over its characters), is outside the model.
- The error message text a thrown store error carries in `details` is modelled as the `Failure` value. Thrown failures are `Result`/`Outcome` errors whose writes so far stay in place.
- RewardsLedger.Ledger.AwardPoints: an update of a missing account is modelled as a failure that writes nothing, standing in for the failed batch commit.
- Fields whose value is `undefined` are taken to be accepted by the store, as they are by a client created with `ignoreUndefinedProperties`. The client of lib/firebase.ts:36 is created with the defaults, which reject such fields, so under it these writes would throw where the model succeeds: the points transaction without `sourceId` or `metadata` (rewardsService.ts:142-144) in RewardsLedger.Ledger.AwardPoints and its callers RewardsLedger.Ledger.GrantBadge, RewardsLedger.Ledger.ProcessLessonCompletionRewards and RewardsLedger.Ledger.ProcessModuleCompletionRewards; the redemption record's `cashValue` and `deliveryDetails` (rewardsService.ts:518-528) in RewardsLedger.Ledger.RedeemStoreItem, after the spend has already committed; `currentPathId` and `currentLessonId` (userService.ts:229-230) in UserService.ProgressStore.CreateUserProgress; and `score` without a score (userService.ts:311) in UserService.ProgressStore.RecordLessonCompletion.
- `levelProgress`, `averageProgress` and `formattedCoins` in the hooks are not modelled: they are floating-point ratios or locale formatting. Loading and error state and the subscriptions behind `useUserRewards` are left out as React state. The skill values are given as a sequence, in the order `Object.values` returns them.
- Achievements (`defaultAchievements`, `UserAchievement` progress) are left out: no operation of the modelled services awards them.
- `updateLeaderboardEntry`, `getUserRewards`, `getUserPointsBalance`, the other getters and the subscriptions are left out: they only read or copy documents. `getLeaderboard` is modelled by the ranks it assigns; the ordering and the limit are the store query's.
- Profile, preferences, social and career operations of `userService.ts`, `logUserActivity` and `getUserActivities` are left out.
- `initializeDefaultBadges`, `initializeDefaultStoreItems`, `initializeDatabase`, `resetDatabase`, `createSampleUserData` and `testFirebaseConnection` are left out: they write the modelled catalogs through `cleanObject` in batches. The route's GET handler and logging are left out.
- Badge and store items keep only the fields a rule reads or a default sets. Icons and colours are carried; `itemData`, `tags` and visual-only fields are not.
