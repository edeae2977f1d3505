/** The rewards ledger of lib/services/rewardsService.ts. The document store
    is the class Ledger: one field per collection the service touches (user
    rewards keyed by uid, the append-only points transactions, the badge and
    store catalogs keyed by document id, the user badges and the redemptions).
    Each batch write is one step of a method; an update of a missing document
    fails and writes nothing. The increments the store applies atomically are
    the account functions Credit, Debit and ApplyXP below, and Valid() holds
    the ledger's invariants: every account conserves points
    (totalPoints == lifetimePointsEarned == availablePoints + totalSpent) and
    keeps its level counters in shape, and no user holds a badge twice. */
module RewardsLedger {

  import opened Outcomes
  import opened RewardsModels
  import opened Progression

  /** The badge ids processModuleCompletionRewards looks up. */
  const ScholarBadgeId: string := "scholar-badge"
  const PerfectionistBadgeId: string := "perfectionist-badge"

  // ======================= accounts =======================

  /** initializeUserRewards: level 1, no XP, 100 XP to the next level,
      every counter at 0. */
  function NewAccount(uid: string): (a: UserRewards)
    ensures AccountValid(a) && a.uid == uid
    ensures a.currentLevel == 1 && a.xpToNextLevel == 100 && a.totalPoints == 0
  {
    UserRewards(uid, 0, 0, 0, 1, 0, 100, 0, 0, 0, 0, 0, 0, 0)
  }

  /** Points are conserved: everything earned is either available or spent. */
  ghost predicate Conserved(a: UserRewards)
  {
    a.totalPoints == a.lifetimePointsEarned == a.availablePoints + a.totalSpent
  }

  /** The level counters agree with the incremental level rule. */
  ghost predicate LevelShaped(a: UserRewards)
  {
    && a.currentLevel >= 1
    && a.currentXP < a.currentLevel * 100
    && a.xpToNextLevel == a.currentLevel * 100 - a.currentXP
  }

  ghost predicate AccountValid(a: UserRewards)
  {
    Conserved(a) && LevelShaped(a)
  }

  /** The three increments of awardPoints. */
  function Credit(a: UserRewards, points: nat): UserRewards
  {
    a.(totalPoints := a.totalPoints + points,
       availablePoints := a.availablePoints + points,
       lifetimePointsEarned := a.lifetimePointsEarned + points)
  }

  /** The two increments of a successful spendPoints; totalPoints stays. */
  function Debit(a: UserRewards, points: nat): UserRewards
    requires points <= a.availablePoints
  {
    a.(availablePoints := a.availablePoints - points,
       totalSpent := a.totalSpent + points)
  }

  /** The account after awardXP: the rolled-over level counters, the total
      grown by the award, and 50 points per level gained. */
  function ApplyXP(a: UserRewards, xp: nat): (b: UserRewards)
    requires a.currentLevel >= 1
    ensures b.currentLevel >= a.currentLevel
  {
    RollOverFacts(a.currentLevel, a.currentXP + xp);
    var (level, remaining) := RollOver(a.currentLevel, a.currentXP + xp);
    var updated := a.(currentXP := remaining, currentLevel := level,
                      xpToNextLevel := if level * 100 >= remaining then level * 100 - remaining else 0,
                      totalXPEarned := a.totalXPEarned + xp);
    if level > a.currentLevel then Credit(updated, 50 * (level - a.currentLevel)) else updated
  }

  /** The account after an awarded badge: its count, then its points and XP. */
  function AfterBadge(a: UserRewards, badge: Badge): (b: UserRewards)
    requires a.currentLevel >= 1
    ensures b.currentLevel >= a.currentLevel
  {
    ApplyXP(Credit(a.(totalBadges := a.totalBadges + 1), badge.pointsReward), badge.xpReward)
  }

  lemma CreditFacts(a: UserRewards, points: nat)
    requires AccountValid(a)
    ensures AccountValid(Credit(a, points))
    ensures Credit(a, points).availablePoints == a.availablePoints + points
    ensures Credit(a, points).(totalPoints := 0, availablePoints := 0, lifetimePointsEarned := 0)
         == a.(totalPoints := 0, availablePoints := 0, lifetimePointsEarned := 0)
  {
  }

  lemma DebitFacts(a: UserRewards, points: nat)
    requires AccountValid(a) && points <= a.availablePoints
    ensures AccountValid(Debit(a, points))
    ensures Debit(a, points).totalPoints == a.totalPoints
    ensures Debit(a, points).availablePoints + points == a.availablePoints
  {
  }

  /** awardXP keeps the account valid, never lowers the level, leaves
      xpToNextLevel in [1, level * 100], grows totalXPEarned by exactly the
      award and pays 50 points per level gained. */
  lemma ApplyXPFacts(a: UserRewards, xp: nat)
    requires AccountValid(a)
    ensures var b := ApplyXP(a, xp);
            && AccountValid(b)
            && b.currentLevel >= a.currentLevel
            && 1 <= b.xpToNextLevel <= b.currentLevel * 100
            && b.totalXPEarned == a.totalXPEarned + xp
            && b.lifetimePointsEarned == a.lifetimePointsEarned + 50 * (b.currentLevel - a.currentLevel)
            && b.totalSpent == a.totalSpent && b.totalBadges == a.totalBadges
  {
    RollOverFacts(a.currentLevel, a.currentXP + xp);
  }

  lemma AfterBadgeFacts(a: UserRewards, badge: Badge)
    requires AccountValid(a)
    ensures var b := AfterBadge(a, badge);
            && AccountValid(b)
            && b.totalBadges == a.totalBadges + 1
            && b.totalXPEarned == a.totalXPEarned + badge.xpReward
            && b.lifetimePointsEarned >= a.lifetimePointsEarned + badge.pointsReward
  {
    CreditFacts(a.(totalBadges := a.totalBadges + 1), badge.pointsReward);
    ApplyXPFacts(Credit(a.(totalBadges := a.totalBadges + 1), badge.pointsReward), badge.xpReward);
  }

  // ======================= earn/spend sequences =======================

  /** An awardPoints or spendPoints call on one account. */
  datatype PointsOp = Earn(points: nat) | Spend(points: nat)

  /** The account after a sequence of calls; a spend above the available
      points is refused and changes nothing. */
  function Replay(a: UserRewards, ops: seq<PointsOp>): UserRewards
    decreases |ops|
  {
    if ops == [] then a
    else
      var last := ops[|ops| - 1];
      var before := Replay(a, ops[..|ops| - 1]);
      match last
      case Earn(p) => Credit(before, p)
      case Spend(p) => if before.availablePoints >= p then Debit(before, p) else before
  }

  /** From a fresh account, every sequence of earns and spends keeps
      totalPoints == lifetimePointsEarned == availablePoints + totalSpent. */
  lemma {:induction false} ReplayConserves(uid: string, ops: seq<PointsOp>)
    ensures Conserved(Replay(NewAccount(uid), ops))
    ensures Replay(NewAccount(uid), ops).currentLevel == 1
    decreases |ops|
  {
    if ops != [] {
      ReplayConserves(uid, ops[..|ops| - 1]);
    }
  }

  // ======================= records =======================

  /** The 'earned' transaction of awardPoints; its balance is recorded as 0. */
  function EarnedTx(uid: string, points: nat, source: TransactionSource, description: Description, sourceId: Option<string>): PointsTransaction
  {
    PointsTransaction(uid, Earned, points, 0, source, sourceId, description)
  }

  /** The 'spent' transaction of spendPoints, with the balance after it. */
  function SpentTx(uid: string, a: UserRewards, points: nat, source: TransactionSource, description: Description, sourceId: Option<string>): PointsTransaction
  {
    PointsTransaction(uid, Spent, -(points as int), a.availablePoints as int - points as int, source, sourceId, description)
  }

  /** The level-up bonus transaction awardXP appends, if a level was gained. */
  function LevelUpTransactions(uid: string, a: UserRewards, xp: nat): seq<PointsTransaction>
    requires a.currentLevel >= 1
  {
    var level := RollOver(a.currentLevel, a.currentXP + xp).0;
    if level > a.currentLevel then
      [EarnedTx(uid, 50 * (level - a.currentLevel), AdminAdjustment, LevelUpBonus(a.currentLevel, level), None)]
    else []
  }

  /** The transactions of an awarded badge: its points, then any level-up. */
  function BadgeTransactions(uid: string, a: UserRewards, badgeId: string, badge: Badge): seq<PointsTransaction>
    requires a.currentLevel >= 1
  {
    [EarnedTx(uid, badge.pointsReward, AdminAdjustment, BadgeEarned(badge.name), Some(badgeId))]
      + LevelUpTransactions(uid, Credit(a.(totalBadges := a.totalBadges + 1), badge.pointsReward), badge.xpReward)
  }

  function NewUserBadge(uid: string, badgeId: string, badge: Badge): UserBadge
  {
    UserBadge(uid, badgeId, badge.name, badge.iconUrl, badge.rarity, 100, true)
  }

  /** Digital items are delivered digitally, everything else by email. */
  function DeliveryFor(category: StoreCategory): (m: DeliveryMethod)
    ensures m == DigitalDelivery <==> category == Digital
    ensures m == DigitalDelivery || m == EmailDelivery
  {
    if category == Digital then DigitalDelivery else EmailDelivery
  }

  function NewRedemption(uid: string, itemId: string, item: StoreItem, details: Option<DeliveryDetails>): RedemptionRecord
  {
    RedemptionRecord(uid, itemId, item.name, item.category, item.pointsCost, item.cashValue,
                     Pending, DeliveryFor(item.category), details, false, 0)
  }

  ghost predicate HoldsBadge(userBadges: seq<UserBadge>, uid: string, badgeId: string)
  {
    exists i :: 0 <= i < |userBadges| && userBadges[i].uid == uid && userBadges[i].badgeId == badgeId
  }

  ghost predicate BadgesUnique(userBadges: seq<UserBadge>)
  {
    forall i, j :: 0 <= i < j < |userBadges| ==>
      userBadges[i].uid != userBadges[j].uid || userBadges[i].badgeId != userBadges[j].badgeId
  }

  /** Recording a badge the user does not hold keeps the records unique and
      makes the user hold it. */
  lemma RecordBadgeKeepsUnique(userBadges: seq<UserBadge>, badge: UserBadge)
    requires BadgesUnique(userBadges) && !HoldsBadge(userBadges, badge.uid, badge.badgeId)
    ensures BadgesUnique(userBadges + [badge]) && HoldsBadge(userBadges + [badge], badge.uid, badge.badgeId)
  {
    var extended := userBadges + [badge];
    assert extended[|userBadges|] == badge;
    forall i, j | 0 <= i < j < |extended|
      ensures extended[i].uid != extended[j].uid || extended[i].badgeId != extended[j].badgeId
    {
      if j == |userBadges| {
        assert extended[i] == userBadges[i];
      }
    }
  }

  // ======================= leaderboard =======================

  /** The rank getLeaderboard assigns: position in the queried order + 1;
      every other field is kept. */
  function AssignRanks(entries: seq<LeaderboardEntry>): (ranked: seq<LeaderboardEntry>)
    ensures |ranked| == |entries|
    ensures forall i :: 0 <= i < |ranked| ==> ranked[i].rank == i + 1
    ensures forall i :: 0 <= i < |ranked| ==> ranked[i].(rank := 0) == entries[i].(rank := 0)
  {
    seq(|entries|, i requires 0 <= i < |entries| => entries[i].(rank := i + 1))
  }

  // ======================= the ledger =======================

  datatype ModuleRewardsSummary = ModuleRewardsSummary(
    pointsAwarded: nat, xpAwarded: nat, badgesEarned: seq<string>, levelUp: bool, newLevel: Option<nat>)

  class Ledger {
    var accounts: map<string, UserRewards>
    var transactions: seq<PointsTransaction>
    var badges: map<string, Badge>
    var userBadges: seq<UserBadge>
    var storeItems: map<string, StoreItem>
    var redemptions: seq<RedemptionRecord>

    ghost predicate Valid()
      reads this
    {
      && (forall uid | uid in accounts :: accounts[uid].uid == uid && AccountValid(accounts[uid]))
      && BadgesUnique(userBadges)
    }

    /** A store holding the given catalogs and nothing else. */
    constructor (badgeCatalog: map<string, Badge>, storeCatalog: map<string, StoreItem>)
      ensures Valid()
      ensures accounts == map[] && transactions == [] && userBadges == [] && redemptions == []
      ensures badges == badgeCatalog && storeItems == storeCatalog
    {
      accounts, transactions, userBadges, redemptions := map[], [], [], [];
      badges, storeItems := badgeCatalog, storeCatalog;
    }

    /** initializeUserRewards: writes (or overwrites) the default account. */
    method InitializeUserRewards(uid: string) returns (rewards: UserRewards)
      requires Valid()
      modifies this`accounts
      ensures Valid()
      ensures rewards == NewAccount(uid)
      ensures accounts == old(accounts)[uid := NewAccount(uid)]
    {
      rewards := NewAccount(uid);
      accounts := accounts[uid := rewards];
    }

    /** awardPoints: one batch of three increments and one 'earned'
        transaction; fails, writing nothing, when the account is missing. */
    method AwardPoints(uid: string, points: nat, source: TransactionSource, description: Description, sourceId: Option<string>)
      returns (outcome: Outcome)
      requires Valid()
      modifies this`accounts, this`transactions
      ensures Valid()
      ensures uid !in old(accounts) ==>
                outcome == Fail(RewardsNotFound) && accounts == old(accounts) && transactions == old(transactions)
      ensures uid in old(accounts) ==>
                && outcome == Pass
                && accounts == old(accounts)[uid := Credit(old(accounts)[uid], points)]
                && transactions == old(transactions) + [EarnedTx(uid, points, source, description, sourceId)]
    {
      if uid !in accounts {
        return Fail(RewardsNotFound);
      }
      CreditFacts(accounts[uid], points);
      accounts := accounts[uid := Credit(accounts[uid], points)];
      transactions := transactions + [EarnedTx(uid, points, source, description, sourceId)];
      outcome := Pass;
    }

    /** spendPoints: refuses, writing nothing, when the account is missing or
        holds too few available points; otherwise one batch of two
        increments and one 'spent' transaction. */
    method SpendPoints(uid: string, points: nat, source: TransactionSource, description: Description, sourceId: Option<string>)
      returns (success: bool)
      requires Valid()
      modifies this`accounts, this`transactions
      ensures Valid()
      ensures success <==> uid in old(accounts) && old(accounts)[uid].availablePoints >= points
      ensures !success ==> accounts == old(accounts) && transactions == old(transactions)
      ensures success ==>
                && accounts == old(accounts)[uid := Debit(old(accounts)[uid], points)]
                && transactions == old(transactions) + [SpentTx(uid, old(accounts)[uid], points, source, description, sourceId)]
    {
      if uid !in accounts || accounts[uid].availablePoints < points {
        return false;
      }
      var rewards := accounts[uid];
      DebitFacts(rewards, points);
      accounts := accounts[uid := Debit(rewards, points)];
      transactions := transactions + [SpentTx(uid, rewards, points, source, description, sourceId)];
      success := true;
    }

    /** awardXP: rolls the XP over into levels, writes the level counters,
        then awards 50 points per level gained. Returns whether the level
        rose; a missing account throws. */
    method AwardXP(uid: string, xp: nat) returns (result: Result<bool>)
      requires Valid()
      modifies this`accounts, this`transactions
      ensures Valid()
      ensures uid !in old(accounts) ==>
                result == Err(RewardsNotFound) && accounts == old(accounts) && transactions == old(transactions)
      ensures uid in old(accounts) ==>
                var a := old(accounts)[uid];
                && result == Ok(RollOver(a.currentLevel, a.currentXP + xp).0 > a.currentLevel)
                && accounts == old(accounts)[uid := ApplyXP(a, xp)]
                && transactions == old(transactions) + LevelUpTransactions(uid, a, xp)
    {
      if uid !in accounts {
        return Err(RewardsNotFound);
      }
      var rewards := accounts[uid];
      ApplyXPFacts(rewards, xp);
      var newLevel, remainingXP, leveledUp := LevelRollOver(rewards.currentLevel, rewards.currentXP + xp);
      var rolled := rewards.(currentXP := remainingXP, currentLevel := newLevel,
                             xpToNextLevel := newLevel * 100 - remainingXP,
                             totalXPEarned := rewards.totalXPEarned + xp);
      assert AccountValid(rolled);
      assert ApplyXP(rewards, xp) == if leveledUp then Credit(rolled, 50 * (newLevel - rewards.currentLevel)) else rolled;
      assert LevelUpTransactions(uid, rewards, xp)
             == if leveledUp then [EarnedTx(uid, 50 * (newLevel - rewards.currentLevel), AdminAdjustment,
                                            LevelUpBonus(rewards.currentLevel, newLevel), None)]
                else [];
      accounts := accounts[uid := rolled];
      if leveledUp {
        var _ := AwardPoints(uid, 50 * (newLevel - rewards.currentLevel), AdminAdjustment,
                             LevelUpBonus(rewards.currentLevel, newLevel), None);
      }
      result := Ok(leveledUp);
    }

    /** hasUserBadge: whether some user badge records (uid, badgeId). */
    method HasUserBadge(uid: string, badgeId: string) returns (found: bool)
      ensures found <==> HoldsBadge(userBadges, uid, badgeId)
    {
      var i := 0;
      while i < |userBadges|
        invariant 0 <= i <= |userBadges|
        invariant forall k :: 0 <= k < i ==> userBadges[k].uid != uid || userBadges[k].badgeId != badgeId
      {
        if userBadges[i].uid == uid && userBadges[i].badgeId == badgeId {
          return true;
        }
        i := i + 1;
      }
      return false;
    }

    /** awardBadge: throws when the catalog lacks the badge (checked first);
        does nothing when the user already holds it; otherwise one batch
        records the user badge and counts it, then the badge's points and
        XP are awarded. */
    method AwardBadge(uid: string, badgeId: string) returns (outcome: Outcome)
      requires Valid()
      modifies this`accounts, this`transactions, this`userBadges
      ensures Valid()
      ensures outcome == Pass ==> badgeId in badges && HoldsBadge(userBadges, uid, badgeId)
      ensures badgeId !in badges ==> outcome == Fail(BadgeNotFound) && unchanged(this)
      ensures badgeId in badges && HoldsBadge(old(userBadges), uid, badgeId) ==> outcome == Pass && unchanged(this)
      ensures badgeId in badges && !HoldsBadge(old(userBadges), uid, badgeId) && uid !in old(accounts) ==>
                outcome == Fail(RewardsNotFound) && unchanged(this)
      ensures badgeId in badges && !HoldsBadge(old(userBadges), uid, badgeId) && uid in old(accounts) ==>
                && outcome == Pass
                && userBadges == old(userBadges) + [NewUserBadge(uid, badgeId, badges[badgeId])]
                && accounts == old(accounts)[uid := AfterBadge(old(accounts)[uid], badges[badgeId])]
                && transactions == old(transactions) + BadgeTransactions(uid, old(accounts)[uid], badgeId, badges[badgeId])
    {
      if badgeId !in badges {
        return Fail(BadgeNotFound);
      }
      var held := HasUserBadge(uid, badgeId);
      if held {
        return Pass;
      }
      if uid !in accounts {
        return Fail(RewardsNotFound);
      }
      GrantBadge(uid, badgeId);
      outcome := Pass;
    }

    /** The writes of awardBadge once the badge is known, not yet held and
        the account exists: the user badge and the count, then the badge's
        points and XP. */
    method GrantBadge(uid: string, badgeId: string)
      requires Valid() && badgeId in badges && uid in accounts && !HoldsBadge(userBadges, uid, badgeId)
      modifies this`accounts, this`transactions, this`userBadges
      ensures Valid() && HoldsBadge(userBadges, uid, badgeId)
      ensures userBadges == old(userBadges) + [NewUserBadge(uid, badgeId, badges[badgeId])]
      ensures accounts == old(accounts)[uid := AfterBadge(old(accounts)[uid], badges[badgeId])]
      ensures transactions == old(transactions) + BadgeTransactions(uid, old(accounts)[uid], badgeId, badges[badgeId])
    {
      var badge := badges[badgeId];
      var rewards := accounts[uid];
      var counted := rewards.(totalBadges := rewards.totalBadges + 1);
      assert AccountValid(counted);
      RecordBadgeKeepsUnique(userBadges, NewUserBadge(uid, badgeId, badge));
      userBadges := userBadges + [NewUserBadge(uid, badgeId, badge)];
      accounts := accounts[uid := counted];
      var _ := AwardPoints(uid, badge.pointsReward, AdminAdjustment, BadgeEarned(badge.name), Some(badgeId));
      var _ := AwardXP(uid, badge.xpReward);
    }

    /** redeemStoreItem: throws for a missing item; returns None, writing
        nothing, when the spend is refused; otherwise records a pending
        redemption and counts it, returning the new record's id (here its
        position). */
    method RedeemStoreItem(uid: string, itemId: string, details: Option<DeliveryDetails>)
      returns (result: Result<Option<nat>>)
      requires Valid()
      modifies this`accounts, this`transactions, this`redemptions
      ensures Valid()
      ensures itemId !in storeItems ==> result == Err(StoreItemNotFound) && unchanged(this)
      ensures itemId in storeItems &&
              !(uid in old(accounts) && old(accounts)[uid].availablePoints >= storeItems[itemId].pointsCost) ==>
                result == Ok(None) && unchanged(this)
      ensures itemId in storeItems &&
              uid in old(accounts) && old(accounts)[uid].availablePoints >= storeItems[itemId].pointsCost ==>
                var item := storeItems[itemId];
                var a := old(accounts)[uid];
                && result == Ok(Some(|old(redemptions)|))
                && redemptions == old(redemptions) + [NewRedemption(uid, itemId, item, details)]
                && accounts == old(accounts)[uid := Debit(a, item.pointsCost).(totalRedemptions := a.totalRedemptions + 1)]
                && transactions == old(transactions) + [SpentTx(uid, a, item.pointsCost, Redemption, Redeemed(item.name), Some(itemId))]
    {
      if itemId !in storeItems {
        return Err(StoreItemNotFound);
      }
      var item := storeItems[itemId];
      var success := SpendPoints(uid, item.pointsCost, Redemption, Redeemed(item.name), Some(itemId));
      if !success {
        return Ok(None);
      }
      var id := |redemptions|;
      redemptions := redemptions + [NewRedemption(uid, itemId, item, details)];
      var rewards := accounts[uid];
      accounts := accounts[uid := rewards.(totalRedemptions := rewards.totalRedemptions + 1)];
      result := Ok(Some(id));
    }

    /** processLessonCompletionRewards: the lesson reward as points, then as
        XP. The time spent is not used. */
    method ProcessLessonCompletionRewards(uid: string, lessonId: string, timeSpent: nat, score: Option<nat>)
      returns (outcome: Outcome)
      requires Valid()
      modifies this`accounts, this`transactions
      ensures Valid()
      ensures uid !in old(accounts) ==>
                outcome == Fail(RewardsNotFound) && accounts == old(accounts) && transactions == old(transactions)
      ensures uid in old(accounts) ==>
                var rw := LessonReward(score);
                var a := old(accounts)[uid];
                && outcome == Pass
                && accounts == old(accounts)[uid := ApplyXP(Credit(a, rw.points), rw.xp)]
                && transactions == old(transactions)
                     + [EarnedTx(uid, rw.points, LessonCompletion, LessonCompleted(lessonId), Some(lessonId))]
                     + LevelUpTransactions(uid, Credit(a, rw.points), rw.xp)
    {
      var rw := LessonReward(score);
      outcome := AwardPoints(uid, rw.points, LessonCompletion, LessonCompleted(lessonId), Some(lessonId));
      if outcome.Fail? {
        return;
      }
      var _ := AwardXP(uid, rw.xp);
    }

    /** The collections as they stand. */
    ghost function Current(): Books
      reads this
    {
      Books(accounts, transactions, userBadges)
    }

    /** One milestone-badge check of processModuleCompletionRewards: when
        eligible and not yet held, awardBadge. */
    method AwardMilestoneBadge(uid: string, badgeId: string, eligible: bool) returns (outcome: Outcome, earned: bool)
      requires Valid() && uid in accounts
      modifies this`accounts, this`transactions, this`userBadges
      ensures Valid() && uid in accounts
      ensures (outcome, earned, Current()) == MilestoneStep(old(Current()), badges, uid, badgeId, eligible)
    {
      var held := HasUserBadge(uid, badgeId);
      if !eligible || held {
        return Pass, false;
      }
      outcome := AwardBadge(uid, badgeId);
      earned := outcome.Pass?;
    }

    /** The first step of processModuleCompletionRewards: awardPoints and
        awardXP with the module reward. */
    method AwardModuleReward(uid: string, moduleId: string, subjectId: string, rw: Reward) returns (outcome: Outcome)
      requires Valid()
      modifies this`accounts, this`transactions
      ensures Valid()
      ensures uid !in old(accounts) ==> outcome == Fail(RewardsNotFound) && unchanged(this)
      ensures uid in old(accounts) ==>
                && outcome == Pass && uid in accounts
                && Current() == ModuleAwardStep(old(Current()), uid, moduleId, subjectId, rw)
                && accounts[uid].totalXPEarned == old(accounts)[uid].totalXPEarned + rw.xp
    {
      outcome := AwardPoints(uid, rw.points, ModuleCompletion, ModuleCompleted(moduleId, subjectId), Some(moduleId));
      if outcome.Fail? {
        return;
      }
      ApplyXPFacts(accounts[uid], rw.xp);
      var _ := AwardXP(uid, rw.xp);
    }

    /** The closing level check of processModuleCompletionRewards. */
    method PayLevelCheck(uid: string, check: nat, levelUp: bool)
      requires Valid() && uid in accounts
      modifies this`accounts, this`transactions
      ensures Valid() && uid in accounts
      ensures Current() == LevelCheckStep(old(Current()), uid, check, levelUp)
    {
      if levelUp {
        var _ := AwardPoints(uid, 100 * check, LevelUp, ReachedLevel(check), None);
      }
    }

    /** processModuleCompletionRewards: the module reward as points, then as
        XP; then, against the account as it now stands, the Scholar badge
        (at 1000 total points) and the Perfectionist badge (at an average of
        95) when not yet held; then a level check on the snapshot's
        totalXPEarned plus the module XP, paying 100 points per new level
        number when it exceeds the snapshot's level. A badge missing from the
        catalog throws after the earlier writes. */
    method ProcessModuleCompletionRewards(uid: string, moduleId: string, subjectId: string,
                                          lessonsCompleted: nat, averageScore: nat, totalTimeSpent: nat,
                                          skillsGained: seq<string>)
      returns (result: Result<ModuleRewardsSummary>)
      requires Valid()
      modifies this`accounts, this`transactions, this`userBadges
      ensures Valid()
      ensures uid !in old(accounts) ==> result == Err(RewardsNotFound) && unchanged(this)
      ensures uid in old(accounts) ==>
                (result, Current()) == ModuleCompletionStep(old(Current()), badges, uid, moduleId, subjectId, averageScore,
                                                            ModuleReward(lessonsCompleted, averageScore, totalTimeSpent, |skillsGained|))
    {
      var rw := ModuleReward(lessonsCompleted, averageScore, totalTimeSpent, |skillsGained|);
      var awarded := AwardModuleReward(uid, moduleId, subjectId, rw);
      if awarded.Fail? {
        return Err(awarded.error);
      }
      result := AwardModuleBonuses(uid, averageScore, rw);
    }

    /** The rest of processModuleCompletionRewards, after the module award:
        the two milestone badges and the level check, all judged against
        the account as the award left it. */
    method AwardModuleBonuses(uid: string, averageScore: nat, rw: Reward) returns (result: Result<ModuleRewardsSummary>)
      requires Valid() && uid in accounts
      modifies this`accounts, this`transactions, this`userBadges
      ensures Valid()
      ensures (result, Current()) == ModuleBonusStep(old(Current()), badges, uid, averageScore, rw)
    {
      ghost var b1 := Current();
      var snapshot := accounts[uid];
      var scholarOutcome, scholar := AwardMilestoneBadge(uid, ScholarBadgeId, snapshot.totalPoints >= 1000);
      ghost var b2 := Current();
      if scholarOutcome.Fail? {
        return Err(scholarOutcome.error);
      }
      var perfectOutcome, perfect := AwardMilestoneBadge(uid, PerfectionistBadgeId, averageScore >= 95);
      ghost var b3 := Current();
      if perfectOutcome.Fail? {
        return Err(perfectOutcome.error);
      }
      var check := CalculateLevelFromXP(snapshot.totalXPEarned + rw.xp);
      var levelUp := check > snapshot.currentLevel;
      PayLevelCheck(uid, check, levelUp);
      var badgesEarned := (if scholar then [ScholarBadgeId] else []) + (if perfect then [PerfectionistBadgeId] else []);
      result := Ok(ModuleRewardsSummary(rw.points, rw.xp, badgesEarned, levelUp, if levelUp then Some(check) else None));
      ModuleBonusStepPasses(b1, badges, uid, averageScore, rw, scholar, b2, perfect, b3);
    }
  }

  // ======================= module completion, step by step =======================

  /** The three collections processModuleCompletionRewards writes. */
  datatype Books = Books(accounts: map<string, UserRewards>, transactions: seq<PointsTransaction>, userBadges: seq<UserBadge>)

  /** The module reward awarded as points and then as XP. */
  ghost function ModuleAwardStep(b: Books, uid: string, moduleId: string, subjectId: string, rw: Reward): Books
    requires uid in b.accounts && b.accounts[uid].currentLevel >= 1
  {
    var credited := Credit(b.accounts[uid], rw.points);
    Books(b.accounts[uid := ApplyXP(credited, rw.xp)],
          b.transactions
            + [EarnedTx(uid, rw.points, ModuleCompletion, ModuleCompleted(moduleId, subjectId), Some(moduleId))]
            + LevelUpTransactions(uid, credited, rw.xp),
          b.userBadges)
  }

  /** processModuleCompletionRewards on the three collections: the module
      award, the Scholar badge at 1000 total points and the Perfectionist
      badge at an average of 95 (judged on the account as it stands after
      the award), then the level check; a failing badge step ends it with
      that step's writes in place. */
  ghost function ModuleCompletionStep(b: Books, catalog: map<string, Badge>, uid: string, moduleId: string, subjectId: string,
                                      averageScore: nat, rw: Reward): (r: (Result<ModuleRewardsSummary>, Books))
    requires uid in b.accounts && b.accounts[uid].currentLevel >= 1
    ensures uid in r.1.accounts
    ensures r.0.Ok? ==> r.0.value.pointsAwarded == rw.points && r.0.value.xpAwarded == rw.xp
    ensures r.0.Ok? ==> (r.0.value.levelUp <==> r.0.value.newLevel.Some?)
    ensures r.0.Ok? ==> |r.0.value.badgesEarned| <= 2
    ensures r.0.Err? ==> r.0.error == BadgeNotFound
  {
    ModuleBonusStep(ModuleAwardStep(b, uid, moduleId, subjectId, rw), catalog, uid, averageScore, rw)
  }

  /** The badge and level steps after the module award, against the
      account b1 holds for the user. */
  ghost function ModuleBonusStep(b1: Books, catalog: map<string, Badge>, uid: string, averageScore: nat, rw: Reward)
    : (r: (Result<ModuleRewardsSummary>, Books))
    requires uid in b1.accounts && b1.accounts[uid].currentLevel >= 1
    ensures uid in r.1.accounts
  {
    var snapshot := b1.accounts[uid];
    var (o2, scholar, b2) := MilestoneStep(b1, catalog, uid, ScholarBadgeId, snapshot.totalPoints >= 1000);
    if o2.Fail? then (Err(o2.error), b2)
    else
      var (o3, perfect, b3) := MilestoneStep(b2, catalog, uid, PerfectionistBadgeId, averageScore >= 95);
      if o3.Fail? then (Err(o3.error), b3)
      else
        var check := LevelOf(snapshot.totalXPEarned + rw.xp);
        var levelUp := check > snapshot.currentLevel;
        (Ok(ModuleRewardsSummary(rw.points, rw.xp,
                                 (if scholar then [ScholarBadgeId] else []) + (if perfect then [PerfectionistBadgeId] else []),
                                 levelUp, if levelUp then Some(check) else None)),
         LevelCheckStep(b3, uid, check, levelUp))
  }

  /** ModuleBonusStep when both badge steps pass. */
  lemma ModuleBonusStepPasses(b1: Books, catalog: map<string, Badge>, uid: string,
                              averageScore: nat, rw: Reward, scholar: bool, b2: Books, perfect: bool, b3: Books)
    requires uid in b1.accounts && b1.accounts[uid].currentLevel >= 1
    requires MilestoneStep(b1, catalog, uid, ScholarBadgeId, b1.accounts[uid].totalPoints >= 1000) == (Pass, scholar, b2)
    requires MilestoneStep(b2, catalog, uid, PerfectionistBadgeId, averageScore >= 95) == (Pass, perfect, b3)
    ensures var snapshot := b1.accounts[uid];
            var check := LevelOf(snapshot.totalXPEarned + rw.xp);
            var levelUp := check > snapshot.currentLevel;
            ModuleBonusStep(b1, catalog, uid, averageScore, rw)
              == (Ok(ModuleRewardsSummary(rw.points, rw.xp,
                                          (if scholar then [ScholarBadgeId] else []) + (if perfect then [PerfectionistBadgeId] else []),
                                          levelUp, if levelUp then Some(check) else None)),
                  LevelCheckStep(b3, uid, check, levelUp))
  {
  }

  /** The level check of processModuleCompletionRewards counts the module
      XP twice: the snapshot it reads already holds it, so the checked total
      is the old total plus twice the module XP, while the snapshot's level
      is the one the incremental rule gives. */
  lemma ModuleLevelCheckCountsXPTwice(b: Books, uid: string, moduleId: string, subjectId: string, rw: Reward)
    requires uid in b.accounts && AccountValid(b.accounts[uid])
    ensures var a := b.accounts[uid];
            var snapshot := ModuleAwardStep(b, uid, moduleId, subjectId, rw).accounts[uid];
            && snapshot.totalXPEarned + rw.xp == a.totalXPEarned + 2 * rw.xp
            && snapshot.currentLevel == RollOver(a.currentLevel, a.currentXP + rw.xp).0
            && snapshot.totalPoints == a.totalPoints + rw.points + 50 * (snapshot.currentLevel - a.currentLevel)
  {
    CreditFacts(b.accounts[uid], rw.points);
    ApplyXPFacts(Credit(b.accounts[uid], rw.points), rw.xp);
  }

  /** One milestone badge: awarded when eligible and not yet held; the
      outcome fails when the catalog lacks it; the flag says whether it was
      earned. */
  ghost function MilestoneStep(b: Books, catalog: map<string, Badge>, uid: string, badgeId: string, eligible: bool): (r: (Outcome, bool, Books))
    requires uid in b.accounts && b.accounts[uid].currentLevel >= 1
    ensures uid in r.2.accounts && r.2.accounts[uid].currentLevel >= b.accounts[uid].currentLevel
  {
    if !eligible || HoldsBadge(b.userBadges, uid, badgeId) then (Pass, false, b)
    else if badgeId !in catalog then (Fail(BadgeNotFound), false, b)
    else
      var a := b.accounts[uid];
      (Pass, true, Books(b.accounts[uid := AfterBadge(a, catalog[badgeId])],
                         b.transactions + BadgeTransactions(uid, a, badgeId, catalog[badgeId]),
                         b.userBadges + [NewUserBadge(uid, badgeId, catalog[badgeId])]))
  }

  /** The closing level check: 100 points per level number reached. */
  ghost function LevelCheckStep(b: Books, uid: string, check: nat, levelUp: bool): Books
    requires uid in b.accounts
  {
    if levelUp then
      Books(b.accounts[uid := Credit(b.accounts[uid], 100 * check)],
            b.transactions + [EarnedTx(uid, 100 * check, LevelUp, ReachedLevel(check), None)],
            b.userBadges)
    else b
  }

  /** The worked module completion on a fresh account: 125 points and 165
      XP take it to level 2 with 65 XP and 175 points (50 of them for the
      level), yet the level check on 165 + 165 XP reports level 3 and
      pays another 300 points. */
  lemma WorkedModuleAccount(uid: string)
    ensures var snapshot := ApplyXP(Credit(NewAccount(uid), 125), 165);
            && snapshot.currentLevel == 2 && snapshot.currentXP == 65
            && snapshot.totalPoints == 175 && snapshot.totalXPEarned == 165
            && LevelOf(snapshot.totalXPEarned + 165) == 3
            && Credit(snapshot, 100 * 3).totalPoints == 475
  {
    WorkedModuleLevels();
  }

  /** The worked module completion run through the ledger: the summary
      reports 125 points, 165 XP, no badges and a level-up to 3, and the
      account ends with 475 points. */
  method WorkedModuleCompletion(ledger: Ledger, uid: string, skills: seq<string>)
    returns (result: Result<ModuleRewardsSummary>)
    requires ledger.Valid() && ledger.accounts == map[uid := NewAccount(uid)] && ledger.userBadges == []
    requires |skills| == 2
    modifies ledger`accounts, ledger`transactions, ledger`userBadges
    ensures result == Ok(ModuleRewardsSummary(125, 165, [], true, Some(3)))
    ensures uid in ledger.accounts && ledger.accounts[uid].totalPoints == 475
  {
    ModuleRewardWorkedExample();
    WorkedModuleAccount(uid);
    ghost var b1 := ModuleAwardStep(ledger.Current(), uid, "math_module_1", "mathematics", Reward(125, 165));
    assert b1.accounts[uid] == ApplyXP(Credit(NewAccount(uid), 125), 165);
    assert MilestoneStep(b1, ledger.badges, uid, ScholarBadgeId, false) == (Pass, false, b1);
    assert MilestoneStep(b1, ledger.badges, uid, PerfectionistBadgeId, false) == (Pass, false, b1);
    result := ledger.ProcessModuleCompletionRewards(uid, "math_module_1", "mathematics", 5, 85, 120, skills);
    assert LevelOf(b1.accounts[uid].totalXPEarned + 165) == 3;
    assert result.Ok?;
    assert result.value.badgesEarned == [];
    assert result.value.levelUp;
    assert ledger.Current() == LevelCheckStep(b1, uid, 3, true);
  }
}
