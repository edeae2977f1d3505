/** Configuration tables and record shapes of the rewards system
    (lib/models/rewards.ts). Timestamps, free-form metadata and the visual
    fields a service never reads are not carried. */
module RewardsModels {

  import opened Outcomes

  // ---------------- POINTS_CONFIG ----------------

  const LessonCompletionPoints: nat := 10
  const QuizPassPoints: nat := 15
  const QuizPerfectPoints: nat := 25
  const DailyLoginPoints: nat := 5
  const StreakBonusPoints: nat := 2      // per day of streak
  const AchievementBonusPoints: nat := 50
  const BadgeBonusPoints: nat := 25
  const CareerExplorationPoints: nat := 8
  const HelpOthersPoints: nat := 5
  const FirstTimeBonusPoints: nat := 100

  // ---------------- XP_CONFIG ----------------

  const LessonCompletionXP: nat := 20
  const QuizPassXP: nat := 30
  const QuizPerfectXP: nat := 50
  const BadgeEarnedXP: nat := 100
  const AchievementUnlockedXP: nat := 200
  const LevelUpBonusXP: nat := 500

  /** LEVEL_THRESHOLDS: the total XP at which level i + 1 starts. */
  const LevelThresholds: seq<nat> :=
    [0, 100, 250, 500, 1000, 1750, 2750, 4000, 5500, 7250, 9250,
     11500, 14000, 16750, 19750, 23000, 26500, 30250, 34250, 38500, 43000]

  /** The highest level the threshold table knows. */
  const MaxLevel: nat := 21

  /** The table has one entry per level, starts at 0 and strictly increases. */
  lemma ThresholdTableShape()
    ensures |LevelThresholds| == MaxLevel
    ensures LevelThresholds[0] == 0
    ensures forall i, j :: 0 <= i < j < |LevelThresholds| ==> LevelThresholds[i] < LevelThresholds[j]
  {
  }

  /** The base per-lesson rates, and the extra a perfect quiz earns over a pass. */
  lemma RateTableFacts()
    ensures LessonCompletionPoints == 10 && LessonCompletionXP == 20
    ensures QuizPerfectPoints - QuizPassPoints == 10 > 0
    ensures QuizPerfectXP - QuizPassXP == 20 > 0
  {
  }

  /** A progress figure documented as 0-100. */
  type Percentage = p: nat | p <= 100

  // ---------------- user rewards summary ----------------

  datatype UserRewards = UserRewards(
    uid: string,
    totalPoints: nat,
    availablePoints: nat,          // points that can be spent
    lifetimePointsEarned: nat,
    currentLevel: nat,
    currentXP: nat,
    xpToNextLevel: nat,
    totalXPEarned: nat,
    totalBadges: nat,
    totalAchievements: nat,
    currentStreak: nat,
    longestStreak: nat,
    totalRedemptions: nat,
    totalSpent: nat)

  // ---------------- points transactions ----------------

  datatype TransactionType = Earned | Spent | Bonus | Penalty

  datatype TransactionSource =
    | LessonCompletion | QuizPassed | AchievementSource | StreakBonus
    | DailyLogin | Referral | Purchase | Redemption | AdminAdjustment
    | ModuleCompletion | LevelUp | SkillMastery

  /** The arguments of the description templates the services fill in;
      the rendered text is not modelled. The level-up metadata
      { previousLevel, newLevel } is carried by LevelUpBonus. */
  datatype Description =
    | LessonCompleted(lessonId: string)                 // 'Completed lesson: ...'
    | ModuleCompleted(moduleId: string, subjectId: string) // 'Completed module: ... in ...'
    | LevelUpBonus(previousLevel: nat, newLevel: nat)   // 'Level up bonus: Reached level ...'
    | BadgeEarned(badgeName: string)                    // 'Badge earned: ...'
    | Redeemed(itemName: string)                        // 'Redeemed: ...'
    | ReachedLevel(level: nat)                          // 'Reached level ...!'

  datatype PointsTransaction = PointsTransaction(
    uid: string,
    kind: TransactionType,
    amount: int,
    balance: int,                  // meant to be the balance after the transaction
    source: TransactionSource,
    sourceId: Option<string>,
    description: Description)

  // ---------------- badges ----------------

  datatype BadgeCategory = Learning | Social | AchievementCategory | Special | Career

  datatype Rarity = Common | Uncommon | Rare | Epic | Legendary

  datatype RequirementType =
    | LessonCount | QuizScore | StreakDays | SubjectMastery
    | TimeSpent | ConsecutiveDays | PerfectQuizzes | CareerExploration

  datatype Condition = GreaterThan | EqualTo | LessThan

  datatype BadgeRequirement = BadgeRequirement(kind: RequirementType, value: nat, condition: Option<Condition>)

  datatype Badge = Badge(
    name: string,
    description: string,
    category: BadgeCategory,
    iconUrl: string,
    color: string,
    rarity: Rarity,
    requirements: seq<BadgeRequirement>,
    isSecret: bool,
    pointsReward: nat,
    xpReward: nat,
    isActive: bool,
    isLimited: bool)

  datatype UserBadge = UserBadge(
    uid: string,
    badgeId: string,
    badgeName: string,
    badgeIconUrl: string,
    badgeRarity: Rarity,
    progress: Percentage,
    isCompleted: bool)

  // ---------------- achievements ----------------

  datatype AchievementProgress = AchievementProgress(requirementType: string, target: nat, current: nat, isCompleted: bool)

  datatype UserAchievement = UserAchievement(
    uid: string,
    achievementId: string,
    achievementTitle: string,
    progress: seq<AchievementProgress>,
    overallProgress: Percentage,
    isCompleted: bool)

  // ---------------- store and redemptions ----------------

  datatype StoreCategory = Digital | Physical | Experience | Educational | MobileData

  datatype ItemType = Airtime | DataBundle | Voucher | CourseAccess | Merchandise | OtherItem

  datatype Provider = Vodacom | Mtn | CellC | Telkom | Rain | OtherProvider

  datatype StoreItem = StoreItem(
    name: string,
    description: string,
    category: StoreCategory,
    pointsCost: nat,
    cashValue: Option<nat>,        // real-world value in ZAR
    isAvailable: bool,
    stockQuantity: Option<nat>,    // None = unlimited
    isLimited: bool,
    minimumLevel: Option<nat>,
    itemType: ItemType,
    provider: Option<Provider>)

  datatype RedemptionStatus = Pending | Processing | Completed | Failed | Cancelled

  datatype DeliveryMethod = DigitalDelivery | EmailDelivery | SmsDelivery | PhysicalDelivery | InAppDelivery

  datatype DeliveryDetails = DeliveryDetails(
    phoneNumber: Option<string>, email: Option<string>, address: Option<string>, trackingNumber: Option<string>)

  datatype RedemptionRecord = RedemptionRecord(
    uid: string,
    storeItemId: string,
    itemName: string,
    itemCategory: StoreCategory,
    pointsSpent: nat,
    cashValue: Option<nat>,
    status: RedemptionStatus,
    deliveryMethod: DeliveryMethod,
    deliveryDetails: Option<DeliveryDetails>,
    isDelivered: bool,
    retryCount: nat)

  // ---------------- leaderboard ----------------

  datatype Period = Weekly | Monthly | AllTime

  datatype LeaderboardEntry = LeaderboardEntry(
    uid: string,
    displayName: string,
    rank: nat,
    totalPoints: nat,
    totalXP: nat,
    weeklyPoints: nat,
    monthlyPoints: nat,
    streakDays: nat,
    lessonsCompleted: nat,
    badgesEarned: nat)
}
