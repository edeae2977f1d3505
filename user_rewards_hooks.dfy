/** The display derivations of hooks/use-user-rewards.ts: what useSkillCoins,
    useUserLevel, useSubjectProgress and useSkillLevels compute from the
    rewards and progress documents they are given. */
module UserRewardsHooks {

  import opened Outcomes
  import opened RewardsModels
  import opened Progression
  import opened RewardsLedger
  import opened UserModels

  /** JavaScript's `n || fallback` on a stored count: 0 and a missing
      document both give the fallback. */
  function OrElse(n: Option<nat>, fallback: nat): (r: nat)
    ensures n.Some? && n.value != 0 ==> r == n.value
    ensures n.None? || n.value == 0 ==> r == fallback
  {
    if n.Some? && n.value != 0 then n.value else fallback
  }

  function Field(rewards: Option<UserRewards>, get: UserRewards -> nat): Option<nat>
  {
    if rewards.Some? then Some(get(rewards.value)) else None
  }

  // ======================= useSkillCoins =======================

  datatype SkillCoinsView = SkillCoinsView(skillCoins: nat, totalEarned: nat)

  function SkillCoins(rewards: Option<UserRewards>): SkillCoinsView
  {
    SkillCoinsView(OrElse(Field(rewards, (a: UserRewards) => a.availablePoints), 0),
                   OrElse(Field(rewards, (a: UserRewards) => a.lifetimePointsEarned), 0))
  }

  /** The coins shown are the available points, the total the lifetime
      points, and a missing document shows 0 for both. */
  lemma SkillCoinsShowsAccount(rewards: Option<UserRewards>)
    ensures rewards.None? ==> SkillCoins(rewards) == SkillCoinsView(0, 0)
    ensures rewards.Some? ==>
              SkillCoins(rewards) == SkillCoinsView(rewards.value.availablePoints, rewards.value.lifetimePointsEarned)
  {
  }

  // ======================= useUserLevel =======================

  datatype LevelView = LevelView(level: nat, currentXP: nat, totalXP: nat, xpToNextLevel: nat)

  function UserLevel(rewards: Option<UserRewards>): LevelView
  {
    LevelView(OrElse(Field(rewards, (a: UserRewards) => a.currentLevel), 1),
              OrElse(Field(rewards, (a: UserRewards) => a.currentXP), 0),
              OrElse(Field(rewards, (a: UserRewards) => a.totalXPEarned), 0),
              OrElse(Field(rewards, (a: UserRewards) => a.xpToNextLevel), 100))
  }

  /** A well-formed account is shown as stored: its level is at least 1 and
      its xpToNextLevel positive, so no fallback applies. */
  lemma UserLevelShowsAccount(a: UserRewards)
    requires AccountValid(a)
    ensures UserLevel(Some(a)) == LevelView(a.currentLevel, a.currentXP, a.totalXPEarned, a.xpToNextLevel)
  {
    assert a.currentXP < a.currentLevel * 100;
    assert a.xpToNextLevel > 0;
  }

  /** A missing document is shown as a fresh account; a stored
      xpToNextLevel of 0 is shown as 100. */
  lemma UserLevelFallbacks(a: UserRewards)
    ensures UserLevel(None) == LevelView(1, 0, 0, 100)
    ensures a.xpToNextLevel == 0 ==> UserLevel(Some(a)).xpToNextLevel == 100
    ensures a.currentLevel == 0 ==> UserLevel(Some(a)).level == 1
  {
  }

  /** calculateXPToNextLevel: 0 from level 21 on, else the next level's
      threshold minus the XP given (which may be negative). */
  function CalculateXPToNextLevel(currentLevel: nat, currentXP: nat): (r: int)
    ensures currentLevel >= MaxLevel ==> r == 0
    ensures currentLevel < MaxLevel ==> r + currentXP == LevelThresholds[currentLevel]
  {
    if currentLevel >= |LevelThresholds| then 0 else LevelThresholds[currentLevel] - currentXP
  }

  /** Given a total XP and the level the threshold table assigns it, the
      result is the positive distance to the next threshold. */
  lemma XPToNextLevelUnderTable(totalXP: nat)
    ensures var level := LevelOf(totalXP);
            level < MaxLevel ==> 0 < CalculateXPToNextLevel(level, totalXP) <= LevelThresholds[level] - LevelThresholds[level - 1]
  {
    LevelOfIsLargest(totalXP);
    ThresholdTableShape();
  }

  /** The table rule and the stored counter disagree: an account at level 2
      with no XP stores 200 to go, the table says 250. */
  lemma XPToNextLevelDisagrees(a: UserRewards)
    requires LevelShaped(a) && a.currentLevel == 2 && a.currentXP == 0
    ensures a.xpToNextLevel == 200
    ensures CalculateXPToNextLevel(a.currentLevel, a.currentXP) == 250
  {
    assert LevelThresholds[2] == 250;
  }

  // ======================= useSubjectProgress =======================

  /** totalSubjects: the number of subject entries, 0 without a document. */
  function TotalSubjects(progress: Option<UserProgress>): (n: nat)
    ensures progress.None? ==> n == 0
    ensures progress.Some? ==> n == |progress.value.subjectProgress.Keys|
  {
    if progress.Some? then |progress.value.subjectProgress| else 0
  }

  // ======================= useSkillLevels =======================

  /** skillCounts: the reduce that counts skills per tier; a tier no skill
      has is absent. */
  function SkillCounts(skills: seq<SkillLevel>): map<SkillTier, nat>
    decreases |skills|
  {
    if skills == [] then map[]
    else
      var acc := SkillCounts(skills[..|skills| - 1]);
      var tier := skills[|skills| - 1].level;
      acc[tier := (if tier in acc then acc[tier] else 0) + 1]
  }

  /** The filter(...).length behind expertSkills and advancedSkills. */
  function CountTier(skills: seq<SkillLevel>, tier: SkillTier): nat
    decreases |skills|
  {
    if skills == [] then 0
    else CountTier(skills[..|skills| - 1], tier) + (if skills[|skills| - 1].level == tier then 1 else 0)
  }

  /** A tier's count in skillCounts is the number of skills in that tier,
      present exactly when positive, so expertSkills and advancedSkills
      agree with it. */
  lemma {:induction false} SkillCountsAgree(skills: seq<SkillLevel>, tier: SkillTier)
    ensures tier in SkillCounts(skills) <==> CountTier(skills, tier) > 0
    ensures tier in SkillCounts(skills) ==> SkillCounts(skills)[tier] == CountTier(skills, tier)
    decreases |skills|
  {
    if skills != [] {
      SkillCountsAgree(skills[..|skills| - 1], tier);
    }
  }

  /** The per-tier counts sum to the number of skills. */
  lemma {:induction false} TierCountsSum(skills: seq<SkillLevel>)
    ensures CountTier(skills, Novice) + CountTier(skills, Beginner) + CountTier(skills, Intermediate)
            + CountTier(skills, Advanced) + CountTier(skills, Expert) == |skills|
    decreases |skills|
  {
    if skills != [] {
      TierCountsSum(skills[..|skills| - 1]);
    }
  }
}
