/** The pure arithmetic of lib/services/rewardsService.ts: the reward a
    completed lesson or module earns, and the two level rules that coexist in
    that file. The incremental rule (each level n costs n * 100 XP, used when
    XP is awarded) and the threshold table (used to decide a module level-up)
    do not agree; both are modelled as written and compared below. */
module Progression {

  import opened RewardsModels
  import opened Outcomes

  datatype Reward = Reward(points: nat, xp: nat)

  // ================= module-completion reward =================

  /** The score-tier bonus on a base amount: the floor of 50% at an average of
      90 or more, 30% at 80 or more, 10% at 70 or more, nothing below. */
  function ScoreBonus(base: nat, averageScore: nat): (bonus: nat)
    ensures bonus <= base / 2
    ensures averageScore < 70 ==> bonus == 0
    ensures averageScore >= 90 ==> bonus == base / 2
    ensures 80 <= averageScore < 90 ==> bonus == base * 3 / 10
    ensures 70 <= averageScore < 80 ==> bonus == base / 10
  {
    if averageScore >= 90 then base * 5 / 10
    else if averageScore >= 80 then base * 3 / 10
    else if averageScore >= 70 then base * 1 / 10
    else 0
  }

  /** Five points per whole hour of study, capped at 50. */
  function TimeBonus(totalTimeSpent: nat): (bonus: nat)
    ensures bonus <= 50
    ensures bonus % 5 == 0
    ensures totalTimeSpent < 600 ==> bonus == totalTimeSpent / 60 * 5
    ensures totalTimeSpent >= 600 ==> bonus == 50
  {
    var hourly := totalTimeSpent / 60 * 5;
    if hourly < 50 then hourly else 50
  }

  /** The points and XP processModuleCompletionRewards awards for a module:
      a per-lesson base, a score-tier bonus on it, a capped time bonus (half of
      it, floored, as XP) and a bonus per skill gained. */
  function ModuleReward(lessonsCompleted: nat, averageScore: nat, totalTimeSpent: nat, skillsGained: nat): (r: Reward)
    ensures LessonCompletionPoints * lessonsCompleted + 25 * skillsGained <= r.points
    ensures r.points <= LessonCompletionPoints * lessonsCompleted * 3 / 2 + 50 + 25 * skillsGained
    ensures LessonCompletionXP * lessonsCompleted + 15 * skillsGained <= r.xp
    ensures r.xp <= LessonCompletionXP * lessonsCompleted * 3 / 2 + 25 + 15 * skillsGained
  {
    var basePoints := lessonsCompleted * LessonCompletionPoints;
    var baseXP := lessonsCompleted * LessonCompletionXP;
    var timeBonus := TimeBonus(totalTimeSpent);
    Reward(basePoints + ScoreBonus(basePoints, averageScore) + timeBonus + skillsGained * 25,
           baseXP + ScoreBonus(baseXP, averageScore) + timeBonus / 2 + skillsGained * 15)
  }

  /** More lessons never earn less. */
  lemma ModuleRewardMonotoneInLessons(l1: nat, l2: nat, averageScore: nat, totalTimeSpent: nat, skills: nat)
    requires l1 <= l2
    ensures ModuleReward(l1, averageScore, totalTimeSpent, skills).points <= ModuleReward(l2, averageScore, totalTimeSpent, skills).points
    ensures ModuleReward(l1, averageScore, totalTimeSpent, skills).xp <= ModuleReward(l2, averageScore, totalTimeSpent, skills).xp
  {
    ScoreBonusMonotoneInBase(l1 * LessonCompletionPoints, l2 * LessonCompletionPoints, averageScore);
    ScoreBonusMonotoneInBase(l1 * LessonCompletionXP, l2 * LessonCompletionXP, averageScore);
  }

  /** More skills gained never earn less. */
  lemma ModuleRewardMonotoneInSkills(lessons: nat, averageScore: nat, totalTimeSpent: nat, s1: nat, s2: nat)
    requires s1 <= s2
    ensures ModuleReward(lessons, averageScore, totalTimeSpent, s1).points <= ModuleReward(lessons, averageScore, totalTimeSpent, s2).points
    ensures ModuleReward(lessons, averageScore, totalTimeSpent, s1).xp <= ModuleReward(lessons, averageScore, totalTimeSpent, s2).xp
  {
  }

  /** A higher average score never earns less. */
  lemma ModuleRewardMonotoneInScore(lessons: nat, a1: nat, a2: nat, totalTimeSpent: nat, skills: nat)
    requires a1 <= a2
    ensures ModuleReward(lessons, a1, totalTimeSpent, skills).points <= ModuleReward(lessons, a2, totalTimeSpent, skills).points
    ensures ModuleReward(lessons, a1, totalTimeSpent, skills).xp <= ModuleReward(lessons, a2, totalTimeSpent, skills).xp
  {
  }

  lemma ScoreBonusMonotoneInBase(b1: nat, b2: nat, averageScore: nat)
    requires b1 <= b2
    ensures ScoreBonus(b1, averageScore) <= ScoreBonus(b2, averageScore)
  {
  }

  /** The worked example: 5 lessons at an average of 85 over 120 minutes with
      2 skills gained earns 125 points and 165 XP. */
  lemma ModuleRewardWorkedExample()
    ensures ModuleReward(5, 85, 120, 2) == Reward(125, 165)
  {
  }

  // ================= lesson-completion reward =================

  /** The points and XP processLessonCompletionRewards awards: the per-lesson
      rate, plus the perfect-over-pass quiz extra when a score of 100 or more
      is given. */
  function LessonReward(score: Option<nat>): (r: Reward)
    ensures var perfect := score.Some? && score.value >= 100;
            && r.points == LessonCompletionPoints + (if perfect then 10 else 0)
            && r.xp == LessonCompletionXP + (if perfect then 20 else 0)
  {
    // `score && score >= 100`: a score of 0 is falsy, and fails the comparison anyway
    if score.Some? && score.value != 0 && score.value >= 100 then
      Reward(LessonCompletionPoints + (QuizPerfectPoints - QuizPassPoints),
             LessonCompletionXP + (QuizPerfectXP - QuizPassXP))
    else
      Reward(LessonCompletionPoints, LessonCompletionXP)
  }

  // ================= incremental level rule (awardXP) =================

  /** The rollover of awardXP: while the XP in hand covers the current
      level's cost of level * 100, pay it and go up one level. Returns the
      level reached and the XP left over. */
  function RollOver(level: nat, xp: nat): (nat, nat)
    requires level >= 1
    decreases xp
  {
    if xp >= level * 100 then RollOver(level + 1, xp - level * 100) else (level, xp)
  }

  /** The cumulative XP at which the incremental rule reaches a level from
      level 1 with nothing: 0, 100, 300, 600, ... */
  function LevelBase(level: nat): nat
    requires level >= 1
  {
    if level == 1 then 0 else LevelBase(level - 1) + (level - 1) * 100
  }

  /** The rollover never lowers the level, leaves less than the new level's
      cost, and loses no XP: the cumulative position is preserved. */
  lemma {:induction false} RollOverFacts(level: nat, xp: nat)
    requires level >= 1
    ensures RollOver(level, xp).0 >= level
    ensures RollOver(level, xp).1 < RollOver(level, xp).0 * 100
    ensures LevelBase(RollOver(level, xp).0) + RollOver(level, xp).1 == LevelBase(level) + xp
    decreases xp
  {
    if xp >= level * 100 {
      RollOverFacts(level + 1, xp - level * 100);
    }
  }

  /** From level 1, the incremental rule gives the level l whose cumulative
      range [LevelBase(l), LevelBase(l + 1)) holds the total XP. */
  lemma RollOverFromStart(totalXP: nat)
    ensures var l := RollOver(1, totalXP).0;
            l >= 1 && LevelBase(l) <= totalXP < LevelBase(l + 1)
  {
    RollOverFacts(1, totalXP);
  }

  /** The loop of awardXP (lib/services/rewardsService.ts:223-234). */
  method LevelRollOver(level: nat, xp: nat) returns (newLevel: nat, remainingXP: nat, leveledUp: bool)
    requires level >= 1
    ensures (newLevel, remainingXP) == RollOver(level, xp)
    ensures leveledUp <==> newLevel > level
    ensures newLevel >= level && remainingXP < newLevel * 100
    ensures LevelBase(newLevel) + remainingXP == LevelBase(level) + xp
  {
    newLevel, remainingXP, leveledUp := level, xp, false;
    while remainingXP >= newLevel * 100
      invariant newLevel >= level
      invariant RollOver(newLevel, remainingXP) == RollOver(level, xp)
      invariant leveledUp <==> newLevel > level
      decreases remainingXP
    {
      remainingXP := remainingXP - newLevel * 100;
      newLevel := newLevel + 1;
      leveledUp := true;
    }
    RollOverFacts(level, xp);
  }

  // ================= threshold level rule (calculateLevelFromXP) =================

  /** Scans the first `count` entries of a threshold table from the highest
      down and returns one more than the index of the first threshold the
      XP reaches, else 1. */
  function ScanLevel(table: seq<nat>, totalXP: nat, count: nat): nat
    requires count <= |table|
    decreases count
  {
    if count == 0 then 1
    else if totalXP >= table[count - 1] then count
    else ScanLevel(table, totalXP, count - 1)
  }

  /** The level the threshold table gives a total XP. */
  function LevelOf(totalXP: nat): (level: nat)
    ensures 1 <= level <= MaxLevel
  {
    ScanLevelFacts(LevelThresholds, totalXP, |LevelThresholds|);
    ScanLevel(LevelThresholds, totalXP, |LevelThresholds|)
  }

  lemma {:induction false} ScanLevelFacts(table: seq<nat>, totalXP: nat, count: nat)
    requires count <= |table| && |table| > 0 && table[0] == 0
    ensures 1 <= ScanLevel(table, totalXP, count) <= if count == 0 then 1 else count
    ensures totalXP >= table[ScanLevel(table, totalXP, count) - 1]
    ensures forall j :: ScanLevel(table, totalXP, count) <= j < count ==> totalXP < table[j]
    decreases count
  {
    if count > 0 && totalXP < table[count - 1] {
      ScanLevelFacts(table, totalXP, count - 1);
    }
  }

  /** LevelOf gives the largest i + 1 whose threshold i the XP reaches:
      it lies in [1, 21], its own threshold is reached, and no higher one. */
  lemma LevelOfIsLargest(totalXP: nat)
    ensures 1 <= LevelOf(totalXP) <= MaxLevel
    ensures totalXP >= LevelThresholds[LevelOf(totalXP) - 1]
    ensures forall j :: 0 <= j < MaxLevel && totalXP >= LevelThresholds[j] ==> j + 1 <= LevelOf(totalXP)
  {
    ScanLevelFacts(LevelThresholds, totalXP, |LevelThresholds|);
  }

  /** More XP never gives a lower level. */
  lemma LevelOfMonotone(x: nat, y: nat)
    requires x <= y
    ensures LevelOf(x) <= LevelOf(y)
  {
    LevelOfIsLargest(x);
    LevelOfIsLargest(y);
    var j := LevelOf(x) - 1;
    assert y >= LevelThresholds[j];
  }

  /** A level is the table's answer exactly when the XP lies in its band. */
  lemma LevelOfBand(totalXP: nat, level: nat)
    requires 1 <= level <= MaxLevel
    requires totalXP >= LevelThresholds[level - 1]
    requires level == MaxLevel || totalXP < LevelThresholds[level]
    ensures LevelOf(totalXP) == level
  {
    LevelOfIsLargest(totalXP);
    ThresholdTableShape();
  }

  /** The two level rules on the worked module completion: 165 XP from
      level 1 rolls over to level 2 with 65 left, while the table puts the
      double-counted 330 at level 3. */
  lemma WorkedModuleLevels()
    ensures RollOver(1, 165) == (2, 65)
    ensures LevelOf(330) == 3
  {
    LevelOfBand(330, 3);
  }

  /** Level 1 for 0-99, 2 for 100-249, 3 from 250. */
  lemma LevelOfLowValues()
    ensures LevelOf(0) == 1 && LevelOf(99) == 1
    ensures LevelOf(100) == 2 && LevelOf(249) == 2
    ensures LevelOf(250) == 3 && LevelOf(499) == 3
  {
    assert LevelThresholds[..4] == [0, 100, 250, 500];
    LevelOfBand(0, 1);
    LevelOfBand(99, 1);
    LevelOfBand(100, 2);
    LevelOfBand(249, 2);
    LevelOfBand(250, 3);
    LevelOfBand(499, 3);
  }

  /** Level 20 up to 42999, 21 from 43000. */
  lemma LevelOfTopValues()
    ensures LevelOf(42999) == 20 && LevelOf(43000) == 21
  {
    assert LevelThresholds[19..] == [38500, 43000];
    LevelOfBand(42999, 20);
    LevelOfBand(43000, 21);
  }

  /** calculateLevelFromXP (lib/services/rewardsService.ts:758-770): the
      descending scan of the threshold table. */
  method CalculateLevelFromXP(totalXP: nat) returns (level: nat)
    ensures level == LevelOf(totalXP)
    ensures 1 <= level <= MaxLevel
    ensures totalXP >= LevelThresholds[level - 1]
    ensures forall j :: level <= j < MaxLevel ==> totalXP < LevelThresholds[j]
  {
    var i: int := |LevelThresholds| - 1;
    while i >= 0
      invariant -1 <= i < |LevelThresholds|
      invariant ScanLevel(LevelThresholds, totalXP, i + 1) == LevelOf(totalXP)
    {
      if totalXP >= LevelThresholds[i] {
        ScanLevelFacts(LevelThresholds, totalXP, |LevelThresholds|);
        return i + 1;
      }
      i := i - 1;
    }
    ScanLevelFacts(LevelThresholds, totalXP, |LevelThresholds|);
    return 1;
  }

  /** The two rules disagree: 250 XP from level 1 is level 2 by the
      incremental rule but level 3 by the table; the incremental rule only
      reaches level 3 at 300. */
  lemma LevelRulesDisagree()
    ensures RollOver(1, 250).0 == 2 && LevelOf(250) == 3
    ensures RollOver(1, 300).0 == 3
  {
    LevelOfLowValues();
  }
}
