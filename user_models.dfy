/** The learning-progress records of lib/models/user.ts that the progress
    aggregator reads and writes. Timestamps are not carried. */
module UserModels {

  import opened Outcomes

  /** SkillLevel.level. */
  datatype SkillTier = Novice | Beginner | Intermediate | Advanced | Expert

  datatype SkillLevel = SkillLevel(
    skillId: string,
    skillName: string,
    level: SkillTier,
    score: nat)                    // documented as 0-100

  datatype SubjectProgress = SubjectProgress(
    subjectId: string,
    subjectName: string,
    level: nat,
    xp: nat,
    xpToNextLevel: nat,
    lessonsCompleted: nat,
    totalLessons: nat,
    quizzesPassed: nat,
    averageScore: real,            // a running two-point mean, not an integer
    timeSpent: nat,                // minutes
    streak: nat,
    topicsCompleted: seq<string>,
    currentTopic: Option<string>)

  datatype UserProgress = UserProgress(
    uid: string,
    totalLessonsCompleted: nat,
    totalTimeSpent: nat,           // minutes
    currentStreak: nat,
    longestStreak: nat,
    subjectProgress: map<string, SubjectProgress>,
    skillLevels: map<string, SkillLevel>,
    currentPathId: Option<string>,
    currentLessonId: Option<string>,
    weeklyGoalMinutes: nat,
    weeklyProgressMinutes: nat,
    monthlyGoalLessons: nat,
    monthlyProgressLessons: nat)

  datatype ActivityType =
    | LessonCompletedActivity | QuizTaken | AchievementEarned
    | CareerExplored | GoalSet | StreakMilestone

  /** The activityData the two recorders write. */
  datatype ActivityData =
    | LessonData(lessonId: string, subjectId: string, timeSpent: nat, score: Option<nat>)
    | ModuleData(moduleId: string, subjectId: string, lessonsCompleted: nat, averageScore: nat,
                 totalTimeSpent: nat, skillsGained: seq<string>)

  datatype UserActivity = UserActivity(
    uid: string,
    activityType: ActivityType,
    activityData: ActivityData,
    points: nat,
    xp: nat)
}
