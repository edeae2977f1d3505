/** The learning-progress aggregator of lib/services/userService.ts: the
    progress documents keyed by uid and the activity log, with
    createUserProgress, recordLessonCompletion and recordModuleCompletion.
    Each recorder's batch is one method body. */
module UserService {

  import opened Outcomes
  import opened UserModels

  // ======================= display names =======================

  /** JavaScript's \w without the u flag: ASCII letters, digits and '_'. */
  predicate IsWordChar(c: char)
  {
    'a' <= c <= 'z' || 'A' <= c <= 'Z' || '0' <= c <= '9' || c == '_'
  }

  /** toUpperCase on a \w character: only a-z change. */
  function ToUpper(c: char): (u: char)
    ensures IsWordChar(u) <==> IsWordChar(c)
    ensures 'a' <= c <= 'z' ==> 'A' <= u <= 'Z' && u as int == c as int - 32
    ensures !('a' <= c <= 'z') ==> u == c
  {
    if 'a' <= c <= 'z' then (c as int - 32) as char else c
  }

  /** A match of /\b\w/: a word character not preceded by one. */
  predicate WordStart(s: string, i: nat)
    requires i < |s|
  {
    IsWordChar(s[i]) && (i == 0 || !IsWordChar(s[i - 1]))
  }

  /** indexOf('_'), with |s| standing for "not found". */
  function FirstUnderscore(s: string): (k: nat)
    ensures k <= |s|
    ensures k < |s| ==> s[k] == '_'
    ensures forall j :: 0 <= j < k ==> s[j] != '_'
    decreases |s|
  {
    if s == [] || s[0] == '_' then 0 else 1 + FirstUnderscore(s[1..])
  }

  /** The first underscore is the only index with those three properties. */
  lemma FirstUnderscoreUnique(s: string, k: nat)
    requires k <= |s|
    requires k < |s| ==> s[k] == '_'
    requires forall j :: 0 <= j < k ==> s[j] != '_'
    ensures FirstUnderscore(s) == k
  {
    var f := FirstUnderscore(s);
    assert f >= k;
    assert f <= k;
  }

  /** String.replace('_', ' '): the first underscore becomes a space. */
  function ReplaceFirstUnderscore(s: string): (r: string)
    ensures |r| == |s|
  {
    var k := FirstUnderscore(s);
    seq(|s|, i requires 0 <= i < |s| => if i == k then ' ' else s[i])
  }

  /** Only the first underscore changes: position i becomes a space exactly
      when it holds an underscore and none comes before it. */
  lemma ReplaceFirstUnderscoreSpec(s: string)
    ensures forall i :: 0 <= i < |s| ==>
              ReplaceFirstUnderscore(s)[i] == if s[i] == '_' && '_' !in s[..i] then ' ' else s[i]
  {
    var r, k := ReplaceFirstUnderscore(s), FirstUnderscore(s);
    forall i | 0 <= i < |s|
      ensures r[i] == if s[i] == '_' && '_' !in s[..i] then ' ' else s[i]
    {
      if i < k {
        assert r[i] == s[i] != '_';
      } else if i == k {
        assert '_' !in s[..i] by {
          forall j | 0 <= j < i ensures s[..i][j] != '_' { }
        }
      } else {
        assert s[..i][k] == '_';
      }
    }
  }

  /** One position of the splice described below. */
  lemma SpliceAt(s: string, k: nat, i: nat)
    requires k < |s| && i < |s|
    ensures (s[..k] + " " + s[k + 1..])[i] == if i == k then ' ' else s[i]
  {
    if i < k {
      assert (s[..k] + " " + s[k + 1..])[i] == s[..k][i];
    } else if k < i {
      assert (s[..k] + " " + s[k + 1..])[i] == s[k + 1..][i - k - 1];
    }
  }

  /** The same replacement as the string operation performs it: find the
      first underscore, then splice a space in its place. */
  lemma ReplaceFirstUnderscoreSplices(s: string)
    ensures var k := FirstUnderscore(s);
            ReplaceFirstUnderscore(s) == if k < |s| then s[..k] + " " + s[k + 1..] else s
  {
    var r, k := ReplaceFirstUnderscore(s), FirstUnderscore(s);
    if k < |s| {
      var spliced := s[..k] + " " + s[k + 1..];
      forall i | 0 <= i < |s|
        ensures r[i] == spliced[i]
      {
        SpliceAt(s, k, i);
      }
      assert r == spliced;
    } else {
      assert r == s;
    }
  }

  /** replace(/\b\w/g, l => l.toUpperCase()): every word start upper-cased. */
  function CapitalizeWords(s: string): (r: string)
    ensures |r| == |s|
    ensures forall i :: 0 <= i < |s| && !WordStart(s, i) ==> r[i] == s[i]
    ensures forall i :: 0 <= i < |s| && WordStart(s, i) ==> r[i] == ToUpper(s[i])
  {
    seq(|s|, i requires 0 <= i < |s| => if WordStart(s, i) then ToUpper(s[i]) else s[i])
  }

  /** The id-to-display-name rule used for skills and subjects. */
  function DisplayName(id: string): (name: string)
    ensures |name| == |id|
  {
    CapitalizeWords(ReplaceFirstUnderscore(id))
  }

  /** Upper-casing word starts leaves the word structure alone, so a second
      pass changes nothing. */
  lemma CapitalizeWordsIdempotent(s: string)
    ensures CapitalizeWords(CapitalizeWords(s)) == CapitalizeWords(s)
  {
    var r := CapitalizeWords(s);
    forall i | 0 <= i < |s|
      ensures WordStart(r, i) == WordStart(s, i)
    {
      assert IsWordChar(r[i]) == IsWordChar(s[i]);
      if i > 0 {
        assert IsWordChar(r[i - 1]) == IsWordChar(s[i - 1]);
      }
    }
  }

  /** Past an underscore-free prefix the search goes on in what follows. */
  lemma FirstUnderscoreAfterPrefix(prefix: string, rest: string)
    requires '_' !in prefix
    ensures FirstUnderscore(prefix + rest) == |prefix| + FirstUnderscore(rest)
  {
    var s, k := prefix + rest, FirstUnderscore(rest);
    forall j | 0 <= j < |prefix| + k
      ensures s[j] != '_'
    {
      if j < |prefix| {
        assert s[j] == prefix[j];
      } else {
        assert s[j] == rest[j - |prefix|];
      }
    }
    if k < |rest| {
      assert s[|prefix| + k] == rest[k];
    }
    FirstUnderscoreUnique(s, |prefix| + k);
  }

  /** The first underscore of 'algebra_basics' is at index 7. */
  lemma FirstUnderscoreExample()
    ensures FirstUnderscore("algebra_basics") == 7
  {
    assert FirstUnderscore("_basics") == 0;
    FirstUnderscoreAfterPrefix("algebra", "_basics");
    assert "algebra" + "_basics" == "algebra_basics";
  }

  /** The literal slices around index 7 of 'algebra_basics'. */
  lemma AlgebraBasicsSplice()
    ensures "algebra_basics"[..7] + " " + "algebra_basics"[8..] == "algebra basics"
  {
    var s := "algebra_basics";
    assert s[..7] == "algebra";
    assert s[8..] == "basics";
  }

  /** The underscore of 'algebra_basics' becomes a space. */
  lemma ReplaceFirstUnderscoreExample()
    ensures ReplaceFirstUnderscore("algebra_basics") == "algebra basics"
  {
    FirstUnderscoreExample();
    ReplaceFirstUnderscoreSplices("algebra_basics");
    AlgebraBasicsSplice();
  }

  /** Only the first underscore of 'a_b_c' becomes a space. */
  lemma ReplaceOnlyFirstUnderscoreExample()
    ensures ReplaceFirstUnderscore("a_b_c") == "a b_c"
  {
    assert "a_b_c"[1..] == "_b_c";
  }

  /** Word starts are upper-cased; other characters are kept. */
  lemma CapitalizeWordsExample()
    ensures CapitalizeWords("algebra basics") == "Algebra Basics"
  {
    assert WordStart("algebra basics", 0) && WordStart("algebra basics", 8);
  }

  /** 'algebra_basics' is shown as 'Algebra Basics'. */
  lemma DisplayNameExample()
    ensures DisplayName("algebra_basics") == "Algebra Basics"
  {
    ReplaceFirstUnderscoreExample();
    CapitalizeWordsExample();
  }

  // ======================= skills =======================

  /** The tier of a skill score. */
  function TierOf(score: nat): (t: SkillTier)
    ensures t == Expert <==> score >= 80
    ensures t == Advanced <==> 60 <= score < 80
    ensures t == Intermediate <==> 40 <= score < 60
    ensures t == Beginner <==> 20 <= score < 40
    ensures t == Novice <==> score < 20
  {
    if score >= 80 then Expert
    else if score >= 60 then Advanced
    else if score >= 40 then Intermediate
    else if score >= 20 then Beginner
    else Novice
  }

  /** A score raised by a tenth of the module average, capped at 100. */
  function RaisedScore(score: nat, averageScore: nat): (s: nat)
    ensures s <= 100
    ensures score <= 100 ==> s >= score
    ensures s == 100 || s == score + averageScore / 10
  {
    if score + averageScore / 10 < 100 then score + averageScore / 10 else 100
  }

  /** A stored skill is well-formed: its score within 0-100 and its tier
      that of its score. */
  ghost predicate SkillShaped(skill: SkillLevel)
  {
    skill.score <= 100 && skill.level == TierOf(skill.score)
  }

  /** One pass of the skill loop: a skill not yet held starts at novice 0
      under its display name, then its score is raised and its tier set. */
  function GainSkill(skills: map<string, SkillLevel>, skillId: string, averageScore: nat): map<string, SkillLevel>
  {
    var current := if skillId in skills then skills[skillId] else SkillLevel(skillId, DisplayName(skillId), Novice, 0);
    var score := RaisedScore(current.score, averageScore);
    skills[skillId := current.(level := TierOf(score), score := score)]
  }

  /** The skill map after the loop over skillsGained, in order. */
  function ApplySkillGains(skills: map<string, SkillLevel>, skillIds: seq<string>, averageScore: nat): map<string, SkillLevel>
    decreases |skillIds|
  {
    if skillIds == [] then skills
    else GainSkill(ApplySkillGains(skills, skillIds[..|skillIds| - 1], averageScore), skillIds[|skillIds| - 1], averageScore)
  }

  /** Only the skills named are touched, each one ends well-formed, a new
      one starts under its display name, and an in-range score never falls. */
  lemma {:induction false} ApplySkillGainsFacts(skills: map<string, SkillLevel>, skillIds: seq<string>, averageScore: nat)
    ensures forall k :: k in ApplySkillGains(skills, skillIds, averageScore) <==> k in skills || k in skillIds
    ensures forall k | k in skills && k !in skillIds :: ApplySkillGains(skills, skillIds, averageScore)[k] == skills[k]
    ensures forall k | k in skillIds :: SkillShaped(ApplySkillGains(skills, skillIds, averageScore)[k])
    ensures forall k | k in skillIds && k !in skills ::
              ApplySkillGains(skills, skillIds, averageScore)[k].skillName == DisplayName(k)
    ensures forall k | k in skillIds && k in skills && skills[k].score <= 100 ::
              ApplySkillGains(skills, skillIds, averageScore)[k].score >= skills[k].score
    decreases |skillIds|
  {
    if skillIds != [] {
      var prefix := skillIds[..|skillIds| - 1];
      var last := skillIds[|skillIds| - 1];
      ApplySkillGainsFacts(skills, prefix, averageScore);
      assert skillIds == prefix + [last];
      assert forall k :: k in skillIds <==> k in prefix || k == last;
      var before := ApplySkillGains(skills, prefix, averageScore);
      var after := ApplySkillGains(skills, skillIds, averageScore);
      assert after == GainSkill(before, last, averageScore);
      forall k | k in skillIds && k in skills && skills[k].score <= 100
        ensures after[k].score >= skills[k].score
      {
        if k != last {
          assert after[k] == before[k];
        }
      }
    }
  }

  // ======================= subjects =======================

  /** A subject document is well-formed: its level that of its XP, and
      xpToNextLevel the distance to the next hundred, within 1-100. */
  ghost predicate SubjectShaped(subject: SubjectProgress)
  {
    && subject.level == subject.xp / 100 + 1
    && subject.xp + subject.xpToNextLevel == subject.level * 100
    && 1 <= subject.xpToNextLevel <= 100
  }

  /** The entry a subject seen for the first time starts from. */
  function DefaultSubject(subjectId: string): (s: SubjectProgress)
    ensures SubjectShaped(s) && s.totalLessons == 50 && s.topicsCompleted == []
  {
    SubjectProgress(subjectId, DisplayName(subjectId), 1, 0, 100, 0, 50, 0, 0.0, 0, 0, [], None)
  }

  /** The rewritten subject entry. The entry is replaced as a whole, so an
      old currentTopic is dropped. */
  function UpdatedSubject(current: SubjectProgress, subjectId: string, moduleId: string,
                          lessonsCompleted: nat, averageScore: nat, totalTimeSpent: nat): (s: SubjectProgress)
    ensures SubjectShaped(s)
    ensures s.xp == current.xp + 20 * lessonsCompleted
    ensures s.level >= 1 && s.xp < s.level * 100
    ensures s.lessonsCompleted == current.lessonsCompleted + lessonsCompleted
    ensures s.timeSpent == current.timeSpent + totalTimeSpent
    ensures s.topicsCompleted == current.topicsCompleted + [moduleId]
    ensures s.totalLessons == (if current.totalLessons == 0 then 50 else current.totalLessons)
    ensures s.quizzesPassed == current.quizzesPassed && s.streak == current.streak
    ensures current.averageScore > 0.0 ==> s.averageScore == (current.averageScore + averageScore as real) / 2.0
    ensures current.averageScore <= 0.0 ==> s.averageScore == averageScore as real
    ensures s.subjectId == subjectId && s.subjectName == DisplayName(subjectId) && s.currentTopic == None
  {
    var xp := current.xp + lessonsCompleted * 20;
    var level := xp / 100 + 1;
    SubjectProgress(
      subjectId, DisplayName(subjectId), level, xp, level * 100 - xp,
      current.lessonsCompleted + lessonsCompleted,
      if current.totalLessons == 0 then 50 else current.totalLessons,
      current.quizzesPassed,
      if current.averageScore > 0.0 then (current.averageScore + averageScore as real) / 2.0 else averageScore as real,
      current.timeSpent + totalTimeSpent,
      current.streak,
      current.topicsCompleted + [moduleId],
      None)
  }

  /** The subject map with the module's subject rewritten. */
  function SubjectsAfterModule(subjects: map<string, SubjectProgress>, subjectId: string, moduleId: string,
                               lessonsCompleted: nat, averageScore: nat, totalTimeSpent: nat): map<string, SubjectProgress>
  {
    var current := if subjectId in subjects then subjects[subjectId] else DefaultSubject(subjectId);
    subjects[subjectId := UpdatedSubject(current, subjectId, moduleId, lessonsCompleted, averageScore, totalTimeSpent)]
  }

  /** Only the module's subject entry changes; it is added if new. */
  lemma SubjectsAfterModuleKeepsOthers(subjects: map<string, SubjectProgress>, subjectId: string, moduleId: string,
                                       lessonsCompleted: nat, averageScore: nat, totalTimeSpent: nat)
    ensures var r := SubjectsAfterModule(subjects, subjectId, moduleId, lessonsCompleted, averageScore, totalTimeSpent);
            && (forall k :: k in r <==> k in subjects || k == subjectId)
            && (forall k | k in subjects && k != subjectId :: r[k] == subjects[k])
  {
  }

  /** The module's subject ends well-formed with the module appended to
      its topics. */
  lemma SubjectsAfterModuleEntry(subjects: map<string, SubjectProgress>, subjectId: string, moduleId: string,
                                 lessonsCompleted: nat, averageScore: nat, totalTimeSpent: nat)
    ensures var r := SubjectsAfterModule(subjects, subjectId, moduleId, lessonsCompleted, averageScore, totalTimeSpent);
            && subjectId in r
            && SubjectShaped(r[subjectId])
            && r[subjectId].topicsCompleted
               == (if subjectId in subjects then subjects[subjectId].topicsCompleted else []) + [moduleId]
  {
  }

  // ======================= documents =======================

  /** A progress document is well-formed in every skill and subject. */
  ghost predicate ProgressShaped(p: UserProgress)
  {
    && (forall k | k in p.skillLevels :: SkillShaped(p.skillLevels[k]))
    && (forall k | k in p.subjectProgress :: SubjectShaped(p.subjectProgress[k]))
  }

  /** createUserProgress: weekly goal 120 minutes, monthly goal 16 lessons. */
  function NewProgress(uid: string): (p: UserProgress)
    ensures ProgressShaped(p) && p.uid == uid
    ensures p.weeklyGoalMinutes == 120 && p.monthlyGoalLessons == 16
  {
    UserProgress(uid, 0, 0, 0, 0, map[], map[], None, None, 120, 0, 16, 0)
  }

  /** The document recordModuleCompletion creates when none exists:
      weekly goal 300 minutes, monthly goal 20 lessons. */
  function ModuleDefaultProgress(uid: string): (p: UserProgress)
    ensures ProgressShaped(p) && p.uid == uid
    ensures p.weeklyGoalMinutes == 300 && p.monthlyGoalLessons == 20
  {
    UserProgress(uid, 0, 0, 0, 0, map[], map[], None, None, 300, 0, 20, 0)
  }

  /** The document after recordModuleCompletion, from the stored one if
      any. An existing document has its totals incremented; a new one has
      them set to the module's lessons and time. */
  function ProgressAfterModule(stored: Option<UserProgress>, uid: string, moduleId: string, subjectId: string,
                               lessonsCompleted: nat, averageScore: nat, totalTimeSpent: nat,
                               skillsGained: seq<string>): UserProgress
  {
    var base := if stored.Some? then stored.value else ModuleDefaultProgress(uid);
    base.(totalLessonsCompleted := if stored.Some? then base.totalLessonsCompleted + lessonsCompleted else lessonsCompleted,
          totalTimeSpent := if stored.Some? then base.totalTimeSpent + totalTimeSpent else totalTimeSpent,
          skillLevels := ApplySkillGains(base.skillLevels, skillsGained, averageScore),
          subjectProgress := SubjectsAfterModule(base.subjectProgress, subjectId, moduleId,
                                                 lessonsCompleted, averageScore, totalTimeSpent))
  }

  /** recordModuleCompletion keeps a well-formed document well-formed, and
      the document it creates is well-formed too. */
  lemma ProgressAfterModuleShaped(stored: Option<UserProgress>, uid: string, moduleId: string, subjectId: string,
                                  lessonsCompleted: nat, averageScore: nat, totalTimeSpent: nat,
                                  skillsGained: seq<string>)
    requires stored.Some? ==> ProgressShaped(stored.value)
    ensures ProgressShaped(ProgressAfterModule(stored, uid, moduleId, subjectId, lessonsCompleted, averageScore,
                                               totalTimeSpent, skillsGained))
    ensures ProgressAfterModule(stored, uid, moduleId, subjectId, lessonsCompleted, averageScore,
                                totalTimeSpent, skillsGained).uid == if stored.Some? then stored.value.uid else uid
  {
    var base := if stored.Some? then stored.value else ModuleDefaultProgress(uid);
    var p := ProgressAfterModule(stored, uid, moduleId, subjectId, lessonsCompleted, averageScore, totalTimeSpent, skillsGained);
    ApplySkillGainsFacts(base.skillLevels, skillsGained, averageScore);
    SubjectsAfterModuleKeepsOthers(base.subjectProgress, subjectId, moduleId, lessonsCompleted, averageScore, totalTimeSpent);
    SubjectsAfterModuleEntry(base.subjectProgress, subjectId, moduleId, lessonsCompleted, averageScore, totalTimeSpent);
    assert p.skillLevels == ApplySkillGains(base.skillLevels, skillsGained, averageScore);
    assert p.subjectProgress == SubjectsAfterModule(base.subjectProgress, subjectId, moduleId, lessonsCompleted, averageScore, totalTimeSpent);
    assert ProgressShaped(base);
    forall k | k in p.skillLevels
      ensures SkillShaped(p.skillLevels[k])
    {
      if k !in skillsGained {
        assert p.skillLevels[k] == base.skillLevels[k];
      }
    }
    forall k | k in p.subjectProgress
      ensures SubjectShaped(p.subjectProgress[k])
    {
      if k != subjectId {
        assert p.subjectProgress[k] == base.subjectProgress[k];
      }
    }
  }

  /** The totals grow by the module's lessons and time: from 0 for a new
      document, which carries the 300-minute and 20-lesson goals; an
      existing document keeps its goals, streaks and current path. */
  lemma ProgressAfterModuleTotals(stored: Option<UserProgress>, uid: string, moduleId: string, subjectId: string,
                                  lessonsCompleted: nat, averageScore: nat, totalTimeSpent: nat,
                                  skillsGained: seq<string>)
    ensures var p := ProgressAfterModule(stored, uid, moduleId, subjectId, lessonsCompleted, averageScore,
                                         totalTimeSpent, skillsGained);
            && (stored.None? ==> p.totalLessonsCompleted == lessonsCompleted && p.totalTimeSpent == totalTimeSpent
                                 && p.weeklyGoalMinutes == 300 && p.monthlyGoalLessons == 20 && p.uid == uid)
            && (stored.Some? ==>
                  && p.totalLessonsCompleted == stored.value.totalLessonsCompleted + lessonsCompleted
                  && p.totalTimeSpent == stored.value.totalTimeSpent + totalTimeSpent
                  && p.(totalLessonsCompleted := 0, totalTimeSpent := 0, skillLevels := map[], subjectProgress := map[])
                     == stored.value.(totalLessonsCompleted := 0, totalTimeSpent := 0, skillLevels := map[], subjectProgress := map[]))
  {
  }

  /** Only the module's subject and the skills named change: other entries
      keep their values, the subject's topics only grow, and every skill
      named is present with a score of at most 100. */
  lemma ProgressAfterModuleEntries(stored: Option<UserProgress>, uid: string, moduleId: string, subjectId: string,
                                   lessonsCompleted: nat, averageScore: nat, totalTimeSpent: nat,
                                   skillsGained: seq<string>)
    ensures var p := ProgressAfterModule(stored, uid, moduleId, subjectId, lessonsCompleted, averageScore,
                                         totalTimeSpent, skillsGained);
            var base := if stored.Some? then stored.value else ModuleDefaultProgress(uid);
            && (forall k :: k in p.subjectProgress <==> k in base.subjectProgress || k == subjectId)
            && (forall k | k in base.subjectProgress && k != subjectId :: p.subjectProgress[k] == base.subjectProgress[k])
            && (subjectId in base.subjectProgress ==>
                  p.subjectProgress[subjectId].topicsCompleted == base.subjectProgress[subjectId].topicsCompleted + [moduleId])
            && (forall k :: k in p.skillLevels <==> k in base.skillLevels || k in skillsGained)
            && (forall k | k in base.skillLevels && k !in skillsGained :: p.skillLevels[k] == base.skillLevels[k])
            && (forall k | k in skillsGained :: p.skillLevels[k].score <= 100)
  {
    var base := if stored.Some? then stored.value else ModuleDefaultProgress(uid);
    var p := ProgressAfterModule(stored, uid, moduleId, subjectId, lessonsCompleted, averageScore, totalTimeSpent, skillsGained);
    ApplySkillGainsFacts(base.skillLevels, skillsGained, averageScore);
    SubjectsAfterModuleKeepsOthers(base.subjectProgress, subjectId, moduleId, lessonsCompleted, averageScore, totalTimeSpent);
    SubjectsAfterModuleEntry(base.subjectProgress, subjectId, moduleId, lessonsCompleted, averageScore, totalTimeSpent);
    assert p.skillLevels == ApplySkillGains(base.skillLevels, skillsGained, averageScore);
    assert p.subjectProgress == SubjectsAfterModule(base.subjectProgress, subjectId, moduleId, lessonsCompleted, averageScore, totalTimeSpent);
  }

  /** The activity recordModuleCompletion logs: 10 points and 20 XP per
      lesson. */
  function ModuleActivity(uid: string, moduleId: string, subjectId: string, lessonsCompleted: nat,
                          averageScore: nat, totalTimeSpent: nat, skillsGained: seq<string>): (a: UserActivity)
    ensures a.points == 10 * lessonsCompleted && a.xp == 20 * lessonsCompleted
    ensures a.activityType == LessonCompletedActivity && a.uid == uid
  {
    UserActivity(uid, LessonCompletedActivity,
                 ModuleData(moduleId, subjectId, lessonsCompleted, averageScore, totalTimeSpent, skillsGained),
                 lessonsCompleted * 10, lessonsCompleted * 20)
  }

  // ======================= the store =======================

  /** The document stored under a uid, if any. */
  function Stored(progress: map<string, UserProgress>, uid: string): (stored: Option<UserProgress>)
    ensures stored.Some? <==> uid in progress
    ensures stored.Some? ==> stored.value == progress[uid]
  {
    if uid in progress then Some(progress[uid]) else None
  }

  /** Every document is filed under its own uid and well-formed. */
  ghost predicate StoreShaped(progress: map<string, UserProgress>)
  {
    forall uid | uid in progress :: progress[uid].uid == uid && ProgressShaped(progress[uid])
  }

  /** Filing a well-formed document under its own uid keeps the store
      well-formed. */
  lemma StoreShapedUpdate(progress: map<string, UserProgress>, uid: string, p: UserProgress)
    requires StoreShaped(progress) && p.uid == uid && ProgressShaped(p)
    ensures StoreShaped(progress[uid := p])
  {
  }

  /** Recording a module completion keeps the store well-formed. */
  lemma RecordModuleKeepsStore(progress: map<string, UserProgress>, uid: string, moduleId: string, subjectId: string,
                               lessonsCompleted: nat, averageScore: nat, totalTimeSpent: nat, skillsGained: seq<string>)
    requires StoreShaped(progress)
    ensures StoreShaped(progress[uid := ProgressAfterModule(Stored(progress, uid), uid, moduleId, subjectId,
                                                            lessonsCompleted, averageScore, totalTimeSpent, skillsGained)])
  {
    var stored := Stored(progress, uid);
    ProgressAfterModuleShaped(stored, uid, moduleId, subjectId, lessonsCompleted, averageScore, totalTimeSpent, skillsGained);
    StoreShapedUpdate(progress, uid, ProgressAfterModule(stored, uid, moduleId, subjectId,
                                                         lessonsCompleted, averageScore, totalTimeSpent, skillsGained));
  }

  class ProgressStore {
    var progress: map<string, UserProgress>
    var activities: seq<UserActivity>

    ghost predicate Valid()
      reads this
    {
      StoreShaped(progress)
    }

    constructor ()
      ensures Valid() && progress == map[] && activities == []
    {
      progress, activities := map[], [];
    }

    /** createUserProgress: writes (or overwrites) the initial document. */
    method CreateUserProgress(uid: string) returns (p: UserProgress)
      requires Valid()
      modifies this`progress
      ensures Valid()
      ensures p == NewProgress(uid) && progress == old(progress)[uid := p]
    {
      p := NewProgress(uid);
      progress := progress[uid := p];
    }

    /** recordLessonCompletion: one batch adding a lesson and its time to the
        totals and logging a lesson activity worth 10 points and 20 XP; the
        batch fails when the document is missing. */
    method RecordLessonCompletion(uid: string, lessonId: string, subjectId: string, timeSpent: nat, score: Option<nat>)
      returns (outcome: Outcome)
      requires Valid()
      modifies this`progress, this`activities
      ensures Valid()
      ensures uid !in old(progress) ==> outcome == Fail(ProgressNotFound) && unchanged(this)
      ensures uid in old(progress) ==>
                var p := old(progress)[uid];
                && outcome == Pass
                && progress == old(progress)[uid := p.(totalLessonsCompleted := p.totalLessonsCompleted + 1,
                                                       totalTimeSpent := p.totalTimeSpent + timeSpent)]
                && activities == old(activities)
                     + [UserActivity(uid, LessonCompletedActivity, LessonData(lessonId, subjectId, timeSpent, score), 10, 20)]
    {
      if uid !in progress {
        return Fail(ProgressNotFound);
      }
      var p := progress[uid];
      progress := progress[uid := p.(totalLessonsCompleted := p.totalLessonsCompleted + 1,
                                     totalTimeSpent := p.totalTimeSpent + timeSpent)];
      activities := activities + [UserActivity(uid, LessonCompletedActivity, LessonData(lessonId, subjectId, timeSpent, score), 10, 20)];
      outcome := Pass;
    }

    /** recordModuleCompletion: creates the default document if none
        exists, updates the skills named, rewrites the subject entry, sets or
        increments the totals, and logs the module activity, in one batch. */
    method RecordModuleCompletion(uid: string, moduleId: string, subjectId: string,
                                  lessonsCompleted: nat, averageScore: nat, totalTimeSpent: nat,
                                  skillsGained: seq<string>)
      requires Valid()
      modifies this`progress, this`activities
      ensures Valid()
      ensures progress == old(progress)[uid := ProgressAfterModule(
                Stored(old(progress), uid), uid, moduleId, subjectId, lessonsCompleted, averageScore, totalTimeSpent, skillsGained)]
      ensures activities == old(activities)
                + [ModuleActivity(uid, moduleId, subjectId, lessonsCompleted, averageScore, totalTimeSpent, skillsGained)]
    {
      RecordModuleKeepsStore(progress, uid, moduleId, subjectId, lessonsCompleted, averageScore, totalTimeSpent, skillsGained);
      var updated := ModuleProgress(Stored(progress, uid), uid, moduleId, subjectId, lessonsCompleted, averageScore,
                                    totalTimeSpent, skillsGained);
      progress := progress[uid := updated];
      activities := activities + [ModuleActivity(uid, moduleId, subjectId, lessonsCompleted, averageScore, totalTimeSpent, skillsGained)];
    }
  }

  /** The document recordModuleCompletion writes: the stored one or the
      default, with the skills updated, the subject entry rewritten and the
      totals incremented (or set, for a new document). */
  method ModuleProgress(stored: Option<UserProgress>, uid: string, moduleId: string, subjectId: string,
                        lessonsCompleted: nat, averageScore: nat, totalTimeSpent: nat, skillsGained: seq<string>)
    returns (updated: UserProgress)
    ensures updated == ProgressAfterModule(stored, uid, moduleId, subjectId, lessonsCompleted, averageScore,
                                           totalTimeSpent, skillsGained)
  {
    var current := if stored.Some? then stored.value else ModuleDefaultProgress(uid);
    var skills := UpdateSkillLevels(current.skillLevels, skillsGained, averageScore);

    var subjects := current.subjectProgress;
    var subject := if subjectId in subjects then subjects[subjectId] else DefaultSubject(subjectId);
    subjects := subjects[subjectId := UpdatedSubject(subject, subjectId, moduleId, lessonsCompleted, averageScore, totalTimeSpent)];

    updated := current.(totalLessonsCompleted := if stored.Some? then current.totalLessonsCompleted + lessonsCompleted
                                                 else lessonsCompleted,
                        totalTimeSpent := if stored.Some? then current.totalTimeSpent + totalTimeSpent else totalTimeSpent,
                        skillLevels := skills, subjectProgress := subjects);
  }

  /** The skill loop of recordModuleCompletion, updating a copy of the
      stored skill map entry by entry. */
  method UpdateSkillLevels(skills: map<string, SkillLevel>, skillsGained: seq<string>, averageScore: nat)
    returns (updated: map<string, SkillLevel>)
    ensures updated == ApplySkillGains(skills, skillsGained, averageScore)
  {
    updated := skills;
    var i := 0;
    while i < |skillsGained|
      invariant 0 <= i <= |skillsGained|
      invariant updated == ApplySkillGains(skills, skillsGained[..i], averageScore)
    {
      var skillId := skillsGained[i];
      ghost var before := updated;
      var current := if skillId in updated then updated[skillId] else SkillLevel(skillId, DisplayName(skillId), Novice, 0);
      var score := RaisedScore(current.score, averageScore);
      updated := updated[skillId := current.(level := TierOf(score), score := score)];
      assert updated == GainSkill(before, skillId, averageScore);
      assert skillsGained[..i + 1][..i] == skillsGained[..i];
      i := i + 1;
    }
    assert skillsGained[..i] == skillsGained;
  }
}
