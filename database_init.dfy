/** lib/database/initialize.ts: the default badge and store catalogs the
    database is seeded with, and cleanObject, which strips undefined and
    null values from a document before it is written. */
module DatabaseInit {

  import opened Outcomes
  import opened RewardsModels
  import opened JsonValues

  // ======================= cleanObject =======================

  /** An object with a numeric 'seconds' property is taken for a Timestamp. */
  predicate TimestampLike(fields: map<string, Value>)
  {
    "seconds" in fields && fields["seconds"].Num?
  }

  /** A value cleanObject descends into: a plain object, not an array and
      not a Timestamp. */
  predicate Nested(v: Value)
  {
    v.Obj? && !TimestampLike(v.fields)
  }

  /** cleanObject: drops every undefined or null property, cleans nested
      plain objects, and copies everything else as it is. */
  function CleanObject(fields: map<string, Value>): (r: map<string, Value>)
    ensures forall k :: k in r <==> k in fields && !Absent(fields[k])
    ensures forall k | k in r && !Nested(fields[k]) :: r[k] == fields[k]
    ensures forall k | k in r && Nested(fields[k]) :: r[k].Obj?
    decreases Obj(fields), 0
  {
    map k | k in fields && !Absent(fields[k]) :: CleanValue(fields[k])
  }

  /** One property value as cleanObject copies it. */
  function CleanValue(v: Value): Value
    decreases v, 1
  {
    if Nested(v) then Obj(CleanObject(v.fields)) else v
  }

  /** No undefined or null property at any depth reachable through plain
      objects. */
  ghost predicate Clean(fields: map<string, Value>)
    decreases Obj(fields), 0
  {
    forall k | k in fields :: !Absent(fields[k]) && CleanInside(fields[k])
  }

  ghost predicate CleanInside(v: Value)
    decreases v, 1
  {
    Nested(v) ==> Clean(v.fields)
  }

  /** The output of cleanObject is clean at every depth. */
  lemma {:induction false} CleanObjectIsClean(fields: map<string, Value>)
    ensures Clean(CleanObject(fields))
    decreases Obj(fields)
  {
    var r := CleanObject(fields);
    forall k | k in r
      ensures CleanInside(r[k])
    {
      if Nested(fields[k]) {
        assert fields[k] == Obj(fields[k].fields);
        CleanObjectIsClean(fields[k].fields);
        assert r[k] == CleanValue(fields[k]) == Obj(CleanObject(fields[k].fields));
      }
    }
  }

  /** A clean object is left as it is. */
  lemma {:induction false} CleanObjectFixesClean(fields: map<string, Value>)
    requires Clean(fields)
    ensures CleanObject(fields) == fields
    decreases Obj(fields)
  {
    var r := CleanObject(fields);
    forall k | k in fields
      ensures r[k] == fields[k]
    {
      if Nested(fields[k]) {
        assert fields[k] == Obj(fields[k].fields);
        CleanObjectFixesClean(fields[k].fields);
      }
    }
  }

  /** Cleaning twice gives the same result as cleaning once. */
  lemma CleanObjectIdempotent(fields: map<string, Value>)
    ensures CleanObject(CleanObject(fields)) == CleanObject(fields)
  {
    CleanObjectIsClean(fields);
    CleanObjectFixesClean(CleanObject(fields));
  }

  /** A nested object that loses every property is kept as {}. */
  lemma CleanObjectKeepsEmptiedObject()
    ensures CleanObject(map["meta" := Obj(map["note" := Null])]) == map["meta" := Obj(map[])]
  {
    assert CleanObject(map["note" := Null]) == map[];
    assert Nested(Obj(map["note" := Null]));
  }

  /** An array holding null is copied, not cleaned; undefined is dropped. */
  lemma CleanObjectCopiesArrays()
    ensures CleanObject(map["list" := Arr([Null]), "gone" := Undefined]) == map["list" := Arr([Null])]
  {
  }

  /** A Timestamp is not entered: its null property stays. */
  lemma CleanObjectSkipsTimestamps()
    ensures CleanObject(map["at" := Obj(map["seconds" := Num(1.0), "extra" := Null])])
            == map["at" := Obj(map["seconds" := Num(1.0), "extra" := Null])]
  {
    assert !Nested(Obj(map["seconds" := Num(1.0), "extra" := Null]));
  }

  // ======================= default catalogs =======================

  /** defaultBadges, in order. */
  const DefaultBadges: seq<Badge> := [
    Badge("First Steps", "Complete your first lesson", Learning, "/badges/first-steps.png", "#4CAF50", Common,
          [BadgeRequirement(LessonCount, 1, Some(GreaterThan))], false, 50, 100, true, false),
    Badge("Scholar", "Complete 10 lessons", Learning, "/badges/scholar.png", "#2196F3", Uncommon,
          [BadgeRequirement(LessonCount, 10, Some(GreaterThan))], false, 100, 200, true, false),
    Badge("Quiz Master", "Pass 5 quizzes with perfect scores", AchievementCategory, "/badges/quiz-master.png", "#FF9800", Rare,
          [BadgeRequirement(PerfectQuizzes, 5, Some(GreaterThan))], false, 200, 400, true, false),
    Badge("Streak Warrior", "Maintain a 7-day learning streak", AchievementCategory, "/badges/streak-warrior.png", "#E91E63", Rare,
          [BadgeRequirement(StreakDays, 7, Some(GreaterThan))], false, 150, 300, true, false),
    Badge("Career Explorer", "Explore 5 different career paths", Career, "/badges/career-explorer.png", "#9C27B0", Uncommon,
          [BadgeRequirement(CareerExploration, 5, Some(GreaterThan))], false, 100, 200, true, false),
    Badge("Time Master", "Spend 10 hours learning", Learning, "/badges/time-master.png", "#607D8B", Epic,
          [BadgeRequirement(TimeSpent, 600, Some(GreaterThan))], false, 300, 500, true, false)
  ]

  /** defaultStoreItems, in order. */
  const DefaultStoreItems: seq<StoreItem> := [
    StoreItem("Vodacom 1GB Data Bundle", "1GB data bundle for Vodacom networks", MobileData, 500, Some(50),
              true, None, false, None, DataBundle, Some(Vodacom)),
    StoreItem("MTN 2GB Data Bundle", "2GB data bundle for MTN networks", MobileData, 800, Some(80),
              true, None, false, None, DataBundle, Some(Mtn)),
    StoreItem("R20 Airtime (Any Network)", "R20 airtime voucher for any South African network", Digital, 400, Some(20),
              true, None, false, None, Airtime, Some(OtherProvider)),
    StoreItem("R50 Airtime (Any Network)", "R50 airtime voucher for any South African network", Digital, 1000, Some(50),
              true, None, false, None, Airtime, Some(OtherProvider)),
    StoreItem("Premium Lesson Access (1 Month)", "Unlock premium lessons and advanced content for 1 month", Educational, 1500, Some(100),
              true, None, false, None, CourseAccess, None),
    StoreItem("EduFeed T-Shirt", "Stylish EduFeed branded t-shirt - show your learning pride!", Physical, 2500, Some(250),
              true, None, false, None, Merchandise, None),
    StoreItem("Takealot R100 Voucher", "R100 shopping voucher for Takealot.com", Digital, 2500, Some(100),
              true, Some(50), true, Some(10), Voucher, None)
  ]

  /** Six badges, each active and not secret, each with one 'greater_than'
      requirement and positive point and XP rewards. */
  lemma DefaultBadgesFacts()
    ensures |DefaultBadges| == 6
    ensures forall i :: 0 <= i < |DefaultBadges| ==>
              var b := DefaultBadges[i];
              && b.isActive && !b.isSecret
              && |b.requirements| == 1 && b.requirements[0].condition == Some(GreaterThan)
              && b.pointsReward > 0 && b.xpReward > 0
  {
  }

  /** Every item costs points; only the Takealot voucher is limited, with 50
      in stock from level 10. */
  lemma DefaultStoreItemsFacts()
    ensures |DefaultStoreItems| == 7
    ensures forall i :: 0 <= i < |DefaultStoreItems| ==> DefaultStoreItems[i].pointsCost > 0
    ensures forall i :: 0 <= i < |DefaultStoreItems| ==> (DefaultStoreItems[i].isLimited <==> i == 6)
    ensures DefaultStoreItems[6].name == "Takealot R100 Voucher"
    ensures DefaultStoreItems[6].stockQuantity == Some(50) && DefaultStoreItems[6].minimumLevel == Some(10)
  {
  }
}
