/** app/api/module-completion/route.ts: the POST handler that checks a
    module-completion request, records it in the user's progress and then
    awards its rewards. The parsed JSON body is a Value; a body that is not
    JSON at all is None. */
module ModuleCompletionRoute {

  import opened Outcomes
  import opened JsonValues
  import opened Progression
  import opened RewardsLedger
  import opened UserService

  const MissingFieldsMessage := "Missing required fields: uid, moduleId, subjectId, lessonsCompleted, averageScore, totalTimeSpent"
  const LessonsMessage := "lessonsCompleted must be a non-negative number"
  const ScoreMessage := "averageScore must be a number between 0 and 100"
  const TimeMessage := "totalTimeSpent must be a non-negative number"
  const FailureMessage := "Failed to process module completion"

  /** A property of the destructured body: a non-object has none of them. */
  function Field(body: Value, key: string): (v: Value)
    ensures !body.Obj? ==> v == Undefined
  {
    if body.Obj? then Property(body.fields, key) else Undefined
  }

  /** The first validation: a falsy id or a strictly undefined count. */
  predicate MissingField(body: Value)
  {
    || !Truthy(Field(body, "uid")) || !Truthy(Field(body, "moduleId")) || !Truthy(Field(body, "subjectId"))
    || Field(body, "lessonsCompleted").Undefined? || Field(body, "averageScore").Undefined?
    || Field(body, "totalTimeSpent").Undefined?
  }

  predicate NonNegative(v: Value)
  {
    v.Num? && v.n >= 0.0
  }

  predicate Percent(v: Value)
  {
    v.Num? && 0.0 <= v.n <= 100.0
  }

  datatype Verdict = Throws | Reject(message: string) | Proceed

  /** What the handler does with a parsed body before touching any store:
      destructuring null throws; then the four checks run in order, each
      answering 400 with its own message; otherwise it goes on. The
      skillsGained field is never looked at. */
  function Guard(body: Value): (v: Verdict)
    ensures v == Throws <==> body.Null?
    ensures v == Reject(MissingFieldsMessage) <==> !body.Null? && MissingField(body)
    ensures v == Proceed <==>
              && body.Obj? && !MissingField(body)
              && NonNegative(Field(body, "lessonsCompleted"))
              && Percent(Field(body, "averageScore"))
              && NonNegative(Field(body, "totalTimeSpent"))
    ensures v.Reject? ==> v.message in {MissingFieldsMessage, LessonsMessage, ScoreMessage, TimeMessage}
  {
    if body.Null? then Throws
    else if MissingField(body) then Reject(MissingFieldsMessage)
    else if !NonNegative(Field(body, "lessonsCompleted")) then Reject(LessonsMessage)
    else if !Percent(Field(body, "averageScore")) then Reject(ScoreMessage)
    else if !NonNegative(Field(body, "totalTimeSpent")) then Reject(TimeMessage)
    else Proceed
  }

  /** skillsGained has no influence on the verdict. */
  lemma GuardIgnoresSkills(fields: map<string, Value>, skills: Value)
    ensures Guard(Obj(fields["skillsGained" := skills])) == Guard(Obj(fields))
  {
    var body, body' := Obj(fields), Obj(fields["skillsGained" := skills]);
    forall key | key != "skillsGained"
      ensures Field(body', key) == Field(body, key)
    {
    }
    assert MissingField(body') == MissingField(body);
  }

  /** Edge cases of the checks: zero lessons pass the presence check and
      the range check, an empty uid is missing, a null count is present but
      fails the type check, and a score of exactly 100 is accepted. */
  lemma GuardEdgeCases(fields: map<string, Value>)
    requires Truthy(Property(fields, "uid")) && Truthy(Property(fields, "moduleId"))
    requires Truthy(Property(fields, "subjectId"))
    requires Property(fields, "totalTimeSpent") == Num(30.0)
    ensures Guard(Obj(fields["lessonsCompleted" := Num(0.0)]["averageScore" := Num(100.0)])) == Proceed
    ensures Guard(Obj(fields["lessonsCompleted" := Null]["averageScore" := Num(50.0)])) == Reject(LessonsMessage)
    ensures Guard(Obj(fields["uid" := Str("")])) == Reject(MissingFieldsMessage)
    ensures Guard(Obj(fields["lessonsCompleted" := Num(2.0)]["averageScore" := Num(100.5)])) == Reject(ScoreMessage)
  {
    var ok := Obj(fields["lessonsCompleted" := Num(0.0)]["averageScore" := Num(100.0)]);
    assert Field(ok, "uid") == Property(fields, "uid");
    assert Field(ok, "moduleId") == Property(fields, "moduleId");
    assert Field(ok, "subjectId") == Property(fields, "subjectId");
    assert Field(ok, "totalTimeSpent") == Num(30.0);
    var nullCount := Obj(fields["lessonsCompleted" := Null]["averageScore" := Num(50.0)]);
    assert Field(nullCount, "uid") == Property(fields, "uid");
    assert Field(nullCount, "moduleId") == Property(fields, "moduleId");
    assert Field(nullCount, "subjectId") == Property(fields, "subjectId");
    assert Field(nullCount, "totalTimeSpent") == Num(30.0);
    var high := Obj(fields["lessonsCompleted" := Num(2.0)]["averageScore" := Num(100.5)]);
    assert Field(high, "uid") == Property(fields, "uid");
    assert Field(high, "moduleId") == Property(fields, "moduleId");
    assert Field(high, "subjectId") == Property(fields, "subjectId");
    assert Field(high, "totalTimeSpent") == Num(30.0);
    assert Field(Obj(fields["uid" := Str("")]), "uid") == Str("");
  }

  // ======================= the request as the services see it =======================

  predicate WholeNumber(v: Value)
  {
    v.Num? && v.n >= 0.0 && v.n == v.n.Floor as real
  }

  /** A skill list the services treat as a list: a falsy value (no skills)
      or an array of strings. */
  predicate SkillList(v: Value)
  {
    !Truthy(v) || (v.Arr? && forall i | 0 <= i < |v.items| :: v.items[i].Str?)
  }

  /** The types the services are written for. */
  predicate WellTyped(body: Value)
  {
    && body.Obj?
    && Field(body, "uid").Str? && Field(body, "moduleId").Str? && Field(body, "subjectId").Str?
    && WholeNumber(Field(body, "lessonsCompleted")) && WholeNumber(Field(body, "averageScore"))
    && WholeNumber(Field(body, "totalTimeSpent"))
    && SkillList(Field(body, "skillsGained"))
  }

  datatype ModuleRequest = ModuleRequest(
    uid: string, moduleId: string, subjectId: string,
    lessonsCompleted: nat, averageScore: nat, totalTimeSpent: nat,
    skillsGained: seq<string>)

  function Count(v: Value): (n: nat)
    requires WholeNumber(v)
    ensures n as real == v.n
  {
    v.n.Floor
  }

  /** The skill ids passed on: none for a falsy value, else the strings. */
  function Skills(v: Value): (ids: seq<string>)
    requires SkillList(v)
    ensures !Truthy(v) ==> ids == []
    ensures v.Arr? ==> |ids| == |v.items| && forall i | 0 <= i < |ids| :: v.items[i] == Str(ids[i])
  {
    if !Truthy(v) then [] else seq(|v.items|, i requires 0 <= i < |v.items| => v.items[i].s)
  }

  function RequestOf(body: Value): ModuleRequest
    requires WellTyped(body)
  {
    ModuleRequest(Field(body, "uid").s, Field(body, "moduleId").s, Field(body, "subjectId").s,
                  Count(Field(body, "lessonsCompleted")), Count(Field(body, "averageScore")),
                  Count(Field(body, "totalTimeSpent")), Skills(Field(body, "skillsGained")))
  }

  // ======================= the response =======================

  datatype Detail = InvalidJson | NullBody | RewardsFailure(failure: Failure)

  datatype Response =
    | Failed(status: nat, error: string, details: Option<Detail>)
    | Completed(rewards: ModuleRewardsSummary, skillCoins: nat, xp: nat,
                badges: seq<string>, levelUp: bool, newLevel: Option<nat>)

  /** The answer once both services have run. */
  function Respond(result: Result<ModuleRewardsSummary>): (r: Response)
    ensures result.Err? ==> r == Failed(500, FailureMessage, Some(RewardsFailure(result.error)))
    ensures result.Ok? ==> r.Completed? && r.rewards == result.value
    ensures result.Ok? ==> r.skillCoins == result.value.pointsAwarded && r.xp == result.value.xpAwarded
    ensures result.Ok? ==> r.badges == result.value.badgesEarned
    ensures result.Ok? ==> r.levelUp == result.value.levelUp && r.newLevel == result.value.newLevel
  {
    match result
    case Err(f) => Failed(500, FailureMessage, Some(RewardsFailure(f)))
    case Ok(s) => Completed(s, s.pointsAwarded, s.xpAwarded, s.badgesEarned, s.levelUp, s.newLevel)
  }

  /** The accepted path of POST: the progress update, then the rewards. */
  method Complete(store: ProgressStore, ledger: Ledger, req: ModuleRequest)
    returns (response: Response, rewards: Result<ModuleRewardsSummary>)
    requires store.Valid() && ledger.Valid()
    modifies store`progress, store`activities, ledger`accounts, ledger`transactions, ledger`userBadges
    ensures store.Valid() && ledger.Valid()
    ensures store.progress == old(store.progress)[req.uid := ProgressAfterModule(
              Stored(old(store.progress), req.uid), req.uid, req.moduleId, req.subjectId, req.lessonsCompleted, req.averageScore,
              req.totalTimeSpent, req.skillsGained)]
    ensures store.activities == old(store.activities) + [ModuleActivity(req.uid, req.moduleId, req.subjectId,
              req.lessonsCompleted, req.averageScore, req.totalTimeSpent, req.skillsGained)]
    ensures response == Respond(rewards)
    ensures unchanged(ledger`badges, ledger`storeItems, ledger`redemptions)
    ensures var rw := ModuleReward(req.lessonsCompleted, req.averageScore, req.totalTimeSpent, |req.skillsGained|);
            && (req.uid !in old(ledger.accounts) ==> rewards == Err(RewardsNotFound) && unchanged(ledger))
            && (rewards.Ok? ==> rewards.value.pointsAwarded == rw.points && rewards.value.xpAwarded == rw.xp)
            && (req.uid in old(ledger.accounts) ==>
                  (rewards, ledger.Current()) == ModuleCompletionStep(old(ledger.Current()), ledger.badges, req.uid,
                                                                      req.moduleId, req.subjectId, req.averageScore, rw))
  {
    store.RecordModuleCompletion(req.uid, req.moduleId, req.subjectId, req.lessonsCompleted,
                                 req.averageScore, req.totalTimeSpent, req.skillsGained);
    rewards := ledger.ProcessModuleCompletionRewards(req.uid, req.moduleId, req.subjectId, req.lessonsCompleted,
                                                     req.averageScore, req.totalTimeSpent, req.skillsGained);
    response := Respond(rewards);
  }

  /** POST: a rejected or unreadable request changes nothing; an accepted
      one always updates the progress document first, so a failure of the
      rewards step leaves that update in place. */
  method Post(store: ProgressStore, ledger: Ledger, body: Option<Value>)
    returns (response: Response, ghost rewards: Option<Result<ModuleRewardsSummary>>)
    requires store.Valid() && ledger.Valid()
    requires body.Some? && Guard(body.value).Proceed? ==> WellTyped(body.value)
    modifies store`progress, store`activities, ledger`accounts, ledger`transactions, ledger`userBadges
    ensures store.Valid() && ledger.Valid()
    ensures body.None? ==>
              response == Failed(500, FailureMessage, Some(InvalidJson)) && unchanged(store) && unchanged(ledger)
    ensures body.Some? && Guard(body.value).Throws? ==>
              response == Failed(500, FailureMessage, Some(NullBody)) && unchanged(store) && unchanged(ledger)
    ensures body.Some? && Guard(body.value).Reject? ==>
              response == Failed(400, Guard(body.value).message, None) && unchanged(store) && unchanged(ledger)
    ensures body.Some? && Guard(body.value).Proceed? ==>
              var req := RequestOf(body.value);
              var rw := ModuleReward(req.lessonsCompleted, req.averageScore, req.totalTimeSpent, |req.skillsGained|);
              && store.progress == old(store.progress)[req.uid := ProgressAfterModule(
                   Stored(old(store.progress), req.uid), req.uid, req.moduleId, req.subjectId, req.lessonsCompleted, req.averageScore,
                   req.totalTimeSpent, req.skillsGained)]
              && store.activities == old(store.activities) + [ModuleActivity(req.uid, req.moduleId, req.subjectId,
                   req.lessonsCompleted, req.averageScore, req.totalTimeSpent, req.skillsGained)]
              && rewards.Some? && response == Respond(rewards.value)
              && (req.uid !in old(ledger.accounts) ==> rewards.value == Err(RewardsNotFound) && unchanged(ledger))
              && (rewards.value.Ok? ==> rewards.value.value.pointsAwarded == rw.points
                                        && rewards.value.value.xpAwarded == rw.xp)
              && (req.uid in old(ledger.accounts) ==>
                    (rewards.value, ledger.Current()) == ModuleCompletionStep(old(ledger.Current()), ledger.badges, req.uid,
                                                                              req.moduleId, req.subjectId, req.averageScore, rw))
    ensures unchanged(ledger`badges, ledger`storeItems, ledger`redemptions)
  {
    rewards := None;
    if body.None? {
      return Failed(500, FailureMessage, Some(InvalidJson)), rewards;
    }
    var verdict := Guard(body.value);
    if verdict.Throws? {
      return Failed(500, FailureMessage, Some(NullBody)), rewards;
    } else if verdict.Reject? {
      return Failed(400, verdict.message, None), rewards;
    }
    var req := RequestOf(body.value);
    var result;
    response, result := Complete(store, ledger, req);
    rewards := Some(result);
  }
}
