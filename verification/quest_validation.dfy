/**
 * GPTQuestGenerator.validate_quest (app.py): the structural check a generated
 * quest must pass before it is logged and returned, with Python's semantics
 * for `in`, iteration and indexing, so that a value of an unexpected type
 * yields False, True or a raised TypeError exactly where the code would.
 */
module QuestValidation {
  import opened Wrappers
  import opened PyJson

  const QuestFields: seq<string> :=
    ["quest_id", "title", "narrative", "objectives", "rewards", "game_rules", "progress_tracking"]
  const ObjectiveFields: seq<string> := ["id", "platform", "description", "points", "required"]
  const RewardFields: seq<string> := ["xp", "vouchers", "achievements"]

  /** Either of the objective's optional fields, if present, must be a str. */
  function OptionalStringOk(objective: Json, key: string): (r: Result<bool, PyError>)
    ensures r.Err? ==> r.error == TypeError
    ensures objective.JObj? ==> r == Ok(HasKey(objective.fields, key) ==> Get(objective.fields, key).JStr?)
    ensures !(objective.JObj? || objective.JArr? || objective.JStr?) ==> r == Err(TypeError)
  {
    match Contains(objective, key)
    case Err(e) => Err(e)
    case Ok(false) => Ok(true)
    case Ok(true) =>
      match Subscript(objective, key)
      case Err(e) => Err(e)
      case Ok(v) => Ok(v.JStr?)
  }

  /** The loop body for one objective: Ok(true) when the loop goes on to the next one. */
  function CheckObjective(objective: Json): (r: Result<bool, PyError>)
    ensures r.Err? ==> r.error == TypeError
    ensures r == Ok(true) ==> ContainsAll(objective, ObjectiveFields) == Ok(true)
    ensures !(objective.JObj? || objective.JArr? || objective.JStr?) ==> r == Err(TypeError)
  {
    match ContainsAll(objective, ObjectiveFields)
    case Err(e) => Err(e)
    case Ok(false) => Ok(false)
    case Ok(true) =>
      match OptionalStringOk(objective, "location")
      case Ok(true) => OptionalStringOk(objective, "promotion")
      case other => other
  }

  /** The objectives loop: the first objective that fails or raises decides. */
  function CheckObjectives(objectives: seq<Json>): (r: Result<bool, PyError>)
    ensures r.Err? ==> r.error == TypeError
    ensures r == Ok(true) <==> forall i :: 0 <= i < |objectives| ==> CheckObjective(objectives[i]) == Ok(true)
    // otherwise the first objective that does not pass decides
    ensures r != Ok(true) ==>
      exists i :: 0 <= i < |objectives| && r == CheckObjective(objectives[i]) &&
        forall j :: 0 <= j < i ==> CheckObjective(objectives[j]) == Ok(true)
  {
    if objectives == [] then Ok(true)
    else
      match CheckObjective(objectives[0])
      case Ok(true) => CheckObjectives(objectives[1..])
      case other => other
  }

  /** What validate_quest returns (Ok) or raises (Err) for a quest dict. */
  function ValidationOutcome(quest: seq<(string, Json)>): (r: Result<bool, PyError>)
    // every subscript is guarded by an `in` test, so KeyError is never raised
    ensures r.Err? ==> r.error == TypeError
    ensures r == Ok(true) ==> forall k :: 0 <= k < |QuestFields| ==> HasKey(quest, QuestFields[k])
  {
    if ContainsAll(JObj(quest), QuestFields) != Ok(true) then Ok(false)
    else
      QuestFieldsPresent(quest);
      match Iterate(Get(quest, "objectives"))
      case Err(e) => Err(e)
      case Ok(objectives) =>
        match CheckObjectives(objectives)
        case Ok(true) => ContainsAll(Get(quest, "rewards"), RewardFields)
        case other => other
  }

  lemma QuestFieldsPresent(quest: seq<(string, Json)>)
    requires ContainsAll(JObj(quest), QuestFields) == Ok(true)
    ensures HasKey(quest, "objectives") && HasKey(quest, "rewards")
  {
    ContainsAllOnObject(quest, QuestFields);
    assert QuestFields[3] == "objectives" && QuestFields[4] == "rewards";
  }

  /** validate_quest, written as the code runs it: a loop over the objectives with early returns. */
  method ValidateQuest(quest: seq<(string, Json)>) returns (r: Result<bool, PyError>)
    ensures r == ValidationOutcome(quest)
  {
    if ContainsAll(JObj(quest), QuestFields) != Ok(true) {
      return Ok(false);
    }
    QuestFieldsPresent(quest);
    var items := Iterate(Get(quest, "objectives"));
    if items.Err? {
      return Err(items.error);
    }
    var objectives := items.value;
    for k := 0 to |objectives|
      invariant CheckObjectives(objectives) == CheckObjectives(objectives[k..])
    {
      assert objectives[k..][1..] == objectives[k + 1..];
      var verdict := CheckObjective(objectives[k]);
      if verdict != Ok(true) {
        return verdict;
      }
    }
    var rewards := Get(quest, "rewards");
    return ContainsAll(rewards, RewardFields);
  }

  /** An objective of the intended shape: a dict with the five fields, location and promotion str when present. */
  predicate IsValidObjective(objective: Json) {
    && objective.JObj?
    && (forall k :: 0 <= k < |ObjectiveFields| ==> HasKey(objective.fields, ObjectiveFields[k]))
    && (HasKey(objective.fields, "location") ==> Get(objective.fields, "location").JStr?)
    && (HasKey(objective.fields, "promotion") ==> Get(objective.fields, "promotion").JStr?)
  }

  /**
   * A quest of the intended shape: every required field, a list of valid
   * objectives (possibly empty), and a rewards dict with xp, vouchers and
   * achievements. The types of points and required are not constrained.
   */
  predicate IsValidQuest(quest: seq<(string, Json)>) {
    && (forall k :: 0 <= k < |QuestFields| ==> HasKey(quest, QuestFields[k]))
    && HasKey(quest, "objectives") && HasKey(quest, "rewards")
    && Get(quest, "objectives").JArr?
    && (forall i :: 0 <= i < |Get(quest, "objectives").items| ==> IsValidObjective(Get(quest, "objectives").items[i]))
    && Get(quest, "rewards").JObj?
    && (forall k :: 0 <= k < |RewardFields| ==> HasKey(Get(quest, "rewards").fields, RewardFields[k]))
  }

  /** Quests whose objectives and rewards are dicts inside a list, as the prompt asks for. */
  predicate DictShaped(quest: seq<(string, Json)>) {
    HasKey(quest, "objectives") && HasKey(quest, "rewards") &&
    Get(quest, "objectives").JArr? &&
    (forall i :: 0 <= i < |Get(quest, "objectives").items| ==> Get(quest, "objectives").items[i].JObj?) &&
    Get(quest, "rewards").JObj?
  }

  /** On a dict, the loop body passes exactly the valid objectives and never raises. */
  lemma CheckObjectiveOnDict(objective: Json)
    requires objective.JObj?
    ensures CheckObjective(objective) == Ok(IsValidObjective(objective))
  {
    ContainsAllOnObject(objective.fields, ObjectiveFields);
  }

  /** On a list of dicts, the loop passes exactly when every objective is valid. */
  lemma {:induction false} CheckObjectivesOnDicts(objectives: seq<Json>)
    requires forall i :: 0 <= i < |objectives| ==> objectives[i].JObj?
    ensures CheckObjectives(objectives) == Ok(forall i :: 0 <= i < |objectives| ==> IsValidObjective(objectives[i]))
  {
    if objectives != [] {
      CheckObjectiveOnDict(objectives[0]);
      CheckObjectivesOnDicts(objectives[1..]);
      assert forall i :: 1 <= i < |objectives| ==> objectives[i] == objectives[1..][i - 1];
    }
  }

  /** Every quest of the intended shape is accepted. */
  lemma ValidQuestAccepted(quest: seq<(string, Json)>)
    requires IsValidQuest(quest)
    ensures ValidationOutcome(quest) == Ok(true)
  {
    ContainsAllOnObject(quest, QuestFields);
    QuestFieldsPresent(quest);
    var objectives := Get(quest, "objectives").items;
    CheckObjectivesOnDicts(objectives);
    ContainsAllOnObject(Get(quest, "rewards").fields, RewardFields);
  }

  /** For dict-shaped objectives and rewards the validator never raises, and accepts exactly the valid quests. */
  lemma DictShapedValidation(quest: seq<(string, Json)>)
    requires DictShaped(quest)
    ensures ValidationOutcome(quest) == Ok(IsValidQuest(quest))
  {
    ContainsAllOnObject(quest, QuestFields);
    var objectives := Get(quest, "objectives").items;
    var rewards := Get(quest, "rewards");
    CheckObjectivesOnDicts(objectives);
    ContainsAllOnObject(rewards.fields, RewardFields);
    if ContainsAll(JObj(quest), QuestFields) == Ok(true) {
      assert Iterate(Get(quest, "objectives")) == Ok(objectives);
      if forall i :: 0 <= i < |objectives| ==> IsValidObjective(objectives[i]) {
        assert rewards == JObj(rewards.fields);
      } else {
        assert ValidationOutcome(quest) == Ok(false);
      }
    }
  }

  /** A missing required top-level field rejects the quest without looking further. */
  lemma MissingQuestFieldRejected(quest: seq<(string, Json)>, field: string)
    requires field in QuestFields && !HasKey(quest, field)
    ensures ValidationOutcome(quest) == Ok(false)
  {
    ContainsAllOnObject(quest, QuestFields);
  }

  /** The generator overwrites quest_id with a fresh id before validating, so that field is always present. */
  function AssignQuestId(quest: seq<(string, Json)>, freshId: string): (r: seq<(string, Json)>)
    ensures HasKey(r, "quest_id") && Get(r, "quest_id") == JStr(freshId)
    ensures forall k :: k != "quest_id" ==> (HasKey(r, k) <==> HasKey(quest, k))
    ensures forall k :: k != "quest_id" && HasKey(quest, k) ==> Get(r, k) == Get(quest, k)
  {
    SetKey(quest, "quest_id", JStr(freshId))
  }

  /** An objective that is a list holding the five field names, not a dict. */
  const FieldNameList: Json :=
    JArr([JStr("id"), JStr("platform"), JStr("description"), JStr("points"), JStr("required")])

  /** A quest whose single objective is FieldNameList and whose other fields are well formed. */
  const ListObjectiveQuest: seq<(string, Json)> := [
    ("quest_id", JStr("q")), ("title", JStr("t")), ("narrative", JStr("n")),
    ("objectives", JArr([FieldNameList])),
    ("rewards", JObj([("xp", JNum(1)), ("vouchers", JArr([])), ("achievements", JArr([]))])),
    ("game_rules", JArr([])), ("progress_tracking", JObj([]))]

  /** `in` on a list tests membership, so the list of names passes the loop body. */
  lemma FieldNameListPasses()
    ensures CheckObjective(FieldNameList) == Ok(true)
  {
    assert ContainsAll(FieldNameList, ObjectiveFields[4..]) == Ok(true);
    assert ContainsAll(FieldNameList, ObjectiveFields[3..]) == Ok(true);
    assert ContainsAll(FieldNameList, ObjectiveFields[2..]) == Ok(true);
    assert ContainsAll(FieldNameList, ObjectiveFields[1..]) == Ok(true);
    assert ContainsAll(FieldNameList, ObjectiveFields) == Ok(true);
    assert JStr("location") !in FieldNameList.items && JStr("promotion") !in FieldNameList.items;
  }

  const ListObjectiveRewards: Json :=
    JObj([("xp", JNum(1)), ("vouchers", JArr([])), ("achievements", JArr([]))])

  lemma ListObjectiveQuestFields()
    ensures ContainsAll(JObj(ListObjectiveQuest), QuestFields) == Ok(true)
    ensures HasKey(ListObjectiveQuest, "objectives") && HasKey(ListObjectiveQuest, "rewards")
  {
    var quest := ListObjectiveQuest;
    forall k | 0 <= k < |QuestFields| ensures HasKey(quest, QuestFields[k]) {
      assert quest[k].0 == QuestFields[k];
      HasKeyAt(quest, k);
    }
    ContainsAllOnObject(quest, QuestFields);
    QuestFieldsPresent(quest);
  }

  lemma ListObjectiveQuestParts()
    ensures HasKey(ListObjectiveQuest, "objectives") && Get(ListObjectiveQuest, "objectives") == JArr([FieldNameList])
    ensures HasKey(ListObjectiveQuest, "rewards") && Get(ListObjectiveQuest, "rewards") == ListObjectiveRewards
  {
    var quest := ListObjectiveQuest;
    GetFirst(quest, 3);
    GetFirst(quest, 4);
  }

  lemma ListObjectiveRewardsComplete()
    ensures ContainsAll(ListObjectiveRewards, RewardFields) == Ok(true)
  {
    var fields := ListObjectiveRewards.fields;
    forall k | 0 <= k < |RewardFields| ensures HasKey(fields, RewardFields[k]) {
      assert fields[k].0 == RewardFields[k];
      HasKeyAt(fields, k);
    }
    ContainsAllOnObject(fields, RewardFields);
  }

  /** The objectives loop runs over the one list objective and passes it. */
  lemma ListObjectiveLoopPasses()
    ensures HasKey(ListObjectiveQuest, "objectives")
    ensures Iterate(Get(ListObjectiveQuest, "objectives")) == Ok([FieldNameList])
    ensures CheckObjectives([FieldNameList]) == Ok(true)
  {
    ListObjectiveQuestParts();
    FieldNameListPasses();
    assert [FieldNameList][1..] == [];
  }

  /** As written, the validator accepts the quest whose objective is a list of the five field names. */
  lemma ListObjectiveAccepted()
    ensures ValidationOutcome(ListObjectiveQuest) == Ok(true)
  {
    ListObjectiveQuestFields();
    ListObjectiveQuestParts();
    ListObjectiveLoopPasses();
    ListObjectiveRewardsComplete();
  }

  /** That quest is not of the intended shape: its objective is not a dict. */
  lemma ListObjectiveNotValid()
    ensures !IsValidQuest(ListObjectiveQuest)
  {
    ListObjectiveQuestParts();
    assert !IsValidObjective(Get(ListObjectiveQuest, "objectives").items[0]);
  }

  /**
   * The intended check: the same tests, plus that the objectives form a list,
   * each objective and the rewards are dicts. It accepts exactly the quests of
   * the intended shape, and only quests the original also accepts.
   */
  function ValidateQuestStrict(quest: seq<(string, Json)>): (ok: bool)
    ensures ok <==> IsValidQuest(quest)
    ensures ok ==> ValidationOutcome(quest) == Ok(true)
  {
    ContainsAllOnObject(quest, QuestFields);
    if ContainsAll(JObj(quest), QuestFields) != Ok(true) then false
    else
      QuestFieldsPresent(quest);
      var objectives := Get(quest, "objectives");
      var rewards := Get(quest, "rewards");
      if !objectives.JArr? || !rewards.JObj? then false
      else if exists i :: 0 <= i < |objectives.items| && !objectives.items[i].JObj? then false
      else
        DictShapedValidation(quest);
        ValidationOutcome(quest) == Ok(true)
  }
}
