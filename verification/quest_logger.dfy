/**
 * QuestLogger (app.py): the in-memory quest log, one row per generated or
 * completed quest. Writing the log to its CSV file is not part of this model.
 */
module QuestLogging {
  import opened PyJson

  /** One row of the quest log. `questData` is the dict that `json.dumps` serialises. */
  datatype LogEntry = LogEntry(
    questId: Json,
    customerId: string,
    timestamp: string,
    status: string,
    questData: Json)

  /** The status a row gets when the caller names none. */
  const GeneratedStatus: string := "generated"

  /** `quest_data.get('quest_id', fresh)`: the quest's own id if it has one, else the fresh id. */
  function QuestIdOf(questData: seq<(string, Json)>, freshId: string): (r: Json)
    ensures HasKey(questData, "quest_id") ==> ("quest_id", r) in questData
    ensures !HasKey(questData, "quest_id") ==> r == JStr(freshId)
  {
    if HasKey(questData, "quest_id") then Get(questData, "quest_id") else JStr(freshId)
  }

  class QuestLogger {
    var questLog: seq<LogEntry>

    /** The logger over the rows read from an existing log, or none for a new one. */
    constructor (existing: seq<LogEntry>)
      ensures questLog == existing
    {
      questLog := existing;
    }

    /**
     * log_quest: appends exactly one row for `questData` with the given status,
     * stamped `now`; the id is the quest's own or the fresh one.
     */
    method LogQuest(customerId: string, questData: seq<(string, Json)>, now: string, freshId: string,
                    status: string := GeneratedStatus)
      modifies this
      ensures |questLog| == |old(questLog)| + 1
      ensures questLog[..|old(questLog)|] == old(questLog)
      ensures questLog[|old(questLog)|].customerId == customerId
      ensures questLog[|old(questLog)|].status == status
      ensures questLog[|old(questLog)|].timestamp == now
      ensures questLog[|old(questLog)|].questData == JObj(questData)
      ensures HasKey(questData, "quest_id") ==> questLog[|old(questLog)|].questId == Get(questData, "quest_id")
      ensures !HasKey(questData, "quest_id") ==> questLog[|old(questLog)|].questId == JStr(freshId)
    {
      var newEntry := LogEntry(QuestIdOf(questData, freshId), customerId, now, status, JObj(questData));
      questLog := questLog + [newEntry];
    }
  }

  /**
   * The completion route logs `{'quest_id': quest_id}` with status "completed":
   * the row's id is the route's quest id, never a fresh one.
   */
  lemma CompletionRowKeepsQuestId(questId: string, freshId: string)
    ensures QuestIdOf([("quest_id", JStr(questId))], freshId) == JStr(questId)
  {
  }
}
