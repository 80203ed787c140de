/**
 * UserContextManager (app.py): the user table held in memory, the context
 * lookup for one customer and the statistics update after a quest. Reading
 * and writing the CSV file are not part of this model; the table is a
 * sequence of rows.
 */
module UserContexts {
  import opened Wrappers

  /** One row of the user table: the columns the service reads and writes. */
  datatype UserRow = UserRow(
    customerId: string,
    foodTreatment: string,
    rideTreatment: string,
    carTreatment: string,
    rank1: string,
    rank2: string,
    rank3: string,
    ridePredictionPlace: string,
    carPredictionPlace: string,
    foodPredictionPlace: string,
    completedQuests: nat,
    questCompletionRate: real,
    lastQuestDate: string)

  datatype Promotions = Promotions(food: string, ride: string, car: string)
  datatype PaymentPreferences = PaymentPreferences(rank1: string, rank2: string, rank3: string)
  datatype FavoritePlaces = FavoritePlaces(ride: string, car: string, food: string)

  /** The nested context get_user_context returns. */
  datatype UserContext = UserContext(
    customerId: string,
    promotions: Promotions,
    paymentPreferences: PaymentPreferences,
    favoritePlaces: FavoritePlaces,
    completedQuests: int,
    questCompletionRate: real,
    lastQuestDate: string)

  /** The Python exceptions the two operations raise. */
  datatype StatsError = ValueError(message: string) | IndexError

  /** The index of the first row for `customerId`, if there is one. */
  function FirstMatch(rows: seq<UserRow>, customerId: string): (r: Option<nat>)
    ensures r.None? <==> forall i :: 0 <= i < |rows| ==> rows[i].customerId != customerId
    ensures r.Some? ==>
      r.value < |rows| && rows[r.value].customerId == customerId &&
      forall j :: 0 <= j < r.value ==> rows[j].customerId != customerId
  {
    if rows == [] then None
    else if rows[0].customerId == customerId then Some(0)
    else
      match FirstMatch(rows[1..], customerId)
      case None => None
      case Some(i) => Some(i + 1)
  }

  /** The context built from one row, under the argument's customer id. */
  function ContextOf(customerId: string, row: UserRow): (r: UserContext)
    ensures r.customerId == customerId
    ensures r.completedQuests == row.completedQuests && r.lastQuestDate == row.lastQuestDate
  {
    UserContext(
      customerId,
      Promotions(row.foodTreatment, row.rideTreatment, row.carTreatment),
      PaymentPreferences(row.rank1, row.rank2, row.rank3),
      FavoritePlaces(row.ridePredictionPlace, row.carPredictionPlace, row.foodPredictionPlace),
      row.completedQuests,
      row.questCompletionRate,
      row.lastQuestDate)
  }

  /** The context keeps every column of its row: two rows of one customer with the same context are the same row. */
  lemma ContextKeepsEveryColumn(customerId: string, a: UserRow, b: UserRow)
    requires a.customerId == b.customerId
    requires ContextOf(customerId, a) == ContextOf(customerId, b)
    ensures a == b
  {
  }

  /**
   * The row after update_user_stats: one more completed quest exactly when the
   * quest was completed, the "rate" total / (total + (0 or 1)) * 100, and the
   * new date.
   */
  function UpdatedStats(row: UserRow, questCompleted: bool, now: string): (r: UserRow)
    ensures r.completedQuests == row.completedQuests + (if questCompleted then 1 else 0)
    ensures questCompleted ==> r.questCompletionRate == 100.0
    ensures !questCompleted ==> 0.0 <= r.questCompletionRate < 100.0
    ensures !questCompleted ==>
      r.questCompletionRate * ((row.completedQuests + 1) as real) == 100.0 * (row.completedQuests as real)
    ensures r.lastQuestDate == now
    // every other column is kept
    ensures r.(completedQuests := row.completedQuests, questCompletionRate := row.questCompletionRate,
               lastQuestDate := row.lastQuestDate) == row
  {
    var totalQuests := row.completedQuests + (if questCompleted then 1 else 0);
    var rate := (totalQuests as real) / ((totalQuests + (if questCompleted then 0 else 1)) as real) * 100.0;
    row.(completedQuests := totalQuests, questCompletionRate := rate, lastQuestDate := now)
  }

  /** The error get_user_context raises for an unknown customer. */
  function NotFound(customerId: string): StatsError {
    ValueError("User " + customerId + " not found")
  }

  class UserContextManager {
    var userData: seq<UserRow>

    /** The manager over the rows already loaded from the user table. */
    constructor (rows: seq<UserRow>)
      ensures userData == rows
    {
      userData := rows;
    }

    /** get_user_context: the context from the first row for `customerId`, or ValueError for an unknown id. */
    function GetUserContext(customerId: string): (r: Result<UserContext, StatsError>)
      reads this
      ensures r.Err? <==> forall i :: 0 <= i < |userData| ==> userData[i].customerId != customerId
      ensures r.Err? ==> r.error == NotFound(customerId)
      ensures r.Ok? ==> r.value.customerId == customerId
      ensures r.Ok? ==>
        exists i :: 0 <= i < |userData| && userData[i].customerId == customerId &&
          (forall j :: 0 <= j < i ==> userData[j].customerId != customerId) &&
          r.value == ContextOf(customerId, userData[i])
    {
      match FirstMatch(userData, customerId)
      case None => Err(NotFound(customerId))
      case Some(i) => Ok(ContextOf(customerId, userData[i]))
    }

    /**
     * update_user_stats: updates the first row for `customerId` in place; an
     * unknown id raises IndexError (taking element 0 of an empty index list).
     */
    method UpdateUserStats(customerId: string, questCompleted: bool, now: string)
      returns (r: Result<(), StatsError>)
      modifies this
      ensures r.Err? <==> FirstMatch(old(userData), customerId).None?
      ensures r.Err? ==> r.error == IndexError && userData == old(userData)
      ensures r.Ok? ==>
        var i := FirstMatch(old(userData), customerId).value;
        userData == old(userData)[i := UpdatedStats(old(userData)[i], questCompleted, now)]
    {
      var matches := FirstMatch(userData, customerId);
      if matches.None? {
        return Err(IndexError);
      }
      var userIdx := matches.value;
      userData := userData[userIdx := UpdatedStats(userData[userIdx], questCompleted, now)];
      return Ok(());
    }
  }

  /**
   * After an update the same row is still the customer's first row, and the
   * context read back carries the updated count, rate and date.
   */
  lemma UpdateThenLookup(rows: seq<UserRow>, customerId: string, questCompleted: bool, now: string)
    requires FirstMatch(rows, customerId).Some?
    ensures var i := FirstMatch(rows, customerId).value;
            var updated := rows[i := UpdatedStats(rows[i], questCompleted, now)];
            FirstMatch(updated, customerId) == Some(i) &&
            ContextOf(customerId, updated[i]).completedQuests ==
              rows[i].completedQuests + (if questCompleted then 1 else 0) &&
            ContextOf(customerId, updated[i]).lastQuestDate == now &&
            ContextOf(customerId, updated[i]).promotions == ContextOf(customerId, rows[i]).promotions
  {
  }

  /** An update leaves the rows of other customers as they were. */
  lemma UpdateKeepsOtherRows(rows: seq<UserRow>, customerId: string, questCompleted: bool, now: string, k: nat)
    requires FirstMatch(rows, customerId).Some? && k < |rows| && rows[k].customerId != customerId
    ensures var i := FirstMatch(rows, customerId).value;
            rows[i := UpdatedStats(rows[i], questCompleted, now)][k] == rows[k]
  {
  }
}
