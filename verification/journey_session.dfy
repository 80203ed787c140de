/**
 * The session state of the quest screen (`QuestJourney` in src/App.js) and
 * the handlers that change it. Network answers and the clock are parameters;
 * opening the platform link in a new tab is returned as the opened URL.
 */
module Journey {
  import opened Wrappers
  import opened JourneyTypes
  import opened JourneyDisplay
  import opened JourneyStreak

  /** The answer to the completion POST: a response with its `ok` flag, or a rejected fetch. */
  datatype CompletionResponse = Responded(ok: bool) | FetchRejected

  /**
   * The answer to the quest-generation GET. A failure carries the message that
   * was thrown: the server's `error` field for a non-ok response, or the
   * message of the rejected fetch or of the unparsable body.
   */
  datatype QuestResponse = QuestReceived(quest: Quest) | QuestFailed(message: string)

  /** The answer to the user-context GET: a parsed body, or a rejected fetch or unparsable body. */
  datatype ContextResponse = ContextReceived(context: UserContext) | ContextFailed

  const CompleteTaskError: string := "Failed to complete task"
  const LoadContextError: string := "Failed to load user context"

  /** Every completed id names an objective of the current quest; without a quest nothing is completed. */
  predicate CompletedWithinQuest(quest: Option<Quest>, completedTasks: seq<string>) {
    match quest
    case None => completedTasks == []
    case Some(q) => forall i :: 0 <= i < |completedTasks| ==> HasObjective(q, completedTasks[i])
  }

  class QuestJourney {
    var loading: bool
    var quest: Option<Quest>
    var completedTasks: seq<string>
    var error: Option<string>
    var points: int
    var streak: nat
    var lastCompletionDate: Option<int>
    var userContext: Option<UserContext>

    /**
     * The session invariant: no objective is completed twice, and a streak exists
     * exactly when a completion has been recorded.
     */
    ghost predicate Valid()
      reads this
    {
      && NoDuplicates(completedTasks)
      && (lastCompletionDate.None? <==> streak == 0)
    }

    /** Every completed id belongs to the current quest. */
    predicate WithinQuest()
      reads this
    {
      CompletedWithinQuest(quest, completedTasks)
    }

    /** The percentage shown in the progress bar; at most 100 while the completed ids are distinct ids of the quest. */
    function Progress(): (r: Percent)
      reads this
      ensures quest.None? ==> r == Rounded(0)
      ensures NoDuplicates(completedTasks) && WithinQuest() && quest.Some? && |quest.value.objectives| > 0 ==>
        r.Rounded? && r.value <= 100
      // the nearest integer to 100 * completed / objectives, a tie going up
      ensures quest.Some? && |quest.value.objectives| > 0 ==>
        r.Rounded? &&
        200 * |completedTasks| - |quest.value.objectives| < 2 * |quest.value.objectives| * r.value &&
        2 * |quest.value.objectives| * r.value <= 200 * |completedTasks| + |quest.value.objectives|
      ensures quest.Some? && |quest.value.objectives| == 0 && completedTasks == [] ==> r == NotANumber
    {
      if NoDuplicates(completedTasks) && WithinQuest() then
        ProgressWithinQuest(quest, completedTasks);
        CalculateProgress(quest, completedTasks)
      else
        CalculateProgress(quest, completedTasks)
    }

    /** The state when the screen mounts. */
    constructor ()
      ensures Valid() && WithinQuest()
      ensures !loading && quest == None && completedTasks == [] && error == None
      ensures points == 0 && streak == 0 && lastCompletionDate == None && userContext == None
    {
      loading := false;
      quest := None;
      completedTasks := [];
      error := None;
      points := 0;
      streak := 0;
      lastCompletionDate := None;
      userContext := None;
    }

    /**
     * fetchUserContext: any parsed body becomes the context (the response status is
     * not checked); a rejected fetch sets the error and leaves the context as it was.
     */
    method FetchUserContext(response: ContextResponse)
      requires Valid()
      modifies this`userContext, this`error
      ensures Valid()
      ensures response.ContextReceived? ==> userContext == Some(response.context) && error == old(error)
      ensures response.ContextFailed? ==> userContext == old(userContext) && error == Some(LoadContextError)
    {
      match response
      case ContextReceived(context) => userContext := Some(context);
      case ContextFailed => error := Some(LoadContextError);
    }

    /**
     * updateStreak: the streak after a completion at `now`, judged against the
     * completion date recorded before it.
     */
    method UpdateStreak(now: int)
      modifies this`streak
      ensures streak == NextStreak(old(streak), lastCompletionDate, now)
    {
      var today := now;
      if lastCompletionDate.Some? {
        var dayDiff := DayDiff(lastCompletionDate.value, today);
        if dayDiff == 1 {
          streak := streak + 1;
        } else if dayDiff > 1 {
          streak := 1;
        }
      } else {
        streak := 1;
      }
    }

    /**
     * handleTaskClick: completes `objective` at time `now`, given the answer the
     * completion POST would get. Returns whether the POST was sent and which
     * link was openedUrl.
     */
    method HandleTaskClick(objective: Objective, response: CompletionResponse, now: int)
      returns (requestSent: bool, openedUrl: Option<string>)
      requires Valid()
      modifies this`completedTasks, this`points, this`streak, this`lastCompletionDate, this`error
      ensures Valid()
      // the POST goes out only for an objective not yet completed, and only with a quest
      ensures requestSent <==> objective.id !in old(completedTasks) && quest.Some?
      // an objective already completed: no request, nothing changes
      ensures objective.id in old(completedTasks) ==>
        openedUrl == None && error == old(error) && completedTasks == old(completedTasks) &&
        points == old(points) && streak == old(streak) && lastCompletionDate == old(lastCompletionDate)
      // no quest (reading its id throws) or a failed POST: only the error changes
      ensures objective.id !in old(completedTasks) && (quest.None? || response != Responded(true)) ==>
        openedUrl == None && error == Some(CompleteTaskError) && completedTasks == old(completedTasks) &&
        points == old(points) && streak == old(streak) && lastCompletionDate == old(lastCompletionDate)
      // a successful POST: the id is recorded once, its points added, the streak advanced
      ensures requestSent && response == Responded(true) ==>
        completedTasks == old(completedTasks) + [objective.id] &&
        points == old(points) + objective.points &&
        lastCompletionDate == Some(now) &&
        streak == NextStreak(old(streak), old(lastCompletionDate), now) &&
        error == old(error) &&
        openedUrl == Some(PlatformUrl(objective.platform))
      // the screen only offers objectives of the current quest, which keeps the completed ids within it
      ensures old(WithinQuest()) && (quest.Some? ==> HasObjective(quest.value, objective.id)) ==> WithinQuest()
    {
      requestSent, openedUrl := false, None;
      if objective.id in completedTasks {
        return;
      }
      if quest.None? {
        error := Some(CompleteTaskError);
        return;
      }
      requestSent := true;
      if response != Responded(true) {
        error := Some(CompleteTaskError);
        return;
      }
      completedTasks := completedTasks + [objective.id];
      points := points + objective.points;
      // the handler's closure still holds the previous completion date here
      UpdateStreak(now);
      lastCompletionDate := Some(now);
      openedUrl := Some(PlatformUrl(objective.platform));
    }

    /**
     * generateQuest: clears the error and the progress, then stores the new quest
     * or the failure message; `loading` is on only while the request is out.
     */
    method GenerateQuest(response: QuestResponse)
      requires Valid()
      modifies this`loading, this`error, this`completedTasks, this`points, this`quest
      ensures Valid() && WithinQuest()
      ensures !loading && completedTasks == [] && points == 0
      ensures response.QuestReceived? ==> quest == Some(response.quest) && error == None
      ensures response.QuestFailed? ==> quest == old(quest) && error == Some(response.message)
    {
      loading := true;
      error := None;
      completedTasks := [];
      points := 0;
      match response {
        case QuestReceived(q) =>
          quest := Some(q);
        case QuestFailed(message) =>
          error := Some(message);
      }
      loading := false;
    }
  }

  /** The distinct ids in `s` number |s|. */
  lemma {:induction false} DistinctIdsCount(s: seq<string>)
    requires NoDuplicates(s)
    ensures |set i | 0 <= i < |s| :: s[i]| == |s|
  {
    if s != [] {
      var last := |s| - 1;
      DistinctIdsCount(s[..last]);
      assert (set i | 0 <= i < |s| :: s[i]) == (set i | 0 <= i < last :: s[..last][i]) + {s[last]};
      assert s[last] !in (set i | 0 <= i < last :: s[..last][i]);
    }
  }

  /** A quest with n objectives has at most n distinct objective ids. */
  lemma {:induction false} ObjectiveIdsCount(objectives: seq<Objective>)
    ensures |set i | 0 <= i < |objectives| :: objectives[i].id| <= |objectives|
  {
    if objectives != [] {
      var last := |objectives| - 1;
      ObjectiveIdsCount(objectives[..last]);
      assert (set i | 0 <= i < |objectives| :: objectives[i].id) ==
        (set i | 0 <= i < last :: objectives[..last][i].id) + {objectives[last].id};
    }
  }

  /** Distinct completed ids of a quest's objectives are no more than its objectives. */
  lemma CompletedBoundedByObjectives(quest: Quest, completedTasks: seq<string>)
    requires NoDuplicates(completedTasks) && CompletedWithinQuest(Some(quest), completedTasks)
    ensures |completedTasks| <= |quest.objectives|
  {
    var done := set i | 0 <= i < |completedTasks| :: completedTasks[i];
    var ids := set i | 0 <= i < |quest.objectives| :: quest.objectives[i].id;
    assert done <= ids by {
      forall t | t in done ensures t in ids {
        var k :| 0 <= k < |completedTasks| && completedTasks[k] == t;
        assert HasObjective(quest, completedTasks[k]);
      }
    }
    DistinctIdsCount(completedTasks);
    ObjectiveIdsCount(quest.objectives);
    SubsetCardinality(done, ids);
  }

  lemma {:induction false} SubsetCardinality<T>(a: set<T>, b: set<T>)
    requires a <= b
    ensures |a| <= |b|
  {
    if a != {} {
      var x :| x in a;
      SubsetCardinality(a - {x}, b - {x});
    }
  }

  /** Within a consistent session the percentage never exceeds 100, and it is NaN only for an empty quest. */
  lemma ProgressWithinQuest(quest: Option<Quest>, completedTasks: seq<string>)
    requires NoDuplicates(completedTasks) && CompletedWithinQuest(quest, completedTasks)
    ensures quest.Some? && |quest.value.objectives| > 0 ==>
      CalculateProgress(quest, completedTasks).Rounded? && CalculateProgress(quest, completedTasks).value <= 100
    ensures quest.Some? && |quest.value.objectives| == 0 ==> CalculateProgress(quest, completedTasks) == NotANumber
  {
    if quest.Some? {
      CompletedBoundedByObjectives(quest.value, completedTasks);
      if |quest.value.objectives| > 0 {
        ProgressBounds(|completedTasks|, |quest.value.objectives|);
      }
    }
  }

  /**
   * A quest of one objective, clicked twice: the second click sends nothing, and
   * the points and completed ids are those of the first; a failing first click
   * changes nothing but the error.
   */
  method ClickTwiceScenario(objective: Objective, first: CompletionResponse, now: int, later: int)
    returns (points: int, completed: seq<string>, secondSent: bool)
    ensures first == Responded(true) ==> points == objective.points && completed == [objective.id] && !secondSent
    ensures first != Responded(true) ==> points == 0 && completed == []
  {
    var session := new QuestJourney();
    session.GenerateQuest(QuestReceived(Quest("q1", "A day out", [objective])));
    assert session.quest.value.objectives[0] == objective;
    assert HasObjective(session.quest.value, objective.id);
    var sent, openedUrl := session.HandleTaskClick(objective, first, now);
    if first == Responded(true) {
      secondSent, openedUrl := session.HandleTaskClick(objective, Responded(true), later);
    } else {
      secondSent := false;
    }
    points, completed := session.points, session.completedTasks;
  }
}
