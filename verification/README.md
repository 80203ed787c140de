# Quest journey: a Dafny model

This project models the logic of a gamified quest layer on top of a
ride-hailing and food-delivery super-app. It covers two sides.

**The quest screen (`QuestJourney` in src/App.js).** It holds one session:
- the current quest;
- the ids of the completed objectives;
- a points total and a day streak with the time of the last completion;
- an error banner, a loading flag and the user context.

Four handlers change this state:
- `fetchUserContext` stores the user context, or an error message when the request fails;
- `generateQuest` resets progress and stores a new quest or an error message;
- `handleTaskClick` completes one objective;
- `updateStreak` applies the whole-day streak rule.

The model is the class `Journey.QuestJourney`. The answer of each HTTP request
is a parameter, and the clock is an integer millisecond timestamp. Opening the
platform link in a new tab is returned as the URL that would be opened.

The derived values are pure functions in `JourneyDisplay` and `JourneyStreak`:
- the progress percentage;
- the platform colour and link tables with their defaults;
- the voucher lookup with its `"0"` sentinel;
- the promotion labels ("0" shows as "No promo");
- the predicted places (`"null"` hides a row).

`getVoucherByPlatform`, `renderPromotions` and `renderFavoritePlaces` are
defined in src/App.js, but the rendered tree never calls them. They are
modelled anyway, as the functions they define.

**The quest service (app.py).** Its logic apart from the language-model call is modelled:
- `validate_quest` checks the shape of a generated quest.
- `get_user_context` looks up a customer's first row in the user table.
- `update_user_stats` updates that row after a quest.
- `log_quest` appends a row to the quest log.

The tables are sequences of records. JSON values are a datatype (`PyJson.Json`).
The validator is modelled with Python's own meaning of `in`, iteration and
`[]` on each kind of value. That includes the `TypeError` those operations
raise on a number, a boolean or `null`. The time and the fresh uuid are
parameters.

Points where the code behaves differently from what one might expect (the model follows the code):
- **Streak.** The streak counts 24-hour windows of elapsed time since the previous completion, not calendar days. Completions at 23:00 and at 09:00 the next day leave the streak unchanged (`JourneyStreak.ConsecutiveCalendarDaysMayNotExtend`).
- **Progress of an empty quest.** The progress of a quest with no objectives is `NaN`, not 0.
- **Failed quest generation.** It stores the thrown message: the server's `error` field, or the message of a rejected fetch. It keeps the previous quest rather than unsetting it.
- **Click without a quest.** `handleTaskClick` with no quest fails on reading `quest.quest_id`, inside its `try`, and so sets the completion error.

## Model

| member | source | states |
|---|---|---|
| `Journey.QuestJourney.constructor` | src/App.js:104-113 | The initial session: no quest, nothing completed, 0 points, streak 0, no completion date, no error, no context, not loading; it satisfies the session invariant. |
| `Journey.QuestJourney.Progress` | src/App.js:130 | Progress is 0 without a quest; for a quest with objectives it is the integer nearest to 100·completed/objectives, a tie rounding up, and at most 100 when the completed ids are distinct ids of that quest; for an empty quest with nothing completed it is NaN. |
| `Journey.QuestJourney.FetchUserContext` | src/App.js:120-128 | A parsed body becomes the context whatever the response status; a rejected fetch sets "Failed to load user context" and keeps the context; nothing else changes. |
| `Journey.QuestJourney.UpdateStreak` | src/App.js:154-164 | The new streak is `NextStreak` of the old streak, the completion date recorded before this completion, and now; only the streak changes. |
| `Journey.QuestJourney.HandleTaskClick` | src/App.js:132-152 | An objective already completed: no request, no state change, nothing opened. No quest, or a non-ok or rejected POST: only the error becomes "Failed to complete task". Success: the id is appended once, its points added, the date set to now, the streak advanced by the streak rule, the error kept, the platform URL opened. Completed ids stay distinct, and stay within the quest when the objective is one of its own. |
| `Journey.QuestJourney.GenerateQuest` | src/App.js:186-202 | Afterwards nothing is completed, points are 0 and loading is off whatever the outcome; success stores the quest and clears the error, failure keeps the quest and stores the thrown message; streak and completion date are untouched. |
| `Journey.ProgressWithinQuest` | src/App.js:204-206 | With distinct completed ids drawn from the quest, the percentage is at most 100, and NaN exactly for a quest without objectives. |
| `Journey.CompletedBoundedByObjectives` | src/App.js:133-144 | Distinct completed ids of a quest's objectives are no more than its objectives. |
| `Journey.ClickTwiceScenario` | src/App.js:132-152 | On a one-objective quest, a successful click followed by a second click yields that objective's points and one completed id, and the second click sends nothing; a failed first click leaves 0 points and nothing completed. |
| `JourneyDisplay.RoundedPercent` | src/App.js:130 | The result is the integer nearest to 100·completed/total, a tie rounding up (as `Math.round` does). |
| `JourneyDisplay.CalculateProgress` | src/App.js:130 | 0 without a quest; the nearest-integer percentage for a quest with objectives; not a number for a quest without objectives. |
| `JourneyDisplay.ProgressBounds` | src/App.js:130 | With no more completed than total the percentage is at most 100, 0 when none is done and 100 when all are done. |
| `JourneyDisplay.ProgressMonotone` | src/App.js:130 | Completing more tasks never lowers the percentage. |
| `JourneyDisplay.PlatformColor` | src/App.js:166-174 | The gray default is returned exactly for platforms other than GoFood, GoRide, GoCar, GoPay; a known platform gets its table colour. |
| `JourneyDisplay.PlatformUrl` | src/App.js:176-184 | The root link `https://gojek.com` is returned exactly for unknown platforms; a known platform gets its table link; every link is https. |
| `JourneyDisplay.PlatformTablesDistinguish` | src/App.js:166-184 | Two different known platforms get different colours and different links. |
| `JourneyDisplay.VoucherByPlatform` | src/App.js:266-279 | No voucher exactly when the context is absent, the platform is not GoFood/GoRide/GoCar, or its treatment is "0"; a voucher is that platform's treatment and is never "0". |
| `JourneyDisplay.PromotionLabel` | src/App.js:213 | The "0" sentinel is shown as "No promo", any other treatment is shown as it is, and the label is never "0". |
| `JourneyDisplay.PromotionLabels` | src/App.js:208-229 | Exactly three labels, in the order food, ride, car, each the label of that platform's treatment; none of them is "0". |
| `JourneyDisplay.PromotionLabelAgreesWithVoucher` | src/App.js:266-279 | For a treated platform, the promotion label is the voucher when there is one and "No promo" otherwise. |
| `JourneyDisplay.FavoritePlaces` | src/App.js:231-263 | One row per prediction that is not "null" and no other: each row is the (platform, place) pair of the ride, car or food prediction, none has a "null" place, each platform's row appears exactly when its prediction is not "null", and the rows come in the order ride, car, food. |
| `JourneyStreak.DayDiff` | src/App.js:158 | The day difference d is the floor of the elapsed time in days: d whole days fit in now − last and d + 1 do not. |
| `JourneyStreak.NextStreak` | src/App.js:156-163 | Without a previous completion the streak becomes 1; otherwise it is kept, grows by one, or restarts at 1. |
| `JourneyStreak.NextStreakByElapsedTime` | src/App.js:154-164 | Under one day elapsed (or negative) keeps the streak, one to two days adds one, two days or more resets it to 1. |
| `JourneyStreak.FirstCompletionStartsStreak` | src/App.js:161-163 | Without a previous completion the streak becomes 1. |
| `JourneyStreak.NextStreakBounds` | src/App.js:154-164 | After a completion the streak is between 1 and the old streak plus one. |
| `JourneyStreak.StreakScenario` | src/App.js:154-164 | First completion gives 1, one a day later gives 2, one after a three-day gap gives 1. |
| `JourneyStreak.ConsecutiveCalendarDaysMayNotExtend` | src/App.js:158 | Completions on consecutive calendar days ten hours apart leave the streak unchanged. |
| `PyJson.Contains` | app.py:216 | `key in value` raises TypeError exactly for values that are not a dict, list or str; on a dict it tests key presence, on a list whether some item equals the string, on a str whether the key occurs as a substring. |
| `PyJson.ContainsAll` | app.py:212 | `all(key in value ...)` raises (TypeError) exactly when there is a key and the value is not a dict, list or str, and is True exactly when every key's `in` test is True. |
| `PyJson.ContainsAllOnObject` | app.py:212 | On a dict, `all(key in d for key in keys)` never raises and holds exactly when every key is present. |
| `PyJson.Iterate` | app.py:215 | Iterating raises TypeError exactly for values that are not a dict, list or str; a list yields its items, a dict its keys in order, a str its one-character strings. |
| `PyJson.Subscript` | app.py:219 | A dict holding the key yields its value, a dict without it raises KeyError, and any value that is not a dict raises TypeError. |
| `PyJson.SetKey` | app.py:193 | After `d[key] = value` the key is present with that value, and every other key is present and maps as before. |
| `QuestValidation.AssignQuestId` | app.py:193 | After the generator assigns a fresh id, `quest_id` is present and holds it; every other key keeps its presence and its value. |
| `QuestValidation.ValidateQuest` | app.py:205-229 | The loop with early returns yields exactly `ValidationOutcome`: False for a missing top-level field, the first failing or raising objective's verdict, then the rewards check. |
| `QuestValidation.OptionalStringOk` | app.py:218-223 | On a dict, an optional field passes when absent or a str; on a value that is not a dict, list or str the test raises TypeError; no other exception is raised. |
| `QuestValidation.CheckObjective` | app.py:216-223 | An objective passes only when all five required names are `in` it; a number, boolean or null objective raises TypeError; no other exception is raised. |
| `QuestValidation.CheckObjectives` | app.py:215-223 | The loop passes exactly when every objective passes; otherwise its outcome is that of the first objective that does not pass; it raises only TypeError. |
| `QuestValidation.ValidationOutcome` | app.py:205-229 | The validator never raises KeyError (every subscript follows an `in` test), and accepts only quests holding all seven required fields. |
| `QuestValidation.MissingQuestFieldRejected` | app.py:207-213 | A quest missing any of the seven required fields is rejected (False, no exception). |
| `QuestValidation.CheckObjectiveOnDict` | app.py:215-223 | On a dict objective the loop body never raises and passes exactly when the five fields are present and location/promotion, if present, are str. |
| `QuestValidation.CheckObjectivesOnDicts` | app.py:215-223 | On a list of dicts the loop passes exactly when every objective is valid. |
| `QuestValidation.ValidQuestAccepted` | app.py:205-229 | Every quest of the intended shape is accepted, including one with an empty objectives list and untyped points/required. |
| `QuestValidation.DictShapedValidation` | app.py:205-229 | When objectives is a list of dicts and rewards a dict, the validator never raises and accepts exactly the quests of the intended shape. |
| `QuestValidation.ListObjectiveAccepted` | app.py:215-223 | As written, a quest whose objective is a list of the five field names is accepted. |
| `QuestValidation.ListObjectiveNotValid` | app.py:215-223 | That quest is not of the intended shape. |
| `QuestValidation.ValidateQuestStrict` | app.py:205-229 | The corrected validator accepts exactly the quests of the intended shape, and only quests the original also accepts. |
| `UserContexts.FirstMatch` | app.py:32-34 | None exactly when no row has the id; otherwise the index of the first row with it. |
| `UserContexts.ContextOf` | app.py:36-56 | The context is under the requested customer id and carries the row's completed count and last date. |
| `UserContexts.ContextKeepsEveryColumn` | app.py:36-56 | The context keeps every column of its row: two rows of one customer with the same context are equal. |
| `UserContexts.UserContextManager.constructor` | app.py:20-28 | The manager holds the rows of the loaded table. |
| `UserContexts.UserContextManager.GetUserContext` | app.py:30-56 | ValueError "User … not found" exactly when no row has the id; otherwise the context is built from the first matching row under the requested id. |
| `UserContexts.UpdatedStats` | app.py:63-67 | completed_quests grows by one exactly when the quest was completed; the rate becomes 100 when completed and total/(total+1)·100, within [0, 100), otherwise; the date becomes now; every other column is kept. |
| `UserContexts.UserContextManager.UpdateUserStats` | app.py:58-69 | An unknown id raises IndexError and changes nothing; otherwise exactly the first matching row is replaced by its updated statistics. |
| `UserContexts.UpdateThenLookup` | app.py:58-67 | After an update the same row is still the customer's first, and its context shows the new count and date and the old promotions. |
| `UserContexts.UpdateKeepsOtherRows` | app.py:61-63 | An update leaves other customers' rows unchanged. |
| `QuestLogging.QuestIdOf` | app.py:89 | The logged id is a value the quest stores under `quest_id` when it has one, and the fresh id otherwise. |
| `QuestLogging.QuestLogger.constructor` | app.py:76-85 | The logger holds the rows of the existing log, or none. |
| `QuestLogging.QuestLogger.LogQuest` | app.py:87-97 | Exactly one row is appended and earlier rows are unchanged; it carries the customer, the status (default "generated"), the time and the quest dict, and its id is the quest's own `quest_id` if present, else the fresh id. |
| `QuestLogging.CompletionRowKeepsQuestId` | app.py:266 | A completion row logged for `{'quest_id': id}` carries that id, not a fresh one. |

## Findings

| source | as written | input that shows it | evidently intended | confidence | as-written member | corrected member |
|---|---|---|---|---|---|---|
| app.py:215-223 | Each objective is tested with Python `in`, which on a list tests membership and on a str tests substrings. An objective that is not a dict can therefore pass. | `objectives: [["id", "platform", "description", "points", "required"]]` with all other fields well formed | every objective is a dict, objectives is a list and rewards is a dict | medium, not executed | `QuestValidation.ListObjectiveAccepted` | `QuestValidation.ValidateQuestStrict` |

## Left out

- Rendering is not modelled: the JSX markup, `GojekHomeInterface`, `ServiceIcon`, the tab bar with its `activeTab` state, and src/components/ui/alert.jsx. These are presentation only.
- `fetch`, `window.open`, the Flask routes, CORS and the error handlers are not modelled. Each response is a parameter, and the opened link is a returned value.
- React's deferred `setState` is not modelled. Neither is a second click on the same task before the first POST returns: that is event-loop concurrency. Each handler runs here as one atomic step.
- `Journey.QuestJourney.GenerateQuest` runs as one step, so the time while `loading` is on is not observable. The button's `disabled={loading}` guard is therefore not modelled.
- `progress` is derived from the current quest and completed ids. The code stores it, and recomputes it only when `completedTasks` changes, using the quest of that render. The two differ only when a quest without objectives is involved in a regeneration.
- The code reads the clock twice in one completion: once for the stored date and once for the streak. The model uses one `now` for both.
- Objective points are integers. JavaScript's `+` on a non-number `points` (string concatenation) is not modelled.
- `Math.round` and the completion rate are exact: an integer formula and reals. IEEE float behaviour is not modelled.
- The colour and link tables see only their four own keys. A platform named like an inherited object property (`"toString"`, `"constructor"`) would return that property in JavaScript. This is not modelled.
- The frontend's user context always has its six flat fields. The error body of a 404 response, and the nested shape the service really returns, would leave those fields undefined. The two sides' context shapes are modelled separately and not linked.
- JSON numbers are integers, and object keys are taken as distinct. For duplicate keys, `json.loads` keeps the last value; the model's lookup takes the first.
- The language-model call and prompt in `generate_quest` (app.py:105-203) are not modelled. The service is foreign and its output nondeterministic. Only its id assignment is modelled (`QuestValidation.AssignQuestId`).
- CSV reading and writing (`_load_user_data`, `_initialize_log`, `to_csv`) is file I/O; the tables are in-memory sequences. `datetime.now()`, `new Date()` and `uuid.uuid4()` are parameters, and ISO date strings are not parsed.
- `completed_quests` is a natural number. A negative or non-integer cell, which could make the rate divide by zero, is not represented.
- `json.dumps` of the logged quest is not modelled. The log row holds the quest dict itself.
