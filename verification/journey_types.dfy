/** The values the quest screen (`QuestJourney` in src/App.js) receives from the backend. */
module JourneyTypes {
  import opened Wrappers

  /** One task of a quest. `promotion` and `location` are optional. */
  datatype Objective = Objective(
    id: string,
    platform: string,
    description: string,
    points: int,
    promotion: Option<string>,
    location: Option<string>)

  /** A generated quest; it is replaced wholesale on regeneration, never edited. */
  datatype Quest = Quest(questId: string, narrative: string, objectives: seq<Objective>)

  /**
   * The user context in the flat shape the screen reads. A treatment of "0" means
   * "no promotion"; a prediction place of "null" means "no prediction".
   */
  datatype UserContext = UserContext(
    foodTreatment: string,
    rideTreatment: string,
    carTreatment: string,
    ridePredictionPlace: string,
    carPredictionPlace: string,
    foodPredictionPlace: string)

  /** True when some objective of `quest` carries the id `id`. */
  predicate HasObjective(quest: Quest, id: string) {
    exists i :: 0 <= i < |quest.objectives| && quest.objectives[i].id == id
  }

  /** No id occurs twice in `ids`. */
  predicate NoDuplicates(ids: seq<string>) {
    forall i, j :: 0 <= i < j < |ids| ==> ids[i] != ids[j]
  }
}
