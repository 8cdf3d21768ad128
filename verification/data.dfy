/**
 * The entities the quiz loads once and then only reads: questions with their
 * options, candidate profiles, and the two parsed input documents.
 */
module QuizData {
  import opened Wrappers

  /** A per-dimension integer mapping: the running scores, an option's deltas, a profile's weights. */
  type ScoreMap = map<string, int>

  /** An answer button: its caption (`label`) and the deltas it adds (`add` may be missing). */
  datatype Choice = Choice(caption: string, add: Option<ScoreMap>)

  datatype Question = Question(text: string, options: seq<Choice>)

  /** A candidate result; `dims` (the weights) may be missing. */
  datatype Profile = Profile(name: string, tags: seq<string>, dims: Option<ScoreMap>)

  /** `questions.json` after parsing; each top-level field may be missing. */
  datatype QuestionsDoc = QuestionsDoc(dimensions: Option<seq<string>>, questions: Option<seq<Question>>)

  /** `profiles.json` after parsing. */
  datatype ProfilesDoc = ProfilesDoc(profiles: Option<seq<Profile>>)

  /** Why the two documents could not be fetched or parsed. */
  datatype LoadError = LoadError(detail: string)

  /** A profile's weights, an absent `dims` read as the empty object. */
  function Weights(p: Profile): ScoreMap {
    p.dims.GetOr(map[])
  }
}
