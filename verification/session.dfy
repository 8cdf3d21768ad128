/**
 * The quiz session: the single mutable record the page keeps, the load that
 * fills it, answering a question, scoring the profiles and the results list.
 */
module Quiz {
  import opened Wrappers
  import opened QuizData
  import opened Scores
  import opened Affinity
  import opened Ranking
  import opened Progress

  /** Where the quiz stands: no question to show, at a question, or on the results screen. */
  datatype Phase = NoQuestions | InProgress(index: nat) | Completed

  /** What the page shows once the load has run. */
  datatype LoadOutcome = LoadFailed(error: LoadError) | NoContent | Started

  /** Every profile with its affinity, in input order (the `map` step). */
  ghost function Scoring(s: ScoreMap, profiles: seq<Profile>): seq<Scored> {
    seq(|profiles|, i requires 0 <= i < |profiles| => Scored(profiles[i], AffinityOf(s, profiles[i])))
  }

  /** The list the results screen shows: `map`, stable descending `sort`, `slice(0, 5)`. */
  ghost function Recommendations(s: ScoreMap, profiles: seq<Profile>): seq<Scored> {
    Ranked(Scoring(s, profiles))
  }

  /**
   * The results list has `min(5, |profiles|)` entries, each a profile of the
   * input with its own affinity, in non-increasing order of affinity; equal
   * affinities keep their input order and nothing left out beats anything kept.
   */
  lemma RecommendationsSpec(s: ScoreMap, profiles: seq<Profile>)
    ensures |Recommendations(s, profiles)| == if |profiles| < 5 then |profiles| else 5
    ensures forall i :: 0 <= i < |Recommendations(s, profiles)| ==>
              Recommendations(s, profiles)[i].profile in profiles &&
              Recommendations(s, profiles)[i].score == AffinityOf(s, Recommendations(s, profiles)[i].profile)
    ensures Descending(Recommendations(s, profiles))
    ensures forall v :: WithScore(Recommendations(s, profiles), v) <= WithScore(Scoring(s, profiles), v)
    ensures forall x, i ::
              x in multiset(Scoring(s, profiles)) - multiset(Recommendations(s, profiles)) && 0 <= i < |Recommendations(s, profiles)|
              ==> x.score <= Recommendations(s, profiles)[i].score
  {
    var all := Scoring(s, profiles);
    var r := Recommendations(s, profiles);
    RankedShape(all);
    forall v ensures WithScore(r, v) <= WithScore(all, v) {
      RankedStable(all, v);
    }
    forall x: Scored, i: nat | x in multiset(all) - multiset(r) && i < |r| ensures x.score <= r[i].score {
      RankedLeftOut(all, x, i);
    }
    forall i | 0 <= i < |r| ensures r[i].profile in profiles && r[i].score == AffinityOf(s, r[i].profile) {
      assert r[i] in multiset(r);
      ScoringEntry(s, profiles, r[i]);
    }
  }

  /** An entry of the scored list is an input profile with its own affinity. */
  lemma ScoringEntry(s: ScoreMap, profiles: seq<Profile>, e: Scored)
    requires e in multiset(Scoring(s, profiles))
    ensures e.profile in profiles && e.score == AffinityOf(s, e.profile)
  {
    var all := Scoring(s, profiles);
    assert e in all;
    var j :| 0 <= j < |all| && all[j] == e;
    assert all[j] == Scored(profiles[j], AffinityOf(s, profiles[j]));
  }

  /**
   * Before any answer every profile ties at 0, so the results list is the first
   * five profiles in their input order.
   */
  lemma InitialRecommendations(dims: seq<string>, profiles: seq<Profile>)
    ensures Recommendations(InitScores(dims), profiles) == Top(Scoring(InitScores(dims), profiles), TopCount)
  {
    var all := Scoring(InitScores(dims), profiles);
    forall i | 0 <= i < |all| ensures all[i].score == 0 {
      InitialAffinityZero(dims, profiles[i]);
    }
    forall v ensures WithScore(SortByScore(all), v) == WithScore(all, v) {
      SortStable(all, v);
    }
    StableSortUnique(SortByScore(all), all);
  }

  class Session {
    var dimensions: seq<string>
    var questions: seq<Question>
    var profiles: seq<Profile>
    var scores: ScoreMap
    var qIndex: nat

    /** The question cursor never passes the end of the question list. */
    ghost predicate Valid()
      reads this
    {
      qIndex <= |questions|
    }

    /** The state before anything is loaded. */
    constructor ()
      ensures Valid()
      ensures dimensions == [] && questions == [] && profiles == []
      ensures scores == map[] && qIndex == 0
    {
      dimensions, questions, profiles := [], [], [];
      scores, qIndex := map[], 0;
    }

    function Phase(): Phase
      reads this
    {
      if qIndex < |questions| then InProgress(qIndex)
      else if questions == [] then NoQuestions
      else Completed
    }

    /**
     * `loadData` after the two documents have been fetched and parsed, or failed
     * to: a failure leaves the session as it was; otherwise missing fields become
     * empty lists, the scores start at zero for every declared dimension and the
     * cursor at the first question, and an empty question list shows no question.
     */
    method Load(fetched: Result<(QuestionsDoc, ProfilesDoc), LoadError>) returns (outcome: LoadOutcome)
      requires Valid()
      modifies this
      ensures Valid()
      ensures fetched.Failure? ==> outcome == LoadFailed(fetched.error) && unchanged(this)
      ensures fetched.Success? ==>
                && dimensions == fetched.value.0.dimensions.GetOr([])
                && questions == fetched.value.0.questions.GetOr([])
                && profiles == fetched.value.1.profiles.GetOr([])
                && scores == InitScores(dimensions)
                && qIndex == 0
                && outcome == (if questions == [] then NoContent else Started)
      ensures outcome == NoContent ==> Phase() == NoQuestions
      ensures outcome == Started ==> Phase() == InProgress(0)
    {
      match fetched
      case Failure(e) =>
        outcome := LoadFailed(e);
      case Success((q, p)) =>
        dimensions := q.dimensions.GetOr([]);
        questions := q.questions.GetOr([]);
        profiles := p.profiles.GetOr([]);
        scores := InitScores(dimensions);
        qIndex := 0;
        outcome := if questions == [] then NoContent else Started;
    }

    /**
     * `addScores`: a missing `add` changes nothing; otherwise every delta is
     * added to its key, a key the map lacks (declared or not) starting at 0,
     * and every other key keeps its value.
     */
    method AddScores(add: Option<ScoreMap>)
      modifies this`scores
      ensures scores == Apply(old(scores), add)
      ensures add.None? ==> scores == old(scores)
      ensures add.Some? ==> scores.Keys == old(scores).Keys + add.value.Keys
      ensures add.Some? ==> forall k :: k in add.value ==> scores[k] == Get(old(scores), k) + add.value[k]
      ensures forall k :: k in old(scores) && (add.None? || k !in add.value) ==> scores[k] == old(scores)[k]
    {
      if add.None? {
        return;
      }
      var delta := add.value;
      var pending := delta.Keys;
      while pending != {}
        invariant pending <= delta.Keys
        invariant scores == Added(old(scores), delta - pending)
        decreases pending
      {
        var k :| k in pending;
        ghost var done := delta - pending;
        scores := scores[k := Get(scores, k) + delta[k]];
        pending := pending - {k};
        assert delta - pending == done[k := delta[k]];
      }
      assert delta - pending == delta;
    }

    /**
     * A click on option `choice` of the current question: its deltas are added,
     * the cursor moves on by one, and the quiz is finished exactly when that was
     * the last question.
     */
    method Answer(choice: nat) returns (finished: bool)
      requires Valid() && qIndex < |questions| && choice < |questions[qIndex].options|
      modifies this`scores, this`qIndex
      ensures Valid()
      ensures scores == Apply(old(scores), old(questions[qIndex].options[choice].add))
      ensures qIndex == old(qIndex) + 1
      ensures finished <==> qIndex == |questions|
      ensures finished <==> Phase() == Completed
      ensures !finished ==> Phase() == InProgress(qIndex)
    {
      AddScores(questions[qIndex].options[choice].add);
      qIndex := qIndex + 1;
      finished := !(qIndex < |questions|);
    }

    /** `scoreProfile`: the affinity of `p` with the current scores. */
    method ScoreProfile(p: Profile) returns (total: int)
      ensures total == AffinityOf(scores, p)
    {
      total := 0;
      var pd := Weights(p);
      var pending := scores.Keys;
      while pending != {}
        invariant pending <= scores.Keys
        invariant total + Dot(pending, scores, pd) == Dot(scores.Keys, scores, pd)
        decreases pending
      {
        var dim :| dim in pending;
        DotRemove(pending, dim, scores, pd);
        total := total + Get(scores, dim) * Get(pd, dim);
        pending := pending - {dim};
      }
    }

    /** The ranking `renderResults` lists. */
    method Results() returns (ranked: seq<Scored>)
      ensures ranked == Recommendations(scores, profiles)
    {
      var scored: seq<Scored> := [];
      for i := 0 to |profiles|
        invariant |scored| == i
        invariant forall j :: 0 <= j < i ==> scored[j] == Scored(profiles[j], AffinityOf(scores, profiles[j]))
      {
        var s := ScoreProfile(profiles[i]);
        scored := scored + [Scored(profiles[i], s)];
      }
      assert scored == Scoring(scores, profiles);
      ranked := Top(SortByScore(scored), TopCount);
    }

    /**
     * The progress line: at a question what `updateProgress` computes, on the
     * results screen 100%, and with no questions an empty bar.
     */
    function ProgressBar(): (b: Bar)
      reads this
      requires Valid()
      ensures Phase() == Completed ==> b == Complete && Width(b) == 100
      ensures Phase() == NoQuestions ==> b == Loading && Width(b) == 0
      ensures Phase().InProgress? ==>
                b == Counting(qIndex + 1, |questions|, Percent(qIndex, |questions|)) &&
                0 <= Width(b) <= 100
    {
      if Phase() == Completed then Complete
      else if questions == [] then ProgressOf(qIndex, 0)
      else
        PercentInRange(qIndex, |questions|);
        ProgressOf(qIndex, |questions|)
    }
  }
}
