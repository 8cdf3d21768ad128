/**
 * Worked cases: a two-dimension quiz with one question, and a delta key that
 * is not a declared dimension.
 */
module QuizScenarios {
  import opened Wrappers
  import opened QuizData
  import opened Scores
  import opened Affinity
  import opened Ranking
  import opened Quiz

  const Dims: seq<string> := ["data", "field"]
  const P1: Profile := Profile("P1", [], Some(map["data" := 1, "field" := 0]))
  const P2: Profile := Profile("P2", [], Some(map["data" := 0, "field" := 1]))

  /** The affinity of a two-key score map, spelt out key by key. */
  lemma DotTwoKeys(s: ScoreMap, w: ScoreMap)
    requires s.Keys == {"data", "field"}
    ensures Dot(s.Keys, s, w) == s["data"] * Get(w, "data") + s["field"] * Get(w, "field")
  {
    DotRemove(s.Keys, "data", s, w);
    assert s.Keys - {"data"} == {"field"};
    DotRemove({"field"}, "field", s, w);
    assert {"field"} - {"field"} == {};
  }

  lemma InitDims()
    ensures InitScores(Dims) == map["data" := 0, "field" := 0]
  {
    assert Dims[..1] == ["data"];
    assert Dims[..1][..0] == [];
  }

  /** Two entries, the first not below the second, come out in their input order. */
  lemma SortTwo(a: Scored, b: Scored)
    requires a.score >= b.score
    ensures Ranked([a, b]) == [a, b]
  {
    assert [a, b][1..] == [b];
    assert [b][1..] == [];
    assert SortByScore([b]) == [b];
  }

  /** Two entries, the second above the first, come out swapped. */
  lemma SortTwoSwap(a: Scored, b: Scored)
    requires a.score < b.score
    ensures Ranked([a, b]) == [b, a]
  {
    assert [a, b][1..] == [b];
    assert [b][1..] == [];
    assert SortByScore([b]) == [b];
    assert Insert(a, [b]) == [b] + Insert(a, []);
  }

  /** The score list for P1 and P2, given their two affinities. */
  lemma ScoreBoth(s: ScoreMap)
    requires s.Keys == {"data", "field"}
    ensures Scoring(s, [P1, P2]) == [Scored(P1, s["data"]), Scored(P2, s["field"])]
  {
    DotTwoKeys(s, Weights(P1));
    DotTwoKeys(s, Weights(P2));
  }

  /** Choosing `A` (`data: 2`) leaves the scores `{data: 2, field: 0}`. */
  lemma ScoresAfterA()
    ensures Apply(InitScores(Dims), Some(map["data" := 2])) == map["data" := 2, "field" := 0]
  {
    InitDims();
    assert Added(map["data" := 0, "field" := 0], map["data" := 2]).Keys == {"data", "field"};
  }

  /** With those scores P1 comes first with 2 and P2 second with 0. */
  lemma RankingAfterA()
    ensures Recommendations(map["data" := 2, "field" := 0], [P1, P2]) == [Scored(P1, 2), Scored(P2, 0)]
  {
    ScoreBoth(map["data" := 2, "field" := 0]);
    SortTwo(Scored(P1, 2), Scored(P2, 0));
  }

  /** Choosing `B` (`field: 3`) leaves the scores `{data: 0, field: 3}`. */
  lemma ScoresAfterB()
    ensures Apply(InitScores(Dims), Some(map["field" := 3])) == map["data" := 0, "field" := 3]
  {
    InitDims();
    assert Added(map["data" := 0, "field" := 0], map["field" := 3]).Keys == {"data", "field"};
  }

  /** With those scores P2 comes first with 3 and P1 second with 0. */
  lemma RankingAfterB()
    ensures Recommendations(map["data" := 0, "field" := 3], [P1, P2]) == [Scored(P2, 3), Scored(P1, 0)]
  {
    ScoreBoth(map["data" := 0, "field" := 3]);
    SortTwoSwap(Scored(P1, 0), Scored(P2, 3));
  }

  /**
   * An option adding to `extra`, which is not a declared dimension, still moves
   * a profile weighted on `extra`: the key is added to the scores and summed.
   */
  lemma UndeclaredKeyCounts()
    ensures Apply(InitScores(["data"]), Some(map["extra" := 1])) == map["data" := 0, "extra" := 1]
    ensures AffinityOf(map["data" := 0, "extra" := 1], Profile("X", [], Some(map["extra" := 5]))) == 5
  {
    var s := map["data" := 0, "extra" := 1];
    var w := map["extra" := 5];
    assert InitScores(["data"]) == map["data" := 0];
    DotRemove(s.Keys, "extra", s, w);
    assert s.Keys - {"extra"} == {"data"};
    DotRemove({"data"}, "data", s, w);
    assert {"data"} - {"data"} == {};
  }
}
