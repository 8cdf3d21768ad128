/**
 * Affinity of a profile: the dot product of the score map with the profile's
 * weights, summed over the keys of the score map, a missing weight counting 0.
 * The sum is over a set, so no enumeration order is involved; `DotRemove`
 * shows that any key may be taken first.
 */
module Affinity {
  import opened QuizData
  import opened Scores

  /** Some key of a non-empty key set. */
  ghost function Pick(keys: set<string>): (k: string)
    requires keys != {}
    ensures k in keys
  {
    var k :| k in keys; k
  }

  /** Sum over `keys` of `s[k] * w[k]`, missing entries reading as 0. */
  ghost function Dot(keys: set<string>, s: ScoreMap, w: ScoreMap): int
    decreases keys
  {
    if keys == {} then 0
    else
      var k := Pick(keys);
      Get(s, k) * Get(w, k) + Dot(keys - {k}, s, w)
  }

  /** The affinity `scoreProfile` computes for `p` against the score map `s`. */
  ghost function AffinityOf(s: ScoreMap, p: Profile): int {
    Dot(s.Keys, s, Weights(p))
  }

  /** Order independence: the sum can be split at any key, not only the one `Dot` picks. */
  lemma {:induction false} DotRemove(keys: set<string>, k: string, s: ScoreMap, w: ScoreMap)
    requires k in keys
    ensures Dot(keys, s, w) == Get(s, k) * Get(w, k) + Dot(keys - {k}, s, w)
    decreases keys
  {
    var j := Pick(keys);
    if j != k {
      DotRemove(keys - {j}, k, s, w);
      DotRemove(keys - {k}, j, s, w);
      assert keys - {j} - {k} == keys - {k} - {j};
    }
  }

  /** With every weight missing the sum is 0. */
  lemma {:induction false} DotNoWeights(keys: set<string>, s: ScoreMap)
    ensures Dot(keys, s, map[]) == 0
    decreases keys
  {
    if keys != {} {
      DotNoWeights(keys - {Pick(keys)}, s);
    }
  }

  /** With every score zero the sum is 0. */
  lemma {:induction false} DotZeroScores(keys: set<string>, s: ScoreMap, w: ScoreMap)
    requires forall k :: k in s ==> s[k] == 0
    ensures Dot(keys, s, w) == 0
    decreases keys
  {
    if keys != {} {
      DotZeroScores(keys - {Pick(keys)}, s, w);
    }
  }

  /** Keys outside the score map add nothing, so only the keys the map holds matter. */
  lemma {:induction false} DotOutside(keys: set<string>, s: ScoreMap, w: ScoreMap)
    ensures Dot(keys, s, w) == Dot(keys * s.Keys, s, w)
    decreases keys
  {
    if keys != {} {
      var j := Pick(keys);
      DotOutside(keys - {j}, s, w);
      if j in s {
        DotRemove(keys * s.Keys, j, s, w);
        assert keys * s.Keys - {j} == (keys - {j}) * s.Keys;
      } else {
        assert keys * s.Keys == (keys - {j}) * s.Keys;
      }
    }
  }

  /** The sum is linear in the score map. */
  lemma {:induction false} DotAdded(keys: set<string>, a: ScoreMap, b: ScoreMap, w: ScoreMap)
    ensures Dot(keys, Added(a, b), w) == Dot(keys, a, w) + Dot(keys, b, w)
    decreases keys
  {
    if keys != {} {
      var j := Pick(keys);
      DotAdded(keys - {j}, a, b, w);
      GetAdded(a, b, j);
      assert (Get(a, j) + Get(b, j)) * Get(w, j) == Get(a, j) * Get(w, j) + Get(b, j) * Get(w, j);
    }
  }

  /** A profile without `dims` scores 0 whatever the answers. */
  lemma NoDimsScoresZero(s: ScoreMap, p: Profile)
    requires p.dims.None?
    ensures AffinityOf(s, p) == 0
  {
    DotNoWeights(s.Keys, s);
  }

  /** Before any answer every profile scores 0. */
  lemma InitialAffinityZero(dims: seq<string>, p: Profile)
    ensures AffinityOf(InitScores(dims), p) == 0
  {
    var s := InitScores(dims);
    DotZeroScores(s.Keys, s, Weights(p));
  }

  /**
   * Adding an option's deltas raises every profile's affinity by the affinity of
   * the deltas themselves, undeclared delta keys included: the final affinity is
   * the sum of the chosen options' own affinities.
   */
  lemma AffinityAdded(s: ScoreMap, add: ScoreMap, p: Profile)
    ensures AffinityOf(Added(s, add), p) == AffinityOf(s, p) + AffinityOf(add, p)
  {
    var w := Weights(p);
    var u := s.Keys + add.Keys;
    assert Added(s, add).Keys == u;
    DotAdded(u, s, add, w);
    DotOutside(u, s, w);
    DotOutside(u, add, w);
    assert u * s.Keys == s.Keys;
    assert u * add.Keys == add.Keys;
  }
}
