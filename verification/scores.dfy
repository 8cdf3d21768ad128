/** The running score map: its zeroed start and the addition of an option's deltas. */
module Scores {
  import opened Wrappers
  import opened QuizData

  /** The value stored under `k`, a missing key reading as 0 (`m[k] || 0`). */
  function Get(m: ScoreMap, k: string): int {
    if k in m then m[k] else 0
  }

  /** The score map built from the declared dimensions, one at a time in order. */
  function InitScores(dims: seq<string>): (s: ScoreMap)
    ensures s.Keys == set d | d in dims
    ensures forall d :: d in s ==> s[d] == 0
  {
    if dims == [] then map[]
    else InitScores(dims[..|dims| - 1])[dims[|dims| - 1] := 0]
  }

  /**
   * The score map after every delta of `add` has been added in: keys of either
   * map, each holding the old value (0 when absent) plus the delta (0 when absent).
   */
  function Added(s: ScoreMap, add: ScoreMap): ScoreMap {
    map k | k in s.Keys + add.Keys :: Get(s, k) + Get(add, k)
  }

  /** The score map after answering with an option whose `add` may be missing. */
  function Apply(s: ScoreMap, add: Option<ScoreMap>): ScoreMap {
    match add
    case None => s
    case Some(a) => Added(s, a)
  }

  /** Reading any key of the sum gives the sum of the readings, inside or outside either map. */
  lemma GetAdded(s: ScoreMap, add: ScoreMap, k: string)
    ensures Get(Added(s, add), k) == Get(s, k) + Get(add, k)
  {
  }

  /** Answering two options gives the same scores in either order. */
  lemma AddedCommutes(s: ScoreMap, a: ScoreMap, b: ScoreMap)
    ensures Added(Added(s, a), b) == Added(Added(s, b), a)
  {
    var l, r := Added(Added(s, a), b), Added(Added(s, b), a);
    assert l.Keys == r.Keys;
    forall k | k in l ensures l[k] == r[k] {
      GetAdded(s, a, k);
      GetAdded(s, b, k);
    }
  }

  /** An option with no deltas leaves the scores as they were. */
  lemma AddedEmpty(s: ScoreMap)
    ensures Added(s, map[]) == s
  {
  }

  /**
   * A delta key outside the declared dimensions is not ignored: it becomes a new
   * key of the score map, holding the delta.
   */
  lemma AddedKeepsUndeclaredKeys(dims: seq<string>, add: ScoreMap, k: string)
    requires k in add && k !in dims
    ensures k in Added(InitScores(dims), add)
    ensures Added(InitScores(dims), add)[k] == add[k]
    ensures Added(InitScores(dims), add).Keys == (set d | d in dims) + add.Keys
  {
  }
}
