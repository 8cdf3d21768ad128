/**
 * The ranking pipeline of the results screen: scored profiles sorted by
 * descending score with a stable sort (ties keep their input order, as
 * `Array.prototype.sort` must since the 2019 edition of ECMA-262), then cut to
 * the first few entries.
 */
module Ranking {
  import opened QuizData

  /** A profile together with its affinity, the `{ ...p, score }` object. */
  datatype Scored = Scored(profile: Profile, score: int)

  /** How many entries the results screen keeps. */
  const TopCount: nat := 5

  /** Non-increasing in score: the order the comparator `b.score - a.score` asks for. */
  ghost predicate Descending(s: seq<Scored>) {
    forall i, j :: 0 <= i < j < |s| ==> s[i].score >= s[j].score
  }

  /** The entries of `s` whose score is `v`, in their order in `s`. */
  function WithScore(s: seq<Scored>, v: int): seq<Scored> {
    if s == [] then []
    else (if s[0].score == v then [s[0]] else []) + WithScore(s[1..], v)
  }

  /** Inserts `x` into a descending `t` ahead of every entry with the same score. */
  function Insert(x: Scored, t: seq<Scored>): (r: seq<Scored>)
    ensures multiset(r) == multiset(t) + multiset{x}
  {
    if t == [] || x.score >= t[0].score then [x] + t
    else
      assert t == [t[0]] + t[1..];
      [t[0]] + Insert(x, t[1..])
  }

  /** Stable insertion sort by descending score. */
  function SortByScore(s: seq<Scored>): (r: seq<Scored>)
    ensures multiset(r) == multiset(s)
    ensures Descending(r)
  {
    if s == [] then []
    else
      assert s == [s[0]] + s[1..];
      InsertDescending(s[0], SortByScore(s[1..]));
      Insert(s[0], SortByScore(s[1..]))
  }

  /** The first `n` entries, or all of them when there are fewer (`slice(0, n)`). */
  function Top(s: seq<Scored>, n: nat): (r: seq<Scored>)
    ensures |r| == if |s| < n then |s| else n
    ensures r <= s
  {
    if |s| <= n then s else s[..n]
  }

  /** What the results screen lists, given the scored profiles in input order. */
  function Ranked(scored: seq<Scored>): seq<Scored> {
    Top(SortByScore(scored), TopCount)
  }

  lemma {:induction false} InsertDescending(x: Scored, t: seq<Scored>)
    requires Descending(t)
    ensures Descending(Insert(x, t))
  {
    if t != [] && x.score < t[0].score {
      var rest := t[1..];
      InsertDescending(x, rest);
      var r := Insert(x, rest);
      forall e | e in r ensures e.score <= t[0].score {
        assert e in multiset(r);
        if e != x {
          assert e in multiset(rest);
          assert e in rest;
        }
      }
      assert Insert(x, t) == [t[0]] + r;
    }
  }

  /** Entries picked by score are entries of the sequence with that score. */
  lemma {:induction false} WithScoreIn(s: seq<Scored>, v: int, e: Scored)
    requires e in WithScore(s, v)
    ensures e in s && e.score == v
  {
    if s != [] && !(s[0].score == v && e == s[0]) {
      WithScoreIn(s[1..], v, e);
    }
  }

  /** Inserting `x` places it before every entry of `t` with the same score. */
  lemma {:induction false} InsertWithScore(x: Scored, t: seq<Scored>, v: int)
    requires Descending(t)
    ensures WithScore(Insert(x, t), v) == (if x.score == v then [x] else []) + WithScore(t, v)
  {
    if t == [] || x.score >= t[0].score {
      assert Insert(x, t) == [x] + t;
      assert ([x] + t)[1..] == t;
    } else {
      var rest := t[1..];
      var r := Insert(x, rest);
      assert Insert(x, t) == [t[0]] + r;
      assert Descending(rest) by {
        forall i, j | 0 <= i < j < |rest| ensures rest[i].score >= rest[j].score {
          assert rest[i] == t[i + 1] && rest[j] == t[j + 1];
        }
      }
      InsertWithScore(x, rest, v);
      assert ([t[0]] + r)[1..] == r;
      assert WithScore(Insert(x, t), v) == (if t[0].score == v then [t[0]] else []) + WithScore(r, v);
      assert WithScore(t, v) == (if t[0].score == v then [t[0]] else []) + WithScore(rest, v);
    }
  }

  /**
   * Stability: among entries of equal score the sort keeps the input order. With
   * `Descending` and the permutation, this says the sort is a stable sort.
   */
  lemma {:induction false} SortStable(s: seq<Scored>, v: int)
    ensures WithScore(SortByScore(s), v) == WithScore(s, v)
  {
    if s != [] {
      SortStable(s[1..], v);
      InsertWithScore(s[0], SortByScore(s[1..]), v);
    }
  }

  /** A non-empty sequence has at least one entry with the score of its first. */
  lemma WithScoreHead(s: seq<Scored>)
    requires s != []
    ensures WithScore(s, s[0].score) != []
  {
  }

  /** In a descending sequence no entry scores above the first. */
  lemma DescendingHead(s: seq<Scored>, e: Scored)
    requires Descending(s) && e in s
    ensures e.score <= s[0].score
  {
    var i :| 0 <= i < |s| && s[i] == e;
    assert i == 0 || s[0].score >= s[i].score;
  }

  /**
   * Any two descending sequences that agree, score by score, on the order of
   * their entries are equal: every stable sort by descending score returns what
   * `SortByScore` returns.
   */
  lemma {:induction false} StableSortUnique(a: seq<Scored>, b: seq<Scored>)
    requires Descending(a) && Descending(b)
    requires forall v :: WithScore(a, v) == WithScore(b, v)
    ensures a == b
  {
    if a == [] || b == [] {
      if a != [] {
        WithScoreHead(a);
        assert false;
      } else if b != [] {
        WithScoreHead(b);
        assert false;
      }
    } else {
      var m, n := a[0].score, b[0].score;
      assert a[0] in WithScore(a, m);
      WithScoreIn(b, m, a[0]);
      DescendingHead(b, a[0]);
      assert b[0] in WithScore(b, n);
      WithScoreIn(a, n, b[0]);
      DescendingHead(a, b[0]);
      assert m == n;
      assert WithScore(a, m) == [a[0]] + WithScore(a[1..], m);
      assert WithScore(b, m) == [b[0]] + WithScore(b[1..], m);
      assert a[0] == WithScore(a, m)[0] == WithScore(b, m)[0] == b[0];
      forall v ensures WithScore(a[1..], v) == WithScore(b[1..], v) {
        assert WithScore(a, v) == WithScore(b, v);
        assert WithScore(a, v) == (if v == m then [a[0]] else []) + WithScore(a[1..], v);
        assert WithScore(b, v) == (if v == m then [b[0]] else []) + WithScore(b[1..], v);
        if v == m {
          assert ([a[0]] + WithScore(a[1..], v))[1..] == WithScore(a[1..], v);
          assert ([b[0]] + WithScore(b[1..], v))[1..] == WithScore(b[1..], v);
        } else {
          assert [] + WithScore(a[1..], v) == WithScore(a[1..], v);
          assert [] + WithScore(b[1..], v) == WithScore(b[1..], v);
        }
      }
      StableSortUnique(a[1..], b[1..]);
      assert a == [a[0]] + a[1..];
      assert b == [b[0]] + b[1..];
    }
  }

  /** Cutting a sequence short keeps, for each score, a prefix of its entries. */
  lemma {:induction false} WithScorePrefix(s: seq<Scored>, k: nat, v: int)
    requires k <= |s|
    ensures WithScore(s[..k], v) <= WithScore(s, v)
  {
    if k > 0 {
      WithScorePrefix(s[1..], k - 1, v);
      assert s[..k][1..] == s[1..][..k - 1];
    }
  }

  /** The results list has `min(5, n)` entries, descending, drawn from the input. */
  lemma RankedShape(scored: seq<Scored>)
    ensures |Ranked(scored)| == if |scored| < TopCount then |scored| else TopCount
    ensures Descending(Ranked(scored))
    ensures multiset(Ranked(scored)) <= multiset(scored)
  {
    var sorted := SortByScore(scored);
    var r := Ranked(scored);
    assert sorted == r + sorted[|r|..];
    assert multiset(sorted) == multiset(r) + multiset(sorted[|r|..]);
  }

  /** Ties inside the results list keep their input order. */
  lemma RankedStable(scored: seq<Scored>, v: int)
    ensures WithScore(Ranked(scored), v) <= WithScore(scored, v)
  {
    var sorted := SortByScore(scored);
    var r := Ranked(scored);
    assert r == sorted[..|r|];
    WithScorePrefix(sorted, |r|, v);
    SortStable(scored, v);
  }

  /** No entry left out of the results list scores above an entry kept. */
  lemma RankedLeftOut(scored: seq<Scored>, x: Scored, i: nat)
    requires x in multiset(scored) - multiset(Ranked(scored))
    requires i < |Ranked(scored)|
    ensures x.score <= Ranked(scored)[i].score
  {
    var sorted := SortByScore(scored);
    var r := Ranked(scored);
    var k := |r|;
    var rest := sorted[k..];
    assert sorted == r + rest;
    assert multiset(sorted) == multiset(r) + multiset(rest);
    assert x in multiset(rest);
    assert x in rest;
    var j :| 0 <= j < |rest| && rest[j] == x;
    assert sorted[k + j] == x && sorted[i] == r[i];
  }
}
