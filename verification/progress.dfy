/**
 * The progress bar: `Progreso: current / total` and a percentage, computed in
 * exact integer arithmetic. `Math.round(i / n * 100)`, taken on the exact
 * quotient of non-negative values, is the nearest integer to `100 * i / n`
 * with a half rounded up, which is `(200 * i + n) / (2 * n)` in integer
 * division; the double the page computes can land on the other side of a half.
 */
module Progress {

  /** `Math.round(a / b)` on the exact quotient, `a >= 0`, `b > 0`: the nearest integer, a half rounded up. */
  function RoundHalfUp(a: nat, b: nat): (r: nat)
    requires b > 0
    ensures 2 * b * r - b <= 2 * a < 2 * b * r + b
  {
    (2 * a + b) / (2 * b)
  }

  /** The unrounded percentage before the clamp: `Math.round(index / total * 100)`. */
  function Percent(index: nat, total: nat): nat
    requires total > 0
  {
    RoundHalfUp(100 * index, total)
  }

  /** `Math.max(0, Math.min(100, x))`. */
  function Clamp(x: int): (r: int)
    ensures 0 <= r <= 100
    ensures 0 <= x <= 100 ==> r == x
    ensures x > 100 ==> r == 100
  {
    if x < 0 then 0 else if x > 100 then 100 else x
  }

  /** What the progress line shows. */
  datatype Bar =
    | Loading                                         // no questions: "loading" text, empty bar
    | Counting(current: nat, total: nat, percent: int) // `current / total` and `percent%`
    | Complete                                        // the results screen: 100%

  /** The width of the filled bar, in percent. */
  function Width(b: Bar): int {
    match b
    case Loading => 0
    case Counting(_, _, pct) => pct
    case Complete => 100
  }

  /** What `updateProgress` shows at question `index` of `total`. */
  function ProgressOf(index: nat, total: nat): (b: Bar)
    ensures b.Loading? <==> total == 0
    ensures b.Counting? ==> b.total == total && 1 <= b.current <= total && b.current <= index + 1
    ensures b.Counting? ==> b.current == if index + 1 < total then index + 1 else total
    ensures 0 <= Width(b) <= 100
  {
    if total == 0 then Loading
    else Counting(if index + 1 < total then index + 1 else total, total, Clamp(Percent(index, total)))
  }

  /** Multiplying by a positive factor keeps a strict order, in both directions. */
  lemma ScaleOrder(k: int, x: int, y: int)
    requires k > 0
    ensures k * x < k * y <==> x < y
  {
    if x < y {
      assert k * y - k * x == k * (y - x);
    } else {
      assert k * x - k * y == k * (x - y);
    }
  }

  /** Only one integer is within a half of `a / b` (halves going up). */
  lemma RoundHalfUpUnique(a: nat, b: nat, r: int)
    requires b > 0
    requires 2 * b * r - b <= 2 * a < 2 * b * r + b
    ensures r == RoundHalfUp(a, b)
  {
    var q := RoundHalfUp(a, b);
    ScaleOrder(2 * b, r, q + 1);
    ScaleOrder(2 * b, q, r + 1);
  }

  /** Within the quiz the percentage never exceeds 100, so the clamp changes nothing. */
  lemma PercentInRange(index: nat, total: nat)
    requires 0 < total && index <= total
    ensures Percent(index, total) <= 100
    ensures ProgressOf(index, total) == Counting(if index < total then index + 1 else total, total, Percent(index, total))
  {
    var r := Percent(index, total);
    assert 2 * total * index <= 2 * total * total by {
      ScaleOrder(2 * total, total, index);
    }
    ScaleOrder(2 * total, r, 101);
  }

  /** Before the first answer the bar is empty. */
  lemma PercentAtStart(total: nat)
    requires total > 0
    ensures Percent(0, total) == 0
  {
  }

  /** Answering never makes the bar shrink. */
  lemma PercentMonotone(i: nat, j: nat, total: nat)
    requires total > 0 && i <= j
    ensures Percent(i, total) <= Percent(j, total)
  {
    var p: int, q: int := Percent(i, total), Percent(j, total);
    ScaleOrder(2 * total, q, p - 1);
  }

  /**
   * At the last question the bar already shows 100% exactly when there are at
   * least 200 questions (199.5 / 200 rounds up); with fewer it stays below 100%
   * until the results screen.
   */
  lemma PercentAtLastQuestion(total: nat)
    requires total > 0
    ensures Percent(total - 1, total) == 100 <==> total >= 200
  {
    if total >= 200 {
      RoundHalfUpUnique(100 * (total - 1), total, 100);
    } else {
      var r := Percent(total - 1, total);
      ScaleOrder(2 * total, r, 100);
    }
  }

  /** With fewer than 200 questions no question shows 100%. */
  lemma PercentBelowFull(index: nat, total: nat)
    requires index < total < 200
    ensures Percent(index, total) < 100
  {
    PercentMonotone(index, total - 1, total);
    PercentAtLastQuestion(total);
    PercentInRange(total - 1, total);
  }
}
