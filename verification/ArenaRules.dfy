/**
 The pure decision rules of a duel: speed-weighted points, the verdict, the bot's
 thinking time and the ELO update. Fractions are exact (real numbers), and the
 power 10^(d/400) is a table `p` of which only positivity and p(d) * p(-d) == 1
 are used.
 */
module ArenaRules {

  datatype Outcome = Won | Lost | Draw

  /** Nearest integer, halves away from zero. */
  function Round(x: real): int {
    if x >= 0.0 then (x + 0.5).Floor else -((-x + 0.5).Floor)
  }

  lemma RoundIsOdd(x: real)
    ensures Round(-x) == -Round(x)
  {}

  lemma RoundIsMonotone(x: real, y: real)
    requires x <= y
    ensures Round(x) <= Round(y)
  {}

  lemma RoundFixesIntegers(n: int)
    ensures Round(n as real) == n
  {}

  /** Points for one answer: 100 for an instant correct one, 0 at or after the window. */
  function AnswerPoints(correct: bool, responseMs: int, windowMs: int): int {
    if !correct || responseMs < 0 || windowMs <= 0 || responseMs >= windowMs then 0
    else Round(100.0 * (1.0 - responseMs as real / windowMs as real))
  }

  lemma QuotientOrder(r1: int, r2: int, w: int)
    requires 0 <= r1 <= r2 && 0 < w
    ensures 0.0 <= r1 as real / w as real <= r2 as real / w as real
  {}

  /** Points stay in 0..100, only a correct answer earns any, and being faster never costs. */
  lemma AnswerPointsLaws(correct: bool, r1: int, r2: int, w: int)
    requires r1 <= r2
    ensures 0 <= AnswerPoints(correct, r1, w) <= 100
    ensures !correct ==> AnswerPoints(correct, r1, w) == 0
    ensures 0 <= r1 ==> AnswerPoints(correct, r2, w) <= AnswerPoints(correct, r1, w)
    ensures correct && 0 < w ==> AnswerPoints(correct, 0, w) == 100
  {
    RoundFixesIntegers(0);
    RoundFixesIntegers(100);
    if correct && 0 <= r1 < w {
      var x := 100.0 * (1.0 - r1 as real / w as real);
      QuotientOrder(0, r1, w);
      QuotientOrder(r1, w, w);
      RoundIsMonotone(0.0, x);
      RoundIsMonotone(x, 100.0);
      if r2 < w {
        QuotientOrder(r1, r2, w);
        RoundIsMonotone(100.0 * (1.0 - r2 as real / w as real), x);
      }
    }
  }

  lemma RoundIsNear(x: real)
    ensures -0.5 <= Round(x) as real - x <= 0.5
  {}

  lemma Scaled(r: real, w: real, x: real) returns (y: real)
    requires 0.0 < w && x == 100.0 * (1.0 - r / w)
    ensures y == x * w && y == 100.0 * (w - r)
  {
    y := 100.0 * (w - r);
    assert r / w * w == r;
    calc {
      x * w;
      100.0 * (1.0 - r / w) * w;
      100.0 * (w - r / w * w);
    }
  }

  lemma ScaledError(n: real, x: real, w: real, y: real) returns (z: real)
    requires 0.0 < w && -0.5 <= n - x <= 0.5 && y == x * w
    ensures z == n * w && -w <= 2.0 * (z - y) <= w
  {
    z := n * w;
    ProductNonNegative(0.5 - (n - x), w);
    ProductNonNegative((n - x) + 0.5, w);
  }

  lemma ProductAsReal(n: int, w: int)
    ensures (n * w) as real == n as real * w as real
  {}

  /** The points are the whole number nearest to 100 * (w - r) / w, in exact integer terms. */
  lemma PointsAreNearest(r: int, w: int)
    requires 0 <= r < w
    ensures -w <= 2 * (AnswerPoints(true, r, w) * w - 100 * (w - r)) <= w
  {
    var x := 100.0 * (1.0 - r as real / w as real);
    NearestInIntegers(Round(x), x, r, w);
  }

  lemma NearestInIntegers(n: int, x: real, r: int, w: int)
    requires 0 < w && n == Round(x) && x == 100.0 * (1.0 - r as real / w as real)
    ensures -w <= 2 * (n * w - 100 * (w - r)) <= w
  {
    RoundIsNear(x);
    var y := Scaled(r as real, w as real, x);
    var z := ScaledError(n as real, x, w as real, y);
    ProductAsReal(n, w);
    IntegerBounds(n * w, 100 * (w - r), w, z, y);
  }

  lemma IntegerBounds(a: int, b: int, w: int, z: real, y: real)
    requires z == a as real && y == b as real && -(w as real) <= 2.0 * (z - y) <= w as real
    ensures -w <= 2 * (a - b) <= w
  {}

  function OutcomeFromScores(scoreA: int, scoreB: int): (Outcome, Outcome) {
    if scoreA > scoreB then (Won, Lost)
    else if scoreA < scoreB then (Lost, Won)
    else (Draw, Draw)
  }

  /** The bot answers between 20% and 70% into the window, whatever the draw r. */
  function BotDelay(r: real, window: int): int {
    var r' := if r < 0.0 then 0.0 else if r >= 1.0 then 0.999 else r;
    (window as real * (0.2 + (0.7 - 0.2) * r')).Floor
  }

  lemma BotDelayInsideWindow(r: real, window: int)
    requires 0 <= window
    ensures 0 <= BotDelay(r, window) <= window
    ensures 0.2 * window as real - 1.0 < BotDelay(r, window) as real <= 0.7 * window as real
  {
    var r' := if r < 0.0 then 0.0 else if r >= 1.0 then 0.999 else r;
    var f := 0.2 + (0.7 - 0.2) * r';
    assert 0.2 <= f <= 0.7;
    ProductNonNegative(window as real, f - 0.2);
    ProductNonNegative(window as real, 0.7 - f);
    assert BotDelay(r, window) as real <= window as real * f;
  }

  /** The share of the window grows evenly with the draw, and a draw outside [0, 1) counts as its nearest end. */
  lemma BotDelayFollowsDraw(r: real, window: int)
    requires 0.0 <= r < 1.0
    ensures window as real * (0.2 + 0.5 * r) - 1.0 < BotDelay(r, window) as real <= window as real * (0.2 + 0.5 * r)
  {
    assert 0.7 - 0.2 == 0.5;
    assert (window as real * (0.2 + (0.7 - 0.2) * r)) == window as real * (0.2 + 0.5 * r);
  }

  lemma BotDelayOutsideDraws(r: real, window: int)
    ensures r < 0.0 ==> BotDelay(r, window) == BotDelay(0.0, window)
    ensures r >= 1.0 ==> BotDelay(r, window) == BotDelay(0.999, window)
  {}

  // ---------------------------------------------------------------- ELO

  ghost predicate IsPowerTable(p: int -> real) {
    forall d: int :: p(d) > 0.0 && p(d) * p(-d) == 1.0
  }

  /** p(d) stands for 10^(d/400). */
  function ExpectedScore(p: int -> real, ratingA: int, ratingB: int): real
    requires p(ratingB - ratingA) > 0.0
  {
    1.0 / (1.0 + p(ratingB - ratingA))
  }

  /** The K factor in force: the default replaces a missing one. */
  function Factor(k: real): real { if k <= 0.0 then 32.0 else k }

  function EloDelta(p: int -> real, ratingA: int, ratingB: int, score: real, k: real): int
    requires p(ratingB - ratingA) > 0.0
  {
    Share(Factor(k), score - ExpectedScore(p, ratingA, ratingB))
  }

  function Share(k: real, surprise: real): int {
    Round(k * surprise)
  }

  lemma ReciprocalPair(x: real, y: real)
    requires x > 0.0 && y > 0.0 && x * y == 1.0
    ensures 1.0 / (1.0 + x) + 1.0 / (1.0 + y) == 1.0
    ensures 0.0 < 1.0 / (1.0 + x) < 1.0
  {
    var u, v := 1.0 + x, 1.0 + y;
    assert u * v == u + v;
    var a, b := 1.0 / u, 1.0 / v;
    assert a * u == 1.0 && b * v == 1.0;
    calc {
      a + b;
      a * (b * v) + b * (a * u);
      a * b * (u + v);
      a * b * (u * v);
      (a * u) * (b * v);
      1.0;
    }
  }

  /** Expected scores are a probability split between the two players. */
  lemma ExpectedScoresSplit(p: int -> real, ra: int, rb: int)
    requires IsPowerTable(p)
    ensures p(rb - ra) > 0.0 && p(ra - rb) > 0.0
    ensures 0.0 < ExpectedScore(p, ra, rb) < 1.0
    ensures ExpectedScore(p, ra, rb) + ExpectedScore(p, rb, ra) == 1.0
  {
    var d := rb - ra;
    assert p(d) > 0.0 && p(d) * p(-d) == 1.0 && p(-d) > 0.0;
    assert -d == ra - rb;
    ReciprocalPair(p(d), p(-d));
  }

  lemma ProductNonNegative(a: real, b: real)
    requires 0.0 <= a && 0.0 <= b
    ensures 0.0 <= a * b
  {}

  lemma Distribute(k: real, x: real)
    ensures k * (1.0 - x) == k - k * x
    ensures k * (1.0 + x) == k + k * x
    ensures k * -x == -(k * x)
  {}

  lemma ProductWithin(k: real, x: real, y: real, bound: real)
    requires 0.0 < k <= bound && -1.0 <= x <= 1.0 && y == -x
    ensures -bound <= k * x <= bound && k * y == -(k * x)
    ensures x >= 0.0 ==> k * x >= 0.0
    ensures x <= 0.0 ==> k * x <= 0.0
  {
    Distribute(k, x);
    ProductNonNegative(k, 1.0 - x);
    ProductNonNegative(k, 1.0 + x);
    if x >= 0.0 { ProductNonNegative(k, x); } else { ProductNonNegative(k, -x); }
  }

  lemma RoundWithin(z: real, bound: int)
    requires (-bound) as real <= z <= bound as real
    ensures -bound <= Round(z) <= bound && Round(-z) == -Round(z)
  {
    RoundIsOdd(z);
    RoundFixesIntegers(bound);
    RoundFixesIntegers(-bound);
    RoundIsMonotone(z, bound as real);
    RoundIsMonotone((-bound) as real, z);
  }

  lemma SharesCancel(k: real, x: real, y: real, bound: int)
    requires 0.0 < k <= bound as real && -1.0 <= x <= 1.0 && y == -x
    ensures -bound <= Share(k, x) <= bound
    ensures Share(k, y) == -Share(k, x)
    ensures x >= 0.0 ==> Share(k, x) >= 0
    ensures x <= 0.0 ==> Share(k, x) <= 0
  {
    ProductWithin(k, x, y, bound as real);
    RoundWithin(k * x, bound);
  }

  /**
   One result's two deltas cancel, are at most `bound` in size for every integer
   bound on the K factor, and never go against the score.
   */
  lemma EloDeltaLaws(p: int -> real, ra: int, rb: int, score: real, k: real, bound: int)
    requires IsPowerTable(p) && 0.0 <= score <= 1.0
    requires Factor(k) <= bound as real
    ensures p(rb - ra) > 0.0 && p(ra - rb) > 0.0
    ensures EloDelta(p, rb, ra, 1.0 - score, k) == -EloDelta(p, ra, rb, score, k)
    ensures -bound <= EloDelta(p, ra, rb, score, k) <= bound
    ensures score == 1.0 ==> EloDelta(p, ra, rb, score, k) >= 0
    ensures score == 0.0 ==> EloDelta(p, ra, rb, score, k) <= 0
  {
    ExpectedScoresSplit(p, ra, rb);
    SharesCancel(Factor(k),
                 score - ExpectedScore(p, ra, rb), (1.0 - score) - ExpectedScore(p, rb, ra), bound);
  }

  /** The delta is the whole number nearest to K times the surprise, K being 32 when none is set. */
  lemma EloDeltaIsNearest(p: int -> real, ra: int, rb: int, score: real, k: real)
    requires IsPowerTable(p)
    ensures p(rb - ra) > 0.0
    ensures var surprise := score - 1.0 / (1.0 + p(rb - ra));
            -0.5 <= EloDelta(p, ra, rb, score, k) as real - (if k <= 0.0 then 32.0 else k) * surprise <= 0.5
  {
    assert p(rb - ra) > 0.0;
    RoundIsNear(Factor(k) * (score - ExpectedScore(p, ra, rb)));
  }
}
