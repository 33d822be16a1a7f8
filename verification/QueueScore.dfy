/** Scores of the live queue: `(-priority * 10**13) + enqueued_at_ts`. */
module QueueScore {
  const SCALE: real := 10_000_000_000_000.0

  /** Half a unit in the last place of a binary64 significand: 2^-53. */
  const HALF_ULP: real := 1.0 / 9_007_199_254_740_992.0

  const PRIORITY_LIMIT: int := 0x8000_0000

  /** The product is an exact Python integer; it is then converted to a float
      and the timestamp is added, each with one rounding. */
  function Score(rnd: real -> real, priority: int, ts: real): real {
    rnd(rnd(-(priority as real) * SCALE) + ts)
  }

  ghost predicate Monotone(rnd: real -> real) {
    forall x, y :: x <= y ==> rnd(x) <= rnd(y)
  }

  function Abs(x: real): real {
    if x < 0.0 then -x else x
  }

  ghost predicate DoubleRounding(rnd: real -> real) {
    && Monotone(rnd)
    && forall x :: Abs(rnd(x) - x) <= Abs(x) * HALF_ULP
  }

  ghost predicate Exact(rnd: real -> real) {
    forall x :: rnd(x) == x
  }

  predicate PriorityInRange(priority: int) {
    -PRIORITY_LIMIT <= priority < PRIORITY_LIMIT
  }

  /** The priority is rounded before the time is added: priorities whose products
      round alike score alike. */
  lemma ScoreRoundsFirst(rnd: real -> real, p: int, p': int, ts: real)
    requires rnd(p as real * -10_000_000_000_000.0) == rnd(p' as real * -10_000_000_000_000.0)
    ensures Score(rnd, p, ts) == Score(rnd, p', ts)
  {
    assert -(p as real) * SCALE == p as real * -10_000_000_000_000.0;
    assert -(p' as real) * SCALE == p' as real * -10_000_000_000_000.0;
  }

  /** A score is within 3 * 10^7 of its exact value. */
  lemma ScoreError(rnd: real -> real, priority: int, ts: real)
    requires DoubleRounding(rnd) && PriorityInRange(priority) && 0.0 <= ts < 1_000_000_000_000.0
    ensures Abs(Score(rnd, priority, ts) - (-(priority as real) * SCALE + ts)) <= 30_000_000.0
  {
    var x := -(priority as real) * SCALE;
    var bound := 2147483648.0 * SCALE;
    assert -bound <= x <= bound;
    assert Abs(x) * HALF_ULP <= bound * HALF_ULP;
    assert Abs(rnd(x) - x) <= 3_000_000.0;
    var y := rnd(x) + ts;
    assert Abs(y) <= bound + 2_000_000_000_000.0;
    assert Abs(y) * HALF_ULP <= (bound + 2_000_000_000_000.0) * HALF_ULP;
    assert Abs(rnd(y) - y) <= 3_000_000.0;
  }

  /** Rounding never lets a lower priority overtake a higher one. */
  lemma HigherPriorityFirst(rnd: real -> real, p: int, ts: real, p': int, ts': real)
    requires DoubleRounding(rnd) && PriorityInRange(p) && PriorityInRange(p')
    requires 0.0 <= ts < 1_000_000_000_000.0 && 0.0 <= ts' < 1_000_000_000_000.0
    requires p > p'
    ensures Score(rnd, p, ts) < Score(rnd, p', ts')
  {
    ScoreError(rnd, p, ts);
    ScoreError(rnd, p', ts');
    assert p as real - p' as real >= 1.0;
    assert (p as real - p' as real) * SCALE >= SCALE;
  }

  /** Within one priority, rounding keeps the order of enqueueing weakly. */
  lemma EqualPriorityWeaklyFifo(rnd: real -> real, p: int, ts: real, ts': real)
    requires Monotone(rnd) && ts <= ts'
    ensures Score(rnd, p, ts) <= Score(rnd, p, ts')
  {
    var x := rnd(-(p as real) * SCALE);
    assert x + ts <= x + ts';
  }

  /** Without rounding the order is exactly lexicographic. */
  lemma ExactScoreIsLexicographic(rnd: real -> real, p: int, ts: real, p': int, ts': real)
    requires Exact(rnd) && 0.0 <= ts < SCALE && 0.0 <= ts' < SCALE
    ensures Score(rnd, p, ts) < Score(rnd, p', ts') <==> p > p' || (p == p' && ts < ts')
  {
    var d := p as real - p' as real;
    assert Score(rnd, p', ts') - Score(rnd, p, ts) == d * SCALE + ts' - ts;
    if p > p' {
      assert d >= 1.0 && d * SCALE >= SCALE;
    } else if p < p' {
      assert d <= -1.0 && d * SCALE <= -SCALE;
    }
  }

  /** Rounding keeps the order strictly for moments further apart than the
      rounding errors of the two unrounded scores together. */
  lemma EqualPriorityFifoBeyondRounding(rnd: real -> real, p: int, ts: real, ts': real)
    requires DoubleRounding(rnd) && ts < ts'
    requires var x := rnd(-(p as real) * SCALE); ts' - ts > (Abs(x + ts) + Abs(x + ts')) * HALF_ULP
    ensures Score(rnd, p, ts) < Score(rnd, p, ts')
  {
    var x := rnd(-(p as real) * SCALE);
    assert Abs(rnd(x + ts) - (x + ts)) <= Abs(x + ts) * HALF_ULP;
    assert Abs(rnd(x + ts') - (x + ts')) <= Abs(x + ts') * HALF_ULP;
  }

  // ---- where rounding loses the order ------------------------------------------------

  const TWO_TO_53: real := 9_007_199_254_740_992.0

  /** From 2^53 on, binary64 has even integers only. */
  ghost predicate EvenFrom53(rnd: real -> real) {
    forall x :: Abs(x) >= TWO_TO_53 ==> IsEven(rnd(x))
  }

  function Twice(k: int): real {
    2.0 * (k as real)
  }

  ghost predicate IsEven(x: real) {
    exists k: int :: x == Twice(k)
  }

  lemma EvensApart(x: real, y: real)
    requires IsEven(x) && IsEven(y) && x < y
    ensures y - x >= 2.0
  {
    var k: int :| x == Twice(k);
    var m: int :| y == Twice(m);
    assert m - k >= 1 && (m - k) as real == m as real - k as real;
  }

  /** The documentation promises FIFO order within one priority. With float
      scores it fails: at priority 1000, of any three moments half a second apart
      two adjacent ones get the same score. */
  lemma ScoresTieWithinASecond(rnd: real -> real, ts: real)
    requires DoubleRounding(rnd) && EvenFrom53(rnd) && 0.0 <= ts < 900_000_000_000.0
    ensures Score(rnd, 1000, ts) == Score(rnd, 1000, ts + 0.5)
            || Score(rnd, 1000, ts + 0.5) == Score(rnd, 1000, ts + 1.0)
  {
    var x := rnd(-1000.0 * SCALE);
    assert Abs(x - (-1000.0 * SCALE)) <= 1.2 by {
      assert Abs(-1000.0 * SCALE) * HALF_ULP <= 1.2;
    }
    var y := x + ts;
    assert TWO_TO_53 <= Abs(y) && TWO_TO_53 <= Abs(y + 0.5) && TWO_TO_53 <= Abs(y + 1.0);
    assert rnd(y) <= rnd(y + 0.5) <= rnd(y + 1.0);
    WithinOne(rnd, y);
    WithinOne(rnd, y + 1.0);
    assert IsEven(rnd(y)) && IsEven(rnd(y + 0.5)) && IsEven(rnd(y + 1.0));
    assert x + (ts + 0.5) == y + 0.5 && x + (ts + 1.0) == y + 1.0;
    ThreeEvens(rnd(y), rnd(y + 0.5), rnd(y + 1.0));
  }

  lemma ThreeEvens(a: real, b: real, c: real)
    requires IsEven(a) && IsEven(b) && IsEven(c) && a <= b <= c < a + 4.0
    ensures a == b || b == c
  {
    if a < b < c {
      EvensApart(a, b);
      EvensApart(b, c);
    }
  }

  lemma WithinOne(rnd: real -> real, y: real)
    requires DoubleRounding(rnd) && TWO_TO_53 <= Abs(y) <= 10_100_000_000_000_000.0
    ensures Abs(rnd(y) - y) <= 1.15
  {
    assert Abs(y) * HALF_ULP <= 10_100_000_000_000_000.0 * HALF_ULP;
    assert 10_100_000_000_000_000.0 * HALF_ULP <= 1.15;
  }

  /** A rounding that meets every assumption made here of binary64. */
  function NearestEven(x: real): real {
    if x >= TWO_TO_53 then 2.0 * (((x + 1.0) / 2.0).Floor as real)
    else if x <= -TWO_TO_53 then -2.0 * (((1.0 - x) / 2.0).Floor as real)
    else x
  }

  lemma NearestEvenClose(x: real)
    ensures Abs(NearestEven(x) - x) <= Abs(x) * HALF_ULP
    ensures x >= TWO_TO_53 ==> NearestEven(x) >= TWO_TO_53
    ensures x <= -TWO_TO_53 ==> NearestEven(x) <= -TWO_TO_53
    ensures Abs(x) >= TWO_TO_53 ==> IsEven(NearestEven(x))
  {
    if x >= TWO_TO_53 {
      var k := ((x + 1.0) / 2.0).Floor;
      assert k as real <= (x + 1.0) / 2.0 < k as real + 1.0;
      assert NearestEven(x) == Twice(k);
      assert k >= 4503599627370496;
    } else if x <= -TWO_TO_53 {
      var k := ((1.0 - x) / 2.0).Floor;
      assert k as real <= (1.0 - x) / 2.0 < k as real + 1.0;
      assert NearestEven(x) == Twice(-k);
      assert k >= 4503599627370496;
    }
  }

  lemma FloorMonotone(x: real, y: real)
    requires x <= y
    ensures x.Floor <= y.Floor
  {
    assert x.Floor as real <= x && y < y.Floor as real + 1.0;
  }

  lemma NearestEvenIsRounding()
    ensures DoubleRounding(NearestEven) && EvenFrom53(NearestEven)
  {
    forall x
      ensures Abs(NearestEven(x) - x) <= Abs(x) * HALF_ULP
      ensures Abs(x) >= TWO_TO_53 ==> IsEven(NearestEven(x))
    {
      NearestEvenClose(x);
    }
    hide NearestEven;
    forall x, y | x <= y
      ensures NearestEven(x) <= NearestEven(y)
    {
      NearestEvenMonotone(x, y);
    }
  }

  lemma NearestEvenMonotone(x: real, y: real)
    requires x <= y
    ensures NearestEven(x) <= NearestEven(y)
  {
    NearestEvenClose(x);
    NearestEvenClose(y);
    if x >= TWO_TO_53 {
      FloorMonotone((x + 1.0) / 2.0, (y + 1.0) / 2.0);
    } else if y <= -TWO_TO_53 {
      FloorMonotone((1.0 - y) / 2.0, (1.0 - x) / 2.0);
    }
  }
}
