/**
  The metrics of src/hooks/useStats.ts, in exact integer arithmetic.

  `Math.round(x)` is `floor(x + 1/2)`; for `x = n / d` with `d > 0` that is
  `(2n + d) div 2d`. `wpm` and `accuracy` are separate memoised values with
  their own dependencies, so each is a function of only the counts it reads:
  `Wpm` has no `totalTyped` argument and `Accuracy` no `elapsedSeconds`.
*/
module Stats {

  /** `Math.round(n / d)`: the integer nearest to n/d, halves rounded up. */
  function RoundDiv(n: int, d: int): (r: int)
    requires d > 0
    ensures 2 * d * r <= 2 * n + d < 2 * d * (r + 1)
  {
    (2 * n + d) / (2 * d)
  }

  /** `wpm`: 0 before the first full second or with nothing correct;
      otherwise `round(correct / 5 / (elapsed / 60))`, i.e. the integer
      nearest to 12 * correct / elapsed. */
  function Wpm(correctChars: nat, elapsedSeconds: int): (r: int)
    ensures elapsedSeconds < 1 || correctChars == 0 ==> r == 0
    ensures elapsedSeconds >= 1 && correctChars > 0 ==>
      2 * elapsedSeconds * r <= 24 * correctChars + elapsedSeconds < 2 * elapsedSeconds * (r + 1)
  {
    if elapsedSeconds < 1 || correctChars == 0 then 0
    else RoundDiv(12 * correctChars, elapsedSeconds)
  }

  /** `accuracy`: 100 before anything is typed; otherwise
      `round(correct / total * 100)`. */
  function Accuracy(correctChars: nat, totalTyped: nat): (r: int)
    ensures totalTyped == 0 ==> r == 100
    ensures totalTyped > 0 ==> 2 * totalTyped * r <= 200 * correctChars + totalTyped < 2 * totalTyped * (r + 1)
  {
    if totalTyped == 0 then 100
    else RoundDiv(100 * correctChars, totalTyped)
  }

  /** Multiplying by a non-negative factor keeps order. */
  lemma MulMonotone(k: int, a: int, b: int)
    requires k >= 0 && a <= b
    ensures k * a <= k * b
  {
    var m := b - a;
    assert k * b == k * a + k * m;
  }

  /** Rounding a quotient is monotone in the numerator. */
  lemma RoundDivMonotone(n1: int, n2: int, d: int)
    requires d > 0 && n1 <= n2
    ensures RoundDiv(n1, d) <= RoundDiv(n2, d)
  {
    var r1, r2 := RoundDiv(n1, d), RoundDiv(n2, d);
    if r1 > r2 {
      MulMonotone(2 * d, r2 + 1, r1);
      assert false;
    }
  }

  /** For a fixed elapsed time, more correct units never lower the WPM. */
  lemma WpmMonotone(c1: nat, c2: nat, elapsedSeconds: int)
    requires c1 <= c2
    ensures Wpm(c1, elapsedSeconds) <= Wpm(c2, elapsedSeconds)
  {
    if elapsedSeconds >= 1 && c1 > 0 {
      RoundDivMonotone(12 * c1, 12 * c2, elapsedSeconds);
    }
  }

  /** WPM is never negative. */
  lemma WpmNonNegative(correctChars: nat, elapsedSeconds: int)
    ensures Wpm(correctChars, elapsedSeconds) >= 0
  {
    if elapsedSeconds >= 1 && correctChars > 0 {
      RoundDivMonotone(0, 12 * correctChars, elapsedSeconds);
    }
  }

  /** With no more correct units than typed ones, accuracy is a percentage;
      it is 100 exactly when the ratio reaches 99.5%, in particular when
      every typed unit is correct. */
  lemma AccuracyIsPercentage(correctChars: nat, totalTyped: nat)
    requires correctChars <= totalTyped
    ensures 0 <= Accuracy(correctChars, totalTyped) <= 100
    ensures Accuracy(correctChars, totalTyped) == 100 <==> 200 * correctChars >= 199 * totalTyped
    ensures correctChars == totalTyped ==> Accuracy(correctChars, totalTyped) == 100
  {
    if totalTyped > 0 {
      var t, c := totalTyped, correctChars;
      var r := Accuracy(c, t);
      RoundDivMonotone(0, 100 * c, t);
      RoundDivMonotone(100 * c, 100 * t, t);
      assert RoundDiv(100 * t, t) == 100 by {
        var q := RoundDiv(100 * t, t);
        if q > 100 { MulMonotone(2 * t, 101, q); }
        if q < 100 { MulMonotone(2 * t, q + 1, 100); }
      }
      if 200 * c >= 199 * t && r < 100 {
        MulMonotone(2 * t, r + 1, 100);
      }
    }
  }
}
