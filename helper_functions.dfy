/**
 * The numeric helpers of flappybird/helper_functions.py: clamping a value to a
 * range, mapping a value from one range onto another, and the one-step alpha
 * fade that the splash screen and the overlays use.
 */
module HelperFunctions {

  function Min(a: real, b: real): real { if a <= b then a else b }
  function Max(a: real, b: real): real { if a >= b then a else b }

  /** `max(min_val, min(max_val, value))`. */
  function Clamp(value: real, minVal: real, maxVal: real): (r: real)
    ensures minVal <= maxVal ==> minVal <= r <= maxVal
    ensures minVal <= value <= maxVal ==> r == value
    ensures minVal <= maxVal && value < minVal ==> r == minVal
    ensures minVal <= maxVal && value > maxVal ==> r == maxVal
    ensures maxVal < minVal ==> r == minVal
  {
    Max(minVal, Min(maxVal, value))
  }

  /** Clamping twice is clamping once. */
  lemma ClampIdempotent(value: real, minVal: real, maxVal: real)
    requires minVal <= maxVal
    ensures Clamp(Clamp(value, minVal, maxVal), minVal, maxVal) == Clamp(value, minVal, maxVal)
  {
  }

  /**
   * Maps `val`, first capped to [inMin, inMax], linearly onto [outMin, outMax].
   * The source divides by `inMax - inMin`, so the two input bounds must differ.
   */
  function Translate(val: real, inMin: real, inMax: real, outMin: real, outMax: real): (r: real)
    requires inMax != inMin
    ensures inMin < inMax && val <= inMin ==> r == outMin
    ensures val >= inMax ==> r == outMax
    ensures inMax < inMin ==> r == outMax
    ensures inMin <= val <= inMax ==> (r - outMin) * (inMax - inMin) == (val - inMin) * (outMax - outMin)
  {
    var inputRange := inMax - inMin;
    var outputRange := outMax - outMin;
    var cappedVal := Min(Max(val, inMin), inMax);
    assert cappedVal == inMax ==> (cappedVal - inMin) / inputRange == 1.0;
    (cappedVal - inMin) / inputRange * outputRange + outMin
  }

  /** For an increasing input range the result lies between the two output bounds, in either order. */
  lemma TranslateBounded(val: real, inMin: real, inMax: real, outMin: real, outMax: real)
    requires inMin < inMax
    ensures Min(outMin, outMax) <= Translate(val, inMin, inMax, outMin, outMax) <= Max(outMin, outMax)
  {
    var inputRange := inMax - inMin;
    var cappedVal := Min(Max(val, inMin), inMax);
    var t := (cappedVal - inMin) / inputRange;
    assert 0.0 <= t <= 1.0 by {
      UnitRatio(cappedVal - inMin, inputRange);
    }
    var r := Translate(val, inMin, inMax, outMin, outMax);
    assert r == t * (outMax - outMin) + outMin;
    if outMin <= outMax {
      assert 0.0 <= t * (outMax - outMin) <= outMax - outMin by {
        MulBetween(t, outMax - outMin);
      }
    } else {
      assert outMax - outMin <= t * (outMax - outMin) <= 0.0 by {
        MulBetween(t, outMin - outMax);
      }
    }
  }

  lemma UnitRatio(a: real, b: real)
    requires 0.0 <= a <= b && b > 0.0
    ensures 0.0 <= a / b <= 1.0
  {
    assert a / b * b == a;
  }

  lemma MulBetween(t: real, d: real)
    requires 0.0 <= t <= 1.0 && d >= 0.0
    ensures 0.0 <= t * d <= d
  {
    assert t * d <= 1.0 * d;
  }

  /**
   * The fade is over when alpha has already reached `endAlpha` in the direction of
   * `alphaInc`, or when the increment is zero.
   */
  predicate FadeComplete(alpha: int, endAlpha: int, alphaInc: int) {
    !((alphaInc > 0 && alpha < endAlpha) || (alphaInc < 0 && alpha > endAlpha))
  }

  /** An image whose only modelled attribute is its alpha value. */
  class Surface {
    var alpha: int

    constructor (alpha: int)
      ensures this.alpha == alpha
    {
      this.alpha := alpha;
    }

    /** `surface.set_alpha(alpha)`. */
    method SetAlpha(alpha: int)
      modifies this
      ensures this.alpha == alpha
    {
      this.alpha := alpha;
    }

    /**
     * `fade_surface(surface, end_alpha, alpha_inc)`: one fade step. Returns true, and leaves
     * alpha alone, when the fade is complete; otherwise adds exactly `alphaInc` (without
     * capping at `endAlpha`) and returns false.
     */
    method Fade(endAlpha: int, alphaInc: int) returns (done: bool)
      modifies this
      ensures done == FadeComplete(old(alpha), endAlpha, alphaInc)
      ensures done ==> alpha == old(alpha)
      ensures !done ==> alpha == old(alpha) + alphaInc
      ensures alphaInc == 0 ==> done
    {
      var a := alpha;
      if (alphaInc > 0 && a < endAlpha) || (alphaInc < 0 && a > endAlpha) {
        a := a + alphaInc;
        SetAlpha(a);
        return false;
      }
      return true;
    }
  }

  /** The alpha after `calls` successive fade steps from `alpha`. */
  function AlphaAfterCalls(alpha: int, endAlpha: int, alphaInc: int, calls: nat): int {
    if calls == 0 then alpha
    else
      var a := AlphaAfterCalls(alpha, endAlpha, alphaInc, calls - 1);
      if FadeComplete(a, endAlpha, alphaInc) then a else a + alphaInc
  }

  /** The distance still to fade, in the direction of the increment. */
  function FadeDistance(alpha: int, endAlpha: int, alphaInc: int): int {
    if alphaInc > 0 then endAlpha - alpha else if alphaInc < 0 then alpha - endAlpha else 0
  }

  /** The number of fade steps that return false, starting from `alpha`. */
  function StepsToFade(alpha: int, endAlpha: int, alphaInc: int): nat
    decreases FadeDistance(alpha, endAlpha, alphaInc)
  {
    if FadeComplete(alpha, endAlpha, alphaInc) then 0
    else 1 + StepsToFade(alpha + alphaInc, endAlpha, alphaInc)
  }

  function Abs(n: int): nat { if n < 0 then -n else n }

  /**
   * The number of incomplete steps is ceil(d / |inc|), where d is the distance still to
   * fade; it is zero when the fade is already complete.
   */
  lemma {:induction false} StepsToFadeIsCeiling(alpha: int, endAlpha: int, alphaInc: int)
    ensures var d := FadeDistance(alpha, endAlpha, alphaInc);
            StepsToFade(alpha, endAlpha, alphaInc) ==
              if d > 0 && alphaInc != 0 then (d + Abs(alphaInc) - 1) / Abs(alphaInc) else 0
    decreases FadeDistance(alpha, endAlpha, alphaInc)
  {
    var d := FadeDistance(alpha, endAlpha, alphaInc);
    if !FadeComplete(alpha, endAlpha, alphaInc) {
      var m := Abs(alphaInc);
      var d' := FadeDistance(alpha + alphaInc, endAlpha, alphaInc);
      assert d' == d - m;
      StepsToFadeIsCeiling(alpha + alphaInc, endAlpha, alphaInc);
      if d' > 0 {
        DivShift(d + m - 1, m);
      } else {
        assert m <= d + m - 1 < 2 * m;
        DivOne(d + m - 1, m);
      }
    }
  }

  lemma DivShift(n: int, m: int)
    requires m > 0 && n >= m
    ensures (n - m) / m == n / m - 1
  {
    var q, r := n / m, n % m;
    DivUnique(n - m, m, q - 1, r);
  }

  lemma DivOne(n: int, m: int)
    requires m > 0 && m <= n < 2 * m
    ensures n / m == 1
  {
    DivUnique(n, m, 1, n - m);
  }

  /** Euclidean division is determined by its quotient-remainder equation. */
  lemma DivUnique(n: int, m: int, q: int, r: int)
    requires m > 0 && 0 <= r < m && n == q * m + r
    ensures n / m == q
  {
    var q', r' := n / m, n % m;
    assert n == q' * m + r' && 0 <= r' < m;
    assert (q - q') * m == r' - r;
    if q > q' {
      MulAtLeast(q - q', m);
    } else if q < q' {
      MulAtLeast(q' - q, m);
    }
  }

  lemma MulAtLeast(a: int, m: int)
    requires a >= 1 && m > 0
    ensures a * m >= m
  {
    assert a * m == (a - 1) * m + m;
    assert (a - 1) * m >= 0;
  }

  /**
   * Repeated fade steps with a fixed increment return false exactly for the first
   * `StepsToFade` calls and true from then on.
   */
  lemma {:induction false} FadeCompletesAfterSteps(alpha: int, endAlpha: int, alphaInc: int, calls: nat)
    ensures FadeComplete(AlphaAfterCalls(alpha, endAlpha, alphaInc, calls), endAlpha, alphaInc)
            <==> calls >= StepsToFade(alpha, endAlpha, alphaInc)
    decreases calls
  {
    if calls > 0 {
      if FadeComplete(alpha, endAlpha, alphaInc) {
        StaysComplete(alpha, endAlpha, alphaInc, calls);
      } else {
        AfterFirstCall(alpha, endAlpha, alphaInc, calls);
        FadeCompletesAfterSteps(alpha + alphaInc, endAlpha, alphaInc, calls - 1);
      }
    }
  }

  /** Once complete, a fade stays complete and alpha stays put. */
  lemma {:induction false} StaysComplete(alpha: int, endAlpha: int, alphaInc: int, calls: nat)
    requires FadeComplete(alpha, endAlpha, alphaInc)
    ensures AlphaAfterCalls(alpha, endAlpha, alphaInc, calls) == alpha
  {
    if calls > 0 {
      StaysComplete(alpha, endAlpha, alphaInc, calls - 1);
    }
  }

  /** An incomplete first step adds the increment; the rest continue from there. */
  lemma {:induction false} AfterFirstCall(alpha: int, endAlpha: int, alphaInc: int, calls: nat)
    requires !FadeComplete(alpha, endAlpha, alphaInc) && calls > 0
    ensures AlphaAfterCalls(alpha, endAlpha, alphaInc, calls) ==
            AlphaAfterCalls(alpha + alphaInc, endAlpha, alphaInc, calls - 1)
  {
    if calls > 1 {
      AfterFirstCall(alpha, endAlpha, alphaInc, calls - 1);
    }
  }
}
