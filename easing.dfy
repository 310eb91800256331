/**
 * The two numeric helpers of the arm animation, clamp and smoothDamp, and the
 * behaviour of smoothDamp when it is applied frame after frame.
 *
 * Math.exp is not interpreted here: smoothDamp receives it as a function
 * value, and every property that depends on it names the facts about exp it
 * needs (for instance 0 < exp(-s) <= 1).
 */
module Easing {

  /** x lies on the closed segment between a and b, whichever of the two is larger. */
  predicate Between(x: real, a: real, b: real) {
    if a <= b then a <= x <= b else b <= x <= a
  }

  /** x lies strictly inside the segment between a and b. */
  predicate StrictlyBetween(x: real, a: real, b: real) {
    if a <= b then a < x < b else b < x < a
  }

  function Abs(x: real): real {
    if x < 0.0 then -x else x
  }

  /**
   * clamp(value, min, max) = Math.max(min, Math.min(max, value)).
   * For a well-formed range the result lies in it and equals the value
   * exactly when the value already lies in it; for an inverted range the
   * outer Math.max makes min win.
   */
  function Clamp(value: real, min: real, max: real): (r: real)
    ensures min <= r
    ensures min <= max ==> r <= max
    ensures min <= max ==> (r == value <==> min <= value <= max)
    ensures max < min ==> r == min
  {
    var upper := if max < value then max else value;
    if upper < min then min else upper
  }

  /** Clamping twice is clamping once, for any bounds. */
  lemma ClampIdempotent(value: real, min: real, max: real)
    ensures Clamp(Clamp(value, min, max), min, max) == Clamp(value, min, max)
  {
  }

  /** Clamp never reverses the order of two values. */
  lemma ClampMonotone(v: real, w: real, min: real, max: real)
    requires v <= w
    ensures Clamp(v, min, max) <= Clamp(w, min, max)
  {
  }

  /** Clamp picks the point of [min, max] nearest to the value. */
  lemma ClampIsNearest(value: real, min: real, max: real, y: real)
    requires min <= y <= max
    ensures Abs(Clamp(value, min, max) - value) <= Abs(y - value)
  {
  }

  /** smoothDamp(current, target, smoothing) = current + (target - current) * (1 - exp(-smoothing)). */
  function SmoothDamp(current: real, target: real, smoothing: real, exp: real -> real): real {
    current + (target - current) * (1.0 - exp(-smoothing))
  }

  /**
   * What one smoothDamp step does: the gap to the target is multiplied by
   * exp(-smoothing). When that factor is in [0, 1] the step never
   * overshoots; when it is below 1 the step makes progress without reaching
   * the target; a factor of 1 leaves the value where it was, and a value
   * already at the target stays there.
   */
  lemma SmoothDampEases(current: real, target: real, smoothing: real, exp: real -> real)
    ensures var r := SmoothDamp(current, target, smoothing, exp);
      && target - r == (target - current) * exp(-smoothing)
      && (0.0 <= exp(-smoothing) <= 1.0 ==> Between(r, current, target))
      && (0.0 < exp(-smoothing) < 1.0 && current != target ==> StrictlyBetween(r, current, target))
      && (exp(-smoothing) == 1.0 ==> r == current)
      && (current == target ==> r == target)
  {
    GapScales(current, target, exp(-smoothing), SmoothDamp(current, target, smoothing, exp));
  }

  /** The algebra behind SmoothDamp's contract, for a decay factor d. */
  lemma GapScales(c: real, t: real, d: real, r: real)
    requires r == c + (t - c) * (1.0 - d)
    ensures t - r == (t - c) * d
    ensures 0.0 <= d <= 1.0 ==> Between(r, c, t)
    ensures 0.0 < d < 1.0 && c != t ==> StrictlyBetween(r, c, t)
  {
    if 0.0 <= d <= 1.0 {
      ScaleWithin(t - c, d);
    }
  }

  /** Scaling a by a factor in [0, 1] keeps it on the segment from 0 to a. */
  lemma ScaleWithin(a: real, d: real)
    requires 0.0 <= d <= 1.0
    ensures Between(a * d, 0.0, a)
    ensures 0.0 < d < 1.0 && a != 0.0 ==> StrictlyBetween(a * d, 0.0, a)
  {
  }

  /** With smoothing 0 and exp(0) = 1 the angle does not move. */
  lemma SmoothDampAtZero(current: real, target: real, exp: real -> real)
    requires exp(0.0) == 1.0
    ensures SmoothDamp(current, target, 0.0, exp) == current
  {
  }

  function Pow(d: real, n: nat): real {
    if n == 0 then 1.0 else d * Pow(d, n - 1)
  }

  /**
   * The angle after `frames` successive frames that smooth toward the same
   * target with the same smoothing. It stays between the start and the target.
   */
  function Settle(current: real, target: real, smoothing: real, exp: real -> real, frames: nat): (r: real)
    ensures 0.0 <= exp(-smoothing) <= 1.0 ==> Between(r, current, target)
  {
    if frames == 0 then current
    else
      var prev := Settle(current, target, smoothing, exp, frames - 1);
      SmoothDampEases(prev, target, smoothing, exp);
      SmoothDamp(prev, target, smoothing, exp)
  }

  /** After n frames the remaining gap is the initial gap times exp(-smoothing)^n. */
  lemma {:induction false} SettleGap(current: real, target: real, smoothing: real, exp: real -> real, frames: nat)
    ensures target - Settle(current, target, smoothing, exp, frames)
         == (target - current) * Pow(exp(-smoothing), frames)
  {
    if frames > 0 {
      SettleGap(current, target, smoothing, exp, frames - 1);
      var d := exp(-smoothing);
      var prev := Settle(current, target, smoothing, exp, frames - 1);
      calc {
        target - Settle(current, target, smoothing, exp, frames);
        (target - prev) * d;
        ((target - current) * Pow(d, frames - 1)) * d;
        (target - current) * (d * Pow(d, frames - 1));
      }
    }
  }

  /**
   * Holding the target fixed, the angle approaches it monotonically: each
   * frame leaves it between its previous value and the target, so never
   * farther from the target and never past it; with a decay factor below 1
   * each frame that starts off the target strictly shortens the gap.
   */
  lemma SettleApproaches(current: real, target: real, smoothing: real, exp: real -> real, frames: nat)
    requires 0.0 <= exp(-smoothing) <= 1.0
    ensures Between(Settle(current, target, smoothing, exp, frames + 1),
                    Settle(current, target, smoothing, exp, frames), target)
    ensures Abs(target - Settle(current, target, smoothing, exp, frames + 1))
         <= Abs(target - Settle(current, target, smoothing, exp, frames))
    ensures exp(-smoothing) < 1.0 && Settle(current, target, smoothing, exp, frames) != target ==>
              (Abs(target - Settle(current, target, smoothing, exp, frames + 1))
               < Abs(target - Settle(current, target, smoothing, exp, frames)))
  {
    var prev := Settle(current, target, smoothing, exp, frames);
    SmoothDampEases(prev, target, smoothing, exp);
    var d := exp(-smoothing);
    if d < 1.0 && prev != target {
      assert target - Settle(current, target, smoothing, exp, frames + 1) == (target - prev) * d;
      if target > prev {
        assert (target - prev) * d < target - prev;
      } else {
        assert (target - prev) * d > target - prev;
      }
    }
  }

  /** Bernoulli's inequality in the form d^n * (1 + n * (1 - d)) <= 1, for a factor d in [0, 1]. */
  lemma {:induction false} PowBernoulli(d: real, n: nat)
    requires 0.0 <= d <= 1.0
    ensures 0.0 <= Pow(d, n) <= 1.0
    ensures Pow(d, n) * (1.0 + (n as real) * (1.0 - d)) <= 1.0
  {
    if n > 0 {
      PowBernoulli(d, n - 1);
      BernoulliStep(d, Pow(d, n - 1), (n - 1) as real);
    }
  }

  /** The induction step of PowBernoulli: one more factor d keeps the bound, with m + 1 in place of m. */
  lemma BernoulliStep(d: real, p: real, m: real)
    requires 0.0 <= d <= 1.0 && 0.0 <= p <= 1.0 && m >= 0.0
    requires p * (1.0 + m * (1.0 - d)) <= 1.0
    ensures 0.0 <= d * p <= 1.0
    ensures (d * p) * (1.0 + (m + 1.0) * (1.0 - d)) <= 1.0
  {
    var h := 1.0 - d;
    assert 0.0 <= d * p by { MulNonNegative(d, p); }
    assert d * p <= p by {
      assert p - d * p == p * h;
      MulNonNegative(p, h);
    }
    // d * (1 + (m + 1) * h) = (1 + m * h) - (m * h * h + h * h), and the subtracted part is non-negative
    assert d * (1.0 + (m + 1.0) * h) == (1.0 + m * h) - (m * h * h + h * h);
    assert m * h * h + h * h >= 0.0;
    assert (d * p) * (1.0 + (m + 1.0) * h) == p * (1.0 + m * h) - p * (m * h * h + h * h);
  }

  lemma MulNonNegative(a: real, b: real)
    requires 0.0 <= a && 0.0 <= b
    ensures 0.0 <= a * b
  {
  }

  /** g is at most the k-th part of whole: g <= whole / k, for a positive k. */
  predicate AtMostPart(g: real, whole: real, k: real) {
    g * k <= whole
  }

  /**
   * The gap to a fixed target shrinks to 0: after n frames with a decay
   * factor d in [0, 1] it is at most the initial gap divided by
   * 1 + n * (1 - d).
   */
  lemma SettleConverges(current: real, target: real, smoothing: real, exp: real -> real, frames: nat)
    requires 0.0 <= exp(-smoothing) <= 1.0
    ensures AtMostPart(Abs(target - Settle(current, target, smoothing, exp, frames)),
                       Abs(target - current),
                       1.0 + (frames as real) * (1.0 - exp(-smoothing)))
  {
    SettleGap(current, target, smoothing, exp, frames);
    PowGapBound(target - current, target - Settle(current, target, smoothing, exp, frames),
                exp(-smoothing), frames);
  }

  /**
   * So for a decay factor below 1 the angle comes within any eps > 0 of the
   * target: it is there once n * (1 - d) * eps reaches the initial gap.
   */
  lemma SettleWithinEps(current: real, target: real, smoothing: real, exp: real -> real, frames: nat, eps: real)
    requires 0.0 <= exp(-smoothing) <= 1.0 && eps > 0.0
    requires Abs(target - current) <= (frames as real) * (1.0 - exp(-smoothing)) * eps
    ensures Abs(target - Settle(current, target, smoothing, exp, frames)) <= eps
  {
    SettleConverges(current, target, smoothing, exp, frames);
    PartWithinEps(Abs(target - Settle(current, target, smoothing, exp, frames)), Abs(target - current),
                  (frames as real) * (1.0 - exp(-smoothing)), eps);
  }

  /** A gap y = x * d^n is at most |x| / (1 + n * (1 - d)). */
  lemma PowGapBound(x: real, y: real, d: real, n: nat)
    requires 0.0 <= d <= 1.0 && y == x * Pow(d, n)
    ensures AtMostPart(Abs(y), Abs(x), 1.0 + (n as real) * (1.0 - d))
  {
    PowBernoulli(d, n);
    ShrinkingGap(x, Pow(d, n), (n as real) * (1.0 - d), y);
  }

  /** A gap y = x * p, with a factor p such that p * (1 + m) <= 1, is at most |x| / (1 + m). */
  lemma ShrinkingGap(x: real, p: real, m: real, y: real)
    requires 0.0 <= p && p * (1.0 + m) <= 1.0 && y == x * p
    ensures AtMostPart(Abs(y), Abs(x), 1.0 + m)
  {
    assert Abs(y) == Abs(x) * p;
    assert Abs(y) * (1.0 + m) == Abs(x) * (p * (1.0 + m));
  }

  /** A part g <= whole / (1 + m) is at most eps once whole <= m * eps. */
  lemma PartWithinEps(g: real, whole: real, m: real, eps: real)
    requires AtMostPart(g, whole, 1.0 + m) && 0.0 <= g && m >= 0.0 && eps > 0.0
    requires whole <= m * eps
    ensures g <= eps
  {
    assert g * (1.0 + m) <= (1.0 + m) * eps;
  }

  /** Settling n frames from one step further on is settling n + 1 frames. */
  lemma {:induction false} SettleShift(current: real, target: real, smoothing: real, exp: real -> real, frames: nat)
    ensures Settle(SmoothDamp(current, target, smoothing, exp), target, smoothing, exp, frames)
         == Settle(current, target, smoothing, exp, frames + 1)
  {
    if frames > 0 {
      SettleShift(current, target, smoothing, exp, frames - 1);
    }
  }

  /**
   * Frame-rate independence: two frames with smoothing s1 and s2 land exactly
   * where one frame with s1 + s2 does, given exp's multiplicative law at that point.
   */
  lemma SmoothDampSplit(current: real, target: real, s1: real, s2: real, exp: real -> real)
    requires exp(-(s1 + s2)) == exp(-s1) * exp(-s2)
    ensures SmoothDamp(SmoothDamp(current, target, s1, exp), target, s2, exp)
         == SmoothDamp(current, target, s1 + s2, exp)
  {
  }

  /**
   * Frame-rate independence over many frames: n frames of smoothing s land
   * exactly where a single frame of smoothing n * s does.
   */
  lemma SettleIsOneLongFrame(current: real, target: real, smoothing: real, exp: real -> real, frames: nat)
    requires exp(-((frames as real) * smoothing)) == Pow(exp(-smoothing), frames)
    ensures Settle(current, target, smoothing, exp, frames)
         == SmoothDamp(current, target, (frames as real) * smoothing, exp)
  {
    SettleGap(current, target, smoothing, exp, frames);
  }
}
