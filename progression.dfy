/**
 * Experience and level arithmetic of collections.ts (`calculateExperience`,
 * `calculateLevel`). The floating-point factors of the source are written as exact
 * integer arithmetic: `Math.floor(x * 0.2)` is `x / 5`, `Math.floor(x * 0.3)` is
 * `x * 3 / 10`, and `Math.floor(100 * Math.pow(k, 1.5))` is the integer square root
 * of `10000 * k^3` (the two agree over the reals).
 */
module Progression {

  /** Integer square root: the largest `r` with `r * r <= n`. */
  function ISqrt(n: nat): (r: nat)
    ensures r * r <= n < (r + 1) * (r + 1)
  {
    if n == 0 then 0
    else
      var s := ISqrt(n - 1);
      if (s + 1) * (s + 1) <= n then s + 1 else s
  }

  /** Experience needed to go from level `k - 1` to level `k`: `floor(100 * k^1.5)`. */
  function LevelStep(k: nat): (step: nat)
    requires k >= 1
    ensures step >= 1
    ensures step * step <= 10000 * k * k * k < (step + 1) * (step + 1)
  {
    ISqrt(10000 * k * k * k)
  }

  /** Total experience at which level `l` is reached (`Threshold(1) == 0`). */
  function Threshold(l: nat): (t: nat)
    requires l >= 1
    ensures t == 0 <==> l == 1
    ensures t >= l - 1
  {
    if l == 1 then 0 else Threshold(l - 1) + LevelStep(l)
  }

  lemma {:induction false} ThresholdGrows(a: nat, b: nat)
    requires 1 <= a < b
    ensures Threshold(a) < Threshold(b)
  {
    if a < b - 1 {
      ThresholdGrows(a, b - 1);
    }
  }

  /** Searches upwards from level `l` for the level that `experience` reaches. */
  function LevelFrom(l: nat, experience: int): (level: nat)
    requires l >= 1 && Threshold(l) <= experience
    ensures level >= l
    ensures Threshold(level) <= experience < Threshold(level + 1)
    decreases experience - Threshold(l)
  {
    if experience < Threshold(l + 1) then l else LevelFrom(l + 1, experience)
  }

  /** The level a player with this much experience has; 0 below zero experience. */
  function Level(experience: int): (level: nat)
    ensures experience < 0 ==> level == 0
    ensures experience >= 0 ==> level >= 1 && Threshold(level) <= experience < Threshold(level + 1)
  {
    if experience < 0 then 0 else LevelFrom(1, experience)
  }

  /** The thresholds determine the level: exactly one level brackets any experience. */
  lemma LevelUnique(experience: int, l: nat)
    requires l >= 1 && Threshold(l) <= experience < Threshold(l + 1)
    ensures Level(experience) == l
  {
    var m := Level(experience);
    if m < l {
      ThresholdGrows(m, l);
      if m + 1 < l { ThresholdGrows(m + 1, l); }
    } else if l < m {
      if l + 1 < m { ThresholdGrows(l + 1, m); }
    }
  }

  /** More experience never means a lower level. */
  lemma LevelMonotone(e1: int, e2: int)
    requires e1 <= e2
    ensures Level(e1) <= Level(e2)
  {
    var l1, l2 := Level(e1), Level(e2);
    if e1 >= 0 && l2 < l1 {
      if l2 + 1 < l1 { ThresholdGrows(l2 + 1, l1); }
      assert Threshold(l2 + 1) <= Threshold(l1);
    }
  }

  /**
   * `calculateLevel`: counts levels up while the experience needed so far is covered.
   * The loop ends because every step adds at least one point.
   */
  method CalculateLevel(experience: int) returns (level: int)
    ensures level == Level(experience)
    ensures experience >= 0 ==> level >= 1
  {
    var l := 1;
    var expNeeded := 0;
    while expNeeded <= experience
      invariant l >= 1 && expNeeded == Threshold(l)
      invariant l > 1 ==> Threshold(l - 1) <= experience
      decreases experience - expNeeded
    {
      l := l + 1;
      expNeeded := expNeeded + LevelStep(l);
    }
    level := l - 1;
    if l > 1 {
      LevelUnique(experience, l - 1);
    }
  }

  /** `calculateExperience`: a tenth of the score, then the speed and accuracy bonuses. */
  function CalculateExperience(score: int, timeSpent: int, accuracy: real): (exp: int)
    ensures exp >= 1
    ensures exp >= score / 10
    ensures score >= 0 ==> exp <= if score < 10 then 1 else score / 10 * 39 / 25
    ensures timeSpent >= 300 && accuracy <= 90.0 ==> exp == if score < 10 then 1 else score / 10
  {
    var base := score / 10;
    var afterSpeed := if timeSpent < 300 then base + base / 5 else base;
    var afterAccuracy := if accuracy > 90.0 then afterSpeed + afterSpeed * 3 / 10 else afterSpeed;
    if afterAccuracy < 1 then 1 else afterAccuracy
  }

  /** A higher score never earns less experience. */
  lemma ExperienceMonotone(s1: int, s2: int, timeSpent: int, accuracy: real)
    requires s1 <= s2
    ensures CalculateExperience(s1, timeSpent, accuracy) <= CalculateExperience(s2, timeSpent, accuracy)
  {
    var b1, b2 := s1 / 10, s2 / 10;
    DivMonotone(s1, s2, 10);
    DivMonotone(b1, b2, 5);
    var a1 := if timeSpent < 300 then b1 + b1 / 5 else b1;
    var a2 := if timeSpent < 300 then b2 + b2 / 5 else b2;
    assert a1 <= a2;
    DivMonotone(a1 * 3, a2 * 3, 10);
  }

  lemma DivMonotone(a: int, b: int, d: int)
    requires a <= b && d > 0
    ensures a / d <= b / d
  {
    var qa, qb := a / d, b / d;
    assert d * qa <= a;
    assert b < d * (qb + 1);
    CancelFactor(d, qa, qb + 1);
  }

  lemma CancelFactor(d: int, x: int, y: int)
    requires d > 0 && d * x < d * y
    ensures x < y
  {
  }
}
