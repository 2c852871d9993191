/**
 * The rounding formulas of main.js.  Every `Math.round(n * c)` there is
 * applied to an integer `n` and a constant `c`; JavaScript rounds halves up,
 * so `Math.round(y) == floor(y + 1/2)`.  Each function below computes that
 * value by exact integer division (Dafny's `/` by a positive divisor is the
 * floor, also for negative operands), and its first postcondition is the
 * rounding law itself: the result is the integer nearest to the exact
 * rational value, halves going up.
 */
module Formulas {

  function Max(a: int, b: int): int { if a >= b then a else b }

  function Min(a: int, b: int): int { if a <= b then a else b }

  /** round(1.25 * t): the experience threshold of the next level. */
  function GrowThreshold(t: int): (r: int)
    ensures 4 * r - 2 <= 5 * t < 4 * r + 2
    ensures t >= 0 ==> r >= t
  {
    (5 * t + 2) / 4
  }

  /** round(1.8 * d): the damage of the skill attack. */
  function SkillDamage(d: int): (r: int)
    ensures 10 * r - 5 <= 18 * d < 10 * r + 5
    ensures d >= 0 ==> r >= d
  {
    (18 * d + 5) / 10
  }

  /** round(0.25 * x): the partial reward paid for a cleared room. */
  function QuarterOf(x: int): (r: int)
    ensures 4 * r - 2 <= x < 4 * r + 2
    ensures x >= 0 ==> 0 <= r <= x
  {
    (x + 2) / 4
  }

  /** round(0.95 * t): the threshold after the experience artifact. */
  function ShrinkThreshold(t: int): (r: int)
    ensures 20 * r - 10 <= 19 * t < 20 * r + 10
    ensures t >= 0 ==> r <= t
  {
    (19 * t + 10) / 20
  }

  /** round(h * (1 + 0.2 * room)) == round(h * (5 + room) / 5): enemy HP in a new room. */
  function ScaleEnemyHp(h: int, room: int): (r: int)
    ensures 10 * r - 5 <= 2 * (h * (5 + room)) < 10 * r + 5
  {
    (2 * (h * (5 + room)) + 5) / 10
  }
}
