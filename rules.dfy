/**
 * Shared scoring rules of every battle mode: the constants of the game,
 * JavaScript's rounding as used by the damage formula, and the HP clamp.
 */
module Rules {

  /** Starting HP of every combatant (src/utils/gameLogic.js). */
  const MAX_HP: int := 50
  /** Number of Tymon assists at the start of a battle. */
  const INITIAL_TYMON_COUNT: nat := 3

  datatype Option<T> = None | Some(value: T)

  function Abs(x: real): (r: real)
    ensures r >= 0.0 && (r == x || r == -x)
  {
    if x < 0.0 then -x else x
  }

  function Max(a: int, b: int): (r: int)
    ensures r >= a && r >= b && (r == a || r == b)
  {
    if a < b then b else a
  }

  function Min(a: int, b: int): (r: int)
    ensures r <= a && r <= b && (r == a || r == b)
  {
    if a < b then a else b
  }

  /** `Math.round`: the nearest integer, a half rounding towards +infinity. */
  function Round(x: real): (r: int)
    ensures r as real - 0.5 <= x < r as real + 0.5
  {
    (x + 0.5).Floor
  }

  /** `Math.ceil(d / 2)` on an integer. */
  function CeilHalf(d: int): (r: int)
    ensures d <= 2 * r <= d + 1
  {
    (d + 1) / 2
  }

  /** `Math.max(0, hp - damage)`: the HP left after a hit, never negative. */
  function AfterHit(hp: int, damage: int): (r: int)
    ensures r >= 0 && r >= hp - damage
    ensures r == 0 || r == hp - damage
  {
    Max(0, hp - damage)
  }

  /** The base hit of every mode: `Math.round(diff * multiplier + 5)`. */
  function HitDamage(diff: real, mult: real): (r: int)
    ensures r as real - 0.5 <= diff * mult + 5.0 < r as real + 0.5
    ensures diff >= 0.0 && mult >= 0.0 ==> r >= 5
  {
    Round(diff * mult + 5.0)
  }

  /** A larger time difference never deals less damage. */
  lemma HitDamageMonotonic(d1: real, d2: real, mult: real)
    requires d1 <= d2 && mult >= 0.0
    ensures HitDamage(d1, mult) <= HitDamage(d2, mult)
  {
    assert d1 * mult <= d2 * mult by {
      assert (d2 - d1) * mult >= 0.0;
    }
  }

  /** Clamping twice is clamping once by the sum, when both hits are non-negative. */
  lemma AfterHitTwice(hp: int, d1: int, d2: int)
    requires hp >= 0 && d1 >= 0 && d2 >= 0
    ensures AfterHit(AfterHit(hp, d1), d2) == AfterHit(hp, d1 + d2)
  {
  }
}
