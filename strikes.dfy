/**
 * The strike-selection rule actually used when a leg is opened: `compute_itm1_strike`
 * (app/main.py). The spot price reaches it already truncated to an integer (`int(spot)`).
 */
module Strikes {

  /** Python's `a // b`: division rounding toward minus infinity, for either sign of `b`.
      (Dafny's `/` is Euclidean, which agrees with it only when `b` is positive.) */
  function FloorDiv(a: int, b: int): (q: int)
    requires b != 0
    ensures b > 0 ==> q * b <= a < q * b + b
    ensures b < 0 ==> q * b + b < a <= q * b
  {
    if b > 0 then a / b else (-a) / (-b)
  }

  /** `compute_itm1_strike(spot, step, intent)`: one step in the money for a call ("CE"),
      one step in the money for a put otherwise. Only the exact string "CE" selects the call
      branch; "ce", "PE" and anything else take the put branch. */
  function ItmStrike(spot: int, step: int, intent: string): int
    requires step != 0
  {
    var floor := FloorDiv(spot, step) * step;
    var ceil := if floor == spot then floor else floor + step;
    if spot == floor then
      (if intent == "CE" then floor - step else floor + step)
    else
      (if intent == "CE" then floor else ceil)
  }

  /** With a positive step the chosen strike is a multiple of the step; for a call it is the
      largest such multiple strictly below the spot, for a put the smallest strictly above. */
  lemma ItmStrikeBounds(spot: int, step: int, intent: string)
    requires step > 0
    ensures ItmStrike(spot, step, intent) % step == 0
    ensures intent == "CE" ==> spot - step <= ItmStrike(spot, step, intent) < spot
    ensures intent != "CE" ==> spot < ItmStrike(spot, step, intent) <= spot + step
  {
    var q := FloorDiv(spot, step);
    var floor := q * step;
    var r := ItmStrike(spot, step, intent);
    if spot == floor {
      MultipleOfStep(if intent == "CE" then q - 1 else q + 1, step);
      assert r == (if intent == "CE" then q - 1 else q + 1) * step;
    } else {
      MultipleOfStep(if intent == "CE" then q else q + 1, step);
      assert r == (if intent == "CE" then q else q + 1) * step;
    }
  }

  lemma MultipleOfStep(k: int, step: int)
    requires step > 0
    ensures (k * step) % step == 0
  {
    var m := k * step;
    var d := m / step - k;
    assert step * (m / step) + m % step == m;
    assert step * d == step * (m / step) - step * k;
    assert step * d == -(m % step);
    if d >= 1 {
      assert step * d == step + step * (d - 1);
    } else if d <= -1 {
      assert step * d == -step + step * (d + 1);
    }
  }

  /** The quotient of a floor division is the one multiple of the step just at or below. */
  lemma FloorDivUnique(a: int, step: int, k: int)
    requires step > 0 && k * step <= a < k * step + step
    ensures FloorDiv(a, step) == k
  {
    var q := FloorDiv(a, step);
    assert (k - q - 1) * step == k * step - q * step - step;
    assert (q - k - 1) * step == q * step - k * step - step;
    NonNegativeTimesStep(k - q - 1, step);
    NonNegativeTimesStep(q - k - 1, step);
  }

  lemma NonNegativeTimesStep(x: int, step: int)
    requires step > 0
    ensures x >= 0 ==> x * step >= 0
  {
  }

  /** The two strikes stay fixed while the spot is strictly between two adjacent multiples of
      the step; at a multiple both sit one full step away. */
  lemma ItmStrikeAroundMultiple(spot: int, k: int, step: int, intent: string)
    requires step > 0 && k * step <= spot < (k + 1) * step
    ensures spot == k * step ==>
      ItmStrike(spot, step, intent) == (if intent == "CE" then (k - 1) * step else (k + 1) * step)
    ensures spot != k * step ==>
      ItmStrike(spot, step, intent) == (if intent == "CE" then k * step else (k + 1) * step)
  {
    FloorDivUnique(spot, step, k);
  }

  /** The in-the-money call of the strike test: spot 22000, step 50 gives 21950. */
  lemma ItmCallExample()
    ensures ItmStrike(22000, 50, "CE") == 21950
  {
    assert FloorDiv(22000, 50) == 440;
  }

  /** The in-the-money put of the strike test: spot 22000, step 50 gives 22050. */
  lemma ItmPutExample()
    ensures ItmStrike(22000, 50, "PE") == 22050
  {
    assert FloorDiv(22000, 50) == 440;
  }

  /** A spot between two multiples of the step: 22010 at step 50 gives 22000 for a call and
      22050 for a put. */
  lemma ItmStrikeBetweenMultiples()
    ensures ItmStrike(22010, 50, "CE") == 22000
    ensures ItmStrike(22010, 50, "PE") == 22050
  {
    assert FloorDiv(22010, 50) == 440;
  }
}
