/**
 Amounts are integer kobo. An exact amount that may fall between two kobo is a
 fraction `n / d` of a kobo with `d > 0`; `ToKobo` rounds it half up, as every
 price, discount, deduction and instalment of the shop is rounded.
 */
module Money {
  import opened Outcome

  /** `n / d` rounded to the nearest kobo, a half going up. */
  function HalfUp(n: int, d: int): (k: int)
    requires d > 0
    ensures 2 * n - d < 2 * d * k <= 2 * n + d
  {
    RoundingBounds(n, d);
    (2 * n + d) / (2 * d)
  }

  lemma RoundingBounds(n: int, d: int)
    requires d > 0
    ensures 2 * n - d < 2 * d * ((2 * n + d) / (2 * d)) <= 2 * n + d
  {
    var a, b := 2 * n + d, 2 * d;
    assert a == b * (a / b) + a % b;
  }

  /** A negative amount is refused, any other is rounded. */
  function ToKobo(n: int, d: int): (r: Result<nat>)
    requires d > 0
    ensures r.Ok? <==> n >= 0
    ensures r.Ok? ==> 2 * n - d < 2 * d * r.value <= 2 * n + d
  {
    if n < 0 then Err(Invalid) else
      var k := HalfUp(n, d);
      NonNegative(n, d, k);
      Ok(k)
  }

  lemma NonNegative(n: int, d: int, k: int)
    requires d > 0 && n >= 0 && 2 * n - d < 2 * d * k
    ensures k >= 0
  {
    Scale(k, -1, d);
  }

  lemma Scale(x: int, y: int, d: int)
    requires d > 0
    ensures x <= y ==> 2 * d * x <= 2 * d * y
  {
  }

  /** The rounded amount is the only one within half a kobo, a half going up. */
  lemma HalfUpUnique(n: int, d: int, k: int)
    requires d > 0 && 2 * n - d < 2 * d * k <= 2 * n + d
    ensures HalfUp(n, d) == k
  {
    var h := HalfUp(n, d);
    Scale(h + 1, k, d);
    Scale(k + 1, h, d);
  }

  /** A fraction at most a whole amount rounds to at most that amount. */
  lemma HalfUpAtMost(n: int, d: int, whole: int)
    requires d > 0 && n <= whole * d
    ensures HalfUp(n, d) <= whole
  {
    Scale(whole + 1, HalfUp(n, d), d);
  }

  /** A fraction at least a whole amount rounds to at least that amount. */
  lemma HalfUpAtLeast(n: int, d: int, whole: int)
    requires d > 0 && n >= whole * d
    ensures HalfUp(n, d) >= whole
  {
    Scale(HalfUp(n, d), whole - 1, d);
  }

  // ----- products -----

  lemma Increase(g: nat, x: int, y: int)
    ensures x <= y ==> g * x <= g * y
  {
  }

  lemma Distribute(x: int, y: int, z: int)
    ensures x * (y + z) == x * y + x * z
  {
  }

  lemma Twice(d: int, x: int)
    ensures 2 * d * x == 2 * (d * x) && d * x == x * d
  {
  }
}
