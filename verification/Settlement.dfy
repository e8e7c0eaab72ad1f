/** How a confirmed order's subtotal is split between deductions and its store. */
module Settlement {
  import opened Outcome
  import opened Money

  /** Rates over a common denominator: a rate of 7.5 percent is 75 over 1000. */
  datatype Rates = Rates(vat: int, service: int, platform: int, den: int)

  const DEFAULT_RATES := Rates(75, 50, 50, 1000)

  predicate ValidRates(r: Rates) {
    && r.den > 0
    && 0 <= r.vat <= r.den && 0 <= r.service <= r.den && 0 <= r.platform <= r.den
    && r.vat + r.service + r.platform <= r.den
  }

  datatype Shares = Shares(vat: nat, service: nat, platform: nat, store: nat)

  /** Each deduction is rounded on its own; a negative remainder is refused. */
  function Split(subtotal: nat, r: Rates): (s: Result<Shares>)
    ensures s.Ok? ==> s.value.vat + s.value.service + s.value.platform + s.value.store == subtotal
  {
    if !ValidRates(r) then Err(Invalid)
    else
      var vat :- ToKobo(subtotal * r.vat, r.den);
      var service :- ToKobo(subtotal * r.service, r.den);
      var platform :- ToKobo(subtotal * r.platform, r.den);
      var store := subtotal - vat - service - platform;
      if store < 0 then Err(Invalid) else Ok(Shares(vat, service, platform, store))
  }

  /** The three rounded deductions together. */
  function Deductions(subtotal: nat, r: Rates): int
    requires ValidRates(r)
  {
    HalfUp(subtotal * r.vat, r.den) + HalfUp(subtotal * r.service, r.den)
    + HalfUp(subtotal * r.platform, r.den)
  }

  /** Rounding never makes the deductions exceed the subtotal by more than one kobo. */
  lemma OvershootAtMostOne(subtotal: nat, r: Rates)
    requires ValidRates(r)
    ensures Deductions(subtotal, r) <= subtotal + 1
  {
    var d := Deductions(subtotal, r);
    DeductionsScaled(subtotal, r);
    Increase(subtotal, r.vat + r.service + r.platform, r.den);
    Scale(subtotal + 2, d, r.den);
    Twice(r.den, subtotal + 2);
    Distribute(r.den, subtotal, 2);
    Twice(r.den, subtotal);
  }

  lemma DeductionsScaled(subtotal: nat, r: Rates)
    requires ValidRates(r)
    ensures 2 * r.den * Deductions(subtotal, r)
            <= 2 * (subtotal * (r.vat + r.service + r.platform)) + 3 * r.den
  {
    var a := HalfUp(subtotal * r.vat, r.den);
    var b := HalfUp(subtotal * r.service, r.den);
    var c := HalfUp(subtotal * r.platform, r.den);
    Distribute(2 * r.den, a, b);
    Distribute(2 * r.den, a + b, c);
    Distribute(subtotal, r.vat, r.service);
    Distribute(subtotal, r.vat + r.service, r.platform);
  }

  /** Rates are valid between nothing and everything, each and together. */
  lemma RatesDecided(r: Rates)
    ensures Split(0, r).Ok? <==>
      && r.den > 0 && r.vat >= 0 && r.service >= 0 && r.platform >= 0 && r.vat + r.service + r.platform <= r.den
  {
    if ValidRates(r) {
      HalfUpUnique(0, r.den, 0);
    }
  }

  /** A split is refused for exactly one reason besides bad rates: one kobo of overshoot. */
  lemma RefusedExactlyOnOvershoot(subtotal: nat, r: Rates)
    ensures Split(subtotal, r).Err? <==> (ValidRates(r) ==> Deductions(subtotal, r) == subtotal + 1)
  {
    if ValidRates(r) {
      OvershootAtMostOne(subtotal, r);
      NonNegativeProducts(subtotal, r);
    }
  }

  lemma NonNegativeProducts(subtotal: nat, r: Rates)
    requires ValidRates(r)
    ensures subtotal * r.vat >= 0 && subtotal * r.service >= 0 && subtotal * r.platform >= 0
  {
  }

  /** When more than half a kobo is left before rounding, the split always succeeds. */
  lemma RoomForRounding(subtotal: nat, r: Rates)
    requires ValidRates(r)
    requires 2 * subtotal * (r.den - r.vat - r.service - r.platform) > r.den
    ensures Split(subtotal, r).Ok?
  {
    DeductionsScaled(subtotal, r);
    RefusedExactlyOnOvershoot(subtotal, r);
    var k := r.vat + r.service + r.platform;
    Twice(subtotal, r.den - k);
    Distribute(subtotal, r.den - k, k);
    Scale(subtotal + 1, Deductions(subtotal, r), r.den);
    Twice(r.den, subtotal + 1);
    Distribute(r.den, subtotal, 1);
    Twice(r.den, subtotal);
  }

  /** The shipped rates settle every order. */
  lemma DefaultRatesAlwaysSettle(subtotal: nat)
    ensures Split(subtotal, DEFAULT_RATES).Ok?
  {
    if subtotal == 0 {
      HalfUpUnique(0, 1000, 0);
    } else {
      RoomForRounding(subtotal, DEFAULT_RATES);
    }
  }

  /** Rates of one half each, valid by the configuration check, cannot settle a one-kobo order. */
  lemma HalfAndHalfRefusesOneKobo()
    ensures ValidRates(Rates(1, 1, 0, 2)) && Split(1, Rates(1, 1, 0, 2)).Err?
  {
    HalfUpUnique(1, 2, 1);
    HalfUpUnique(0, 2, 0);
  }

  /** Each deduction is its rate's exact share to the nearest kobo, a half going up; the store gets the rest. */
  lemma SharesAreNearest(subtotal: nat, r: Rates)
    requires Split(subtotal, r).Ok?
    ensures ValidRates(r)
    ensures var s := Split(subtotal, r).value;
            && Nearest(s.vat, subtotal * r.vat, r.den)
            && Nearest(s.service, subtotal * r.service, r.den)
            && Nearest(s.platform, subtotal * r.platform, r.den)
            && s.store == subtotal - s.vat - s.service - s.platform
  {
  }

  /** `k` is within half a kobo of `n / d`, below it at most by less than a half. */
  predicate Nearest(k: int, n: int, d: int) {
    2 * n - d < 2 * d * k <= 2 * n + d
  }
}
