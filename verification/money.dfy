/** Money. Every amount is an integer number of cents; where the checkout page
    keeps an unrounded 8% tax, the amount is given in hundredths of a cent
    ("fine" units) so that it stays exact. */
module Money {

  /** The sales tax both the cart page and the checkout page charge, in percent. */
  const TaxPercent: int := 8

  /** The flat delivery fee of $2.99, in cents. */
  const DeliveryFeeCents: int := 299

  /** Fine units per cent. */
  const FinePerCent: int := 100

  /** `parseFloat(x.toFixed(2))` for an amount `x` given in fine units: the
      nearest whole cent, a tie going away from zero (toFixed rounds the
      magnitude and keeps the sign). */
  function RoundToCents(fine: int): (c: int)
    ensures fine >= 0 ==> fine - 50 < 100 * c <= fine + 50
    ensures fine < 0 ==> fine - 50 <= 100 * c < fine + 50
  {
    if fine >= 0 then (fine + 50) / 100 else -((-fine + 50) / 100)
  }

  /** An amount that already is a whole number of cents is left alone. */
  lemma RoundWholeCents(c: int)
    ensures RoundToCents(100 * c) == c
  {
  }

  /** Adding whole cents to a non-negative amount commutes with rounding. */
  lemma RoundShift(k: nat, fine: nat)
    ensures RoundToCents(100 * k + fine) == k + RoundToCents(fine)
  {
  }

  /** The 8% tax on a subtotal of `subtotal` cents, exact, in fine units. */
  function ExactTaxFine(subtotal: int): int {
    TaxPercent * subtotal
  }
}
