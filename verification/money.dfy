/**
  Exact money arithmetic for the receipt calculator.

  Every monetary value is an integer number of cents. A tax computed exactly
  (an amount in cents times a rate in percent) is an integer number of
  hundredths of a cent; it becomes a payable amount only after it is rounded
  up to the next multiple of five cents (a "nickel").
 */
module Money {

  /** The rounding increment of every tax amount, in cents (0.05). */
  const Nickel: int := 5

  /** Hundredths of a cent per cent. */
  const HundredthsPerCent: int := 100

  /** Hundredths of a cent per nickel: the divisor used when rounding. */
  const HundredthsPerNickel: int := Nickel * HundredthsPerCent

  /** Integer quotient of a / b with the discarded fraction rounded away from
      zero, as a decimal division to scale 0 in rounding mode UP does. */
  function DivideUp(a: int, b: int): (q: int)
    requires b > 0
    ensures a >= 0 ==> b * (q - 1) < a <= b * q
    ensures a <= 0 ==> b * q <= a < b * (q + 1)
  {
    if a >= 0 then (a + b - 1) / b else -((-a + b - 1) / b)
  }

  /** True when a cent amount is a whole number of nickels. */
  predicate IsNickelMultiple(cents: int) {
    cents % Nickel == 0
  }

  /** Whole numbers of nickels add up to a whole number of nickels. */
  lemma NickelMultipleSum(x: int, y: int)
    requires IsNickelMultiple(x) && IsNickelMultiple(y)
    ensures IsNickelMultiple(x + y)
  {
  }

  /** Rounds an exact amount, given in hundredths of a cent, to a whole number
      of nickels, away from zero; the result is in cents. */
  function RoundUpToNickel(exact: int): (cents: int)
    ensures IsNickelMultiple(cents)
    ensures exact >= 0 ==> exact <= HundredthsPerCent * cents < exact + HundredthsPerNickel
    ensures exact <= 0 ==> exact - HundredthsPerNickel < HundredthsPerCent * cents <= exact
    ensures exact % HundredthsPerNickel == 0 ==> HundredthsPerCent * cents == exact
  {
    Nickel * DivideUp(exact, HundredthsPerNickel)
  }

  /** For a non-negative amount the rounded value is the LEAST nickel multiple
      that is not below it: no smaller payable amount covers the exact tax. */
  lemma RoundUpIsLeast(exact: int, m: int)
    requires exact >= 0
    requires IsNickelMultiple(m)
    requires HundredthsPerCent * m >= exact
    ensures RoundUpToNickel(exact) <= m
  {
  }

  /** Rounding is characterised by its laws: a nickel multiple, not below the
      exact amount, and the least such. Any value with these laws equals it. */
  lemma RoundUpUnique(exact: int, m: int)
    requires exact >= 0
    requires IsNickelMultiple(m)
    requires exact <= HundredthsPerCent * m < exact + HundredthsPerNickel
    ensures RoundUpToNickel(exact) == m
  {
  }

  /** Rounding an amount that already is a whole number of nickels changes
      nothing, so rounding twice is rounding once. */
  lemma RoundUpIdempotent(exact: int)
    ensures RoundUpToNickel(HundredthsPerCent * RoundUpToNickel(exact)) == RoundUpToNickel(exact)
  {
  }

  /** Rounding away from zero is symmetric about zero. */
  lemma RoundUpOdd(exact: int)
    ensures RoundUpToNickel(-exact) == -RoundUpToNickel(exact)
  {
  }

  /** Rounding preserves order. */
  lemma RoundUpMonotone(x: int, y: int)
    requires x <= y
    ensures RoundUpToNickel(x) <= RoundUpToNickel(y)
  {
  }

  /** Rounding two non-negative amounts separately never yields less than
      rounding their sum once. */
  lemma RoundUpSubadditive(x: int, y: int)
    requires x >= 0 && y >= 0
    ensures RoundUpToNickel(x + y) <= RoundUpToNickel(x) + RoundUpToNickel(y)
  {
  }
}
