/**
  The basket: the tax-calculation engine.

  A basket holds the set of taxes in force and an append-only sequence of
  entries. Adding a quantity of a good computes one entry: the exact items
  amount, each applicable tax rounded up to the nickel on its own, their sum,
  and the line total. Basket figures are plain sums over the entries.
 */
module Baskets {
  import opened Money
  import opened Categories
  import opened Taxes
  import opened Goods

  /** The largest quantity a 32-bit signed integer holds. */
  const MaxQuantity: int := 0x7fff_ffff

  datatype Entry = Entry(item: Good, quantity: int, itemsAmount: int, taxesAmount: int, totalCost: int)

  datatype Basket = Basket(taxes: set<Tax>, entries: seq<Entry>)

  /** The figures of an entry that a basket sums. */
  datatype Figure = ItemsAmount | TaxesAmount | TotalCost

  predicate ValidQuantity(quantity: int) {
    0 < quantity <= MaxQuantity
  }

  /** The line invariant every computed entry keeps. */
  predicate LineInvariant(e: Entry) {
    e.totalCost == e.itemsAmount + e.taxesAmount
  }

  /** Whether a tax kind applies to a good: basic sales tax unless the
      category is exempt, import duty when the good is imported. */
  function Applies(t: Tax, g: Good): (applies: bool)
    ensures applies <==> (t == BasicSales && g.category == Others) || (t == ImportDuty && g.imported)
  {
    match t
    case BasicSales => !Goods.IsExempt(g)
    case ImportDuty => g.imported
  }

  /** One tax on an items amount: the exact amount at the tax's rate,
      rounded up to a whole number of nickels. */
  function TaxAmount(t: Tax, itemsAmount: int): (cents: int)
    ensures IsNickelMultiple(cents)
    ensures itemsAmount >= 0 ==> 0 <= HundredthsPerCent * cents - itemsAmount * RatePercent(t) < HundredthsPerNickel
    ensures itemsAmount >= 0 ==> cents >= 0
  {
    RoundUpToNickel(itemsAmount * RatePercent(t))
  }

  /** The sum, in the given order, of the taxes in `ts` that apply to the
      good, each rounded separately. */
  function SumApplicable(ts: seq<Tax>, g: Good, itemsAmount: int): (cents: int)
    ensures IsNickelMultiple(cents)
    ensures itemsAmount >= 0 ==> cents >= 0
  {
    if |ts| == 0 then 0
    else
      var head := if Applies(ts[0], g) then TaxAmount(ts[0], itemsAmount) else 0;
      var rest := SumApplicable(ts[1..], g, itemsAmount);
      NickelMultipleSum(head, rest);
      head + rest
  }

  /** A domestic good in an exempt category owes no tax, whatever taxes are listed. */
  lemma {:induction false} NothingApplies(ts: seq<Tax>, g: Good, itemsAmount: int)
    ensures Goods.IsExempt(g) && !g.imported ==> SumApplicable(ts, g, itemsAmount) == 0
  {
    if |ts| > 0 {
      NothingApplies(ts[1..], g, itemsAmount);
    }
  }

  /** What one tax kind contributes to an entry under a configured tax set. */
  function Contribution(taxes: set<Tax>, t: Tax, g: Good, itemsAmount: int): int {
    if t in taxes && Applies(t, g) then TaxAmount(t, itemsAmount) else 0
  }

  /** Computes the entry for a quantity of a good under a configured tax set. */
  function Calculate(taxes: set<Tax>, g: Good, quantity: int): (e: Entry)
    requires ValidQuantity(quantity)
    ensures e.item == g && e.quantity == quantity
    ensures e.itemsAmount == g.unitPrice * quantity
    ensures LineInvariant(e)
    ensures IsNickelMultiple(e.taxesAmount)
    ensures g.unitPrice >= 0 ==> e.taxesAmount >= 0 && e.totalCost >= e.itemsAmount
  {
    var itemsAmount := g.unitPrice * quantity;
    var taxesAmount := SumApplicable(InOrder(taxes), g, itemsAmount);
    Entry(g, quantity, itemsAmount, taxesAmount, itemsAmount + taxesAmount)
  }

  /** A domestic good in an exempt category pays no tax: its entry's total
      is its items amount. */
  lemma ExemptDomesticIsUntaxed(taxes: set<Tax>, g: Good, quantity: int)
    requires ValidQuantity(quantity)
    requires Goods.IsExempt(g) && !g.imported
    ensures Calculate(taxes, g, quantity).taxesAmount == 0
    ensures Calculate(taxes, g, quantity).totalCost == Calculate(taxes, g, quantity).itemsAmount
  {
    NothingApplies(InOrder(taxes), g, g.unitPrice * quantity);
  }

  /** The taxes of an entry are the separately rounded contributions of the
      two tax kinds: basic sales tax when configured and the good is not
      exempt, import duty when configured and the good is imported. */
  lemma CalculateByTaxRules(taxes: set<Tax>, g: Good, quantity: int)
    requires ValidQuantity(quantity)
    ensures var e := Calculate(taxes, g, quantity);
            e.taxesAmount
            == (if BasicSales in taxes && g.category == Others
                then RoundUpToNickel(e.itemsAmount * 10) else 0)
             + (if ImportDuty in taxes && g.imported
                then RoundUpToNickel(e.itemsAmount * 5) else 0)
  {
    var a := g.unitPrice * quantity;
    var ts := InOrder(taxes);
    TaxSetByMembers(taxes);
    if BasicSales in taxes && ImportDuty in taxes {
      assert ts == [BasicSales, ImportDuty];
      assert ts[1..] == [ImportDuty];
      assert ts[1..][1..] == [];
      assert SumApplicable(ts, g, a)
          == Contribution(taxes, BasicSales, g, a) + SumApplicable(ts[1..], g, a);
      assert SumApplicable(ts[1..], g, a) == Contribution(taxes, ImportDuty, g, a);
    } else if BasicSales in taxes {
      assert ts == [BasicSales];
      assert ts[1..] == [];
    } else if ImportDuty in taxes {
      assert ts == [ImportDuty];
      assert ts[1..] == [];
      assert SumApplicable(ts, g, a) == Contribution(taxes, ImportDuty, g, a);
    } else {
      assert ts == [];
    }
  }

  /** A tax kind absent from the configured set never contributes, and each
      configured kind contributes independently of the other. */
  lemma CalculateAdditiveInTaxes(taxes: set<Tax>, t: Tax, g: Good, quantity: int)
    requires ValidQuantity(quantity)
    ensures Calculate(taxes, g, quantity).taxesAmount
         == Calculate(taxes - {t}, g, quantity).taxesAmount
          + Contribution(taxes, t, g, g.unitPrice * quantity)
  {
    CalculateByTaxRules(taxes, g, quantity);
    CalculateByTaxRules(taxes - {t}, g, quantity);
  }

  /** An imported good in an exempt category pays import duty and nothing else. */
  lemma ImportedExemptPaysOnlyDuty(taxes: set<Tax>, g: Good, quantity: int)
    requires ValidQuantity(quantity)
    requires Goods.IsExempt(g) && g.imported
    ensures Calculate(taxes, g, quantity).taxesAmount
         == (if ImportDuty in taxes then TaxAmount(ImportDuty, g.unitPrice * quantity) else 0)
  {
    CalculateByTaxRules(taxes, g, quantity);
  }

  /** An entry's taxes are the sum of what the two tax kinds contribute. */
  lemma CalculateByContributions(taxes: set<Tax>, g: Good, quantity: int)
    requires ValidQuantity(quantity)
    ensures Calculate(taxes, g, quantity).taxesAmount
         == Contribution(taxes, BasicSales, g, g.unitPrice * quantity)
          + Contribution(taxes, ImportDuty, g, g.unitPrice * quantity)
  {
    CalculateByTaxRules(taxes, g, quantity);
  }

  /** The rate at which a tax kind is charged on a good under a configured
      tax set: its own rate when it is configured and applies, else zero. */
  function ChargedRate(taxes: set<Tax>, t: Tax, g: Good): nat {
    if t in taxes && Applies(t, g) then RatePercent(t) else 0
  }

  /** One kind's contribution lies between the exact tax at its charged rate
      and that plus just under one nickel, and only when it is charged. */
  lemma ContributionBounds(taxes: set<Tax>, t: Tax, g: Good, itemsAmount: int)
    requires itemsAmount >= 0
    ensures itemsAmount * ChargedRate(taxes, t, g)
         <= HundredthsPerCent * Contribution(taxes, t, g, itemsAmount)
         <= itemsAmount * ChargedRate(taxes, t, g)
          + (if ChargedRate(taxes, t, g) > 0 then HundredthsPerNickel - 1 else 0)
  {
  }

  /** A kind's contribution is the exact tax at its charged rate, rounded. */
  lemma ContributionIsRounded(taxes: set<Tax>, t: Tax, g: Good, itemsAmount: int)
    ensures Contribution(taxes, t, g, itemsAmount) == RoundUpToNickel(itemsAmount * ChargedRate(taxes, t, g))
  {
  }

  /** Rounding an amount at two rates separately never yields less than
      rounding it once at their sum. */
  lemma ScaledRoundingSubadditive(a: int, r1: nat, r2: nat)
    requires a >= 0
    ensures RoundUpToNickel(a * (r1 + r2)) <= RoundUpToNickel(a * r1) + RoundUpToNickel(a * r2)
  {
    assert a * (r1 + r2) == a * r1 + a * r2;
    RoundUpSubadditive(a * r1, a * r2);
  }

  /** Bounds of the form `a * r <= 100 * t <= a * r + slack` add up. */
  lemma BoundsAdd(a: int, r1: nat, r2: nat, t1: int, t2: int)
    requires a * r1 <= HundredthsPerCent * t1 <= a * r1 + (if r1 > 0 then HundredthsPerNickel - 1 else 0)
    requires a * r2 <= HundredthsPerCent * t2 <= a * r2 + (if r2 > 0 then HundredthsPerNickel - 1 else 0)
    ensures a * (r1 + r2) <= HundredthsPerCent * (t1 + t2)
         <= a * (r1 + r2) + ((if r1 > 0 then 1 else 0) + (if r2 > 0 then 1 else 0)) * (HundredthsPerNickel - 1)
  {
    assert a * (r1 + r2) == a * r1 + a * r2;
  }

  /** With a non-negative price, an entry's taxes lie between the exact tax
      owed at the combined applicable rate and that amount plus one nickel per
      applicable tax. */
  lemma CalculateTaxBounds(taxes: set<Tax>, g: Good, quantity: int)
    requires ValidQuantity(quantity)
    requires g.unitPrice >= 0
    ensures var e := Calculate(taxes, g, quantity);
            var basic := BasicSales in taxes && Applies(BasicSales, g);
            var duty := ImportDuty in taxes && Applies(ImportDuty, g);
            var rate := (if basic then RatePercent(BasicSales) else 0) + (if duty then RatePercent(ImportDuty) else 0);
            var count := (if basic then 1 else 0) + (if duty then 1 else 0);
            e.itemsAmount * rate <= HundredthsPerCent * e.taxesAmount <= e.itemsAmount * rate + count * (HundredthsPerNickel - 1)
  {
    var a := g.unitPrice * quantity;
    assert a >= 0;
    CalculateByContributions(taxes, g, quantity);
    ContributionBounds(taxes, BasicSales, g, a);
    ContributionBounds(taxes, ImportDuty, g, a);
    BoundsAdd(a, ChargedRate(taxes, BasicSales, g), ChargedRate(taxes, ImportDuty, g),
              Contribution(taxes, BasicSales, g, a), Contribution(taxes, ImportDuty, g, a));
  }

  /** Rounding each tax separately never charges less than rounding the
      combined tax once, and it can charge more: a one-cent imported good that
      is not exempt pays a nickel for each tax, where rounding the combined
      tax would give one nickel. */
  lemma SeparateRoundingDominatesCombined(taxes: set<Tax>, g: Good, quantity: int)
    requires ValidQuantity(quantity)
    requires g.unitPrice >= 0
    ensures var e := Calculate(taxes, g, quantity);
            var rate := (if BasicSales in taxes && Applies(BasicSales, g) then RatePercent(BasicSales) else 0)
                      + (if ImportDuty in taxes && Applies(ImportDuty, g) then RatePercent(ImportDuty) else 0);
            RoundUpToNickel(e.itemsAmount * rate) <= e.taxesAmount
    ensures var penny := Good(None, 1, Others, true);
            Calculate(AllTaxes(), penny, 1).taxesAmount == 10
            && RoundUpToNickel(1 * (RatePercent(BasicSales) + RatePercent(ImportDuty))) == 5
  {
    var a := g.unitPrice * quantity;
    assert a >= 0;
    CalculateByContributions(taxes, g, quantity);
    ContributionIsRounded(taxes, BasicSales, g, a);
    ContributionIsRounded(taxes, ImportDuty, g, a);
    ScaledRoundingSubadditive(a, ChargedRate(taxes, BasicSales, g), ChargedRate(taxes, ImportDuty, g));
    SeparateRoundingCanChargeMore();
  }

  /** A one-cent imported good that is not exempt pays a nickel for each of
      the two taxes, twice what rounding the combined tax would give. */
  lemma SeparateRoundingCanChargeMore()
    ensures var penny := Good(None, 1, Others, true);
            Calculate(AllTaxes(), penny, 1).taxesAmount == 10
            && RoundUpToNickel(1 * (RatePercent(BasicSales) + RatePercent(ImportDuty))) == 5
  {
    CalculateByTaxRules(AllTaxes(), Good(None, 1, Others, true), 1);
  }

  // ---------------------------------------------------------------------
  // The basket

  /** An empty basket with the given taxes in force. */
  function NewBasket(taxes: set<Tax>): (b: Basket)
    ensures b.taxes == taxes && |b.entries| == 0
  {
    Basket(taxes, [])
  }

  /** Every entry of the basket was computed by `Calculate` under the
      basket's own taxes, from a valid quantity. */
  predicate Valid(b: Basket) {
    forall i :: 0 <= i < |b.entries| ==>
      ValidQuantity(b.entries[i].quantity)
      && b.entries[i] == Calculate(b.taxes, b.entries[i].item, b.entries[i].quantity)
  }

  /** Adds a quantity of a good: computes its entry under the basket's taxes,
      appends it, and returns the new basket with the entry. */
  function Add(b: Basket, quantity: int, g: Good): (r: (Basket, Entry))
    requires ValidQuantity(quantity)
    ensures r.0.taxes == b.taxes
    ensures |r.0.entries| == |b.entries| + 1
    ensures r.0.entries[..|b.entries|] == b.entries
    ensures r.0.entries[|b.entries|] == r.1
    ensures r.1 == Calculate(b.taxes, g, quantity)
    ensures r.1.item == g && r.1.quantity == quantity
    ensures r.1.itemsAmount == g.unitPrice * quantity
    ensures LineInvariant(r.1)
  {
    var e := Calculate(b.taxes, g, quantity);
    (Basket(b.taxes, b.entries + [e]), e)
  }

  /** Adding keeps a basket valid. */
  lemma AddPreservesValid(b: Basket, quantity: int, g: Good)
    requires Valid(b)
    requires ValidQuantity(quantity)
    ensures Valid(Add(b, quantity, g).0)
  {
  }

  /** The value of one figure of an entry. */
  function Value(e: Entry, f: Figure): int {
    match f
    case ItemsAmount => e.itemsAmount
    case TaxesAmount => e.taxesAmount
    case TotalCost => e.totalCost
  }

  /** The sum of one figure over the entries, folded left from zero. */
  function Sum(es: seq<Entry>, f: Figure): int {
    if |es| == 0 then 0 else Sum(es[..|es| - 1], f) + Value(es[|es| - 1], f)
  }

  /** Sums distribute over concatenation of entry sequences. */
  lemma {:induction false} SumAppend(xs: seq<Entry>, ys: seq<Entry>, f: Figure)
    ensures Sum(xs + ys, f) == Sum(xs, f) + Sum(ys, f)
    decreases |ys|
  {
    if |ys| == 0 {
      assert xs + ys == xs;
    } else {
      var last := ys[|ys| - 1];
      var init := ys[..|ys| - 1];
      assert (xs + ys)[..|xs + ys| - 1] == xs + init;
      SumAppend(xs, init, f);
    }
  }

  /** The basket's taxes: the sum of the entries' taxes. */
  function TaxesAmountOf(b: Basket): int {
    Sum(b.entries, TaxesAmount)
  }

  /** The basket's total: the sum of the entries' totals. */
  function TotalCostOf(b: Basket): int {
    Sum(b.entries, TotalCost)
  }

  /** An empty basket has no taxes and costs nothing. */
  lemma EmptyBasketIsZero(taxes: set<Tax>)
    ensures TaxesAmountOf(NewBasket(taxes)) == 0
    ensures TotalCostOf(NewBasket(taxes)) == 0
  {
  }

  /** When every entry keeps the line invariant, the total of the entries is
      their items amount plus their taxes. */
  lemma {:induction false} SumOfLines(es: seq<Entry>)
    requires forall i :: 0 <= i < |es| ==> LineInvariant(es[i])
    ensures Sum(es, TotalCost) == Sum(es, ItemsAmount) + Sum(es, TaxesAmount)
    decreases |es|
  {
    if |es| > 0 {
      var init := es[..|es| - 1];
      assert forall i :: 0 <= i < |init| ==> init[i] == es[i];
      SumOfLines(init);
      assert LineInvariant(es[|es| - 1]);
    }
  }

  /** A valid basket's total is its items amount plus its taxes. */
  lemma BasketTotalIsItemsPlusTaxes(b: Basket)
    requires Valid(b)
    ensures TotalCostOf(b) == Sum(b.entries, ItemsAmount) + TaxesAmountOf(b)
  {
    SumOfLines(b.entries);
  }

  /** Adding an entry adds exactly its figures to the basket's figures. */
  lemma AddGrowsFigures(b: Basket, quantity: int, g: Good, f: Figure)
    requires ValidQuantity(quantity)
    ensures Sum(Add(b, quantity, g).0.entries, f) == Sum(b.entries, f) + Value(Add(b, quantity, g).1, f)
  {
  }

  /** Summing entries whose taxes are non-negative whole numbers of nickels
      gives a non-negative whole number of nickels. */
  lemma {:induction false} SumOfNickels(es: seq<Entry>)
    requires forall i :: 0 <= i < |es| ==> es[i].taxesAmount >= 0 && IsNickelMultiple(es[i].taxesAmount)
    ensures Sum(es, TaxesAmount) >= 0
    ensures IsNickelMultiple(Sum(es, TaxesAmount))
    decreases |es|
  {
    if |es| > 0 {
      var init := es[..|es| - 1];
      assert forall i :: 0 <= i < |init| ==> init[i] == es[i];
      SumOfNickels(init);
      assert es[|es| - 1].taxesAmount >= 0;
    }
  }

  /** In a valid basket whose goods all have non-negative prices, the taxes
      are a non-negative whole number of nickels and the total is at least
      the items amount. */
  lemma ValidBasketTaxesNonNegative(b: Basket)
    requires Valid(b)
    requires forall i :: 0 <= i < |b.entries| ==> b.entries[i].item.unitPrice >= 0
    ensures TaxesAmountOf(b) >= 0
    ensures IsNickelMultiple(TaxesAmountOf(b))
    ensures TotalCostOf(b) >= Sum(b.entries, ItemsAmount)
  {
    forall i | 0 <= i < |b.entries|
      ensures b.entries[i].taxesAmount >= 0 && IsNickelMultiple(b.entries[i].taxesAmount)
    {
      var e := b.entries[i];
      assert e == Calculate(b.taxes, e.item, e.quantity);
    }
    SumOfNickels(b.entries);
    BasketTotalIsItemsPlusTaxes(b);
  }

  /** The basket's taxes, computed as a stream reduction: a running sum over
      the entries in insertion order, starting from zero. */
  method GetTaxesAmount(b: Basket) returns (total: int)
    ensures total == Sum(b.entries, TaxesAmount)
    ensures |b.entries| == 0 ==> total == 0
  {
    total := 0;
    var i := 0;
    while i < |b.entries|
      invariant 0 <= i <= |b.entries|
      invariant total == Sum(b.entries[..i], TaxesAmount)
    {
      assert b.entries[..i + 1][..i] == b.entries[..i];
      total := total + b.entries[i].taxesAmount;
      i := i + 1;
    }
    assert b.entries[..i] == b.entries;
  }

  /** The basket's total cost, computed as a stream reduction: a running sum
      over the entries in insertion order, starting from zero. */
  method GetTotalCost(b: Basket) returns (total: int)
    ensures total == Sum(b.entries, TotalCost)
    ensures |b.entries| == 0 ==> total == 0
  {
    total := 0;
    var i := 0;
    while i < |b.entries|
      invariant 0 <= i <= |b.entries|
      invariant total == Sum(b.entries[..i], TotalCost)
    {
      assert b.entries[..i + 1][..i] == b.entries[..i];
      total := total + b.entries[i].totalCost;
      i := i + 1;
    }
    assert b.entries[..i] == b.entries;
  }
}
