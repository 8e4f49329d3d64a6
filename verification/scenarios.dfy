/**
  The three canonical receipts, worked through the model with both taxes in
  force. Prices are in cents: 12.49 is 1249.
 */
module Scenarios {
  import opened Money
  import opened Categories
  import opened Taxes
  import opened Goods
  import opened Baskets

  /** A good assembled through the builder, as a shop assistant would. */
  function Item(cents: int, category: Category, imported: bool): (g: Good)
    ensures g.unitPrice == cents && g.category == category && g.imported == imported
  {
    Create(SetImported(SetCategory(SetUnitPrice(NewBuilder(), cents), category), imported))
  }

  /** Adding one unit of a good to a basket under both taxes appends an entry
      that pays the separately rounded basic sales tax (for goods that are not
      exempt) and import duty (for imported goods), and grows the basket's
      taxes and total cost by that entry's. */
  lemma UnitEntry(b: Basket, g: Good, b': Basket, e: Entry)
    requires b.taxes == AllTaxes()
    requires (b', e) == Add(b, 1, g)
    ensures b'.taxes == AllTaxes() && b'.entries == b.entries + [e]
    ensures e.taxesAmount == (if g.category == Others then RoundUpToNickel(g.unitPrice * 10) else 0)
                           + (if g.imported then RoundUpToNickel(g.unitPrice * 5) else 0)
    ensures e.totalCost == g.unitPrice + e.taxesAmount
    ensures TaxesAmountOf(b') == TaxesAmountOf(b) + e.taxesAmount
    ensures TotalCostOf(b') == TotalCostOf(b) + e.totalCost
  {
    CalculateByTaxRules(AllTaxes(), g, 1);
    AddGrowsFigures(b, 1, g, TaxesAmount);
    AddGrowsFigures(b, 1, g, TotalCost);
  }

  /** Receipt 1: a book, a music CD and a chocolate bar, none imported. */
  lemma FirstScenario(b1: Basket, e1: Entry, b2: Basket, e2: Entry, b3: Basket, e3: Entry)
    requires (b1, e1) == Add(NewBasket(AllTaxes()), 1, Item(1249, Books, false))
    requires (b2, e2) == Add(b1, 1, Item(1499, Others, false))
    requires (b3, e3) == Add(b2, 1, Item(85, Food, false))
    ensures e1.totalCost == 1249 && e2.totalCost == 1649 && e3.totalCost == 85
    ensures b3.entries == [e1, e2, e3]
    ensures TaxesAmountOf(b3) == 150
    ensures TotalCostOf(b3) == 2983
  {
    EmptyBasketIsZero(AllTaxes());
    UnitEntry(NewBasket(AllTaxes()), Item(1249, Books, false), b1, e1);
    UnitEntry(b1, Item(1499, Others, false), b2, e2);
    UnitEntry(b2, Item(85, Food, false), b3, e3);
    FirstScenarioRounding();
  }

  /** The rounded tax of receipt 1: basic sales tax on the music CD. */
  lemma FirstScenarioRounding()
    ensures RoundUpToNickel(14990) == 150
  {
  }

  /** Receipt 2: an imported box of chocolates and an imported bottle of perfume. */
  lemma SecondScenario(b1: Basket, e1: Entry, b2: Basket, e2: Entry)
    requires (b1, e1) == Add(NewBasket(AllTaxes()), 1, Item(1000, Food, true))
    requires (b2, e2) == Add(b1, 1, Item(4750, Others, true))
    ensures e1.totalCost == 1050 && e2.totalCost == 5465
    ensures b2.entries == [e1, e2]
    ensures TaxesAmountOf(b2) == 765
    ensures TotalCostOf(b2) == 6515
  {
    EmptyBasketIsZero(AllTaxes());
    UnitEntry(NewBasket(AllTaxes()), Item(1000, Food, true), b1, e1);
    UnitEntry(b1, Item(4750, Others, true), b2, e2);
    SecondScenarioRounding();
  }

  /** The rounded taxes of receipt 2: duty on the chocolates, both taxes on
      the perfume. */
  lemma SecondScenarioRounding()
    ensures RoundUpToNickel(5000) == 50
    ensures RoundUpToNickel(47500) == 475 && RoundUpToNickel(23750) == 240
  {
  }

  /** Receipt 3: imported perfume, domestic perfume, headache pills and
      imported chocolates. */
  lemma ThirdScenario(b1: Basket, e1: Entry, b2: Basket, e2: Entry,
                      b3: Basket, e3: Entry, b4: Basket, e4: Entry)
    requires (b1, e1) == Add(NewBasket(AllTaxes()), 1, Item(2799, Others, true))
    requires (b2, e2) == Add(b1, 1, Item(1899, Others, false))
    requires (b3, e3) == Add(b2, 1, Item(975, Medical, false))
    requires (b4, e4) == Add(b3, 1, Item(1125, Food, true))
    ensures e1.totalCost == 3219 && e2.totalCost == 2089
    ensures e3.totalCost == 975 && e4.totalCost == 1185
    ensures b4.entries == [e1, e2, e3, e4]
    ensures TaxesAmountOf(b4) == 670
    ensures TotalCostOf(b4) == 7468
  {
    EmptyBasketIsZero(AllTaxes());
    UnitEntry(NewBasket(AllTaxes()), Item(2799, Others, true), b1, e1);
    UnitEntry(b1, Item(1899, Others, false), b2, e2);
    UnitEntry(b2, Item(975, Medical, false), b3, e3);
    UnitEntry(b3, Item(1125, Food, true), b4, e4);
    ThirdScenarioRounding();
  }

  /** The rounded taxes of receipt 3: both taxes on the imported perfume,
      basic sales tax on the domestic perfume, duty on the chocolates. */
  lemma ThirdScenarioRounding()
    ensures RoundUpToNickel(27990) == 280 && RoundUpToNickel(13995) == 140
    ensures RoundUpToNickel(18990) == 190 && RoundUpToNickel(5625) == 60
  {
  }
}
