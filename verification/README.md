# Receipt tax engine — a Dafny model

This project models the tax-calculation engine of a receipt calculator (package
`receipt`). A **basket** is created with a set of active **taxes**. Each time a
quantity of a **good** is added, the basket computes one **entry**:

- the items amount (unit price × quantity, exact);
- which active taxes apply: basic sales tax (10%) unless the good's category is
  exempt, and import duty (5%) if the good is imported;
- each applicable tax, rounded up on its own to the next 0.05;
- the entry's taxes (the sum of those rounded taxes) and its total cost.

The basket's taxes and total cost are plain sums over its entries.

Money is exact. A price or amount is an integer number of cents. A rate is an
integer percentage. A tax computed exactly (cents × percent) is an integer number
of hundredths of a cent. Rounding it to the nickel gives `5 * DivideUp(x, 500)` cents.
`DivideUp` rounds away from zero, as a decimal division in rounding mode `UP` does.

Modules, one per source file, plus the money primitive and the worked receipts:

- `Money` (`money.dfy`): the rounding primitive and its laws.
- `Categories` (`categories.dfy`): the closed set of categories and their exemption flags.
- `Taxes` (`taxes.dfy`): the closed set of taxes, their rates, and the order an enum set visits them.
- `Goods` (`goods.dfy`): the immutable good and its builder.
- `Baskets` (`basket.dfy`): entries, tax applicability, per-entry calculation, the append-only basket and its sums.
- `Scenarios` (`scenarios.dfy`): the three canonical receipts worked through the model.

The model is functional. `Add` returns the new basket together with the new entry.
A basket is only ever changed by appending an entry.

How the model treats inputs the code does not check:

- The code does not reject a non-positive quantity. The model requires a
  quantity in `1 .. 2^31-1` (positive, and within Java's `int`) and has no error path.
- The code does not reject an incomplete builder. The model requires the price
  and category to be set before `Create`.
- The code does not check the sign of a price. The model accepts any integer price.
  Its properties about non-negative taxes assume a non-negative price.

## Model

| member | source | states |
|---|---|---|
| Money.DivideUp | src/main/java/receipt/Basket.java:154 | The quotient to scale 0 in rounding mode UP: for a ≥ 0 it is the ceiling (b(q−1) < a ≤ bq). For a ≤ 0 it is the floor of the negative side (bq ≤ a < b(q+1)). |
| Money.RoundUpToNickel | src/main/java/receipt/Basket.java:153-155 | The rounded tax is a whole number of nickels. For x ≥ 0 it is at least x and less than x + 0.05. An x that already is a multiple of 0.05 is unchanged. Negative x is handled symmetrically. |
| Money.RoundUpIsLeast | src/main/java/receipt/Basket.java:153-155 | For x ≥ 0, no smaller multiple of 0.05 covers x. |
| Money.RoundUpUnique | src/main/java/receipt/Basket.java:153-155 | Any nickel multiple within [x, x + 0.05) is the rounded value. The laws therefore determine the rounding. |
| Money.RoundUpIdempotent | src/main/java/receipt/Basket.java:124 | Rounding an already rounded amount changes nothing. |
| Money.RoundUpOdd | src/main/java/receipt/Basket.java:154 | Rounding away from zero is symmetric: round(−x) = −round(x). |
| Money.RoundUpMonotone | src/main/java/receipt/Basket.java:153-155 | Rounding preserves order. |
| Money.RoundUpSubadditive | src/main/java/receipt/Basket.java:153-155 | For x, y ≥ 0, rounding x and y separately never gives less than rounding x + y once. |
| Categories.AllCategories | src/main/java/receipt/Category.java:6-10 | There are exactly four categories. |
| Categories.AllCategoriesComplete | src/main/java/receipt/Category.java:6-10 | Every category is BOOKS, FOOD, MEDICAL or OTHERS. The enumeration is closed. |
| Categories.IsExempt | src/main/java/receipt/Category.java:7-21 | A category is exempt exactly when it is not OTHERS. So BOOKS, FOOD and MEDICAL are exempt. |
| Categories.ExemptCategories | src/main/java/receipt/Category.java:7-10 | The exempt categories are all categories but OTHERS. |
| Taxes.AllTaxes | src/main/java/receipt/Tax.java:9-11 | There are exactly two tax kinds. |
| Taxes.AllTaxesComplete | src/main/java/receipt/Tax.java:9-11 | Every tax is BASIC_SALES or IMPORT_DUTY. The enumeration is closed. |
| Taxes.RatePercent | src/main/java/receipt/Tax.java:10-22 | Every rate lies strictly between 0 and 1. |
| Taxes.TaxSetByMembers | src/main/java/receipt/Tax.java:9-11 | A set of taxes is determined by which of the two kinds it contains. |
| Taxes.InOrder | src/main/java/receipt/Basket.java:100 | Iterating the active tax set visits exactly its members, each once, in declaration order. |
| Goods.NewBuilder | src/main/java/receipt/Good.java:37-45 | A fresh builder has no description, price or category, and is not imported. |
| Goods.SetDescription | src/main/java/receipt/Good.java:47-50 | Sets the description and leaves every other field unchanged. |
| Goods.SetUnitPrice | src/main/java/receipt/Good.java:52-55 | Sets the unit price and leaves every other field unchanged. |
| Goods.SetCategory | src/main/java/receipt/Good.java:57-60 | Sets the category and leaves every other field unchanged. |
| Goods.SetImported | src/main/java/receipt/Good.java:62-65 | Sets the imported flag and leaves every other field unchanged. |
| Goods.Create | src/main/java/receipt/Good.java:67-74 | The good carries exactly the builder's description, price, category and imported flag. |
| Goods.IsExempt | src/main/java/receipt/Good.java:29-31 | A good is exempt exactly when its category is BOOKS, FOOD or MEDICAL. |
| Goods.BuildDefaultsToDomestic | src/main/java/receipt/Good.java:16-45 | If the imported flag was never set, the good built is not imported. It still carries the price and category that were set. |
| Goods.SettersCommute | src/main/java/receipt/Good.java:47-65 | Any two setters on different fields give the same builder in either order, so every order of the four setters builds the same good. |
| Goods.BuildRoundTrip | src/main/java/receipt/Good.java:47-73 | Setting all four fields on a fresh builder and creating gives the good with exactly those fields, in the usual order and in the reverse order. |
| Baskets.Applies | src/main/java/receipt/Basket.java:133-141 | BASIC_SALES applies exactly to goods in OTHERS. IMPORT_DUTY applies exactly to imported goods. |
| Baskets.TaxAmount | src/main/java/receipt/Basket.java:145-147 | One tax is a whole number of nickels. For a non-negative amount it is at least the exact tax at the tax's rate and less than that plus 0.05. |
| Baskets.SumApplicable | src/main/java/receipt/Basket.java:100-103 | The filtered, mapped and reduced tax sum is a whole number of nickels. It is non-negative for a non-negative amount. |
| Baskets.Calculate | src/main/java/receipt/Basket.java:89-106 | The entry keeps its good and quantity. Its items amount is exactly price × quantity. Its total is items + taxes. Its taxes are nickels, and non-negative for a non-negative price. |
| Baskets.NothingApplies | src/main/java/receipt/Basket.java:133-141 | A domestic good in an exempt category gets no tax from any list of taxes. |
| Baskets.ExemptDomesticIsUntaxed | src/main/java/receipt/Basket.java:100-104 | A domestic good in an exempt category has taxes 0, so its total is its items amount. |
| Baskets.CalculateByTaxRules | src/main/java/receipt/Basket.java:99-147 | An entry's taxes equal round(items × 10%) if BASIC_SALES is active and the good is in OTHERS, plus round(items × 5%) if IMPORT_DUTY is active and the good is imported. |
| Baskets.CalculateByContributions | src/main/java/receipt/Basket.java:100-103 | An entry's taxes are what BASIC_SALES contributes plus what IMPORT_DUTY contributes. A kind contributes its rounded tax when it is active and applies to the good, else nothing. |
| Baskets.ContributionBounds | src/main/java/receipt/Basket.java:145-155 | One kind's contribution is at least the exact tax at the rate it is charged at. It exceeds that by less than 0.05, and only when the kind is charged. |
| Baskets.CalculateAdditiveInTaxes | src/main/java/receipt/Basket.java:100-103 | Removing a tax from the active set removes exactly that tax's contribution. A tax that is not active contributes nothing. |
| Baskets.ImportedExemptPaysOnlyDuty | src/main/java/receipt/Basket.java:133-141 | An imported good in an exempt category pays import duty only, and only if that duty is active. |
| Baskets.CalculateTaxBounds | src/main/java/receipt/Basket.java:100-103 | With a non-negative price, an entry's taxes are at least the exact tax at the combined applicable rate. They exceed it by less than 0.05 per applicable tax. |
| Baskets.SeparateRoundingDominatesCombined | src/main/java/receipt/Basket.java:100-103 | Rounding each tax separately never charges less than rounding the combined tax once. It can charge more, as the one-cent case below shows. |
| Baskets.SeparateRoundingCanChargeMore | src/main/java/receipt/Basket.java:100-103 | Separate rounding can charge more than combined rounding: a one-cent imported item in OTHERS pays 0.10, where rounding the combined tax would give 0.05. |
| Baskets.NewBasket | src/main/java/receipt/Basket.java:18-30 | A new basket has the given taxes and no entries. |
| Baskets.Add | src/main/java/receipt/Basket.java:39-43 | Add appends exactly one entry at the end and keeps the earlier entries and the tax set. It returns the appended entry, which is the entry calculated under the basket's own taxes for the given good and quantity, with the line invariant holding. |
| Baskets.AddPreservesValid | src/main/java/receipt/Basket.java:39-43 | If every entry was computed under the basket's taxes, that stays true after an add. |
| Baskets.SumAppend | src/main/java/receipt/Basket.java:45-51 | The sum over a concatenation of entries is the sum of the two parts' sums. |
| Baskets.EmptyBasketIsZero | src/main/java/receipt/Basket.java:45-51 | An empty basket has taxes 0 and total 0. |
| Baskets.SumOfLines | src/main/java/receipt/Basket.java:45-51 | If every entry keeps total = items + taxes, then the sum of totals equals the sum of items plus the sum of taxes. |
| Baskets.BasketTotalIsItemsPlusTaxes | src/main/java/receipt/Basket.java:45-51 | A valid basket's total cost is its items amount plus its taxes. |
| Baskets.AddGrowsFigures | src/main/java/receipt/Basket.java:39-51 | After an add, each basket figure grows by exactly the new entry's value of that figure. |
| Baskets.SumOfNickels | src/main/java/receipt/Basket.java:45-47 | Summing non-negative nickel amounts gives a non-negative nickel amount. |
| Baskets.ValidBasketTaxesNonNegative | src/main/java/receipt/Basket.java:45-51 | Take a valid basket whose prices are non-negative. Its taxes are a non-negative whole number of nickels, and its total is at least its items amount. |
| Baskets.GetTaxesAmount | src/main/java/receipt/Basket.java:45-47 | The running reduction from zero over the entries, in insertion order, equals the sum of their taxes. It is 0 for an empty basket. |
| Baskets.GetTotalCost | src/main/java/receipt/Basket.java:49-51 | The running reduction from zero over the entries, in insertion order, equals the sum of their totals. It is 0 for an empty basket. |
| Scenarios.Item | src/test/java/receipt/ScenarioTest.java:66-72 | A good assembled through the builder carries the price, category and imported flag given to it. |
| Scenarios.UnitEntry | src/main/java/receipt/Basket.java:39-51 | With both taxes active, adding one unit of a good appends an entry that pays round(price × 10%) if it is in OTHERS, plus round(price × 5%) if it is imported. The basket's taxes and total grow by the entry's. |
| Scenarios.FirstScenario | src/test/java/receipt/ScenarioTest.java:64-95 | Book 12.49, CD 14.99 and chocolate bar 0.85 give line totals 12.49, 16.49 and 0.85. The basket's taxes are 1.50 and its total is 29.83. |
| Scenarios.SecondScenario | src/test/java/receipt/ScenarioTest.java:97-119 | Imported chocolates 10.00 and imported perfume 47.50 give line totals 10.50 and 54.65. The basket's taxes are 7.65 and its total is 65.15. |
| Scenarios.ThirdScenario | src/test/java/receipt/ScenarioTest.java:121-161 | The four goods give line totals 32.19, 20.89, 9.75 and 11.85. The basket's taxes are 6.70 and its total is 74.68. |

## Left out

- Decimal parsing (`Good.java:53`, `Tax.java:17`): prices enter the model already read as whole cents (so "12.49" is 1249), and rates as whole percentages. A price with more than two decimals (for example "1.005") has no representation here, and the parse failure for a malformed string is not modelled.
- Decimal scale: the source's decimal values compare equal only with the same scale ("1.50" against "1.5"). The model compares numeric value only, and the scenarios state their results as value equalities.
- Incomplete builders: `Goods.Create` requires that price and category are set. In the source a good with no price fails when its items amount is computed. A good with no category fails in `isExempt` when basic sales tax is active. Otherwise the source prices such a good, which the model cannot build.
- The builder is a value: each setter returns a new builder, where the source changes the builder in place and returns it (`Good.java:47-65`). Aliasing between the builder and the good is not modelled.
- Quantity validation: the source accepts any `int` quantity. The model requires a positive one and has no error path for the rest.
- The unreachable `default` branch of the tax switch (`Basket.java:139-140`): the tax enumeration is closed (`Taxes.AllTaxesComplete`), so `Baskets.Applies` has no such case.
- Iterators, streams and enum-set mechanics: entries are a sequence, and `entries()` is the basket's `entries` field. The active taxes are a set, visited in declaration order (`Taxes.InOrder`). The aliasing of the caller's enum set held by the basket is left out: the tax set is an immutable value.
- Getters of `Good` and `Entry`, and the absence of mutators on `Good`: datatype fields in the model, immutable by construction.
- Repeated basket queries agree: `GetTaxesAmount` and `GetTotalCost` read the basket without changing it, and its sums are pure functions of the basket value. No separate member states this.
- Descriptions are carried by the builder and the good but enter no figure. The scenario goods are built without one.
- Taxes.RatePercent: its contract states only that each rate lies strictly between 0 and 1. The exact rates 10% and 5% are the ones `Baskets.CalculateByTaxRules` proves the entry's taxes use.
