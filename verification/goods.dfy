/**
  Purchasable goods and the builder that assembles them.

  A good is an immutable value: a unit price in cents, a category and an
  imported flag (plus a description that plays no part in any figure).
  The builder starts with every field unset and the imported flag false;
  each setter fills one field, and `Create` copies the fields into a good.
 */
module Goods {
  import opened Categories

  datatype Option<T> = None | Some(value: T)

  datatype Good = Good(description: Option<string>, unitPrice: int, category: Category, imported: bool)

  datatype GoodBuilder = GoodBuilder(
    description: Option<string>,
    unitPrice: Option<int>,
    category: Option<Category>,
    imported: bool)

  /** A fresh builder: nothing set, not imported. */
  function NewBuilder(): (b: GoodBuilder)
    ensures b.description.None? && b.unitPrice.None? && b.category.None?
    ensures !b.imported
  {
    GoodBuilder(None, None, None, false)
  }

  /** Sets the description and nothing else. */
  function SetDescription(b: GoodBuilder, description: string): (r: GoodBuilder)
    ensures r.description == Some(description)
    ensures r.unitPrice == b.unitPrice && r.category == b.category && r.imported == b.imported
  {
    b.(description := Some(description))
  }

  /** Sets the unit price, already read as a whole number of cents, and nothing else. */
  function SetUnitPrice(b: GoodBuilder, cents: int): (r: GoodBuilder)
    ensures r.unitPrice == Some(cents)
    ensures r.description == b.description && r.category == b.category && r.imported == b.imported
  {
    b.(unitPrice := Some(cents))
  }

  /** Sets the category and nothing else. */
  function SetCategory(b: GoodBuilder, category: Category): (r: GoodBuilder)
    ensures r.category == Some(category)
    ensures r.description == b.description && r.unitPrice == b.unitPrice && r.imported == b.imported
  {
    b.(category := Some(category))
  }

  /** Sets the imported flag and nothing else. */
  function SetImported(b: GoodBuilder, imported: bool): (r: GoodBuilder)
    ensures r.imported == imported
    ensures r.description == b.description && r.unitPrice == b.unitPrice && r.category == b.category
  {
    b.(imported := imported)
  }

  /** True when the fields a good's figures depend on have been set. */
  predicate Complete(b: GoodBuilder) {
    b.unitPrice.Some? && b.category.Some?
  }

  /** Builds the good holding exactly the builder's fields. */
  function Create(b: GoodBuilder): (g: Good)
    requires Complete(b)
    ensures Some(g.unitPrice) == b.unitPrice
    ensures Some(g.category) == b.category
    ensures g.imported == b.imported
    ensures g.description == b.description
  {
    Good(b.description, b.unitPrice.value, b.category.value, b.imported)
  }

  /** The good is exempt exactly when its category is one of the exempt ones. */
  function IsExempt(g: Good): (exempt: bool)
    ensures exempt <==> g.category in {Books, Food, Medical}
  {
    Categories.IsExempt(g.category)
  }

  /** A good built from a fresh builder by setting price and category (and
      description) carries those values and is not imported: the imported
      flag defaults to false. */
  lemma BuildDefaultsToDomestic(description: string, cents: int, category: Category)
    ensures var g := Create(SetCategory(SetUnitPrice(SetDescription(NewBuilder(), description), cents), category));
            g.unitPrice == cents && g.category == category && !g.imported
            && g.description == Some(description)
  {
  }

  /** Setters on different fields commute, so any order of setter calls
      leaves the builder, and the good it creates, the same. */
  lemma SettersCommute(b: GoodBuilder, description: string, cents: int, category: Category, imported: bool)
    ensures SetDescription(SetUnitPrice(b, cents), description) == SetUnitPrice(SetDescription(b, description), cents)
    ensures SetDescription(SetCategory(b, category), description) == SetCategory(SetDescription(b, description), category)
    ensures SetDescription(SetImported(b, imported), description) == SetImported(SetDescription(b, description), imported)
    ensures SetUnitPrice(SetCategory(b, category), cents) == SetCategory(SetUnitPrice(b, cents), category)
    ensures SetUnitPrice(SetImported(b, imported), cents) == SetImported(SetUnitPrice(b, cents), imported)
    ensures SetCategory(SetImported(b, imported), category) == SetImported(SetCategory(b, category), imported)
  {
  }

  /** Setting all four fields on a fresh builder builds the good with exactly
      those fields; the usual order and the reverse order agree. */
  lemma BuildRoundTrip(description: string, cents: int, category: Category, imported: bool)
    ensures Create(SetImported(SetCategory(SetUnitPrice(SetDescription(NewBuilder(), description), cents), category), imported))
         == Good(Some(description), cents, category, imported)
    ensures Create(SetImported(SetCategory(SetUnitPrice(SetDescription(NewBuilder(), description), cents), category), imported))
         == Create(SetDescription(SetUnitPrice(SetCategory(SetImported(NewBuilder(), imported), category), cents), description))
  {
  }
}
