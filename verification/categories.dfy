/**
  Goods categories. The set is closed and each category carries a fixed
  exemption flag: exempt goods do not pay the basic sales tax.
 */
module Categories {

  datatype Category = Books | Food | Medical | Others

  /** The categories, listed once each. */
  function AllCategories(): (all: set<Category>)
    ensures |all| == 4
  {
    {Books, Food, Medical, Others}
  }

  /** The list of categories is complete: the enumeration is closed. */
  lemma AllCategoriesComplete()
    ensures forall c: Category :: c in AllCategories()
  {
    forall c: Category ensures c in AllCategories() {
      match c
      case Books =>
      case Food =>
      case Medical =>
      case Others =>
    }
  }

  /** The exemption flag fixed for each category. */
  function IsExempt(c: Category): (exempt: bool)
    ensures exempt <==> c != Others
  {
    match c
    case Books => true
    case Food => true
    case Medical => true
    case Others => false
  }

  /** The exempt categories: books, food and medical products. Every
      category but one is exempt. */
  function ExemptCategories(): (exempt: set<Category>)
    ensures forall c: Category :: c in exempt <==> IsExempt(c)
    ensures exempt == AllCategories() - {Others}
  {
    {Books, Food, Medical}
  }
}
