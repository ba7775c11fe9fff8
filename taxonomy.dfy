/**
 * The fixed two-level taxonomy of the bot: four categories, each with an
 * ordered list of four subcategories (bot.py, the four *_SUBCATEGORIES
 * constants, and the four category buttons of CategoryView).
 */
module Taxonomy {

  datatype Category = Transport | Food | Essentials | Shopping

  /** The category buttons of the first prompt, in the order they are declared. */
  const Categories: seq<Category> := [Transport, Food, Essentials, Shopping]

  const FoodSubcategories: seq<string> := ["Breakfast", "Lunch", "Dinner", "Snacks"]
  const TransportSubcategories: seq<string> := ["Cab", "Auto", "Bike", "Others"]
  const ShoppingSubcategories: seq<string> := ["Apparel", "Gadgets", "Gifts", "Others"]
  const EssentialsSubcategories: seq<string> := ["Household", "Groceries", "Utilities", "Others"]

  /** The button label of a category, which is also the value stored as `category`. */
  function Name(c: Category): string
  {
    match c
    case Transport => "Transport"
    case Food => "Food"
    case Essentials => "Essentials"
    case Shopping => "Shopping"
  }

  /** The subcategory list a category button hands to the next prompt. */
  function Subcategories(c: Category): (r: seq<string>)
    ensures |r| == 4
    ensures forall i, j :: 0 <= i < j < |r| ==> r[i] != r[j]
    ensures r[3] == "Others" <==> c != Food
    ensures c == Food ==> r[3] == "Snacks"
  {
    match c
    case Transport => TransportSubcategories
    case Food => FoodSubcategories
    case Essentials => EssentialsSubcategories
    case Shopping => ShoppingSubcategories
  }

  /** The labels of the four category buttons, in button order. */
  function CategoryLabels(): (r: seq<string>)
    ensures r == ["Transport", "Food", "Essentials", "Shopping"]
    ensures |r| == |Categories| && forall i :: 0 <= i < |r| ==> r[i] == Name(Categories[i])
  {
    seq(|Categories|, i requires 0 <= i < |Categories| => Name(Categories[i]))
  }

  /** Different categories are stored under different names, so `category` identifies the button pressed. */
  lemma NameInjective(a: Category, b: Category)
    ensures Name(a) == Name(b) <==> a == b
  {
  }

  /** Every category has a button, and each has exactly one. */
  lemma CategoriesComplete(c: Category)
    ensures c in Categories
    ensures forall i, j :: 0 <= i < j < |Categories| ==> Categories[i] != Categories[j]
  {
  }
}
