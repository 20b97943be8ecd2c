/** The dietary badge of the recipe modal, derived from the category alone. */
module Dietary {
  import opened Recipes

  datatype Diet = Veg | NonVeg | Unknown

  /** The categories named as meat or fish. Every category that is not
      vegetarian or vegan is treated the same way, so the list is informative only. */
  const NonVegCategories: seq<string> := ["Seafood", "Chicken", "Beef", "Pork", "Lamb", "Goat", "Side"]

  /** `getDietaryType`: unknown without a category, veg for the two vegetarian
      categories, non-veg for everything else. */
  function DietaryType(recipe: Option<RecipeDetails>): (r: Diet)
    ensures r == Unknown <==>
              recipe.None? || recipe.value.strCategory.None? || recipe.value.strCategory.value == ""
    ensures r == Veg <==>
              recipe.Some? && recipe.value.strCategory in {Some("Vegetarian"), Some("Vegan")}
    ensures r == NonVeg <==>
              recipe.Some? && recipe.value.strCategory.Some?
              && recipe.value.strCategory.value !in {"", "Vegetarian", "Vegan"}
  {
    if recipe.None? || recipe.value.strCategory.None? || recipe.value.strCategory.value == "" then
      Unknown
    else
      var category := recipe.value.strCategory.value;
      if category == "Vegetarian" || category == "Vegan" then Veg
      else if category in NonVegCategories then NonVeg
      else NonVeg
  }

  /** The classification without the category list: unknown without a
      category, veg for the two vegetarian categories, non-veg otherwise. */
  function DietWithoutList(category: Option<string>): Diet {
    match category
    case None => Unknown
    case Some(c) => if c == "" then Unknown else if c in {"Vegetarian", "Vegan"} then Veg else NonVeg
  }

  /** The lookup in `NonVegCategories` never changes the answer. */
  lemma ListLookupIsRedundant(recipe: Option<RecipeDetails>)
    ensures recipe.None? ==> DietaryType(recipe) == Unknown
    ensures recipe.Some? ==> DietaryType(recipe) == DietWithoutList(recipe.value.strCategory)
  {
  }
}
