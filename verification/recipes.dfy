/** The records the recipe front end receives from the remote meal API, and the
    optional wrapper that stands for JavaScript's `null` / `undefined`. */
module Recipes {

  /** A value that may be missing (`null`, `undefined` or an absent key). */
  datatype Option<+T> = None | Some(value: T)

  /** One entry of a search or filter result list. */
  datatype RecipeSummary = RecipeSummary(idMeal: string, strMeal: string, strMealThumb: string)

  /** The full record returned by a lookup by identifier. The numbered fields
      `strIngredient1..` and `strMeasure1..` are kept as maps from the slot number
      to the field's text; a slot whose field is missing or null has no key. The
      category is optional because the modal is opened on an empty placeholder
      record before the lookup completes. */
  datatype RecipeDetails = RecipeDetails(
    idMeal: string,
    strMeal: string,
    strMealThumb: string,
    strInstructions: string,
    strCategory: Option<string>,
    ingredients: map<int, string>,
    measures: map<int, string>)
}
