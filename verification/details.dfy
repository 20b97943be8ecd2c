/** The recipe modal's own fetch: opening it on a placeholder while the lookup
    runs, then showing the first record of the payload or closing it. Any
    failure closes the modal quietly; nothing is reported to the user. */
module RecipeDetail {
  import opened Recipes

  /** The `selectedRecipe` slot: empty (modal closed), the empty placeholder
      record that opens the modal before data arrives, or a looked-up record. */
  datatype Selection = NoSelection | Placeholder | Selected(recipe: RecipeDetails)

  datatype DetailState = DetailState(selection: Selection, isModalLoading: bool)

  /** What a lookup produced: a payload whose `meals` field may be null or
      missing, or a thrown error. */
  datatype DetailOutcome = DetailPayload(meals: Option<seq<RecipeDetails>>) | DetailFailed

  /** The page's starting state: no modal, not loading. */
  const Closed: DetailState := DetailState(NoSelection, false)

  /** The modal is rendered exactly when the selection is truthy. */
  predicate ModalVisible(s: DetailState) {
    !s.selection.NoSelection?
  }

  /** The synchronous start of a lookup: the modal opens in its loading state. */
  function StartLookup(s: DetailState): (r: DetailState)
    ensures ModalVisible(r) && r.isModalLoading
    ensures r.selection.Placeholder?
  {
    DetailState(Placeholder, true)
  }

  /** The end of a lookup. Loading ends; the modal shows the first record of a
      non-empty payload and is closed otherwise (a null list, an empty list,
      whose first element reads as `undefined`, or a failure). */
  function FinishLookup(s: DetailState, o: DetailOutcome): (r: DetailState)
    ensures !r.isModalLoading
    ensures ModalVisible(r) <==> o.DetailPayload? && o.meals.Some? && |o.meals.value| > 0
    ensures ModalVisible(r) ==> r.selection == Selected(o.meals.value[0])
  {
    match o
    case DetailFailed => DetailState(NoSelection, false)
    case DetailPayload(meals) =>
      if meals.Some? && |meals.value| > 0 then DetailState(Selected(meals.value[0]), false)
      else DetailState(NoSelection, false)
  }

  /** The modal's close button: the selection goes, the loading flag stays. */
  function CloseModal(s: DetailState): (r: DetailState)
    ensures !ModalVisible(r)
    ensures r.isModalLoading == s.isModalLoading
  {
    s.(selection := NoSelection)
  }

  /** An unknown identifier (a null `meals` list) and a failed lookup end the
      same way: back to the closed page, with no error state. */
  lemma NotFoundIsQuiet(s: DetailState)
    ensures FinishLookup(StartLookup(s), DetailPayload(None)) == Closed
    ensures FinishLookup(StartLookup(s), DetailFailed) == Closed
  {
  }

  /** Closing the modal while its lookup is still running does not stop the
      lookup from opening it again when a record arrives. */
  lemma CloseWhileLoadingReopens(s: DetailState, d: RecipeDetails, rest: seq<RecipeDetails>)
    ensures !ModalVisible(CloseModal(StartLookup(s)))
    ensures CloseModal(StartLookup(s)).isModalLoading
    ensures FinishLookup(CloseModal(StartLookup(s)), DetailPayload(Some([d] + rest)))
            == DetailState(Selected(d), false)
  {
  }
}
