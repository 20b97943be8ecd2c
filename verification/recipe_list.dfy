/** One fetch of the result list: its post-processing (a null list reads as
    empty, and the one title with a broken image is dropped) and the loading /
    error state it drives. The network call is an input outcome. */
module RecipeList {
  import opened Recipes

  /** The display name the list never shows. */
  const Excluded: string := "Kuurdak"

  /** The message shown when a list fetch fails. */
  const FetchErrorMessage: string := "Could not fetch recipes. Please try again later."

  /** The entries of `meals` that are not named exactly `Excluded`, in order. */
  function WithoutExcluded(meals: seq<RecipeSummary>): (r: seq<RecipeSummary>)
    ensures |r| <= |meals|
    ensures forall m :: m in r ==> m in meals && m.strMeal != Excluded
  {
    if meals == [] then []
    else if meals[0].strMeal == Excluded then WithoutExcluded(meals[1..])
    else [meals[0]] + WithoutExcluded(meals[1..])
  }

  /** `(data.meals || []).filter(...)`: the list a successful fetch shows. */
  function ShownMeals(meals: Option<seq<RecipeSummary>>): (r: seq<RecipeSummary>)
    ensures meals.None? ==> r == []
    ensures meals.Some? ==> r == WithoutExcluded(meals.value)
    ensures forall m :: m in r ==> meals.Some? && m in meals.value && m.strMeal != Excluded
  {
    match meals
    case None => []
    case Some(ms) => WithoutExcluded(ms)
  }

  /** `a` is an order-preserving subsequence of `b`: `b` with some entries removed. */
  ghost predicate IsSubsequence<T>(a: seq<T>, b: seq<T>)
    decreases |b|
  {
    if b == [] then a == []
    else (a != [] && a[0] == b[0] && IsSubsequence(a[1..], b[1..])) || IsSubsequence(a, b[1..])
  }

  /** The filter keeps the order of the entries it keeps. */
  lemma {:induction false} WithoutExcludedIsSubsequence(meals: seq<RecipeSummary>)
    ensures IsSubsequence(WithoutExcluded(meals), meals)
    decreases |meals|
  {
    if meals != [] {
      WithoutExcludedIsSubsequence(meals[1..]);
      var rest := WithoutExcluded(meals[1..]);
      if meals[0].strMeal != Excluded {
        assert ([meals[0]] + rest)[1..] == rest;
      }
    }
  }

  /** Every entry not named `Excluded` is kept, as often as it occurs; every
      entry so named is dropped. Exact, case-sensitive comparison. */
  lemma {:induction false} WithoutExcludedCounts(meals: seq<RecipeSummary>, m: RecipeSummary)
    ensures multiset(WithoutExcluded(meals))[m]
            == if m.strMeal == Excluded then 0 else multiset(meals)[m]
    decreases |meals|
  {
    if meals != [] {
      WithoutExcludedCounts(meals[1..], m);
      assert meals == [meals[0]] + meals[1..];
    }
  }

  /** A payload that holds only excluded entries shows an empty list. */
  lemma {:induction false} OnlyExcludedIsEmpty(meals: seq<RecipeSummary>)
    requires forall i :: 0 <= i < |meals| ==> meals[i].strMeal == Excluded
    ensures ShownMeals(Some(meals)) == []
    decreases |meals|
  {
    if meals != [] {
      OnlyExcludedIsEmpty(meals[1..]);
    }
  }

  /** The state the list view renders from. */
  datatype ListState = ListState(recipes: seq<RecipeSummary>, isLoading: bool, error: Option<string>)

  /** The state before the first fetch: nothing shown, loading, no error. */
  const Initial: ListState := ListState([], true, None)

  /** What a fetch produced: a decoded payload whose `meals` field may be null or
      missing, or a thrown error (transport failure or undecodable body). */
  datatype Outcome = Payload(meals: Option<seq<RecipeSummary>>) | Failed

  /** The synchronous start of a fetch: loading on, error cleared, the list kept. */
  function Begin(s: ListState): (r: ListState)
    ensures r.isLoading && r.error.None?
    ensures r.recipes == s.recipes
  {
    s.(isLoading := true, error := None)
  }

  /** The end of a fetch. Loading always ends; a payload replaces the list and
      leaves the error alone; a failure sets the message and empties the list. */
  function Complete(s: ListState, o: Outcome): (r: ListState)
    ensures !r.isLoading
    ensures o.Failed? ==> r.error == Some(FetchErrorMessage) && r.recipes == []
    ensures o.Payload? ==> r.error == s.error
    ensures o.Payload? ==> r.recipes == ShownMeals(o.meals)
    ensures o.Payload? ==> forall m :: m in r.recipes ==> m.strMeal != Excluded
  {
    match o
    case Payload(meals) => s.(recipes := ShownMeals(meals), isLoading := false)
    case Failed => s.(recipes := [], isLoading := false, error := Some(FetchErrorMessage))
  }

  /** What the list section shows for a state. */
  datatype View = Spinner | ErrorBanner(message: string) | Grid(cards: seq<RecipeSummary>) | NoResults

  /** An error is shown when it is truthy: set and not the empty string. */
  predicate HasError(s: ListState) {
    s.error.Some? && s.error.value != ""
  }

  function Render(s: ListState): (v: View)
    ensures v.Spinner? <==> s.isLoading
    ensures v.ErrorBanner? <==> !s.isLoading && HasError(s)
    ensures v.ErrorBanner? ==> Some(v.message) == s.error
    ensures v.Grid? <==> !s.isLoading && !HasError(s) && s.recipes != []
    ensures v.Grid? ==> v.cards == s.recipes
    ensures v.NoResults? <==> !s.isLoading && !HasError(s) && s.recipes == []
  {
    if s.isLoading then Spinner
    else if HasError(s) then ErrorBanner(s.error.value)
    else if |s.recipes| > 0 then Grid(s.recipes)
    else NoResults
  }

  /** A fetch that is not overlapped by another one: it ends with loading off,
      shows the error exactly when the call failed, and otherwise shows the
      filtered payload, an empty one rendered as "no results" and not as an error. */
  lemma FetchCycle(s: ListState, o: Outcome)
    ensures !Complete(Begin(s), o).isLoading
    ensures Complete(Begin(s), o).error.Some? <==> o.Failed?
    ensures o.Failed? ==> Render(Complete(Begin(s), o)) == ErrorBanner(FetchErrorMessage)
    ensures o.Payload? ==> Complete(Begin(s), o).recipes == ShownMeals(o.meals)
    ensures o.Payload? && ShownMeals(o.meals) == [] ==> Render(Complete(Begin(s), o)) == NoResults
    ensures o.Payload? && ShownMeals(o.meals) != [] ==> Render(Complete(Begin(s), o)) == Grid(ShownMeals(o.meals))
  {
  }
}
