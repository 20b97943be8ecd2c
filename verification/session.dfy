/** The home page as one state machine: the search box text, its debounced
    copy, the filter selection, the list state, and the list requests that have
    been issued and not yet answered. A new request is issued whenever the
    debounced text or the selection object changes, and every answer is applied
    when it arrives, in whatever order the answers come back. */
module HomePage {
  import opened Recipes
  import opened FilterSelection
  import opened QueryBuilder
  import opened RecipeList

  datatype Page = Page(
    searchQuery: string,
    debounced: string,
    filters: Filters,
    list: ListState,
    inFlight: seq<Query>)

  /** What can happen to the page. `DebounceElapsed` is the quiet period after
      the last edit running out; `Answered(i, o)` is the `i`-th unanswered
      request (in issue order) coming back with outcome `o`. */
  datatype Event =
    | Typed(text: string)
    | DebounceElapsed
    | PillClicked(category: string, option: string)
    | Answered(index: nat, outcome: Outcome)

  /** The invariant the page keeps. */
  predicate Valid(p: Page) {
    && AtMostOne(p.filters)
    && (p.list.isLoading ==> p.inFlight != [])
    && (p.list.error.Some? ==> p.list.error == Some(FetchErrorMessage))
  }

  /** Starts a list fetch for the page's current selection and debounced text. */
  function Issue(p: Page): (r: Page)
    ensures r.inFlight == p.inFlight + [Build(p.filters, p.debounced)]
    ensures r.list.isLoading && r.list.error.None? && r.list.recipes == p.list.recipes
    ensures r.searchQuery == p.searchQuery && r.debounced == p.debounced && r.filters == p.filters
  {
    p.(list := Begin(p.list), inFlight := p.inFlight + [Build(p.filters, p.debounced)])
  }

  /** The page after the first render: empty inputs and one default request out. */
  function Mount(): (p: Page)
    ensures Valid(p)
    ensures p.searchQuery == "" && p.debounced == "" && p.filters == map[]
    ensures p.list == ListState([], true, None)
    ensures p.inFlight == [DefaultListing]
  {
    Issue(Page("", "", map[], Initial, []))
  }

  /** The page after one event.
      - Editing the text to something non-empty replaces the selection with a
        fresh empty object, which re-creates the fetch and so issues a request
        with the (not yet updated) debounced text; clearing the text changes
        nothing else.
      - The debounce copies the text over and issues a request, unless the
        copy is unchanged (the state update is then skipped).
      - A pill click always produces a fresh selection object and issues a request.
      - An answer is applied whichever request it belongs to. */
  function Step(p: Page, e: Event): (r: Page)
    ensures e.Typed? && e.text != "" && e.text != p.searchQuery ==> r.filters == map[]
    ensures e.Typed? && e.text == "" ==> r.filters == p.filters && r.inFlight == p.inFlight
    ensures e.Typed? ==> r.searchQuery == e.text && r.debounced == p.debounced
    ensures e.Typed? && (e.text == "" || e.text == p.searchQuery) ==> r == p.(searchQuery := e.text)
    ensures e.Typed? && e.text != "" && e.text != p.searchQuery ==> |r.inFlight| == |p.inFlight| + 1
    ensures e.DebounceElapsed? ==>
              && r.searchQuery == p.searchQuery && r.debounced == p.searchQuery && r.filters == p.filters
              && (|r.inFlight| == |p.inFlight| + 1 <==> p.debounced != p.searchQuery)
              && (p.debounced == p.searchQuery ==> r == p)
    ensures e.PillClicked? ==> r.filters == Toggle(p.filters, e.category, e.option)
    ensures e.PillClicked? ==> |r.inFlight| == |p.inFlight| + 1
    ensures e.PillClicked? ==> r.searchQuery == p.searchQuery && r.debounced == p.debounced
    ensures |r.inFlight| == |p.inFlight| + 1 ==> r.list == Begin(p.list)
    ensures |r.inFlight| == |p.inFlight| + 1 ==> r.inFlight[..|p.inFlight|] == p.inFlight
    ensures |r.inFlight| == |p.inFlight| + 1 ==>
              r.inFlight[|p.inFlight|] == Build(r.filters, r.debounced) && r.list.isLoading
    ensures e.Answered? && e.index < |p.inFlight| ==>
              && r.inFlight == p.inFlight[..e.index] + p.inFlight[e.index + 1..]
              && r.list == Complete(p.list, e.outcome)
    ensures e.Answered? ==> r.searchQuery == p.searchQuery && r.debounced == p.debounced && r.filters == p.filters
    ensures e.Answered? && e.index >= |p.inFlight| ==> r == p
  {
    match e
    case Typed(t) =>
      if t == p.searchQuery then p
      else if t != "" then Issue(p.(searchQuery := t, filters := OnSearchText(p.filters, t)))
      else p.(searchQuery := t)
    case DebounceElapsed =>
      if p.debounced == p.searchQuery then p else Issue(p.(debounced := p.searchQuery))
    case PillClicked(c, o) =>
      Issue(p.(filters := Toggle(p.filters, c, o)))
    case Answered(i, o) =>
      if i < |p.inFlight| then
        p.(list := Complete(p.list, o), inFlight := p.inFlight[..i] + p.inFlight[i + 1..])
      else p
  }

  /** The page after a sequence of events, first to last. */
  function Run(p: Page, events: seq<Event>): Page
    decreases |events|
  {
    if events == [] then p else Run(Step(p, events[0]), events[1..])
  }

  lemma StepKeepsValid(p: Page, e: Event)
    requires Valid(p)
    ensures Valid(Step(p, e))
  {
  }

  /** Whatever happens after the first render, at most one filter is active, the
      spinner is only on while some request is unanswered, and the only error
      ever shown is the fixed fetch message. */
  lemma {:induction false} RunKeepsValid(p: Page, events: seq<Event>)
    requires Valid(p)
    ensures Valid(Run(p, events))
    decreases |events|
  {
    if events != [] {
      StepKeepsValid(p, events[0]);
      RunKeepsValid(Step(p, events[0]), events[1..]);
    }
  }

  /** Answers are applied without an ordering guard: what the list shows after
      an answer depends only on that answer, not on which request it belongs
      to, so an older request answered last overwrites a newer one. */
  lemma AnswerIgnoresWhichRequest(p: Page, i: nat, j: nat, o: Outcome)
    requires i < |p.inFlight| && j < |p.inFlight|
    ensures Step(p, Answered(i, o)).list == Step(p, Answered(j, o)).list
  {
  }

  /** A concrete case: a Category pill then a Cuisine pill are clicked; the
      Cuisine request is answered first and the Category request last. The
      page ends up showing the Category answer although the Cuisine filter is
      the one selected. */
  lemma StaleAnswerOverwritesNewer(older: RecipeSummary, newer: RecipeSummary)
    requires older.strMeal != Excluded && newer.strMeal != Excluded
    ensures
      var p1 := Step(Mount(), Answered(0, Payload(None)));
      var p2 := Step(p1, PillClicked("Category", "Dessert"));
      var p3 := Step(p2, PillClicked("Cuisine", "Italian"));
      var p4 := Step(p3, Answered(1, Payload(Some([newer]))));
      var p5 := Step(p4, Answered(0, Payload(Some([older]))));
      && p3.inFlight == [ByCategory("Dessert"), ByCuisine("Italian")]
      && p5.filters == map["Cuisine" := "Italian"]
      && p5.inFlight == []
      && Render(p5.list) == Grid([older])
  {
    var p1 := Step(Mount(), Answered(0, Payload(None)));
    var p2 := Step(p1, PillClicked("Category", "Dessert"));
    assert p2.filters == map["Category" := "Dessert"];
    var p3 := Step(p2, PillClicked("Cuisine", "Italian"));
    assert p3.filters == map["Cuisine" := "Italian"];
    assert ShownMeals(Some([older])) == [older];
  }

  /** A concrete case: two requests overlap, the older one fails and the newer
      one succeeds afterwards. The list holds the newer answer but the error of
      the older one is still set, so the page shows the error banner; and the
      spinner went off while the newer request was still unanswered. */
  lemma StaleErrorHidesNewerAnswer(m: RecipeSummary)
    requires m.strMeal != Excluded
    ensures
      var p1 := Step(Mount(), PillClicked("Category", "Dessert"));
      var p2 := Step(p1, Answered(0, Failed));
      var p3 := Step(p2, Answered(0, Payload(Some([m]))));
      && !p2.list.isLoading && |p2.inFlight| == 1
      && p3.list.recipes == [m]
      && Render(p3.list) == ErrorBanner(FetchErrorMessage)
  {
    assert ShownMeals(Some([m])) == [m];
  }

  /** Typing new non-empty text clears the selection, and the request that the
      keystroke issues is a search (by the old debounced text, or the default
      listing), never a filter request. Clearing the text keeps the selection
      and issues nothing. */
  lemma TypingSuppressesFilters(p: Page, t: string)
    requires t != p.searchQuery
    ensures t != "" ==> Step(p, Typed(t)).filters == map[]
    ensures t != "" ==> |Step(p, Typed(t)).inFlight| == |p.inFlight| + 1
    ensures t != "" ==> Step(p, Typed(t)).inFlight[|p.inFlight|]
                        == (if p.debounced == "" then DefaultListing else ByName(p.debounced))
    ensures t == "" ==> Step(p, Typed(t)) == p.(searchQuery := t)
  {
  }
}
