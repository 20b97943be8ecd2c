# Quickbite recipe search: the logic of `App.tsx`, modelled in Dafny

Quickbite is a single-page React front end for a public meal API. Almost all of
`src/App.tsx` is markup, but it holds a small layer of deterministic logic, and
that layer is what this project models as pure functions over immutable datatypes:

- **Filter selection** (`FilterSelection`, `filters.dfy`). This is a map from a filter
  dimension ("Category", "Cuisine", "Mood", "Time") to a pill label. Clicking the
  active pill clears it. Clicking any other pill makes that pill the only
  selection. Typing non-empty search text clears the selection.
- **Query builder** (`QueryBuilder`, `query.dfy`). This picks one request for the
  current selection and debounced text, in this order: category filter, cuisine
  filter, search by name, default listing. It also gives the request's URL.
- **Result list** (`RecipeList`, `recipe_list.dfy`). A null `meals` list reads as
  empty, and entries named exactly "Kuurdak" are dropped. This module also holds
  the loading/error state a fetch drives and what the list section renders.
- **Home page session** (`HomePage`, `session.dfy`). This is a state machine over
  search text, debounced text, selection, list state and the unanswered
  requests. It shows when `fetchData` issues requests and how answers are
  applied.
- **Ingredient list** (`IngredientList`, `ingredients.dfy`). This is `getIngredients`:
  the scan of slots 1..20 into "measure ingredient" lines.
- **Dietary badge** (`Dietary`, `dietary.dfy`). This is `getDietaryType`.
- **Recipe modal fetch** (`RecipeDetail`, `details.dfy`). This is
  `fetchRecipeDetails`: the modal opens on a placeholder, then shows the first
  record or closes.

Shared records (`RecipeSummary`, `RecipeDetails`, `Option`) are in `recipes.dfy`.
The network is never called. Every fetch and lookup is an input outcome: a decoded
payload (whose `meals` list may be null) or a thrown error. The debounce timer is
modelled as an event, `DebounceElapsed`, and has no clock.

### Answers are applied in arrival order

`fetchData` (src/App.tsx:474-511) has no sequence number and no guard against
stale answers, so every answer is applied when it arrives and "last issued wins"
does not hold. The model follows the code.
`HomePage.AnswerIgnoresWhichRequest` proves that the list after an answer does
not depend on which request is answered. `HomePage.StaleAnswerOverwritesNewer` is a
concrete trace where the older Category request is answered last. The page then
shows its results while the Cuisine filter is selected.
`HomePage.StaleErrorHidesNewerAnswer` is a trace where an overlapped failure leaves
its error set after a newer request succeeds. In the same trace, the spinner goes
off while a request is still unanswered.

Because of how React re-renders, every pill click and every edit to non-empty text
creates a fresh selection object. Each of them therefore issues a new request,
and a keystroke's request uses the old debounced text. `HomePage.Step` models
this.

## Model

| member | source | states |
|---|---|---|
| FilterSelection.Toggle | src/App.tsx:168-177 | after a click at most one pair is active; the clicked pill is highlighted exactly when it was not before; every other dimension and label is discarded |
| FilterSelection.OnSearchText | src/App.tsx:518-522 | non-empty search text leaves no filter active; the selection either stays as it was or becomes empty, and only non-empty text changes it |
| FilterSelection.ApplyAllKeepsAtMostOne | src/App.tsx:170-177 | for every sequence of pill clicks and search edits, the selection keeps at most one pair, so no two dimensions are ever active together |
| FilterSelection.AtMostOneIsSingleDimension | src/App.tsx:171-175 | "at most one entry" and "no two distinct dimensions" are the same invariant |
| FilterSelection.ToggleTwice | src/App.tsx:168-176 | clicking the same pill twice restores the selection exactly when it was empty or held only that pill |
| QueryBuilder.Build | src/App.tsx:477-489 | a non-empty Category value wins over Cuisine, which wins over non-empty debounced text, which wins over the default listing; each request carries the value that selected it, and exactly one is produced |
| QueryBuilder.Url | src/App.tsx:482-488 | every request has a URL at least as long as the search endpoint prefix, so never an empty one |
| QueryBuilder.ParseUrlInvertsUrl | src/App.tsx:481-489 | the URL of any request the builder can produce parses back to that request |
| QueryBuilder.BuiltUrlIdentifiesQuery | src/App.tsx:477-495 | the built URL is never empty, so the `!url` early return is unreachable; two snapshots fetch the same URL exactly when they build the same request |
| QueryBuilder.SingleFilterQuery | src/App.tsx:478-489 | a single Category pill gives a category request and a single Cuisine pill a cuisine request; a Mood or Time pill falls through to the text search or default listing |
| QueryBuilder.PrefixesDiffer | src/App.tsx:482-488 | the three endpoint prefixes have the same length and are pairwise distinct |
| RecipeList.WithoutExcluded | src/App.tsx:501-503 | the filtered list is no longer than the input, and every entry in it comes from the input and is not named "Kuurdak" |
| RecipeList.ShownMeals | src/App.tsx:501-503 | a null list shows nothing; a present list shows exactly its filtered form (every other entry kept, in order, by the two lemmas below); every shown entry comes from the payload and is not named "Kuurdak" |
| RecipeList.WithoutExcludedIsSubsequence | src/App.tsx:501-503 | the filter keeps the input's order: its output is a subsequence of the input |
| RecipeList.WithoutExcludedCounts | src/App.tsx:501-503 | every entry not named exactly "Kuurdak" is kept as many times as it occurs, and every entry so named is dropped (case-sensitive) |
| RecipeList.OnlyExcludedIsEmpty | src/App.tsx:500-504 | a payload made only of "Kuurdak" entries shows an empty list |
| RecipeList.Begin | src/App.tsx:475-476 | starting a fetch turns loading on and clears the error, and keeps the shown list |
| RecipeList.Complete | src/App.tsx:497-510 | loading always ends; a failure sets the fixed message and empties the list; a payload keeps the error as it was and replaces the list with the filtered payload, so no "Kuurdak" entry is shown |
| RecipeList.Render | src/App.tsx:603-624 | the spinner shows exactly while loading; after loading, the banner shows exactly when the error is truthy (set and non-empty) and carries that error text; otherwise the grid shows exactly the non-empty list, and "no results" shows for an empty one |
| RecipeList.FetchCycle | src/App.tsx:474-511 | a fetch that no other fetch overlaps ends with loading off; an error is set exactly when the call failed; otherwise the filtered payload is shown, and an empty payload renders as "no results", not as an error |
| HomePage.Issue | src/App.tsx:474-489 | starting a fetch appends the request built from the current selection and debounced text to the unanswered ones, turns loading on, clears the error and keeps the shown list; the search text, debounced text and selection are untouched |
| HomePage.Mount | src/App.tsx:431-438 | the first render has empty search and debounced text, no filter, an empty list with loading on and no error, satisfies the page invariant, and has exactly one default-listing request out |
| HomePage.Step | src/App.tsx:445-522 | new non-empty text empties the selection and issues one request; clearing the text changes neither the selection nor the requests; the debounce copies the text and issues a request exactly when the copy changes, and is otherwise a no-op; retyping the same text or clearing it only records the text; every click applies the toggle, keeps both texts and issues one request; each new request is appended, built from the state after the event, and starts the fetch exactly as `RecipeList.Begin` does (loading on, error cleared, list kept); an answer removes exactly that request, applies the fetch completion and leaves the inputs alone; an answer to no request changes nothing |
| HomePage.StepKeepsValid | src/App.tsx:474-522 | every event keeps the page invariant: at most one filter, spinner only while a request is unanswered, only the fixed error message |
| HomePage.RunKeepsValid | src/App.tsx:474-522 | the page invariant holds after any sequence of events |
| HomePage.AnswerIgnoresWhichRequest | src/App.tsx:497-510 | the list after an answer does not depend on which unanswered request it belongs to (no ordering guard) |
| HomePage.StaleAnswerOverwritesNewer | src/App.tsx:497-515 | an older Category request answered after a newer Cuisine request determines what is shown, although Cuisine is the selected filter |
| HomePage.StaleErrorHidesNewerAnswer | src/App.tsx:505-510 | an overlapped failure turns the spinner off while a request is still unanswered, and its error survives a later success, so the banner hides the results |
| HomePage.TypingSuppressesFilters | src/App.tsx:518-522 | new non-empty text empties the selection and issues a search request with the old debounced text (or the default listing); clearing the text only updates the text |
| IngredientList.PresentSlots | src/App.tsx:293-298 | the slot list is strictly increasing, lies in the scanned range, holds only slots with a present ingredient, and holds every such slot |
| IngredientList.GetIngredients | src/App.tsx:291-301 | at most 20 lines, one per slot in 1..20 whose ingredient is non-null and non-empty, in increasing slot order; each line is the measure, one space, the ingredient |
| IngredientList.OutOfRangeSlotsIgnored | src/App.tsx:293 | what a slot outside 1..20 holds never changes the ingredient list |
| IngredientList.SlotsAgree | src/App.tsx:293-296 | two records that agree on which slots are present get the same slot list |
| Dietary.DietaryType | src/App.tsx:303-320 | "unknown" exactly when there is no record or its category is missing or empty; "veg" exactly for "Vegetarian" and "Vegan"; "non-veg" for every other category |
| Dietary.ListLookupIsRedundant | src/App.tsx:307-319 | on every input the classification equals the one that skips the lookup in the category list, so listed and unlisted categories alike are "non-veg" |
| RecipeDetail.StartLookup | src/App.tsx:453-455 | opening a recipe makes the modal visible in its loading state on the placeholder record |
| RecipeDetail.FinishLookup | src/App.tsx:456-471 | loading ends; the modal stays open exactly when the payload holds a non-empty list, and then it shows the first record |
| RecipeDetail.CloseModal | src/App.tsx:636 | closing hides the modal and leaves the loading flag alone |
| RecipeDetail.NotFoundIsQuiet | src/App.tsx:461-468 | a null list (unknown identifier) and a failed lookup both end with the modal closed and no error |
| RecipeDetail.CloseWhileLoadingReopens | src/App.tsx:453-472 | closing the modal while its lookup runs does not stop the arriving record from reopening it |

## Left out

- The debounce timer (src/App.tsx:446-451) is wall-clock scheduling. It is modelled only as the `DebounceElapsed` event, which copies the current text. The 500 ms window and timer cancellation are not modelled.
- `fetch` and `response.json()` (src/App.tsx:457-460, 498-499) are foreign I/O. Each call is an input outcome: a decoded payload or a thrown error. Malformed payloads that throw inside `.filter` count as a thrown error.
- React's scheduling is reduced to atomic steps. The model does not cover batching of state updates, StrictMode double effects, or stale closures in the `FilterPill` click handler.
- IngredientList.MeasureText: a missing measure prints as "null". The model does not tell a `null` measure from an `undefined` one, which would print "undefined".
- RecipeDetail.StartLookup: the placeholder `{}` record is a tag of its own, not a record with undefined fields. It is never rendered, because the modal shows its loading text while it is selected.
- The `console.error` call on a failed lookup (src/App.tsx:467) is logging only and is not modelled; the failure path only sets the modal state.
- Overlapping modal lookups are not modelled as an interleaving. Each completion overwrites the modal state the same way, so the last answer wins there as well.
- Icons, JSX markup, CSS, animations, the About page, the footer, page switching and the image `onError` fallback are presentation only.
