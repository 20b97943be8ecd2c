/** The request the result list is fetched with. The builder picks, in a fixed
    order, a category filter, a cuisine filter, a search by the debounced text,
    or the default listing (a search with an empty name). Every request turns
    into a non-empty URL, and the URL identifies the request it came from. */
module QueryBuilder {
  import opened Recipes
  import opened FilterSelection

  datatype Query =
    | ByCategory(category: string)
    | ByCuisine(area: string)
    | ByName(text: string)
    | DefaultListing

  const CategoryPrefix: string := "https://www.themealdb.com/api/json/v1/1/filter.php?c="
  const CuisinePrefix: string := "https://www.themealdb.com/api/json/v1/1/filter.php?a="
  const SearchPrefix: string := "https://www.themealdb.com/api/json/v1/1/search.php?s="

  /** The value of `activeFilters[key]`: missing when the dimension has no key. */
  function Lookup(f: Filters, key: string): Option<string> {
    if key in f then Some(f[key]) else None
  }

  /** JavaScript truthiness of a possibly missing string. */
  predicate Truthy(v: Option<string>) {
    v.Some? && v.value != ""
  }

  /** The request for the current selection and debounced search text. */
  function Build(f: Filters, debounced: string): (q: Query)
    ensures q.ByCategory? <==> Truthy(Lookup(f, "Category"))
    ensures q.ByCuisine? <==> !Truthy(Lookup(f, "Category")) && Truthy(Lookup(f, "Cuisine"))
    ensures q.ByName? <==>
              !Truthy(Lookup(f, "Category")) && !Truthy(Lookup(f, "Cuisine")) && debounced != ""
    ensures q.DefaultListing? <==>
              !Truthy(Lookup(f, "Category")) && !Truthy(Lookup(f, "Cuisine")) && debounced == ""
    ensures q.ByCategory? ==> Some(q.category) == Lookup(f, "Category")
    ensures q.ByCuisine? ==> Some(q.area) == Lookup(f, "Cuisine")
    ensures q.ByName? ==> q.text == debounced
    ensures WellFormed(q)
  {
    var category := Lookup(f, "Category");
    var cuisine := Lookup(f, "Cuisine");
    if Truthy(category) then ByCategory(category.value)
    else if Truthy(cuisine) then ByCuisine(cuisine.value)
    else if debounced != "" then ByName(debounced)
    else DefaultListing
  }

  /** Every request the builder can produce carries a non-empty parameter,
      except the default listing, which carries none. */
  predicate WellFormed(q: Query) {
    match q
    case ByCategory(c) => c != ""
    case ByCuisine(a) => a != ""
    case ByName(t) => t != ""
    case DefaultListing => true
  }

  /** The URL fetched for a request. */
  function Url(q: Query): (u: string)
    ensures |u| >= |SearchPrefix| > 0
  {
    match q
    case ByCategory(c) => CategoryPrefix + c
    case ByCuisine(a) => CuisinePrefix + a
    case ByName(t) => SearchPrefix + t
    case DefaultListing => SearchPrefix
  }

  /** Recovers the request from a URL: the inverse of `Url` on well-formed requests. */
  function ParseUrl(u: string): Option<Query> {
    var n := |SearchPrefix|;
    if |u| < n then None
    else if u[..n] == CategoryPrefix then Some(ByCategory(u[n..]))
    else if u[..n] == CuisinePrefix then Some(ByCuisine(u[n..]))
    else if u[..n] == SearchPrefix then
      (if u[n..] == "" then Some(DefaultListing) else Some(ByName(u[n..])))
    else None
  }

  /** The prefixes differ in the endpoint name ("filter" against "search") and,
      for the two filters, in the parameter letter ("c" against "a"). */
  lemma PrefixesDiffer()
    ensures |CategoryPrefix| == |CuisinePrefix| == |SearchPrefix|
    ensures CategoryPrefix != CuisinePrefix
    ensures CategoryPrefix != SearchPrefix
    ensures CuisinePrefix != SearchPrefix
  {
  }

  lemma PrefixOfConcat(p: string, s: string)
    ensures (p + s)[..|p|] == p
    ensures (p + s)[|p|..] == s
  {
  }

  /** The URL of a well-formed request parses back to that request. */
  lemma ParseUrlInvertsUrl(q: Query)
    requires WellFormed(q)
    ensures ParseUrl(Url(q)) == Some(q)
  {
    PrefixesDiffer();
    match q
    case ByCategory(c) => PrefixOfConcat(CategoryPrefix, c);
    case ByCuisine(a) => PrefixOfConcat(CuisinePrefix, a);
    case ByName(t) => PrefixOfConcat(SearchPrefix, t);
    case DefaultListing => assert SearchPrefix[..|SearchPrefix|] == SearchPrefix;
  }

  /** Distinct snapshots that produce distinct requests fetch distinct URLs, so
      the `!url` early return of the fetch is unreachable and the URL says
      which branch was taken. */
  lemma BuiltUrlIdentifiesQuery(f: Filters, debounced: string, g: Filters, other: string)
    ensures Url(Build(f, debounced)) != ""
    ensures Url(Build(f, debounced)) == Url(Build(g, other)) <==> Build(f, debounced) == Build(g, other)
  {
    var q1, q2 := Build(f, debounced), Build(g, other);
    if Url(q1) == Url(q2) {
      ParseUrlInvertsUrl(q1);
      ParseUrlInvertsUrl(q2);
    }
  }

  /** With a single active filter and no other input, the request is determined
      by that filter's dimension alone. */
  lemma SingleFilterQuery(category: string, option: string, debounced: string)
    requires option != ""
    ensures category == "Category" ==> Build(map[category := option], debounced) == ByCategory(option)
    ensures category == "Cuisine" ==> Build(map[category := option], debounced) == ByCuisine(option)
    ensures category != "Category" && category != "Cuisine" ==>
              Build(map[category := option], debounced)
              == (if debounced == "" then DefaultListing else ByName(debounced))
  {
  }
}
