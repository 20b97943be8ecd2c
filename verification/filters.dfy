/** The filter selection of the home page: a map from a filter dimension
    ("Category", "Cuisine", "Mood", "Time") to the option of the selected pill.
    A pill click either clears the selection or replaces it with one pair, and
    typing search text clears it, so at most one filter is ever active. */
module FilterSelection {

  type Filters = map<string, string>

  /** The pill `option` of dimension `category` is highlighted. A dimension with
      no key reads as `undefined`, which never equals an option. */
  predicate IsActive(f: Filters, category: string, option: string) {
    category in f && f[category] == option
  }

  /** The selection invariant: at most one (dimension, option) pair. */
  predicate AtMostOne(f: Filters) {
    |f| <= 1
  }

  /** No two distinct dimensions are active together. */
  predicate SingleDimension(f: Filters) {
    forall c1, c2 :: c1 in f && c2 in f ==> c1 == c2
  }

  /** The selection after clicking the pill `option` of dimension `category`:
      the active pill switches everything off, any other pill becomes the only
      selection. */
  function Toggle(f: Filters, category: string, option: string): (r: Filters)
    ensures AtMostOne(r)
    ensures IsActive(r, category, option) <==> !IsActive(f, category, option)
    ensures forall c :: c in r ==> c == category && r[c] == option
  {
    if IsActive(f, category, option) then map[] else map[category := option]
  }

  /** The selection after the search box text changes to `text`: non-empty
      text clears every filter, empty text leaves them alone. */
  function OnSearchText(f: Filters, text: string): (r: Filters)
    ensures r == map[] || r == f
    ensures text != "" ==> |r| == 0
    ensures r != f ==> text != ""
  {
    if text != "" then map[] else f
  }

  /** A user action that changes the selection. */
  datatype Action = Click(category: string, option: string) | SearchText(text: string)

  function ApplyAction(f: Filters, a: Action): Filters {
    match a
    case Click(c, l) => Toggle(f, c, l)
    case SearchText(t) => OnSearchText(f, t)
  }

  /** The selection after a whole sequence of actions, first to last. */
  function ApplyAll(f: Filters, actions: seq<Action>): Filters
    decreases |actions|
  {
    if actions == [] then f else ApplyAll(ApplyAction(f, actions[0]), actions[1..])
  }

  /** A selection of at most one pair has no two distinct dimensions, and back. */
  lemma AtMostOneIsSingleDimension(f: Filters)
    ensures AtMostOne(f) <==> SingleDimension(f)
  {
    if AtMostOne(f) {
      forall c1, c2 | c1 in f && c2 in f
        ensures c1 == c2
      {
        if c1 != c2 {
          assert {c1, c2} <= f.Keys;
          assert |{c1, c2}| == 2;
          SubsetCard({c1, c2}, f.Keys);
          assert false;
        }
      }
    } else {
      var c1 :| c1 in f;
      var rest := f.Keys - {c1};
      assert |rest| == |f.Keys| - 1;
      var c2 :| c2 in rest;
      assert c1 in f && c2 in f && c1 != c2;
    }
  }

  lemma SubsetCard<T>(a: set<T>, b: set<T>)
    requires a <= b
    ensures |a| <= |b|
  {
    assert b == a + (b - a);
  }

  /** Whatever sequence of clicks and searches happens, starting from a valid
      selection the selection stays valid. */
  lemma {:induction false} ApplyAllKeepsAtMostOne(f: Filters, actions: seq<Action>)
    requires AtMostOne(f)
    ensures AtMostOne(ApplyAll(f, actions))
    ensures SingleDimension(ApplyAll(f, actions))
    decreases |actions|
  {
    if actions == [] {
      AtMostOneIsSingleDimension(f);
    } else {
      var g := ApplyAction(f, actions[0]);
      assert AtMostOne(g);
      ApplyAllKeepsAtMostOne(g, actions[1..]);
    }
  }

  /** Clicking the same pill twice restores the selection exactly when the
      selection was empty or held just that pill. */
  lemma ToggleTwice(f: Filters, category: string, option: string)
    ensures Toggle(Toggle(f, category, option), category, option) == f
            <==> (f == map[] || f == map[category := option])
  {
  }
}
