/** The ingredient list of the recipe modal: slots 1 to 20 are scanned in order
    and every slot with a present ingredient gives one "measure ingredient" line. */
module IngredientList {
  import opened Recipes

  /** The number of ingredient slots a recipe record has. */
  const SlotCount: int := 20

  /** The ingredient of slot `i` is present: not null and not the empty string. */
  predicate Present(d: RecipeDetails, i: int) {
    i in d.ingredients && d.ingredients[i] != ""
  }

  /** The text a measure interpolates to; a missing measure prints as "null". */
  function MeasureText(d: RecipeDetails, i: int): string {
    if i in d.measures then d.measures[i] else "null"
  }

  /** The slots in `1 .. hi-1` whose ingredient is present, in increasing order. */
  function PresentSlots(d: RecipeDetails, hi: int): (slots: seq<int>)
    ensures forall k :: 0 <= k < |slots| ==> 1 <= slots[k] < hi && Present(d, slots[k])
    ensures forall j, k :: 0 <= j < k < |slots| ==> slots[j] < slots[k]
    ensures forall i :: 1 <= i < hi && Present(d, i) ==> i in slots
    ensures |slots| <= if hi < 1 then 0 else hi - 1
    decreases hi
  {
    if hi <= 1 then []
    else PresentSlots(d, hi - 1) + (if Present(d, hi - 1) then [hi - 1] else [])
  }

  /** The line for a slot: its measure, one space, its ingredient. */
  function Line(d: RecipeDetails, i: int): string
    requires Present(d, i)
  {
    MeasureText(d, i) + " " + d.ingredients[i]
  }

  /** `getIngredients`: one line per present slot among 1..20, in slot order. */
  method GetIngredients(d: RecipeDetails) returns (lines: seq<string>)
    ensures |lines| <= SlotCount
    ensures |lines| == |PresentSlots(d, SlotCount + 1)|
    ensures forall k :: 0 <= k < |lines| ==>
              var i := PresentSlots(d, SlotCount + 1)[k];
              1 <= i <= SlotCount && Present(d, i) && lines[k] == Line(d, i)
  {
    lines := [];
    var i := 1;
    while i <= SlotCount
      invariant 1 <= i <= SlotCount + 1
      invariant |lines| == |PresentSlots(d, i)|
      invariant forall k :: 0 <= k < |lines| ==> lines[k] == Line(d, PresentSlots(d, i)[k])
    {
      if Present(d, i) {
        lines := lines + [Line(d, i)];
      }
      i := i + 1;
    }
  }

  /** Slots outside 1..20 never contribute, whatever they hold. */
  lemma OutOfRangeSlotsIgnored(d: RecipeDetails, i: int, text: string)
    requires i < 1 || i > SlotCount
    ensures PresentSlots(d.(ingredients := d.ingredients[i := text]), SlotCount + 1)
            == PresentSlots(d, SlotCount + 1)
  {
    SlotsAgree(d, d.(ingredients := d.ingredients[i := text]), SlotCount + 1);
  }

  /** Two records whose slots below `hi` agree on presence have the same slot list. */
  lemma {:induction false} SlotsAgree(d: RecipeDetails, e: RecipeDetails, hi: int)
    requires forall i :: 1 <= i < hi ==> (Present(d, i) <==> Present(e, i))
    ensures PresentSlots(d, hi) == PresentSlots(e, hi)
    decreases hi
  {
    if hi > 1 {
      SlotsAgree(d, e, hi - 1);
    }
  }
}
