/**
 * The ingredient list of the detail view (renderCocktailDetail): one line
 * per filled ingredient slot, slots 1 to 15 in ascending order.
 */
module CocktailDetail {
  import opened Drink

  /** `${measure ? measure + " " : ""}${ing}`. */
  function IngredientLine(ing: string, measure: Option<string>): string
  {
    if Truthy(measure) then measure.value + " " + ing else ing
  }

  /** Slot i (1-based) holds an ingredient when strIngredient<i> is truthy. */
  predicate Filled(d: Drink, slot: int)
  {
    1 <= slot <= SlotCount && Truthy(d.ingredients[slot - 1])
  }

  /** The line slot i contributes. */
  function SlotLine(d: Drink, slot: int): string
    requires Filled(d, slot)
  {
    IngredientLine(d.ingredients[slot - 1].value, d.measures[slot - 1])
  }

  /** The filled slots among 1..n, in ascending order. */
  function FilledSlots(d: Drink, n: nat): (r: seq<nat>)
    requires n <= SlotCount
    ensures |r| <= n
    ensures forall k | 0 <= k < |r| :: 1 <= r[k] <= n && Filled(d, r[k])
    ensures forall j | 1 <= j <= n :: Filled(d, j) <==> j in r
    ensures forall k, l | 0 <= k < l < |r| :: r[k] < r[l]
  {
    if n == 0 then []
    else FilledSlots(d, n - 1) + (if Filled(d, n) then [n] else [])
  }

  /** The lines of the given filled slots, in their order. */
  function LinesOf(d: Drink, slots: seq<nat>): (lines: seq<string>)
    requires forall k | 0 <= k < |slots| :: Filled(d, slots[k])
  {
    seq(|slots|, k requires 0 <= k < |slots| => SlotLine(d, slots[k]))
  }

  /**
   * The loop of renderCocktailDetail: it visits slots 1..15 and keeps a line
   * for each slot with a non-empty ingredient, the measure and a space in
   * front when the measure is non-empty.
   */
  method IngredientLines(d: Drink) returns (lines: seq<string>)
    ensures lines == LinesOf(d, FilledSlots(d, SlotCount))
    ensures |lines| <= SlotCount
  {
    lines := [];
    for i := 1 to SlotCount + 1
      invariant lines == LinesOf(d, FilledSlots(d, i - 1))
    {
      var ing := d.ingredients[i - 1];
      var measure := d.measures[i - 1];
      if Truthy(ing) {
        lines := lines + [IngredientLine(ing.value, measure)];
      }
    }
  }

  /**
   * The ingredient list has one line per filled slot; line k comes from the
   * k-th filled slot and ends with that slot's ingredient.
   */
  lemma IngredientLinesShape(d: Drink, k: nat)
    requires k < |FilledSlots(d, SlotCount)|
    ensures var slot := FilledSlots(d, SlotCount)[k];
      var ing := d.ingredients[slot - 1].value;
      var line := LinesOf(d, FilledSlots(d, SlotCount))[k];
      && |ing| <= |line|
      && line[|line| - |ing|..] == ing
      && (Truthy(d.measures[slot - 1]) ==> line == d.measures[slot - 1].value + " " + ing)
      && (!Truthy(d.measures[slot - 1]) ==> line == ing)
  {
  }

  /**
   * With every ingredient slot empty, no slot among the first n is filled and
   * the ingredient list is empty; for n = 15 this is what IngredientLines
   * returns.
   */
  lemma NoIngredientsNoLines(d: Drink, n: nat)
    requires n <= SlotCount
    requires forall j | 0 <= j < SlotCount :: !Truthy(d.ingredients[j])
    ensures FilledSlots(d, n) == []
    ensures LinesOf(d, FilledSlots(d, n)) == []
  {
    assert forall j | 1 <= j <= n :: !Filled(d, j);
  }
}
