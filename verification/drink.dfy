/** The drink records of the recipe API, as far as the page's logic reads them. */
module Drink {

  /** A field that may be null or undefined in the JSON record. */
  datatype Option<+T> = None | Some(value: T)

  /** JavaScript truthiness of an optional string field: null, undefined and "" are falsy. */
  predicate Truthy(v: Option<string>)
  {
    v.Some? && v.value != ""
  }

  /** The record has the fixed fields strIngredient1..15 and strMeasure1..15. */
  const SlotCount: nat := 15

  /** Slot i (1-based) of a record is element i - 1; an absent field is None. */
  type Slots = s: seq<Option<string>> | |s| == SlotCount
    witness seq(15, _ => None)

  datatype Drink = Drink(
    id: string,                 // idDrink
    name: string,               // strDrink
    category: Option<string>,   // strCategory
    alcoholic: Option<string>,  // strAlcoholic
    ingredients: Slots,         // strIngredient1..strIngredient15
    measures: Slots             // strMeasure1..strMeasure15
  )
}
