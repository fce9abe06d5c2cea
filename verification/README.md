# Cocktail browser front-end: verified model of its core logic

This project is a Dafny model of the client-side logic of a small cocktail recipe site. The site is a browser front-end over TheCocktailDB's public JSON API, and its logic lives in `js/script.js`. Four pieces are modelled.

- **The category tally.** Each drink the index page shows is handed to `updateCategoryCounts`.
  - A drink that is absent, or that has an absent or empty `strCategory`, is ignored.
  - Otherwise the count for its category goes up by one, and a category seen for the first time starts at 1.
  - The tally is a plain JavaScript object (`categoryCounts`).
- **The chart that mirrors the tally.** `renderCategoryChart` draws the tally as a bar chart.
  - The labels are `Object.keys(categoryCounts)` and the values are `Object.values(categoryCounts)`.
  - It does nothing when the page has no `categoryChart` element or when the tally is empty.
  - The first other call builds the chart. Every later call replaces the chart's data in place and asks it to redraw.
- **The result filter of the search page.** `renderCocktailList` keeps the drinks whose `strAlcoholic` equals the selected type, in their original order. An empty selection keeps every drink. When nothing is left it shows the "no results with those filters" placeholder ("No se han encontrado resultados con esos filtros.") instead of any items.
- **The ingredient list of the detail view.** `renderCocktailDetail` walks ingredient slots 1 to 15 in ascending order.
  - Each slot with a non-empty `strIngredient<i>` contributes one line.
  - The line is `"<measure> <ingredient>"` when `strMeasure<i>` is non-empty, and the ingredient alone otherwise.

Modules:

- `Drink` (`drink.dfy`): the drink record. It has optional string fields, two 15-slot sequences for ingredients and measures, and JavaScript truthiness for optional strings.
- `PropertyOrder` (`property_order.dfy`): the order in which `Object.keys`/`Object.values` list an object's own properties. This is OrdinaryOwnPropertyKeys, section 10.1.11.1 of ECMA-262:
  - keys that are array indices come first, in ascending numeric order;
  - the other keys follow, in creation order.

  The model implements this rule exactly, instead of assuming that category names are never numeric.
- `TallySpec` (`tally_spec.dfy`): what the tally holds after a sequence of observations, given as functions of that sequence. `Tally` gives the counts and `FirstSeen` gives the key creation order. Lemmas state counting and first-occurrence order.
- `CategoryChart` (`category_chart.dfy`): the page state as a class.
  - `CategoryTally` holds `counts` (`categoryCounts`), the key creation order, and the `chart` handle (`categoryChart`, null until built).
  - The class also records whether the mount point exists.
  - Its methods are `UpdateCategoryCounts` and `RenderCategoryChart`.
  - `Chart` stands for the chart widget. It is reduced to its data (labels, values) and a count of `update()` calls.
  - A ghost history of observations ties the state to `TallySpec`. A ghost count of charts built shows that at most one chart ever exists.
- `CocktailList` (`cocktail_list.dfy`): the type filter and the placeholder decision.
- `CocktailDetail` (`cocktail_detail.dfy`): the ingredient loop, as a method with a `for` loop proved against a specification function.

## Model

| member | source | states |
|---|---|---|
| CategoryChart.CategoryTally.UpdateCategoryCounts | js/script.js:45-50 | An absent drink, or one with an absent or empty category, changes no count, no key order and no chart. Otherwise the category's count becomes its old count (0 if absent) plus 1, all other entries unchanged, and a new category is appended to the key order. Without a mount point the counts still change but no chart is built. The first counted drink on a mounted page builds exactly one chart, and later ones redraw that same chart. The page invariant (tally equals the spec of the history; chart present iff mounted and non-empty, showing the tally) is preserved. |
| CategoryChart.CategoryTally.Count | js/script.js:46-48 | The counting part of the update: ignored observations change nothing; a counted one bumps its category and creates the key at the end of the creation order the first time; the tally stays equal to `Tally`/`FirstSeen` of the history. |
| CategoryChart.CategoryTally.RenderCategoryChart | js/script.js:52-116 | Without a mount point or with an empty tally the chart handle and the chart are unchanged. The first other call creates a fresh chart (0 redraws). A later call keeps the same chart and gives it one more redraw. Either way the chart then shows `Object.keys` of the tally and the matching `Object.values`. The tally itself is untouched. |
| CategoryChart.CategoryTally.constructor | js/script.js:27-28 | Page start: empty tally, no chart, invariant established. |
| CategoryChart.CategoryTally.Labels | js/script.js:56 | The labels `RenderCategoryChart` draws: as many as the keys, and each label is a key of the tally. |
| CategoryChart.CategoryTally.Values | js/script.js:57 | There are as many values as labels, and value i is the count of label i. |
| CategoryChart.Chart.constructor | js/script.js:110-114 | A new chart holds the given labels and values and has not been redrawn. |
| CategoryChart.Chart.Update | js/script.js:108 | `update()` keeps the chart's data and records one redraw. |
| CategoryChart.LabelsOf | js/script.js:56 | `Object.keys` of the tally lists as many labels as keys were created, each one a created key. |
| CategoryChart.ValuesOf | js/script.js:57 | `Object.values` has one value per label, and each value is that label's count. |
| CategoryChart.ChartMatchesTally | js/script.js:56-57 | After any sequence of observations, the chart has one bar per observed category and each category appears once. Labels and values have equal length. Each bar's value is the number of observations naming its label, and it is at least 1. |
| CategoryChart.LabelsAfterObservation | js/script.js:48 | When a category does not look like an array index, seeing it for the first time appends it as the last label and every existing label keeps its position. Any other observation leaves the labels as they were. |
| CategoryChart.LabelsInCreationOrder | js/script.js:56 | If no observed category looks like an array index, the labels are the categories in order of first appearance. |
| CategoryChart.SessionState | js/script.js:45-50 | Observing c, d, an absent category and c again gives counts {c: 2, d: 1} with keys created in the order c, d. |
| CategoryChart.ExampleSession | js/script.js:56-57 | For "Cocktail", "Ordinary Drink", a missing category and "Cocktail", the chart shows the labels ["Cocktail", "Ordinary Drink"] with the values [2, 1]. |
| TallySpec.Bumped | js/script.js:48 | `categoryCounts[cat] = (categoryCounts[cat] \|\| 0) + 1` sets cat to its old count (0 if absent) plus 1, and no other key or count changes. |
| TallySpec.ObserveStep | js/script.js:46-48 | One more observation: a counted one bumps the tally and, the first time, appends its category to the key order. An ignored one leaves both unchanged. The key order and the tally's keys stay the same set. |
| TallySpec.TallyDomain | js/script.js:46-48 | The tally has an entry exactly for each non-empty category observed, and every entry is at least 1. The key order lists exactly those categories. |
| TallySpec.TallyCountsOccurrences | js/script.js:46-48 | The count for a category equals the number of observations naming it, and a category never named has no entry. |
| TallySpec.FirstSeenNoDuplicates | js/script.js:48 | A key is created once: the key order has no duplicates. |
| TallySpec.FirstSeenOrder | js/script.js:48 | The key order lists the categories in the order they first appear among the observations. |
| PropertyOrder.OwnKeysPermutation | js/script.js:56 | `Object.keys` is a permutation of the keys created. |
| PropertyOrder.OwnKeysIndicesFirst | js/script.js:56 | In `Object.keys`, every array-index key comes before every other key, and the array-index keys ascend numerically. |
| PropertyOrder.OwnKeysInCreationOrder | js/script.js:56 | With no array-index key, `Object.keys` is the creation order. |
| PropertyOrder.OwnKeysAppendPlain | js/script.js:56 | Creating a key that is not an array index appends it to `Object.keys` and moves no other key. |
| PropertyOrder.NonDigitNotIndex | js/script.js:56 | A key with a non-digit character is not an array index, so names like "Cocktail" keep creation order. |
| PropertyOrder.SortBySorted | js/script.js:56 | The array-index keys are put in ascending order without losing or adding any. |
| CocktailList.KeepType | js/script.js:159 | `drinks.filter(d => d.strAlcoholic === typeFilter)` keeps exactly the drinks of that type and is never longer than the input. |
| CocktailList.KeepTypeAppend | js/script.js:159 | The filter preserves order: filtering a concatenation concatenates the filtered parts. |
| CocktailList.KeepTypeSingle | js/script.js:159 | A single drink is kept exactly when its `strAlcoholic` equals the filter. |
| CocktailList.KeepTypeAllMatch | js/script.js:159 | When every drink is of the type, the filter returns the list unchanged. |
| CocktailList.Filtered | js/script.js:158-160 | An empty selection keeps every drink. Any other keeps exactly the drinks whose `strAlcoholic` equals it. |
| CocktailList.FilteredIdempotent | js/script.js:158-160 | Applying the same selection to the filtered list changes nothing. |
| CocktailList.RenderCocktailList | js/script.js:158-165 | The placeholder is shown exactly when no drink passes the filter. Otherwise the items shown are the filtered drinks in order, and there is at least one. |
| CocktailDetail.FilledSlots | js/script.js:187-190 | The slots visited that have a non-empty ingredient, strictly ascending within 1..n, each filled slot listed and no other. |
| CocktailDetail.IngredientLines | js/script.js:186-193 | The loop yields one line per filled slot, in slot order, and at most 15 lines. |
| CocktailDetail.IngredientLinesShape | js/script.js:191 | Line k comes from the k-th filled slot and ends with its ingredient. It is "measure ingredient" when the measure is non-empty and the ingredient alone otherwise. |
| CocktailDetail.NoIngredientsNoLines | js/script.js:186-193 | A drink with every ingredient slot empty has no filled slots and no ingredient lines; for all 15 slots that is the empty list `IngredientLines` returns. |

## Left out

- The HTTP calls `fetchRandomCocktail`, `searchCocktailsByName` and `fetchCocktailById` (js/script.js:30-34, 140-150) are network I/O. Their results are parameters: an optional drink for the tally, a sequence of drinks for the list.
- Async ordering is not modelled: stale or interleaved fetch responses. Each resolved fetch is one sequential `UpdateCategoryCounts` call.
- DOM wiring is not modelled: `isOnPage`, the hamburger menu, the page initialisers and the event listeners (js/script.js:2-21, 118-137, 213-267).
- CategoryChart.CategoryTally.UpdateCategoryCounts: the lookup of the `categoryChart` element happens on every call in the script. Here it is the constant `mounted`, fixed when the page state is built, so an element added or removed later is not modelled.
- `innerHTML`/`textContent` templating is not modelled: the markup of list items, of the detail view and of the featured card. The list is modelled as the sequence of drinks shown, and the detail as its ingredient lines.
- `renderCocktailList` returns early when the `cocktailList` element is missing, and `renderCocktailDetail` does the same when `cocktailDetail` is missing or the drink is null. These guards are not modelled: the list is modelled for a present element, and the detail for a present drink.
- CocktailList.Filtered: the selection comes from a `<select>` value (js/script.js:232, 245), which is always a string, so the empty string is its only falsy value. A `null` or `undefined` filter is not modelled.
- The Chart.js options and styling are not modelled: colours, border widths, fonts, the dataset label (js/script.js:61-103). Neither is the `options` field that the update path also overwrites. The chart is reduced to its labels, its values and its redraw count.
- The "popularity" chart (js/script.js:271-336) is not modelled, because its values come from `Math.random()` and its data from the network.
- CategoryChart.CategoryTally.UpdateCategoryCounts: category names that are properties of `Object.prototype` are treated as ordinary keys. For `"constructor"`, `categoryCounts[cat] || 0` picks up the inherited function and the result is a string, not a count. For `"__proto__"`, `categoryCounts[cat] || 0` reads the inherited `Object.prototype`, `+ 1` turns it into the string `"[object Object]1"`, and the inherited `__proto__` setter ignores that non-object value: the script neither creates a key nor changes the prototype, so the category is never counted or charted.
- TallySpec.Bumped: counts are unbounded naturals. JavaScript numbers stop counting exactly at 2^53, which no page session reaches.
