/**
 * The search result list of the cocktails page (renderCocktailList): the
 * drinks shown for a search, narrowed by the alcoholic/non-alcoholic
 * selector.
 */
module CocktailList {
  import opened Drink

  /** d.strAlcoholic === typeFilter: a null field matches no filter value. */
  predicate IsOfType(d: Drink, typeFilter: string)
  {
    d.alcoholic == Some(typeFilter)
  }

  /** drinks.filter(d => d.strAlcoholic === typeFilter). */
  function KeepType(drinks: seq<Drink>, typeFilter: string): (r: seq<Drink>)
    ensures |r| <= |drinks|
    ensures forall d :: d in r <==> d in drinks && IsOfType(d, typeFilter)
  {
    if drinks == [] then []
    else
      var front, d := drinks[..|drinks| - 1], drinks[|drinks| - 1];
      assert drinks == front + [d];
      KeepType(front, typeFilter) + (if IsOfType(d, typeFilter) then [d] else [])
  }

  /** The list to show: an empty selector value (falsy in JavaScript) keeps every drink. */
  function Filtered(drinks: seq<Drink>, typeFilter: string): (r: seq<Drink>)
    ensures typeFilter == "" ==> r == drinks
    ensures typeFilter != "" ==> forall d :: d in r <==> d in drinks && IsOfType(d, typeFilter)
  {
    if typeFilter == "" then drinks else KeepType(drinks, typeFilter)
  }

  /** What the list element ends up holding. */
  datatype ListView =
    | NoResults               // the "no results with those filters" placeholder
    | Items(shown: seq<Drink>)  // one item per drink, in this order

  /** renderCocktailList: the placeholder exactly when nothing passes the filter. */
  function RenderCocktailList(drinks: seq<Drink>, typeFilter: string): (v: ListView)
    ensures v.NoResults? <==> Filtered(drinks, typeFilter) == []
    ensures v.Items? ==> v.shown != [] && v.shown == Filtered(drinks, typeFilter)
  {
    var filtered := Filtered(drinks, typeFilter);
    if filtered == [] then NoResults else Items(filtered)
  }

  /**
   * The filter keeps order: filtering a concatenation concatenates the
   * filtered parts, and a single drink is kept exactly when it matches.
   * Together these say the result is the matching drinks in their original
   * order.
   */
  lemma {:induction false} KeepTypeAppend(a: seq<Drink>, b: seq<Drink>, typeFilter: string)
    ensures KeepType(a + b, typeFilter) == KeepType(a, typeFilter) + KeepType(b, typeFilter)
  {
    if b != [] {
      var front, d := b[..|b| - 1], b[|b| - 1];
      KeepTypeAppend(a, front, typeFilter);
      assert a + b == (a + front) + [d];
      assert (a + b)[..|a + b| - 1] == a + front;
      assert (a + b)[|a + b| - 1] == d;
      calc {
        KeepType(a + b, typeFilter);
        KeepType(a + front, typeFilter) + (if IsOfType(d, typeFilter) then [d] else []);
        KeepType(a, typeFilter) + KeepType(front, typeFilter) + (if IsOfType(d, typeFilter) then [d] else []);
        KeepType(a, typeFilter) + KeepType(b, typeFilter);
      }
    } else {
      assert a + b == a;
    }
  }

  lemma KeepTypeSingle(d: Drink, typeFilter: string)
    ensures KeepType([d], typeFilter) == if IsOfType(d, typeFilter) then [d] else []
  {
  }

  /** When every drink matches, the filter keeps the list as it is. */
  lemma {:induction false} KeepTypeAllMatch(drinks: seq<Drink>, typeFilter: string)
    requires forall i | 0 <= i < |drinks| :: IsOfType(drinks[i], typeFilter)
    ensures KeepType(drinks, typeFilter) == drinks
  {
    if drinks != [] {
      var front, d := drinks[..|drinks| - 1], drinks[|drinks| - 1];
      KeepTypeAllMatch(front, typeFilter);
      assert drinks == front + [d];
    }
  }

  /** Choosing the same type again on the filtered list changes nothing. */
  lemma FilteredIdempotent(drinks: seq<Drink>, typeFilter: string)
    ensures Filtered(Filtered(drinks, typeFilter), typeFilter) == Filtered(drinks, typeFilter)
  {
    if typeFilter != "" {
      var r := KeepType(drinks, typeFilter);
      forall i | 0 <= i < |r| ensures IsOfType(r[i], typeFilter) {
        assert r[i] in r;
      }
      KeepTypeAllMatch(r, typeFilter);
    }
  }
}
