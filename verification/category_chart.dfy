/**
 * The page-wide category tally and the bar chart that mirrors it: the
 * `categoryCounts` object, the `categoryChart` handle, updateCategoryCounts
 * and renderCategoryChart.
 */
module CategoryChart {
  import opened Drink
  import opened PropertyOrder
  import opened TallySpec

  /** The chart widget, reduced to the data it shows and the redraws it was asked for. */
  class Chart {
    var labels: seq<string>
    var values: seq<nat>
    var redraws: nat  // calls of update()

    constructor (labels: seq<string>, values: seq<nat>)
      ensures this.labels == labels && this.values == values && redraws == 0
    {
      this.labels := labels;
      this.values := values;
      redraws := 0;
    }

    /** Redraws the chart from its current data. */
    method Update()
      modifies this
      ensures labels == old(labels) && values == old(values)
      ensures redraws == old(redraws) + 1
    {
      redraws := redraws + 1;
    }
  }

  /** The category a drink handed to the tally carries; None for an absent drink. */
  function CategoryField(drink: Option<Drink>): Option<string>
  {
    match drink
    case None => None
    case Some(d) => d.category
  }

  /** Object.values: the value of each key, in the order of the keys given. */
  function ValuesOf(m: map<string, nat>, ks: seq<string>): (vs: seq<nat>)
    ensures |vs| == |ks|
    ensures forall i | 0 <= i < |ks| && ks[i] in m :: vs[i] == m[ks[i]]
  {
    if ks == [] then []
    else [if ks[0] in m then m[ks[0]] else 0] + ValuesOf(m, ks[1..])
  }

  /** The chart labels for keys created in the order given: Object.keys. */
  function LabelsOf(order: seq<string>): (ls: seq<string>)
    ensures |ls| == |order|
    ensures forall i | 0 <= i < |ls| :: ls[i] in order
  {
    OwnKeysPermutation(order);
    OwnKeys(order)
  }

  /**
   * One more observation whose category does not look like an array index:
   * a category seen for the first time becomes the last chart label, and the
   * labels already shown keep their positions; anything else leaves the
   * labels as they were.
   */
  lemma LabelsAfterObservation(h: seq<Option<string>>, o: Option<string>)
    requires IsObservation(o) ==> !IsArrayIndex(o.value)
    ensures LabelsOf(FirstSeen(h + [o])) ==
      if IsObservation(o) && !Seen(h, o.value) then LabelsOf(FirstSeen(h)) + [o.value]
      else LabelsOf(FirstSeen(h))
  {
    ObserveStep(h, o);
    TallyDomain(h);
    if IsObservation(o) && !Seen(h, o.value) {
      OwnKeysAppendPlain(FirstSeen(h), o.value);
    }
  }

  /**
   * When no observed category looks like an array index, the chart labels are
   * the categories in the order they were first seen.
   */
  lemma LabelsInCreationOrder(h: seq<Option<string>>)
    requires forall i | 0 <= i < |h| && IsObservation(h[i]) :: !IsArrayIndex(h[i].value)
    ensures LabelsOf(FirstSeen(h)) == FirstSeen(h)
  {
    var f := FirstSeen(h);
    TallyDomain(h);
    forall i | 0 <= i < |f| ensures !IsArrayIndex(f[i]) {
      assert f[i] in f;
      var j :| 0 <= j < |h| && h[j] == Some(f[i]);
      assert IsObservation(h[j]);
    }
    OwnKeysInCreationOrder(f);
  }

  /**
   * What the chart shows after the observations h: one bar per category
   * observed, each category once, and each bar's value the number of
   * observations naming its label.
   */
  lemma ChartMatchesTally(h: seq<Option<string>>)
    ensures var ls := LabelsOf(FirstSeen(h));
      var vs := ValuesOf(Tally(h), ls);
      && |vs| == |ls|
      && (forall c :: c in ls <==> c in Tally(h))
      && (forall i | 0 <= i < |ls| :: ls[i] in Tally(h) && vs[i] == Occurrences(h, ls[i]) >= 1)
      && NoDuplicates(ls)
  {
    var f := FirstSeen(h);
    var ls := LabelsOf(f);
    TallyDomain(h);
    FirstSeenNoDuplicates(h);
    OwnKeysPermutation(f);
    assert multiset(ls) == multiset(f);
    forall c ensures c in ls <==> c in f {
      assert c in ls <==> c in multiset(ls);
      assert c in f <==> c in multiset(f);
    }
    forall i | 0 <= i < |ls| ensures ls[i] in Tally(h) && ValuesOf(Tally(h), ls)[i] == Occurrences(h, ls[i]) {
      assert ls[i] in f;
      TallyCountsOccurrences(h, ls[i]);
    }
    forall i, j | 0 <= i < j < |ls| ensures ls[i] != ls[j] {
      if ls[i] == ls[j] {
        NoDuplicatesMultiplicity(f, ls[i]);
        assert multiset(ls)[ls[i]] >= 2 by {
          MultiplicityOfTwo(ls, i, j);
        }
        assert false;
      }
    }
  }

  /** The tally after observing c, d, an absent category and c again. */
  lemma SessionState(c: string, d: string)
    requires c != "" && d != "" && c != d
    ensures var h := [Some(c), Some(d), None, Some(c)];
      && Tally(h) == map[c := 2, d := 1]
      && FirstSeen(h) == [c, d]
  {
    var h := [Some(c), Some(d), None, Some(c)];
    ObserveStep([], Some(c));
    assert [] + [Some(c)] == h[..1];
    ObserveStep(h[..1], Some(d));
    assert h[..1] + [Some(d)] == h[..2];
    ObserveStep(h[..2], None);
    assert h[..2] + [None] == h[..3];
    ObserveStep(h[..3], Some(c));
    assert h[..3] + [Some(c)] == h;
  }

  /**
   * A session: a cocktail, an ordinary drink, a drink without category and
   * another cocktail give the bars "Cocktail" (2) and "Ordinary Drink" (1).
   */
  lemma ExampleSession()
    ensures var h := [Some("Cocktail"), Some("Ordinary Drink"), None, Some("Cocktail")];
      && LabelsOf(FirstSeen(h)) == ["Cocktail", "Ordinary Drink"]
      && ValuesOf(Tally(h), LabelsOf(FirstSeen(h))) == [2, 1]
  {
    var c, d := "Cocktail", "Ordinary Drink";
    NonDigitNotIndex(c, 0);
    NonDigitNotIndex(d, 0);
    SessionState(c, d);
    OwnKeysInCreationOrder([c, d]);
  }

  class CategoryTally {
    /** categoryCounts: category name to number of observations. */
    var counts: map<string, nat>
    /** The keys of categoryCounts in the order they were created. */
    var order: seq<string>
    /** categoryChart: null until the first chart is built. */
    var chart: Chart?
    /** Whether the page has the element with id "categoryChart". */
    const mounted: bool

    /** Every observation handed to the tally so far, ignored ones included. */
    ghost var history: seq<Option<string>>
    /** How many charts have been constructed. */
    ghost var chartsCreated: nat

    ghost predicate TallyValid()
      reads this
    {
      && counts == Tally(history)
      && order == FirstSeen(history)
      && (forall k :: k in order <==> k in counts)
    }

    /**
     * The chart exists exactly when the page has a mount point and the tally
     * is not empty; it is the only chart ever built and shows the tally.
     */
    ghost predicate Valid()
      reads this, chart
    {
      && TallyValid()
      && (chart == null <==> !mounted || order == [])
      && (chart != null ==> chart.labels == LabelsOf(order) && chart.values == ValuesOf(counts, LabelsOf(order)))
      && chartsCreated == (if chart == null then 0 else 1)
    }

    /** Object.keys(categoryCounts). */
    function Labels(): (ls: seq<string>)
      reads this
      ensures |ls| == |order|
      ensures forall i | 0 <= i < |ls| :: ls[i] in order
    {
      LabelsOf(order)
    }

    /** Object.values(categoryCounts): the count of each label, in label order. */
    function Values(): (vs: seq<nat>)
      reads this
      requires forall k | k in order :: k in counts
      ensures |vs| == |Labels()|
      ensures forall i | 0 <= i < |vs| :: vs[i] == counts[Labels()[i]]
    {
      ValuesOf(counts, LabelsOf(order))
    }

    constructor (mounted: bool)
      ensures Valid()
      ensures this.mounted == mounted
      ensures counts == map[] && order == [] && chart == null && history == []
    {
      this.mounted := mounted;
      counts := map[];
      order := [];
      chart := null;
      history := [];
      chartsCreated := 0;
    }

    /**
     * renderCategoryChart: without a mount point or with an empty tally
     * nothing happens; the first other call builds the chart; every later
     * one replaces the chart's data in place and redraws it.
     */
    method RenderCategoryChart()
      requires TallyValid()
      modifies this, chart
      ensures counts == old(counts) && order == old(order) && history == old(history)
      ensures !mounted || order == [] ==>
        chart == old(chart) && chartsCreated == old(chartsCreated) &&
        (chart != null ==> unchanged(chart))
      ensures mounted && order != [] && old(chart) == null ==>
        chart != null && fresh(chart) && chart.redraws == 0 &&
        chartsCreated == old(chartsCreated) + 1
      ensures mounted && order != [] && old(chart) != null ==>
        chart == old(chart) && chart.redraws == old(chart.redraws) + 1 &&
        chartsCreated == old(chartsCreated)
      ensures mounted && order != [] ==>
        chart != null && chart.labels == LabelsOf(order) && chart.values == ValuesOf(counts, LabelsOf(order))
    {
      if !mounted {
        return;
      }
      var labels := Labels();
      var values := Values();
      if |labels| == 0 {
        return;
      }
      if chart != null {
        chart.labels, chart.values := labels, values;
        chart.Update();
      } else {
        chart := new Chart(labels, values);
        chartsCreated := chartsCreated + 1;
      }
    }

    /**
     * Lines 46-48 of the script: an observation without a non-empty category
     * leaves the tally alone; otherwise its category's count goes up by one,
     * the key being created (at the end of the key order) at 1 if absent.
     */
    method Count(cat: Option<string>)
      requires TallyValid()
      modifies this`counts, this`order, this`history
      ensures TallyValid()
      ensures history == old(history) + [cat]
      ensures !IsObservation(cat) ==> counts == old(counts) && order == old(order)
      ensures IsObservation(cat) ==>
        && counts == Bumped(old(counts), cat.value)
        && order == (if cat.value in old(order) then old(order) else old(order) + [cat.value])
    {
      ObserveStep(history, cat);
      history := history + [cat];
      if IsObservation(cat) {
        var c := cat.value;
        if c !in counts {
          order := order + [c];
        }
        counts := Bumped(counts, c);
      }
    }

    /**
     * updateCategoryCounts: an absent drink or a drink without a non-empty
     * category changes nothing and draws nothing; otherwise its category is
     * counted and the chart is resynchronised.
     */
    method UpdateCategoryCounts(drink: Option<Drink>)
      requires Valid()
      modifies this, chart
      ensures Valid()
      ensures history == old(history) + [CategoryField(drink)]
      ensures !IsObservation(CategoryField(drink)) ==>
        counts == old(counts) && order == old(order) && chart == old(chart) &&
        chartsCreated == old(chartsCreated) && (chart != null ==> unchanged(chart))
      ensures IsObservation(CategoryField(drink)) ==>
        var c := CategoryField(drink).value;
        && counts == Bumped(old(counts), c)
        && order == (if c in old(order) then old(order) else old(order) + [c])
      ensures IsObservation(CategoryField(drink)) && !mounted ==> chart == null && chartsCreated == 0
      ensures IsObservation(CategoryField(drink)) && mounted && old(chart) == null ==>
        chart != null && fresh(chart) && chart.redraws == 0 && chartsCreated == 1
      ensures IsObservation(CategoryField(drink)) && old(chart) != null ==>
        chart == old(chart) && chart.redraws == old(chart.redraws) + 1 && chartsCreated == 1
    {
      var cat := CategoryField(drink);
      Count(cat);
      if IsObservation(cat) {
        RenderCategoryChart();
      }
    }
  }
}
