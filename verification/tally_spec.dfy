/**
 * What the category tally should hold after a sequence of observations, as
 * functions of that sequence. Each observation is the strCategory field of
 * a drink handed to the tally (None for an absent drink or field).
 */
module TallySpec {
  import opened Drink

  /** The observations that count: a category that is present and non-empty. */
  predicate IsObservation(o: Option<string>)
  {
    Truthy(o)
  }

  /** How many observations in h name category c (counted from the front). */
  function Occurrences(h: seq<Option<string>>, c: string): nat
  {
    if h == [] then 0
    else (if h[0] == Some(c) then 1 else 0) + Occurrences(h[1..], c)
  }

  /** The categories h names with a non-empty string. */
  ghost predicate Seen(h: seq<Option<string>>, c: string)
  {
    c != "" && Some(c) in h
  }

  /** Line 48 of the script: the entry for c becomes its old value (0 if absent) plus one. */
  function Bumped(m: map<string, nat>, c: string): (r: map<string, nat>)
    ensures c in r && r[c] == (if c in m then m[c] else 0) + 1
    ensures forall k | k != c :: (k in r <==> k in m) && (k in m ==> r[k] == m[k])
  {
    m[c := (if c in m then m[c] else 0) + 1]
  }

  /** The counts map after the observations h, starting from the empty map. */
  function Tally(h: seq<Option<string>>): map<string, nat>
  {
    if h == [] then map[]
    else
      var o := h[|h| - 1];
      assert h == h[..|h| - 1] + [o];
      if IsObservation(o) then Bumped(Tally(h[..|h| - 1]), o.value) else Tally(h[..|h| - 1])
  }

  /** The keys of the counts map in the order they were created. */
  function FirstSeen(h: seq<Option<string>>): seq<string>
  {
    if h == [] then []
    else
      var o := h[|h| - 1];
      var f := FirstSeen(h[..|h| - 1]);
      assert h == h[..|h| - 1] + [o];
      if IsObservation(o) && o.value !in f then f + [o.value] else f
  }

  /**
   * One more observation: a counting one bumps its category and, the first
   * time, appends it to the key order; any other leaves both as they were.
   */
  lemma ObserveStep(h: seq<Option<string>>, o: Option<string>)
    ensures Tally(h + [o]) == if IsObservation(o) then Bumped(Tally(h), o.value) else Tally(h)
    ensures FirstSeen(h + [o]) ==
      if IsObservation(o) && o.value !in Tally(h) then FirstSeen(h) + [o.value] else FirstSeen(h)
    ensures forall k :: k in FirstSeen(h + [o]) <==> k in Tally(h + [o])
  {
    assert (h + [o])[..|h|] == h;
    TallyDomain(h);
    TallyDomain(h + [o]);
  }

  /**
   * The tally has an entry exactly for each category observed, every entry
   * is at least 1, and the key order lists exactly the same categories.
   */
  lemma {:induction false} TallyDomain(h: seq<Option<string>>)
    ensures forall c :: c in Tally(h) <==> Seen(h, c)
    ensures forall c | c in Tally(h) :: Tally(h)[c] >= 1
    ensures forall c :: c in FirstSeen(h) <==> Seen(h, c)
    ensures forall i | 0 <= i < |FirstSeen(h)| :: Some(FirstSeen(h)[i]) in h
  {
    if h != [] {
      var front, o := h[..|h| - 1], h[|h| - 1];
      TallyDomain(front);
      assert h == front + [o];
    }
  }

  /** Index of the first occurrence of o in h. */
  function FirstIndex(h: seq<Option<string>>, o: Option<string>): (i: nat)
    requires o in h
    ensures i < |h| && h[i] == o && o !in h[..i]
  {
    if h[0] == o then 0 else 1 + FirstIndex(h[1..], o)
  }

  predicate NoDuplicates(s: seq<string>)
  {
    forall i, j | 0 <= i < j < |s| :: s[i] != s[j]
  }

  /**
   * The count a category has after h is the number of observations naming
   * it; a category never named has no entry.
   */
  lemma {:induction false} TallyCountsOccurrences(h: seq<Option<string>>, c: string)
    requires c != ""
    ensures (if c in Tally(h) then Tally(h)[c] else 0) == Occurrences(h, c)
  {
    if h != [] {
      var front, o := h[..|h| - 1], h[|h| - 1];
      TallyCountsOccurrences(front, c);
      OccurrencesAppend(front, o, c);
      assert h == front + [o];
    }
  }

  lemma {:induction false} OccurrencesAppend(h: seq<Option<string>>, o: Option<string>, c: string)
    ensures Occurrences(h + [o], c) == Occurrences(h, c) + (if o == Some(c) then 1 else 0)
  {
    if h != [] {
      OccurrencesAppend(h[1..], o, c);
      assert (h + [o])[1..] == h[1..] + [o];
    }
  }

  /** FirstSeen(h) names each category at most once, however often h names it. */
  lemma {:induction false} FirstSeenNoDuplicates(h: seq<Option<string>>)
    ensures NoDuplicates(FirstSeen(h))
  {
    if h != [] {
      var front, o := h[..|h| - 1], h[|h| - 1];
      FirstSeenNoDuplicates(front);
      assert h == front + [o];
    }
  }

  /** A sequence without duplicates holds each of its elements once. */
  lemma {:induction false} NoDuplicatesMultiplicity(s: seq<string>, x: string)
    requires NoDuplicates(s)
    ensures multiset(s)[x] <= 1
  {
    if s != [] {
      var front := s[..|s| - 1];
      assert s == front + [s[|s| - 1]];
      NoDuplicatesMultiplicity(front, x);
      if s[|s| - 1] == x {
        assert x !in front by {
          forall i | 0 <= i < |front| ensures front[i] != x {
            assert s[i] == front[i];
          }
        }
      }
    }
  }

  /** Two positions holding the same element give it multiplicity two. */
  lemma MultiplicityOfTwo(s: seq<string>, i: nat, j: nat)
    requires i < j < |s| && s[i] == s[j]
    ensures multiset(s)[s[i]] >= 2
  {
    assert s == s[..i] + [s[i]] + s[i + 1..j] + [s[j]] + s[j + 1..];
  }

  /** Every element of f is named in h, and f lists them in the order of their first occurrence in h. */
  predicate InFirstOccurrenceOrder(h: seq<Option<string>>, f: seq<string>)
  {
    && (forall i | 0 <= i < |f| :: Some(f[i]) in h)
    && (forall i, j | 0 <= i < j < |f| :: FirstIndex(h, Some(f[i])) < FirstIndex(h, Some(f[j])))
  }

  /**
   * FirstSeen(h) lists the categories of h in the order of their first
   * occurrence in h.
   */
  lemma {:induction false} FirstSeenOrder(h: seq<Option<string>>)
    ensures InFirstOccurrenceOrder(h, FirstSeen(h))
  {
    if h != [] {
      var front, o := h[..|h| - 1], h[|h| - 1];
      FirstSeenOrder(front);
      FirstSeenOrderStep(front, o);
      assert h == front + [o];
    }
  }

  lemma FirstSeenOrderStep(front: seq<Option<string>>, o: Option<string>)
    requires InFirstOccurrenceOrder(front, FirstSeen(front))
    ensures InFirstOccurrenceOrder(front + [o], FirstSeen(front + [o]))
  {
    var h := front + [o];
    var f, g := FirstSeen(front), FirstSeen(h);
    assert h[..|front|] == front;
    var added := IsObservation(o) && o.value !in f;
    assert g == if added then f + [o.value] else f;
    forall i | 0 <= i < |f| ensures FirstIndex(h, Some(f[i])) == FirstIndex(front, Some(f[i])) {
      FirstIndexAppend(front, o, Some(f[i]));
    }
    if added {
      assert Some(o.value) !in front by {
        TallyDomain(front);
      }
      FirstIndexAbsent(front, o);
      forall i, j | 0 <= i < j < |g|
        ensures FirstIndex(h, Some(g[i])) < FirstIndex(h, Some(g[j]))
      {
        assert g[i] == f[i];
        if j < |f| {
          assert g[j] == f[j];
        }
      }
    } else {
      forall i, j | 0 <= i < j < |g|
        ensures FirstIndex(h, Some(g[i])) < FirstIndex(h, Some(g[j]))
      {
        assert g[i] == f[i] && g[j] == f[j];
      }
    }
  }

  lemma {:induction false} FirstIndexAppend(h: seq<Option<string>>, o: Option<string>, x: Option<string>)
    requires x in h
    ensures FirstIndex(h + [o], x) == FirstIndex(h, x)
  {
    if h[0] != x {
      assert (h + [o])[1..] == h[1..] + [o];
      FirstIndexAppend(h[1..], o, x);
    }
  }

  lemma FirstIndexAbsent(h: seq<Option<string>>, o: Option<string>)
    requires o !in h
    ensures FirstIndex(h + [o], o) == |h|
  {
  }
}
