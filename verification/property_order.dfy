/**
 * The order in which Object.keys and Object.values list the own properties of
 * a plain JavaScript object (OrdinaryOwnPropertyKeys, section 10.1.11.1 of
 * ECMA-262): first every key that is an array index, in ascending numeric
 * order, then every other string key in the order it was first created.
 */
module PropertyOrder {
  import opened Drink

  /** The number a string of decimal digits denotes; None if some character is not a digit. */
  function DigitsValue(s: string): Option<nat>
  {
    if s == [] then Some(0)
    else
      var last := s[|s| - 1];
      match DigitsValue(s[..|s| - 1])
      case None => None
      case Some(v) =>
        if '0' <= last <= '9' then Some(10 * v + ((last as int) - ('0' as int))) else None
  }

  /** The largest array index, 2^32 - 2. */
  const MaxArrayIndex: nat := 0xFFFF_FFFE

  /**
   * A key is an array index when it is the canonical decimal form of an
   * integer from 0 to 2^32 - 2: digits only, no leading zero.
   */
  predicate IsArrayIndex(k: string)
  {
    && |k| > 0
    && (k[0] != '0' || |k| == 1)
    && DigitsValue(k).Some?
    && DigitsValue(k).value <= MaxArrayIndex
  }

  /** A key with a character other than a decimal digit is never an array index. */
  lemma {:induction false} NonDigitNotIndex(k: string, i: nat)
    requires i < |k| && !('0' <= k[i] <= '9')
    ensures DigitsValue(k).None?
    ensures !IsArrayIndex(k)
  {
    if i < |k| - 1 {
      NonDigitNotIndex(k[..|k| - 1], i);
    }
  }

  /** The numeric value of an array-index key (0 for other keys). */
  function IndexValue(k: string): nat
  {
    if IsArrayIndex(k) then DigitsValue(k).value else 0
  }

  predicate AllIndices(ks: seq<string>)
  {
    forall i | 0 <= i < |ks| :: IsArrayIndex(ks[i])
  }

  /** The keys are in ascending order of rank. */
  predicate SortedBy(ks: seq<string>, rank: string -> nat)
  {
    forall i, j | 0 <= i < j < |ks| :: rank(ks[i]) <= rank(ks[j])
  }

  /** The array-index keys of ks, in the order of ks. */
  function IndexKeys(ks: seq<string>): seq<string>
  {
    if ks == [] then []
    else IndexKeys(ks[..|ks| - 1]) + (if IsArrayIndex(ks[|ks| - 1]) then [ks[|ks| - 1]] else [])
  }

  /** The other keys of ks, in the order of ks. */
  function PlainKeys(ks: seq<string>): seq<string>
  {
    if ks == [] then []
    else PlainKeys(ks[..|ks| - 1]) + (if IsArrayIndex(ks[|ks| - 1]) then [] else [ks[|ks| - 1]])
  }

  /** Inserts k into a sequence ascending by rank, before the first key of larger rank. */
  function InsertBy(k: string, sorted: seq<string>, rank: string -> nat): seq<string>
  {
    if sorted == [] then [k]
    else if rank(k) <= rank(sorted[0]) then [k] + sorted
    else [sorted[0]] + InsertBy(k, sorted[1..], rank)
  }

  lemma {:induction false} InsertByElements(k: string, sorted: seq<string>, rank: string -> nat)
    ensures multiset(InsertBy(k, sorted, rank)) == multiset(sorted) + multiset{k}
    ensures forall x :: x in InsertBy(k, sorted, rank) <==> x == k || x in sorted
  {
    if sorted != [] && rank(k) > rank(sorted[0]) {
      InsertByElements(k, sorted[1..], rank);
      assert sorted == [sorted[0]] + sorted[1..];
    }
  }

  lemma {:induction false} InsertBySorted(k: string, sorted: seq<string>, rank: string -> nat)
    requires SortedBy(sorted, rank)
    ensures SortedBy(InsertBy(k, sorted, rank), rank)
  {
    if sorted != [] && rank(k) > rank(sorted[0]) {
      var tail := sorted[1..];
      var rest := InsertBy(k, tail, rank);
      InsertBySorted(k, tail, rank);
      InsertByElements(k, tail, rank);
      var r := [sorted[0]] + rest;
      forall j | 0 <= j < |rest|
        ensures rank(sorted[0]) <= rank(rest[j])
      {
        assert rest[j] in rest;
        if rest[j] != k {
          var m :| 0 <= m < |tail| && tail[m] == rest[j];
          assert sorted[m + 1] == tail[m];
        }
      }
      forall i, j | 0 <= i < j < |r|
        ensures rank(r[i]) <= rank(r[j])
      {
        assert r[j] == rest[j - 1];
        if i > 0 {
          assert r[i] == rest[i - 1];
        }
      }
    }
  }

  /** The keys ks in ascending order of rank (insertion sort, stable). */
  function SortBy(ks: seq<string>, rank: string -> nat): seq<string>
  {
    if ks == [] then [] else InsertBy(ks[|ks| - 1], SortBy(ks[..|ks| - 1], rank), rank)
  }

  lemma {:induction false} SortBySorted(ks: seq<string>, rank: string -> nat)
    ensures SortedBy(SortBy(ks, rank), rank)
    ensures multiset(SortBy(ks, rank)) == multiset(ks)
  {
    if ks != [] {
      SortBySorted(ks[..|ks| - 1], rank);
      InsertBySorted(ks[|ks| - 1], SortBy(ks[..|ks| - 1], rank), rank);
      InsertByElements(ks[|ks| - 1], SortBy(ks[..|ks| - 1], rank), rank);
      assert ks == ks[..|ks| - 1] + [ks[|ks| - 1]];
    }
  }

  /**
   * Object.keys of an object whose keys were created in the order ks:
   * array indices first and ascending, the other keys after them.
   */
  function OwnKeys(ks: seq<string>): seq<string>
  {
    SortBy(IndexKeys(ks), IndexValue) + PlainKeys(ks)
  }

  /** Object.keys lists the same keys, each as often as it was created. */
  lemma OwnKeysPermutation(ks: seq<string>)
    ensures multiset(OwnKeys(ks)) == multiset(ks)
    ensures |OwnKeys(ks)| == |ks|
    ensures forall i | 0 <= i < |OwnKeys(ks)| :: OwnKeys(ks)[i] in ks
  {
    SplitKeys(ks);
    SortBySorted(IndexKeys(ks), IndexValue);
    var r := OwnKeys(ks);
    assert multiset(r) == multiset(SortBy(IndexKeys(ks), IndexValue)) + multiset(PlainKeys(ks));
    assert |r| == |multiset(r)| == |multiset(ks)| == |ks|;
    forall i | 0 <= i < |r| ensures r[i] in ks {
      assert r[i] in multiset(r);
    }
  }

  /** In Object.keys every array index comes before every other key, and the array indices ascend. */
  lemma OwnKeysIndicesFirst(ks: seq<string>)
    ensures forall i, j | 0 <= i < j < |OwnKeys(ks)| && IsArrayIndex(OwnKeys(ks)[j]) ::
      IsArrayIndex(OwnKeys(ks)[i]) && IndexValue(OwnKeys(ks)[i]) <= IndexValue(OwnKeys(ks)[j])
  {
    SplitKeysSides(ks);
    var idx, plain := IndexKeys(ks), PlainKeys(ks);
    var sorted := SortBy(idx, IndexValue);
    SortBySorted(idx, IndexValue);
    var r := sorted + plain;
    forall i | 0 <= i < |sorted| ensures IsArrayIndex(sorted[i]) {
      assert sorted[i] in multiset(idx);
    }
    forall i, j | 0 <= i < j < |r| && IsArrayIndex(r[j])
      ensures IsArrayIndex(r[i]) && IndexValue(r[i]) <= IndexValue(r[j])
    {
      if j < |sorted| {
        assert r[i] == sorted[i] && r[j] == sorted[j];
      }
    }
  }

  /** Creating one more key extends exactly one side of the split. */
  lemma KeysStep(ks: seq<string>, k: string)
    ensures IndexKeys(ks + [k]) == IndexKeys(ks) + (if IsArrayIndex(k) then [k] else [])
    ensures PlainKeys(ks + [k]) == PlainKeys(ks) + (if IsArrayIndex(k) then [] else [k])
  {
  }

  /** Splitting keys into array indices and the rest loses and adds none. */
  lemma {:induction false} SplitKeys(ks: seq<string>)
    ensures multiset(IndexKeys(ks)) + multiset(PlainKeys(ks)) == multiset(ks)
  {
    if ks != [] {
      var front, k := ks[..|ks| - 1], ks[|ks| - 1];
      assert ks == front + [k];
      SplitKeys(front);
      KeysStep(front, k);
      assert multiset(ks) == multiset(front) + multiset{k};
    }
  }

  /** Each key lands on its side of the split. */
  lemma {:induction false} SplitKeysSides(ks: seq<string>)
    ensures AllIndices(IndexKeys(ks))
    ensures forall i | 0 <= i < |PlainKeys(ks)| :: !IsArrayIndex(PlainKeys(ks)[i])
  {
    if ks != [] {
      SplitKeysSides(ks[..|ks| - 1]);
    }
  }

  /** With no array-index key among them, Object.keys lists keys in creation order. */
  lemma {:induction false} OwnKeysInCreationOrder(ks: seq<string>)
    requires forall i | 0 <= i < |ks| :: !IsArrayIndex(ks[i])
    ensures OwnKeys(ks) == ks
  {
    PlainKeysOnly(ks);
  }

  lemma {:induction false} PlainKeysOnly(ks: seq<string>)
    requires forall i | 0 <= i < |ks| :: !IsArrayIndex(ks[i])
    ensures IndexKeys(ks) == [] && PlainKeys(ks) == ks
  {
    if ks != [] {
      var front, k := ks[..|ks| - 1], ks[|ks| - 1];
      PlainKeysOnly(front);
      assert ks == front + [k];
      assert !IsArrayIndex(k);
    }
  }

  /**
   * Creating a new key that is not an array index appends it to Object.keys
   * and leaves every earlier key where it was.
   */
  lemma {:induction false} OwnKeysAppendPlain(ks: seq<string>, k: string)
    requires !IsArrayIndex(k)
    ensures OwnKeys(ks + [k]) == OwnKeys(ks) + [k]
  {
    KeysStep(ks, k);
    assert IndexKeys(ks + [k]) == IndexKeys(ks);
  }
}
