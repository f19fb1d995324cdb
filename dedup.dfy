/**
 * The two de-duplications of the services, as specification functions.
 *
 * `KeepFirst` is `ProcessService.__deduplicate_processes__`
 * (services/process_service.py, lines 134-142): the first record of each
 * hashable projection is kept, in input order.
 *
 * `DictValues` is `list({frozenset(i.items()): i for i in result}.values())`
 * (services/movement_service.py, line 53): a dict keyed on each record's
 * items keeps its keys in order of first insertion, but a later record with
 * the same key overwrites the value, so each slot holds the LAST record of
 * its key.
 *
 * Two records "have the same key" when their hashable projections are equal,
 * which is Python's `==` on the decoded JSON values.
 */
module Dedup {
  import opened JsonValue
  import opened Sequences

  function KeyOf(x: Json): Key
  {
    MakeHashable(x)
  }

  /** The keys of the records of `xs`. */
  function KeysOf(xs: seq<Json>): (ks: set<Key>)
    ensures forall i :: 0 <= i < |xs| ==> KeyOf(xs[i]) in ks
    ensures forall k :: k in ks ==> exists i :: 0 <= i < |xs| && KeyOf(xs[i]) == k
    decreases |xs|
  {
    if xs == [] then {}
    else
      var init := xs[..|xs| - 1];
      assert forall i :: 0 <= i < |init| ==> xs[i] == init[i];
      KeysOf(init) + {KeyOf(xs[|xs| - 1])}
  }

  /** `a` and `b` have the same keys in the same order. */
  predicate SameKeys(a: seq<Json>, b: seq<Json>)
  {
    |a| == |b| && forall i :: 0 <= i < |a| ==> KeyOf(a[i]) == KeyOf(b[i])
  }

  /** No two records of `xs` have the same key (so no two are equal). */
  predicate DistinctKeys(xs: seq<Json>)
  {
    forall i, j :: 0 <= i < j < |xs| ==> KeyOf(xs[i]) != KeyOf(xs[j])
  }

  // ---------------------------------------------------------------------------
  // Keep the first record of each key

  function KeepFirst(xs: seq<Json>): seq<Json>
    decreases |xs|
  {
    if xs == [] then []
    else
      var init := xs[..|xs| - 1];
      var x := xs[|xs| - 1];
      if KeyOf(x) in KeysOf(init) then KeepFirst(init) else KeepFirst(init) + [x]
  }

  /** `xs[i]` is the first record of its key. */
  predicate IsFirst(xs: seq<Json>, i: int)
    requires 0 <= i < |xs|
  {
    forall j :: 0 <= j < i ==> KeyOf(xs[j]) != KeyOf(xs[i])
  }

  predicate Increasing(idx: seq<int>)
  {
    forall a, b :: 0 <= a < b < |idx| ==> idx[a] < idx[b]
  }

  /**
   * `r` is the subsequence of `xs` made of the first record of each key, in
   * their order in `xs`: `idx` lists where each record of `r` comes from.
   */
  predicate FirstOccurrencesAt(xs: seq<Json>, r: seq<Json>, idx: seq<int>)
  {
    |idx| == |r| && Increasing(idx) &&
    (forall k :: 0 <= k < |r| ==> 0 <= idx[k] < |xs| && r[k] == xs[idx[k]] && IsFirst(xs, idx[k])) &&
    (forall i :: 0 <= i < |xs| && IsFirst(xs, i) ==> i in idx)
  }

  ghost predicate FirstOccurrences(xs: seq<Json>, r: seq<Json>)
  {
    exists idx :: FirstOccurrencesAt(xs, r, idx)
  }

  /** Where the records of `KeepFirst(xs)` come from. */
  function FirstIndices(xs: seq<Json>): (idx: seq<int>)
    ensures |idx| == |KeepFirst(xs)|
    ensures forall k :: 0 <= k < |idx| ==> 0 <= idx[k] < |xs|
    decreases |xs|
  {
    if xs == [] then []
    else
      var init := xs[..|xs| - 1];
      if KeyOf(xs[|xs| - 1]) in KeysOf(init) then FirstIndices(init) else FirstIndices(init) + [|xs| - 1]
  }

  /** A record's being first of its key depends only on what precedes it. */
  lemma IsFirstPrefix(xs: seq<Json>, i: int)
    requires 0 <= i < |xs| - 1
    ensures IsFirst(xs, i) <==> IsFirst(xs[..|xs| - 1], i)
  {
    assert forall j :: 0 <= j <= i ==> xs[j] == xs[..|xs| - 1][j];
  }

  /** A last record whose key occurred before adds nothing to the first occurrences. */
  lemma FirstOccurrencesSkip(xs: seq<Json>, r: seq<Json>, idx: seq<int>)
    requires xs != [] && FirstOccurrencesAt(xs[..|xs| - 1], r, idx)
    requires !IsFirst(xs, |xs| - 1)
    ensures FirstOccurrencesAt(xs, r, idx)
  {
    var init := xs[..|xs| - 1];
    forall k | 0 <= k < |r|
      ensures 0 <= idx[k] < |xs| && r[k] == xs[idx[k]] && IsFirst(xs, idx[k])
    {
      IsFirstPrefix(xs, idx[k]);
    }
    forall i | 0 <= i < |xs| && IsFirst(xs, i)
      ensures i in idx
    {
      IsFirstPrefix(xs, i);
    }
  }

  /** A last record with a new key is a first occurrence, appended at the end. */
  lemma FirstOccurrencesExtend(xs: seq<Json>, r: seq<Json>, idx: seq<int>)
    requires xs != [] && FirstOccurrencesAt(xs[..|xs| - 1], r, idx)
    requires IsFirst(xs, |xs| - 1)
    ensures FirstOccurrencesAt(xs, r + [xs[|xs| - 1]], idx + [|xs| - 1])
  {
    var n := |xs| - 1;
    var r', idx' := r + [xs[n]], idx + [n];
    forall k | 0 <= k < |r'|
      ensures 0 <= idx'[k] < |xs| && r'[k] == xs[idx'[k]] && IsFirst(xs, idx'[k])
    {
      if k < |r| {
        IsFirstPrefix(xs, idx[k]);
      }
    }
    forall i | 0 <= i < |xs| && IsFirst(xs, i)
      ensures i in idx'
    {
      if i < n {
        IsFirstPrefix(xs, i);
        assert i in idx;
      }
    }
    assert Increasing(idx');
  }

  /**
   * De-duplication keeps exactly the first record of each key, in input
   * order, and nothing else.
   */
  lemma {:induction false} KeepFirstIsFirstOccurrences(xs: seq<Json>)
    ensures FirstOccurrencesAt(xs, KeepFirst(xs), FirstIndices(xs))
    ensures FirstOccurrences(xs, KeepFirst(xs))
    decreases |xs|
  {
    if xs != [] {
      var init := xs[..|xs| - 1];
      var n := |xs| - 1;
      KeepFirstIsFirstOccurrences(init);
      if KeyOf(xs[n]) in KeysOf(init) {
        var j :| 0 <= j < n && KeyOf(init[j]) == KeyOf(xs[n]);
        assert xs[j] == init[j];
        assert !IsFirst(xs, n);
        FirstOccurrencesSkip(xs, KeepFirst(init), FirstIndices(init));
      } else {
        assert IsFirst(xs, n) by {
          forall j | 0 <= j < n ensures KeyOf(xs[j]) != KeyOf(xs[n]) {
            assert xs[j] == init[j];
          }
        }
        FirstOccurrencesExtend(xs, KeepFirst(init), FirstIndices(init));
      }
    }
    assert FirstOccurrencesAt(xs, KeepFirst(xs), FirstIndices(xs));
  }

  /** Every input record has a kept record with the same key: nothing is lost. */
  lemma {:induction false} KeepFirstKeys(xs: seq<Json>)
    ensures KeysOf(KeepFirst(xs)) == KeysOf(xs)
    decreases |xs|
  {
    if xs != [] {
      var init := xs[..|xs| - 1];
      KeepFirstKeys(init);
    }
  }

  /** No two kept records have the same key, so no two are equal. */
  lemma {:induction false} KeepFirstDistinct(xs: seq<Json>)
    ensures DistinctKeys(KeepFirst(xs))
    decreases |xs|
  {
    if xs != [] {
      var init := xs[..|xs| - 1];
      KeepFirstDistinct(init);
      KeepFirstKeys(init);
    }
  }

  /** Records whose keys are already distinct are all kept, in order. */
  lemma {:induction false} KeepFirstOfDistinct(xs: seq<Json>)
    requires DistinctKeys(xs)
    ensures KeepFirst(xs) == xs
    decreases |xs|
  {
    if xs != [] {
      var init := xs[..|xs| - 1];
      DistinctPrefix(xs);
      KeepFirstOfDistinct(init);
      LastKeyNew(xs);
      SplitLast(xs);
    }
  }

  lemma DistinctPrefix(xs: seq<Json>)
    requires xs != [] && DistinctKeys(xs)
    ensures DistinctKeys(xs[..|xs| - 1])
  {
    var init := xs[..|xs| - 1];
    forall i, j | 0 <= i < j < |init| ensures KeyOf(init[i]) != KeyOf(init[j]) {
      assert init[i] == xs[i] && init[j] == xs[j];
    }
  }

  lemma LastKeyNew(xs: seq<Json>)
    requires xs != [] && DistinctKeys(xs)
    ensures KeyOf(xs[|xs| - 1]) !in KeysOf(xs[..|xs| - 1])
  {
    var init := xs[..|xs| - 1];
    forall i | 0 <= i < |init| ensures KeyOf(init[i]) != KeyOf(xs[|xs| - 1]) {
      assert init[i] == xs[i];
    }
  }

  /** De-duplicating twice is de-duplicating once. */
  lemma KeepFirstIdempotent(xs: seq<Json>)
    ensures KeepFirst(KeepFirst(xs)) == KeepFirst(xs)
  {
    KeepFirstDistinct(xs);
    KeepFirstOfDistinct(KeepFirst(xs));
  }

  // ---------------------------------------------------------------------------
  // Rebuild through a dict keyed on the record's items

  /** Where a record with key `k` sits in `entries`, or -1. */
  function SlotOf(entries: seq<Json>, k: Key): (i: int)
    ensures -1 <= i < |entries|
    ensures i >= 0 ==> KeyOf(entries[i]) == k
    ensures i == -1 <==> forall j :: 0 <= j < |entries| ==> KeyOf(entries[j]) != k
    ensures i >= 0 ==> forall j :: 0 <= j < i ==> KeyOf(entries[j]) != k
    decreases |entries|
  {
    if entries == [] then -1
    else if KeyOf(entries[0]) == k then 0
    else
      var tail := entries[1..];
      var i := SlotOf(tail, k);
      assert forall j :: 1 <= j < |entries| ==> entries[j] == tail[j - 1];
      if i == -1 then -1 else i + 1
  }

  /** `d[key(x)] = x` on the values of a dict kept in insertion order. */
  function Upsert(entries: seq<Json>, x: Json): seq<Json>
  {
    var i := SlotOf(entries, KeyOf(x));
    if i == -1 then entries + [x] else entries[i := x]
  }

  function DictValues(xs: seq<Json>): seq<Json>
    decreases |xs|
  {
    if xs == [] then [] else Upsert(DictValues(xs[..|xs| - 1]), xs[|xs| - 1])
  }

  /** `xs[i]` is the last record of its key. */
  predicate IsLast(xs: seq<Json>, i: int)
    requires 0 <= i < |xs|
  {
    forall j :: i < j < |xs| ==> KeyOf(xs[j]) != KeyOf(xs[i])
  }

  /** Two lists with the same keys in the same order have the same key set. */
  lemma KeysOfBySameKeys(a: seq<Json>, b: seq<Json>)
    requires SameKeys(a, b)
    ensures KeysOf(a) == KeysOf(b)
  {
  }

  /** Distinctness is a property of the key sequence. */
  lemma DistinctBySameKeys(a: seq<Json>, b: seq<Json>)
    requires SameKeys(a, b) && DistinctKeys(b)
    ensures DistinctKeys(a)
  {
  }

  /** An upsert with a key already present keeps the keys and their order. */
  lemma UpsertPresent(e: seq<Json>, f: seq<Json>, x: Json)
    requires SameKeys(e, f) && KeyOf(x) in KeysOf(e)
    ensures SameKeys(Upsert(e, x), f)
  {
  }

  /** An upsert with a new key appends it. */
  lemma UpsertAbsent(e: seq<Json>, f: seq<Json>, x: Json)
    requires SameKeys(e, f) && KeyOf(x) !in KeysOf(e)
    ensures SameKeys(Upsert(e, x), f + [x])
  {
    assert Upsert(e, x) == e + [x];
  }

  /** The rebuilt list has the keys of `KeepFirst`, in the same order. */
  lemma {:induction false} DictValuesKeys(xs: seq<Json>)
    ensures SameKeys(DictValues(xs), KeepFirst(xs))
    decreases |xs|
  {
    if xs != [] {
      var init := xs[..|xs| - 1];
      var x := xs[|xs| - 1];
      var e, f := DictValues(init), KeepFirst(init);
      assert DictValues(xs) == Upsert(e, x);
      DictValuesKeys(init);
      KeysOfBySameKeys(e, f);
      KeepFirstKeys(init);
      if KeyOf(x) in KeysOf(init) {
        assert KeepFirst(xs) == f;
        UpsertPresent(e, f, x);
      } else {
        assert KeepFirst(xs) == f + [x];
        UpsertAbsent(e, f, x);
      }
    }
  }

  /** The rebuilt list holds one record per key. */
  lemma DictValuesDistinct(xs: seq<Json>)
    ensures DistinctKeys(DictValues(xs))
  {
    DictValuesKeys(xs);
    KeepFirstDistinct(xs);
    DistinctBySameKeys(DictValues(xs), KeepFirst(xs));
  }

  /**
   * Each record of `r` is the last record of its key in `xs`: `idx` lists
   * where each one comes from.
   */
  predicate LastOccurrencesAt(xs: seq<Json>, r: seq<Json>, idx: seq<int>)
  {
    |idx| == |r| &&
    forall k :: 0 <= k < |r| ==> 0 <= idx[k] < |xs| && r[k] == xs[idx[k]] && IsLast(xs, idx[k])
  }

  /** Where the records of `DictValues(xs)` come from. */
  function LastIndices(xs: seq<Json>): (idx: seq<int>)
    ensures |idx| == |DictValues(xs)|
    decreases |xs|
  {
    if xs == [] then []
    else
      var init := xs[..|xs| - 1];
      var slot := SlotOf(DictValues(init), KeyOf(xs[|xs| - 1]));
      var idx := LastIndices(init);
      if slot == -1 then idx + [|xs| - 1] else idx[slot := |xs| - 1]
  }

  /** A record that is last of its key before `x` stays last unless `x` shares its key. */
  lemma IsLastExtend(xs: seq<Json>, i: int)
    requires 0 <= i < |xs| - 1 && IsLast(xs[..|xs| - 1], i)
    requires KeyOf(xs[i]) != KeyOf(xs[|xs| - 1])
    ensures IsLast(xs, i)
  {
    assert forall j :: i <= j < |xs| - 1 ==> xs[j] == xs[..|xs| - 1][j];
  }

  /** One upsert keeps every slot holding the last record of its key. */
  lemma LastOccurrencesUpsert(xs: seq<Json>, e: seq<Json>, idx: seq<int>)
    requires xs != [] && LastOccurrencesAt(xs[..|xs| - 1], e, idx) && DistinctKeys(e)
    ensures var x, n := xs[|xs| - 1], |xs| - 1;
      var slot := SlotOf(e, KeyOf(x));
      LastOccurrencesAt(xs, Upsert(e, x), if slot == -1 then idx + [n] else idx[slot := n])
  {
    var x, n := xs[|xs| - 1], |xs| - 1;
    var init := xs[..n];
    var slot := SlotOf(e, KeyOf(x));
    var r := Upsert(e, x);
    var idx' := if slot == -1 then idx + [n] else idx[slot := n];
    forall k | 0 <= k < |r|
      ensures 0 <= idx'[k] < |xs| && r[k] == xs[idx'[k]] && IsLast(xs, idx'[k])
    {
      if k == slot || k == |e| {
        assert idx'[k] == n && r[k] == x;
      } else {
        assert r[k] == e[k] && idx'[k] == idx[k];
        assert KeyOf(e[k]) != KeyOf(x);
        assert xs[idx[k]] == init[idx[k]];
        IsLastExtend(xs, idx[k]);
      }
    }
  }

  /** Each slot of the rebuilt list holds the last record of its key. */
  lemma {:induction false} DictValuesLast(xs: seq<Json>)
    ensures LastOccurrencesAt(xs, DictValues(xs), LastIndices(xs))
    decreases |xs|
  {
    if xs != [] {
      var init := xs[..|xs| - 1];
      DictValuesLast(init);
      DictValuesDistinct(init);
      LastOccurrencesUpsert(xs, DictValues(init), LastIndices(init));
    }
  }

  /**
   * The rebuilt list has one record per key, its keys in the order in which
   * they first occur (the keys of `KeepFirst`), and each slot holds the last
   * record of its key.
   */
  lemma DictValuesSpec(xs: seq<Json>)
    ensures SameKeys(DictValues(xs), KeepFirst(xs))
    ensures DistinctKeys(DictValues(xs))
    ensures LastOccurrencesAt(xs, DictValues(xs), LastIndices(xs))
  {
    DictValuesKeys(xs);
    DictValuesDistinct(xs);
    DictValuesLast(xs);
  }

  /** Records of `xs` with the same key are the same record. */
  predicate KeyDetermines(xs: seq<Json>)
  {
    forall i, j :: 0 <= i < |xs| && 0 <= j < |xs| && KeyOf(xs[i]) == KeyOf(xs[j]) ==> xs[i] == xs[j]
  }

  lemma KeyDeterminesPrefix(xs: seq<Json>)
    requires xs != [] && KeyDetermines(xs)
    ensures KeyDetermines(xs[..|xs| - 1])
  {
    assert forall i :: 0 <= i < |xs| - 1 ==> xs[..|xs| - 1][i] == xs[i];
  }

  /**
   * When records with the same key are equal (as for records without
   * booleans, see `MakeHashableInjective`), keeping the last record of each
   * key is keeping the first: the two de-duplications agree.
   */
  lemma {:induction false} DictValuesIsKeepFirst(xs: seq<Json>)
    requires KeyDetermines(xs)
    ensures DictValues(xs) == KeepFirst(xs)
    decreases |xs|
  {
    if xs != [] {
      var init := xs[..|xs| - 1];
      var x := xs[|xs| - 1];
      KeyDeterminesPrefix(xs);
      DictValuesIsKeepFirst(init);
      var e := DictValues(init);
      var slot := SlotOf(e, KeyOf(x));
      assert DictValues(xs) == Upsert(e, x);
      DictValuesKeys(init);
      KeysOfBySameKeys(e, KeepFirst(init));
      KeepFirstKeys(init);
      if slot != -1 {
        DictValuesLast(init);
        var i := LastIndices(init)[slot];
        assert e[slot] == init[i] && init[i] == xs[i];
        assert e[slot] == x;
        assert e[slot := x] == e;
        assert KeepFirst(xs) == KeepFirst(init);
      } else {
        assert KeepFirst(xs) == KeepFirst(init) + [x];
      }
    }
  }

  /** For records without booleans, the movement de-duplication keeps the first record of each value. */
  lemma BoolFreeDictValues(xs: seq<Json>)
    requires forall i :: 0 <= i < |xs| ==> BoolFree(xs[i])
    ensures DictValues(xs) == KeepFirst(xs)
  {
    forall i, j | 0 <= i < |xs| && 0 <= j < |xs| && KeyOf(xs[i]) == KeyOf(xs[j]) ensures xs[i] == xs[j] {
      MakeHashableInjective(xs[i], xs[j]);
    }
    assert KeyDetermines(xs);
    DictValuesIsKeepFirst(xs);
  }
}
