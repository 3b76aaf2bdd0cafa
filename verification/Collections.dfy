/** Optional values, and the bookkeeping facts about maps, sequences and sets that
    the rest of the project shares. */
module Collections {

  datatype Option<+T> = None | Some(value: T)

  /** Go's two-valued map read. */
  function Lookup<K, V>(m: map<K, V>, k: K): Option<V> {
    if k in m then Some(m[k]) else None
  }

  ghost predicate NoRepeats<T(!new)>(xs: seq<T>) {
    forall i, j :: 0 <= i < j < |xs| ==> xs[i] != xs[j]
  }

  /** `xs` lists every element of `s` exactly once: one possible order in which Go may
      range over a map whose key set is `s`. */
  ghost predicate Enumerates<T(!new)>(xs: seq<T>, s: set<T>) {
    && (forall x :: x in xs <==> x in s)
    && NoRepeats(xs)
  }

  ghost function Elements<T(!new)>(xs: seq<T>): set<T> {
    set x | x in xs
  }

  /** A sequence has as many elements as positions exactly when nothing repeats. */
  lemma {:induction false} CountsWhenDistinct<T(!new)>(xs: seq<T>)
    ensures |Elements(xs)| <= |xs|
    ensures |Elements(xs)| == |xs| <==> NoRepeats(xs)
  {
    if xs != [] {
      var init, last := xs[..|xs| - 1], xs[|xs| - 1];
      CountsWhenDistinct(init);
      assert xs == init + [last];
      if last in init {
        assert Elements(xs) == Elements(init);
        var i :| 0 <= i < |init| && init[i] == last;
        assert xs[i] == xs[|xs| - 1];
      } else {
        assert Elements(xs) == Elements(init) + {last};
        if NoRepeats(init) {
          assert NoRepeats(xs);
        } else {
          var i, j :| 0 <= i < j < |init| && init[i] == init[j];
          assert xs[i] == xs[j];
        }
      }
    }
  }

  /** The last position repeats an earlier one. */
  ghost predicate LastRepeats<T(!new)>(xs: seq<T>) {
    exists i :: 0 <= i < |xs| - 1 && xs[i] == xs[|xs| - 1]
  }

  lemma LastCounts<T(!new)>(xs: seq<T>)
    requires xs != []
    ensures |Elements(xs)| == |Elements(xs[..|xs| - 1])| + if LastRepeats(xs) then 0 else 1
  {
    var n := |xs| - 1;
    var init, last := xs[..n], xs[n];
    assert xs == init + [last];
    assert Elements(xs) == Elements(init) + {last};
    if LastRepeats(xs) {
      var i :| 0 <= i < n && xs[i] == last;
      assert init[i] == last;
      assert Elements(xs) == Elements(init);
    } else {
      assert forall i :: 0 <= i < n ==> xs[i] == init[i];
      assert last !in Elements(init);
    }
  }

  /** Renaming elements one to one does not change how many distinct ones there are. */
  lemma {:induction false} RenamingKeepsCount<S(!new), T(!new)>(xs: seq<S>, ys: seq<T>)
    requires |xs| == |ys|
    requires forall i, j :: 0 <= i < |xs| && 0 <= j < |xs| ==> (xs[i] == xs[j] <==> ys[i] == ys[j])
    ensures |Elements(xs)| == |Elements(ys)|
  {
    if xs != [] {
      var n := |xs| - 1;
      RenamingKeepsCount(xs[..n], ys[..n]);
      LastCounts(xs);
      LastCounts(ys);
      assert LastRepeats(xs) <==> LastRepeats(ys);
    }
  }

  // ----- filling a map in a loop -----

  /** The map left by assigning values[i] to keys[i] for i = 0, 1, ... in turn. */
  function Collect<V>(keys: seq<string>, values: seq<V>): map<string, V>
    requires |keys| == |values|
  {
    if |keys| == 0 then map[]
    else
      var n := |keys| - 1;
      Collect(keys[..n], values[..n])[keys[n] := values[n]]
  }

  /** The map after the first `n` assignments. */
  function CollectFirst<V>(keys: seq<string>, values: seq<V>, n: nat): map<string, V>
    requires n <= |keys| == |values|
  {
    Collect(keys[..n], values[..n])
  }

  lemma CollectStep<V>(keys: seq<string>, values: seq<V>, n: nat)
    requires n < |keys| == |values|
    ensures CollectFirst(keys, values, n + 1) == CollectFirst(keys, values, n)[keys[n] := values[n]]
  {
    assert keys[..n + 1][..n] == keys[..n] && values[..n + 1][..n] == values[..n];
  }

  lemma CollectEnd<V>(keys: seq<string>, values: seq<V>)
    requires |keys| == |values|
    ensures CollectFirst(keys, values, |keys|) == Collect(keys, values)
  {
    assert keys[..|keys|] == keys && values[..|keys|] == values;
  }

  /** Position i is the last one at which its key is assigned. */
  ghost predicate LastWith(keys: seq<string>, i: int) {
    0 <= i < |keys| && forall j :: i < j < |keys| ==> keys[j] != keys[i]
  }

  /** Whatever the map holds under a key was assigned to it at some position. */
  lemma {:induction false} CollectedAt<V>(keys: seq<string>, values: seq<V>, k: string) returns (i: nat)
    requires |keys| == |values| && k in Collect(keys, values)
    ensures i < |keys| && keys[i] == k && values[i] == Collect(keys, values)[k]
  {
    i := |keys| - 1;
    if keys[i] != k {
      i := CollectedAt(keys[..i], values[..i], k);
    }
  }

  lemma CollectOne<V>(keys: seq<string>, values: seq<V>)
    requires |keys| == |values| == 1
    ensures Collect(keys, values) == map[keys[0] := values[0]]
  {
    assert Collect(keys[..0], values[..0]) == map[];
  }

  /** The keys are exactly those assigned, and each holds what was assigned to it last. */
  lemma {:induction false} CollectExact<V>(keys: seq<string>, values: seq<V>)
    requires |keys| == |values|
    ensures Collect(keys, values).Keys == Elements(keys)
    ensures forall i :: LastWith(keys, i) ==> Collect(keys, values)[keys[i]] == values[i]
    ensures |Collect(keys, values)| == |keys| <==> NoRepeats(keys)
  {
    CollectContents(keys, values);
    CountsWhenDistinct(keys);
    assert |Collect(keys, values)| == |Collect(keys, values).Keys|;
  }

  lemma {:induction false} CollectContents<V>(keys: seq<string>, values: seq<V>)
    requires |keys| == |values|
    ensures Collect(keys, values).Keys == Elements(keys)
    ensures forall i :: LastWith(keys, i) ==> Collect(keys, values)[keys[i]] == values[i]
  {
    if |keys| > 0 {
      var n := |keys| - 1;
      CollectContents(keys[..n], values[..n]);
      assert keys == keys[..n] + [keys[n]];
      forall i | LastWith(keys, i) ensures Collect(keys, values)[keys[i]] == values[i] {
        if i < n {
          assert LastWith(keys[..n], i);
        }
      }
    }
  }
}
