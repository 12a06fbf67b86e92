/**
 * Ordered group-by. A JavaScript object or `Map` filled in a `forEach` keeps
 * its keys in order of first insertion; these definitions give that order
 * (`GroupKeys`), the per-key sums and per-key sub-sequences, and the loops
 * that build them.
 */
module Grouping {

  /** The distinct keys of `xs`, in order of first appearance. */
  function GroupKeys<T, K(==)>(xs: seq<T>, key: T -> K): seq<K> {
    if xs == [] then []
    else
      var d := GroupKeys(xs[..|xs| - 1], key);
      if key(xs[|xs| - 1]) in d then d else d + [key(xs[|xs| - 1])]
  }

  ghost predicate Distinct<K>(ks: seq<K>) {
    forall i, j :: 0 <= i < j < |ks| ==> ks[i] != ks[j]
  }

  lemma {:induction false} GroupKeysFacts<T, K>(xs: seq<T>, key: T -> K)
    ensures Distinct(GroupKeys(xs, key))
    ensures forall k :: k in GroupKeys(xs, key) ==> exists i :: 0 <= i < |xs| && key(xs[i]) == k
    ensures forall i :: 0 <= i < |xs| ==> key(xs[i]) in GroupKeys(xs, key)
  {
    if xs != [] {
      var init := xs[..|xs| - 1];
      GroupKeysFacts(init, key);
      forall i | 0 <= i < |xs| ensures key(xs[i]) in GroupKeys(xs, key) {
        if i < |xs| - 1 { assert init[i] == xs[i]; }
      }
      forall k | k in GroupKeys(xs, key) ensures exists i :: 0 <= i < |xs| && key(xs[i]) == k {
        if k in GroupKeys(init, key) {
          var i :| 0 <= i < |init| && key(init[i]) == k;
          assert xs[i] == init[i];
        } else {
          assert key(xs[|xs| - 1]) == k;
        }
      }
    }
  }

  /** A duplicate-free sequence holds each value at most once. */
  lemma {:induction false} DistinctCount<K>(ks: seq<K>, x: K)
    requires Distinct(ks)
    ensures multiset(ks)[x] <= 1
  {
    if ks != [] {
      assert ks == [ks[0]] + ks[1..];
      DistinctCount(ks[1..], x);
      if ks[0] == x {
        assert x !in ks[1..];
      }
    }
  }

  /** A reordering of a duplicate-free sequence is duplicate-free. */
  lemma DistinctPermutation<K>(ks: seq<K>, ls: seq<K>)
    requires Distinct(ks) && multiset(ks) == multiset(ls)
    ensures Distinct(ls)
  {
    forall i, j | 0 <= i < j < |ls| ensures ls[i] != ls[j] {
      if ls[i] == ls[j] {
        var x := ls[i];
        assert ls == ls[..j] + ls[j..];
        assert x in ls[..j] && x in ls[j..];
        assert multiset(ls)[x] == multiset(ls[..j])[x] + multiset(ls[j..])[x];
        DistinctCount(ks, x);
        assert false;
      }
    }
  }

  /** Keys are listed in order of first appearance: an element's key is among the keys of any longer prefix. */
  lemma {:induction false} GroupKeysPrefix<T, K>(xs: seq<T>, key: T -> K, n: nat)
    requires n <= |xs|
    ensures GroupKeys(xs[..n], key) <= GroupKeys(xs, key)
    decreases |xs| - n
  {
    if n < |xs| {
      var init := xs[..|xs| - 1];
      assert init[..n] == xs[..n];
      GroupKeysPrefix(init, key, n);
    } else {
      assert xs[..n] == xs;
    }
  }

  /** When the input is ordered by an integer key, its group keys are strictly ascending. */
  lemma {:induction false} GroupKeysAscending<T>(xs: seq<T>, key: T -> int)
    requires forall i, j :: 0 <= i < j < |xs| ==> key(xs[i]) <= key(xs[j])
    ensures forall i, j :: 0 <= i < j < |GroupKeys(xs, key)| ==> GroupKeys(xs, key)[i] < GroupKeys(xs, key)[j]
  {
    if xs != [] {
      var init, x := xs[..|xs| - 1], xs[|xs| - 1];
      GroupKeysAscending(init, key);
      GroupKeysFacts(init, key);
      var d := GroupKeys(init, key);
      forall k | k in d ensures k <= key(x) {
        var i :| 0 <= i < |init| && key(init[i]) == k;
        assert init[i] == xs[i];
      }
      if key(x) !in d {
        var d' := d + [key(x)];
        forall i, j | 0 <= i < j < |d'| ensures d'[i] < d'[j] {
          if j == |d| {
            assert d'[i] == d[i] && d[i] in d;
          }
        }
      }
    }
  }

  // ---------------------------------------------------------------------
  // Per-key sums
  // ---------------------------------------------------------------------

  /** The sum of `val` over the elements of `xs` whose key is `k`. */
  function SumWhere<T, K(==)>(xs: seq<T>, key: T -> K, val: T -> real, k: K): real {
    if xs == [] then 0.0
    else SumWhere(xs[..|xs| - 1], key, val, k) + (if key(xs[|xs| - 1]) == k then val(xs[|xs| - 1]) else 0.0)
  }

  /** The total of `val` over all of `xs`. */
  function Total<T>(xs: seq<T>, val: T -> real): real {
    if xs == [] then 0.0 else Total(xs[..|xs| - 1], val) + val(xs[|xs| - 1])
  }

  lemma {:induction false} TotalAppend<T>(xs: seq<T>, ys: seq<T>, val: T -> real)
    ensures Total(xs + ys, val) == Total(xs, val) + Total(ys, val)
  {
    if ys != [] {
      assert (xs + ys)[..|xs + ys| - 1] == xs + ys[..|ys| - 1];
      TotalAppend(xs, ys[..|ys| - 1], val);
    } else {
      assert xs + ys == xs;
    }
  }

  /** Replacing one element changes the total by the difference of the two values. */
  lemma {:induction false} TotalUpdate<T>(xs: seq<T>, j: nat, y: T, val: T -> real)
    requires j < |xs|
    ensures Total(xs[j := y], val) == Total(xs, val) - val(xs[j]) + val(y)
  {
    var init := xs[..|xs| - 1];
    if j < |xs| - 1 {
      assert xs[j := y][..|xs| - 1] == init[j := y];
      TotalUpdate(init, j, y, val);
    } else {
      assert xs[j := y][..|xs| - 1] == init;
    }
  }

  lemma {:induction false} SumWhereAppend<T, K>(xs: seq<T>, ys: seq<T>, key: T -> K, val: T -> real, k: K)
    ensures SumWhere(xs + ys, key, val, k) == SumWhere(xs, key, val, k) + SumWhere(ys, key, val, k)
  {
    if ys != [] {
      assert (xs + ys)[..|xs + ys| - 1] == xs + ys[..|ys| - 1];
      SumWhereAppend(xs, ys[..|ys| - 1], key, val, k);
    } else {
      assert xs + ys == xs;
    }
  }

  /** A per-key sum does not depend on the order of the elements. */
  lemma {:induction false} SumWhereMultiset<T, K>(xs: seq<T>, ys: seq<T>, key: T -> K, val: T -> real, k: K)
    requires multiset(xs) == multiset(ys)
    ensures SumWhere(xs, key, val, k) == SumWhere(ys, key, val, k)
    decreases |xs|
  {
    if xs != [] {
      var init, x := xs[..|xs| - 1], xs[|xs| - 1];
      assert xs == init + [x];
      assert x in multiset(ys);
      var j :| 0 <= j < |ys| && ys[j] == x;
      var rest := ys[..j] + ys[j + 1..];
      MultisetRemoveLast(xs, ys, j);
      SumWhereMultiset(init, rest, key, val, k);
      SumWhereRemoveAt(ys, j, key, val, k);
      SumWhereAppend(init, [x], key, val, k);
      SumWhereOne(x, key, val, k);
    }
  }

  /** Taking the last element of `xs` and an equal element of `ys` leaves equal multisets. */
  lemma MultisetRemoveLast<T>(xs: seq<T>, ys: seq<T>, j: nat)
    requires multiset(xs) == multiset(ys) && xs != [] && j < |ys| && ys[j] == xs[|xs| - 1]
    ensures multiset(xs[..|xs| - 1]) == multiset(ys[..j] + ys[j + 1..])
  {
    MultisetDropAt(xs, |xs| - 1);
    MultisetDropAt(ys, j);
    assert xs[..|xs| - 1] + xs[|xs| - 1 + 1..] == xs[..|xs| - 1];
  }

  /** Dropping position `j` drops one occurrence of its element. */
  lemma MultisetDropAt<T>(ys: seq<T>, j: nat)
    requires j < |ys|
    ensures multiset(ys[..j] + ys[j + 1..]) == multiset(ys) - multiset{ys[j]}
  {
    var a, x, b := ys[..j], ys[j], ys[j + 1..];
    SplitAt(ys, j);
    calc {
      multiset(ys) - multiset{x};
      multiset(a + [x] + b) - multiset{x};
      multiset(a) + multiset{x} + multiset(b) - multiset{x};
      multiset(a) + multiset(b);
      multiset(a + b);
    }
  }

  /** A sequence is its part before `j`, its element at `j` and its part after `j`. */
  lemma SplitAt<T>(ys: seq<T>, j: nat)
    requires j < |ys|
    ensures ys == (ys[..j] + [ys[j]]) + ys[j + 1..]
  {
  }

  lemma SumWhereOne<T, K>(x: T, key: T -> K, val: T -> real, k: K)
    ensures SumWhere([x], key, val, k) == (if key(x) == k then val(x) else 0.0)
  {
    assert [x][..0] == [];
  }

  /** Taking one element out of a sequence takes its share out of a per-key sum. */
  lemma SumWhereRemoveAt<T, K>(ys: seq<T>, j: nat, key: T -> K, val: T -> real, k: K)
    requires j < |ys|
    ensures SumWhere(ys, key, val, k) ==
            SumWhere(ys[..j] + ys[j + 1..], key, val, k) + (if key(ys[j]) == k then val(ys[j]) else 0.0)
  {
    var a, x, b := ys[..j], ys[j], ys[j + 1..];
    calc {
      SumWhere(ys, key, val, k);
      { SplitAt(ys, j); }
      SumWhere((a + [x]) + b, key, val, k);
      { SumWhereAppend(a + [x], b, key, val, k); }
      SumWhere(a + [x], key, val, k) + SumWhere(b, key, val, k);
      { SumWhereAppend(a, [x], key, val, k); SumWhereOne(x, key, val, k); }
      SumWhere(a, key, val, k) + (if key(x) == k then val(x) else 0.0) + SumWhere(b, key, val, k);
      { SumWhereAppend(a, b, key, val, k); }
      SumWhere(a + b, key, val, k) + (if key(x) == k then val(x) else 0.0);
    }
  }

  lemma {:induction false} SumWhereAbsent<T, K>(xs: seq<T>, key: T -> K, val: T -> real, k: K)
    requires k !in GroupKeys(xs, key)
    ensures SumWhere(xs, key, val, k) == 0.0
  {
    if xs != [] { SumWhereAbsent(xs[..|xs| - 1], key, val, k); }
  }

  /**
   * The `forEach` that fills `{key: running sum}`: `keys` lists the keys in
   * insertion order and `sums` maps each to its total.
   */
  method GroupSum<T, K(==)>(xs: seq<T>, key: T -> K, val: T -> real) returns (keys: seq<K>, sums: map<K, real>)
    ensures keys == GroupKeys(xs, key)
    ensures forall k :: k in sums <==> k in keys
    ensures forall k :: k in sums ==> sums[k] == SumWhere(xs, key, val, k)
  {
    keys, sums := [], map[];
    for i := 0 to |xs|
      invariant keys == GroupKeys(xs[..i], key)
      invariant forall k :: k in sums <==> k in keys
      invariant forall k :: k in sums ==> sums[k] == SumWhere(xs[..i], key, val, k)
    {
      assert xs[..i + 1][..i] == xs[..i];
      var k := key(xs[i]);
      if k !in sums {
        keys := keys + [k];
        sums := sums[k := 0.0];
        SumWhereAbsent(xs[..i], key, val, k);
      }
      sums := sums[k := sums[k] + val(xs[i])];
    }
    assert xs[..|xs|] == xs;
  }

  // ---------------------------------------------------------------------
  // Per-key sub-sequences
  // ---------------------------------------------------------------------

  /** The elements of `xs` whose key is `k`, in their order in `xs`. */
  function Where<T, K(==)>(xs: seq<T>, key: T -> K, k: K): seq<T> {
    if xs == [] then []
    else Where(xs[..|xs| - 1], key, k) + (if key(xs[|xs| - 1]) == k then [xs[|xs| - 1]] else [])
  }

  lemma {:induction false} WhereMembers<T, K>(xs: seq<T>, key: T -> K, k: K)
    ensures forall x :: x in Where(xs, key, k) <==> x in xs && key(x) == k
  {
    if xs != [] {
      var init := xs[..|xs| - 1];
      WhereMembers(init, key, k);
      assert xs == init + [xs[|xs| - 1]];
    }
  }

  lemma {:induction false} WhereAbsent<T, K>(xs: seq<T>, key: T -> K, k: K)
    requires k !in GroupKeys(xs, key)
    ensures Where(xs, key, k) == []
  {
    if xs != [] {
      WhereAbsent(xs[..|xs| - 1], key, k);
    }
  }

  /** Every listed key has a non-empty group. */
  lemma WhereNonEmpty<T, K>(xs: seq<T>, key: T -> K, k: K)
    requires k in GroupKeys(xs, key)
    ensures Where(xs, key, k) != []
  {
    GroupKeysFacts(xs, key);
    WhereMembers(xs, key, k);
    var i :| 0 <= i < |xs| && key(xs[i]) == k;
    assert xs[i] in Where(xs, key, k);
  }

  /** A group starts with the first element of `xs` that has its key. */
  lemma {:induction false} WhereHead<T, K>(xs: seq<T>, key: T -> K, k: K)
    requires Where(xs, key, k) != []
    ensures exists i :: 0 <= i < |xs| && xs[i] == Where(xs, key, k)[0] && key(xs[i]) == k &&
                        forall j :: 0 <= j < i ==> key(xs[j]) != k
  {
    var init, x := xs[..|xs| - 1], xs[|xs| - 1];
    if Where(init, key, k) != [] {
      WhereHead(init, key, k);
      var i :| 0 <= i < |init| && init[i] == Where(init, key, k)[0] && key(init[i]) == k &&
               forall j :: 0 <= j < i ==> key(init[j]) != k;
      assert forall j :: 0 <= j <= i ==> xs[j] == init[j];
    } else {
      WhereMembers(init, key, k);
      assert forall j :: 0 <= j < |init| ==> xs[j] == init[j] && init[j] !in Where(init, key, k);
      assert xs[|xs| - 1] == Where(xs, key, k)[0];
    }
  }

  /** The `forEach` that pushes each element onto the list of its key. */
  method GroupLists<T, K(==)>(xs: seq<T>, key: T -> K) returns (keys: seq<K>, groups: map<K, seq<T>>)
    ensures keys == GroupKeys(xs, key)
    ensures forall k :: k in groups <==> k in keys
    ensures forall k :: k in groups ==> groups[k] == Where(xs, key, k)
  {
    keys, groups := [], map[];
    for i := 0 to |xs|
      invariant keys == GroupKeys(xs[..i], key)
      invariant forall k :: k in groups <==> k in keys
      invariant forall k :: k in groups ==> groups[k] == Where(xs[..i], key, k)
    {
      assert xs[..i + 1][..i] == xs[..i];
      var k := key(xs[i]);
      if k !in groups {
        keys := keys + [k];
        groups := groups[k := []];
        WhereAbsent(xs[..i], key, k);
      }
      groups := groups[k := groups[k] + [xs[i]]];
    }
    assert xs[..|xs|] == xs;
  }

  /** The number of elements over the groups of `keys`. */
  function CountOver<T, K(==)>(xs: seq<T>, key: T -> K, keys: seq<K>): nat {
    if keys == [] then 0 else CountOver(xs, key, keys[..|keys| - 1]) + |Where(xs, key, keys[|keys| - 1])|
  }

  lemma {:induction false} CountOverAbsent<T, K>(xs: seq<T>, x: T, key: T -> K, keys: seq<K>)
    requires key(x) !in keys
    ensures CountOver(xs + [x], key, keys) == CountOver(xs, key, keys)
  {
    if keys != [] {
      CountOverAbsent(xs, x, key, keys[..|keys| - 1]);
      assert (xs + [x])[..|xs + [x]| - 1] == xs;
    }
  }

  lemma {:induction false} CountOverPresent<T, K>(xs: seq<T>, x: T, key: T -> K, keys: seq<K>)
    requires Distinct(keys) && key(x) in keys
    ensures CountOver(xs + [x], key, keys) == CountOver(xs, key, keys) + 1
  {
    var init := keys[..|keys| - 1];
    assert (xs + [x])[..|xs + [x]| - 1] == xs;
    if keys[|keys| - 1] == key(x) {
      assert key(x) !in init;
      CountOverAbsent(xs, x, key, init);
    } else {
      CountOverPresent(xs, x, key, init);
    }
  }

  /** Every element lands in exactly one group: the groups' sizes add up to |xs|. */
  lemma {:induction false} GroupsPartition<T, K>(xs: seq<T>, key: T -> K)
    ensures CountOver(xs, key, GroupKeys(xs, key)) == |xs|
  {
    if xs != [] {
      var init, x := xs[..|xs| - 1], xs[|xs| - 1];
      assert xs == init + [x];
      GroupsPartition(init, key);
      var d := GroupKeys(init, key);
      GroupKeysFacts(init, key);
      if key(x) in d {
        CountOverPresent(init, x, key, d);
      } else {
        CountOverAbsent(init, x, key, d);
        assert (d + [key(x)])[..|d|] == d;
        WhereAbsent(init, key, key(x));
      }
    }
  }
}
