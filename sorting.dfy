/**
 * The orderings the system relies on. `SortByKey` is the stable sort that
 * `Array.prototype.sort` performs with a numeric comparator (and that the
 * document store applies for `.sort({createdAt: ±1})`); `SortByText` orders by
 * a string field, as `.sort({name: 1})` does.
 */
module Sorting {
  import opened Base

  // ---------------------------------------------------------------------
  // Numeric keys, stable
  // ---------------------------------------------------------------------

  ghost predicate SortedByKey<T>(s: seq<T>, key: T -> real) {
    forall i, j :: 0 <= i < j < |s| ==> key(s[i]) <= key(s[j])
  }

  /** The elements of `s` whose key is `v`, in their order in `s`. */
  function KeyClass<T>(s: seq<T>, key: T -> real, v: real): seq<T> {
    if s == [] then [] else (if key(s[0]) == v then [s[0]] else []) + KeyClass(s[1..], key, v)
  }

  lemma {:induction false} KeyClassAppend<T>(s: seq<T>, x: T, key: T -> real, v: real)
    ensures KeyClass(s + [x], key, v) == KeyClass(s, key, v) + (if key(x) == v then [x] else [])
  {
    if s != [] {
      assert (s + [x])[1..] == s[1..] + [x];
      KeyClassAppend(s[1..], x, key, v);
    }
  }

  lemma {:induction false} KeyClassNone<T>(s: seq<T>, key: T -> real, v: real)
    requires forall i :: 0 <= i < |s| ==> key(s[i]) != v
    ensures KeyClass(s, key, v) == []
  {
    if s != [] { KeyClassNone(s[1..], key, v); }
  }

  /** Inserts `x` after every element whose key is not larger. */
  function InsertByKey<T>(a: seq<T>, x: T, key: T -> real): seq<T> {
    if a == [] then [x]
    else if key(a[0]) <= key(x) then [a[0]] + InsertByKey(a[1..], x, key)
    else [x] + a
  }

  lemma {:induction false} InsertByKeyBound<T>(a: seq<T>, x: T, key: T -> real, k: real)
    requires forall i :: 0 <= i < |a| ==> k <= key(a[i])
    requires k <= key(x)
    ensures forall i :: 0 <= i < |InsertByKey(a, x, key)| ==> k <= key(InsertByKey(a, x, key)[i])
  {
    if a != [] && key(a[0]) <= key(x) {
      InsertByKeyBound(a[1..], x, key, k);
    }
  }

  lemma {:induction false} InsertByKeySorted<T>(a: seq<T>, x: T, key: T -> real)
    requires SortedByKey(a, key)
    ensures SortedByKey(InsertByKey(a, x, key), key)
  {
    if a != [] && key(a[0]) <= key(x) {
      InsertByKeySorted(a[1..], x, key);
      InsertByKeyBound(a[1..], x, key, key(a[0]));
    }
  }

  lemma {:induction false} InsertByKeyMultiset<T>(a: seq<T>, x: T, key: T -> real)
    ensures multiset(InsertByKey(a, x, key)) == multiset(a) + multiset{x}
  {
    if a != [] && key(a[0]) <= key(x) {
      InsertByKeyMultiset(a[1..], x, key);
      assert a == [a[0]] + a[1..];
    }
  }

  lemma KeyClassCons<T>(y: T, s: seq<T>, key: T -> real, v: real)
    ensures KeyClass([y] + s, key, v) == (if key(y) == v then [y] else []) + KeyClass(s, key, v)
  {
    assert ([y] + s)[1..] == s;
  }

  lemma {:induction false} InsertByKeyClass<T>(a: seq<T>, x: T, key: T -> real, v: real)
    requires SortedByKey(a, key)
    ensures KeyClass(InsertByKey(a, x, key), key, v)
            == KeyClass(a, key, v) + (if key(x) == v then [x] else [])
  {
    if a == [] {
    } else if key(a[0]) <= key(x) {
      SortedTail(a, key);
      InsertByKeyClass(a[1..], x, key, v);
      InsertByKeyClassStep(a, x, key, v);
    } else {
      InsertByKeyClassFront(a, x, key, v);
    }
  }

  lemma SortedTail<T>(a: seq<T>, key: T -> real)
    requires SortedByKey(a, key) && a != []
    ensures SortedByKey(a[1..], key)
  {
    forall i, j | 0 <= i < j < |a| - 1 ensures key(a[1..][i]) <= key(a[1..][j]) {
      assert a[1..][i] == a[i + 1] && a[1..][j] == a[j + 1];
    }
  }

  /** Passing over a not-larger head keeps the head in front of the class of the rest. */
  lemma InsertByKeyClassStep<T>(a: seq<T>, x: T, key: T -> real, v: real)
    requires a != [] && key(a[0]) <= key(x)
    requires KeyClass(InsertByKey(a[1..], x, key), key, v)
             == KeyClass(a[1..], key, v) + (if key(x) == v then [x] else [])
    ensures KeyClass(InsertByKey(a, x, key), key, v)
            == KeyClass(a, key, v) + (if key(x) == v then [x] else [])
  {
    var rest := InsertByKey(a[1..], x, key);
    assert InsertByKey(a, x, key) == [a[0]] + rest;
    KeyClassCons(a[0], rest, key, v);
    KeyClassCons(a[0], a[1..], key, v);
    assert [a[0]] + a[1..] == a;
  }

  /** Inserting in front of larger keys: `x` is the only element of its class there. */
  lemma InsertByKeyClassFront<T>(a: seq<T>, x: T, key: T -> real, v: real)
    requires SortedByKey(a, key) && a != [] && key(x) < key(a[0])
    ensures KeyClass(InsertByKey(a, x, key), key, v)
            == KeyClass(a, key, v) + (if key(x) == v then [x] else [])
  {
    KeyClassCons(x, a, key, v);
    if key(x) == v {
      forall i | 0 <= i < |a| ensures key(a[i]) != v {
        assert key(a[0]) <= key(a[i]);
      }
      KeyClassNone(a, key, v);
    }
  }

  /** Stable insertion sort on an ascending numeric key. */
  function SortByKey<T>(s: seq<T>, key: T -> real): (r: seq<T>)
    ensures SortedByKey(r, key)
    ensures multiset(r) == multiset(s)
    ensures forall v :: KeyClass(r, key, v) == KeyClass(s, key, v)
  {
    if s == [] then []
    else
      var init, last := s[..|s| - 1], s[|s| - 1];
      assert s == init + [last];
      var sorted := SortByKey(init, key);
      InsertByKeySorted(sorted, last, key);
      InsertByKeyMultiset(sorted, last, key);
      forall v ensures KeyClass(InsertByKey(sorted, last, key), key, v) == KeyClass(s, key, v) {
        KeyClassAppend(init, last, key, v);
        InsertByKeyClass(sorted, last, key, v);
      }
      InsertByKey(sorted, last, key)
  }

  lemma SortByKeyLength<T>(s: seq<T>, key: T -> real)
    ensures |SortByKey(s, key)| == |s|
  {
    assert |multiset(SortByKey(s, key))| == |multiset(s)|;
  }

  /** The first element of a key class is the first element of `s` with that key. */
  lemma {:induction false} KeyClassFirst<T>(s: seq<T>, key: T -> real, i: nat)
    requires i < |s|
    requires forall j :: 0 <= j < i ==> key(s[j]) != key(s[i])
    ensures |KeyClass(s, key, key(s[i]))| > 0 && KeyClass(s, key, key(s[i]))[0] == s[i]
  {
    if i > 0 {
      KeyClassFirst(s[1..], key, i - 1);
    }
  }

  /**
   * The head of the stable sort is the element of least key that comes first
   * in the input: every element's key is at least its key, and every element
   * before it has a strictly larger key.
   */
  lemma SortedHeadIsLeast<T>(r: seq<T>, key: T -> real)
    requires SortedByKey(r, key) && |r| > 0
    ensures forall x :: x in r ==> key(r[0]) <= key(x)
  {
    forall x | x in r ensures key(r[0]) <= key(x) {
      var m :| 0 <= m < |r| && r[m] == x;
      if m > 0 {
        assert key(r[0]) <= key(r[m]);
      }
    }
  }

  lemma SortByKeyHead<T>(s: seq<T>, key: T -> real)
    requires |s| > 0
    ensures |SortByKey(s, key)| == |s|
    ensures exists i :: 0 <= i < |s| && s[i] == SortByKey(s, key)[0] &&
              (forall j :: 0 <= j < |s| ==> key(s[i]) <= key(s[j])) &&
              (forall j :: 0 <= j < i ==> key(s[j]) > key(s[i]))
  {
    SortByKeyHeadLeast(s, key);
    var i := HeadOrigin(s, key);
    SortByKeyHeadFirst(s, key, i);
    forall j | 0 <= j < i ensures key(s[j]) > key(s[i]) {
      assert key(SortByKey(s, key)[0]) <= key(s[j]);
    }
  }

  /** The first input position holding the head's key. */
  lemma HeadOrigin<T>(s: seq<T>, key: T -> real) returns (i: nat)
    requires |s| > 0 && |SortByKey(s, key)| == |s|
    ensures i < |s| && key(s[i]) == key(SortByKey(s, key)[0])
    ensures forall j :: 0 <= j < i ==> key(s[j]) != key(s[i])
  {
    var r := SortByKey(s, key);
    assert r[0] in multiset(s);
    var m :| 0 <= m < |s| && s[m] == r[0];
    var found := FirstIndex(s, (x: T) => key(x) == key(r[0]));
    assert found.Some? by {
      assert key(s[m]) == key(r[0]);
    }
    i := found.value;
  }

  /** The head's key is the least key of the input. */
  lemma SortByKeyHeadLeast<T>(s: seq<T>, key: T -> real)
    requires |s| > 0
    ensures |SortByKey(s, key)| == |s|
    ensures forall j :: 0 <= j < |s| ==> key(SortByKey(s, key)[0]) <= key(s[j])
  {
    var r := SortByKey(s, key);
    SortByKeyLength(s, key);
    SortedHeadIsLeast(r, key);
    forall j | 0 <= j < |s| ensures key(r[0]) <= key(s[j]) {
      assert s[j] in multiset(r);
    }
  }

  /** The first input element with the head's key is the head itself. */
  lemma SortByKeyHeadFirst<T>(s: seq<T>, key: T -> real, i: nat)
    requires i < |s| && |SortByKey(s, key)| == |s|
    requires key(s[i]) == key(SortByKey(s, key)[0])
    requires forall j :: 0 <= j < i ==> key(s[j]) != key(s[i])
    ensures s[i] == SortByKey(s, key)[0]
  {
    var r := SortByKey(s, key);
    KeyClassFirst(s, key, i);
    KeyClassFirst(r, key, 0);
    assert KeyClass(r, key, key(s[i])) == KeyClass(s, key, key(s[i]));
  }

  // ---------------------------------------------------------------------
  // Text keys (code-unit lexicographic order)
  // ---------------------------------------------------------------------

  predicate TextLe(a: string, b: string) {
    if a == [] then true
    else if b == [] then false
    else if a[0] != b[0] then a[0] < b[0]
    else TextLe(a[1..], b[1..])
  }

  lemma {:induction false} TextLeTotal(a: string, b: string)
    ensures TextLe(a, b) || TextLe(b, a)
  {
    if a != [] && b != [] && a[0] == b[0] { TextLeTotal(a[1..], b[1..]); }
  }

  lemma {:induction false} TextLeTransitive(a: string, b: string, c: string)
    requires TextLe(a, b) && TextLe(b, c)
    ensures TextLe(a, c)
  {
    if a != [] && b != [] && c != [] && a[0] == b[0] && b[0] == c[0] {
      TextLeTransitive(a[1..], b[1..], c[1..]);
    }
  }

  lemma {:induction false} TextLeAntisymmetric(a: string, b: string)
    requires TextLe(a, b) && TextLe(b, a)
    ensures a == b
  {
    if a != [] && b != [] {
      TextLeAntisymmetric(a[1..], b[1..]);
      assert a == [a[0]] + a[1..] && b == [b[0]] + b[1..];
    }
  }

  ghost predicate SortedByText<T>(s: seq<T>, key: T -> string) {
    forall i, j :: 0 <= i < j < |s| ==> TextLe(key(s[i]), key(s[j]))
  }

  function InsertByText<T>(a: seq<T>, x: T, key: T -> string): seq<T> {
    if a == [] then [x]
    else if TextLe(key(a[0]), key(x)) then [a[0]] + InsertByText(a[1..], x, key)
    else [x] + a
  }

  lemma {:induction false} InsertByTextBound<T>(a: seq<T>, x: T, key: T -> string, k: string)
    requires forall i :: 0 <= i < |a| ==> TextLe(k, key(a[i]))
    requires TextLe(k, key(x))
    ensures forall i :: 0 <= i < |InsertByText(a, x, key)| ==> TextLe(k, key(InsertByText(a, x, key)[i]))
  {
    if a != [] && TextLe(key(a[0]), key(x)) {
      InsertByTextBound(a[1..], x, key, k);
    }
  }

  lemma {:induction false} InsertByTextSorted<T>(a: seq<T>, x: T, key: T -> string)
    requires SortedByText(a, key)
    ensures SortedByText(InsertByText(a, x, key), key)
  {
    if a == [] {
    } else if TextLe(key(a[0]), key(x)) {
      InsertByTextSorted(a[1..], x, key);
      InsertByTextBound(a[1..], x, key, key(a[0]));
    } else {
      TextLeTotal(key(a[0]), key(x));
      forall j | 0 <= j < |a| ensures TextLe(key(x), key(a[j])) {
        if j > 0 { TextLeTransitive(key(x), key(a[0]), key(a[j])); }
      }
    }
  }

  lemma {:induction false} InsertByTextMultiset<T>(a: seq<T>, x: T, key: T -> string)
    ensures multiset(InsertByText(a, x, key)) == multiset(a) + multiset{x}
  {
    if a != [] && TextLe(key(a[0]), key(x)) {
      InsertByTextMultiset(a[1..], x, key);
      assert a == [a[0]] + a[1..];
    }
  }

  /** Insertion sort on a string key. */
  function SortByText<T>(s: seq<T>, key: T -> string): (r: seq<T>)
    ensures SortedByText(r, key)
    ensures multiset(r) == multiset(s)
  {
    if s == [] then []
    else
      var init, last := s[..|s| - 1], s[|s| - 1];
      assert s == init + [last];
      var sorted := SortByText(init, key);
      InsertByTextSorted(sorted, last, key);
      InsertByTextMultiset(sorted, last, key);
      InsertByText(sorted, last, key)
  }
}
