/** Python's `sorted(xs, key=..., reverse=True)` over keys that may be NaN:
    a stable sort into non-increasing key order. It is written here as an
    insertion sort that places each element after every earlier element whose
    key is not smaller, which is what a stable descending sort does; NaN keys
    compare false both ways. */
module StableSort {
  import opened Wrappers

  /** `a < b` on floats, with NaN (`None`) comparing false. */
  predicate Lt(a: Option<real>, b: Option<real>)
  {
    a.Some? && b.Some? && a.value < b.value
  }

  /** Inserts `x` into `ys` just before the first element whose key is
      smaller than `x`'s, so it ends up after every element it ties with. */
  function Insert<T>(x: T, ys: seq<T>, key: T -> Option<real>): (r: seq<T>)
    ensures |r| == |ys| + 1
  {
    if |ys| == 0 then [x]
    else if Lt(key(ys[0]), key(x)) then [x] + ys
    else [ys[0]] + Insert(x, ys[1..], key)
  }

  /** The stable descending sort: the elements in order, each inserted in turn. */
  function SortDesc<T>(xs: seq<T>, key: T -> Option<real>): (r: seq<T>)
    ensures |r| == |xs|
  {
    if |xs| == 0 then []
    else Insert(xs[|xs| - 1], SortDesc(xs[..|xs| - 1], key), key)
  }

  /** Every key is a number (no NaN). */
  predicate Finite<T>(xs: seq<T>, key: T -> Option<real>)
  {
    forall i :: 0 <= i < |xs| ==> key(xs[i]).Some?
  }

  /** Keys never increase along the sequence. */
  predicate SortedDesc<T>(xs: seq<T>, key: T -> Option<real>)
    requires Finite(xs, key)
  {
    forall i, j :: 0 <= i < j < |xs| ==> key(xs[j]).value <= key(xs[i]).value
  }

  /** The elements of `xs` whose key is `v`, in their order in `xs`. */
  function KeyClass<T>(xs: seq<T>, key: T -> Option<real>, v: Option<real>): (r: seq<T>)
    ensures |r| <= |xs|
  {
    if |xs| == 0 then []
    else (if key(xs[0]) == v then [xs[0]] else []) + KeyClass(xs[1..], key, v)
  }

  // ---------------------------------------------------------------------------
  // Permutation
  // ---------------------------------------------------------------------------

  /** Inserting adds exactly `x` to the multiset of elements. */
  lemma {:induction false} InsertPermutes<T>(x: T, ys: seq<T>, key: T -> Option<real>)
    ensures multiset(Insert(x, ys, key)) == multiset(ys) + multiset{x}
  {
    if |ys| > 0 && !Lt(key(ys[0]), key(x)) {
      InsertPermutes(x, ys[1..], key);
      assert ys == [ys[0]] + ys[1..];
    }
  }

  /** The sort is a permutation of its input. */
  lemma {:induction false} SortDescPermutes<T>(xs: seq<T>, key: T -> Option<real>)
    ensures multiset(SortDesc(xs, key)) == multiset(xs)
  {
    if |xs| > 0 {
      var init, last := xs[..|xs| - 1], xs[|xs| - 1];
      var sorted := SortDesc(init, key);
      assert SortDesc(xs, key) == Insert(last, sorted, key);
      assert multiset(SortDesc(xs, key)) == multiset(sorted) + multiset{last} by {
        InsertPermutes(last, sorted, key);
      }
      assert multiset(sorted) == multiset(init) by {
        SortDescPermutes(init, key);
      }
      assert multiset(xs) == multiset(init) + multiset{last} by {
        assert xs == init + [last];
      }
    }
  }

  // ---------------------------------------------------------------------------
  // Order
  // ---------------------------------------------------------------------------

  /** Every key is a number no greater than `b`. */
  predicate AtMost<T>(xs: seq<T>, key: T -> Option<real>, b: real)
  {
    forall i :: 0 <= i < |xs| ==> key(xs[i]).Some? && key(xs[i]).value <= b
  }

  /** Inserting an element with a key no greater than `b` keeps every key at most `b`. */
  lemma {:induction false} InsertAtMost<T>(x: T, ys: seq<T>, key: T -> Option<real>, b: real)
    requires AtMost(ys, key, b) && key(x).Some? && key(x).value <= b
    ensures AtMost(Insert(x, ys, key), key, b)
  {
    if |ys| > 0 && !Lt(key(ys[0]), key(x)) {
      InsertAtMost(x, ys[1..], key, b);
      var t := Insert(x, ys[1..], key);
      assert forall j :: 0 < j < |t| + 1 ==> ([ys[0]] + t)[j] == t[j - 1];
    }
  }

  /** Inserting into a sorted sequence keeps it sorted. */
  lemma {:induction false} InsertSorted<T>(x: T, ys: seq<T>, key: T -> Option<real>)
    requires Finite(ys, key) && key(x).Some? && SortedDesc(ys, key)
    ensures Finite(Insert(x, ys, key), key)
    ensures SortedDesc(Insert(x, ys, key), key)
  {
    if |ys| == 0 {
    } else if Lt(key(ys[0]), key(x)) {
      var r := [x] + ys;
      assert forall j :: 0 < j < |r| ==> r[j] == ys[j - 1];
      assert AtMost(ys, key, key(ys[0]).value);
    } else {
      var tail := ys[1..];
      assert Finite(tail, key) && SortedDesc(tail, key);
      InsertSorted(x, tail, key);
      var t := Insert(x, tail, key);
      assert AtMost(tail, key, key(ys[0]).value);
      InsertAtMost(x, tail, key, key(ys[0]).value);
      var r := [ys[0]] + t;
      assert forall j :: 0 < j < |r| ==> r[j] == t[j - 1];
    }
  }

  /** An element whose key exceeds no key of `ys` is placed last. */
  lemma {:induction false} InsertLast<T>(x: T, ys: seq<T>, key: T -> Option<real>)
    requires forall i :: 0 <= i < |ys| ==> !Lt(key(ys[i]), key(x))
    ensures Insert(x, ys, key) == ys + [x]
  {
    if |ys| > 0 {
      InsertLast(x, ys[1..], key);
      assert ys == [ys[0]] + ys[1..];
    }
  }

  /** Sorting two elements that are already in order keeps them. */
  lemma SortPair<T>(a: T, b: T, key: T -> Option<real>)
    requires !Lt(key(a), key(b))
    ensures SortDesc([a, b], key) == [a, b]
  {
    assert [a, b][..1] == [a];
    assert [a][..0] == [];
    InsertLast(b, [a], key);
  }

  /** Sorting three elements inserts the third into the sorted first two. */
  lemma SortTriple<T>(a: T, b: T, c: T, key: T -> Option<real>)
    ensures SortDesc([a, b, c], key) == Insert(c, SortDesc([a, b], key), key)
  {
    assert [a, b, c][..2] == [a, b];
  }

  /** Inserting after two elements that both rank at least as high. */
  lemma InsertAfterTwo<T>(c: T, a: T, b: T, key: T -> Option<real>)
    requires !Lt(key(a), key(c)) && !Lt(key(b), key(c))
    ensures Insert(c, [a, b], key) == [a, b, c]
  {
    assert [a, b][1..] == [b];
    assert Insert(c, [b], key) == [b] + Insert(c, [b][1..], key);
  }

  /** Inserting between an element that ranks at least as high and one that
      ranks lower. */
  lemma InsertBetween<T>(c: T, a: T, b: T, key: T -> Option<real>)
    requires !Lt(key(a), key(c)) && Lt(key(b), key(c))
    ensures Insert(c, [a, b], key) == [a, c, b]
  {
    assert [a, b][1..] == [b];
  }

  /** Equal keys keep insertion order: keys 5, 5, 3 sort as given. */
  lemma TieOrder<T>(a: T, b: T, c: T, key: T -> Option<real>)
    requires key(a) == Some(5.0) && key(b) == Some(5.0) && key(c) == Some(3.0)
    ensures SortDesc([a, b, c], key) == [a, b, c]
  {
    SortPair(a, b, key);
    SortTriple(a, b, c, key);
    InsertAfterTwo(c, a, b, key);
  }

  /** Keys 10, -2, 4 sort as first, third, second. */
  lemma MixedOrder<T>(a: T, b: T, c: T, key: T -> Option<real>)
    requires key(a) == Some(10.0) && key(b) == Some(-2.0) && key(c) == Some(4.0)
    ensures SortDesc([a, b, c], key) == [a, c, b]
  {
    SortPair(a, b, key);
    SortTriple(a, b, c, key);
    InsertBetween(c, a, b, key);
  }

  /** With finite keys the sort is in non-increasing key order. */
  lemma {:induction false} SortDescSorted<T>(xs: seq<T>, key: T -> Option<real>)
    requires Finite(xs, key)
    ensures Finite(SortDesc(xs, key), key)
    ensures SortedDesc(SortDesc(xs, key), key)
  {
    if |xs| > 0 {
      var init := xs[..|xs| - 1];
      assert Finite(init, key);
      SortDescSorted(init, key);
      InsertSorted(xs[|xs| - 1], SortDesc(init, key), key);
    }
  }

  // ---------------------------------------------------------------------------
  // Stability
  // ---------------------------------------------------------------------------

  /** The key class of a sequence with a given first element. */
  lemma KeyClassCons<T>(y: T, ys: seq<T>, key: T -> Option<real>, v: Option<real>)
    ensures KeyClass([y] + ys, key, v) == (if key(y) == v then [y] else []) + KeyClass(ys, key, v)
  {
    assert ([y] + ys)[0] == y && ([y] + ys)[1..] == ys;
  }

  lemma {:induction false} KeyClassAppend<T>(a: seq<T>, b: seq<T>, key: T -> Option<real>, v: Option<real>)
    ensures KeyClass(a + b, key, v) == KeyClass(a, key, v) + KeyClass(b, key, v)
  {
    if |a| == 0 {
      assert a + b == b;
    } else {
      var tail := a[1..];
      KeyClassAppend(tail, b, key, v);
      assert a + b == [a[0]] + (tail + b);
      assert a == [a[0]] + tail;
      KeyClassCons(a[0], tail + b, key, v);
      KeyClassCons(a[0], tail, key, v);
      ConcatAssoc((if key(a[0]) == v then [a[0]] else []), KeyClass(tail, key, v), KeyClass(b, key, v));
    }
  }

  lemma ConcatAssoc<T>(x: seq<T>, y: seq<T>, z: seq<T>)
    ensures x + (y + z) == (x + y) + z
  {
  }

  /** Peeling the last element off a key class. */
  lemma KeyClassLast<T>(xs: seq<T>, key: T -> Option<real>, v: Option<real>)
    requires |xs| > 0
    ensures var x := xs[|xs| - 1];
      KeyClass(xs, key, v) == KeyClass(xs[..|xs| - 1], key, v) + (if key(x) == v then [x] else [])
  {
    var init, x := xs[..|xs| - 1], xs[|xs| - 1];
    assert xs == init + [x];
    KeyClassAppend(init, [x], key, v);
    KeyClassCons(x, [], key, v);
    assert [x] + [] == [x];
  }

  /** No element of a sequence whose keys are all below `v` has key `v`. */
  lemma {:induction false} KeyClassBelow<T>(ys: seq<T>, key: T -> Option<real>, v: real)
    requires forall i :: 0 <= i < |ys| ==> Lt(key(ys[i]), Some(v))
    ensures KeyClass(ys, key, Some(v)) == []
  {
    if |ys| > 0 {
      KeyClassBelow(ys[1..], key, v);
    }
  }

  /** In a sorted sequence whose first key is below `x`'s, every key is. */
  lemma SortedBelow<T>(x: T, ys: seq<T>, key: T -> Option<real>)
    requires Finite(ys, key) && SortedDesc(ys, key) && |ys| > 0 && Lt(key(ys[0]), key(x))
    ensures forall i :: 0 <= i < |ys| ==> Lt(key(ys[i]), Some(key(x).value))
  {
    forall i | 0 < i < |ys| ensures Lt(key(ys[i]), Some(key(x).value)) {
      assert key(ys[i]).value <= key(ys[0]).value;
    }
  }

  /** Placing `x` in front of a sorted sequence whose keys are all below its own. */
  lemma KeyClassInsertFront<T>(x: T, ys: seq<T>, key: T -> Option<real>, v: Option<real>)
    requires Finite(ys, key) && key(x).Some? && SortedDesc(ys, key) && |ys| > 0 && Lt(key(ys[0]), key(x))
    ensures KeyClass([x] + ys, key, v) == KeyClass(ys, key, v) + (if key(x) == v then [x] else [])
  {
    KeyClassCons(x, ys, key, v);
    if key(x) == v {
      SortedBelow(x, ys, key);
      KeyClassBelow(ys, key, key(x).value);
      assert [x] + [] == [] + [x];
    } else {
      assert [] + KeyClass(ys, key, v) == KeyClass(ys, key, v) + [];
    }
  }

  /** Inserting `x` into a sorted sequence puts it after every element that
      shares its key. */
  lemma {:induction false} KeyClassInsert<T>(x: T, ys: seq<T>, key: T -> Option<real>, v: Option<real>)
    requires Finite(ys, key) && key(x).Some? && SortedDesc(ys, key)
    ensures KeyClass(Insert(x, ys, key), key, v) ==
              KeyClass(ys, key, v) + (if key(x) == v then [x] else [])
  {
    var hx := if key(x) == v then [x] else [];
    if |ys| == 0 {
      KeyClassCons(x, [], key, v);
      assert [x] + [] == [x];
      assert [] + hx == hx + [];
    } else if Lt(key(ys[0]), key(x)) {
      KeyClassInsertFront(x, ys, key, v);
    } else {
      var tail := ys[1..];
      assert Finite(tail, key) && SortedDesc(tail, key);
      KeyClassInsert(x, tail, key, v);
      var h0 := if key(ys[0]) == v then [ys[0]] else [];
      assert Insert(x, ys, key) == [ys[0]] + Insert(x, tail, key);
      KeyClassCons(ys[0], Insert(x, tail, key), key, v);
      assert ys == [ys[0]] + tail;
      KeyClassCons(ys[0], tail, key, v);
      ConcatAssoc(h0, KeyClass(tail, key, v), hx);
    }
  }

  /** Stability: for every key value, the elements with that key appear in
      the sorted output in the same order as in the input. */
  lemma {:induction false} SortDescStable<T>(xs: seq<T>, key: T -> Option<real>, v: Option<real>)
    requires Finite(xs, key)
    ensures KeyClass(SortDesc(xs, key), key, v) == KeyClass(xs, key, v)
  {
    if |xs| > 0 {
      var init, x := xs[..|xs| - 1], xs[|xs| - 1];
      var hx := if key(x) == v then [x] else [];
      assert Finite(init, key);
      SortDescStable(init, key, v);
      assert SortDesc(xs, key) == Insert(x, SortDesc(init, key), key);
      assert KeyClass(SortDesc(xs, key), key, v) == KeyClass(SortDesc(init, key), key, v) + hx by {
        SortDescSorted(init, key);
        KeyClassInsert(x, SortDesc(init, key), key, v);
      }
      KeyClassLast(xs, key, v);
    }
  }
}
