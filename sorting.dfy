/** Python's `sorted(items, key=key, reverse=True)`: a stable sort into non-increasing key
    order, modelled as insertion sort. */
module Sorting {

  /** Keys never increase from left to right. */
  ghost predicate NonIncreasing<T>(s: seq<T>, key: T -> int)
  {
    forall i, j :: 0 <= i < j < |s| ==> key(s[i]) >= key(s[j])
  }

  /** The elements of `s` whose key is `v`, in their order in `s`. */
  function WithKey<T>(s: seq<T>, key: T -> int, v: int): seq<T>
  {
    if |s| == 0 then []
    else (if key(s[0]) == v then [s[0]] else []) + WithKey(s[1..], key, v)
  }

  /** Places `x` after every element whose key is at least its own. */
  function Insert<T>(x: T, s: seq<T>, key: T -> int): (r: seq<T>)
    ensures multiset(r) == multiset(s) + multiset{x}
  {
    if |s| == 0 then [x]
    else
      assert s == [s[0]] + s[1..];
      if key(s[0]) >= key(x) then [s[0]] + Insert(x, s[1..], key)
      else [x] + s
  }

  /** `sorted(s, key=key, reverse=True)`. */
  function SortDescending<T>(s: seq<T>, key: T -> int): (r: seq<T>)
    ensures multiset(r) == multiset(s)
  {
    if |s| == 0 then []
    else
      assert s == s[..|s| - 1] + [s[|s| - 1]];
      Insert(s[|s| - 1], SortDescending(s[..|s| - 1], key), key)
  }

  /** A head no smaller than everything after it extends a non-increasing sequence. */
  lemma ConsNonIncreasing<T>(h: T, s: seq<T>, key: T -> int)
    requires NonIncreasing(s, key)
    requires forall i :: 0 <= i < |s| ==> key(s[i]) <= key(h)
    ensures NonIncreasing([h] + s, key)
  {
    var r := [h] + s;
    forall i, j | 0 <= i < j < |r| ensures key(r[i]) >= key(r[j]) {
      assert r[j] == s[j - 1];
      if i > 0 {
        assert r[i] == s[i - 1];
      }
    }
  }

  /** Inserting an element under a bound keeps every key under it. */
  lemma {:induction false} InsertBounded<T>(x: T, s: seq<T>, key: T -> int, b: int)
    requires key(x) <= b
    requires forall i :: 0 <= i < |s| ==> key(s[i]) <= b
    ensures forall i :: 0 <= i < |Insert(x, s, key)| ==> key(Insert(x, s, key)[i]) <= b
    decreases |s|
  {
    if |s| > 0 && key(s[0]) >= key(x) {
      InsertBounded(x, s[1..], key, b);
      var rest := Insert(x, s[1..], key);
      forall i | 0 <= i < |[s[0]] + rest| ensures key(([s[0]] + rest)[i]) <= b {
        if i > 0 {
          assert ([s[0]] + rest)[i] == rest[i - 1];
        }
      }
    }
  }

  lemma {:induction false} InsertNonIncreasing<T>(x: T, s: seq<T>, key: T -> int)
    requires NonIncreasing(s, key)
    ensures NonIncreasing(Insert(x, s, key), key)
    decreases |s|
  {
    if |s| == 0 {
    } else if key(s[0]) >= key(x) {
      InsertNonIncreasing(x, s[1..], key);
      InsertBounded(x, s[1..], key, key(s[0]));
      ConsNonIncreasing(s[0], Insert(x, s[1..], key), key);
    } else {
      ConsNonIncreasing(x, s, key);
    }
  }

  /** The result is ordered by non-increasing key. */
  lemma {:induction false} SortDescendingOrdered<T>(s: seq<T>, key: T -> int)
    ensures NonIncreasing(SortDescending(s, key), key)
    decreases |s|
  {
    if |s| > 0 {
      SortDescendingOrdered(s[..|s| - 1], key);
      InsertNonIncreasing(s[|s| - 1], SortDescending(s[..|s| - 1], key), key);
    }
  }

  lemma {:induction false} WithKeyAppend<T>(a: seq<T>, b: seq<T>, key: T -> int, v: int)
    ensures WithKey(a + b, key, v) == WithKey(a, key, v) + WithKey(b, key, v)
    decreases |a|
  {
    if |a| == 0 {
      assert a + b == b;
    } else {
      var head := if key(a[0]) == v then [a[0]] else [];
      assert (a + b)[0] == a[0];
      assert (a + b)[1..] == a[1..] + b;
      assert WithKey(a + b, key, v) == head + WithKey(a[1..] + b, key, v);
      assert WithKey(a, key, v) == head + WithKey(a[1..], key, v);
      WithKeyAppend(a[1..], b, key, v);
    }
  }

  /** In a non-increasing sequence that starts below `v`, nothing has key `v`. */
  lemma {:induction false} WithKeyBelow<T>(s: seq<T>, key: T -> int, v: int)
    requires NonIncreasing(s, key)
    requires |s| > 0 && key(s[0]) < v
    ensures WithKey(s, key, v) == []
    decreases |s|
  {
    if |s| > 1 {
      WithKeyBelow(s[1..], key, v);
    }
  }

  /** Inserting into a sorted sequence puts `x` after the elements of equal key. */
  lemma {:induction false} InsertWithKey<T>(x: T, s: seq<T>, key: T -> int, v: int)
    requires NonIncreasing(s, key)
    ensures WithKey(Insert(x, s, key), key, v) == WithKey(s, key, v) + WithKey([x], key, v)
    decreases |s|
  {
    if |s| > 0 {
      if key(s[0]) >= key(x) {
        InsertWithKey(x, s[1..], key, v);
        InsertAfterHead(x, s, key, v);
      } else {
        InsertBeforeHead(x, s, key, v);
      }
    }
  }

  /** `x` goes after the head: the head's key class gains nothing before `x`. */
  lemma InsertAfterHead<T>(x: T, s: seq<T>, key: T -> int, v: int)
    requires |s| > 0 && key(s[0]) >= key(x)
    requires WithKey(Insert(x, s[1..], key), key, v) == WithKey(s[1..], key, v) + WithKey([x], key, v)
    ensures WithKey(Insert(x, s, key), key, v) == WithKey(s, key, v) + WithKey([x], key, v)
  {
    assert Insert(x, s, key) == [s[0]] + Insert(x, s[1..], key);
    ConsWithKey(s[0], Insert(x, s[1..], key), s[1..], WithKey([x], key, v), key, v);
    assert [s[0]] + s[1..] == s;
  }

  /** Putting the same head in front of two sequences keeps an equation between their
      key classes. */
  lemma ConsWithKey<T>(h: T, a: seq<T>, b: seq<T>, tail: seq<T>, key: T -> int, v: int)
    requires WithKey(a, key, v) == WithKey(b, key, v) + tail
    ensures WithKey([h] + a, key, v) == WithKey([h] + b, key, v) + tail
  {
    WithKeyAppend([h], a, key, v);
    WithKeyAppend([h], b, key, v);
  }

  /** `x` goes before a head of smaller key, so nothing of its own key follows it. */
  lemma InsertBeforeHead<T>(x: T, s: seq<T>, key: T -> int, v: int)
    requires NonIncreasing(s, key)
    requires |s| > 0 && key(s[0]) < key(x)
    ensures WithKey(Insert(x, s, key), key, v) == WithKey(s, key, v) + WithKey([x], key, v)
  {
    assert Insert(x, s, key) == [x] + s;
    WithKeyAppend([x], s, key, v);
    if key(x) == v {
      WithKeyBelow(s, key, v);
    } else {
      assert WithKey([x], key, v) == [] + WithKey([x][1..], key, v);
    }
  }

  /** The sort is stable: the elements of any one key keep their original order. */
  lemma {:induction false} SortDescendingStable<T>(s: seq<T>, key: T -> int, v: int)
    ensures WithKey(SortDescending(s, key), key, v) == WithKey(s, key, v)
    decreases |s|
  {
    if |s| > 0 {
      var init, last := s[..|s| - 1], s[|s| - 1];
      SortDescendingStable(init, key, v);
      InsertSortedWithKey(last, init, key, v);
      SortDescendingLast(s, key);
      WithKeyLast(s, key, v);
    }
  }

  lemma SortDescendingLast<T>(s: seq<T>, key: T -> int)
    requires |s| > 0
    ensures SortDescending(s, key) == Insert(s[|s| - 1], SortDescending(s[..|s| - 1], key), key)
  {
  }

  /** The key class of a sequence is that of all but its last element, then the last's. */
  lemma WithKeyLast<T>(s: seq<T>, key: T -> int, v: int)
    requires |s| > 0
    ensures WithKey(s, key, v) == WithKey(s[..|s| - 1], key, v) + WithKey([s[|s| - 1]], key, v)
  {
    assert s == s[..|s| - 1] + [s[|s| - 1]];
    WithKeyAppend(s[..|s| - 1], [s[|s| - 1]], key, v);
  }

  /** Inserting into the sorted prefix appends to the new element's key class. */
  lemma InsertSortedWithKey<T>(x: T, s: seq<T>, key: T -> int, v: int)
    ensures WithKey(Insert(x, SortDescending(s, key), key), key, v)
         == WithKey(SortDescending(s, key), key, v) + WithKey([x], key, v)
  {
    SortDescendingOrdered(s, key);
    InsertWithKey(x, SortDescending(s, key), key, v);
  }
}
