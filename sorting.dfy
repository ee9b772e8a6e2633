/** Stable sorting by a numeric key, the behaviour of Python's `sorted(xs, key=k)`
    and `list.sort(key=k)`. The model sorts by insertion; `StableSortUnique`
    shows that every stable sort (Python's own included) produces the same
    sequence, so the choice of algorithm does not matter. */
module Sorting {

  /** Inserts `x` into `s` just after the last element whose key is at most `key(x)`. */
  function Insert<T>(s: seq<T>, x: T, key: T -> real): (r: seq<T>)
    ensures |r| == |s| + 1
  {
    if s == [] then [x]
    else if key(s[|s| - 1]) <= key(x) then s + [x]
    else Insert(s[..|s| - 1], x, key) + [s[|s| - 1]]
  }

  /** Insertion adds `x` and loses nothing. */
  lemma {:induction false} InsertPermutes<T>(s: seq<T>, x: T, key: T -> real)
    ensures multiset(Insert(s, x, key)) == multiset(s) + multiset{x}
    decreases |s|
  {
    if s != [] && key(s[|s| - 1]) > key(x) {
      InsertPermutes(s[..|s| - 1], x, key);
      assert s == s[..|s| - 1] + [s[|s| - 1]];
    }
  }

  /** Insertion sort of `s` by ascending `key`. */
  function SortBy<T>(s: seq<T>, key: T -> real): (r: seq<T>)
    ensures |r| == |s|
    ensures multiset(r) == multiset(s)
  {
    if s == [] then []
    else
      assert s == s[..|s| - 1] + [s[|s| - 1]];
      var sorted := SortBy(s[..|s| - 1], key);
      InsertPermutes(sorted, s[|s| - 1], key);
      Insert(sorted, s[|s| - 1], key)
  }

  /** Insertion places `x` just after the last element whose key is at most `key(x)`: when every
      element from `j` on has a larger key and the one before `j` (if any) does not, `x` lands at `j`. */
  lemma {:induction false} InsertLandsAt<T>(s: seq<T>, x: T, key: T -> real, j: nat)
    requires j <= |s| && (j == 0 || key(s[j - 1]) <= key(x))
    requires forall k :: j <= k < |s| ==> key(s[k]) > key(x)
    ensures Insert(s, x, key) == s[..j] + [x] + s[j..]
    decreases |s|
  {
    if j == |s| {
      assert s[..j] == s && s[j..] == [];
    } else {
      var front, last := s[..|s| - 1], s[|s| - 1];
      assert key(last) > key(x);
      InsertLandsAt(front, x, key, j);
      SplitBeforeLast(s, j);
    }
  }

  lemma SplitBeforeLast<T>(s: seq<T>, j: nat)
    requires j < |s|
    ensures s[..|s| - 1][..j] == s[..j]
    ensures s[..|s| - 1][j..] + [s[|s| - 1]] == s[j..]
  {
  }

  /** Sorting one more element of `s` inserts it into the sorted prefix. */
  lemma SortByPrefix<T>(s: seq<T>, i: nat, key: T -> real)
    requires i < |s|
    ensures SortBy(s[..i + 1], key) == Insert(SortBy(s[..i], key), s[i], key)
  {
    assert s[..i + 1][..i] == s[..i];
  }

  /** Keys never decrease from left to right. */
  ghost predicate Ascending<T>(s: seq<T>, key: T -> real)
  {
    forall i, j :: 0 <= i < j < |s| ==> key(s[i]) <= key(s[j])
  }

  /** The elements of `s` whose key is `v`, in their order in `s`. */
  function WithKey<T>(s: seq<T>, key: T -> real, v: real): (r: seq<T>)
    ensures forall x :: x in r ==> x in s && key(x) == v
  {
    if s == [] then []
    else WithKey(s[..|s| - 1], key, v) + (if key(s[|s| - 1]) == v then [s[|s| - 1]] else [])
  }

  lemma {:induction false} WithKeyAppend<T>(s: seq<T>, t: seq<T>, key: T -> real, v: real)
    ensures WithKey(s + t, key, v) == WithKey(s, key, v) + WithKey(t, key, v)
    decreases |t|
  {
    if t == [] {
      assert s + t == s;
    } else {
      var t' := t[..|t| - 1];
      assert (s + t)[..|s + t| - 1] == s + t';
      WithKeyAppend(s, t', key, v);
    }
  }

  /** Inserting `x` adds it to the end of its own key class and leaves every other class alone. */
  lemma {:induction false} InsertWithKey<T>(s: seq<T>, x: T, key: T -> real, v: real)
    ensures WithKey(Insert(s, x, key), key, v) == WithKey(s, key, v) + (if key(x) == v then [x] else [])
    decreases |s|
  {
    if s == [] {
      WithKeySnoc([], x, key, v);
    } else if key(s[|s| - 1]) <= key(x) {
      WithKeySnoc(s, x, key, v);
    } else {
      var s', last := s[..|s| - 1], s[|s| - 1];
      assert s == s' + [last];
      assert Insert(s, x, key) == Insert(s', x, key) + [last];
      InsertWithKey(s', x, key, v);
      PassOverLarger(Insert(s', x, key), s', x, last, key, v);
    }
  }

  /** Passing `x` over an element of larger key keeps the classes of both in order. */
  lemma PassOverLarger<T>(ins: seq<T>, s: seq<T>, x: T, last: T, key: T -> real, v: real)
    requires key(last) > key(x)
    requires WithKey(ins, key, v) == WithKey(s, key, v) + (if key(x) == v then [x] else [])
    ensures WithKey(ins + [last], key, v) == WithKey(s + [last], key, v) + (if key(x) == v then [x] else [])
  {
    WithKeySnoc(ins, last, key, v);
    WithKeySnoc(s, last, key, v);
  }

  lemma {:induction false} InsertAscending<T>(s: seq<T>, x: T, key: T -> real)
    requires Ascending(s, key)
    ensures Ascending(Insert(s, x, key), key)
    decreases |s|
  {
    if s != [] && key(s[|s| - 1]) > key(x) {
      var s', last := s[..|s| - 1], s[|s| - 1];
      InsertAscending(s', x, key);
      var ins := Insert(s', x, key);
      InsertPermutes(s', x, key);
      forall i | 0 <= i < |ins|
        ensures key(ins[i]) <= key(last)
      {
        assert ins[i] in multiset(s') + multiset{x};
        if ins[i] in s' {
          var k :| 0 <= k < |s'| && s'[k] == ins[i];
          assert s[k] == ins[i];
        }
      }
    }
  }

  /** The insertion sort orders by key. */
  lemma {:induction false} SortByAscending<T>(s: seq<T>, key: T -> real)
    ensures Ascending(SortBy(s, key), key)
    decreases |s|
  {
    if s != [] {
      SortByAscending(s[..|s| - 1], key);
      InsertAscending(SortBy(s[..|s| - 1], key), s[|s| - 1], key);
    }
  }

  /** The insertion sort is stable: the elements of each key class keep their relative order. */
  lemma {:induction false} SortByStable<T>(s: seq<T>, key: T -> real, v: real)
    ensures WithKey(SortBy(s, key), key, v) == WithKey(s, key, v)
    decreases |s|
  {
    if s != [] {
      SortByStable(s[..|s| - 1], key, v);
      InsertWithKey(SortBy(s[..|s| - 1], key), s[|s| - 1], key, v);
    }
  }

  /** The last element of an ascending sequence has the largest key. */
  lemma LastIsLargest<T>(q: seq<T>, key: T -> real, x: T)
    requires Ascending(q, key) && x in q
    ensures key(x) <= key(q[|q| - 1])
  {
    var i :| 0 <= i < |q| && q[i] == x;
  }

  /** Two ascending sequences that agree on every key class end in an element of the same key. */
  lemma SameLastKey<T>(r: seq<T>, q: seq<T>, key: T -> real)
    requires Ascending(r, key) && Ascending(q, key) && r != []
    requires forall v :: WithKey(r, key, v) == WithKey(q, key, v)
    ensures q != [] && key(r[|r| - 1]) == key(q[|q| - 1])
  {
    var m := key(r[|r| - 1]);
    assert r[|r| - 1] in WithKey(r, key, m);
    var y := WithKey(q, key, m)[0];
    LastIsLargest(q, key, y);
    var z := q[|q| - 1];
    assert z in WithKey(q, key, key(z));
    assert z in WithKey(r, key, key(z));
    LastIsLargest(r, key, z);
  }

  lemma WithKeySnoc<T>(s: seq<T>, x: T, key: T -> real, v: real)
    ensures WithKey(s + [x], key, v) == WithKey(s, key, v) + (if key(x) == v then [x] else [])
  {
    assert (s + [x])[..|s|] == s;
  }

  lemma SnocInjective<T>(a: seq<T>, x: T, b: seq<T>, y: T)
    requires a + [x] == b + [y]
    ensures a == b && x == y
  {
    assert a == (a + [x])[..|a|];
    assert b == (b + [y])[..|b|];
    assert x == (a + [x])[|a|];
  }

  /** One key class of `r + [x]` and `q + [y]`, with `x` and `y` of one key, fixes that class of `r` and `q`. */
  lemma DropSameLastClass<T>(r: seq<T>, x: T, q: seq<T>, y: T, key: T -> real, v: real)
    requires key(x) == key(y)
    requires WithKey(r + [x], key, v) == WithKey(q + [y], key, v)
    ensures v == key(x) ==> x == y
    ensures WithKey(r, key, v) == WithKey(q, key, v)
  {
    WithKeySnoc(r, x, key, v);
    WithKeySnoc(q, y, key, v);
    if v == key(x) {
      SnocInjective(WithKey(r, key, v), x, WithKey(q, key, v), y);
    }
  }

  /** Sequences that agree on every key class and end in elements of one key end in the same
      element, and agree on every key class without it. */
  lemma DropSameLast<T>(r: seq<T>, x: T, q: seq<T>, y: T, key: T -> real)
    requires key(x) == key(y)
    requires forall v :: WithKey(r + [x], key, v) == WithKey(q + [y], key, v)
    ensures x == y
    ensures forall v :: WithKey(r, key, v) == WithKey(q, key, v)
  {
    DropSameLastClass(r, x, q, y, key, key(x));
    forall v
      ensures WithKey(r, key, v) == WithKey(q, key, v)
    {
      DropSameLastClass(r, x, q, y, key, v);
    }
  }

  /** Two ascending sequences that agree on every key class are equal. */
  lemma {:induction false} AscendingClassesDetermine<T>(r: seq<T>, q: seq<T>, key: T -> real)
    requires Ascending(r, key) && Ascending(q, key)
    requires forall v :: WithKey(r, key, v) == WithKey(q, key, v)
    ensures r == q
    decreases |r|
  {
    if r != [] {
      SameLastKey(r, q, key);
      var r', q' := r[..|r| - 1], q[..|q| - 1];
      assert r == r' + [r[|r| - 1]] && q == q' + [q[|q| - 1]];
      DropSameLast(r', r[|r| - 1], q', q[|q| - 1], key);
      AscendingClassesDetermine(r', q', key);
    } else if q != [] {
      SameLastKey(q, r, key);
    }
  }

  /** Any stable sort of `s` by `key` is the insertion sort of `s`. */
  lemma StableSortUnique<T>(s: seq<T>, r: seq<T>, key: T -> real)
    requires Ascending(r, key)
    requires forall v :: WithKey(r, key, v) == WithKey(s, key, v)
    ensures r == SortBy(s, key)
  {
    SortByAscending(s, key);
    forall v
      ensures WithKey(r, key, v) == WithKey(SortBy(s, key), key, v)
    {
      SortByStable(s, key, v);
    }
    AscendingClassesDetermine(r, SortBy(s, key), key);
  }
}
