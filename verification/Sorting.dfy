/** The ORDER BY of the repositories and Python's `sorted`: a stable sort on a
    two-part key, with the fact that distinct keys leave only one sorted order. */
module Sorting {
  type Key = (int, int)

  predicate Le(a: Key, b: Key) {
    a.0 < b.0 || (a.0 == b.0 && a.1 <= b.1)
  }

  function Insert<T>(x: T, xs: seq<T>, key: T -> Key): seq<T> {
    if xs == [] then [x]
    else if Le(key(x), key(xs[0])) then [x] + xs
    else [xs[0]] + Insert(x, xs[1..], key)
  }

  /** Sorts by ascending key; rows with equal keys keep their order. */
  function By<T>(xs: seq<T>, key: T -> Key): seq<T> {
    if xs == [] then [] else Insert(xs[0], By(xs[1..], key), key)
  }

  ghost predicate Ordered<T>(xs: seq<T>, key: T -> Key) {
    forall i, j :: 0 <= i < j < |xs| ==> Le(key(xs[i]), key(xs[j]))
  }

  /** The key tells any two rows of `xs` apart. */
  ghost predicate KeyedApart<T>(xs: seq<T>, key: T -> Key) {
    forall i, j :: 0 <= i < j < |xs| ==> key(xs[i]) != key(xs[j])
  }

  lemma OrderedCons<T>(x: T, xs: seq<T>, key: T -> Key)
    requires Ordered(xs, key)
    requires forall y :: y in xs ==> Le(key(x), key(y))
    ensures Ordered([x] + xs, key)
  {
    var all := [x] + xs;
    forall i, j | 0 <= i < j < |all| ensures Le(key(all[i]), key(all[j])) {
      assert all[j] == xs[j - 1];
      if i > 0 { assert all[i] == xs[i - 1]; }
    }
  }

  lemma OrderedTail<T>(xs: seq<T>, key: T -> Key)
    requires xs != [] && Ordered(xs, key)
    ensures Ordered(xs[1..], key)
    ensures forall y :: y in xs ==> Le(key(xs[0]), key(y))
  {
    forall y | y in xs ensures Le(key(xs[0]), key(y)) {
      var j :| 0 <= j < |xs| && xs[j] == y;
      if j > 0 { assert Le(key(xs[0]), key(xs[j])); }
    }
    forall i, j | 0 <= i < j < |xs[1..]| ensures Le(key(xs[1..][i]), key(xs[1..][j])) {
      assert xs[1..][i] == xs[i + 1] && xs[1..][j] == xs[j + 1];
    }
  }

  lemma {:induction false} InsertMultiset<T>(x: T, xs: seq<T>, key: T -> Key)
    ensures multiset(Insert(x, xs, key)) == multiset(xs) + multiset{x}
  {
    if xs != [] && !Le(key(x), key(xs[0])) {
      InsertMultiset(x, xs[1..], key);
      assert xs == [xs[0]] + xs[1..];
    }
  }

  lemma {:induction false} InsertKeepsOrder<T>(x: T, xs: seq<T>, key: T -> Key)
    requires Ordered(xs, key)
    ensures Ordered(Insert(x, xs, key), key)
  {
    if xs != [] {
      OrderedTail(xs, key);
      if Le(key(x), key(xs[0])) {
        OrderedCons(x, xs, key);
      } else {
        var rest := Insert(x, xs[1..], key);
        InsertKeepsOrder(x, xs[1..], key);
        InsertMultiset(x, xs[1..], key);
        forall y | y in rest ensures Le(key(xs[0]), key(y)) {
          assert y in multiset(rest);
        }
        OrderedCons(xs[0], rest, key);
      }
    }
  }

  lemma {:induction false} BySorts<T>(xs: seq<T>, key: T -> Key)
    ensures Ordered(By(xs, key), key)
    ensures multiset(By(xs, key)) == multiset(xs)
  {
    if xs != [] {
      BySorts(xs[1..], key);
      InsertKeepsOrder(xs[0], By(xs[1..], key), key);
      InsertMultiset(xs[0], By(xs[1..], key), key);
      assert xs == [xs[0]] + xs[1..];
    }
  }

  lemma MultisetMember<T>(xs: seq<T>, ys: seq<T>, x: T)
    requires multiset(xs) == multiset(ys)
    ensures x in xs <==> x in ys
  {
    assert x in xs <==> x in multiset(xs);
    assert x in ys <==> x in multiset(ys);
  }

  lemma SameHead<T>(xs: seq<T>, ys: seq<T>, key: T -> Key)
    requires Ordered(xs, key) && Ordered(ys, key)
    requires multiset(xs) == multiset(ys) && xs != [] && ys != []
    requires KeyedApart(xs, key)
    ensures xs[0] == ys[0]
  {
    MultisetMember(xs, ys, xs[0]);
    MultisetMember(xs, ys, ys[0]);
    OrderedTail(xs, key);
    OrderedTail(ys, key);
    var i :| 0 <= i < |xs| && xs[i] == ys[0];
    assert key(xs[0]) == key(xs[i]);
  }

  /** Two sorted arrangements of the same rows are the same list when keys differ. */
  lemma {:induction false} OrderedIsUnique<T>(xs: seq<T>, ys: seq<T>, key: T -> Key)
    requires Ordered(xs, key) && Ordered(ys, key)
    requires multiset(xs) == multiset(ys)
    requires KeyedApart(xs, key)
    ensures xs == ys
  {
    assert |xs| == |multiset(xs)| == |multiset(ys)| == |ys|;
    if xs != [] {
      SameHead(xs, ys, key);
      OrderedTail(xs, key);
      OrderedTail(ys, key);
      assert xs == [xs[0]] + xs[1..] && ys == [ys[0]] + ys[1..];
      assert multiset(xs[1..]) == multiset(xs) - multiset{xs[0]};
      assert multiset(ys[1..]) == multiset(ys) - multiset{xs[0]};
      TailKeyedApart(xs, key);
      OrderedIsUnique(xs[1..], ys[1..], key);
    }
  }

  lemma TailKeyedApart<T>(xs: seq<T>, key: T -> Key)
    requires xs != [] && KeyedApart(xs, key)
    ensures KeyedApart(xs[1..], key)
  {
    forall i, j | 0 <= i < j < |xs[1..]| ensures key(xs[1..][i]) != key(xs[1..][j]) {
      assert xs[1..][i] == xs[i + 1] && xs[1..][j] == xs[j + 1];
    }
  }
}
