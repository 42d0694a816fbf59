/** Stable insertion sort by a key, as Python's `sorted` orders. */
module StableSort {
  /** Insert `x` after every element whose key is no greater. */
  function InsertBy<T>(key: T -> nat, x: T, xs: seq<T>): seq<T> {
    if xs == [] then [x]
    else if key(x) < key(xs[|xs| - 1]) then InsertBy(key, x, xs[..|xs| - 1]) + [xs[|xs| - 1]]
    else xs + [x]
  }

  function SortBy<T>(key: T -> nat, xs: seq<T>): seq<T> {
    if xs == [] then [] else InsertBy(key, xs[|xs| - 1], SortBy(key, xs[..|xs| - 1]))
  }

  predicate Ascending<T>(key: T -> nat, xs: seq<T>) {
    forall i, j :: 0 <= i < j < |xs| ==> key(xs[i]) <= key(xs[j])
  }

  /** The elements with key `k`, in the order given. */
  function AtKey<T>(key: T -> nat, xs: seq<T>, k: nat): seq<T> {
    if xs == [] then []
    else AtKey(key, xs[..|xs| - 1], k) + (if key(xs[|xs| - 1]) == k then [xs[|xs| - 1]] else [])
  }

  lemma {:induction false} InsertAdds<T>(key: T -> nat, x: T, xs: seq<T>)
    ensures multiset(InsertBy(key, x, xs)) == multiset(xs) + multiset{x}
  {
    if xs != [] && key(x) < key(xs[|xs| - 1]) {
      InsertAdds(key, x, xs[..|xs| - 1]);
      assert xs == xs[..|xs| - 1] + [xs[|xs| - 1]];
    }
  }

  lemma {:induction false} InsertKeepsBound<T>(key: T -> nat, x: T, xs: seq<T>, bound: nat)
    requires key(x) <= bound && forall i :: 0 <= i < |xs| ==> key(xs[i]) <= bound
    ensures forall i :: 0 <= i < |InsertBy(key, x, xs)| ==> key(InsertBy(key, x, xs)[i]) <= bound
  {
    if xs != [] && key(x) < key(xs[|xs| - 1]) {
      InsertKeepsBound(key, x, xs[..|xs| - 1], bound);
    }
  }

  lemma {:induction false} InsertKeepsOrder<T>(key: T -> nat, x: T, xs: seq<T>)
    requires Ascending(key, xs)
    ensures Ascending(key, InsertBy(key, x, xs))
  {
    if xs != [] && key(x) < key(xs[|xs| - 1]) {
      var front, last := xs[..|xs| - 1], xs[|xs| - 1];
      InsertKeepsOrder(key, x, front);
      InsertKeepsBound(key, x, front, key(last));
    }
  }

  lemma {:induction false} InsertIsStable<T>(key: T -> nat, x: T, xs: seq<T>, k: nat)
    requires Ascending(key, xs)
    ensures AtKey(key, InsertBy(key, x, xs), k) == AtKey(key, xs, k) + (if key(x) == k then [x] else [])
  {
    hide AtKey;
    if xs != [] && key(x) < key(xs[|xs| - 1]) {
      var front, last := xs[..|xs| - 1], xs[|xs| - 1];
      assert xs == front + [last];
      InsertIsStable(key, x, front, k);
      AtKeyPush(key, front, last, k);
      AtKeyPush(key, InsertBy(key, x, front), last, k);
    } else {
      AtKeyPush(key, xs, x, k);
      if xs == [] { assert xs + [x] == [x]; }
    }
  }

  lemma AtKeyPush<T>(key: T -> nat, xs: seq<T>, x: T, k: nat)
    ensures AtKey(key, xs + [x], k) == AtKey(key, xs, k) + (if key(x) == k then [x] else [])
  {
    assert (xs + [x])[..|xs|] == xs;
  }

  /** The result is in ascending key order, a permutation, and keeps equal keys in the order given. */
  lemma {:induction false} Sorts<T>(key: T -> nat, xs: seq<T>)
    ensures Ascending(key, SortBy(key, xs))
    ensures multiset(SortBy(key, xs)) == multiset(xs)
    ensures forall k: nat :: AtKey(key, SortBy(key, xs), k) == AtKey(key, xs, k)
  {
    if xs != [] {
      var front, last := xs[..|xs| - 1], xs[|xs| - 1];
      assert xs == front + [last];
      Sorts(key, front);
      InsertKeepsOrder(key, last, SortBy(key, front));
      InsertAdds(key, last, SortBy(key, front));
      forall k: nat ensures AtKey(key, SortBy(key, xs), k) == AtKey(key, xs, k) {
        InsertIsStable(key, last, SortBy(key, front), k);
      }
    }
  }

  // The last of an ascending sequence has the greatest key.
  lemma LastIsGreatest<T>(key: T -> nat, xs: seq<T>, x: T)
    requires Ascending(key, xs) && x in multiset(xs)
    ensures xs != [] && key(x) <= key(xs[|xs| - 1])
  {
    assert x in xs;
  }

  lemma DropLast<T>(xs: seq<T>)
    requires xs != []
    ensures multiset(xs[..|xs| - 1]) == multiset(xs) - multiset{xs[|xs| - 1]}
    ensures xs[|xs| - 1] in multiset(xs)
  {
    assert xs == xs[..|xs| - 1] + [xs[|xs| - 1]];
  }

  /** No two different elements share a key. */
  predicate Injective<T(!new)>(key: T -> nat, xs: multiset<T>) {
    forall x, y :: x in xs && y in xs && key(x) == key(y) ==> x == y
  }

  /** Ascending sequences of the same elements, no two of which share a key, are equal. */
  lemma {:induction false} AscendingUnique<T(!new)>(key: T -> nat, xs: seq<T>, ys: seq<T>)
    requires Ascending(key, xs) && Ascending(key, ys) && multiset(xs) == multiset(ys)
    requires Injective(key, multiset(xs))
    ensures xs == ys
  {
    hide Ascending, Injective;
    if xs != [] {
      var a := xs[|xs| - 1];
      DropLast(xs);
      LastIsGreatest(key, ys, a);
      DropLast(ys);
      SameLast(key, xs, ys);
      AscendingFront(key, xs);
      AscendingFront(key, ys);
      InjectiveFewer(key, multiset(xs), multiset(xs) - multiset{a});
      AscendingUnique(key, xs[..|xs| - 1], ys[..|ys| - 1]);
      Rebuilt(xs);
      Rebuilt(ys);
    } else if ys != [] {
      DropLast(ys);
    }
  }

  lemma SameLast<T(!new)>(key: T -> nat, xs: seq<T>, ys: seq<T>)
    requires Ascending(key, xs) && Ascending(key, ys) && multiset(xs) == multiset(ys) && xs != [] && ys != []
    requires Injective(key, multiset(xs))
    ensures xs[|xs| - 1] == ys[|ys| - 1]
  {
    hide Ascending;
    DropLast(xs);
    DropLast(ys);
    LastIsGreatest(key, ys, xs[|xs| - 1]);
    LastIsGreatest(key, xs, ys[|ys| - 1]);
  }

  lemma AscendingFront<T>(key: T -> nat, xs: seq<T>)
    requires Ascending(key, xs) && xs != []
    ensures Ascending(key, xs[..|xs| - 1])
  {
  }

  lemma InjectiveFewer<T(!new)>(key: T -> nat, xs: multiset<T>, ys: multiset<T>)
    requires Injective(key, xs) && ys <= xs
    ensures Injective(key, ys)
  {
  }

  lemma Rebuilt<T>(xs: seq<T>)
    requires xs != []
    ensures xs == xs[..|xs| - 1] + [xs[|xs| - 1]]
  {
  }

  function Map<T, U>(f: T -> U, xs: seq<T>): seq<U> {
    seq(|xs|, i requires 0 <= i < |xs| => f(xs[i]))
  }

  lemma MapAppend<T, U>(f: T -> U, xs: seq<T>, ys: seq<T>)
    ensures Map(f, xs + ys) == Map(f, xs) + Map(f, ys)
  {
  }

  lemma MapOne<T, U>(f: T -> U, x: T)
    ensures Map(f, [x]) == [f(x)]
  {
  }

  lemma {:induction false} InsertMaps<T, U>(key: T -> nat, f: T -> U, x: T, xs: seq<T>)
    ensures multiset(Map(f, InsertBy(key, x, xs))) == multiset(Map(f, xs)) + multiset{f(x)}
  {
    hide Map;
    MapOne(f, x);
    if xs != [] && key(x) < key(xs[|xs| - 1]) {
      var front, last := xs[..|xs| - 1], xs[|xs| - 1];
      InsertMaps(key, f, x, front);
      assert xs == front + [last];
      MapOne(f, last);
      MapAppend(f, front, [last]);
      MapAppend(f, InsertBy(key, x, front), [last]);
    } else {
      MapAppend(f, xs, [x]);
      if xs == [] { assert xs + [x] == [x]; }
    }
  }

  /** What is read off the sorted elements is what is read off the elements, rearranged. */
  lemma {:induction false} SortMaps<T, U>(key: T -> nat, f: T -> U, xs: seq<T>)
    ensures multiset(Map(f, SortBy(key, xs))) == multiset(Map(f, xs))
  {
    hide Map;
    if xs != [] {
      var front, last := xs[..|xs| - 1], xs[|xs| - 1];
      assert xs == front + [last];
      SortMaps(key, f, front);
      InsertMaps(key, f, last, SortBy(key, front));
      MapOne(f, last);
      MapAppend(f, front, [last]);
    }
  }
}
