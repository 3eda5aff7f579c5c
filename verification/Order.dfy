/** Lexicographic order on strings and on tuples of strings, and stable sorting by a key. */
module Order {

  predicate StrLe(a: string, b: string) {
    |a| == 0 || (|b| > 0 && (a[0] < b[0] || (a[0] == b[0] && StrLe(a[1..], b[1..]))))
  }

  lemma {:induction false} StrTotal(a: string, b: string)
    ensures StrLe(a, b) || StrLe(b, a)
    ensures StrLe(a, b) && StrLe(b, a) ==> a == b
  {
    if |a| > 0 && |b| > 0 && a[0] == b[0] {
      StrTotal(a[1..], b[1..]);
      assert a == [a[0]] + a[1..] && b == [b[0]] + b[1..];
    }
  }

  lemma {:induction false} StrTransitive(a: string, b: string, c: string)
    requires StrLe(a, b) && StrLe(b, c)
    ensures StrLe(a, c)
  {
    if |a| > 0 && a[0] == b[0] == c[0] { StrTransitive(a[1..], b[1..], c[1..]); }
  }

  /** The order of dictionaries: one string begins the other, or is smaller where they first
      differ. */
  lemma {:induction false} StrLeMeans(a: string, b: string)
    ensures StrLe(a, b) <==>
      a <= b || exists k | 0 <= k < |a| && k < |b| :: a[..k] == b[..k] && a[k] < b[k]
  {
    if |a| > 0 && |b| > 0 && a[0] == b[0] {
      StrLeMeans(a[1..], b[1..]);
      assert a == [a[0]] + a[1..] && b == [b[0]] + b[1..];
      if k :| 0 <= k < |a| && k < |b| && a[..k] == b[..k] && a[k] < b[k] {
        assert k > 0;
        assert a[1..][..k - 1] == a[..k][1..] && b[1..][..k - 1] == b[..k][1..];
      }
      if k :| 0 <= k < |a[1..]| && k < |b[1..]| && a[1..][..k] == b[1..][..k] && a[1..][k] < b[1..][k] {
        assert a[..k + 1] == [a[0]] + a[1..][..k] && b[..k + 1] == [b[0]] + b[1..][..k];
        assert a[k + 1] < b[k + 1];
      }
    } else if |a| > 0 && |b| > 0 {
      if a[0] < b[0] { assert a[..0] == b[..0]; }
      forall k | 0 < k < |a| && k < |b| ensures a[..k] != b[..k] {
        assert a[..k][0] == a[0] && b[..k][0] == b[0];
      }
    }
  }

  /** A tuple of strings, compared element by element. */
  type Key = seq<string>

  predicate KeyLe(a: Key, b: Key) {
    |a| == 0 ||
    (|b| > 0 && StrLe(a[0], b[0]) && (a[0] == b[0] ==> KeyLe(a[1..], b[1..])))
  }

  lemma {:induction false} KeyTotal(a: Key, b: Key)
    ensures KeyLe(a, b) || KeyLe(b, a)
    ensures KeyLe(a, b) && KeyLe(b, a) ==> a == b
  {
    if |a| > 0 && |b| > 0 {
      StrTotal(a[0], b[0]);
      KeyTotal(a[1..], b[1..]);
      assert a == [a[0]] + a[1..] && b == [b[0]] + b[1..];
    }
  }

  lemma {:induction false} KeyTransitive(a: Key, b: Key, c: Key)
    requires KeyLe(a, b) && KeyLe(b, c)
    ensures KeyLe(a, c)
  {
    if |a| > 0 {
      StrTransitive(a[0], b[0], c[0]);
      if a[0] == c[0] {
        StrTotal(a[0], b[0]);
        KeyTransitive(a[1..], b[1..], c[1..]);
      }
    }
  }

  predicate Ordered<T>(xs: seq<T>, key: T -> Key) {
    forall i, j | 0 <= i < j < |xs| :: KeyLe(key(xs[i]), key(xs[j]))
  }

  /** Behind every element whose key is not greater: equal keys keep their order. */
  function Insert<T>(xs: seq<T>, x: T, key: T -> Key): (r: seq<T>)
    ensures |r| == |xs| + 1
  {
    if |xs| == 0 then [x]
    else if KeyLe(key(xs[|xs| - 1]), key(x)) then xs + [x]
    else Insert(xs[..|xs| - 1], x, key) + [xs[|xs| - 1]]
  }

  function SortBy<T>(xs: seq<T>, key: T -> Key): (r: seq<T>)
    ensures |r| == |xs|
  {
    if |xs| == 0 then [] else Insert(SortBy(xs[..|xs| - 1], key), xs[|xs| - 1], key)
  }

  lemma {:induction false} InsertHolds<T>(xs: seq<T>, x: T, key: T -> Key)
    ensures multiset(Insert(xs, x, key)) == multiset(xs) + multiset{x}
  {
    if |xs| > 0 && !KeyLe(key(xs[|xs| - 1]), key(x)) {
      InsertHolds(xs[..|xs| - 1], x, key);
      assert xs == xs[..|xs| - 1] + [xs[|xs| - 1]];
    }
  }

  lemma {:induction false} InsertOrders<T>(xs: seq<T>, x: T, key: T -> Key)
    requires Ordered(xs, key)
    ensures Ordered(Insert(xs, x, key), key)
  {
    var n := |xs|;
    if n > 0 {
      var last := xs[n - 1];
      KeyTotal(key(last), key(x));
      if KeyLe(key(last), key(x)) {
        forall i | 0 <= i < n ensures KeyLe(key(xs[i]), key(x)) {
          if i < n - 1 { KeyTransitive(key(xs[i]), key(last), key(x)); }
        }
      } else {
        var init := Insert(xs[..n - 1], x, key);
        InsertOrders(xs[..n - 1], x, key);
        InsertHolds(xs[..n - 1], x, key);
        forall i | 0 <= i < n ensures KeyLe(key(init[i]), key(last)) {
          assert init[i] in multiset(init);
          assert init[i] == x || init[i] in multiset(xs[..n - 1]);
        }
      }
    }
  }

  /** The result is an ordered permutation of the input. */
  lemma {:induction false} SortByOrders<T>(xs: seq<T>, key: T -> Key)
    ensures Ordered(SortBy(xs, key), key)
    ensures multiset(SortBy(xs, key)) == multiset(xs)
  {
    if |xs| > 0 {
      var init := xs[..|xs| - 1];
      SortByOrders(init, key);
      InsertOrders(SortBy(init, key), xs[|xs| - 1], key);
      InsertHolds(SortBy(init, key), xs[|xs| - 1], key);
      assert xs == init + [xs[|xs| - 1]];
    }
  }

  /** The key tells any two elements of the sequence apart, except equal ones. */
  ghost predicate Discerns<T(!new)>(xs: multiset<T>, key: T -> Key) {
    forall x, y | x in xs && y in xs && key(x) == key(y) :: x == y
  }

  lemma LastsAgree<T(!new)>(xs: seq<T>, ys: seq<T>, key: T -> Key)
    requires |xs| > 0 && multiset(xs) == multiset(ys) && Discerns(multiset(xs), key)
    requires Ordered(xs, key) && Ordered(ys, key)
    ensures |ys| == |xs| && xs[|xs| - 1] == ys[|ys| - 1]
  {
    assert |multiset(ys)| == |multiset(xs)|;
    var x, y := xs[|xs| - 1], ys[|ys| - 1];
    assert x in multiset(ys) && y in multiset(xs);
    LastIsGreatest(ys, x, key);
    LastIsGreatest(xs, y, key);
    KeyTotal(key(x), key(y));
  }

  lemma WithoutLast<T>(xs: seq<T>)
    requires |xs| > 0
    ensures multiset(xs[..|xs| - 1]) == multiset(xs) - multiset{xs[|xs| - 1]}
  {
    assert xs == xs[..|xs| - 1] + [xs[|xs| - 1]];
  }

  /** Two ordered sequences of the same elements are the same when the key discerns them. */
  lemma {:induction false} OrderedUnique<T(!new)>(xs: seq<T>, ys: seq<T>, key: T -> Key)
    requires multiset(xs) == multiset(ys) && Discerns(multiset(xs), key)
    requires Ordered(xs, key) && Ordered(ys, key)
    ensures xs == ys
  {
    hide Ordered, Discerns;
    if |xs| == 0 {
      assert |multiset(ys)| == 0;
    } else {
      LastsAgree(xs, ys, key);
      InitsAgree(xs, ys, key);
      InitOrdered(xs, key);
      InitOrdered(ys, key);
      OrderedUnique(xs[..|xs| - 1], ys[..|ys| - 1], key);
      SameWithLast(xs, ys);
    }
  }

  lemma SameWithLast<T>(xs: seq<T>, ys: seq<T>)
    requires 0 < |xs| == |ys| && xs[|xs| - 1] == ys[|ys| - 1]
    requires xs[..|xs| - 1] == ys[..|ys| - 1]
    ensures xs == ys
  {
    assert xs == xs[..|xs| - 1] + [xs[|xs| - 1]];
    assert ys == ys[..|ys| - 1] + [ys[|ys| - 1]];
  }

  lemma InitOrdered<T>(xs: seq<T>, key: T -> Key)
    requires |xs| > 0 && Ordered(xs, key)
    ensures Ordered(xs[..|xs| - 1], key)
  {
  }

  lemma InitsAgree<T(!new)>(xs: seq<T>, ys: seq<T>, key: T -> Key)
    requires 0 < |xs| == |ys| && xs[|xs| - 1] == ys[|ys| - 1]
    requires multiset(xs) == multiset(ys) && Discerns(multiset(xs), key)
    ensures multiset(xs[..|xs| - 1]) == multiset(ys[..|ys| - 1])
    ensures Discerns(multiset(xs[..|xs| - 1]), key)
  {
    WithoutLast(xs);
    WithoutLast(ys);
  }

  lemma LastIsGreatest<T>(xs: seq<T>, x: T, key: T -> Key)
    requires Ordered(xs, key) && x in xs
    ensures KeyLe(key(x), key(xs[|xs| - 1]))
  {
    KeyTotal(key(x), key(x));
  }

  /** Sorting forgets the order of its input wherever the key discerns the elements. */
  lemma SortByForgetsOrder<T(!new)>(xs: seq<T>, ys: seq<T>, key: T -> Key)
    requires multiset(xs) == multiset(ys) && Discerns(multiset(xs), key)
    ensures SortBy(xs, key) == SortBy(ys, key)
  {
    SortByOrders(xs, key);
    SortByOrders(ys, key);
    OrderedUnique(SortBy(xs, key), SortBy(ys, key), key);
  }

  function Map<T, U>(f: T -> U, xs: seq<T>): (r: seq<U>)
    ensures |r| == |xs| && forall i | 0 <= i < |xs| :: r[i] == f(xs[i])
  {
    seq(|xs|, i requires 0 <= i < |xs| => f(xs[i]))
  }

  lemma RemoveAt<T>(xs: seq<T>, k: nat)
    requires k < |xs|
    ensures multiset(xs) == multiset(xs[..k] + xs[k + 1..]) + multiset{xs[k]}
  {
    assert xs == xs[..k] + [xs[k]] + xs[k + 1..];
  }

  lemma CancelOne<T(!new)>(m: multiset<T>, n: multiset<T>, x: T)
    requires m + multiset{x} == n + multiset{x}
    ensures m == n
  {
    forall e: T ensures m[e] == n[e] {
      assert (m + multiset{x})[e] == (n + multiset{x})[e];
    }
  }

  lemma MapRemoveAt<T, U>(f: T -> U, xs: seq<T>, k: nat)
    requires k < |xs|
    ensures multiset(Map(f, xs)) == multiset(Map(f, xs[..k] + xs[k + 1..])) + multiset{f(xs[k])}
  {
    RemoveAt(Map(f, xs), k);
    assert Map(f, xs[..k] + xs[k + 1..]) == Map(f, xs)[..k] + Map(f, xs)[k + 1..];
  }

  /** Mapping a permutation yields a permutation. */
  lemma {:induction false} MapPermutes<T(!new), U>(f: T -> U, xs: seq<T>, ys: seq<T>)
    requires multiset(xs) == multiset(ys)
    ensures multiset(Map(f, xs)) == multiset(Map(f, ys))
    decreases |xs|
  {
    hide Map;
    if |xs| == 0 {
      assert |multiset(ys)| == 0;
      assert xs == ys;
    } else {
      var k := Matching(xs, ys);
      MapPermutes(f, xs[..0] + xs[1..], ys[..k] + ys[k + 1..]);
      MapRemoveAt(f, xs, 0);
      MapRemoveAt(f, ys, k);
    }
  }

  /** The first element of a sequence, found and removed in a permutation of it. */
  lemma Matching<T(!new)>(xs: seq<T>, ys: seq<T>) returns (k: nat)
    requires |xs| > 0 && multiset(xs) == multiset(ys)
    ensures k < |ys| && ys[k] == xs[0]
    ensures multiset(xs[..0] + xs[1..]) == multiset(ys[..k] + ys[k + 1..])
  {
    assert xs[0] in multiset(ys);
    k :| 0 <= k < |ys| && ys[k] == xs[0];
    RemoveAt(xs, 0);
    RemoveAt(ys, k);
    CancelOne(multiset(xs[..0] + xs[1..]), multiset(ys[..k] + ys[k + 1..]), xs[0]);
  }
}
