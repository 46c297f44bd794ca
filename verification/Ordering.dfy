/** Sorting by a strict order, and Go's byte-wise string order. */
module Ordering {
  import opened Prelude

  ghost predicate StrictTotal<T(!new)>(less: (T, T) -> bool, s: seq<T>) {
    && (forall x :: x in s ==> !less(x, x))
    && (forall x, y :: x in s && y in s && x != y ==> less(x, y) || less(y, x))
    && (forall x, y, z :: x in s && y in s && z in s && less(x, y) && less(y, z) ==> less(x, z))
  }

  ghost predicate StrictlySorted<T>(less: (T, T) -> bool, s: seq<T>) {
    forall i, j :: 0 <= i < j < |s| ==> less(s[i], s[j])
  }

  function Insert<T>(less: (T, T) -> bool, x: T, s: seq<T>): seq<T> {
    if s == [] then [x]
    else if less(x, s[0]) then [x] + s
    else [s[0]] + Insert(less, x, s[1..])
  }

  function Sort<T>(less: (T, T) -> bool, s: seq<T>): seq<T> {
    if s == [] then [] else Insert(less, s[|s| - 1], Sort(less, s[..|s| - 1]))
  }

  lemma {:induction false} InsertKeeps<T>(less: (T, T) -> bool, x: T, s: seq<T>)
    ensures multiset(Insert(less, x, s)) == multiset(s) + multiset{x}
    ensures |Insert(less, x, s)| == |s| + 1
  {
    if s != [] {
      assert s == [s[0]] + s[1..];
      if !less(x, s[0]) {
        InsertKeeps(less, x, s[1..]);
      }
    }
  }

  lemma {:induction false} SortPermutes<T>(less: (T, T) -> bool, s: seq<T>)
    ensures multiset(Sort(less, s)) == multiset(s)
    ensures |Sort(less, s)| == |s|
    ensures forall x :: x in Sort(less, s) <==> x in s
  {
    if s != [] {
      var n := |s| - 1;
      SortPermutes(less, s[..n]);
      InsertKeeps(less, s[n], Sort(less, s[..n]));
      assert s == s[..n] + [s[n]];
    }
    assert forall x :: x in Sort(less, s) <==> x in multiset(Sort(less, s));
    assert forall x :: x in s <==> x in multiset(s);
  }

  lemma TotalOnPart<T(!new)>(less: (T, T) -> bool, s: seq<T>, t: seq<T>)
    requires StrictTotal(less, s) && forall y :: y in t ==> y in s
    ensures StrictTotal(less, t)
  {
  }

  lemma Compare<T(!new)>(less: (T, T) -> bool, s: seq<T>, x: T, y: T)
    requires StrictTotal(less, s) && x in s && y in s
    ensures less(x, y) <==> x != y && !less(y, x)
  {
  }

  lemma Chain<T(!new)>(less: (T, T) -> bool, s: seq<T>, x: T, y: T, z: T)
    requires StrictTotal(less, s) && x in s && y in s && z in s && less(x, y) && less(y, z)
    ensures less(x, z)
  {
  }

  lemma {:induction false} InsertSorts<T(!new)>(less: (T, T) -> bool, x: T, s: seq<T>)
    requires StrictlySorted(less, s) && StrictTotal(less, s + [x]) && x !in s
    ensures StrictlySorted(less, Insert(less, x, s))
  {
    hide StrictTotal;
    if s != [] {
      var all := s + [x];
      Compare(less, all, x, s[0]);
      if less(x, s[0]) {
        forall j | 0 <= j < |s| ensures less(x, s[j]) {
          if j > 0 {
            Chain(less, all, x, s[0], s[j]);
          }
        }
      } else {
        TotalOnPart(less, all, s[1..] + [x]);
        InsertSorts(less, x, s[1..]);
        InsertKeeps(less, x, s[1..]);
        var t := Insert(less, x, s[1..]);
        forall j | 0 <= j < |t| ensures less(s[0], t[j]) {
          assert t[j] in multiset(t);
          assert t[j] == x || t[j] in s[1..];
        }
      }
    }
  }

  lemma {:induction false} SortSorts<T(!new)>(less: (T, T) -> bool, s: seq<T>)
    requires Distinct(s) && StrictTotal(less, s)
    ensures StrictlySorted(less, Sort(less, s))
  {
    if s != [] {
      var n := |s| - 1;
      SortSorts(less, s[..n]);
      SortPermutes(less, s[..n]);
      var t := Sort(less, s[..n]);
      assert forall y :: y in t + [s[n]] ==> y in s;
      InsertSorts(less, s[n], t);
    }
  }

  lemma TailOf<T>(xs: seq<T>)
    requires xs != []
    ensures multiset(xs[1..]) == multiset(xs) - multiset{xs[0]}
  {
    assert xs == [xs[0]] + xs[1..];
  }

  lemma HeadsAgree<T(!new)>(less: (T, T) -> bool, xs: seq<T>, ys: seq<T>)
    requires StrictTotal(less, xs) && StrictlySorted(less, xs) && StrictlySorted(less, ys)
    requires multiset(xs) == multiset(ys) && xs != [] && ys != []
    ensures xs[0] == ys[0]
  {
    hide StrictTotal;
    assert xs[0] in multiset(ys) && ys[0] in multiset(xs);
    var i :| 0 <= i < |ys| && ys[i] == xs[0];
    var j :| 0 <= j < |xs| && xs[j] == ys[0];
    Compare(less, xs, xs[0], ys[0]);
  }

  /** A strictly sorted arrangement is unique, so any correct sort gives this one. */
  lemma {:induction false} SortedUnique<T(!new)>(less: (T, T) -> bool, xs: seq<T>, ys: seq<T>)
    requires StrictTotal(less, xs) && StrictlySorted(less, xs) && StrictlySorted(less, ys)
    requires multiset(xs) == multiset(ys)
    ensures xs == ys
  {
    hide StrictTotal;
    assert |multiset(xs)| == |xs| && |multiset(ys)| == |ys|;
    if xs != [] {
      HeadsAgree(less, xs, ys);
      TailOf(xs);
      TailOf(ys);
      TotalOnPart(less, xs, xs[1..]);
      SortedUnique(less, xs[1..], ys[1..]);
    }
  }

  lemma SortedIsSort<T(!new)>(less: (T, T) -> bool, s: seq<T>)
    requires StrictTotal(less, s) && StrictlySorted(less, s)
    ensures Sort(less, s) == s
  {
    assert Distinct(s) by {
      forall i, j | 0 <= i < j < |s| ensures s[i] != s[j] {
        assert less(s[i], s[j]) && s[i] in s;
      }
    }
    SortSorts(less, s);
    SortPermutes(less, s);
    SortedUnique(less, s, Sort(less, s));
  }

  // ------------------------------------------------------------------------
  // Values that compare as neither before nor after each other

  ghost predicate WeakOrder<T(!new)>(less: (T, T) -> bool) {
    && (forall x, y :: less(x, y) ==> !less(y, x))
    && (forall x, y, z :: !less(y, x) && !less(z, y) ==> !less(z, x))
  }

  /** Nothing stands after something it is less than. */
  ghost predicate NoneBefore<T>(less: (T, T) -> bool, s: seq<T>) {
    forall i, j :: 0 <= i < j < |s| ==> !less(s[j], s[i])
  }

  lemma {:induction false} InsertWeakly<T(!new)>(less: (T, T) -> bool, x: T, s: seq<T>)
    requires WeakOrder(less) && NoneBefore(less, s)
    ensures NoneBefore(less, Insert(less, x, s))
  {
    if s != [] && !less(x, s[0]) {
      InsertWeakly(less, x, s[1..]);
      InsertKeeps(less, x, s[1..]);
      var t := Insert(less, x, s[1..]);
      forall j | 0 <= j < |t| ensures !less(t[j], s[0]) {
        assert t[j] in multiset(t);
        assert t[j] == x || t[j] in s[1..];
      }
    }
  }

  lemma {:induction false} SortWeakly<T(!new)>(less: (T, T) -> bool, s: seq<T>)
    requires WeakOrder(less)
    ensures NoneBefore(less, Sort(less, s))
  {
    if s != [] {
      SortWeakly(less, s[..|s| - 1]);
      InsertWeakly(less, s[|s| - 1], Sort(less, s[..|s| - 1]));
    }
  }

  // ------------------------------------------------------------------------
  // Strings

  predicate StringLess(a: string, b: string) {
    if b == [] then false
    else if a == [] then true
    else if a[0] != b[0] then a[0] < b[0]
    else StringLess(a[1..], b[1..])
  }

  lemma StringIrreflexive(a: string)
    ensures !StringLess(a, a)
  {
    if a != [] {
      StringIrreflexive(a[1..]);
    }
  }

  lemma {:induction false} StringTotal(a: string, b: string)
    requires a != b
    ensures StringLess(a, b) || StringLess(b, a)
  {
    if a != [] && b != [] && a[0] == b[0] {
      assert a == [a[0]] + a[1..] && b == [b[0]] + b[1..];
      StringTotal(a[1..], b[1..]);
    }
  }

  lemma {:induction false} StringTransitive(a: string, b: string, c: string)
    requires StringLess(a, b) && StringLess(b, c)
    ensures StringLess(a, c)
  {
    if a != [] && a[0] == b[0] && b[0] == c[0] {
      StringTransitive(a[1..], b[1..], c[1..]);
    }
  }

  /** The strings agree up to k, where a is smaller. */
  predicate SmallerAt(a: string, b: string, k: nat) {
    k < |a| && k < |b| && a[..k] == b[..k] && a[k] < b[k]
  }

  lemma SmallerLater(a: string, b: string, k: nat)
    requires k > 0 && a != [] && b != []
    ensures SmallerAt(a, b, k) <==> a[0] == b[0] && SmallerAt(a[1..], b[1..], k - 1)
  {
    if k < |a| && k < |b| {
      assert a[..k] == [a[0]] + a[1..][..k - 1] && b[..k] == [b[0]] + b[1..][..k - 1];
      assert a[..k][1..] == a[1..][..k - 1] && b[..k][1..] == b[1..][..k - 1];
      assert a[..k][0] == a[0] && b[..k][0] == b[0];
    }
  }

  lemma PrefixLater(a: string, b: string)
    requires a != [] && b != []
    ensures a < b <==> a[0] == b[0] && a[1..] < b[1..]
  {
    assert a == [a[0]] + a[1..] && b == [b[0]] + b[1..];
  }

  /** A string is less when it is a proper prefix, or smaller where the two first differ. */
  lemma {:induction false} StringLessMeans(a: string, b: string)
    ensures StringLess(a, b) <==> a < b || exists k: nat :: SmallerAt(a, b, k)
  {
    if a != [] && b != [] {
      StringLessMeans(a[1..], b[1..]);
      PrefixLater(a, b);
      assert SmallerAt(a, b, 0) <==> a[0] < b[0];
      hide SmallerAt;
      forall k: nat | k > 0 ensures SmallerAt(a, b, k) <==> a[0] == b[0] && SmallerAt(a[1..], b[1..], k - 1) {
        SmallerLater(a, b, k);
      }
      if a[0] == b[0] {
        if j: nat :| SmallerAt(a[1..], b[1..], j) {
          assert SmallerAt(a, b, j + 1);
        }
      }
    }
  }

  lemma StringAsymmetric(a: string, b: string)
    ensures !(StringLess(a, b) && StringLess(b, a))
  {
    if StringLess(a, b) && StringLess(b, a) {
      StringTransitive(a, b, a);
      StringIrreflexive(a);
    }
  }

  /** Neither before nor after is transitive too. */
  lemma StringNotLessChain(a: string, b: string, c: string)
    ensures !StringLess(b, a) && !StringLess(c, b) ==> !StringLess(c, a)
  {
    if a != b && !StringLess(b, a) && StringLess(c, a) {
      StringTotal(a, b);
      StringTransitive(c, a, b);
    }
  }

  lemma StringOrder(s: seq<string>)
    ensures StrictTotal(StringLess, s)
  {
    forall x | x in s ensures !StringLess(x, x) {
      StringIrreflexive(x);
    }
    forall x, y | x in s && y in s && x != y ensures StringLess(x, y) || StringLess(y, x) {
      StringTotal(x, y);
    }
    forall x, y, z | x in s && y in s && z in s && StringLess(x, y) && StringLess(y, z) ensures StringLess(x, z) {
      StringTransitive(x, y, z);
    }
  }
}
