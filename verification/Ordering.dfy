/** Strict total orders, sorted listings of finite sets, and aggregates over maps. */
module Ordering {
  import opened Prelude

  ghost predicate StrictOrder<T(!new)>(less: (T, T) -> bool) {
    && (forall a: T :: !less(a, a))
    && (forall a: T, b: T, c: T :: less(a, b) && less(b, c) ==> less(a, c))
    && (forall a: T, b: T :: a == b || less(a, b) || less(b, a))
  }

  /** The order of texts by code point. */
  predicate TextLess(a: string, b: string) {
    if a == [] || b == [] then a == [] && b != []
    else a[0] < b[0] || (a[0] == b[0] && TextLess(a[1..], b[1..]))
  }

  lemma {:induction false} TextLessIrreflexive(a: string)
    ensures !TextLess(a, a)
  {
    if a != [] { TextLessIrreflexive(a[1..]); }
  }

  lemma {:induction false} TextLessTransitive(a: string, b: string, c: string)
    requires TextLess(a, b) && TextLess(b, c)
    ensures TextLess(a, c)
  {
    if a != [] && a[0] == b[0] == c[0] { TextLessTransitive(a[1..], b[1..], c[1..]); }
  }

  lemma {:induction false} TextLessTotal(a: string, b: string)
    ensures a == b || TextLess(a, b) || TextLess(b, a)
  {
    if a != [] && b != [] && a[0] == b[0] {
      TextLessTotal(a[1..], b[1..]);
      assert a == [a[0]] + a[1..] && b == [b[0]] + b[1..];
    }
  }

  lemma TextOrder()
    ensures StrictOrder(TextLess)
  {
    forall a: string ensures !TextLess(a, a) { TextLessIrreflexive(a); }
    forall a: string, b: string, c: string | TextLess(a, b) && TextLess(b, c) ensures TextLess(a, c) { TextLessTransitive(a, b, c); }
    forall a: string, b: string ensures a == b || TextLess(a, b) || TextLess(b, a) { TextLessTotal(a, b); }
  }

  /** The texts agree up to a place, and there `a` has the smaller character. */
  predicate SmallerAt(a: string, b: string, i: nat) {
    i < |a| && i < |b| && a[i] < b[i] && forall j :: 0 <= j < i ==> a[j] == b[j]
  }

  predicate Starts(a: string, b: string) { |a| < |b| && forall j :: 0 <= j < |a| ==> a[j] == b[j] }

  /** A text comes before another if it is the start of it, or has the smaller character where they first differ. */
  lemma {:induction false} TextLessMeans(a: string, b: string)
    ensures TextLess(a, b) <==> Starts(a, b) || exists i: nat :: SmallerAt(a, b, i)
  {
    if a != [] && b != [] && a[0] == b[0] {
      var x, y := a[1..], b[1..];
      TextLessMeans(x, y);
      assert Starts(a, b) <==> Starts(x, y) by { assert Starts(x, y) ==> forall j :: 0 < j < |a| ==> a[j] == x[j - 1] && b[j] == y[j - 1]; }
      forall i: nat ensures SmallerAt(x, y, i) <==> SmallerAt(a, b, i + 1) { OneOn(a, b, i); }
      assert !SmallerAt(a, b, 0);
      assert (exists i: nat :: SmallerAt(a, b, i)) <==> exists i: nat :: SmallerAt(x, y, i) by {
        if i: nat :| SmallerAt(a, b, i) { assert SmallerAt(x, y, i - 1); }
      }
    } else if a != [] && b != [] {
      assert a[0] < b[0] ==> SmallerAt(a, b, 0);
    }
  }

  lemma OneOn(a: string, b: string, i: nat)
    requires a != [] && b != [] && a[0] == b[0]
    ensures SmallerAt(a[1..], b[1..], i) <==> SmallerAt(a, b, i + 1)
  {
    if SmallerAt(a[1..], b[1..], i) {
      forall j | 0 <= j < i + 1 ensures a[j] == b[j] { if j > 0 { assert a[1..][j - 1] == b[1..][j - 1]; } }
    }
  }

  // ----- least elements and listings -----

  ghost predicate IsLeast<T(!new)>(m: T, s: set<T>, less: (T, T) -> bool) {
    m in s && forall x :: x in s && x != m ==> less(m, x)
  }

  lemma {:induction false} LeastExists<T(!new)>(s: set<T>, less: (T, T) -> bool)
    requires StrictOrder(less) && s != {}
    ensures exists m :: IsLeast(m, s, less)
    decreases |s|
  {
    var x :| x in s;
    if s == {x} {
      assert IsLeast(x, s, less);
    } else {
      assert s - {x} != {};
      LeastExists(s - {x}, less);
      var rest :| IsLeast(rest, s - {x}, less);
      assert forall y :: y in s && y != x ==> y in s - {x};
      assert IsLeast(if less(x, rest) then x else rest, s, less);
    }
  }

  ghost function Least<T(!new)>(s: set<T>, less: (T, T) -> bool): (m: T)
    requires StrictOrder(less) && s != {}
    ensures IsLeast(m, s, less)
  {
    LeastExists(s, less);
    var m :| IsLeast(m, s, less);
    m
  }

  lemma LeastIs<T(!new)>(m: T, s: set<T>, less: (T, T) -> bool)
    requires StrictOrder(less) && IsLeast(m, s, less)
    ensures Least(s, less) == m
  {
  }

  ghost predicate NoRepeats<T(!new)>(xs: seq<T>) { forall i, j :: 0 <= i < j < |xs| ==> xs[i] != xs[j] }

  ghost predicate Increasing<T(!new)>(xs: seq<T>, less: (T, T) -> bool) {
    forall i, j :: 0 <= i < j < |xs| ==> less(xs[i], xs[j])
  }

  /** The elements in order. */
  ghost function Listing<T(!new)>(s: set<T>, less: (T, T) -> bool): (xs: seq<T>)
    requires StrictOrder(less)
    ensures Increasing(xs, less) && |xs| == |s| && forall x :: x in xs <==> x in s
    decreases |s|
  {
    if s == {} then [] else
      var m := Least(s, less);
      [m] + Listing(s - {m}, less)
  }

  /** An increasing sequence is the listing of its elements. */
  lemma {:induction false} ListingIs<T(!new)>(xs: seq<T>, s: set<T>, less: (T, T) -> bool)
    requires StrictOrder(less) && Increasing(xs, less) && forall x :: x in xs <==> x in s
    ensures Listing(s, less) == xs
    decreases |xs|
  {
    if xs == [] {
      assert forall x :: x in s <==> x in xs;
      assert s == {};
    } else {
      LeastIs(xs[0], s, less);
      var rest := xs[1..];
      forall x ensures x in rest <==> x in s - {xs[0]} {
        if x in rest {
          var i :| 0 <= i < |rest| && rest[i] == x;
          assert x == xs[i + 1];
        }
      }
      ListingIs(rest, s - {xs[0]}, less);
    }
  }

  /** SQL's MIN over texts, none without any. */
  ghost function MinText(s: set<string>): Option<string> {
    if s == {} then None else
      TextOrder();
      Some(Least(s, TextLess))
  }

  predicate TextGreater(a: string, b: string) { TextLess(b, a) }

  lemma ReverseOrder()
    ensures StrictOrder(TextGreater)
  {
    TextOrder();
    forall a: string, b: string, c: string | TextGreater(a, b) && TextGreater(b, c) ensures TextGreater(a, c) { TextLessTransitive(c, b, a); }
    forall a: string ensures !TextGreater(a, a) { TextLessIrreflexive(a); }
    forall a: string, b: string ensures a == b || TextGreater(a, b) || TextGreater(b, a) { TextLessTotal(a, b); }
  }

  ghost function MaxText(s: set<string>): Option<string> {
    if s == {} then None else
      ReverseOrder();
      Some(Least(s, TextGreater))
  }

  lemma TextLessAsymmetric(a: string, b: string)
    ensures !(TextLess(a, b) && TextLess(b, a)) && !TextLess(a, a)
  {
    TextOrder();
    hide TextLess;
    assert TextLess(a, b) && TextLess(b, a) ==> TextLess(a, a);
  }

  /** The bounds of texts are among them, and none of them lies outside. */
  lemma BoundsAreMet(s: set<string>, x: string)
    requires x in s
    ensures MinText(s).Some? && MinText(s).value in s && !TextLess(x, MinText(s).value)
    ensures MaxText(s).Some? && MaxText(s).value in s && !TextLess(MaxText(s).value, x)
  {
    TextOrder();
    ReverseOrder();
    hide TextLess;
    TextLessAsymmetric(x, MinText(s).value);
    TextLessAsymmetric(MaxText(s).value, x);
  }

  lemma BoundsOfNone()
    ensures MinText({}) == None && MaxText({}) == None
  {
  }

  /** The larger, or smaller, of a running bound and a new value. */
  function LowerOf(bound: Option<string>, x: Option<string>): Option<string> {
    if bound.None? then x else if x.None? then bound else if TextLess(x.value, bound.value) then x else bound
  }

  function UpperOf(bound: Option<string>, x: Option<string>): Option<string> {
    if bound.None? then x else if x.None? then bound else if TextLess(bound.value, x.value) then x else bound
  }

  lemma MinTextGrows(s: set<string>, x: string)
    ensures MinText(s + {x}) == LowerOf(MinText(s), Some(x))
  {
    TextOrder();
    var now := LowerOf(MinText(s), Some(x));
    LeastIs(now.value, s + {x}, TextLess);
  }

  lemma MaxTextGrows(s: set<string>, x: string)
    ensures MaxText(s + {x}) == UpperOf(MaxText(s), Some(x))
  {
    TextOrder();
    ReverseOrder();
    var now := UpperOf(MaxText(s), Some(x));
    LeastIs(now.value, s + {x}, TextGreater);
  }

  // ----- sums -----

  ghost function SumOf<K>(m: map<K, nat>): nat
    decreases |m|
  {
    if m == map[] then 0 else
      var k :| k in m;
      m[k] + SumOf(m - {k})
  }

  lemma {:induction false} SumWithout<K>(m: map<K, nat>, k: K)
    requires k in m
    ensures SumOf(m) == m[k] + SumOf(m - {k})
    decreases |m|
  {
    var j :| j in m && SumOf(m) == m[j] + SumOf(m - {j});
    if j != k {
      SumWithout(m - {j}, k);
      SumWithout(m - {k}, j);
      assert m - {j} - {k} == m - {k} - {j};
    }
  }

  lemma SumWith<K>(m: map<K, nat>, k: K, n: nat)
    requires k !in m
    ensures SumOf(m[k := n]) == SumOf(m) + n
  {
    SumWithout(m[k := n], k);
    assert m[k := n] - {k} == m;
  }
}
