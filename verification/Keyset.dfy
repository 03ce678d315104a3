/** Keyset pages: the keys after a cursor, in order, up to a limit. */
module Keyset {
  import opened Ordering

  ghost function SortedTexts(texts: set<string>): (sorted: seq<string>)
    ensures Increasing(sorted, TextLess) && |sorted| == |texts| && forall t :: t in sorted <==> t in texts
  {
    TextOrder();
    Listing(texts, TextLess)
  }

  function Elements(xs: seq<string>): set<string> { set x | x in xs }

  function Remaining(keys: set<string>, after: string): set<string> { set k | k in keys && TextLess(after, k) }

  ghost function Page(keys: set<string>, after: string, size: nat): (page: seq<string>)
    ensures |page| <= size && page <= SortedTexts(Remaining(keys, after))
    ensures |page| < size ==> page == SortedTexts(Remaining(keys, after))
  {
    var sorted := SortedTexts(Remaining(keys, after));
    if |sorted| <= size then sorted else sorted[..size]
  }

  /** The start of a sorted list takes its least keys. */
  lemma StartIsLeast(sorted: seq<string>, n: nat)
    requires Increasing(sorted, TextLess) && 0 < n <= |sorted|
    ensures Increasing(sorted[..n], TextLess) && (forall k :: k in sorted[..n] ==> k in sorted)
    ensures forall k :: k in sorted && k !in sorted[..n] ==> TextLess(sorted[n - 1], k)
  {
    hide TextLess;
    var start := sorted[..n];
    forall i | 0 <= i < n ensures sorted[i] in start { assert start[i] == sorted[i]; }
    forall k | k in sorted && k !in start ensures TextLess(sorted[n - 1], k) {
      var i :| 0 <= i < |sorted| && sorted[i] == k;
    }
  }

  /** A page takes the least remaining keys, in order. */
  lemma PageTakesLeast(keys: set<string>, after: string, size: nat)
    requires size > 0
    ensures var page := Page(keys, after, size); var rest := Remaining(keys, after);
            && (page == [] <==> rest == {}) && (forall k :: k in page ==> k in rest) && Increasing(page, TextLess)
            && (forall k :: k in rest && k !in page ==> page != [] && TextLess(page[|page| - 1], k))
            && (|page| < size ==> forall k :: k in rest ==> k in page)
  {
    hide TextLess, Remaining, Increasing;
    var rest := Remaining(keys, after);
    var sorted := SortedTexts(rest);
    if sorted == [] {
      NothingIncreases();
    } else {
      var n := if |sorted| <= size then |sorted| else size;
      StartIsLeast(sorted, n);
      assert sorted[..|sorted|] == sorted;
      assert Page(keys, after, size) == sorted[..n];
    }
  }

  lemma NothingIncreases()
    ensures Increasing([], TextLess)
  {
  }

  /** After a page the keys beyond its last one are exactly those it did not take. */
  lemma PageCuts(keys: set<string>, after: string, size: nat)
    requires size > 0 && Page(keys, after, size) != []
    ensures var page := Page(keys, after, size);
            && page[|page| - 1] in Remaining(keys, after)
            && Remaining(keys, page[|page| - 1]) == Remaining(keys, after) - Elements(page)
  {
    hide TextLess, Page, SortedTexts;
    TextOrder();
    PageTakesLeast(keys, after, size);
    var page := Page(keys, after, size);
    var last := page[|page| - 1];
    assert last in page;
    forall k ensures k in Remaining(keys, last) <==> k in Remaining(keys, after) && k !in page {
      if k in page { var i :| 0 <= i < |page| && page[i] == k; assert i < |page| - 1 ==> TextLess(k, last); }
      if k in keys && TextLess(last, k) { assert TextLess(after, last); }
    }
  }

  lemma SmallerSet(a: set<string>, b: set<string>)
    requires a < b
    ensures |a| < |b|
  {
    assert |b| == |a| + |b - a| by { assert b == a + (b - a); }
  }

  /** One page further, everything but the empty key done so far grows by that page. */
  lemma PageAdvances(keys: set<string>, after: string, size: nat)
    requires size > 0 && Page(keys, after, size) != [] && Remaining(keys, after) <= keys - {""}
    ensures var page := Page(keys, after, size); var rest := Remaining(keys, page[|page| - 1]);
            && |rest| < |Remaining(keys, after)| && rest <= keys - {""}
            && (keys - {""} - Remaining(keys, after)) + Elements(page) == keys - {""} - rest
            && (forall k :: k in page ==> k in keys && k != "")
  {
    hide Page, Remaining, TextLess, Increasing;
    PageTakesLeast(keys, after, size);
    PageCuts(keys, after, size);
    TakenAway(keys - {""}, Remaining(keys, after), Page(keys, after, size));
  }

  lemma TakenAway(all: set<string>, rest: set<string>, page: seq<string>)
    requires rest <= all && page != [] && forall k :: k in page ==> k in rest
    ensures var left := rest - Elements(page);
            |left| < |rest| && left <= all && (all - rest) + Elements(page) == all - left && (forall k :: k in page ==> k in all)
  {
    assert page[0] in Elements(page);
    SmallerSet(rest - Elements(page), rest);
  }

  lemma RemainingStart(keys: set<string>)
    ensures Remaining(keys, "") == keys - {""}
  {
  }

  method LeastText(texts: set<string>) returns (least: string)
    requires texts != {}
    ensures IsLeast(least, texts, TextLess)
  {
    TextOrder();
    hide TextLess;
    least :| least in texts;
    var others := texts - {least};
    while others != {}
      invariant least in texts && others <= texts
      invariant forall t :: t in texts && t !in others && t != least ==> TextLess(least, t)
    {
      var t :| t in others;
      others := others - {t};
      if TextLess(t, least) {
        least := t;
      }
    }
  }

  /** `sorted`, and ORDER BY a text column. */
  method SortTexts(texts: set<string>) returns (sorted: seq<string>)
    ensures sorted == SortedTexts(texts)
  {
    sorted := [];
    var rest := texts;
    while rest != {}
      invariant sorted + SortedTexts(rest) == SortedTexts(texts)
    {
      var least := LeastText(rest);
      LeastFirst(rest, least);
      sorted, rest := sorted + [least], rest - {least};
    }
  }

  lemma LeastFirst(texts: set<string>, least: string)
    requires IsLeast(least, texts, TextLess)
    ensures SortedTexts(texts) == [least] + SortedTexts(texts - {least})
  {
    TextOrder();
    LeastIs(least, texts, TextLess);
  }

  method FetchPage(keys: set<string>, after: string, size: nat) returns (page: seq<string>)
    ensures page == Page(keys, after, size)
  {
    var sorted := SortTexts(Remaining(keys, after));
    page := if |sorted| <= size then sorted else sorted[..size];
  }
}
