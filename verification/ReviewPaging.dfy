/** A walk over the pages of approval_projection.py while candidates come, are decided and go. */
module ReviewPaging {
  import opened Prelude
  import opened Ordering
  import opened Keyset
  import opened ReviewGroups
  import opened Projection

  /** A cursor token: the projection it was cut from, and the last key of its page. */
  datatype Cursor = Cursor(generation: nat, status: string, after: string)

  datatype View = View(rows: Rows, generation: nat)

  datatype PageResult = PageResult(keys: seq<string>, items: seq<Option<Item>>, next: Option<Cursor>)

  datatype PageError = InvalidCursor

  function RowKeys(rows: Rows): set<string> { set id | id in rows :: rows[id].reviewKey }

  /** One request of `page_projection`: one key more than the page is read, to know whether another page follows. */
  ghost function PageProjection(view: View, size: nat, cursor: Option<Cursor>): Result<PageResult, PageError>
    requires size > 0
  {
    if cursor.Some? && (cursor.value.generation != view.generation || cursor.value.status != PENDING) then Err(InvalidCursor)
    else
      var fetched := Page(RowKeys(view.rows), if cursor.Some? then cursor.value.after else "", size + 1);
      var keys := if |fetched| <= size then fetched else fetched[..size];
      Ok(PageResult(keys, seq(|keys|, i requires 0 <= i < |keys| => ItemOf(view.rows, keys[i])),
                    if |fetched| > size then Some(Cursor(view.generation, PENDING, fetched[size - 1])) else None))
  }

  /** The keys of a walk that asks one page of each view, and the cursor it has left. */
  datatype Walked = Walked(keys: seq<string>, next: Option<Cursor>)

  ghost function Walk(views: seq<View>, size: nat, cursor: Option<Cursor>): Result<Walked, PageError>
    requires size > 0
    decreases |views|
  {
    if views == [] then Ok(Walked([], cursor))
    else match PageProjection(views[0], size, cursor)
      case Err(e) => Err(e)
      case Ok(page) =>
        if page.next.None? then Ok(Walked(page.keys, None))
        else match Walk(views[1..], size, page.next)
          case Err(e) => Err(e)
          case Ok(rest) => Ok(Walked(page.keys + rest.keys, rest.next))
  }

  function After(cursor: Option<Cursor>): string { if cursor.Some? then cursor.value.after else "" }

  /** What one page gives: the least keys after the cursor, all of them unless another page follows. */
  lemma PageGives(view: View, size: nat, cursor: Option<Cursor>)
    requires size > 0 && PageProjection(view, size, cursor).Ok?
    ensures var page := PageProjection(view, size, cursor).value; var rest := Remaining(RowKeys(view.rows), After(cursor));
            && Increasing(page.keys, TextLess) && (forall k :: k in page.keys ==> k in rest)
            && (page.next.None? ==> forall k :: k in rest ==> k in page.keys)
            && (page.next.Some? ==>
                 && page.next.value.generation == view.generation && page.next.value.status == PENDING
                 && |page.keys| == size && page.keys[size - 1] == page.next.value.after
                 && (exists k :: k in rest && k !in page.keys)
                 && forall k :: k in rest && k !in page.keys ==> TextLess(page.next.value.after, k))
  {
    hide TextLess, Page, Remaining, ItemOf, RowKeys;
    var keys, after := RowKeys(view.rows), After(cursor);
    PageTakesLeast(keys, after, size + 1);
    var fetched := Page(keys, after, size + 1);
    var page := PageProjection(view, size, cursor).value;
    assert page.keys == if |fetched| <= size then fetched else fetched[..size];
    hide Increasing, PageProjection, After;
    if |fetched| > size {
      OneTooMany(fetched, size);
      assert fetched[size] in Remaining(keys, after) && fetched[size] !in page.keys;
    }
  }

  lemma OneTooMany(fetched: seq<string>, size: nat)
    requires 0 < size && |fetched| == size + 1 && Increasing(fetched, TextLess)
    ensures Increasing(fetched[..size], TextLess) && TextLess(fetched[size - 1], fetched[size])
    ensures forall k :: k in fetched[..size] ==> k in fetched
    ensures forall k :: k in fetched && k !in fetched[..size] ==> k == fetched[size]
    ensures fetched[size] in fetched && fetched[size] !in fetched[..size]
    ensures StrictOrder(TextLess)
  {
    hide TextLess;
    TextOrder();
    assert fetched == fetched[..size] + [fetched[size]];
    assert forall k :: k in fetched[..size] ==> TextLess(k, fetched[size]);
  }

  ghost predicate SameGeneration(views: seq<View>, generation: nat) { forall i :: 0 <= i < |views| ==> views[i].generation == generation }

  /** Pages beyond a cursor only hold keys beyond it, in order; so no key comes twice. */
  lemma {:induction false} WalkIncreases(views: seq<View>, size: nat, cursor: Option<Cursor>)
    requires size > 0 && Walk(views, size, cursor).Ok?
    ensures var w := Walk(views, size, cursor).value;
            Increasing(w.keys, TextLess) && forall k :: k in w.keys ==> TextLess(After(cursor), k)
    decreases |views|
  {
    hide TextLess, PageProjection;
    TextOrder();
    if views != [] {
      PageGives(views[0], size, cursor);
      RemainingIsAfter(RowKeys(views[0].rows), After(cursor));
      var page := PageProjection(views[0], size, cursor).value;
      if page.next.Some? {
        WalkIncreases(views[1..], size, page.next);
        var rest := Walk(views[1..], size, page.next).value;
        var last := page.next.value.after;
        assert page.keys[size - 1] == last && last in page.keys;
        forall k | k in page.keys ensures k == last || TextLess(k, last) { var i :| 0 <= i < |page.keys| && page.keys[i] == k; }
        IncreasingJoin(page.keys, rest.keys, last);
      }
    }
  }

  lemma RemainingIsAfter(keys: set<string>, after: string)
    ensures forall k :: k in Remaining(keys, after) <==> k in keys && TextLess(after, k)
  {
  }

  lemma IncreasingJoin(xs: seq<string>, ys: seq<string>, mid: string)
    requires StrictOrder(TextLess) && Increasing(xs, TextLess) && Increasing(ys, TextLess)
    requires forall x :: x in xs ==> x == mid || TextLess(x, mid)
    requires forall y :: y in ys ==> TextLess(mid, y)
    ensures Increasing(xs + ys, TextLess)
  {
    hide TextLess;
    forall i, j | 0 <= i < j < |xs + ys| ensures TextLess((xs + ys)[i], (xs + ys)[j]) {
      assert i < |xs| ==> xs[i] in xs;
      assert j >= |xs| ==> ys[j - |xs|] in ys;
    }
  }

  /** A key pending on every page of the walk is returned, or still lies ahead of the cursor: a finished walk
      has returned it, and once only. */
  lemma {:induction false} WalkMissesNothing(views: seq<View>, size: nat, cursor: Option<Cursor>, key: string)
    requires size > 0 && Walk(views, size, cursor).Ok? && TextLess(After(cursor), key) && views != []
    requires forall i :: 0 <= i < |views| ==> key in RowKeys(views[i].rows)
    ensures var w := Walk(views, size, cursor).value;
            key in w.keys || (w.next.Some? && TextLess(w.next.value.after, key))
    decreases |views|
  {
    hide TextLess, PageProjection, RowKeys;
    PageGives(views[0], size, cursor);
    RemainingIsAfter(RowKeys(views[0].rows), After(cursor));
    var page := PageProjection(views[0], size, cursor).value;
    if page.next.Some? && key !in page.keys && |views| > 1 {
      WalkMissesNothing(views[1..], size, page.next, key);
    }
  }

  /** While the projection is not rebuilt the walk's cursors stay valid. */
  lemma {:induction false} WalkStaysValid(views: seq<View>, size: nat, cursor: Option<Cursor>, generation: nat)
    requires size > 0 && SameGeneration(views, generation)
    requires cursor.Some? ==> cursor.value.generation == generation && cursor.value.status == PENDING
    ensures Walk(views, size, cursor).Ok?
    decreases |views|
  {
    if views != [] {
      var page := PageProjection(views[0], size, cursor);
      if page.value.next.Some? { WalkStaysValid(views[1..], size, page.value.next, generation); }
    }
  }

  lemma RefusedByGeneration(view: View, size: nat, cursor: Option<Cursor>)
    requires size > 0
    ensures PageProjection(view, size, cursor).Err? <==> cursor.Some? && (cursor.value.generation != view.generation || cursor.value.status != PENDING)
  {
    hide Page, ItemOf;
  }

  /** How many requests the walk makes. */
  ghost function Asked(views: seq<View>, size: nat, cursor: Option<Cursor>): (n: nat)
    requires size > 0
    ensures n <= |views|
    decreases |views|
  {
    if views == [] then 0
    else
      var page := PageProjection(views[0], size, cursor);
      if page.Ok? && page.value.next.Some? then 1 + Asked(views[1..], size, page.value.next) else 1
  }

  /** A walk succeeds if and only if every request of it saw the generation it started in: after a rebuild the next
      page is refused, rather than that keys are skipped or repeated. */
  lemma {:induction false} WalkStopsAtRebuild(views: seq<View>, size: nat, cursor: Option<Cursor>, generation: nat)
    requires size > 0 && views != [] && (cursor.None? ==> views[0].generation == generation)
    requires cursor.Some? ==> cursor.value.generation == generation && cursor.value.status == PENDING
    ensures Walk(views, size, cursor).Ok? <==> SameGeneration(views[..Asked(views, size, cursor)], generation)
    decreases |views|
  {
    hide PageProjection, TextLess, RowKeys;
    var n := Asked(views, size, cursor);
    var page := PageProjection(views[0], size, cursor);
    RefusedByGeneration(views[0], size, cursor);
    if page.Ok? { PageGives(views[0], size, cursor); }
    assert views[..n][0] == views[0];
    if page.Ok? && page.value.next.Some? && |views| > 1 {
      WalkStopsAtRebuild(views[1..], size, page.value.next, generation);
      assert views[..n] == [views[0]] + views[1..][..n - 1];
    }
  }

  /** The whole walk, from the start. */
  lemma WholeWalk(views: seq<View>, size: nat, generation: nat)
    requires size > 0 && views != [] && SameGeneration(views, generation)
    ensures Walk(views, size, None).Ok?
    ensures var w := Walk(views, size, None).value;
            && Increasing(w.keys, TextLess)
            && (forall i, j :: 0 <= i < j < |w.keys| ==> w.keys[i] != w.keys[j])
            && (w.next.None? ==> forall key :: key != "" && (forall i :: 0 <= i < |views| ==> key in RowKeys(views[i].rows)) ==> key in w.keys)
  {
    hide PageProjection, RowKeys, TextLess;
    WalkStaysValid(views, size, None, generation);
    WalkIncreases(views, size, None);
    TextOrder();
    var w := Walk(views, size, None).value;
    forall key | w.next.None? && key != "" && forall i :: 0 <= i < |views| ==> key in RowKeys(views[i].rows) ensures key in w.keys {
      EmptyIsFirst(key);
      WalkMissesNothing(views, size, None, key);
    }
  }

  lemma EmptyIsFirst(key: string)
    requires key != ""
    ensures TextLess("", key)
  {
  }

  /** A walk that has not finished has taken a full page of new keys each time: over keys from one set it must end. */
  lemma {:induction false} WalkEnds(views: seq<View>, size: nat, cursor: Option<Cursor>, all: set<string>)
    requires size > 0 && Walk(views, size, cursor).Ok? && forall i :: 0 <= i < |views| ==> RowKeys(views[i].rows) <= all
    ensures var w := Walk(views, size, cursor).value;
            && (forall k :: k in w.keys ==> k in all)
            && (w.next.Some? && views != [] ==> |w.keys| == size * |views|)
    decreases |views|
  {
    hide TextLess, PageProjection, RowKeys;
    if views != [] {
      PageGives(views[0], size, cursor);
      RemainingIsAfter(RowKeys(views[0].rows), After(cursor));
      var page := PageProjection(views[0], size, cursor).value;
      if page.next.Some? {
        WalkEnds(views[1..], size, page.next, all);
        assert size * |views| == size + size * |views[1..]|;
        if |views| == 1 { assert Walk(views[1..], size, page.next).value == Walked([], page.next); }
      }
    }
  }

  lemma {:induction false} DistinctFit(xs: seq<string>, all: set<string>)
    requires (forall i, j :: 0 <= i < j < |xs| ==> xs[i] != xs[j]) && forall x :: x in xs ==> x in all
    ensures |xs| <= |all|
  {
    if xs != [] {
      var rest := xs[1..];
      assert forall x :: x in rest ==> x in all - {xs[0]};
      assert xs[0] in all;
      DistinctFit(rest, all - {xs[0]});
    }
  }

  /** With the keys from one set, enough pages finish the walk. */
  lemma WalkFinishes(views: seq<View>, size: nat, generation: nat, all: set<string>)
    requires size > 0 && SameGeneration(views, generation) && size * |views| > |all|
    requires forall i :: 0 <= i < |views| ==> RowKeys(views[i].rows) <= all
    ensures Walk(views, size, None).Ok? && Walk(views, size, None).value.next.None?
  {
    hide PageProjection, RowKeys, TextLess;
    if views != [] {
      WholeWalk(views, size, generation);
      WalkEnds(views, size, None, all);
      DistinctFit(Walk(views, size, None).value.keys, all);
    }
  }

  /** Every item of a page is a group that was pending then, as its members defined it. */
  lemma ItemsAreServed(present: string -> string, table: Table, generation: nat, size: nat, cursor: Option<Cursor>)
    requires size > 0 && "" !in table && PageProjection(View(Project(present, table), generation), size, cursor).Ok?
    ensures var page := PageProjection(View(Project(present, table), generation), size, cursor).value;
            && |page.items| == |page.keys|
            && forall i :: 0 <= i < |page.keys| ==>
                 && Members(table, page.keys[i]) != map[]
                 && Serves(present, page.keys[i], Members(table, page.keys[i]), page.items[i])
  {
    hide Serves, ItemOf, Members, Project, Page, RowKeys, TextLess;
    var view := View(Project(present, table), generation);
    var page := PageProjection(view, size, cursor).value;
    PageGives(view, size, cursor);
    RemainingIsAfter(RowKeys(view.rows), After(cursor));
    forall i | 0 <= i < |page.keys|
      ensures Members(table, page.keys[i]) != map[] && Serves(present, page.keys[i], Members(table, page.keys[i]), page.items[i])
    {
      assert page.keys[i] in page.keys;
      KeyHasMembers(present, table, page.keys[i]);
      ServedIsDefined(present, table, page.keys[i]);
    }
  }

  lemma KeyHasMembers(present: string -> string, table: Table, key: string)
    requires "" !in table && key in RowKeys(Project(present, table))
    ensures Members(table, key) != map[]
  {
    hide CoreOf, ReviewKey;
    var id :| id in Project(present, table) && Project(present, table)[id].reviewKey == key;
    assert id in Members(table, key);
  }
}
