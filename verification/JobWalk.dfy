/**
 Following the two-key cursor of `get_job` while the tables change: each of a request's four reads sees the rows of its
 moment.
 */
module JobWalk {
  import opened Prelude
  import opened Ordering
  import opened Keyset
  import opened JobCursor

  // ----- one collection -----

  /** The pages of one collection, each after the last key of the one before. */
  ghost predicate Readable(snapshots: seq<Collection>, after: string)
    decreases |snapshots|
  {
    snapshots != [] ==>
      && BoundedPage(snapshots[0], after, MAX_ROWS).Ok?
      && Readable(snapshots[1..], LastOr(BoundedPage(snapshots[0], after, MAX_ROWS).value, after))
  }

  ghost function Stretch(snapshots: seq<Collection>, after: string): seq<string>
    requires Readable(snapshots, after)
    decreases |snapshots|
  {
    if snapshots == [] then []
    else
      var page := BoundedPage(snapshots[0], after, MAX_ROWS).value;
      page + Stretch(snapshots[1..], LastOr(page, after))
  }

  ghost predicate Beyond(keys: seq<string>, after: string) { Increasing(keys, TextLess) && forall k :: k in keys ==> TextLess(after, k) }

  /** A page holds keys beyond the cursor, in order, and skips none that is there. */
  lemma PageBeyond(rows: Collection, after: string, limit: nat)
    requires limit > 0 && BoundedPage(rows, after, limit).Ok?
    ensures var page := BoundedPage(rows, after, limit).value; var last := LastOr(page, after);
            && Beyond(page, after) && (forall k :: k in page ==> k in rows && (k == last || TextLess(k, last)))
            && (last == after || TextLess(after, last))
            && (forall k :: k in rows && TextLess(after, k) && k !in page ==> page != [] && TextLess(last, k))
  {
    hide TextLess, BoundedPage;
    var page := BoundedPage(rows, after, limit).value;
    PageIsNextStretch(rows, after, limit);
    RemainingAre(rows.Keys, after);
    TextOrder();
    if page != [] {
      var last := page[|page| - 1];
      RemainingAre(rows.Keys, last);
      PrefixBeyond(page, SortedTexts(Remaining(rows.Keys, last)), Remaining(rows.Keys, after), after);
      assert SortedTexts(Remaining(rows.Keys, after)) == page + SortedTexts(Remaining(rows.Keys, last));
      forall k | k in rows && TextLess(after, k) && k !in page ensures TextLess(last, k) {
        assert k in Remaining(rows.Keys, after) && k in page + SortedTexts(Remaining(rows.Keys, last));
      }
    }
  }

  lemma RemainingAre(keys: set<string>, after: string)
    ensures forall k :: k in Remaining(keys, after) <==> k in keys && TextLess(after, k)
    ensures forall k :: k in SortedTexts(Remaining(keys, after)) <==> k in Remaining(keys, after)
    ensures Increasing(SortedTexts(Remaining(keys, after)), TextLess)
  {
  }

  lemma PrefixBeyond(page: seq<string>, rest: seq<string>, all: set<string>, after: string)
    requires page != [] && Increasing(page + rest, TextLess) && (forall k :: k in page + rest <==> k in all)
    requires forall k :: k in all ==> TextLess(after, k)
    ensures Beyond(page, after) && forall k :: k in page ==> k == page[|page| - 1] || TextLess(k, page[|page| - 1])
  {
    hide TextLess;
    assert forall i :: 0 <= i < |page| ==> (page + rest)[i] == page[i];
    forall k | k in page ensures k == page[|page| - 1] || TextLess(k, page[|page| - 1]) {
      var i :| 0 <= i < |page| && page[i] == k;
    }
    assert forall k :: k in page ==> k in page + rest;
  }

  /** Whatever comes and goes, the keys of the pages increase, and each was there when its page was read. */
  lemma {:induction false} StretchIncreases(snapshots: seq<Collection>, after: string)
    requires Readable(snapshots, after)
    ensures var keys := Stretch(snapshots, after); var last := LastOr(keys, after);
            && Beyond(keys, after) && (last == after || TextLess(after, last)) && (forall k :: k in keys ==> k == last || TextLess(k, last))
            && forall k :: k in keys ==> exists i :: 0 <= i < |snapshots| && k in snapshots[i]
    decreases |snapshots|
  {
    hide TextLess, BoundedPage, Beyond;
    if snapshots == [] {
      NothingBeyond(after);
    } else {
      var page := BoundedPage(snapshots[0], after, MAX_ROWS).value;
      var mid := LastOr(page, after);
      PageBeyond(snapshots[0], after, MAX_ROWS);
      StretchIncreases(snapshots[1..], mid);
      var rest := Stretch(snapshots[1..], mid);
      BeyondJoin(page, rest, after, mid);
      forall k | k in page + rest ensures exists i :: 0 <= i < |snapshots| && k in snapshots[i] {
        if k in page {
          assert k in snapshots[0];
        } else {
          var i :| 0 <= i < |snapshots[1..]| && k in snapshots[1..][i];
          assert k in snapshots[i + 1];
        }
      }
    }
  }

  /** A key that is in every snapshot is on one of the pages, or still lies ahead of the cursor. */
  lemma {:induction false} StretchMissesNothing(snapshots: seq<Collection>, after: string, k: string)
    requires Readable(snapshots, after) && TextLess(after, k) && forall i :: 0 <= i < |snapshots| ==> k in snapshots[i]
    ensures k in Stretch(snapshots, after) || TextLess(LastOr(Stretch(snapshots, after), after), k)
    decreases |snapshots|
  {
    hide TextLess, BoundedPage, Beyond;
    if snapshots != [] {
      var page := BoundedPage(snapshots[0], after, MAX_ROWS).value;
      PageBeyond(snapshots[0], after, MAX_ROWS);
      assert k in snapshots[0];
      if k !in page {
        StretchMissesNothing(snapshots[1..], LastOr(page, after), k);
        LastOrJoin(page, Stretch(snapshots[1..], LastOr(page, after)), after);
      }
    }
  }

  lemma NothingBeyond(after: string)
    ensures Beyond([], after)
  {
  }

  lemma BeyondJoin(page: seq<string>, rest: seq<string>, after: string, mid: string)
    requires mid == LastOr(page, after) && Beyond(page, after) && Beyond(rest, mid)
    requires forall k :: k in page ==> k == mid || TextLess(k, mid)
    requires (mid == after || TextLess(after, mid)) && (LastOr(rest, mid) == mid || TextLess(mid, LastOr(rest, mid)))
    requires forall k :: k in rest ==> k == LastOr(rest, mid) || TextLess(k, LastOr(rest, mid))
    ensures var keys, last := page + rest, LastOr(page + rest, after);
            && last == LastOr(rest, mid) && Beyond(keys, after)
            && (last == after || TextLess(after, last)) && (forall k :: k in keys ==> k == last || TextLess(k, last))
  {
    hide TextLess;
    TextOrder();
    var keys := page + rest;
    forall i, j | 0 <= i < j < |keys| ensures TextLess(keys[i], keys[j]) {
      if i < |page| { assert page[i] in page; }
      if j >= |page| { assert rest[j - |page|] in rest; }
    }
    assert rest != [] ==> keys[|keys| - 1] == rest[|rest| - 1];
    assert rest == [] ==> keys == page;
  }

  // ----- both -----

  /** What a walk has yielded, the requests it made, and the cursor it has left. */
  datatype Followed = Followed(entities: seq<string>, features: seq<string>, requests: nat, next: Option<Cursor>)

  /** One request for each element, until one answers without a cursor. */
  ghost function Follow(calls: seq<Reads>, cursor: Cursor): Result<Followed, PageError>
    decreases |calls|
  {
    if calls == [] then Ok(Followed([], [], 0, Some(cursor)))
    else match Request(calls[0], cursor)
      case Err(e) => Err(e)
      case Ok(p) =>
        if p.next.None? then Ok(Followed(p.entities, p.features, 1, None))
        else match Follow(calls[1..], p.next.value)
          case Err(e) => Err(e)
          case Ok(rest) => Ok(Followed(p.entities + rest.entities, p.features + rest.features, rest.requests + 1, rest.next))
  }

  function Entities(calls: seq<Reads>): (rows: seq<Collection>)
    ensures |rows| == |calls| && forall i :: 0 <= i < |calls| ==> rows[i] == calls[i].entities
  {
    seq(|calls|, i requires 0 <= i < |calls| => calls[i].entities)
  }

  function Features(calls: seq<Reads>): (rows: seq<Collection>)
    ensures |rows| == |calls| && forall i :: 0 <= i < |calls| ==> rows[i] == calls[i].features
  {
    seq(|calls|, i requires 0 <= i < |calls| => calls[i].features)
  }

  /** A request pages each collection by itself; it leaves no cursor only when its looks ahead find nothing. */
  lemma RequestGives(v: Reads, cursor: Cursor)
    requires Request(v, cursor).Ok?
    ensures var p := Request(v, cursor).value;
            && BoundedPage(v.entities, cursor.entity, MAX_ROWS) == Ok(p.entities) && BoundedPage(v.features, cursor.feature, MAX_ROWS) == Ok(p.features)
            && var next := Cursor(LastOr(p.entities, cursor.entity), LastOr(p.features, cursor.feature));
               && (p.next.Some? ==> p.next.value == next)
               && (p.next.None? ==> Remaining(v.entitiesThen.Keys, next.entity) == {} && Remaining(v.featuresThen.Keys, next.feature) == {})
  {
    hide BoundedPage, Remaining;
    var p := Request(v, cursor).value;
    var next := Cursor(LastOr(p.entities, cursor.entity), LastOr(p.features, cursor.feature));
    if p.next.None? {
      PageIsNextStretch(v.entitiesThen, next.entity, 1);
      PageIsNextStretch(v.featuresThen, next.feature, 1);
    }
  }

  /** The last request's looks ahead found nothing beyond the keys yielded. */
  ghost predicate Exhausted(calls: seq<Reads>, w: Followed, cursor: Cursor) {
    && 0 < w.requests <= |calls|
    && Remaining(calls[w.requests - 1].entitiesThen.Keys, LastOr(w.entities, cursor.entity)) == {}
    && Remaining(calls[w.requests - 1].featuresThen.Keys, LastOr(w.features, cursor.feature)) == {}
  }

  lemma {:induction false} FollowIsTwoStretches(calls: seq<Reads>, cursor: Cursor)
    requires Follow(calls, cursor).Ok?
    ensures var w := Follow(calls, cursor).value;
            && w.requests <= |calls|
            && Readable(Entities(calls)[..w.requests], cursor.entity) && w.entities == Stretch(Entities(calls)[..w.requests], cursor.entity)
            && Readable(Features(calls)[..w.requests], cursor.feature) && w.features == Stretch(Features(calls)[..w.requests], cursor.feature)
            && (w.next.None? ==> Exhausted(calls, w, cursor))
    decreases |calls|
  {
    hide BoundedPage, Remaining, Request;
    if calls != [] {
      RequestGives(calls[0], cursor);
      var p := Request(calls[0], cursor).value;
      var w := Follow(calls, cursor).value;
      if p.next.Some? {
        FollowIsTwoStretches(calls[1..], p.next.value);
        var rest := Follow(calls[1..], p.next.value).value;
        OneMoreSnapshot(Entities(calls), Entities(calls[1..]), rest.requests);
        OneMoreSnapshot(Features(calls), Features(calls[1..]), rest.requests);
        LastOrJoin(p.entities, rest.entities, cursor.entity);
        LastOrJoin(p.features, rest.features, cursor.feature);
      } else {
        assert Entities(calls)[..1] == [calls[0].entities] && Features(calls)[..1] == [calls[0].features];
        OneStretch(calls[0].entities, cursor.entity);
        OneStretch(calls[0].features, cursor.feature);
      }
    }
  }

  lemma OneMoreSnapshot(all: seq<Collection>, rest: seq<Collection>, n: nat)
    requires all != [] && rest == all[1..] && n <= |rest|
    ensures all[..n + 1] == [all[0]] + rest[..n] && all[..n + 1][1..] == rest[..n]
  {
  }

  lemma LastOrJoin(page: seq<string>, rest: seq<string>, after: string)
    ensures LastOr(page + rest, after) == LastOr(rest, LastOr(page, after))
  {
  }

  lemma OneStretch(rows: Collection, after: string)
    requires BoundedPage(rows, after, MAX_ROWS).Ok?
    ensures Readable([rows], after) && Stretch([rows], after) == BoundedPage(rows, after, MAX_ROWS).value
  {
    hide BoundedPage;
    assert [rows][1..] == [];
    assert BoundedPage(rows, after, MAX_ROWS).value + [] == BoundedPage(rows, after, MAX_ROWS).value;
  }

  /** The entity is there whenever a request of the walk reads entities. */
  ghost predicate StaysEntity(calls: seq<Reads>, k: string) { forall i :: 0 <= i < |calls| ==> k in calls[i].entities && k in calls[i].entitiesThen }

  ghost predicate StaysFeature(calls: seq<Reads>, k: string) { forall i :: 0 <= i < |calls| ==> k in calls[i].features && k in calls[i].featuresThen }

  /** A walk from the start over tables that change between any two reads: the keys of both collections increase, so none
      comes twice, each was there when it was read; and a walk that finished has yielded every entity and every candidate
      that was there throughout. */
  lemma WholeWalk(calls: seq<Reads>)
    requires Follow(calls, Cursor("", "")).Ok?
    ensures var w := Follow(calls, Cursor("", "")).value;
            && Increasing(w.entities, TextLess) && Increasing(w.features, TextLess) && NoRepeats(w.entities) && NoRepeats(w.features)
            && (forall k :: k in w.entities ==> exists i :: 0 <= i < |calls| && k in calls[i].entities)
            && (forall k :: k in w.features ==> exists i :: 0 <= i < |calls| && k in calls[i].features)
            && (w.next.None? ==> forall k :: k != "" && StaysEntity(calls, k) ==> k in w.entities)
            && (w.next.None? ==> forall k :: k != "" && StaysFeature(calls, k) ==> k in w.features)
  {
    hide Follow, Readable, Stretch, TextLess, Remaining;
    var cursor := Cursor("", "");
    var w := Follow(calls, cursor).value;
    FollowIsTwoStretches(calls, cursor);
    var es, fs := Entities(calls)[..w.requests], Features(calls)[..w.requests];
    StretchIncreases(es, "");
    StretchIncreases(fs, "");
    IncreasingOnce(w.entities);
    IncreasingOnce(w.features);
    forall k | k in w.entities ensures exists i :: 0 <= i < |calls| && k in calls[i].entities {
      var i :| 0 <= i < |es| && k in es[i];
      assert k in calls[i].entities;
    }
    forall k | k in w.features ensures exists i :: 0 <= i < |calls| && k in calls[i].features {
      var i :| 0 <= i < |fs| && k in fs[i];
      assert k in calls[i].features;
    }
    if w.next.None? {
      forall k | k != "" && StaysEntity(calls, k) ensures k in w.entities {
        AfterTheStart(k);
        RemainingAre(calls[w.requests - 1].entitiesThen.Keys, LastOr(w.entities, ""));
        assert forall i :: 0 <= i < |es| ==> k in es[i];
        StretchMissesNothing(es, "", k);
      }
      forall k | k != "" && StaysFeature(calls, k) ensures k in w.features {
        AfterTheStart(k);
        RemainingAre(calls[w.requests - 1].featuresThen.Keys, LastOr(w.features, ""));
        assert forall i :: 0 <= i < |fs| ==> k in fs[i];
        StretchMissesNothing(fs, "", k);
      }
    }
  }

  lemma IncreasingOnce(keys: seq<string>)
    requires Increasing(keys, TextLess)
    ensures NoRepeats(keys)
  {
    TextOrder();
  }

  lemma AfterTheStart(k: string)
    requires k != ""
    ensures TextLess("", k)
  {
  }

  /** While every row fits its budget no request fails. */
  lemma {:induction false} FollowSucceeds(calls: seq<Reads>, cursor: Cursor)
    requires forall i :: 0 <= i < |calls| ==> RowsFit(calls[i])
    ensures Follow(calls, cursor).Ok?
    decreases |calls|
  {
    hide Request, RowsFit;
    if calls != [] {
      RequestSucceeds(calls[0], cursor);
      var p := Request(calls[0], cursor).value;
      if p.next.Some? { FollowSucceeds(calls[1..], p.next.value); }
    }
  }

  predicate RowsFit(v: Reads) {
    AllFit(v.entities, v.entities.Keys) && AllFit(v.features, v.features.Keys) && AllFit(v.entitiesThen, v.entitiesThen.Keys)
    && AllFit(v.featuresThen, v.featuresThen.Keys)
  }

  lemma RequestSucceeds(v: Reads, cursor: Cursor)
    requires RowsFit(v)
    ensures Request(v, cursor).Ok?
  {
    hide BoundedPage;
    forall rows, after, limit: nat | rows in {v.entities, v.features, v.entitiesThen, v.featuresThen} ensures BoundedPage(rows, after, limit).Ok? {
      PageSucceeds(rows, after, limit);
    }
  }
}
