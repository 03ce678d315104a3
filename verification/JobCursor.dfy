/**
 The two-key cursor of `get_job` in feature_jobs.py: entities and candidates are paged side by side, each page bounded
 in rows and in bytes, until neither collection has more.
 */
module JobCursor {
  import opened Prelude
  import opened Ordering
  import opened Keyset

  const MAX_ROWS: nat := 100
  const MAX_BYTES: nat := 1024 * 1024

  /** The rows of a collection by key, with the size of each payload. */
  type Collection = map<string, nat>

  datatype PageError = OverBudget

  /** The rows that fit: stops before the row that would pass the budget, fails at one that never fits. */
  function Fitting(rows: Collection, keys: seq<string>, limit: nat, budget: nat): Result<seq<string>, PageError>
    requires forall k :: k in keys ==> k in rows
    decreases |keys|
  {
    if keys == [] || limit == 0 then Ok([])
    else if rows[keys[0]] > MAX_BYTES then Err(OverBudget)
    else if rows[keys[0]] > budget then Ok([])
    else match Fitting(rows, keys[1..], limit - 1, budget - rows[keys[0]])
      case Err(e) => Err(e)
      case Ok(rest) => Ok([keys[0]] + rest)
  }

  /** `_bounded_json_page`. */
  ghost function BoundedPage(rows: Collection, after: string, limit: nat): Result<seq<string>, PageError> {
    Fitting(rows, SortedTexts(Remaining(rows.Keys, after)), limit, MAX_BYTES)
  }

  predicate AllFit(rows: Collection, keys: set<string>) { forall k :: k in keys && k in rows ==> rows[k] <= MAX_BYTES }

  lemma {:induction false} FittingIsPrefix(rows: Collection, keys: seq<string>, limit: nat, budget: nat)
    requires (forall k :: k in keys ==> k in rows) && Fitting(rows, keys, limit, budget).Ok?
    ensures var page := Fitting(rows, keys, limit, budget).value;
            && page <= keys && |page| <= limit && forall k :: k in page ==> rows[k] <= MAX_BYTES
    decreases |keys|
  {
    if keys != [] && limit > 0 && rows[keys[0]] <= budget {
      FittingIsPrefix(rows, keys[1..], limit - 1, budget - rows[keys[0]]);
      assert keys == [keys[0]] + keys[1..];
    }
  }

  lemma {:induction false} FittingSucceeds(rows: Collection, keys: seq<string>, limit: nat, budget: nat)
    requires forall k :: k in keys ==> k in rows && rows[k] <= MAX_BYTES
    ensures Fitting(rows, keys, limit, budget).Ok?
    decreases |keys|
  {
    if keys != [] && limit > 0 && rows[keys[0]] <= budget {
      FittingSucceeds(rows, keys[1..], limit - 1, budget - rows[keys[0]]);
    }
  }

  /** A page is the next stretch of keys; it is empty only at the end, and what follows it is the rest. */
  lemma PageIsNextStretch(rows: Collection, after: string, limit: nat)
    requires limit > 0 && BoundedPage(rows, after, limit).Ok?
    ensures var page := BoundedPage(rows, after, limit).value; var rest := Remaining(rows.Keys, after);
            && |page| <= limit && (page == [] <==> rest == {}) && (forall k :: k in page ==> k in rows && rows[k] <= MAX_BYTES)
            && (page != [] ==>
                 var last := page[|page| - 1];
                 && SortedTexts(rest) == page + SortedTexts(Remaining(rows.Keys, last))
                 && |Remaining(rows.Keys, last)| < |rest|)
  {
    hide Remaining, Fitting, TextLess, Increasing;
    var rest := Remaining(rows.Keys, after);
    var sorted := SortedTexts(rest);
    RemainingOf(rows.Keys, after);
    FittingIsPrefix(rows, sorted, limit, MAX_BYTES);
    var page := BoundedPage(rows, after, limit).value;
    FittingStarts(rows, sorted, limit);
    assert forall i :: 0 <= i < |page| ==> page[i] == sorted[i] && sorted[i] in sorted;
    if page != [] { AfterPrefix(rows.Keys, after, page); }
  }

  function Bytes(rows: Collection, keys: seq<string>): nat
    requires forall k :: k in keys ==> k in rows
  {
    if keys == [] then 0 else Bytes(rows, keys[..|keys| - 1]) + rows[keys[|keys| - 1]]
  }

  lemma {:induction false} BytesFrom(rows: Collection, k: string, keys: seq<string>)
    requires k in rows && forall x :: x in keys ==> x in rows
    ensures Bytes(rows, [k] + keys) == rows[k] + Bytes(rows, keys)
  {
    if keys == [] {
      assert [k][..0] == [];
    } else {
      var n := |keys| - 1;
      assert ([k] + keys)[..|keys|] == [k] + keys[..n];
      BytesFrom(rows, k, keys[..n]);
    }
  }

  /** The next row is one that never fits, where the rows before it fit. */
  ghost predicate StopsAt(rows: Collection, keys: seq<string>, limit: nat, budget: nat, n: nat)
    requires forall k :: k in keys ==> k in rows
  {
    n < |keys| && n < limit && Bytes(rows, keys[..n]) <= budget && rows[keys[n]] > MAX_BYTES
  }

  /** A page takes rows up to its limit and its bytes, and leaves out only a row it has no room for. */
  ghost predicate TakesAll(rows: Collection, keys: seq<string>, limit: nat, budget: nat, page: seq<string>)
    requires forall k :: k in keys ==> k in rows
  {
    && page <= keys && |page| <= limit && Bytes(rows, page) <= budget
    && (|page| < limit && |page| < |keys| ==> rows[keys[|page|]] <= MAX_BYTES && Bytes(rows, page) + rows[keys[|page|]] > budget)
  }

  lemma {:induction false} FittingIsFull(rows: Collection, keys: seq<string>, limit: nat, budget: nat)
    requires (forall k :: k in keys ==> k in rows) && budget <= MAX_BYTES
    ensures match Fitting(rows, keys, limit, budget)
            case Ok(page) => TakesAll(rows, keys, limit, budget, page)
            case Err(_) => exists n: nat :: StopsAt(rows, keys, limit, budget, n)
    decreases |keys|
  {
    hide StopsAt, TakesAll, Bytes;
    if keys == [] || limit == 0 || budget < rows[keys[0]] <= MAX_BYTES {
      assert TakesAll(rows, keys, limit, budget, []) by { NothingTaken(rows, keys, limit, budget); }
    } else if rows[keys[0]] > MAX_BYTES {
      assert StopsAt(rows, keys, limit, budget, 0) by { StopsAtOnce(rows, keys, limit, budget); }
    } else {
      var k, rest := keys[0], keys[1..];
      FittingIsFull(rows, rest, limit - 1, budget - rows[k]);
      match Fitting(rows, rest, limit - 1, budget - rows[k]) {
        case Ok(page) => OneMoreTaken(rows, keys, limit, budget, page);
        case Err(_) =>
          var n: nat :| StopsAt(rows, rest, limit - 1, budget - rows[k], n);
          OneMoreStops(rows, keys, limit, budget, n);
      }
    }
  }

  lemma NothingTaken(rows: Collection, keys: seq<string>, limit: nat, budget: nat)
    requires (forall k :: k in keys ==> k in rows) && (keys == [] || limit == 0 || budget < rows[keys[0]] <= MAX_BYTES)
    ensures TakesAll(rows, keys, limit, budget, [])
  {
  }

  lemma StopsAtOnce(rows: Collection, keys: seq<string>, limit: nat, budget: nat)
    requires keys != [] && limit > 0 && (forall k :: k in keys ==> k in rows) && rows[keys[0]] > MAX_BYTES
    ensures StopsAt(rows, keys, limit, budget, 0)
  {
  }

  lemma OneMoreTaken(rows: Collection, keys: seq<string>, limit: nat, budget: nat, page: seq<string>)
    requires keys != [] && limit > 0 && (forall k :: k in keys ==> k in rows) && rows[keys[0]] <= budget
    requires TakesAll(rows, keys[1..], limit - 1, budget - rows[keys[0]], page)
    ensures TakesAll(rows, keys, limit, budget, [keys[0]] + page)
  {
    assert keys == [keys[0]] + keys[1..];
    BytesFrom(rows, keys[0], page);
  }

  lemma OneMoreStops(rows: Collection, keys: seq<string>, limit: nat, budget: nat, n: nat)
    requires keys != [] && limit > 0 && (forall k :: k in keys ==> k in rows) && rows[keys[0]] <= budget
    requires StopsAt(rows, keys[1..], limit - 1, budget - rows[keys[0]], n)
    ensures StopsAt(rows, keys, limit, budget, n + 1)
  {
    assert keys[..n + 1] == [keys[0]] + keys[1..][..n];
    BytesFrom(rows, keys[0], keys[1..][..n]);
  }

  /** A page stays within its rows and its bytes and is as long as both allow; it fails exactly where a row over the whole
      budget would come next. */
  lemma PageIsFull(rows: Collection, after: string, limit: nat)
    ensures var sorted := SortedTexts(Remaining(rows.Keys, after));
            match BoundedPage(rows, after, limit)
            case Ok(page) => TakesAll(rows, sorted, limit, MAX_BYTES, page)
            case Err(_) => exists n: nat :: StopsAt(rows, sorted, limit, MAX_BYTES, n)
  {
    FittingIsFull(rows, SortedTexts(Remaining(rows.Keys, after)), limit, MAX_BYTES);
  }

  lemma RemainingOf(keys: set<string>, after: string)
    ensures Remaining(keys, after) <= keys && (SortedTexts(Remaining(keys, after)) == [] <==> Remaining(keys, after) == {})
  {
  }

  /** The first row always fits an empty page. */
  lemma FittingStarts(rows: Collection, keys: seq<string>, limit: nat)
    requires limit > 0 && (forall k :: k in keys ==> k in rows) && Fitting(rows, keys, limit, MAX_BYTES).Ok?
    ensures Fitting(rows, keys, limit, MAX_BYTES).value == [] <==> keys == []
  {
  }

  lemma AfterPrefix(keys: set<string>, after: string, page: seq<string>)
    requires page != [] && page <= SortedTexts(Remaining(keys, after))
    ensures var rest := Remaining(keys, page[|page| - 1]);
            && SortedTexts(Remaining(keys, after)) == page + SortedTexts(rest) && |rest| < |Remaining(keys, after)|
  {
    hide TextLess, Remaining, SortedTexts;
    var sorted := SortedTexts(Remaining(keys, after));
    assert Page(keys, after, |page|) == page;
    PageCuts(keys, after, |page|);
    TailIsRest(sorted, Remaining(keys, after), |page|);
    assert sorted[..|page|] == page;
  }

  lemma TailIsRest(sorted: seq<string>, all: set<string>, n: nat)
    requires sorted == SortedTexts(all) && 0 < n <= |sorted|
    ensures var rest := all - Elements(sorted[..n]);
            sorted == sorted[..n] + SortedTexts(rest) && |rest| < |all|
  {
    hide TextLess;
    TextOrder();
    var page, tail := sorted[..n], sorted[n..];
    assert sorted == page + tail;
    forall k ensures k in tail <==> k in all - Elements(page) {
      if k in tail {
        var i :| 0 <= i < |tail| && tail[i] == k;
        assert sorted[n + i] == k;
      }
    }
    ListingIs(tail, all - Elements(page), TextLess);
  }

  // ----- following the cursor -----

  datatype Cursor = Cursor(entity: string, feature: string)

  datatype Preview = Preview(entities: seq<string>, features: seq<string>, next: Option<Cursor>)

  function LastOr(page: seq<string>, otherwise: string): string { if page == [] then otherwise else page[|page| - 1] }

  /** What the reads of one request see: the two pages, then the two looks ahead. */
  datatype Reads = Reads(entities: Collection, features: Collection, entitiesThen: Collection, featuresThen: Collection)

  /** One `get_job` of a paged job. */
  ghost function Request(v: Reads, cursor: Cursor): Result<Preview, PageError> {
    match BoundedPage(v.entities, cursor.entity, MAX_ROWS)
    case Err(e) => Err(e)
    case Ok(es) => match BoundedPage(v.features, cursor.feature, MAX_ROWS)
      case Err(e) => Err(e)
      case Ok(fs) =>
        var next := Cursor(LastOr(es, cursor.entity), LastOr(fs, cursor.feature));
        match BoundedPage(v.entitiesThen, next.entity, 1)
        case Err(e) => Err(e)
        case Ok(one) =>
          if one != [] then Ok(Preview(es, fs, Some(next)))
          else match BoundedPage(v.featuresThen, next.feature, 1)
            case Err(e) => Err(e)
            case Ok(other) => Ok(Preview(es, fs, if other != [] then Some(next) else None))
  }

  /** One request while the tables stay as they are. */
  ghost function GetJob(entities: Collection, features: Collection, cursor: Cursor): Result<Preview, PageError> {
    Request(Reads(entities, features, entities, features), cursor)
  }

  function Left(entities: Collection, features: Collection, cursor: Cursor): nat {
    |Remaining(entities.Keys, cursor.entity)| + |Remaining(features.Keys, cursor.feature)|
  }

  /** One preview: its pages are the next stretches, and a next cursor means fewer keys are left. */
  lemma PreviewAdvances(entities: Collection, features: Collection, cursor: Cursor)
    requires GetJob(entities, features, cursor).Ok?
    ensures var p := GetJob(entities, features, cursor).value;
            var es, fs := SortedTexts(Remaining(entities.Keys, cursor.entity)), SortedTexts(Remaining(features.Keys, cursor.feature));
            && (forall k :: k in p.entities ==> k in entities && entities[k] <= MAX_BYTES)
            && (forall k :: k in p.features ==> k in features && features[k] <= MAX_BYTES)
            && |p.entities| <= MAX_ROWS && |p.features| <= MAX_ROWS
            && (p.next.None? ==> es == p.entities && fs == p.features)
            && (p.next.Some? ==>
                 && es == p.entities + SortedTexts(Remaining(entities.Keys, p.next.value.entity))
                 && fs == p.features + SortedTexts(Remaining(features.Keys, p.next.value.feature))
                 && 0 < Left(entities, features, p.next.value) < Left(entities, features, cursor))
  {
    hide Remaining, SortedTexts, BoundedPage, TextLess;
    PageIsNextStretch(entities, cursor.entity, MAX_ROWS);
    PageIsNextStretch(features, cursor.feature, MAX_ROWS);
    var es := BoundedPage(entities, cursor.entity, MAX_ROWS).value;
    var fs := BoundedPage(features, cursor.feature, MAX_ROWS).value;
    var next := Cursor(LastOr(es, cursor.entity), LastOr(fs, cursor.feature));
    PageIsNextStretch(entities, next.entity, 1);
    if BoundedPage(entities, next.entity, 1).value == [] { PageIsNextStretch(features, next.feature, 1); }
    NothingSorted();
  }

  lemma NothingSorted()
    ensures SortedTexts({}) == []
  {
  }

  datatype Walked = Walked(entities: seq<string>, features: seq<string>)

  /** Following the cursor to the end. */
  ghost function Walk(entities: Collection, features: Collection, cursor: Cursor): Result<Walked, PageError>
    decreases Left(entities, features, cursor)
  {
    match GetJob(entities, features, cursor)
    case Err(e) => Err(e)
    case Ok(p) =>
      if p.next.None? then Ok(Walked(p.entities, p.features))
      else
        PreviewAdvances(entities, features, cursor);
        match Walk(entities, features, p.next.value)
        case Err(e) => Err(e)
        case Ok(rest) => Ok(Walked(p.entities + rest.entities, p.features + rest.features))
  }

  /** A walk that ends has yielded every key after the cursor, of both collections, once and in order. */
  lemma {:induction false} WalkYieldsAll(entities: Collection, features: Collection, cursor: Cursor)
    requires Walk(entities, features, cursor).Ok?
    ensures var w := Walk(entities, features, cursor).value;
            && w.entities == SortedTexts(Remaining(entities.Keys, cursor.entity))
            && w.features == SortedTexts(Remaining(features.Keys, cursor.feature))
            && (forall k :: k in w.entities ==> k in entities && entities[k] <= MAX_BYTES)
            && (forall k :: k in w.features ==> k in features && features[k] <= MAX_BYTES)
    decreases Left(entities, features, cursor)
  {
    hide GetJob, Remaining, SortedTexts;
    PreviewAdvances(entities, features, cursor);
    var p := GetJob(entities, features, cursor).value;
    if p.next.Some? { WalkYieldsAll(entities, features, p.next.value); }
  }

  lemma PageSucceeds(rows: Collection, after: string, limit: nat)
    requires AllFit(rows, rows.Keys - {""})
    ensures BoundedPage(rows, after, limit).Ok?
  {
    FittingSucceeds(rows, SortedTexts(Remaining(rows.Keys, after)), limit, MAX_BYTES);
  }

  lemma {:induction false} WalkSucceeds(entities: Collection, features: Collection, cursor: Cursor)
    requires AllFit(entities, entities.Keys - {""}) && AllFit(features, features.Keys - {""})
    ensures Walk(entities, features, cursor).Ok?
    decreases Left(entities, features, cursor)
  {
    hide BoundedPage, Remaining, AllFit;
    forall rows, after, limit: nat | rows in {entities, features} ensures BoundedPage(rows, after, limit).Ok? { PageSucceeds(rows, after, limit); }
    var p := GetJob(entities, features, cursor);
    assert p.Ok?;
    PreviewAdvances(entities, features, cursor);
    if p.value.next.Some? { WalkSucceeds(entities, features, p.value.next.value); }
  }

  /** From the start the walk yields every entity and every candidate exactly once, however unequal the collections,
      if and only if no single row is over the byte budget. */
  lemma WholeWalk(entities: Collection, features: Collection)
    requires "" !in entities && "" !in features
    ensures Walk(entities, features, Cursor("", "")).Ok? <==> AllFit(entities, entities.Keys) && AllFit(features, features.Keys)
    ensures Walk(entities, features, Cursor("", "")).Ok? ==>
              var w := Walk(entities, features, Cursor("", "")).value;
              && w.entities == SortedTexts(entities.Keys) && w.features == SortedTexts(features.Keys)
              && (forall k :: k in entities <==> k in w.entities) && (forall i, j :: 0 <= i < j < |w.entities| ==> w.entities[i] != w.entities[j])
              && (forall k :: k in features <==> k in w.features) && (forall i, j :: 0 <= i < j < |w.features| ==> w.features[i] != w.features[j])
  {
    hide Walk, TextLess, Remaining;
    TextOrder();
    RemainingStart(entities.Keys);
    RemainingStart(features.Keys);
    assert entities.Keys - {""} == entities.Keys && features.Keys - {""} == features.Keys;
    if Walk(entities, features, Cursor("", "")).Ok? { WalkYieldsAll(entities, features, Cursor("", "")); }
    if AllFit(entities, entities.Keys) && AllFit(features, features.Keys) { WalkSucceeds(entities, features, Cursor("", "")); }
  }

  function Prepended(page: seq<string>, result: Result<seq<string>, PageError>): Result<seq<string>, PageError> {
    match result case Err(e) => Err(e) case Ok(rest) => Ok(page + rest)
  }

  lemma PrependNothing(result: Result<seq<string>, PageError>)
    ensures Prepended([], result) == result
  {
    if result.Ok? { assert [] + result.value == result.value; }
  }

  lemma PrependTwice(page: seq<string>, k: string, result: Result<seq<string>, PageError>)
    ensures Prepended(page, Prepended([k], result)) == Prepended(page + [k], result)
  {
    if result.Ok? { assert page + ([k] + result.value) == page + [k] + result.value; }
  }

  /** The page as it is read: key and size first, the payload only when it still fits. */
  method ReadPage(rows: Collection, after: string, limit: nat) returns (result: Result<seq<string>, PageError>)
    ensures result == BoundedPage(rows, after, limit)
  {
    var keys := SortTexts(Remaining(rows.Keys, after));
    assert forall k :: k in keys ==> k in rows;
    result := ReadRows(rows, keys, limit);
  }

  method ReadRows(rows: Collection, keys: seq<string>, limit: nat) returns (result: Result<seq<string>, PageError>)
    requires forall k :: k in keys ==> k in rows
    ensures result == Fitting(rows, keys, limit, MAX_BYTES)
  {
    hide Prepended, Fitting;
    var page: seq<string>, size: nat := [], 0;
    PrependNothing(Fitting(rows, keys, limit, MAX_BYTES));
    assert keys[0..] == keys;
    while |page| < |keys| && |page| < limit
      invariant |page| <= |keys| && |page| <= limit && size <= MAX_BYTES
      invariant Fitting(rows, keys, limit, MAX_BYTES) == Prepended(page, Fitting(rows, keys[|page|..], limit - |page|, MAX_BYTES - size))
      decreases |keys| - |page|
    {
      var k := keys[|page|];
      var rest := keys[|page|..];
      assert rest[0] == k && rest[1..] == keys[|page| + 1..];
      StepFits(rows, rest, limit - |page|, MAX_BYTES - size);
      if rows[k] > MAX_BYTES {
        PrependEnds(page);
        return Err(OverBudget);
      }
      if size + rows[k] > MAX_BYTES {
        PrependEnds(page);
        return Ok(page);
      }
      PrependTwice(page, k, Fitting(rows, rest[1..], limit - |page| - 1, MAX_BYTES - size - rows[k]));
      page, size := page + [k], size + rows[k];
    }
    NothingFits(rows, keys[|page|..], limit - |page|, MAX_BYTES - size);
    PrependEnds(page);
    result := Ok(page);
  }

  lemma NothingFits(rows: Collection, keys: seq<string>, limit: nat, budget: nat)
    requires (forall k :: k in keys ==> k in rows) && (keys == [] || limit == 0)
    ensures Fitting(rows, keys, limit, budget) == Ok([])
  {
  }

  lemma StepFits(rows: Collection, keys: seq<string>, limit: nat, budget: nat)
    requires keys != [] && limit > 0 && (forall k :: k in keys ==> k in rows)
    ensures rows[keys[0]] > MAX_BYTES ==> Fitting(rows, keys, limit, budget) == Err(OverBudget)
    ensures budget < rows[keys[0]] <= MAX_BYTES ==> Fitting(rows, keys, limit, budget) == Ok([])
    ensures rows[keys[0]] <= budget <= MAX_BYTES ==>
              Fitting(rows, keys, limit, budget) == Prepended([keys[0]], Fitting(rows, keys[1..], limit - 1, budget - rows[keys[0]]))
  {
  }

  lemma PrependEnds(page: seq<string>)
    ensures Prepended(page, Err(OverBudget)) == Err(OverBudget) && Prepended(page, Ok([])) == Ok(page)
  {
    assert page + [] == page;
  }
}
