/** The candidate projection of approval_projection.py, kept row by row, and the groups its pages serve. */
module Projection {
  import opened Prelude
  import opened Keyset
  import opened Ordering
  import opened ReviewGroups

  datatype Row = Row(reviewKey: string, semanticSafe: bool, ambiguous: bool, importanceRank: int, risk: real, created: string,
                     entityKey: string, occurrences: nat, firstSeen: Option<string>, lastSeen: Option<string>, group: Group)

  type Rows = map<string, Row>

  function Single(id: string, c: Candidate): (m: Table)
    ensures m != map[] && m == map[id := c]
  {
    var m := map[id := c];
    assert id in m;
    m
  }

  /** The row of one pending candidate, with the group it would form alone. */
  ghost function RowOf(present: string -> string, id: string, c: Candidate): Row {
    Row(ReviewKey(c), c.identity.semanticSafe, c.identity.ambiguity, ImportanceRank(c.importance), c.riskScore,
        Or(c.createdAt, c.jobCreatedAt), EntityKey(c), OccurrenceCount(c), FirstSeen(c), LastSeen(c),
        Group(CoreOf(present, ReviewKey(c), Single(id, c)), c.identity))
  }

  /** What the projection should hold for a candidate table. */
  ghost function Project(present: string -> string, table: Table): Rows {
    map id | id in table && id != "" && table[id].status == PENDING :: RowOf(present, id, table[id])
  }

  ghost function Updated(present: string -> string, rows: Rows, id: string, c: Candidate): Rows {
    if c.status == PENDING then rows[id := RowOf(present, id, c)] else rows - {id}
  }

  // ----- incremental equals rebuilt -----

  lemma UpdateTracks(present: string -> string, table: Table, id: string, c: Candidate)
    requires id != ""
    ensures Updated(present, Project(present, table), id, c) == Project(present, table[id := c])
  {
    hide RowOf;
  }

  function TableAfter(table: Table, changes: seq<Listed>): Table {
    if changes == [] then table else TableAfter(table, changes[..|changes| - 1])[changes[|changes| - 1].id := changes[|changes| - 1].candidate]
  }

  ghost function RowsAfter(present: string -> string, rows: Rows, changes: seq<Listed>): Rows {
    if changes == [] then rows
    else Updated(present, RowsAfter(present, rows, changes[..|changes| - 1]), changes[|changes| - 1].id, changes[|changes| - 1].candidate)
  }

  /** After any sequence of candidate updates the projection is what a rebuild would make it. */
  lemma {:induction false} IncrementalIsRebuilt(present: string -> string, table: Table, changes: seq<Listed>)
    requires forall i :: 0 <= i < |changes| ==> changes[i].id != ""
    ensures RowsAfter(present, Project(present, table), changes) == Project(present, TableAfter(table, changes))
  {
    hide Updated, Project;
    if changes != [] {
      var earlier := changes[..|changes| - 1];
      IncrementalIsRebuilt(present, table, earlier);
      UpdateTracks(present, TableAfter(table, earlier), changes[|changes| - 1].id, changes[|changes| - 1].candidate);
    }
  }

  // ----- a served group -----

  const LISTED_IDS := 500

  function Take(xs: seq<string>, n: nat): seq<string> { if |xs| <= n then xs else xs[..n] }

  function RowsWith(rows: Rows, key: string): Rows { map id | id in rows && rows[id].reviewKey == key :: rows[id] }

  function RowRank(id: string, row: Row): Rank { Rank(row.importanceRank, row.risk, row.created, id) }

  function RowRanks(rows: Rows): set<Rank> { set id | id in rows :: RowRank(id, rows[id]) }

  function RowOccurrences(rows: Rows): map<string, nat> { map id | id in rows :: rows[id].occurrences }

  function RowEntities(rows: Rows): set<string> { set id | id in rows :: rows[id].entityKey }

  function RowFirsts(rows: Rows): set<string> { set id | id in rows && rows[id].firstSeen.Some? :: rows[id].firstSeen.value }

  function RowLasts(rows: Rows): set<string> { set id | id in rows && rows[id].lastSeen.Some? :: rows[id].lastSeen.value }

  datatype Item = Item(core: Core, identity: Identity, partial: bool)

  /** `group(key)`: the first row by rank, its figures replaced by those of all rows with the key. */
  ghost function ItemOf(rows: Rows, key: string): Option<Item> { ItemFrom(RowsWith(rows, key)) }

  ghost function ItemFrom(m: Rows): Option<Item> {
    RankOrder();
    if RowRanks(m) == {} then None
    else
      var id := Least(RowRanks(m), RankLess).id;
      if id !in m then None
      else
        var ids := SortedTexts(m.Keys);
        Some(Item(m[id].group.core.(
          candidateCount := |m|, occurrenceCount := SumOf(RowOccurrences(m)), entityCount := |RowEntities(m)|,
          firstSeen := MinText(RowFirsts(m)), lastSeen := MaxText(RowLasts(m)), candidateIds := Take(ids, LISTED_IDS)),
          m[id].group.identity, |ids| > LISTED_IDS))
  }

  /** A row says about its candidate what the group's figures are taken from. */
  ghost predicate Matches(id: string, row: Row, c: Candidate) {
    && RowRank(id, row) == RankOf(id, c) && row.occurrences == OccurrenceCount(c) && row.entityKey == EntityKey(c)
    && row.firstSeen == FirstSeen(c) && row.lastSeen == LastSeen(c)
  }

  lemma RowsAreMembers(present: string -> string, table: Table, key: string)
    requires "" !in table
    ensures var m, rows := Members(table, key), RowsWith(Project(present, table), key);
            && rows.Keys == m.Keys && (forall id :: id in m ==> rows[id] == RowOf(present, id, m[id]) && Matches(id, rows[id], m[id]))
  {
    hide CoreOf, ImportanceRank, OccurrenceCount, EntityKey, FirstSeen, LastSeen, Members, RowsWith, Project;
    ReviewKeysKept(present, table, key);
    MembersKept(table, key);
  }

  lemma MembersKept(table: Table, key: string)
    ensures forall id :: id in Members(table, key) ==> id in table && Members(table, key)[id] == table[id]
  {
  }

  /** Matching rows give the same figures. */
  lemma MatchingFigures(rows: Rows, m: Table)
    requires rows.Keys == m.Keys && forall id :: id in m ==> Matches(id, rows[id], m[id])
    ensures RowRanks(rows) == Ranks(m) && RowOccurrences(rows) == Occurrences(m) && RowEntities(rows) == EntityKeys(m)
  {
    hide RankOf, RowRank, OccurrenceCount, EntityKey, FirstSeen, LastSeen;
    assert forall id :: id in m ==> RowRank(id, rows[id]) in RowRanks(rows) && RankOf(id, m[id]) in Ranks(m);
  }

  lemma MatchingBounds(rows: Rows, m: Table)
    requires rows.Keys == m.Keys && forall id :: id in m ==> Matches(id, rows[id], m[id])
    ensures RowFirsts(rows) == Firsts(m) && RowLasts(rows) == Lasts(m)
  {
    hide RankOf, RowRank, OccurrenceCount, EntityKey, FirstSeen, LastSeen;
  }

  lemma ReviewKeysKept(present: string -> string, table: Table, key: string)
    requires "" !in table
    ensures RowsWith(Project(present, table), key) == map id | id in Members(table, key) :: RowOf(present, id, table[id])
  {
    hide CoreOf, ReviewKey;
  }

  /** The group its members define, ids cut at 500. */
  ghost predicate Serves(present: string -> string, key: string, m: Table, item: Option<Item>)
    requires m != map[]
  {
    && item.Some?
    && item.value.core == CoreOf(present, key, m).(candidateIds := Take(SortedTexts(m.Keys), LISTED_IDS))
    && (item.value.partial <==> |m| > LISTED_IDS)
    && item.value.identity == m[RepresentativeId(m)].identity
  }

  /** The row of each member, its own group inside. */
  ghost predicate Carries(present: string -> string, key: string, rows: Rows, m: Table) {
    && rows.Keys == m.Keys
    && forall id :: id in m ==> rows[id].group == Group(CoreOf(present, key, Single(id, m[id])), m[id].identity)
  }

  lemma ItemIsDefined(present: string -> string, key: string, rows: Rows, m: Table)
    requires m != map[] && Carries(present, key, rows, m)
    requires RowRanks(rows) == Ranks(m) && RowOccurrences(rows) == Occurrences(m) && RowEntities(rows) == EntityKeys(m)
    requires RowFirsts(rows) == Firsts(m) && RowLasts(rows) == Lasts(m)
    ensures Serves(present, key, m, ItemFrom(rows))
  {
    hide *;
    var id := RepresentativeId(m);
    CarriesMember(present, key, rows, m, id);
    OnlyMember(present, key, id, m[id]);
    ListedCount(m.Keys);
    ItemPicks(rows, m);
    CoreUnfolds(present, key, m);
    ServesUnfolds(present, key, m, ItemFrom(rows));
  }

  lemma CarriesMember(present: string -> string, key: string, rows: Rows, m: Table, id: string)
    requires Carries(present, key, rows, m) && id in m
    ensures rows.Keys == m.Keys && |rows| == |m| && rows[id].group == Group(CoreOf(present, key, Single(id, m[id])), m[id].identity)
  {
    hide CoreOf;
    assert |rows| == |rows.Keys| == |m.Keys| == |m|;
  }

  lemma ItemPicks(rows: Rows, m: Table)
    requires m != map[] && rows.Keys == m.Keys && RowRanks(rows) == Ranks(m)
    ensures var id := RepresentativeId(m); var ids := SortedTexts(rows.Keys);
            ItemFrom(rows) == Some(Item(rows[id].group.core.(
              candidateCount := |rows|, occurrenceCount := SumOf(RowOccurrences(rows)), entityCount := |RowEntities(rows)|,
              firstSeen := MinText(RowFirsts(rows)), lastSeen := MaxText(RowLasts(rows)), candidateIds := Take(ids, LISTED_IDS)),
              rows[id].group.identity, |ids| > LISTED_IDS))
  {
    hide Ranks, RowRanks;
  }

  lemma CoreUnfolds(present: string -> string, key: string, m: Table)
    requires m != map[]
    ensures var id := RepresentativeId(m); var c := m[id];
            CoreOf(present, key, m) == Core(
              key, c.identity.semanticSafe, TitleOf(present, c.identity, c), SummaryOf(present, c.identity, c), Or(c.importance, "medium"),
              |m|, SumOf(Occurrences(m)), |EntityKeys(m)|, MinText(Firsts(m)), MaxText(Lasts(m)), SortedTexts(m.Keys), id, c)
  {
  }

  lemma ServesUnfolds(present: string -> string, key: string, m: Table, item: Option<Item>)
    requires m != map[] && item.Some? && item.value.identity == m[RepresentativeId(m)].identity
    requires item.value.core == CoreOf(present, key, m).(candidateIds := Take(SortedTexts(m.Keys), LISTED_IDS))
    requires item.value.partial <==> |m| > LISTED_IDS
    ensures Serves(present, key, m, item)
  {
  }

  lemma RowsCarry(present: string -> string, table: Table, key: string)
    requires "" !in table
    ensures Carries(present, key, RowsWith(Project(present, table), key), Members(table, key))
  {
    hide CoreOf, ImportanceRank, OccurrenceCount, EntityKey, FirstSeen, LastSeen, Members, RowsWith, Project, ReviewKey, Matches;
    RowsAreMembers(present, table, key);
    forall id | id in Members(table, key) ensures ReviewKey(Members(table, key)[id]) == key { MembersHaveKey(table, key, id); }
  }

  /** A group served from the projection is the one its pending members define. */
  lemma ServedIsDefined(present: string -> string, table: Table, key: string)
    requires "" !in table && Members(table, key) != map[]
    ensures Serves(present, key, Members(table, key), ItemOf(Project(present, table), key))
  {
    hide *;
    var m := Members(table, key);
    var rows := RowsWith(Project(present, table), key);
    RowsAreMembers(present, table, key);
    RowsCarry(present, table, key);
    MatchingFigures(rows, m);
    MatchingBounds(rows, m);
    ItemIsDefined(present, key, rows, m);
    ItemOfKey(Project(present, table), key);
  }

  lemma ItemOfKey(rows: Rows, key: string)
    ensures ItemOf(rows, key) == ItemFrom(RowsWith(rows, key))
  {
  }

  lemma ListedCount(texts: set<string>)
    ensures |SortedTexts(texts)| == |texts|
  {
  }

  lemma MembersHaveKey(table: Table, key: string, id: string)
    requires id in Members(table, key)
    ensures ReviewKey(Members(table, key)[id]) == key
  {
  }

  lemma OnlyMember(present: string -> string, key: string, id: string, c: Candidate)
    ensures var core := CoreOf(present, key, Single(id, c));
            && core.reviewKey == key && core.representativeId == id && core.representative == c
            && core.semanticSafe == c.identity.semanticSafe && core.title == TitleOf(present, c.identity, c)
            && core.summary == SummaryOf(present, c.identity, c) && core.importance == Or(c.importance, "medium")
            && core.occurrenceCount == OccurrenceCount(c) && core.firstSeen == FirstSeen(c) && core.lastSeen == LastSeen(c)
  {
    hide RepresentativeId, SumOf, Occurrences, Firsts, Lasts, MinText, MaxText;
    FirstFigures(id, c);
  }

  /** Every group the projection serves agrees with the batch over all pending candidates. */
  lemma ServedAgreesWithBatch(present: string -> string, table: Table, key: string, g: Group)
    requires "" !in table && Shows(present, table, key, g)
    ensures ItemOf(Project(present, table), key).Some?
    ensures ItemOf(Project(present, table), key).value.core == g.core.(candidateIds := Take(g.core.candidateIds, LISTED_IDS))
  {
    hide ItemOf, Members, Project, RepresentativeId;
    ServedIsDefined(present, table, key);
  }

  // ----- totals -----

  /** The counts of a page, and of `approval_metrics`. */
  datatype Totals = Totals(candidates: nat, groups: nat, semantic: nat, ambiguous: nat)

  function Flag(b: bool): nat { if b then 1 else 0 }

  function Flags(m: map<string, bool>): map<string, nat> { map id | id in m :: Flag(m[id]) }

  function Raised(m: map<string, bool>): set<string> { set id | id in m && m[id] }

  ghost function RowTotals(rows: Rows): Totals {
    Totals(|rows|, |set id | id in rows :: rows[id].reviewKey|,
           SumOf(Flags(map id | id in rows :: rows[id].semanticSafe)), SumOf(Flags(map id | id in rows :: rows[id].ambiguous)))
  }

  ghost function Metrics(table: Table): Totals {
    var p := Pending(table);
    Totals(|p|, |Keys(table)|, |Raised(map id | id in p :: p[id].identity.semanticSafe)|, |Raised(map id | id in p :: p[id].identity.ambiguity)|)
  }

  /** A sum of flags counts the raised ones. */
  lemma {:induction false} SumOfFlags(m: map<string, bool>)
    ensures SumOf(Flags(m)) == |Raised(m)|
    decreases |m|
  {
    if m == map[] {
      assert Raised(m) == {} && Flags(m) == map[];
    } else {
      var k :| k in m;
      SumOfFlags(m - {k});
      SumWithout(Flags(m), k);
      assert Flags(m) - {k} == Flags(m - {k});
      assert Raised(m - {k}) == Raised(m) - {k};
    }
  }

  lemma RowFlags(present: string -> string, id: string, c: Candidate)
    ensures var row := RowOf(present, id, c);
            row.semanticSafe == c.identity.semanticSafe && row.ambiguous == c.identity.ambiguity && row.reviewKey == ReviewKey(c)
  {
  }

  lemma ProjectedRows(present: string -> string, table: Table)
    requires "" !in table
    ensures var rows, p := Project(present, table), Pending(table);
            && rows.Keys == p.Keys && |rows| == |p|
            && forall id :: id in p ==>
                 && rows[id].semanticSafe == p[id].identity.semanticSafe && rows[id].ambiguous == p[id].identity.ambiguity
                 && rows[id].reviewKey == ReviewKey(table[id]) && p[id] == table[id]
  {
    hide RowOf, ReviewKey;
    var rows, p := Project(present, table), Pending(table);
    assert rows.Keys == p.Keys;
    assert |rows| == |rows.Keys| == |p.Keys| == |p|;
    forall id | id in p ensures rows[id] == RowOf(present, id, table[id]) { RowFlags(present, id, table[id]); }
    forall id | id in p { RowFlags(present, id, table[id]); }
  }

  lemma ProjectedFlags(present: string -> string, table: Table)
    requires "" !in table
    ensures var rows, p := Project(present, table), Pending(table);
            && (map id | id in rows :: rows[id].semanticSafe) == (map id | id in p :: p[id].identity.semanticSafe)
            && (map id | id in rows :: rows[id].ambiguous) == (map id | id in p :: p[id].identity.ambiguity)
  {
    hide Project, Pending, ReviewKey;
    ProjectedRows(present, table);
  }

  lemma ProjectedKeys(present: string -> string, table: Table)
    requires "" !in table
    ensures var rows := Project(present, table);
            |rows| == |Pending(table)| && (set id | id in rows :: rows[id].reviewKey) == Keys(table)
  {
    hide Project, ReviewKey;
    ProjectedRows(present, table);
    assert forall id :: id in Pending(table) <==> id in table && table[id].status == PENDING;
  }

  /** The totals of a page are those of the pending candidates. */
  lemma TotalsAgree(present: string -> string, table: Table)
    requires "" !in table
    ensures RowTotals(Project(present, table)) == Metrics(table)
  {
    hide Project, Pending, Keys, RowOf, SumOf, Flags, Raised;
    ProjectedFlags(present, table);
    ProjectedKeys(present, table);
    var p := Pending(table);
    SumOfFlags(map id | id in p :: p[id].identity.semanticSafe);
    SumOfFlags(map id | id in p :: p[id].identity.ambiguity);
  }

  // ----- the stored projection -----

  const REBUILD_PAGE: nat := 250

  lemma ElementsGrow(xs: seq<string>, i: nat)
    requires i <= |xs|
    ensures Elements(xs[..i]) == if i == 0 then {} else Elements(xs[..i - 1]) + {xs[i - 1]}
  {
    if i > 0 { assert xs[..i] == xs[..i - 1] + [xs[i - 1]]; }
  }

  class ApprovalProjection {
    const present: string -> string
    var rows: Rows
    var generation: nat

    constructor (present: string -> string)
      ensures this.present == present && rows == Project(present, map[])
    {
      this.present, rows, generation := present, map[], 0;
    }

    /** `update_projection`. */
    method Update(id: string, c: Candidate)
      requires id != ""
      modifies `rows
      ensures rows == Updated(present, old(rows), id, c)
    {
      hide EntityKey, OccurrenceCount, FirstSeen, LastSeen, Or, ImportanceRank, Members, TableOf, SortedTexts, Single;
      if c.status != PENDING {
        rows := rows - {id};
        return;
      }
      var groups := BuildReviewGroups(present, [Listed(id, c)]);
      OneGroup(present, id, c);
      var group := groups[0];
      OnlyMember(present, ReviewKey(c), id, c);
      var rank := RankOf(id, c);
      rows := rows[id := Row(group.core.reviewKey, group.core.semanticSafe, group.identity.ambiguity, rank.importance, rank.risk,
                             rank.created, EntityKey(c), group.core.occurrenceCount, group.core.firstSeen, group.core.lastSeen, group)];
    }

    /** One page of a rebuild. */
    method UpdatePage(table: Table, page: seq<string>, ghost done: set<string>)
      requires (forall id :: id in page ==> id in table && id != "") && rows == Project(present, Restrict(table, done))
      modifies `rows
      ensures rows == Project(present, Restrict(table, done + Elements(page)))
    {
      hide *;
      ElementsGrow(page, 0);
      assert done + {} == done;
      for i := 0 to |page|
        invariant rows == Project(present, Restrict(table, done + Elements(page[..i])))
      {
        var id := page[i];
        Update(id, table[id]);
        UpdateTracks(present, Restrict(table, done + Elements(page[..i])), id, table[id]);
        RestrictGrows(table, done + Elements(page[..i]), id);
        ElementsGrow(page, i + 1);
        assert done + Elements(page[..i + 1]) == done + Elements(page[..i]) + {id};
      }
      assert page[..|page|] == page;
    }

    /** `rebuild_projection`: all candidates, a page of ids after the last one at a time. */
    method Rebuild(table: Table)
      modifies this
      ensures rows == Project(present, table) && generation == old(generation) + 1
    {
      hide *;
      rows := map[];
      var after := "";
      RebuildStarts(present, table);
      var page := FetchPage(table.Keys, after, REBUILD_PAGE);
      while page != []
        invariant rows == Project(present, Restrict(table, DoneBefore(table, after)))
        invariant page == Page(table.Keys, after, REBUILD_PAGE) && Remaining(table.Keys, after) <= table.Keys - {""}
        decreases |Remaining(table.Keys, after)|
        modifies `rows
      {
        RebuildAdvances(table, after);
        UpdatePage(table, page, DoneBefore(table, after));
        after := page[|page| - 1];
        page := FetchPage(table.Keys, after, REBUILD_PAGE);
      }
      RebuildEnds(present, table, after);
      generation := generation + 1;
    }
  }

  /** The ids a rebuild has covered when it asks for those after `after`. */
  function DoneBefore(table: Table, after: string): set<string> { table.Keys - {""} - Remaining(table.Keys, after) }

  lemma RebuildStarts(present: string -> string, table: Table)
    ensures REBUILD_PAGE > 0 && Remaining(table.Keys, "") <= table.Keys - {""}
    ensures Project(present, Restrict(table, DoneBefore(table, ""))) == map[]
  {
    hide Project, Remaining;
    RemainingStart(table.Keys);
    RestrictEnds(present, table);
    assert DoneBefore(table, "") == {};
  }

  lemma RebuildAdvances(table: Table, after: string)
    requires Page(table.Keys, after, REBUILD_PAGE) != [] && Remaining(table.Keys, after) <= table.Keys - {""}
    ensures var page := Page(table.Keys, after, REBUILD_PAGE); var last := page[|page| - 1];
            && DoneBefore(table, last) == DoneBefore(table, after) + Elements(page)
            && |Remaining(table.Keys, last)| < |Remaining(table.Keys, after)| && Remaining(table.Keys, last) <= table.Keys - {""}
            && (forall id :: id in page ==> id in table && id != "")
  {
    hide Page, Remaining, Elements;
    PageAdvances(table.Keys, after, REBUILD_PAGE);
  }

  lemma RebuildEnds(present: string -> string, table: Table, after: string)
    requires Page(table.Keys, after, REBUILD_PAGE) == []
    ensures Project(present, Restrict(table, DoneBefore(table, after))) == Project(present, table)
  {
    hide Project, Page, Remaining;
    PageTakesLeast(table.Keys, after, REBUILD_PAGE);
    RestrictEnds(present, table);
    assert DoneBefore(table, after) == table.Keys - {""};
  }

  function Restrict(table: Table, ids: set<string>): Table { map id | id in table && id in ids :: table[id] }

  lemma RestrictGrows(table: Table, ids: set<string>, id: string)
    requires id in table
    ensures Restrict(table, ids + {id}) == Restrict(table, ids)[id := table[id]]
  {
  }

  lemma RestrictEnds(present: string -> string, table: Table)
    ensures Project(present, Restrict(table, {})) == map[]
    ensures Project(present, Restrict(table, table.Keys - {""})) == Project(present, table)
  {
    hide RowOf;
  }

  /** What `update_projection` relies on when it takes the first group of one candidate. */
  lemma OneGroup(present: string -> string, id: string, c: Candidate)
    requires id != "" && c.status == PENDING
    ensures TableOf([Listed(id, c)]) == Single(id, c) && SortedTexts(Keys(Single(id, c))) == [ReviewKey(c)]
    ensures Members(Single(id, c), ReviewKey(c)) == Single(id, c)
  {
    assert [Listed(id, c)][..0] == [];
    assert Keys(Single(id, c)) == {ReviewKey(c)};
    TextOrder();
    ListingIs([ReviewKey(c)], {ReviewKey(c)}, TextLess);
  }
}
