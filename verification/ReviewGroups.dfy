/** The logical review groups of approval_queue.py: what a group of pending candidates shows, and the batch that builds them. */
module ReviewGroups {
  import opened Prelude
  import opened Keyset
  import opened Ordering
  import EntityNames

  /** What `approval_identity` derives from a candidate. */
  datatype Identity = Identity(code: string, approvalKey: string, semanticSafe: bool, ambiguity: bool, source: string)

  /** A stored candidate; an empty text stands for a missing one. */
  datatype Candidate = Candidate(
    status: string, identity: Identity, legacy: bool, physicalKey: string, importance: string, riskScore: real,
    createdAt: string, jobCreatedAt: string, cluster: string, entityType: string, entityId: string,
    flatEntityType: string, flatEntityId: string, rangeFirst: string, rangeLast: string, windowStart: string,
    windowEnd: string, occurrences: Option<int>, templateCounts: seq<int>, title: string, summary: string, details: string)

  type Table = map<string, Candidate>

  const PENDING := "pending"

  function Or(a: string, b: string): string { if a != "" then a else b }

  function Clamp(n: int): nat { if n < 0 then 0 else n }

  function ClampedSum(counts: seq<int>): nat { if counts == [] then 0 else Clamp(counts[0]) + ClampedSum(counts[1..]) }

  function OccurrenceCount(c: Candidate): nat {
    if c.occurrences.Some? then Clamp(c.occurrences.value) else ClampedSum(c.templateCounts)
  }

  function EntityKey(c: Candidate): string {
    EntityNames.Key(c.cluster, Or(c.entityType, c.flatEntityType), Or(c.entityId, c.flatEntityId))
  }

  function Text(s: string): Option<string> { if s == "" then None else Some(s) }

  function FirstSeen(c: Candidate): Option<string> { Text(Or(c.rangeFirst, Or(c.windowStart, c.createdAt))) }

  function LastSeen(c: Candidate): Option<string> {
    Text(Or(c.rangeLast, Or(c.windowEnd, Or(c.rangeFirst, Or(c.windowStart, c.createdAt)))))
  }

  function ReviewKey(c: Candidate): string {
    if c.identity.semanticSafe then "semantic:" + c.identity.code
    else "approval:" + (if c.legacy then Or(c.physicalKey, c.identity.approvalKey) else c.identity.approvalKey)
  }

  /** The key alone says whether a group is semantic, and then which problem it is about. */
  lemma KeyDecidesSemantic(a: Candidate, b: Candidate)
    requires ReviewKey(a) == ReviewKey(b)
    ensures a.identity.semanticSafe == b.identity.semanticSafe
    ensures a.identity.semanticSafe ==> a.identity.code == b.identity.code
  {
    assert "semantic:"[0] == 's' && "approval:"[0] == 'a';
    assert ReviewKey(a)[0] == (if a.identity.semanticSafe then 's' else 'a');
    assert ReviewKey(b)[0] == (if b.identity.semanticSafe then 's' else 'a');
    if a.identity.semanticSafe {
      assert a.identity.code == ReviewKey(a)[|"semantic:"|..] == ReviewKey(b)[|"semantic:"|..] == b.identity.code;
    }
  }

  // ----- the representative -----

  datatype Rank = Rank(importance: int, risk: real, created: string, id: string)

  function ImportanceRank(importance: string): int {
    match Or(importance, "medium")
    case "critical" => 4 case "high" => 3 case "medium" => 2 case "low" => 1 case _ => 0
  }

  function RankOf(id: string, c: Candidate): Rank {
    Rank(ImportanceRank(c.importance), c.riskScore, Or(c.createdAt, c.jobCreatedAt), id)
  }

  /** More important first, then riskier, then older, then the smaller id. */
  predicate RankLess(a: Rank, b: Rank) {
    if a.importance != b.importance then a.importance > b.importance
    else if a.risk != b.risk then a.risk > b.risk
    else if a.created != b.created then TextLess(a.created, b.created)
    else TextLess(a.id, b.id)
  }

  lemma RankOrder()
    ensures StrictOrder(RankLess)
  {
    TextOrder();
  }

  function Ranks(members: Table): (ranks: set<Rank>)
    ensures members != map[] ==> ranks != {}
    ensures forall r :: r in ranks <==> r.id in members && r == RankOf(r.id, members[r.id])
  {
    var ranks := set id | id in members :: RankOf(id, members[id]);
    assert members != map[] ==> exists id :: id in members && RankOf(id, members[id]) in ranks by {
      if members != map[] { var id :| id in members; assert RankOf(id, members[id]) in ranks; }
    }
    ranks
  }

  ghost function RepresentativeId(members: Table): (id: string)
    requires members != map[]
    ensures id in members
  {
    RankOrder();
    Least(Ranks(members), RankLess).id
  }

  // ----- a group -----

  /** What a group shows, apart from the identity details the batch takes from its last member. */
  datatype Core = Core(
    reviewKey: string, semanticSafe: bool, title: string, summary: string, importance: string, candidateCount: nat,
    occurrenceCount: nat, entityCount: nat, firstSeen: Option<string>, lastSeen: Option<string>,
    candidateIds: seq<string>, representativeId: string, representative: Candidate)

  datatype Group = Group(core: Core, identity: Identity)

  function Occurrences(members: Table): map<string, nat> { map id | id in members :: OccurrenceCount(members[id]) }

  function EntityKeys(members: Table): set<string> { set id | id in members :: EntityKey(members[id]) }

  function Firsts(members: Table): set<string> {
    set id | id in members && FirstSeen(members[id]).Some? :: FirstSeen(members[id]).value
  }

  function Lasts(members: Table): set<string> {
    set id | id in members && LastSeen(members[id]).Some? :: LastSeen(members[id]).value
  }

  function TitleOf(present: string -> string, identity: Identity, c: Candidate): string {
    if identity.semanticSafe then present(identity.code) else c.title
  }

  function SummaryOf(present: string -> string, identity: Identity, c: Candidate): string {
    if identity.semanticSafe then "本组汇总“" + present(identity.code) + "”的待审批证据；各实体细节见候选记录。" else c.summary
  }

  /** The group as its members define it. */
  ghost function CoreOf(present: string -> string, key: string, members: Table): Core
    requires members != map[]
  {
    var id := RepresentativeId(members);
    var c := members[id];
    Core(key, c.identity.semanticSafe, TitleOf(present, c.identity, c), SummaryOf(present, c.identity, c), Or(c.importance, "medium"),
         |members|, SumOf(Occurrences(members)), |EntityKeys(members)|, MinText(Firsts(members)), MaxText(Lasts(members)),
         SortedTexts(members.Keys), id, c)
  }

  function Pending(table: Table): Table { map id | id in table && table[id].status == PENDING :: table[id] }

  function Members(table: Table, key: string): Table {
    map id | id in table && table[id].status == PENDING && ReviewKey(table[id]) == key :: table[id]
  }

  function Keys(table: Table): set<string> { set id | id in table && table[id].status == PENDING :: ReviewKey(table[id]) }

  // ----- the batch -----

  datatype Listed = Listed(id: string, candidate: Candidate)

  /** The first pending candidate of each non-empty id. */
  function TableOf(candidates: seq<Listed>): Table {
    if candidates == [] then map[]
    else
      var before := TableOf(candidates[..|candidates| - 1]);
      var last := candidates[|candidates| - 1];
      if last.candidate.status != PENDING || last.id == "" || last.id in before then before
      else before[last.id := last.candidate]
  }

  /** One more member: how each figure of the group changes. */
  lemma FiguresGrow(members: Table, id: string, c: Candidate)
    requires id !in members
    ensures var now := members[id := c];
            && SumOf(Occurrences(now)) == SumOf(Occurrences(members)) + OccurrenceCount(c)
            && EntityKeys(now) == EntityKeys(members) + {EntityKey(c)}
            && MinText(Firsts(now)) == LowerOf(MinText(Firsts(members)), FirstSeen(c))
            && MaxText(Lasts(now)) == UpperOf(MaxText(Lasts(members)), LastSeen(c))
            && (members != map[] ==>
                 RepresentativeId(now) == if RankLess(RankOf(id, c), RankOf(RepresentativeId(members), members[RepresentativeId(members)]))
                                          then id else RepresentativeId(members))
            && (members == map[] ==> RepresentativeId(now) == id)
  {
    var now := members[id := c];
    assert Occurrences(now) == Occurrences(members)[id := OccurrenceCount(c)];
    SumWith(Occurrences(members), id, OccurrenceCount(c));
    EntitiesGrow(members, id, c);
    BoundsGrow(members, id, c);
    RepresentativeGrows(members, id, c);
  }

  lemma EntitiesGrow(members: Table, id: string, c: Candidate)
    requires id !in members
    ensures EntityKeys(members[id := c]) == EntityKeys(members) + {EntityKey(c)}
  {
    var now := members[id := c];
    forall k | k in EntityKeys(members) + {EntityKey(c)} ensures k in EntityKeys(now) {
      if k in EntityKeys(members) { var i :| i in members && EntityKey(members[i]) == k; assert i in now; } else { assert id in now; }
    }
  }

  lemma BoundsGrow(members: Table, id: string, c: Candidate)
    requires id !in members
    ensures MinText(Firsts(members[id := c])) == LowerOf(MinText(Firsts(members)), FirstSeen(c))
    ensures MaxText(Lasts(members[id := c])) == UpperOf(MaxText(Lasts(members)), LastSeen(c))
  {
    var now := members[id := c];
    assert Firsts(now) == Firsts(members) + (if FirstSeen(c).Some? then {FirstSeen(c).value} else {}) by {
      assert forall i :: i in members ==> i in now && now[i] == members[i];
      assert now[id] == c;
    }
    assert Lasts(now) == Lasts(members) + (if LastSeen(c).Some? then {LastSeen(c).value} else {}) by {
      assert forall i :: i in members ==> i in now && now[i] == members[i];
      assert now[id] == c;
    }
    if FirstSeen(c).Some? { MinTextGrows(Firsts(members), FirstSeen(c).value); } else { assert Firsts(now) == Firsts(members); }
    if LastSeen(c).Some? { MaxTextGrows(Lasts(members), LastSeen(c).value); } else { assert Lasts(now) == Lasts(members); }
  }

  lemma RepresentativeGrows(members: Table, id: string, c: Candidate)
    requires id !in members
    ensures members != map[] ==>
              RepresentativeId(members[id := c]) ==
              if RankLess(RankOf(id, c), RankOf(RepresentativeId(members), members[RepresentativeId(members)]))
              then id else RepresentativeId(members)
    ensures members == map[] ==> RepresentativeId(members[id := c]) == id
  {
    RankOrder();
    var now := members[id := c];
    var best := if members != map[] && !RankLess(RankOf(id, c), RankOf(RepresentativeId(members), members[RepresentativeId(members)]))
                then RepresentativeId(members) else id;
    assert IsLeast(RankOf(best, now[best]), Ranks(now), RankLess) by {
      if members != map[] { assert IsLeast(Least(Ranks(members), RankLess), Ranks(members), RankLess); }
    }
    LeastIs(RankOf(best, now[best]), Ranks(now), RankLess);
  }

  /** The running figures of the pass over a group. */
  datatype Figures = Figures(best: string, occurrences: nat, entities: set<string>, first: Option<string>, last: Option<string>)

  ghost predicate Summed(f: Figures, members: Table) {
    && members != map[] && f.best == RepresentativeId(members) && f.occurrences == SumOf(Occurrences(members))
    && f.entities == EntityKeys(members) && f.first == MinText(Firsts(members)) && f.last == MaxText(Lasts(members))
  }

  function FiguresOf(id: string, c: Candidate): Figures {
    Figures(id, OccurrenceCount(c), {EntityKey(c)}, FirstSeen(c), LastSeen(c))
  }

  function Advance(f: Figures, bestCandidate: Candidate, id: string, c: Candidate): Figures {
    Figures(if RankLess(RankOf(id, c), RankOf(f.best, bestCandidate)) then id else f.best,
            f.occurrences + OccurrenceCount(c), f.entities + {EntityKey(c)}, LowerOf(f.first, FirstSeen(c)), UpperOf(f.last, LastSeen(c)))
  }

  lemma FirstFigures(id: string, c: Candidate)
    ensures Summed(FiguresOf(id, c), map[id := c])
  {
    hide RepresentativeId, OccurrenceCount, EntityKey, FirstSeen, LastSeen, RankOf, RankLess;
    FiguresGrow(map[], id, c);
  }

  lemma NextFigures(f: Figures, members: Table, id: string, c: Candidate)
    requires Summed(f, members) && id !in members
    ensures Summed(Advance(f, members[f.best], id, c), members[id := c])
  {
    hide RepresentativeId, OccurrenceCount, EntityKey, FirstSeen, LastSeen, RankOf, RankLess, Occurrences, EntityKeys, Firsts, Lasts;
    FiguresGrow(members, id, c);
    assert id in members[id := c];
  }

  /** Alike in what the review key decides. */
  predicate Agrees(a: Identity, b: Identity) {
    a.semanticSafe == b.semanticSafe && (a.semanticSafe ==> a.code == b.code)
  }

  function Gather(ids: seq<string>, table: Table): Table { map id | id in ids && id in table :: table[id] }

  lemma GatherGrows(ids: seq<string>, table: Table, id: string)
    requires id in table && id !in ids
    ensures Gather(ids + [id], table) == Gather(ids, table)[id := table[id]]
    ensures id !in Gather(ids, table)
  {
  }

  lemma SummedBest(f: Figures, members: Table)
    requires Summed(f, members)
    ensures f.best in members
  {
  }

  /** One pass over the members of a group, in arrival order. */
  method Figure(table: Table, ids: seq<string>) returns (f: Figures)
    requires ids != [] && NoRepeats(ids) && forall id :: id in ids ==> id in table
    ensures Summed(f, Gather(ids, table)) && |Gather(ids, table)| == |ids|
  {
    hide Summed, FiguresOf, Advance;
    f := FiguresOf(ids[0], table[ids[0]]);
    FirstFigures(ids[0], table[ids[0]]);
    assert Gather(ids[..1], table) == map[ids[0] := table[ids[0]]];
    for i := 1 to |ids|
      invariant Summed(f, Gather(ids[..i], table)) && |Gather(ids[..i], table)| == i
    {
      var id := ids[i];
      assert ids[..i + 1] == ids[..i] + [id] && id !in ids[..i];
      GatherGrows(ids[..i], table, id);
      SummedBest(f, Gather(ids[..i], table));
      NextFigures(f, Gather(ids[..i], table), id, table[id]);
      f := Advance(f, table[f.best], id, table[id]);
    }
    assert ids[..|ids|] == ids;
  }

  method Summarize(present: string -> string, key: string, table: Table, ids: seq<string>, identity: Identity) returns (core: Core)
    requires ids != [] && NoRepeats(ids) && forall id :: id in ids ==> id in table
    requires forall id :: id in Gather(ids, table) ==> Agrees(identity, table[id].identity)
    ensures Gather(ids, table) != map[] && core == CoreOf(present, key, Gather(ids, table))
  {
    hide Summed;
    var f := Figure(table, ids);
    var texts := set id | id in ids;
    assert Gather(ids, table).Keys == texts;
    var sorted := SortTexts(texts);
    SummedIsCore(present, key, f, Gather(ids, table));
    var c := table[f.best];
    assert Agrees(identity, c.identity);
    core := Core(key, identity.semanticSafe, TitleOf(present, identity, c), SummaryOf(present, identity, c), Or(c.importance, "medium"),
                 |ids|, f.occurrences, |f.entities|, f.first, f.last, sorted, f.best, c);
  }

  lemma SummedIsCore(present: string -> string, key: string, f: Figures, members: Table)
    requires Summed(f, members)
    ensures f.best in members
    ensures var c := members[f.best];
            CoreOf(present, key, members) ==
            Core(key, c.identity.semanticSafe, TitleOf(present, c.identity, c), SummaryOf(present, c.identity, c), Or(c.importance, "medium"),
                 |members|, f.occurrences, |f.entities|, f.first, f.last, SortedTexts(members.Keys), f.best, c)
  {
  }

  predicate Has(table: Table, key: string, id: string) { id in table && ReviewKey(table[id]) == key }

  /** The first loop's groups: per key the ids of its members, in arrival order. */
  ghost predicate Grouped(groups: map<string, seq<string>>, table: Table) {
    && (forall k :: k in groups ==> groups[k] != [] && NoRepeats(groups[k]))
    && (forall k, id :: k in groups && id in groups[k] ==> Has(table, k, id))
    && (forall id :: id in table ==> ReviewKey(table[id]) in groups && id in groups[ReviewKey(table[id])])
  }

  /** Its identities: per key that of some member, namely the last. */
  ghost predicate Identified(last: map<string, Identity>, table: Table) {
    forall k :: k in last ==> exists id :: Has(table, k, id) && table[id].identity == last[k]
  }

  function Joined(groups: map<string, seq<string>>, key: string, id: string): map<string, seq<string>> {
    groups[key := (if key in groups then groups[key] else []) + [id]]
  }

  lemma JoinKeepsGrouped(groups: map<string, seq<string>>, table: Table, id: string, c: Candidate)
    requires Grouped(groups, table) && id !in table
    ensures Grouped(Joined(groups, ReviewKey(c), id), table[id := c])
  {
    hide ReviewKey;
    var key := ReviewKey(c);
    var joined := Joined(groups, key, id);
    assert forall i :: key in groups && i in groups[key] ==> Has(table, key, i);
    assert key in groups ==> id !in groups[key];
    assert forall i :: i in joined[key] <==> i == id || (key in groups && i in groups[key]);
  }

  lemma JoinKeepsIdentified(last: map<string, Identity>, table: Table, id: string, c: Candidate)
    requires Identified(last, table) && id !in table
    ensures Identified(last[ReviewKey(c) := c.identity], table[id := c])
  {
    hide ReviewKey;
    var now := table[id := c];
    forall k | k in last && k != ReviewKey(c) ensures exists i :: Has(now, k, i) && now[i].identity == last[k] {
      var i :| Has(table, k, i) && table[i].identity == last[k];
      assert Has(now, k, i);
    }
    assert Has(now, ReviewKey(c), id);
  }

  method GroupPending(candidates: seq<Listed>) returns (table: Table, groups: map<string, seq<string>>, last: map<string, Identity>)
    ensures table == TableOf(candidates)
    ensures Grouped(groups, table) && Identified(last, table) && groups.Keys == last.Keys
  {
    hide ReviewKey, Grouped, Identified;
    table, groups, last := map[], map[], map[];
    NothingGrouped();
    for i := 0 to |candidates|
      invariant table == TableOf(candidates[..i])
      invariant Grouped(groups, table) && Identified(last, table) && groups.Keys == last.Keys
    {
      assert candidates[..i + 1][..i] == candidates[..i];
      var id, c := candidates[i].id, candidates[i].candidate;
      if c.status != PENDING || id == "" || id in table {
        continue;
      }
      JoinKeepsGrouped(groups, table, id, c);
      JoinKeepsIdentified(last, table, id, c);
      table, groups, last := table[id := c], Joined(groups, ReviewKey(c), id), last[ReviewKey(c) := c.identity];
    }
    assert candidates[..|candidates|] == candidates;
  }

  lemma NothingGrouped()
    ensures Grouped(map[], map[]) && Identified(map[], map[])
  {
  }

  lemma {:induction false} TableIsPending(candidates: seq<Listed>)
    ensures forall id :: id in TableOf(candidates) ==> TableOf(candidates)[id].status == PENDING && id != ""
  {
    if candidates != [] { TableIsPending(candidates[..|candidates| - 1]); }
  }

  /** The group's members are those of its key, and its last identity agrees with them on what the key decides. */
  lemma GroupedMembers(groups: map<string, seq<string>>, last: map<string, Identity>, table: Table, key: string)
    requires Grouped(groups, table) && Identified(last, table) && key in groups && key in last
    requires forall id :: id in table ==> table[id].status == PENDING
    ensures Gather(groups[key], table) == Members(table, key) != map[] && (forall id :: id in groups[key] ==> id in table)
    ensures forall id :: id in Members(table, key) ==> Agrees(last[key], table[id].identity)
  {
    hide ReviewKey;
    assert Has(table, key, groups[key][0]);
    assert Gather(groups[key], table) == Members(table, key);
    assert groups[key][0] in Members(table, key);
    var member :| Has(table, key, member) && table[member].identity == last[key];
    forall id | id in Members(table, key) ensures Agrees(last[key], table[id].identity) {
      KeyDecidesSemantic(table[id], table[member]);
    }
  }

  lemma GroupedKeys(groups: map<string, seq<string>>, table: Table)
    requires Grouped(groups, table) && forall id :: id in table ==> table[id].status == PENDING
    ensures groups.Keys == Keys(table)
  {
    hide ReviewKey;
    forall k | k in groups ensures k in Keys(table) { assert Has(table, k, groups[k][0]); }
  }

  /** The group of one key, from its members and its last identity. */
  ghost predicate Shows(present: string -> string, table: Table, key: string, g: Group) {
    && Members(table, key) != map[] && g.core == CoreOf(present, key, Members(table, key))
    && exists id :: id in Members(table, key) && g.identity == table[id].identity
  }

  /** `build_review_groups`: one group per key, keys in order, duplicate ids ignored. */
  method BuildReviewGroups(present: string -> string, candidates: seq<Listed>) returns (result: seq<Group>)
    ensures var keys := SortedTexts(Keys(TableOf(candidates)));
            |result| == |keys| && forall i :: 0 <= i < |keys| ==> Shows(present, TableOf(candidates), keys[i], result[i])
  {
    hide *;
    var table, groups, last := GroupPending(candidates);
    TableIsPending(candidates);
    GroupedKeys(groups, table);
    var keys := SortTexts(groups.Keys);
    result := [];
    for i := 0 to |keys|
      invariant |result| == i && forall j :: 0 <= j < i ==> Shows(present, table, keys[j], result[j])
    {
      ListedKey(groups.Keys, i);
      var group := BuildOne(present, table, groups, last, keys[i]);
      result := result + [group];
    }
  }

  method BuildOne(present: string -> string, table: Table, groups: map<string, seq<string>>, last: map<string, Identity>, key: string)
    returns (group: Group)
    requires Grouped(groups, table) && Identified(last, table) && key in groups && key in last
    requires forall id :: id in table ==> table[id].status == PENDING
    ensures Shows(present, table, key, group)
  {
    hide ReviewKey, Grouped, Identified, CoreOf;
    GroupedMembers(groups, last, table, key);
    GroupedShape(groups, last, table, key);
    var core := Summarize(present, key, table, groups[key], last[key]);
    group := Group(core, last[key]);
  }

  lemma ListedKey(texts: set<string>, i: nat)
    requires i < |SortedTexts(texts)|
    ensures SortedTexts(texts)[i] in texts
  {
    assert SortedTexts(texts)[i] in SortedTexts(texts);
  }

  lemma GroupedShape(groups: map<string, seq<string>>, last: map<string, Identity>, table: Table, key: string)
    requires Grouped(groups, table) && Identified(last, table) && key in groups && key in last
    requires forall id :: id in table ==> table[id].status == PENDING
    ensures groups[key] != [] && NoRepeats(groups[key])
    ensures exists id :: id in Members(table, key) && last[key] == table[id].identity
  {
    hide ReviewKey;
    var id :| Has(table, key, id) && table[id].identity == last[key];
    assert id in Members(table, key);
  }
}
