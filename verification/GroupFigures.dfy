/** What the figures of a review group mean: which candidates it gathers, which of them represents it, how it counts. */
module GroupFigures {
  import opened Prelude
  import opened Keyset
  import opened Ordering
  import opened ReviewGroups
  import opened EntityNames

  // ----- which candidates form a group -----

  /** The approval key a candidate outside the semantic groups is gathered by: a legacy one's stored key, if it has one. */
  function OwnKey(c: Candidate): string {
    if c.legacy && c.physicalKey != "" then c.physicalKey else c.identity.approvalKey
  }

  /** Two candidates are reviewed together if and only if both are of one safely resolved problem, or neither is and they
      have one approval key. */
  lemma TogetherExactly(a: Candidate, b: Candidate)
    ensures ReviewKey(a) == ReviewKey(b) <==>
            if a.identity.semanticSafe then b.identity.semanticSafe && a.identity.code == b.identity.code
            else !b.identity.semanticSafe && OwnKey(a) == OwnKey(b)
  {
    if ReviewKey(a) == ReviewKey(b) {
      KeyDecidesSemantic(a, b);
      if !a.identity.semanticSafe {
        assert OwnKey(a) == ReviewKey(a)[|"approval:"|..] == ReviewKey(b)[|"approval:"|..] == OwnKey(b);
      }
    }
  }

  predicate Reviewable(listed: Listed, id: string) { listed.id == id && id != "" && listed.candidate.status == "pending" }

  predicate Anywhere(candidates: seq<Listed>, id: string) { exists i :: 0 <= i < |candidates| && Reviewable(candidates[i], id) }

  /** The batch takes the pending candidates with an id, and of each id the first of them. */
  lemma {:induction false} TakesFirstPending(candidates: seq<Listed>, id: string)
    ensures id in TableOf(candidates) <==> Anywhere(candidates, id)
    ensures forall i :: 0 <= i < |candidates| && Reviewable(candidates[i], id) && !Anywhere(candidates[..i], id) ==>
              id in TableOf(candidates) && TableOf(candidates)[id] == candidates[i].candidate
  {
    if candidates != [] {
      var n := |candidates| - 1;
      var before := candidates[..n];
      TakesFirstPending(before, id);
      OneMoreListed(before, candidates[n], id);
      assert candidates == before + [candidates[n]];
      hide Anywhere;
      forall i | 0 <= i < |candidates| && Reviewable(candidates[i], id) && !Anywhere(candidates[..i], id)
        ensures id in TableOf(candidates) && TableOf(candidates)[id] == candidates[i].candidate
      {
        if i < n { assert before[..i] == candidates[..i] && before[i] == candidates[i]; }
      }
    }
  }

  lemma OneMoreListed(before: seq<Listed>, last: Listed, id: string)
    ensures Anywhere(before + [last], id) <==> Anywhere(before, id) || Reviewable(last, id)
  {
    var all := before + [last];
    assert all[|before|] == last && forall i :: 0 <= i < |before| ==> all[i] == before[i];
  }

  // ----- the representative -----

  /** Critical, high, medium, low, anything else; without importance a candidate counts as medium. */
  lemma ImportanceOrder(other: string)
    ensures ImportanceRank("critical") > ImportanceRank("high") > ImportanceRank("medium") > ImportanceRank("low")
    ensures ImportanceRank("") == ImportanceRank("medium")
    ensures other !in {"critical", "high", "medium", "low", ""} ==> ImportanceRank("low") > ImportanceRank(other)
  {
  }

  function Created(c: Candidate): string { if c.createdAt != "" then c.createdAt else c.jobCreatedAt }

  /** The member that represents a group: none is more important; of those as important none is riskier; of those as risky
      none is older; of those as old none has a smaller id. */
  lemma RepresentativeIsFirst(members: Table, id: string)
    requires id in members && id != RepresentativeId(members)
    ensures var r, c := members[RepresentativeId(members)], members[id];
            var x, y := ImportanceRank(r.importance), ImportanceRank(c.importance);
            && x >= y && (x == y ==> r.riskScore >= c.riskScore)
            && (x == y && r.riskScore == c.riskScore ==> !TextLess(Created(c), Created(r)))
            && (x == y && r.riskScore == c.riskScore && Created(r) == Created(c) ==> TextLess(RepresentativeId(members), id))
  {
    RankOrder();
    hide ImportanceRank, TextLess;
    var least := Least(Ranks(members), RankLess);
    assert least in Ranks(members) && RankOf(id, members[id]) in Ranks(members);
    assert RankLess(least, RankOf(id, members[id]));
    TextLessAsymmetric(Created(members[id]), Created(members[least.id]));
  }

  // ----- counting -----

  /** An explicit count is taken, nothing below zero; without one the counts of the source templates are added up, none
      of them below zero. */
  lemma OccurrencesAddUp(c: Candidate, n: int)
    ensures c.occurrences == Some(n) && n >= 0 ==> OccurrenceCount(c) == n
    ensures c.occurrences.Some? && c.occurrences.value < 0 ==> OccurrenceCount(c) == 0
    ensures c.occurrences.None? && c.templateCounts == [] ==> OccurrenceCount(c) == 0
    ensures c.occurrences.None? ==>
              OccurrenceCount(c.(templateCounts := c.templateCounts + [n])) == OccurrenceCount(c) + (if n < 0 then 0 else n)
  {
    SumGrows(c.templateCounts, n);
  }

  lemma {:induction false} SumGrows(counts: seq<int>, n: int)
    ensures ClampedSum(counts + [n]) == ClampedSum(counts) + (if n < 0 then 0 else n)
  {
    if counts != [] {
      assert (counts + [n])[1..] == counts[1..] + [n];
      SumGrows(counts[1..], n);
    } else {
      assert [n][1..] == [];
    }
  }

  function Affected(c: Candidate): Entity {
    Entity(c.cluster, if c.entityType != "" then c.entityType else c.flatEntityType, if c.entityId != "" then c.entityId else c.flatEntityId)
  }

  function Entities(members: Table): set<Entity> { set id | id in members :: Affected(members[id]) }

  /** A group counts the entities its members affect, one by one where no name has a bar in it; where one has, entities
      may fall together, and none is ever counted twice. */
  lemma EntitiesCounted(members: Table)
    ensures |EntityKeys(members)| <= |Entities(members)|
    ensures (forall id :: id in members ==> Plain(Affected(members[id]))) ==> |EntityKeys(members)| == |Entities(members)|
  {
    CountedApart(Entities(members));
    hide Key;
    assert EntityKeys(members) == KeysOf(Entities(members)) by {
      forall id | id in members ensures EntityKey(members[id]) == KeyOf(Affected(members[id])) {}
    }
  }

  // ----- times -----

  /** The first time of a candidate is the start of its time range, else of its window, else its creation; the last one is
      the end of the range, else of the window, else the first one. */
  lemma SeenFrom(c: Candidate)
    ensures c.rangeFirst != "" ==> FirstSeen(c) == Some(c.rangeFirst)
    ensures c.rangeFirst == "" && c.windowStart != "" ==> FirstSeen(c) == Some(c.windowStart)
    ensures c.rangeFirst == "" && c.windowStart == "" ==> FirstSeen(c) == if c.createdAt != "" then Some(c.createdAt) else None
    ensures c.rangeLast != "" ==> LastSeen(c) == Some(c.rangeLast)
    ensures c.rangeLast == "" && c.windowEnd != "" ==> LastSeen(c) == Some(c.windowEnd)
    ensures c.rangeLast == "" && c.windowEnd == "" ==> LastSeen(c) == FirstSeen(c)
  {
  }

  /** The bounds of a group are times of members, and no member lies outside. */
  lemma BoundsEnclose(present: string -> string, key: string, members: Table, id: string)
    requires id in members
    ensures var core := CoreOf(present, key, members); var c := members[id];
            && (FirstSeen(c).Some? ==> core.firstSeen.Some? && !TextLess(FirstSeen(c).value, core.firstSeen.value))
            && (LastSeen(c).Some? ==> core.lastSeen.Some? && !TextLess(core.lastSeen.value, LastSeen(c).value))
            && (core.firstSeen.Some? ==> exists i :: i in members && FirstSeen(members[i]) == core.firstSeen)
            && (core.lastSeen.Some? ==> exists i :: i in members && LastSeen(members[i]) == core.lastSeen)
  {
    hide TextLess, FirstSeen, LastSeen, RepresentativeId, SumOf, MinText, MaxText;
    var firsts, lasts := Firsts(members), Lasts(members);
    BoundsOfNone();
    forall x | x in firsts ensures MinText(firsts).Some? && MinText(firsts).value in firsts && !TextLess(x, MinText(firsts).value) { BoundsAreMet(firsts, x); }
    forall x | x in lasts ensures MaxText(lasts).Some? && MaxText(lasts).value in lasts && !TextLess(MaxText(lasts).value, x) { BoundsAreMet(lasts, x); }
    assert FirstSeen(members[id]).Some? ==> FirstSeen(members[id]).value in firsts;
    assert LastSeen(members[id]).Some? ==> LastSeen(members[id]).value in lasts;
    assert firsts == {} || exists x :: x in firsts;
    assert lasts == {} || exists x :: x in lasts;
  }

  /** A semantic group is shown under the problem all its members have; any other group as its representative is. */
  lemma GroupShownAs(present: string -> string, table: Table, key: string)
    requires Members(table, key) != map[]
    ensures var members := Members(table, key); var core := CoreOf(present, key, members); var r := members[RepresentativeId(members)];
            && core.representative == r && core.representativeId == RepresentativeId(members) && core.reviewKey == key
            && core.candidateCount == |members| && (forall id :: id in core.candidateIds <==> id in members) && Increasing(core.candidateIds, TextLess)
            && core.importance == (if r.importance != "" then r.importance else "medium")
            && (forall id :: id in members ==> core.semanticSafe == members[id].identity.semanticSafe)
            && (core.semanticSafe ==> forall id :: id in members ==> core.title == present(members[id].identity.code))
            && (!core.semanticSafe ==> core.title == r.title && core.summary == r.summary)
  {
    var members := Members(table, key);
    hide RepresentativeId, ReviewKey, SumOf, MinText, MaxText, TextLess;
    forall id | id in members
      ensures members[id].identity.semanticSafe == members[RepresentativeId(members)].identity.semanticSafe
      ensures members[id].identity.semanticSafe ==> members[id].identity.code == members[RepresentativeId(members)].identity.code
    {
      KeyDecidesSemantic(members[id], members[RepresentativeId(members)]);
    }
  }
}
