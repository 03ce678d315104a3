/**
 Registration of candidates in approval groups: feature_jobs.py over the in-memory store of approval_dedup.py.
 A group keeps running figures; the ledger below is what each candidate brought when it was first attached.
 */
module GroupStore {
  import opened Prelude
  import opened Ordering

  type Key = string

  /** `group_id_for_key` digests a key; a carried id may be any other. */
  datatype GroupId = OfKey(key: Key) | Foreign(text: string)

  datatype Group = Group(id: GroupId, key: Key, candidateCount: nat, occurrenceCount: nat, candidateIds: seq<string>,
                         entityKeys: seq<string>, affectedEntities: nat, primary: string)

  datatype Store = Store(groups: map<GroupId, Group>, byKey: map<Key, GroupId>, candidates: map<string, GroupId>)

  const EMPTY := Store(map[], map[], map[])

  /** One registration: the candidate, the group id and key it carries (empty when it carries none), the key its
      evidence now yields, and what it counts for. */
  datatype Registration = Registration(id: string, carriedGroup: Option<GroupId>, carriedKey: Key, preparedKey: Key,
                                       occurrences: nat, entityKey: string)

  datatype Refusal = OtherGroup

  // ----- the store -----

  function ById(s: Store, id: Option<GroupId>): Option<Group> {
    if id.Some? && id.value in s.groups then Some(s.groups[id.value]) else None
  }

  function ByKey(s: Store, key: Key): Option<Group> {
    if key in s.byKey && s.byKey[key] in s.groups then Some(s.groups[s.byKey[key]]) else None
  }

  /** `save`: a group whose key is known under another id is stored under that id. */
  function Save(s: Store, g: Group): Store {
    var id := if g.key in s.byKey then s.byKey[g.key] else g.id;
    s.(groups := s.groups[id := g.(id := id)], byKey := s.byKey[g.key := id])
  }

  function Attach(s: Store, group: GroupId, candidate: string): Result<Store, Refusal> {
    if candidate in s.candidates && s.candidates[candidate] != group then Err(OtherGroup)
    else Ok(s.(candidates := s.candidates[candidate := group]))
  }

  // ----- registration -----

  function KnownGroup(s: Store, r: Registration): Option<GroupId> {
    if r.id in s.candidates then Some(s.candidates[r.id]) else r.carriedGroup
  }

  function KeyOf(s: Store, r: Registration): Key {
    var known := KnownGroup(s, r);
    if known.None? then r.preparedKey
    else if r.carriedKey != "" then r.carriedKey
    else if ById(s, known).Some? && ById(s, known).value.key != "" then ById(s, known).value.key
    else r.preparedKey
  }

  function Existing(s: Store, r: Registration): Option<Group> {
    var byId := ById(s, KnownGroup(s, r));
    if byId.Some? then byId else ByKey(s, KeyOf(s, r))
  }

  function NewId(s: Store, r: Registration): GroupId {
    if KnownGroup(s, r).Some? then KnownGroup(s, r).value else OfKey(KeyOf(s, r))
  }

  function Founded(s: Store, r: Registration): Group {
    Group(NewId(s, r), KeyOf(s, r), 1, r.occurrences, [r.id], [r.entityKey], 1, r.id)
  }

  function Joined(g: Group, r: Registration, isNew: bool): Group {
    var ids := if isNew then g.candidateIds + [r.id] else g.candidateIds;
    var entities := if r.entityKey in g.entityKeys then g.entityKeys else g.entityKeys + [r.entityKey];
    g.(candidateCount := if isNew then g.candidateCount + 1 else g.candidateCount,
       occurrenceCount := if isNew then g.occurrenceCount + r.occurrences else g.occurrenceCount,
       candidateIds := if r.id in ids then ids else ids + [r.id],
       entityKeys := entities, affectedEntities := |entities|)
  }

  function GroupAfter(s: Store, r: Registration): Group {
    match Existing(s, r) case Some(g) => Joined(g, r, r.id !in s.candidates) case None => Founded(s, r)
  }

  function Register(s: Store, r: Registration): Result<Store, Refusal> {
    var g := GroupAfter(s, r);
    Attach(Save(s, g), g.id, r.id)
  }

  // ----- what the figures should be -----

  datatype Fact = Fact(occurrences: nat, entityKey: string)

  /** What each attached candidate brought first. */
  type Ledger = map<string, Fact>

  function Recorded(s: Store, ledger: Ledger, r: Registration): Ledger {
    if r.id in s.candidates then ledger else ledger[r.id := Fact(r.occurrences, r.entityKey)]
  }

  function Attached(s: Store, ledger: Ledger, group: GroupId): Ledger {
    map c | c in s.candidates && c in ledger && s.candidates[c] == group :: ledger[c]
  }

  function OccurrencesOf(facts: Ledger): map<string, nat> { map c | c in facts :: facts[c].occurrences }

  function EntitiesOf(facts: Ledger): set<string> { set c | c in facts :: facts[c].entityKey }

  /** A group shows exactly what its attached candidates brought. */
  ghost predicate Exact(g: Group, facts: Ledger) {
    && facts != map[]
    && NoRepeats(g.candidateIds) && (forall c :: c in g.candidateIds <==> c in facts)
    && g.candidateCount == |facts| && g.occurrenceCount == SumOf(OccurrencesOf(facts))
    && NoRepeats(g.entityKeys) && (forall e :: e in g.entityKeys <==> e in EntitiesOf(facts))
    && g.affectedEntities == |EntitiesOf(facts)|
  }

  /** A group counts each attached candidate and its occurrences once, and at least the entities they brought first. */
  ghost predicate Counted(g: Group, facts: Ledger) {
    && facts != map[]
    && NoRepeats(g.candidateIds) && (forall c :: c in g.candidateIds <==> c in facts)
    && g.candidateCount == |facts| && g.occurrenceCount == SumOf(OccurrencesOf(facts))
    && NoRepeats(g.entityKeys) && (forall e :: e in EntitiesOf(facts) ==> e in g.entityKeys) && g.affectedEntities == |g.entityKeys|
  }

  /** Ids and keys name the same groups. */
  ghost predicate Filed(s: Store) {
    && (forall id :: id in s.groups ==> s.groups[id].id == id && s.groups[id].key in s.byKey && s.byKey[s.groups[id].key] == id)
    && (forall key :: key in s.byKey ==> s.byKey[key] in s.groups && s.groups[s.byKey[key]].key == key)
  }

  /** Every attached candidate is in a group that is there. */
  ghost predicate Linked(s: Store, ledger: Ledger) {
    Filed(s) && ledger.Keys == s.candidates.Keys && forall c :: c in s.candidates ==> s.candidates[c] in s.groups
  }

  ghost predicate Inv(s: Store, ledger: Ledger) {
    Linked(s, ledger) && forall id :: id in s.groups ==> Exact(s.groups[id], Attached(s, ledger, id))
  }

  ghost predicate CountInv(s: Store, ledger: Ledger) {
    Linked(s, ledger) && forall id :: id in s.groups ==> Counted(s.groups[id], Attached(s, ledger, id))
  }

  /** A founded group does not take another group's id. */
  predicate Unclaimed(s: Store, r: Registration) { Existing(s, r).None? ==> NewId(s, r) !in s.groups }

  /** The two guards: a founded group must not take another group's id, and a candidate seen again must not bring
      an entity its group has not counted. */
  predicate Clean(s: Store, r: Registration) {
    && Unclaimed(s, r)
    && (r.id in s.candidates && Existing(s, r).Some? ==> r.entityKey in Existing(s, r).value.entityKeys)
  }

  // ----- one registration -----

  lemma FactsGrow(facts: Ledger, c: string, f: Fact)
    requires c !in facts
    ensures |facts[c := f]| == |facts| + 1
    ensures SumOf(OccurrencesOf(facts[c := f])) == SumOf(OccurrencesOf(facts)) + f.occurrences
    ensures EntitiesOf(facts[c := f]) == EntitiesOf(facts) + {f.entityKey}
  {
    hide EntitiesOf;
    var now := facts[c := f];
    assert OccurrencesOf(now) == OccurrencesOf(facts)[c := f.occurrences];
    SumWith(OccurrencesOf(facts), c, f.occurrences);
    EntitiesGrow(facts, c, f);
  }

  lemma EntitiesGrow(facts: Ledger, c: string, f: Fact)
    requires c !in facts
    ensures EntitiesOf(facts[c := f]) == EntitiesOf(facts) + {f.entityKey} && facts[c := f].Keys == facts.Keys + {c}
  {
    var now := facts[c := f];
    assert now[c] == f && c in now;
    forall e | e in EntitiesOf(facts) ensures e in EntitiesOf(now) {
      var x :| x in facts && facts[x].entityKey == e;
      assert x in now && now[x] == facts[x];
    }
  }

  lemma {:induction false} DistinctCount(xs: seq<string>, all: set<string>)
    requires NoRepeats(xs) && forall x :: x in xs <==> x in all
    ensures |xs| == |all|
  {
    if xs == [] {
      assert forall x :: x !in all;
      assert all == {};
    } else {
      var rest := xs[1..];
      assert forall x :: x in rest <==> x in all - {xs[0]} by {
        assert forall x :: x in xs <==> x == xs[0] || x in rest;
      }
      DistinctCount(rest, all - {xs[0]});
    }
  }

  /** A new candidate joins: the figures grow by what it brings. */
  lemma JoinIsExact(g: Group, facts: Ledger, r: Registration)
    requires Exact(g, facts) && r.id !in facts
    ensures Exact(Joined(g, r, true), facts[r.id := Fact(r.occurrences, r.entityKey)])
  {
    hide EntitiesOf, SumOf, OccurrencesOf;
    var now := facts[r.id := Fact(r.occurrences, r.entityKey)];
    var h := Joined(g, r, true);
    FactsGrow(facts, r.id, Fact(r.occurrences, r.entityKey));
    assert h.candidateIds == g.candidateIds + [r.id];
    assert r.id in now;
    DistinctCount(h.entityKeys, EntitiesOf(now));
  }

  /** A known candidate comes again: nothing changes exactly when its entity was counted. */
  lemma RejoinIsExact(g: Group, facts: Ledger, r: Registration)
    requires Exact(g, facts) && r.id in facts
    ensures Joined(g, r, false) == g <==> r.entityKey in g.entityKeys
    ensures Exact(Joined(g, r, false), facts) <==> r.entityKey in g.entityKeys
  {
    var h := Joined(g, r, false);
    DistinctCount(g.entityKeys, EntitiesOf(facts));
    if r.entityKey !in g.entityKeys {
      assert h.entityKeys[|g.entityKeys|] == r.entityKey && r.entityKey in h.entityKeys;
      assert r.entityKey !in EntitiesOf(facts);
    }
  }

  lemma FoundedIsExact(s: Store, r: Registration)
    ensures Exact(Founded(s, r), map[r.id := Fact(r.occurrences, r.entityKey)])
  {
    FactsGrow(map[], r.id, Fact(r.occurrences, r.entityKey));
    var facts: Ledger := map[r.id := Fact(r.occurrences, r.entityKey)];
    assert r.id in facts && OccurrencesOf(map[]) == map[] && EntitiesOf(map[]) == {};
    assert EntitiesOf(facts) == {r.entityKey};
  }

  /** Under the invariant the group found keeps its id, and saving it replaces or adds just that group. */
  lemma RegisterFiles(s: Store, ledger: Ledger, r: Registration)
    requires Linked(s, ledger)
    ensures var g := GroupAfter(s, r);
            && Register(s, r) == Ok(Store(s.groups[g.id := g], s.byKey[g.key := g.id], s.candidates[r.id := g.id]))
            && (r.id in s.candidates ==> g.id == s.candidates[r.id] && Existing(s, r) == Some(s.groups[g.id]))
            && (Existing(s, r).Some? ==> g.id in s.groups && Existing(s, r).value == s.groups[g.id] && g.key == s.groups[g.id].key)
            && (Existing(s, r).None? ==> g.key !in s.byKey && g == Founded(s, r))
  {
    hide Exact, Attached;
  }

  lemma OtherGroupsKeep(s: Store, ledger: Ledger, c: string, f: Fact, group: GroupId, t: Store)
    requires ledger.Keys == s.candidates.Keys && c !in s.candidates && t.candidates == s.candidates[c := group]
    ensures forall id :: id != group ==> Attached(t, ledger[c := f], id) == Attached(s, ledger, id)
    ensures Attached(t, ledger[c := f], group) == Attached(s, ledger, group)[c := f]
    ensures c !in Attached(s, ledger, group)
  {
  }

  /** A registration keeps every group exact if and only if it was clean. */
  lemma RegisterKeepsInv(s: Store, ledger: Ledger, r: Registration)
    requires Inv(s, ledger)
    ensures Register(s, r).Ok?
    ensures Inv(Register(s, r).value, Recorded(s, ledger, r)) <==> Clean(s, r)
  {
    hide Exact, Attached, Register, GroupAfter;
    RegisterFiles(s, ledger, r);
    if r.id in s.candidates {
      AgainKeepsInv(s, ledger, r);
    } else if Existing(s, r).Some? {
      JoinKeepsInv(s, ledger, r);
    } else {
      FoundKeepsInv(s, ledger, r);
    }
  }

  lemma AgainKeepsInv(s: Store, ledger: Ledger, r: Registration)
    requires Inv(s, ledger) && r.id in s.candidates
    ensures Register(s, r).Ok? && (Inv(Register(s, r).value, ledger) <==> Clean(s, r))
    ensures Clean(s, r) ==> Register(s, r).value == s
  {
    hide Exact, Register, Joined;
    RegisterFiles(s, ledger, r);
    var id := s.candidates[r.id];
    var g := s.groups[id];
    var t := Register(s, r).value;
    assert GroupAfter(s, r) == Joined(g, r, false);
    RejoinIsExact(g, Attached(s, ledger, id), r);
    SameAttached(s, t, ledger);
    if Clean(s, r) {
      assert s.groups[id := g] == s.groups && s.byKey[g.key := id] == s.byKey && s.candidates[r.id := id] == s.candidates;
    } else {
      assert t.groups[id] == Joined(g, r, false);
    }
  }

  lemma SameAttached(s: Store, t: Store, ledger: Ledger)
    requires t.candidates == s.candidates
    ensures forall id :: Attached(t, ledger, id) == Attached(s, ledger, id)
  {
  }

  lemma JoinKeepsInv(s: Store, ledger: Ledger, r: Registration)
    requires Inv(s, ledger) && r.id !in s.candidates && Existing(s, r).Some?
    ensures Register(s, r).Ok? && Clean(s, r) && Inv(Register(s, r).value, Recorded(s, ledger, r))
  {
    hide Exact, Register, Joined, Attached, KeyOf, KnownGroup, Existing, Linked, GroupAfter;
    JoinLinks(s, ledger, r);
    var g := Existing(s, r).value;
    var f := Fact(r.occurrences, r.entityKey);
    OtherGroupsKeep(s, ledger, r.id, f, g.id, Register(s, r).value);
    JoinIsExact(g, Attached(s, ledger, g.id), r);
  }

  lemma JoinedKeepsName(g: Group, r: Registration)
    ensures forall isNew :: Joined(g, r, isNew).id == g.id && Joined(g, r, isNew).key == g.key
  {
  }

  lemma FoundKeepsInv(s: Store, ledger: Ledger, r: Registration)
    requires Inv(s, ledger) && r.id !in s.candidates && Existing(s, r).None?
    ensures Register(s, r).Ok? && (Inv(Register(s, r).value, Recorded(s, ledger, r)) <==> Clean(s, r))
  {
    assert Linked(s, ledger);
    hide Register, Attached, KeyOf, KnownGroup, Existing, Exact, Filed, NewId, GroupAfter, Inv, Clean, Linked;
    RegisterFiles(s, ledger, r);
    if Clean(s, r) { FoundClean(s, ledger, r); } else { FoundUnclean(s, ledger, r); }
  }

  lemma FoundClean(s: Store, ledger: Ledger, r: Registration)
    requires Inv(s, ledger) && r.id !in s.candidates && Existing(s, r).None? && Clean(s, r)
    ensures Register(s, r).Ok? && Inv(Register(s, r).value, Recorded(s, ledger, r))
  {
    hide Register, Attached, KeyOf, KnownGroup, Existing, Exact, Filed, NewId;
    RegisterFiles(s, ledger, r);
    var g, f := Founded(s, r), Fact(r.occurrences, r.entityKey);
    OtherGroupsKeep(s, ledger, r.id, f, g.id, Register(s, r).value);
    FoundedIsExact(s, r);
    NobodyAttached(s, ledger, g.id);
    assert Attached(s, ledger, g.id)[r.id := f] == map[r.id := f];
    FoundFiles(s, g, r);
  }

  lemma FoundUnclean(s: Store, ledger: Ledger, r: Registration)
    requires Inv(s, ledger) && r.id !in s.candidates && Existing(s, r).None? && !Clean(s, r)
    ensures Register(s, r).Ok? && !Inv(Register(s, r).value, Recorded(s, ledger, r))
  {
    hide Register, Attached, KeyOf, KnownGroup, Existing, Exact, Filed, NewId;
    RegisterFiles(s, ledger, r);
    var g, f, t := Founded(s, r), Fact(r.occurrences, r.entityKey), Register(s, r).value;
    OtherGroupsKeep(s, ledger, r.id, f, g.id, t);
    Overwritten(s, ledger, g.id, r.id, f);
    assert t.groups[g.id].candidateIds == [r.id] && !Exact(t.groups[g.id], Attached(t, Recorded(s, ledger, r), g.id));
  }

  lemma NobodyAttached(s: Store, ledger: Ledger, id: GroupId)
    requires Linked(s, ledger) && id !in s.groups
    ensures Attached(s, ledger, id) == map[]
  {
  }

  lemma FoundFiles(s: Store, g: Group, r: Registration)
    requires Filed(s) && g.id !in s.groups && g.key !in s.byKey
    ensures Filed(Store(s.groups[g.id := g], s.byKey[g.key := g.id], s.candidates[r.id := g.id]))
  {
  }

  /** A group founded under another group's id drops that group's candidates. */
  lemma Overwritten(s: Store, ledger: Ledger, id: GroupId, c: string, f: Fact)
    requires Inv(s, ledger) && id in s.groups && c !in Attached(s, ledger, id)
    ensures forall g: Group :: g.candidateIds == [c] ==> !Exact(g, Attached(s, ledger, id)[c := f])
  {
    var facts := Attached(s, ledger, id);
    assert Exact(s.groups[id], facts);
    hide Attached, Linked, SumOf, OccurrencesOf, EntitiesOf;
    var member :| member in facts;
    forall g: Group | g.candidateIds == [c] ensures !Exact(g, facts[c := f]) {
      assert member in facts[c := f] && member !in g.candidateIds;
    }
  }

  // ----- what is counted once whatever entity a candidate brings -----

  lemma ExactIsCounted(g: Group, facts: Ledger)
    requires Exact(g, facts)
    ensures Counted(g, facts)
  {
    DistinctCount(g.entityKeys, EntitiesOf(facts));
  }

  lemma JoinIsCounted(g: Group, facts: Ledger, r: Registration)
    requires Counted(g, facts) && r.id !in facts
    ensures Counted(Joined(g, r, true), facts[r.id := Fact(r.occurrences, r.entityKey)])
  {
    hide EntitiesOf, SumOf, OccurrencesOf;
    var now := facts[r.id := Fact(r.occurrences, r.entityKey)];
    var h := Joined(g, r, true);
    FactsGrow(facts, r.id, Fact(r.occurrences, r.entityKey));
    assert r.id in now;
    assert h.candidateIds == g.candidateIds + [r.id];
  }

  lemma RejoinIsCounted(g: Group, facts: Ledger, r: Registration)
    requires Counted(g, facts) && r.id in facts
    ensures Counted(Joined(g, r, false), facts) && SameCounts(g, Joined(g, r, false))
  {
    hide EntitiesOf, SumOf, OccurrencesOf;
  }

  predicate SameCounts(g: Group, h: Group) {
    g.id == h.id && g.key == h.key && g.candidateCount == h.candidateCount && g.occurrenceCount == h.occurrenceCount && g.candidateIds == h.candidateIds
  }

  /** The groups of `t` are those of `s`, with the same candidates and sums. */
  ghost predicate AllSameCounts(s: Store, t: Store) {
    && t.candidates == s.candidates && t.byKey == s.byKey && t.groups.Keys == s.groups.Keys
    && forall id :: id in s.groups ==> SameCounts(s.groups[id], t.groups[id])
  }

  /** A candidate seen again, under whatever entity: its group counts what it counted. */
  lemma AgainKeepsCounts(s: Store, ledger: Ledger, r: Registration)
    requires CountInv(s, ledger) && r.id in s.candidates
    ensures Register(s, r).Ok? && CountInv(Register(s, r).value, ledger) && AllSameCounts(s, Register(s, r).value)
  {
    hide Counted, Register, Joined, SameCounts, Attached;
    RegisterFiles(s, ledger, r);
    var id := s.candidates[r.id];
    var g, t := s.groups[id], Register(s, r).value;
    assert GroupAfter(s, r) == Joined(g, r, false);
    AttachedHas(s, ledger, r.id);
    RejoinIsCounted(g, Attached(s, ledger, id), r);
    SameAttached(s, t, ledger);
    JoinedKeepsName(g, r);
    forall h: Group ensures SameCounts(h, h) { CountsItself(h); }
    assert s.byKey[g.key := id] == s.byKey && s.candidates[r.id := id] == s.candidates && t.groups == s.groups[id := Joined(g, r, false)];
  }

  lemma CountsItself(h: Group)
    ensures SameCounts(h, h)
  {
  }

  lemma AttachedHas(s: Store, ledger: Ledger, c: string)
    requires Linked(s, ledger) && c in s.candidates
    ensures c in Attached(s, ledger, s.candidates[c])
  {
  }

  lemma JoinKeepsCounts(s: Store, ledger: Ledger, r: Registration)
    requires CountInv(s, ledger) && r.id !in s.candidates && Existing(s, r).Some?
    ensures Register(s, r).Ok? && CountInv(Register(s, r).value, Recorded(s, ledger, r))
  {
    hide Counted, Register, Joined, Attached, KeyOf, KnownGroup, Existing, Linked, GroupAfter;
    JoinLinks(s, ledger, r);
    var g := Existing(s, r).value;
    var f := Fact(r.occurrences, r.entityKey);
    OtherGroupsKeep(s, ledger, r.id, f, g.id, Register(s, r).value);
    JoinIsCounted(g, Attached(s, ledger, g.id), r);
  }

  lemma JoinLinks(s: Store, ledger: Ledger, r: Registration)
    requires Linked(s, ledger) && r.id !in s.candidates && Existing(s, r).Some?
    ensures Register(s, r).Ok? && ledger.Keys == s.candidates.Keys
    ensures var g, t := Existing(s, r).value, Register(s, r).value;
            && Linked(t, Recorded(s, ledger, r)) && g.id in s.groups && s.groups[g.id] == g
            && t.candidates == s.candidates[r.id := g.id] && t.groups == s.groups[g.id := Joined(g, r, true)]
  {
    hide Register, Joined, KeyOf, KnownGroup, Existing;
    RegisterFiles(s, ledger, r);
    JoinedKeepsName(Existing(s, r).value, r);
  }

  lemma FoundKeepsCounts(s: Store, ledger: Ledger, r: Registration)
    requires CountInv(s, ledger) && r.id !in s.candidates && Existing(s, r).None? && Unclaimed(s, r)
    ensures Register(s, r).Ok? && CountInv(Register(s, r).value, Recorded(s, ledger, r))
  {
    hide Register, Attached, KeyOf, KnownGroup, Existing, Counted, Filed, NewId, Exact;
    RegisterFiles(s, ledger, r);
    var g, f := Founded(s, r), Fact(r.occurrences, r.entityKey);
    OtherGroupsKeep(s, ledger, r.id, f, g.id, Register(s, r).value);
    FoundedIsExact(s, r);
    ExactIsCounted(g, map[r.id := f]);
    NobodyAttached(s, ledger, g.id);
    assert Attached(s, ledger, g.id)[r.id := f] == map[r.id := f];
    FoundFiles(s, g, r);
  }

  lemma FoundLosesCounts(s: Store, ledger: Ledger, r: Registration)
    requires CountInv(s, ledger) && r.id !in s.candidates && Existing(s, r).None? && !Unclaimed(s, r)
    ensures Register(s, r).Ok? && !CountInv(Register(s, r).value, Recorded(s, ledger, r))
  {
    hide Register, Attached, KeyOf, KnownGroup, Existing, Counted, Filed, NewId;
    RegisterFiles(s, ledger, r);
    var g, f, t := Founded(s, r), Fact(r.occurrences, r.entityKey), Register(s, r).value;
    OtherGroupsKeep(s, ledger, r.id, f, g.id, t);
    LostCandidate(s.groups[g.id], Attached(s, ledger, g.id), r.id, f);
    assert t.groups[g.id].candidateIds == [r.id] && !Counted(t.groups[g.id], Attached(t, Recorded(s, ledger, r), g.id));
  }

  lemma LostCandidate(was: Group, facts: Ledger, c: string, f: Fact)
    requires Counted(was, facts) && c !in facts
    ensures forall g: Group :: g.candidateIds == [c] ==> !Counted(g, facts[c := f])
  {
    var member :| member in facts;
    forall g: Group | g.candidateIds == [c] ensures !Counted(g, facts[c := f]) {
      assert member in facts[c := f] && member !in g.candidateIds;
    }
  }

  /** Whatever entities candidates bring: a registration keeps counts, ids and sums equal to the attached set's if and
      only if a founded group does not take another group's id. */
  lemma RegisterKeepsCounts(s: Store, ledger: Ledger, r: Registration)
    requires CountInv(s, ledger)
    ensures Register(s, r).Ok? && (CountInv(Register(s, r).value, Recorded(s, ledger, r)) <==> Unclaimed(s, r))
  {
    hide Register, CountInv, KeyOf, KnownGroup, NewId;
    if r.id in s.candidates {
      assert Existing(s, r).Some? by { LinkedIsFound(s, ledger, r); }
      AgainKeepsCounts(s, ledger, r);
    } else if Existing(s, r).Some? {
      JoinKeepsCounts(s, ledger, r);
    } else if Unclaimed(s, r) {
      FoundKeepsCounts(s, ledger, r);
    } else {
      FoundLosesCounts(s, ledger, r);
    }
  }

  lemma LinkedIsFound(s: Store, ledger: Ledger, r: Registration)
    requires CountInv(s, ledger) && r.id in s.candidates
    ensures Existing(s, r).Some?
  {
    hide Counted;
  }

  // ----- runs -----

  /** A refused registration changes nothing. */
  function RegisterAll(s: Store, rs: seq<Registration>): Store
    decreases |rs|
  {
    if rs == [] then s
    else match Register(s, rs[0])
      case Ok(t) => RegisterAll(t, rs[1..])
      case Err(_) => RegisterAll(s, rs[1..])
  }

  function RecordAll(s: Store, ledger: Ledger, rs: seq<Registration>): Ledger
    decreases |rs|
  {
    if rs == [] then ledger
    else match Register(s, rs[0])
      case Ok(t) => RecordAll(t, Recorded(s, ledger, rs[0]), rs[1..])
      case Err(_) => RecordAll(s, ledger, rs[1..])
  }

  /** A carried group id is that of the carried key, or of the evidence when none is carried; and a candidate always
      comes with the same entity. */
  ghost predicate Coherent(entityOf: string -> string, r: Registration) {
    && (r.carriedGroup.Some? ==> r.carriedGroup.value == OfKey(if r.carriedKey != "" then r.carriedKey else r.preparedKey))
    && r.entityKey == entityOf(r.id)
  }

  ghost predicate Named(entityOf: string -> string, s: Store, ledger: Ledger) {
    && (forall id :: id in s.groups ==> id == OfKey(s.groups[id].key))
    && forall c :: c in ledger ==> ledger[c].entityKey == entityOf(c)
  }

  lemma CoherentIsClean(entityOf: string -> string, s: Store, ledger: Ledger, r: Registration)
    requires Inv(s, ledger) && Named(entityOf, s, ledger) && Coherent(entityOf, r)
    ensures Clean(s, r) && Register(s, r).Ok? && Named(entityOf, Register(s, r).value, Recorded(s, ledger, r))
  {
    hide Register, Exact, Attached, Joined;
    RegisterFiles(s, ledger, r);
    if Existing(s, r).Some? { JoinedKeepsName(Existing(s, r).value, r); }
    if r.id in s.candidates { CountedEntity(s, ledger, r.id); }
  }

  lemma CountedEntity(s: Store, ledger: Ledger, c: string)
    requires Inv(s, ledger) && c in s.candidates
    ensures ledger[c].entityKey in s.groups[s.candidates[c]].entityKeys
  {
    var facts := Attached(s, ledger, s.candidates[c]);
    assert Exact(s.groups[s.candidates[c]], facts);
    assert c in facts && facts[c] == ledger[c];
    assert ledger[c].entityKey in EntitiesOf(facts);
  }

  /** Each registration is clean when its turn comes. */
  predicate CleanRun(s: Store, rs: seq<Registration>)
    decreases |rs|
  {
    rs != [] ==> Clean(s, rs[0]) && (Register(s, rs[0]).Ok? ==> CleanRun(Register(s, rs[0]).value, rs[1..]))
  }

  /** Every store of the run is exact. */
  ghost predicate AlwaysExact(s: Store, ledger: Ledger, rs: seq<Registration>)
    decreases |rs|
  {
    Inv(s, ledger) && (rs != [] ==> Register(s, rs[0]).Ok? && AlwaysExact(Register(s, rs[0]).value, Recorded(s, ledger, rs[0]), rs[1..]))
  }

  /** Every reachable store shows each candidate in one group, whose figures are what its candidates brought, if and
      only if every registration was clean. */
  lemma {:induction false} RunKeepsInv(s: Store, ledger: Ledger, rs: seq<Registration>)
    requires Inv(s, ledger)
    ensures AlwaysExact(s, ledger, rs) <==> CleanRun(s, rs)
    ensures CleanRun(s, rs) ==> Inv(RegisterAll(s, rs), RecordAll(s, ledger, rs))
    ensures CleanRun(s, rs) ==> RegisterAll(s, rs).candidates.Keys == s.candidates.Keys + set r | r in rs :: r.id
    decreases |rs|
  {
    hide Inv, Register, Recorded, Clean;
    if rs != [] {
      RegisterKeepsInv(s, ledger, rs[0]);
      RegisterAttaches(s, ledger, rs[0]);
      if Clean(s, rs[0]) {
        assert forall r :: r in rs <==> r == rs[0] || r in rs[1..];
        RunKeepsInv(Register(s, rs[0]).value, Recorded(s, ledger, rs[0]), rs[1..]);
        assert (set r | r in rs :: r.id) == {rs[0].id} + set r | r in rs[1..] :: r.id;
      }
    }
  }

  /** Carried ids that fit their keys, and entities that stay: such a run is clean. */
  lemma {:induction false} CoherentRunIsClean(entityOf: string -> string, s: Store, ledger: Ledger, rs: seq<Registration>)
    requires Inv(s, ledger) && Named(entityOf, s, ledger) && forall r :: r in rs ==> Coherent(entityOf, r)
    ensures CleanRun(s, rs) && Named(entityOf, RegisterAll(s, rs), RecordAll(s, ledger, rs))
    decreases |rs|
  {
    hide Inv, Named, Register, Recorded, Coherent, Clean;
    if rs != [] {
      assert rs[0] in rs;
      CoherentIsClean(entityOf, s, ledger, rs[0]);
      RegisterKeepsInv(s, ledger, rs[0]);
      CoherentRunIsClean(entityOf, Register(s, rs[0]).value, Recorded(s, ledger, rs[0]), rs[1..]);
    }
  }

  predicate UnclaimedRun(s: Store, rs: seq<Registration>)
    decreases |rs|
  {
    rs != [] ==> Unclaimed(s, rs[0]) && (Register(s, rs[0]).Ok? ==> UnclaimedRun(Register(s, rs[0]).value, rs[1..]))
  }

  lemma {:induction false} RunKeepsCounts(s: Store, ledger: Ledger, rs: seq<Registration>)
    requires CountInv(s, ledger) && UnclaimedRun(s, rs)
    ensures CountInv(RegisterAll(s, rs), RecordAll(s, ledger, rs))
    ensures RegisterAll(s, rs).candidates.Keys == s.candidates.Keys + set r | r in rs :: r.id
    decreases |rs|
  {
    hide CountInv, Register, Recorded, Unclaimed;
    if rs != [] {
      RegisterKeepsCounts(s, ledger, rs[0]);
      CountsAttach(s, ledger, rs[0]);
      assert forall r :: r in rs <==> r == rs[0] || r in rs[1..];
      RunKeepsCounts(Register(s, rs[0]).value, Recorded(s, ledger, rs[0]), rs[1..]);
      assert (set r | r in rs :: r.id) == {rs[0].id} + set r | r in rs[1..] :: r.id;
    }
  }

  lemma CountsAttach(s: Store, ledger: Ledger, r: Registration)
    requires CountInv(s, ledger)
    ensures Register(s, r).Ok? && Register(s, r).value.candidates.Keys == s.candidates.Keys + {r.id}
  {
    RegisterFiles(s, ledger, r);
  }

  lemma {:induction false} AgainCountsNothing(s: Store, ledger: Ledger, rs: seq<Registration>)
    requires CountInv(s, ledger) && forall r :: r in rs ==> r.id in s.candidates
    ensures CountInv(RegisterAll(s, rs), ledger) && AllSameCounts(s, RegisterAll(s, rs))
    decreases |rs|
  {
    hide CountInv, Register, SameCounts;
    if rs == [] {
      forall h: Group ensures SameCounts(h, h) { CountsItself(h); }
    } else {
      assert rs[0] in rs;
      AgainKeepsCounts(s, ledger, rs[0]);
      var t := Register(s, rs[0]).value;
      AgainCountsNothing(t, ledger, rs[1..]);
      SameCountsThrough(s, t, RegisterAll(s, rs));
    }
  }

  lemma SameCountsThrough(s: Store, t: Store, u: Store)
    requires AllSameCounts(s, t) && AllSameCounts(t, u)
    ensures AllSameCounts(s, u)
  {
  }

  lemma RegisterAttaches(s: Store, ledger: Ledger, r: Registration)
    requires Inv(s, ledger)
    ensures Register(s, r).Ok? && Register(s, r).value.candidates.Keys == s.candidates.Keys + {r.id}
  {
    RegisterFiles(s, ledger, r);
  }

  /** Registering again what is registered, in any order and any number of times, changes nothing. */
  lemma {:induction false} AgainChangesNothing(entityOf: string -> string, s: Store, ledger: Ledger, rs: seq<Registration>)
    requires Inv(s, ledger) && Named(entityOf, s, ledger)
    requires forall r :: r in rs ==> Coherent(entityOf, r) && r.id in s.candidates
    ensures RegisterAll(s, rs) == s
  {
    hide Inv, Named, Register, Coherent;
    if rs != [] {
      CoherentIsClean(entityOf, s, ledger, rs[0]);
      AgainKeepsInv(s, ledger, rs[0]);
      AgainChangesNothing(entityOf, s, ledger, rs[1..]);
    }
  }

  lemma EmptyInv(entityOf: string -> string)
    ensures Inv(EMPTY, map[]) && CountInv(EMPTY, map[]) && Named(entityOf, EMPTY, map[])
  {
  }

  /** A rebuild from the persisted candidates after a restart counts each candidate and its occurrences once, and another
      one counts nothing more, whatever entities they bring. */
  lemma RebuildNeverDoubles(rs: seq<Registration>)
    requires UnclaimedRun(EMPTY, rs)
    ensures var once, ledger := RegisterAll(EMPTY, rs), RecordAll(EMPTY, map[], rs);
            CountInv(once, ledger) && CountInv(RegisterAll(once, rs), ledger) && AllSameCounts(once, RegisterAll(once, rs))
  {
    hide CountInv, RegisterAll, RecordAll;
    EmptyInv((c: string) => "");
    RunKeepsCounts(EMPTY, map[], rs);
    forall r | r in rs ensures r.id in RegisterAll(EMPTY, rs).candidates { assert r.id in set x | x in rs :: x.id; }
    AgainCountsNothing(RegisterAll(EMPTY, rs), RecordAll(EMPTY, map[], rs), rs);
  }

  /** With entities that stay and carried ids that fit their keys, another rebuild changes nothing at all. */
  lemma CoherentRebuild(entityOf: string -> string, rs: seq<Registration>)
    requires forall r :: r in rs ==> Coherent(entityOf, r)
    ensures Inv(RegisterAll(EMPTY, rs), RecordAll(EMPTY, map[], rs))
    ensures RegisterAll(RegisterAll(EMPTY, rs), rs) == RegisterAll(EMPTY, rs)
  {
    hide Inv, Named, Coherent, RegisterAll;
    EmptyInv(entityOf);
    CoherentRunIsClean(entityOf, EMPTY, map[], rs);
    RunKeepsInv(EMPTY, map[], rs);
    forall r | r in rs ensures r.id in RegisterAll(EMPTY, rs).candidates { assert r.id in set x | x in rs :: x.id; }
    AgainChangesNothing(entityOf, RegisterAll(EMPTY, rs), RecordAll(EMPTY, map[], rs), rs);
  }

  /** The same candidate seen again under another entity: one attached candidate, two entities counted. */
  lemma EntityDrifts()
    ensures var s := RegisterAll(EMPTY, [Registration("c", None, "", "k", 3, "e1"), Registration("c", None, "", "k", 3, "e2")]);
            OfKey("k") in s.groups && s.groups[OfKey("k")].candidateCount == 1 && s.groups[OfKey("k")].affectedEntities == 2
  {
    var r1, r2 := Registration("c", None, "", "k", 3, "e1"), Registration("c", None, "", "k", 3, "e2");
    assert [r1, r2][1..] == [r2];
    var s1 := Register(EMPTY, r1).value;
    assert s1 == Store(map[OfKey("k") := Group(OfKey("k"), "k", 1, 3, ["c"], ["e1"], 1, "c")], map["k" := OfKey("k")], map["c" := OfKey("k")]);
    assert RegisterAll(s1, [r2]) == Register(s1, r2).value;
  }

  /** A carried id that belongs to another key: the group founded for that key takes its place. */
  lemma ForeignIdOverwrites()
    ensures var s := RegisterAll(EMPTY, [Registration("c1", Some(OfKey("k2")), "k1", "k1", 5, "e1"), Registration("c2", None, "", "k2", 7, "e2")]);
            && OfKey("k2") in s.groups && s.groups[OfKey("k2")].candidateIds == ["c2"] && s.groups[OfKey("k2")].occurrenceCount == 7
            && "c1" in s.candidates && s.candidates["c1"] == OfKey("k2")
  {
    var r1, r2 := Registration("c1", Some(OfKey("k2")), "k1", "k1", 5, "e1"), Registration("c2", None, "", "k2", 7, "e2");
    assert [r1, r2][1..] == [r2];
    var s1 := Register(EMPTY, r1).value;
    assert s1 == Store(map[OfKey("k2") := Group(OfKey("k2"), "k1", 1, 5, ["c1"], ["e1"], 1, "c1")], map["k1" := OfKey("k2")], map["c1" := OfKey("k2")]);
    assert RegisterAll(s1, [r2]) == Register(s1, r2).value;
  }

  // ----- the in-memory store -----

  class InMemoryApprovalGroupStore {
    var groups: map<GroupId, Group>
    var byKey: map<Key, GroupId>
    var candidates: map<string, GroupId>

    constructor ()
      ensures View() == EMPTY
    {
      groups, byKey, candidates := map[], map[], map[];
    }

    function View(): Store
      reads this
    {
      Store(groups, byKey, candidates)
    }

    method SaveGroup(group: Group)
      modifies `groups, `byKey
      ensures View() == Save(old(View()), group)
    {
      var value := group;
      if value.key in byKey && byKey[value.key] != value.id {
        value := value.(id := byKey[value.key]);
      }
      groups, byKey := groups[value.id := value], byKey[value.key := value.id];
    }

    method AttachCandidate(group: GroupId, candidate: string) returns (refused: bool)
      modifies `candidates
      ensures match old(Attach(View(), group, candidate))
              case Ok(after) => !refused && View() == after
              case Err(_) => refused && View() == old(View())
    {
      if candidate in candidates && candidates[candidate] != group {
        return true;
      }
      candidates := candidates[candidate := group];
      return false;
    }

    /** The group as the registration leaves it. */
    method GroupFor(r: Registration) returns (group: Group)
      ensures group == GroupAfter(View(), r)
    {
      var known := if r.id in candidates then Some(candidates[r.id]) else r.carriedGroup;
      var preserved := if known.Some? then r.carriedKey else "";
      if known.Some? && preserved == "" && known.value in groups {
        preserved := groups[known.value].key;
      }
      var key := if preserved != "" then preserved else r.preparedKey;
      var existing := if known.Some? && known.value in groups then Some(groups[known.value]) else None;
      if existing.None? && key in byKey && byKey[key] in groups {
        existing := Some(groups[byKey[key]]);
      }
      if existing.None? {
        return Group(if known.Some? then known.value else OfKey(key), key, 1, r.occurrences, [r.id], [r.entityKey], 1, r.id);
      }
      group := existing.value;
      if r.id !in candidates {
        group := group.(candidateCount := group.candidateCount + 1, occurrenceCount := group.occurrenceCount + r.occurrences,
                        candidateIds := group.candidateIds + [r.id]);
      }
      if r.entityKey !in group.entityKeys {
        group := group.(entityKeys := group.entityKeys + [r.entityKey]);
      }
      group := group.(affectedEntities := |group.entityKeys|);
      if r.id !in group.candidateIds {
        group := group.(candidateIds := group.candidateIds + [r.id]);
      }
    }

    /** `_register_feature_group_in_transaction_locked`, as far as the group's membership goes. */
    method RegisterCandidate(r: Registration, ghost ledger: Ledger) returns (group: Group)
      requires CountInv(View(), ledger)
      modifies this
      ensures old(Register(View(), r)) == Ok(View()) && group == old(GroupAfter(View(), r))
      ensures old(Unclaimed(View(), r)) ==> CountInv(View(), old(Recorded(View(), ledger, r)))
      ensures old(Inv(View(), ledger) && Clean(View(), r)) ==> Inv(View(), old(Recorded(View(), ledger, r)))
    {
      hide Inv, CountInv, GroupAfter, Unclaimed, Clean, Recorded;
      RegisterKeepsCounts(View(), ledger, r);
      if Inv(View(), ledger) { RegisterKeepsInv(View(), ledger, r); }
      group := GroupFor(r);
      SaveGroup(group);
      NamedSaved(old(View()), ledger, r);
      var refused := AttachCandidate(group.id, r.id);
    }
  }

  /** The group found is already filed under its key, so saving it keeps its id. */
  lemma NamedSaved(s: Store, ledger: Ledger, r: Registration)
    requires CountInv(s, ledger)
    ensures Attach(Save(s, GroupAfter(s, r)), GroupAfter(s, r).id, r.id).Ok?
  {
    RegisterFiles(s, ledger, r);
  }
}
