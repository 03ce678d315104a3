/** Which approval group a registered candidate ends up in. */
module GroupMembership {
  import opened Prelude
  import opened Ordering
  import opened GroupStore

  /** The key a candidate asks for: the one it carries with its group, else the one its evidence yields. */
  function Wanted(r: Registration): Key {
    if r.carriedGroup.Some? && r.carriedKey != "" then r.carriedKey else r.preparedKey
  }

  /** The group a new candidate goes to, if there is one already: the one it carries, else the one of the key it wants. */
  function Awaiting(s: Store, r: Registration): Option<GroupId> {
    if r.carriedGroup.Some? && r.carriedGroup.value in s.groups then r.carriedGroup
    else if Wanted(r) in s.byKey then Some(s.byKey[Wanted(r)])
    else None
  }

  /** What a registration changes: the candidate's group, and nothing of any other. */
  ghost predicate OnlyChanges(s: Store, t: Store, r: Registration, g: GroupId) {
    && t.candidates == s.candidates[r.id := g] && g in t.groups && t.groups[g].id == g
    && (forall h :: h in s.groups && h != g ==> h in t.groups && t.groups[h] == s.groups[h])
    && forall h :: h in t.groups && h != g ==> h in s.groups
  }

  /** A known group keeps its key and its primary candidate. */
  ghost predicate Known(s: Store, t: Store, g: GroupId) {
    g in s.groups && g in t.groups && t.byKey == s.byKey && t.groups[g].key == s.groups[g].key && t.groups[g].primary == s.groups[g].primary
  }

  /** A candidate stays in the group it is attached to; a new one joins the group that awaits it, or founds one under the
      key it wants and the id it carries, of which it is the primary candidate. */
  lemma JoinsGroup(s: Store, ledger: Ledger, r: Registration)
    requires Linked(s, ledger)
    ensures Register(s, r).Ok?
    ensures var t := Register(s, r).value;
            if r.id in s.candidates then
              OnlyChanges(s, t, r, s.candidates[r.id]) && Known(s, t, s.candidates[r.id])
            else if Awaiting(s, r).Some? then
              OnlyChanges(s, t, r, Awaiting(s, r).value) && Known(s, t, Awaiting(s, r).value)
            else
              var g := if r.carriedGroup.Some? then r.carriedGroup.value else OfKey(Wanted(r));
              && OnlyChanges(s, t, r, g) && t.byKey == s.byKey[Wanted(r) := g]
              && t.groups[g].key == Wanted(r) && t.groups[g].primary == r.id && t.groups[g].candidateIds == [r.id]
  {
    RegisterFiles(s, ledger, r);
    Finds(s, ledger, r);
    hide Register, Joined, Existing, KeyOf, KnownGroup, NewId, Awaiting;
    var g := GroupAfter(s, r);
    if Existing(s, r).Some? {
      JoinedKeepsMore(Existing(s, r).value, r);
      FiledUnder(s, ledger, g.id);
      assert s.byKey[g.key := g.id] == s.byKey;
    }
  }

  lemma FiledUnder(s: Store, ledger: Ledger, id: GroupId)
    requires Linked(s, ledger)
    ensures id in s.groups ==> s.groups[id].id == id && s.groups[id].key in s.byKey && s.byKey[s.groups[id].key] == id
  {
  }

  /** What the lookup of a registration finds. */
  lemma Finds(s: Store, ledger: Ledger, r: Registration)
    requires Linked(s, ledger)
    ensures match Existing(s, r)
            case Some(g) =>
              if r.id in s.candidates then s.candidates[r.id] in s.groups && g == s.groups[s.candidates[r.id]]
              else Awaiting(s, r).Some? && Awaiting(s, r).value in s.groups && g == s.groups[Awaiting(s, r).value]
            case None =>
              && r.id !in s.candidates && Awaiting(s, r).None? && KeyOf(s, r) == Wanted(r)
              && NewId(s, r) == if r.carriedGroup.Some? then r.carriedGroup.value else OfKey(Wanted(r))
  {
  }

  lemma JoinedKeepsMore(g: Group, r: Registration)
    ensures forall isNew :: Joined(g, r, isNew).id == g.id && Joined(g, r, isNew).key == g.key && Joined(g, r, isNew).primary == g.primary
  {
  }

  // ----- runs whose carried ids fit their keys -----

  lemma CoherentPlace(entityOf: string -> string, s: Store, ledger: Ledger, r: Registration)
    requires Inv(s, ledger) && Named(entityOf, s, ledger) && Coherent(entityOf, r)
    ensures Register(s, r).Ok?
    ensures var t := Register(s, r).value;
            t.candidates == s.candidates[r.id := if r.id in s.candidates then s.candidates[r.id] else OfKey(Wanted(r))]
  {
    hide Register, Exact, Attached;
    JoinsGroup(s, ledger, r);
    if r.id !in s.candidates && Wanted(r) in s.byKey { FiledKey(s, ledger, Wanted(r)); }
  }

  lemma FiledKey(s: Store, ledger: Ledger, key: Key)
    requires Linked(s, ledger) && key in s.byKey
    ensures s.byKey[key] in s.groups && s.groups[s.byKey[key]].key == key
  {
  }

  predicate SeenBefore(s: Store, rs: seq<Registration>, i: nat)
    requires i < |rs|
  {
    rs[i].id in s.candidates || exists j :: 0 <= j < i && rs[j].id == rs[i].id
  }

  lemma {:induction false} Stays(entityOf: string -> string, s: Store, ledger: Ledger, rs: seq<Registration>, c: string)
    requires Inv(s, ledger) && Named(entityOf, s, ledger) && (forall r :: r in rs ==> Coherent(entityOf, r)) && c in s.candidates
    ensures c in RegisterAll(s, rs).candidates && RegisterAll(s, rs).candidates[c] == s.candidates[c]
    decreases |rs|
  {
    hide Inv, Named, Register, Recorded, Coherent, Clean;
    if rs != [] {
      assert rs[0] in rs;
      CoherentIsClean(entityOf, s, ledger, rs[0]);
      RegisterKeepsInv(s, ledger, rs[0]);
      CoherentPlace(entityOf, s, ledger, rs[0]);
      Stays(entityOf, Register(s, rs[0]).value, Recorded(s, ledger, rs[0]), rs[1..], c);
    }
  }

  /** Every candidate ends in the group of the key it wanted when it was first registered, whatever it brings later. */
  lemma {:induction false} GroupOfFirstKey(entityOf: string -> string, s: Store, ledger: Ledger, rs: seq<Registration>, i: nat)
    requires Inv(s, ledger) && Named(entityOf, s, ledger) && forall r :: r in rs ==> Coherent(entityOf, r)
    requires i < |rs| && !SeenBefore(s, rs, i)
    ensures rs[i].id in RegisterAll(s, rs).candidates && RegisterAll(s, rs).candidates[rs[i].id] == OfKey(Wanted(rs[i]))
    decreases |rs|
  {
    hide Inv, Named, Register, Recorded, Coherent, Clean;
    assert rs[0] in rs;
    CoherentIsClean(entityOf, s, ledger, rs[0]);
    RegisterKeepsInv(s, ledger, rs[0]);
    CoherentPlace(entityOf, s, ledger, rs[0]);
    var t := Register(s, rs[0]).value;
    if i == 0 {
      Stays(entityOf, t, Recorded(s, ledger, rs[0]), rs[1..], rs[0].id);
    } else {
      assert rs[1..][i - 1] == rs[i] && rs[0].id != rs[i].id;
      assert !SeenBefore(t, rs[1..], i - 1) by {
        forall j | 0 <= j < i - 1 ensures rs[1..][j].id != rs[i].id { assert rs[1..][j] == rs[j + 1]; }
      }
      GroupOfFirstKey(entityOf, t, Recorded(s, ledger, rs[0]), rs[1..], i - 1);
    }
  }

  /** So two candidates are grouped together exactly when they first wanted one key. */
  lemma GroupedExactly(entityOf: string -> string, rs: seq<Registration>, i: nat, j: nat)
    requires forall r :: r in rs ==> Coherent(entityOf, r)
    requires i < |rs| && j < |rs| && !SeenBefore(EMPTY, rs, i) && !SeenBefore(EMPTY, rs, j)
    ensures var s := RegisterAll(EMPTY, rs);
            && rs[i].id in s.candidates && rs[j].id in s.candidates
            && (s.candidates[rs[i].id] == s.candidates[rs[j].id] <==> Wanted(rs[i]) == Wanted(rs[j]))
  {
    hide Inv, Named, Coherent, RegisterAll;
    EmptyInv(entityOf);
    GroupOfFirstKey(entityOf, EMPTY, map[], rs, i);
    GroupOfFirstKey(entityOf, EMPTY, map[], rs, j);
  }
}
