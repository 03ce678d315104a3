/** When the offline repair commits: exactly when every planned row is fresh and every child finds its place. */
module RepairCommits {
  import opened Prelude
  import opened Repair

  /** A child and the planned row it comes from. */
  type Pair = (Planned, Child)

  function PairsOf(p: Planned, children: seq<Child>): (pairs: seq<Pair>)
    ensures |pairs| == |children| && forall i :: 0 <= i < |pairs| ==> pairs[i] == (p, children[i])
  {
    if children == [] then [] else [(p, children[0])] + PairsOf(p, children[1..])
  }

  /** All children of a plan, in the order the repair places them. */
  function Pairs(plan: seq<Planned>): seq<Pair> {
    if plan == [] then [] else PairsOf(plan[0], plan[0].children) + Pairs(plan[1..])
  }

  function Ids(placed: seq<Pair>): set<string> { set d | d in placed :: d.1.id }

  /** The keys among those placed that had no group. */
  function Founded(t: Tables, placed: seq<Pair>): set<string> { set d | d in placed && d.1.key !in t.byKey :: d.1.key }

  function Named(idFor: string -> string, keys: set<string>): set<string> { set k | k in keys :: idFor(k) }

  /** A child finds its place after others were placed: the one that keeps its row's id meets the row pending and at the
      version that was read, any other brings an id no candidate has; none placed before brought its id; and a key that
      has no group, unless one before has founded it, founds one under an id no group has. */
  predicate FindsPlace(t: Tables, idFor: string -> string, pair: Pair, placed: seq<Pair>) {
    var (p, c) := pair;
    && (if c.id == p.id then IsFresh(t, p) else c.id !in t.candidates)
    && c.id !in Ids(placed)
    && (c.key in t.byKey || c.key in Founded(t, placed)
        || (idFor(c.key) !in t.groups && idFor(c.key) !in Named(idFor, Founded(t, placed))))
  }

  /** Each of the pairs finds its place after those placed before it. */
  ghost predicate AllFindPlaces(t: Tables, idFor: string -> string, placed: seq<Pair>, pairs: seq<Pair>) {
    forall i :: 0 <= i < |pairs| ==> FindsPlace(t, idFor, pairs[i], placed + pairs[..i])
  }

  lemma PlacesSplit(t: Tables, idFor: string -> string, placed: seq<Pair>, a: seq<Pair>, b: seq<Pair>)
    ensures AllFindPlaces(t, idFor, placed, a + b) <==> AllFindPlaces(t, idFor, placed, a) && AllFindPlaces(t, idFor, placed + a, b)
  {
    hide FindsPlace;
    var all := a + b;
    forall i | 0 <= i < |a| ensures all[i] == a[i] && placed + all[..i] == placed + a[..i] {}
    forall i | 0 <= i < |b| ensures all[|a| + i] == b[i] && placed + all[..|a| + i] == placed + a + b[..i] {}
    if AllFindPlaces(t, idFor, placed, a) && AllFindPlaces(t, idFor, placed + a, b) {
      forall i | 0 <= i < |all| ensures FindsPlace(t, idFor, all[i], placed + all[..i]) {
        if i >= |a| { assert FindsPlace(t, idFor, b[i - |a|], placed + a + b[..i - |a|]); }
      }
    }
  }

  lemma OnePlace(t: Tables, idFor: string -> string, placed: seq<Pair>, pair: Pair)
    ensures AllFindPlaces(t, idFor, placed, [pair]) <==> FindsPlace(t, idFor, pair, placed)
  {
    hide FindsPlace;
    assert placed + [pair][..0] == placed;
  }

  // ----- the tables in the middle -----

  /** What the tables know of the children placed so far: their rows and memberships, and their groups. */
  ghost predicate Knows(t: Tables, w: Tables, idFor: string -> string, placed: seq<Pair>) {
    KnowsRows(t, w, placed) && KnowsGroups(t, w, idFor, placed)
  }

  ghost predicate KnowsRows(t: Tables, w: Tables, placed: seq<Pair>) {
    && w.candidates.Keys == t.candidates.Keys + Ids(placed)
    && (forall x :: x in t.candidates && x !in Ids(placed) ==> x in w.candidates && w.candidates[x] == t.candidates[x])
    && Ids(placed) <= w.members.Keys
  }

  ghost predicate KnowsGroups(t: Tables, w: Tables, idFor: string -> string, placed: seq<Pair>) {
    && w.byKey.Keys == t.byKey.Keys + Founded(t, placed)
    && w.groups.Keys == t.groups.Keys + Named(idFor, Founded(t, placed))
  }

  /** The row being replaced has left its group, and joins one again only as its own child. */
  ghost predicate Away(w: Tables, p: Planned, placed: seq<Pair>) { p.id in w.members ==> p.id in Ids(placed) }

  lemma OnePlaced(t: Tables, idFor: string -> string, placed: seq<Pair>, pair: Pair)
    ensures Ids(placed + [pair]) == Ids(placed) + {pair.1.id}
    ensures Founded(t, placed + [pair]) == Founded(t, placed) + (if pair.1.key in t.byKey then {} else {pair.1.key})
  {
    var now := placed + [pair];
    assert forall d :: d in now <==> d in placed || d == pair;
  }

  lemma OneNamed(idFor: string -> string, keys: set<string>, key: string)
    ensures Named(idFor, keys + {key}) == Named(idFor, keys) + {idFor(key)}
  {
  }

  lemma PlacesExactly(t: Tables, w: Work, idFor: string -> string, placed: seq<Pair>, p: Planned, c: Child, now: nat)
    requires Knows(t, w.tables, idFor, placed) && Away(w.tables, p, placed) && w.tables.members.Keys <= w.tables.candidates.Keys
    ensures Place(w, idFor, p, c, now).Ok? <==> FindsPlace(t, idFor, (p, c), placed)
  {
    hide Ids, Founded, Named;
    var u := WithGroup(w.tables, idFor, c.key, now);
    if u.Ok? {
      assert u.value.candidates == w.tables.candidates && u.value.members == w.tables.members;
      RowExactly(t, u.value, placed, p, c, GroupIdFor(w.tables, idFor, c.key), now);
    }
  }

  /** The candidate row and the membership are written exactly for a fresh row or a new id. */
  lemma RowExactly(t: Tables, u: Tables, placed: seq<Pair>, p: Planned, c: Child, group: string, now: nat)
    requires u.candidates.Keys == t.candidates.Keys + Ids(placed) && Ids(placed) <= u.members.Keys <= u.candidates.Keys
    requires forall x :: x in t.candidates && x !in Ids(placed) ==> x in u.candidates && u.candidates[x] == t.candidates[x]
    requires Away(u, p, placed)
    ensures var v := WithRow(u, p, c, group, now);
            v.Ok? && c.id !in v.value.members <==> (if c.id == p.id then IsFresh(t, p) else c.id !in t.candidates) && c.id !in Ids(placed)
  {
    hide Ids;
  }

  lemma GroupAdds(t: Tables, idFor: string -> string, key: string, now: nat)
    requires WithGroup(t, idFor, key, now).Ok?
    ensures var u := WithGroup(t, idFor, key, now).value;
            && u.candidates == t.candidates && u.members == t.members && u.byKey.Keys == t.byKey.Keys + {key}
            && u.groups.Keys == if key in t.byKey then t.groups.Keys else t.groups.Keys + {idFor(key)}
  {
  }

  lemma RowAdds(t: Tables, p: Planned, c: Child, group: string, now: nat)
    requires WithRow(t, p, c, group, now).Ok?
    ensures var u := WithRow(t, p, c, group, now).value;
            && u.members == t.members && u.byKey == t.byKey && u.groups == t.groups && u.candidates.Keys == t.candidates.Keys + {c.id}
            && forall x :: x in t.candidates && x != c.id ==> u.candidates[x] == t.candidates[x]
  {
  }

  /** What placing a child adds. */
  lemma PlaceAdds(w: Work, idFor: string -> string, p: Planned, c: Child, now: nat)
    requires Place(w, idFor, p, c, now).Ok?
    ensures var t, v := w.tables, Place(w, idFor, p, c, now).value.tables;
            && v.candidates.Keys == t.candidates.Keys + {c.id} && v.members.Keys == t.members.Keys + {c.id}
            && (forall x :: x in t.candidates && x != c.id ==> v.candidates[x] == t.candidates[x])
            && v.byKey.Keys == t.byKey.Keys + {c.key}
            && v.groups.Keys == if c.key in t.byKey then t.groups.Keys else t.groups.Keys + {idFor(c.key)}
  {
    hide WithGroup, WithRow, GroupIdFor;
    GroupAdds(w.tables, idFor, c.key, now);
    RowAdds(WithGroup(w.tables, idFor, c.key, now).value, p, c, GroupIdFor(w.tables, idFor, c.key), now);
  }

  lemma PlacedKnows(t: Tables, w: Work, idFor: string -> string, placed: seq<Pair>, p: Planned, c: Child, now: nat)
    requires Knows(t, w.tables, idFor, placed) && Away(w.tables, p, placed) && Place(w, idFor, p, c, now).Ok?
    ensures var v := Place(w, idFor, p, c, now).value;
            Knows(t, v.tables, idFor, placed + [(p, c)]) && Away(v.tables, p, placed + [(p, c)])
  {
    PlaceAdds(w, idFor, p, c, now);
    var v := Place(w, idFor, p, c, now).value.tables;
    hide Place, Ids, KnowsRows, KnowsGroups;
    OnePlaced(t, idFor, placed, (p, c));
    RowsKnown(t, w.tables, v, idFor, placed, (p, c));
    GroupsKnown(t, w.tables, v, idFor, placed, (p, c));
  }

  lemma RowsKnown(t: Tables, w: Tables, v: Tables, idFor: string -> string, placed: seq<Pair>, pair: Pair)
    requires KnowsRows(t, w, placed)
    requires v.candidates.Keys == w.candidates.Keys + {pair.1.id} && v.members.Keys == w.members.Keys + {pair.1.id}
    requires forall x :: x in w.candidates && x != pair.1.id ==> v.candidates[x] == w.candidates[x]
    ensures KnowsRows(t, v, placed + [pair])
  {
    OnePlaced(t, idFor, placed, pair);
    hide Ids;
  }

  lemma GroupsKnown(t: Tables, w: Tables, v: Tables, idFor: string -> string, placed: seq<Pair>, pair: Pair)
    requires KnowsGroups(t, w, idFor, placed)
    requires v.byKey.Keys == w.byKey.Keys + {pair.1.key}
    requires v.groups.Keys == if pair.1.key in w.byKey then w.groups.Keys else w.groups.Keys + {idFor(pair.1.key)}
    ensures KnowsGroups(t, v, idFor, placed + [pair])
  {
    var founded, key := Founded(t, placed), pair.1.key;
    OnePlaced(t, idFor, placed, pair);
    OneNamed(idFor, founded, key);
    hide Founded, Named;
    if key in t.byKey { assert founded + {} == founded; } else if key in founded { assert founded + {key} == founded; }
  }

  // ----- all children of a row, all rows of a plan -----

  lemma {:induction false} PlacesAllExactly(t: Tables, w: Work, idFor: string -> string, placed: seq<Pair>, p: Planned, children: seq<Child>, now: nat)
    requires Filed(w.tables) && "" !in w.tables.groups && Naming(idFor) && Knows(t, w.tables, idFor, placed) && Away(w.tables, p, placed)
    ensures PlaceAll(w, idFor, p, children, now).Ok? <==> AllFindPlaces(t, idFor, placed, PairsOf(p, children))
    ensures PlaceAll(w, idFor, p, children, now).Ok? ==>
              var v := PlaceAll(w, idFor, p, children, now).value.tables;
              Filed(v) && "" !in v.groups && Knows(t, v, idFor, placed + PairsOf(p, children))
    decreases |children|
  {
    hide Filed, Naming, Knows, Away, Place, FindsPlace, Placed;
    if children == [] {
      assert placed + PairsOf(p, children) == placed;
    } else {
      var c := children[0];
      var rest := PairsOf(p, children[1..]);
      assert w.tables.members.Keys <= w.tables.candidates.Keys by { MembersAreRows(w.tables); }
      PlacesExactly(t, w, idFor, placed, p, c, now);
      OnePlace(t, idFor, placed, (p, c));
      PlacesSplit(t, idFor, placed, [(p, c)], rest);
      if Place(w, idFor, p, c, now).Ok? {
        PlaceKeeps(w, idFor, p, c, now);
        PlacedKnows(t, w, idFor, placed, p, c, now);
        PlacesAllExactly(t, Place(w, idFor, p, c, now).value, idFor, placed + [(p, c)], p, children[1..], now);
        assert placed + ([(p, c)] + rest) == placed + [(p, c)] + rest;
      }
    }
  }

  lemma MembersAreRows(t: Tables)
    requires Filed(t)
    ensures t.members.Keys <= t.candidates.Keys
  {
  }

  /** Children that found their places have not taken the id of another planned row. */
  lemma {:induction false} OthersUntaken(t: Tables, idFor: string -> string, placed: seq<Pair>, p: Planned, children: seq<Child>, q: Planned)
    requires AllFindPlaces(t, idFor, placed, PairsOf(p, children)) && q.id != p.id && q.id in t.candidates && q.id !in Ids(placed)
    ensures q.id !in Ids(placed + PairsOf(p, children))
  {
    var pairs := PairsOf(p, children);
    forall d | d in pairs ensures d.1.id != q.id {
      var i :| 0 <= i < |pairs| && pairs[i] == d;
      assert FindsPlace(t, idFor, pairs[i], placed + pairs[..i]);
    }
    assert forall d :: d in placed + pairs <==> d in placed || d in pairs;
  }

  lemma SameGroups(t: Tables, w: Tables, v: Tables, idFor: string -> string, placed: seq<Pair>)
    requires KnowsGroups(t, w, idFor, placed) && v.byKey == w.byKey && v.groups == w.groups
    ensures KnowsGroups(t, v, idFor, placed)
  {
  }

  lemma SameRows(t: Tables, w: Tables, v: Tables, placed: seq<Pair>, id: string)
    requires KnowsRows(t, w, placed) && v.candidates == w.candidates && v.members == w.members - {id} && id !in Ids(placed)
    ensures KnowsRows(t, v, placed) && id !in v.members
  {
    hide Ids;
    assert v.members.Keys == w.members.Keys - {id};
  }

  lemma TakenOut(t: Tables, w: Tables, idFor: string -> string, placed: seq<Pair>, p: Planned)
    requires Filed(w) && Knows(t, w, idFor, placed) && p.id !in Ids(placed)
    ensures var v := w.(members := w.members - {p.id}); Filed(v) && Knows(t, v, idFor, placed) && Away(v, p, placed)
  {
    hide Ids, Filed, KnowsGroups, KnowsRows;
    var v := w.(members := w.members - {p.id});
    RemovedFiles(w, p.id);
    SameGroups(t, w, v, idFor, placed);
    SameRows(t, w, v, placed, p.id);
  }

  lemma {:induction false} ReplacesAllExactly(t: Tables, w: Work, idFor: string -> string, placed: seq<Pair>, plan: seq<Planned>, now: nat)
    requires Filed(w.tables) && "" !in w.tables.groups && Naming(idFor) && Knows(t, w.tables, idFor, placed)
    requires DistinctPlan(plan) && forall p :: p in plan ==> p.id in t.candidates && p.id !in Ids(placed)
    ensures ReplaceAll(w, idFor, plan, now).Ok? <==> AllFindPlaces(t, idFor, placed, Pairs(plan))
    decreases |plan|
  {
    hide Filed, Naming, Knows, Away, PlaceAll, FindsPlace, Ids, AllFindPlaces;
    if plan == [] {
      assert AllFindPlaces(t, idFor, placed, []) by { NonePlaced(t, idFor, placed); }
    } else {
      var p := plan[0];
      var pairs := PairsOf(p, p.children);
      assert p in plan;
      TakenOut(t, w.tables, idFor, placed, p);
      var v := Work(w.tables.(members := w.tables.members - {p.id}), w.affected + Given(p.group));
      PlacesAllExactly(t, v, idFor, placed, p, p.children, now);
      PlacesSplit(t, idFor, placed, pairs, Pairs(plan[1..]));
      if PlaceAll(v, idFor, p, p.children, now).Ok? {
        forall q | q in plan[1..] ensures q.id in t.candidates && q.id !in Ids(placed + pairs) {
          var i :| 0 <= i < |plan[1..]| && plan[1..][i] == q;
          assert plan[i + 1] == q && q in plan && plan[0].id != plan[i + 1].id;
          OthersUntaken(t, idFor, placed, p, p.children, q);
        }
        ReplacesAllExactly(t, Replace(w, idFor, p, now).value, idFor, placed + pairs, plan[1..], now);
      }
    }
  }

  lemma NonePlaced(t: Tables, idFor: string -> string, placed: seq<Pair>)
    ensures AllFindPlaces(t, idFor, placed, [])
  {
  }

  /** The repair commits if and only if every child of every planned row finds its place, one after the other. */
  lemma CommitsExactly(t: Tables, idFor: string -> string, plan: seq<Planned>, now: nat)
    requires Filed(t) && "" !in t.groups && Naming(idFor) && PlanFrom(t, plan)
    ensures Repaired(t, idFor, plan, now).Ok? <==> AllFindPlaces(t, idFor, [], Pairs(plan))
  {
    hide Filed, Naming, AllFindPlaces, ReplaceAll, RecomputeAll, ExpandAll;
    assert Knows(t, t, idFor, []) by {
      assert Ids([]) == {} && Founded(t, []) == {} && Named(idFor, {}) == {};
      assert t.candidates.Keys + {} == t.candidates.Keys && t.byKey.Keys + {} == t.byKey.Keys && t.groups.Keys + {} == t.groups.Keys;
    }
    assert Ids([]) == {};
    ReplacesAllExactly(t, Work(t, {}), idFor, [], plan, now);
  }
}
