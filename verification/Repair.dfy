/**
 The offline repair of pending candidates: approval_repair.py over its tables. A planned candidate is replaced by its
 children, their groups are recomputed from their members, and everything commits together or not at all.
 */
module Repair {
  import opened Prelude
  import opened Ordering
  import opened Keyset
  import EntityNames

  /** What a group's figures are taken from; empty where a candidate does not say. */
  datatype Facts = Facts(cluster: string, entityType: string, entityId: string, occurrences: nat, first: string, last: string)

  datatype Candidate = Candidate(status: string, version: nat, key: string, group: Option<string>, job: string, entity: string, facts: Facts)

  datatype Figures = Figures(ids: seq<string>, entities: seq<string>, candidates: nat, affected: nat, occurrences: nat,
                             first: Option<string>, last: Option<string>)

  datatype Group = Group(key: string, status: string, figures: Figures, primary: Option<string>, updatedAt: nat)

  /** `byKey` is the unique index on approval keys, `members` the membership table with its unique candidate column. */
  datatype Tables = Tables(candidates: map<string, Candidate>, members: map<string, string>, groups: map<string, Group>,
                           byKey: map<string, string>, features: map<(string, string), seq<string>>)

  datatype Child = Child(id: string, key: string, facts: Facts)

  /** One row as the plan read it, with the replacement `reclassify_pending_candidate` proposed: its first child
      keeps the candidate's id. */
  datatype Planned = Planned(id: string, job: string, entity: string, version: nat, group: Option<string>, children: seq<Child>)

  datatype Refusal = Stale | Duplicate

  const NO_FIGURES := Figures([], [], 0, 0, 0, None, None)

  // ----- one child -----

  /** The tables in the middle of the repair, and the groups it has touched. */
  datatype Work = Work(tables: Tables, affected: set<string>)

  function GroupIdFor(t: Tables, idFor: string -> string, key: string): string {
    if key in t.byKey then t.byKey[key] else idFor(key)
  }

  function WithGroup(t: Tables, idFor: string -> string, key: string, now: nat): Result<Tables, Refusal> {
    if key in t.byKey then Ok(t)
    else if idFor(key) in t.groups then Err(Duplicate)
    else Ok(t.(groups := t.groups[idFor(key) := Group(key, "pending", NO_FIGURES, None, now)], byKey := t.byKey[key := idFor(key)]))
  }

  /** Writes the candidate row of a child: the old row when nobody changed it since it was read, else a new one. */
  function WithRow(t: Tables, p: Planned, c: Child, group: string, now: nat): Result<Tables, Refusal> {
    if c.id == p.id then
      if p.id !in t.candidates || t.candidates[p.id].status != "pending" || t.candidates[p.id].version != p.version then Err(Stale)
      else Ok(t.(candidates := t.candidates[p.id := t.candidates[p.id].(version := now, key := c.key, group := Some(group), facts := c.facts)]))
    else if c.id in t.candidates then Err(Duplicate)
    else Ok(t.(candidates := t.candidates[c.id := Candidate("pending", now, c.key, Some(group), p.job, p.entity, c.facts)]))
  }

  function Place(w: Work, idFor: string -> string, p: Planned, c: Child, now: nat): Result<Work, Refusal> {
    var group := GroupIdFor(w.tables, idFor, c.key);
    match WithGroup(w.tables, idFor, c.key, now)
    case Err(e) => Err(e)
    case Ok(t) => match WithRow(t, p, c, group, now)
      case Err(e) => Err(e)
      case Ok(u) =>
        if c.id in u.members then Err(Duplicate)
        else Ok(Work(u.(members := u.members[c.id := group]), w.affected + {group}))
  }

  function PlaceAll(w: Work, idFor: string -> string, p: Planned, children: seq<Child>, now: nat): Result<Work, Refusal>
    decreases |children|
  {
    if children == [] then Ok(w)
    else match Place(w, idFor, p, children[0], now)
      case Err(e) => Err(e)
      case Ok(v) => PlaceAll(v, idFor, p, children[1..], now)
  }

  function Given(group: Option<string>): set<string> { if group.Some? && group.value != "" then {group.value} else {} }

  function Replace(w: Work, idFor: string -> string, p: Planned, now: nat): Result<Work, Refusal> {
    PlaceAll(Work(w.tables.(members := w.tables.members - {p.id}), w.affected + Given(p.group)), idFor, p, p.children, now)
  }

  function ReplaceAll(w: Work, idFor: string -> string, plan: seq<Planned>, now: nat): Result<Work, Refusal>
    decreases |plan|
  {
    if plan == [] then Ok(w)
    else match Replace(w, idFor, plan[0], now)
      case Err(e) => Err(e)
      case Ok(v) => ReplaceAll(v, idFor, plan[1..], now)
  }

  // ----- recomputing a group -----

  type Members = map<string, Facts>

  /** The rows the join of memberships and candidates gives for one group. */
  function MembersOf(t: Tables, group: string): Members {
    map c | c in t.members && t.members[c] == group && c in t.candidates :: t.candidates[c].facts
  }

  function EntityKey(f: Facts): string { EntityNames.Key(f.cluster, f.entityType, f.entityId) }

  function EntityKeys(m: Members): set<string> { set c | c in m :: EntityKey(m[c]) }

  function Occurrences(m: Members): map<string, nat> { map c | c in m :: m[c].occurrences }

  function Firsts(m: Members): set<string> { set c | c in m && m[c].first != "" :: m[c].first }

  function Lasts(m: Members): set<string> { set c | c in m && m[c].last != "" :: m[c].last }

  ghost function FiguresOf(m: Members): Figures {
    Figures(SortedTexts(m.Keys), SortedTexts(EntityKeys(m)), |m|, |EntityKeys(m)|, SumOf(Occurrences(m)), MinText(Firsts(m)), MaxText(Lasts(m)))
  }

  ghost function Recomputed(g: Group, m: Members, now: nat): Group {
    var figures := FiguresOf(m);
    Group(g.key, if m == map[] && g.status == "pending" then "superseded" else g.status, figures,
          if g.primary.Some? && g.primary.value in m then g.primary else if figures.ids == [] then None else Some(figures.ids[0]), now)
  }

  /** The loop over the affected groups touches each group row once, in no particular order. */
  ghost function RecomputeAll(t: Tables, affected: set<string>, now: nat): Tables {
    t.(groups := map id | id in t.groups :: if id in affected then Recomputed(t.groups[id], MembersOf(t, id), now) else t.groups[id])
  }

  // ----- expanding the entities' lists -----

  function Expansion(plan: seq<Planned>, id: string): seq<string> {
    if plan == [] then [id]
    else if plan[|plan| - 1].id == id then ChildIds(plan[|plan| - 1].children)
    else Expansion(plan[..|plan| - 1], id)
  }

  function ChildIds(children: seq<Child>): (ids: seq<string>)
    ensures |ids| == |children| && forall i :: 0 <= i < |ids| ==> ids[i] == children[i].id
  {
    if children == [] then [] else [children[0].id] + ChildIds(children[1..])
  }

  function Expanded(plan: seq<Planned>, ids: seq<string>): seq<string> {
    if ids == [] then [] else Expansion(plan, ids[0]) + Expanded(plan, ids[1..])
  }

  function PlannedJobs(plan: seq<Planned>): set<string> { set p | p in plan :: p.job }

  function ExpandAll(t: Tables, plan: seq<Planned>): Tables {
    t.(features := map k | k in t.features :: if k.0 in PlannedJobs(plan) then Expanded(plan, t.features[k]) else t.features[k])
  }

  // ----- the repair -----

  ghost function Repaired(t: Tables, idFor: string -> string, plan: seq<Planned>, now: nat): Result<Tables, Refusal> {
    match ReplaceAll(Work(t, {}), idFor, plan, now)
    case Err(e) => Err(e)
    case Ok(w) => Ok(ExpandAll(RecomputeAll(w.tables, w.affected, now), plan))
  }

  /** A refusal rolls the whole transaction back. */
  ghost function Repair(t: Tables, idFor: string -> string, plan: seq<Planned>, now: nat): Tables {
    match Repaired(t, idFor, plan, now) case Ok(after) => after case Err(_) => t
  }

  // ----- what the tables keep -----

  /** The index is an index, and a candidate's group column says where it is a member. */
  ghost predicate Filed(t: Tables) {
    && (forall g :: g in t.groups ==> t.groups[g].key in t.byKey && t.byKey[t.groups[g].key] == g)
    && (forall k :: k in t.byKey ==> t.byKey[k] in t.groups && t.groups[t.byKey[k]].key == k)
    && (forall c :: c in t.candidates && t.candidates[c].group.Some? && t.candidates[c].group.value != "" ==> t.candidates[c].group.value in t.groups)
    && (forall c :: c in t.members ==> c in t.candidates && t.candidates[c].group == Some(t.members[c]) && t.members[c] in t.groups && t.members[c] != "")
  }

  /** Every group shows the figures of its members. */
  ghost predicate Figured(t: Tables) {
    forall g :: g in t.groups ==> t.groups[g].figures == FiguresOf(MembersOf(t, g))
  }

  /** The plan is made of rows as they were read; an unchanged version is an unchanged row. */
  ghost predicate ReadFrom(t: Tables, p: Planned) {
    && p.id in t.candidates && p.children != [] && p.children[0].id == p.id
    && (t.candidates[p.id].version == p.version ==>
          t.candidates[p.id].group == p.group && t.candidates[p.id].job == p.job && t.candidates[p.id].entity == p.entity)
  }

  /** `group_id_for_key` never yields an empty id. */
  ghost predicate Naming(idFor: string -> string) { forall key: string :: idFor(key) != "" }

  // ----- placing one child -----

  /** No group changes, none goes, and only `g` may be new. */
  ghost predicate GroupsKept(t: Tables, u: Tables, g: string) {
    && (forall k :: k in t.byKey ==> k in u.byKey && u.byKey[k] == t.byKey[k])
    && (forall h :: h in t.groups ==> h in u.groups && u.groups[h] == t.groups[h])
    && (forall h :: h in u.groups && h !in t.groups ==> h == g)
  }

  /** Only the row of `c` changes or comes. */
  ghost predicate RowsKept(t: Tables, u: Tables, c: Child) {
    && c.id in u.candidates && u.candidates[c.id].facts == c.facts && u.candidates[c.id].key == c.key
    && (forall x :: x in t.candidates && x != c.id ==> x in u.candidates && u.candidates[x] == t.candidates[x])
    && (forall x :: x in u.candidates && x != c.id ==> x in t.candidates)
  }

  /** What placing a child leaves: it alone moves, into the group of its key. */
  ghost predicate Placed(w: Work, v: Work, c: Child) {
    && c.key in v.tables.byKey
    && var g := v.tables.byKey[c.key];
       && v.affected == w.affected + {g} && v.tables.features == w.tables.features
       && c.id !in w.tables.members && v.tables.members == w.tables.members[c.id := g]
       && RowsKept(w.tables, v.tables, c) && GroupsKept(w.tables, v.tables, g)
  }

  lemma WithGroupKeeps(t: Tables, idFor: string -> string, key: string, now: nat)
    requires Filed(t) && Naming(idFor) && "" !in t.groups && WithGroup(t, idFor, key, now).Ok?
    ensures var u := WithGroup(t, idFor, key, now).value; var g := GroupIdFor(t, idFor, key);
            && Filed(u) && "" !in u.groups && key in u.byKey && u.byKey[key] == g && g in u.groups && g != "" && GroupsKept(t, u, g)
            && u.candidates == t.candidates && u.members == t.members && u.features == t.features
  {
    if key !in t.byKey { FoundedFiles(t, key, idFor(key), Group(key, "pending", NO_FIGURES, None, now)); }
  }

  lemma FoundedFiles(t: Tables, key: string, id: string, group: Group)
    requires Filed(t) && key !in t.byKey && id !in t.groups && group.key == key
    ensures Filed(t.(groups := t.groups[id := group], byKey := t.byKey[key := id]))
  {
  }

  lemma WithRowKeeps(t: Tables, p: Planned, c: Child, group: string, now: nat)
    requires WithRow(t, p, c, group, now).Ok?
    ensures var u := WithRow(t, p, c, group, now).value;
            && RowsKept(t, u, c) && u.candidates[c.id].group == Some(group)
            && u.members == t.members && u.groups == t.groups && u.byKey == t.byKey && u.features == t.features
            && (c.id != p.id ==> c.id !in t.candidates)
            && (c.id == p.id ==> p.id in t.candidates && t.candidates[p.id].status == "pending" && t.candidates[p.id].version == p.version)
  {
  }

  lemma MembershipKeeps(t: Tables, u: Tables, c: Child, group: string)
    requires Filed(t) && RowsKept(t, u, c) && u.candidates[c.id].group == Some(group) && group in t.groups && group != ""
    requires u.members == t.members && u.groups == t.groups && u.byKey == t.byKey && c.id !in t.members
    ensures Filed(u.(members := u.members[c.id := group]))
  {
  }

  lemma PlaceKeeps(w: Work, idFor: string -> string, p: Planned, c: Child, now: nat)
    requires Filed(w.tables) && Naming(idFor) && Place(w, idFor, p, c, now).Ok? && "" !in w.tables.groups
    ensures var v := Place(w, idFor, p, c, now).value;
            && Placed(w, v, c) && Filed(v.tables) && "" !in v.tables.groups
            && (c.id != p.id ==> c.id !in w.tables.candidates)
            && (c.id == p.id ==> p.id in w.tables.candidates && w.tables.candidates[p.id].status == "pending" && w.tables.candidates[p.id].version == p.version)
  {
    hide Filed, Naming, WithGroup, WithRow, GroupIdFor, RowsKept, GroupsKept;
    var g := GroupIdFor(w.tables, idFor, c.key);
    WithGroupKeeps(w.tables, idFor, c.key, now);
    var t := WithGroup(w.tables, idFor, c.key, now).value;
    WithRowKeeps(t, p, c, g, now);
    var u := WithRow(t, p, c, g, now).value;
    MembershipKeeps(t, u, c, g);
    var v := Place(w, idFor, p, c, now).value;
    SameRows(w.tables, t, u, v.tables, c);
    SameGroups(w.tables, t, v.tables, g);
  }

  lemma SameRows(s: Tables, t: Tables, u: Tables, v: Tables, c: Child)
    requires RowsKept(t, u, c) && s.candidates == t.candidates && u.candidates == v.candidates
    ensures RowsKept(s, v, c)
  {
  }

  lemma SameGroups(s: Tables, t: Tables, v: Tables, g: string)
    requires GroupsKept(s, t, g) && v.groups == t.groups && v.byKey == t.byKey
    ensures GroupsKept(s, v, g)
  {
  }

  lemma PlacedMembers(w: Work, v: Work, c: Child)
    requires Placed(w, v, c)
    ensures forall h :: h != v.tables.byKey[c.key] ==> MembersOf(v.tables, h) == MembersOf(w.tables, h)
  {
  }

  // ----- replacing one candidate -----

  /** From the start of the repair: the groups touched are recorded, the others still have their members. */
  ghost predicate Ongoing(t: Tables, w: Work) {
    && Filed(w.tables) && "" !in w.tables.groups && w.tables.features == t.features
    && (forall h :: h in t.groups ==> h in w.tables.groups && w.tables.groups[h] == t.groups[h])
    && (forall h :: h in w.tables.groups && h !in t.groups ==> h in w.affected)
    && (forall h :: h !in w.affected ==> MembersOf(w.tables, h) == MembersOf(t, h))
    && (forall k :: k in t.byKey ==> k in w.tables.byKey && w.tables.byKey[k] == t.byKey[k])
  }

  lemma PlaceOngoing(t: Tables, w: Work, idFor: string -> string, p: Planned, c: Child, now: nat)
    requires Ongoing(t, w) && Naming(idFor) && Place(w, idFor, p, c, now).Ok?
    ensures Ongoing(t, Place(w, idFor, p, c, now).value) && Placed(w, Place(w, idFor, p, c, now).value, c)
  {
    hide Filed, Naming, Place, MembersOf, RowsKept;
    PlaceKeeps(w, idFor, p, c, now);
    PlacedMembers(w, Place(w, idFor, p, c, now).value, c);
  }

  lemma {:induction false} PlaceAllOngoing(t: Tables, w: Work, idFor: string -> string, p: Planned, children: seq<Child>, now: nat)
    requires Ongoing(t, w) && Naming(idFor) && PlaceAll(w, idFor, p, children, now).Ok?
    ensures Ongoing(t, PlaceAll(w, idFor, p, children, now).value)
    decreases |children|
  {
    hide Ongoing, Naming, Place;
    if children != [] {
      PlaceOngoing(t, w, idFor, p, children[0], now);
      PlaceAllOngoing(t, Place(w, idFor, p, children[0], now).value, idFor, p, children[1..], now);
    }
  }

  /** Taking the candidate out of its group first: that group is among the touched ones. */
  lemma RemovedOngoing(t: Tables, w: Work, p: Planned)
    requires Ongoing(t, w) && p.id in w.tables.candidates && w.tables.candidates[p.id].group == p.group
    ensures Ongoing(t, Work(w.tables.(members := w.tables.members - {p.id}), w.affected + Given(p.group)))
  {
    var v := Work(w.tables.(members := w.tables.members - {p.id}), w.affected + Given(p.group));
    forall h | h !in v.affected ensures MembersOf(v.tables, h) == MembersOf(w.tables, h) {
      assert p.id in w.tables.members ==> w.tables.members[p.id] != h;
    }
  }

  /** Whatever commits was still the row the plan read. */
  lemma ReplaceWasFresh(w: Work, idFor: string -> string, p: Planned, now: nat)
    requires p.children != [] && p.children[0].id == p.id && Replace(w, idFor, p, now).Ok?
    ensures p.id in w.tables.candidates && w.tables.candidates[p.id].status == "pending" && w.tables.candidates[p.id].version == p.version
  {
  }

  lemma ReplaceOngoing(t: Tables, w: Work, idFor: string -> string, p: Planned, now: nat)
    requires Ongoing(t, w) && Naming(idFor) && ReadFrom(w.tables, p) && Replace(w, idFor, p, now).Ok?
    ensures Ongoing(t, Replace(w, idFor, p, now).value)
  {
    hide Ongoing, Naming, PlaceAll;
    ReplaceWasFresh(w, idFor, p, now);
    RemovedOngoing(t, w, p);
    PlaceAllOngoing(t, Work(w.tables.(members := w.tables.members - {p.id}), w.affected + Given(p.group)), idFor, p, p.children, now);
  }

  // ----- replacing all -----

  /** A child is a member of the group of its key, and its row says what the plan proposed. */
  ghost predicate At(t: Tables, c: Child) {
    && c.key in t.byKey && c.id in t.members && t.members[c.id] == t.byKey[c.key]
    && c.id in t.candidates && t.candidates[c.id].facts == c.facts && t.candidates[c.id].key == c.key
  }

  /** What replacing `p` leaves alone: every row and membership but those of its children. */
  ghost predicate Others(t: Tables, u: Tables, p: Planned) {
    && (forall x :: x in t.candidates && x != p.id ==> x in u.candidates && u.candidates[x] == t.candidates[x])
    && (forall x :: x in t.members && x != p.id ==> x in u.members && u.members[x] == t.members[x])
    && (forall x :: x in u.members && x !in t.members ==> x in ChildIds(p.children))
    && (forall k :: k in t.byKey ==> k in u.byKey && u.byKey[k] == t.byKey[k])
  }

  /** Placing children only ever adds memberships, and leaves placed children placed. */
  ghost predicate Advanced(t: Tables, u: Tables, p: Planned) {
    && Others(t, u, p)
    && (forall x :: x in t.members ==> x in u.members && u.members[x] == t.members[x])
    && (forall c :: At(t, c) ==> At(u, c))
  }

  lemma PlacedAdvances(w: Work, v: Work, p: Planned, c: Child)
    requires Placed(w, v, c) && c.id in ChildIds(p.children) && (c.id != p.id ==> c.id !in w.tables.candidates)
    ensures Advanced(w.tables, v.tables, p) && At(v.tables, c)
  {
    hide ChildIds;
  }

  lemma AdvancedThrough(t: Tables, m: Tables, u: Tables, p: Planned)
    requires Advanced(t, m, p) && Advanced(m, u, p)
    ensures Advanced(t, u, p)
  {
    hide At, ChildIds;
  }

  lemma {:induction false} PlaceAllPlaces(w: Work, idFor: string -> string, p: Planned, children: seq<Child>, now: nat)
    requires Filed(w.tables) && "" !in w.tables.groups && Naming(idFor) && PlaceAll(w, idFor, p, children, now).Ok?
    requires forall c :: c in children ==> c.id in ChildIds(p.children)
    ensures var v := PlaceAll(w, idFor, p, children, now).value;
            && Advanced(w.tables, v.tables, p) && (forall c :: c in children ==> At(v.tables, c))
            && Filed(v.tables) && "" !in v.tables.groups
    decreases |children|
  {
    hide Filed, Naming, Place, ChildIds, Advanced, At, Placed;
    if children == [] {
      AdvancedStill(w.tables, p);
    } else {
      var m := Place(w, idFor, p, children[0], now).value;
      PlaceKeeps(w, idFor, p, children[0], now);
      PlacedAdvances(w, m, p, children[0]);
      PlaceAllPlaces(m, idFor, p, children[1..], now);
      var v := PlaceAll(w, idFor, p, children, now).value;
      AdvancedThrough(w.tables, m.tables, v.tables, p);
      AdvancedAt(m.tables, v.tables, p, children[0]);
    }
  }

  lemma {:induction false} ChildrenAreNew(w: Work, idFor: string -> string, p: Planned, children: seq<Child>, now: nat)
    requires PlaceAll(w, idFor, p, children, now).Ok?
    ensures forall c :: c in children ==> c.id == p.id || c.id !in w.tables.candidates
    decreases |children|
  {
    if children != [] {
      ChildrenAreNew(Place(w, idFor, p, children[0], now).value, idFor, p, children[1..], now);
      assert forall c :: c in children ==> c == children[0] || c in children[1..];
    }
  }

  lemma AdvancedStill(t: Tables, p: Planned)
    ensures Advanced(t, t, p)
  {
  }

  lemma AdvancedAt(t: Tables, u: Tables, p: Planned, c: Child)
    requires Advanced(t, u, p) && At(t, c)
    ensures At(u, c)
  {
  }

  /** Replacing a candidate: its children are placed, children of others stay placed, everything else is as it was. */
  lemma ReplacePlaces(w: Work, idFor: string -> string, p: Planned, now: nat)
    requires Filed(w.tables) && "" !in w.tables.groups && Naming(idFor) && Replace(w, idFor, p, now).Ok?
    ensures var v := Replace(w, idFor, p, now).value;
            && Others(w.tables, v.tables, p) && (forall c :: c in p.children ==> At(v.tables, c))
            && (forall c :: At(w.tables, c) && c.id != p.id ==> At(v.tables, c))
            && (forall c :: c in p.children ==> c.id == p.id || c.id !in w.tables.candidates)
            && Filed(v.tables) && "" !in v.tables.groups
  {
    hide Naming, PlaceAll, ChildIds, Filed, At, Advanced, Others;
    var m := w.tables.(members := w.tables.members - {p.id});
    ChildrenAreNew(Work(m, w.affected + Given(p.group)), idFor, p, p.children, now);
    RemovedFiles(w.tables, p.id);
    ChildIdsAre(p.children);
    PlaceAllPlaces(Work(m, w.affected + Given(p.group)), idFor, p, p.children, now);
    RemovedAdvances(w.tables, Replace(w, idFor, p, now).value.tables, p);
  }

  lemma RemovedAdvances(t: Tables, u: Tables, p: Planned)
    requires Advanced(t.(members := t.members - {p.id}), u, p)
    ensures Others(t, u, p) && forall c :: At(t, c) && c.id != p.id ==> At(u, c)
  {
    hide ChildIds;
    var m := t.(members := t.members - {p.id});
    assert forall c :: At(t, c) && c.id != p.id ==> At(m, c);
  }

  lemma RemovedFiles(t: Tables, id: string)
    requires Filed(t)
    ensures Filed(t.(members := t.members - {id}))
  {
  }

  lemma ChildIdsAre(children: seq<Child>)
    ensures forall c :: c in children ==> c.id in ChildIds(children)
  {
    forall c | c in children ensures c.id in ChildIds(children) {
      var i :| 0 <= i < |children| && children[i] == c;
      assert ChildIds(children)[i] == c.id;
    }
  }

  ghost predicate DistinctPlan(plan: seq<Planned>) { forall i, j :: 0 <= i < j < |plan| ==> plan[i].id != plan[j].id }

  /** Every planned row is one that was read, whether or not it has changed since. */
  ghost predicate PlanFrom(t: Tables, plan: seq<Planned>) {
    DistinctPlan(plan) && forall p :: p in plan ==> ReadFrom(t, p)
  }

  lemma PlanRest(t: Tables, u: Tables, plan: seq<Planned>)
    requires plan != [] && PlanFrom(t, plan) && Others(t, u, plan[0])
    ensures PlanFrom(u, plan[1..])
  {
    forall p | p in plan[1..] ensures ReadFrom(u, p) {
      var i :| 0 <= i < |plan[1..]| && plan[1..][i] == p;
      assert plan[0].id != plan[i + 1].id && plan[i + 1] == p && p in plan;
    }
  }

  lemma {:induction false} ReplaceAllOngoing(t: Tables, w: Work, idFor: string -> string, plan: seq<Planned>, now: nat)
    requires Ongoing(t, w) && Naming(idFor) && PlanFrom(w.tables, plan) && ReplaceAll(w, idFor, plan, now).Ok?
    ensures Ongoing(t, ReplaceAll(w, idFor, plan, now).value)
    decreases |plan|
  {
    hide Replace, ReadFrom, Naming, Filed, MembersOf;
    if plan != [] {
      assert plan[0] in plan;
      ReplaceOngoing(t, w, idFor, plan[0], now);
      ReplacePlaces(w, idFor, plan[0], now);
      var v := Replace(w, idFor, plan[0], now).value;
      PlanRest(w.tables, v.tables, plan);
      ReplaceAllOngoing(t, v, idFor, plan[1..], now);
    }
  }

  /** Every child of every planned row is placed in the end. */
  lemma {:induction false} ReplaceAllPlaces(w: Work, idFor: string -> string, plan: seq<Planned>, now: nat)
    requires Filed(w.tables) && "" !in w.tables.groups && Naming(idFor) && PlanFrom(w.tables, plan) && ReplaceAll(w, idFor, plan, now).Ok?
    ensures var v := ReplaceAll(w, idFor, plan, now).value;
            && (forall p, c :: p in plan && c in p.children ==> At(v.tables, c))
            && (forall c :: At(w.tables, c) && (forall p :: p in plan ==> p.id != c.id) ==> At(v.tables, c))
    decreases |plan|
  {
    hide Replace, ReadFrom, Naming, Filed, At, Others;
    if plan != [] {
      var p := plan[0];
      assert p in plan;
      ReplacePlaces(w, idFor, p, now);
      var m := Replace(w, idFor, p, now).value;
      PlanRest(w.tables, m.tables, plan);
      ReplaceAllPlaces(m, idFor, plan[1..], now);
      var v := ReplaceAll(w, idFor, plan, now).value;
      assert forall q :: q in plan <==> q == p || q in plan[1..];
      forall c, q | c in p.children && q in plan[1..] ensures q.id != c.id { LaterIsOther(w.tables, plan, q, c); }
    }
  }

  lemma LaterIsOther(t: Tables, plan: seq<Planned>, q: Planned, c: Child)
    requires plan != [] && PlanFrom(t, plan) && q in plan[1..] && (c.id == plan[0].id || c.id !in t.candidates)
    ensures q.id != c.id
  {
    var i :| 0 <= i < |plan[1..]| && plan[1..][i] == q;
    assert plan[i + 1] == q && plan[0].id != plan[i + 1].id && q in plan;
  }

  // ----- the groups it touches -----

  /** The group of a child's key. */
  predicate TakesIn(t: Tables, c: Child, g: string) { c.key in t.byKey && t.byKey[c.key] == g }

  /** The groups planned rows were in, and those of their children's keys. */
  ghost predicate TouchedBy(t: Tables, p: Planned, g: string) {
    g in Given(p.group) || exists c :: c in p.children && TakesIn(t, c, g)
  }

  ghost predicate Touched(t: Tables, plan: seq<Planned>, g: string) { exists p :: p in plan && TouchedBy(t, p, g) }

  ghost predicate KeysKept(t: Tables, u: Tables) { forall k :: k in t.byKey ==> k in u.byKey && u.byKey[k] == t.byKey[k] }

  lemma {:induction false} PlaceAllAffects(w: Work, idFor: string -> string, p: Planned, children: seq<Child>, now: nat)
    requires Filed(w.tables) && "" !in w.tables.groups && Naming(idFor) && PlaceAll(w, idFor, p, children, now).Ok?
    ensures var v := PlaceAll(w, idFor, p, children, now).value;
            && KeysKept(w.tables, v.tables) && (forall c :: c in children ==> c.key in v.tables.byKey)
            && forall g :: g in v.affected <==> g in w.affected || exists c :: c in children && TakesIn(v.tables, c, g)
    decreases |children|
  {
    hide Filed, Naming, Place, RowsKept;
    if children != [] {
      var m := Place(w, idFor, p, children[0], now).value;
      PlaceKeeps(w, idFor, p, children[0], now);
      PlaceAllAffects(m, idFor, p, children[1..], now);
      ChildrenAffect(w, m, PlaceAll(w, idFor, p, children, now).value, children);
    }
  }

  lemma ChildrenAffect(w: Work, m: Work, v: Work, children: seq<Child>)
    requires children != [] && Placed(w, m, children[0]) && KeysKept(m.tables, v.tables)
    requires forall g :: g in v.affected <==> g in m.affected || exists c :: c in children[1..] && TakesIn(v.tables, c, g)
    ensures KeysKept(w.tables, v.tables) && children[0].key in v.tables.byKey
    ensures forall g :: g in v.affected <==> g in w.affected || exists c :: c in children && TakesIn(v.tables, c, g)
  {
    hide RowsKept;
    assert forall c :: c in children <==> c == children[0] || c in children[1..];
    assert forall g :: g in m.affected <==> g in w.affected || TakesIn(v.tables, children[0], g);
  }

  lemma ReplaceAffects(w: Work, idFor: string -> string, p: Planned, now: nat)
    requires Filed(w.tables) && "" !in w.tables.groups && Naming(idFor) && Replace(w, idFor, p, now).Ok?
    ensures var v := Replace(w, idFor, p, now).value;
            && KeysKept(w.tables, v.tables) && (forall c :: c in p.children ==> c.key in v.tables.byKey)
            && forall g :: g in v.affected <==> g in w.affected || TouchedBy(v.tables, p, g)
  {
    hide Filed, Naming, PlaceAll, TakesIn;
    RemovedFiles(w.tables, p.id);
    PlaceAllAffects(Work(w.tables.(members := w.tables.members - {p.id}), w.affected + Given(p.group)), idFor, p, p.children, now);
  }

  lemma {:induction false} ReplaceAllAffects(w: Work, idFor: string -> string, plan: seq<Planned>, now: nat)
    requires Filed(w.tables) && "" !in w.tables.groups && Naming(idFor) && PlanFrom(w.tables, plan) && ReplaceAll(w, idFor, plan, now).Ok?
    ensures var v := ReplaceAll(w, idFor, plan, now).value;
            KeysKept(w.tables, v.tables) && forall g :: g in v.affected <==> g in w.affected || Touched(v.tables, plan, g)
    decreases |plan|
  {
    hide Replace, Naming, Filed, Others, PlanFrom, TouchedBy, KeysKept, At;
    if plan == [] {
      KeysStay(w.tables);
    } else {
      ReplaceAffects(w, idFor, plan[0], now);
      ReplacePlaces(w, idFor, plan[0], now);
      var m := Replace(w, idFor, plan[0], now).value;
      PlanRest(w.tables, m.tables, plan);
      ReplaceAllAffects(m, idFor, plan[1..], now);
      var v := ReplaceAll(w, idFor, plan, now).value;
      KeysThrough(w.tables, m.tables, v.tables);
      forall g ensures TouchedBy(m.tables, plan[0], g) <==> TouchedBy(v.tables, plan[0], g) { SameTouch(m.tables, v.tables, plan[0], g); }
      assert forall q :: q in plan <==> q == plan[0] || q in plan[1..];
    }
  }

  lemma KeysStay(t: Tables)
    ensures KeysKept(t, t)
  {
  }

  lemma KeysThrough(t: Tables, m: Tables, u: Tables)
    requires KeysKept(t, m) && KeysKept(m, u)
    ensures KeysKept(t, u)
  {
  }

  lemma SameTouch(t: Tables, u: Tables, p: Planned, g: string)
    requires KeysKept(t, u) && forall c :: c in p.children ==> c.key in t.byKey
    ensures TouchedBy(t, p, g) <==> TouchedBy(u, p, g)
  {
  }

  // ----- the entities' lists -----

  predicate Renames(children: seq<Child>, part: seq<string>) {
    |part| == |children| && forall j :: 0 <= j < |part| ==> part[j] == children[j].id
  }

  /** What stands in a list for one id: its children's ids in their order when it was planned, the id itself otherwise. */
  ghost predicate StandsFor(plan: seq<Planned>, id: string, part: seq<string>) {
    && (forall p :: p in plan && p.id == id ==> Renames(p.children, part))
    && ((forall p :: p in plan ==> p.id != id) ==> part == [id])
  }

  function Joined(parts: seq<seq<string>>): seq<string> { if parts == [] then [] else parts[0] + Joined(parts[1..]) }

  ghost predicate PartsOf(plan: seq<Planned>, ids: seq<string>, parts: seq<seq<string>>) {
    |parts| == |ids| && forall i :: 0 <= i < |ids| ==> StandsFor(plan, ids[i], parts[i])
  }

  /** `now` is `ids` with every planned id replaced, where it stands, by those of its children. */
  ghost predicate ExpandsTo(plan: seq<Planned>, ids: seq<string>, now: seq<string>) {
    exists parts: seq<seq<string>> :: PartsOf(plan, ids, parts) && now == Joined(parts)
  }

  lemma {:induction false} ExpansionOf(plan: seq<Planned>, id: string)
    requires DistinctPlan(plan)
    ensures StandsFor(plan, id, Expansion(plan, id))
  {
    if plan != [] {
      var n := |plan| - 1;
      ExpansionOf(plan[..n], id);
      assert plan == plan[..n] + [plan[n]];
      assert forall p :: p in plan <==> p in plan[..n] || p == plan[n];
      forall p | p in plan[..n] ensures p.id != plan[n].id { var i :| 0 <= i < n && plan[i] == p; }
    }
  }

  lemma {:induction false} ExpandedIs(plan: seq<Planned>, ids: seq<string>)
    requires DistinctPlan(plan)
    ensures ExpandsTo(plan, ids, Expanded(plan, ids))
  {
    hide StandsFor, DistinctPlan, Expansion;
    if ids == [] {
      assert PartsOf(plan, ids, []);
    } else {
      ExpandedIs(plan, ids[1..]);
      ExpansionOf(plan, ids[0]);
      var rest :| PartsOf(plan, ids[1..], rest) && Expanded(plan, ids[1..]) == Joined(rest);
      var parts := [Expansion(plan, ids[0])] + rest;
      assert parts[1..] == rest && PartsOf(plan, ids, parts);
    }
  }

  lemma {:induction false} ExpandedGrows(plan: seq<Planned>, a: seq<string>, b: seq<string>)
    ensures Expanded(plan, a + b) == Expanded(plan, a) + Expanded(plan, b)
  {
    if a == [] {
      assert a + b == b;
    } else {
      assert (a + b)[1..] == a[1..] + b;
      ExpandedGrows(plan, a[1..], b);
    }
  }

  lemma UnplannedStands(plan: seq<Planned>, id: string)
    requires DistinctPlan(plan) && forall p :: p in plan ==> p.id != id
    ensures Expansion(plan, id) == [id]
  {
    ExpansionOf(plan, id);
  }

  lemma PlannedStands(plan: seq<Planned>, p: Planned)
    requires DistinctPlan(plan) && p in plan
    ensures Expansion(plan, p.id) == ChildIds(p.children)
  {
    ExpansionOf(plan, p.id);
  }

  lemma {:induction false} UnplannedStay(plan: seq<Planned>, ids: seq<string>)
    requires DistinctPlan(plan) && forall id, p :: id in ids && p in plan ==> p.id != id
    ensures Expanded(plan, ids) == ids
  {
    hide DistinctPlan, Expansion;
    if ids != [] {
      assert ids == [ids[0]] + ids[1..];
      assert ids[0] in ids && forall id :: id in ids[1..] ==> id in ids;
      UnplannedStay(plan, ids[1..]);
      UnplannedStands(plan, ids[0]);
    }
  }

  /** A planned id gives way to its children's ids where it stood, between what becomes of the ids before and after it;
      ids that were not planned stay as they are. */
  lemma ExpansionIsInPlace(plan: seq<Planned>, before: seq<string>, p: Planned, after: seq<string>)
    requires DistinctPlan(plan) && p in plan
    ensures Expanded(plan, before + [p.id] + after) == Expanded(plan, before) + ChildIds(p.children) + Expanded(plan, after)
    ensures (forall id, q :: id in before && q in plan ==> q.id != id) ==> Expanded(plan, before) == before
  {
    hide DistinctPlan, Expansion, ChildIds;
    ExpandedGrows(plan, before + [p.id], after);
    ExpandedGrows(plan, before, [p.id]);
    PlannedStands(plan, p);
    OneExpanded(plan, p.id);
    hide Expanded;
    if forall id, q :: id in before && q in plan ==> q.id != id { UnplannedStay(plan, before); }
  }

  lemma OneExpanded(plan: seq<Planned>, id: string)
    ensures Expanded(plan, [id]) == Expansion(plan, id)
  {
    assert [id][1..] == [];
  }

  predicate Bears(p: Planned, x: string) { exists c :: c in p.children && c.id == x }

  lemma StandsHas(plan: seq<Planned>, id: string, part: seq<string>, x: string)
    requires StandsFor(plan, id, part)
    ensures x in part <==> (x == id && forall p :: p in plan ==> p.id != x) || exists p :: p in plan && p.id == id && Bears(p, x)
  {
    forall p | p in plan && p.id == id ensures x in part <==> Bears(p, x) { RenamesHas(p, part, x); }
  }

  lemma RenamesHas(p: Planned, part: seq<string>, x: string)
    requires Renames(p.children, part)
    ensures x in part <==> Bears(p, x)
  {
    if x in part {
      var j :| 0 <= j < |part| && part[j] == x;
      assert p.children[j] in p.children;
    }
    if Bears(p, x) {
      var c :| c in p.children && c.id == x;
      var j :| 0 <= j < |p.children| && p.children[j] == c;
      assert part[j] == x;
    }
  }

  /** An id is in the new list if and only if it was in the old one unplanned, or is a child of a planned one that was. */
  lemma ExpandsToMembers(plan: seq<Planned>, ids: seq<string>, now: seq<string>, x: string)
    requires ExpandsTo(plan, ids, now)
    ensures x in now <==> || (x in ids && forall p :: p in plan ==> p.id != x)
                          || exists p :: p in plan && p.id in ids && Bears(p, x)
  {
    hide StandsFor, Bears, Joined;
    var parts :| PartsOf(plan, ids, parts) && now == Joined(parts);
    JoinedMembers(parts, x);
    forall i | 0 <= i < |ids|
      ensures x in parts[i] <==> (x == ids[i] && forall p :: p in plan ==> p.id != x) || exists p :: p in plan && p.id == ids[i] && Bears(p, x)
    {
      StandsHas(plan, ids[i], parts[i], x);
    }
  }

  lemma {:induction false} JoinedMembers(parts: seq<seq<string>>, x: string)
    ensures x in Joined(parts) <==> exists i :: 0 <= i < |parts| && x in parts[i]
  {
    if parts != [] {
      JoinedMembers(parts[1..], x);
      assert parts == [parts[0]] + parts[1..];
    }
  }

  predicate OfPlannedJob(plan: seq<Planned>, job: string) { exists p :: p in plan && p.job == job }

  /** The lists of the planned jobs' entities are expanded, those of other jobs stay. */
  ghost predicate ListsExpanded(t: Tables, u: Tables, plan: seq<Planned>) {
    && u.features.Keys == t.features.Keys
    && forall k :: k in t.features ==>
         if OfPlannedJob(plan, k.0) then ExpandsTo(plan, t.features[k], u.features[k]) else u.features[k] == t.features[k]
  }

  lemma AllExpanded(t: Tables, plan: seq<Planned>)
    requires DistinctPlan(plan)
    ensures ListsExpanded(t, ExpandAll(t, plan), plan)
  {
    hide Expanded, ExpandsTo, DistinctPlan;
    forall k | k in t.features ensures ExpandsTo(plan, t.features[k], Expanded(plan, t.features[k])) { ExpandedIs(plan, t.features[k]); }
  }

  // ----- the whole repair -----

  /** Recomputing and expanding move nobody. */
  lemma FinishKeeps(t: Tables, affected: set<string>, plan: seq<Planned>, now: nat)
    ensures var u := ExpandAll(RecomputeAll(t, affected, now), plan);
            && u.candidates == t.candidates && u.members == t.members && u.byKey == t.byKey && u.groups.Keys == t.groups.Keys
            && (forall g :: g in t.groups ==> u.groups[g] == if g in affected then Recomputed(t.groups[g], MembersOf(t, g), now) else t.groups[g])
            && (forall g :: MembersOf(u, g) == MembersOf(t, g))
            && RecomputeAll(t, affected, now).features == t.features
            && (Filed(t) ==> Filed(u))
  {
    hide Recomputed, Expanded, PlannedJobs, Filed;
    FinishFiles(t, affected, plan, now);
  }

  lemma FinishFiles(t: Tables, affected: set<string>, plan: seq<Planned>, now: nat)
    ensures Filed(t) ==> Filed(ExpandAll(RecomputeAll(t, affected, now), plan))
  {
    hide Recomputed, Expanded, PlannedJobs, MembersOf;
    forall g | g in t.groups ensures Recomputed(t.groups[g], MembersOf(t, g), now).key == t.groups[g].key {
      RecomputedKeepsKey(t.groups[g], MembersOf(t, g), now);
    }
  }

  lemma RecomputedKeepsKey(g: Group, m: Members, now: nat)
    ensures Recomputed(g, m, now).key == g.key
  {
  }

  lemma StartsOngoing(t: Tables)
    requires Filed(t) && "" !in t.groups
    ensures Ongoing(t, Work(t, {}))
  {
  }

  /** A committed repair keeps every group's figures those of its members, and recomputes the groups it touched. */
  lemma RepairKeepsFigures(t: Tables, idFor: string -> string, plan: seq<Planned>, now: nat)
    requires Filed(t) && Figured(t) && "" !in t.groups && Naming(idFor) && PlanFrom(t, plan)
    ensures Filed(Repair(t, idFor, plan, now)) && Figured(Repair(t, idFor, plan, now))
  {
    hide Naming, PlanFrom, ReplaceAll, MembersOf, Filed;
    if Repaired(t, idFor, plan, now).Ok? {
      var w := ReplaceAll(Work(t, {}), idFor, plan, now).value;
      StartsOngoing(t);
      ReplaceAllOngoing(t, Work(t, {}), idFor, plan, now);
      FinishKeeps(w.tables, w.affected, plan, now);
      FiguredAfter(t, w, Repair(t, idFor, plan, now), now);
    }
  }

  lemma FiguredAfter(t: Tables, w: Work, u: Tables, now: nat)
    requires Figured(t) && Ongoing(t, w) && u.groups.Keys == w.tables.groups.Keys
    requires forall g :: g in w.tables.groups ==>
               u.groups[g] == if g in w.affected then Recomputed(w.tables.groups[g], MembersOf(w.tables, g), now) else w.tables.groups[g]
    requires forall g :: MembersOf(u, g) == MembersOf(w.tables, g)
    ensures Figured(u)
  {
    hide MembersOf, Filed, FiguresOf;
    forall g | g in u.groups ensures u.groups[g].figures == FiguresOf(MembersOf(u, g)) {
      if g !in w.affected { assert g in t.groups && w.tables.groups[g] == t.groups[g]; }
    }
  }

  /** The status a group had, pending when the repair founded it. */
  function StatusBefore(t: Tables, g: string): string { if g in t.groups then t.groups[g].status else "pending" }

  function PrimaryBefore(t: Tables, g: string): Option<string> { if g in t.groups then t.groups[g].primary else None }

  /** The primary candidate stays while it is a member; otherwise the first member takes its place. */
  ghost predicate PrimaryHeld(before: Option<string>, after: Group, m: Members) {
    if before.Some? && before.value in m then after.primary == before
    else if m == map[] then after.primary == None
    else after.figures.ids != [] && after.primary == Some(after.figures.ids[0])
  }

  /** The group as its members now define it: their figures, superseded when it was pending and none is left. */
  ghost predicate Renewed(t: Tables, g: string, after: Group, m: Members, now: nat) {
    && after.figures == FiguresOf(m) && after.updatedAt == now
    && after.status == (if m == map[] && StatusBefore(t, g) == "pending" then "superseded" else StatusBefore(t, g))
    && PrimaryHeld(PrimaryBefore(t, g), after, m)
  }

  lemma RecomputedRenews(t: Tables, w: Tables, g: string, m: Members, now: nat)
    requires g in w.groups && FoundsPending(t, w) && (g in t.groups ==> w.groups[g] == t.groups[g])
    ensures Renewed(t, g, Recomputed(w.groups[g], m, now), m, now)
  {
    hide FiguresOf;
    NoIdsExactly(m);
  }

  lemma NoIdsExactly(m: Members)
    ensures FiguresOf(m).ids == [] <==> m == map[]
  {
    assert |SortedTexts(m.Keys)| == |m.Keys| == |m|;
  }

  /** Where everything is after a committed repair: each child in the one group of its key. The groups the planned rows
      were in and those of their children's keys show their members' figures, a pending one of them left without
      members is superseded; no other group changes. Each entity's list is expanded in place. */
  lemma RepairMoves(t: Tables, idFor: string -> string, plan: seq<Planned>, now: nat)
    requires Filed(t) && "" !in t.groups && Naming(idFor) && PlanFrom(t, plan) && Repaired(t, idFor, plan, now).Ok?
    ensures var u := Repair(t, idFor, plan, now);
            && (forall p, c :: p in plan && c in p.children ==> At(u, c))
            && (forall g :: g in u.groups && Touched(u, plan, g) ==> Renewed(t, g, u.groups[g], MembersOf(u, g), now))
            && (forall g :: g in t.groups ==> g in u.groups)
            && (forall g :: g in u.groups && !Touched(u, plan, g) ==> g in t.groups && u.groups[g] == t.groups[g])
            && ListsExpanded(t, u, plan)
  {
    hide Naming, ReplaceAll, MembersOf, Filed, ListsExpanded, Renewed, Recomputed, At, Touched, RecomputeAll, ExpandAll, FoundsPending;
    var w := ReplaceAll(Work(t, {}), idFor, plan, now).value;
    var u := Repair(t, idFor, plan, now);
    StartsOngoing(t);
    ReplaceAllOngoing(t, Work(t, {}), idFor, plan, now);
    ReplaceAllPlaces(Work(t, {}), idFor, plan, now);
    ReplaceAllAffects(Work(t, {}), idFor, plan, now);
    FoundedPending(t, idFor, plan, now);
    FinishKeeps(w.tables, w.affected, plan, now);
    AllExpanded(RecomputeAll(w.tables, w.affected, now), plan);
    SameLists(t, RecomputeAll(w.tables, w.affected, now), u, plan);
    forall g | g in w.tables.groups && g in w.affected ensures Renewed(t, g, u.groups[g], MembersOf(u, g), now) {
      RecomputedRenews(t, w.tables, g, MembersOf(w.tables, g), now);
    }
    forall g ensures Touched(u, plan, g) <==> g in w.affected { SameKeysTouch(w.tables, u, plan, g); }
    forall p, c | p in plan && c in p.children ensures At(u, c) { SamePlaceAt(w.tables, u, c); }
  }

  lemma SameLists(s: Tables, t: Tables, u: Tables, plan: seq<Planned>)
    requires s.features == t.features && ListsExpanded(t, u, plan)
    ensures ListsExpanded(s, u, plan)
  {
  }

  lemma SameKeysTouch(t: Tables, u: Tables, plan: seq<Planned>, g: string)
    requires u.byKey == t.byKey
    ensures Touched(t, plan, g) <==> Touched(u, plan, g)
  {
    forall p ensures TouchedBy(t, p, g) <==> TouchedBy(u, p, g) {}
  }

  lemma SamePlaceAt(t: Tables, u: Tables, c: Child)
    requires At(t, c) && u.byKey == t.byKey && u.members == t.members && u.candidates == t.candidates
    ensures At(u, c)
  {
  }

  ghost predicate FoundsPending(t: Tables, u: Tables) {
    forall g :: g in u.groups && g !in t.groups ==> u.groups[g].status == "pending" && u.groups[g].primary.None?
  }

  lemma {:induction false} PlaceAllFounds(t: Tables, w: Work, idFor: string -> string, p: Planned, children: seq<Child>, now: nat)
    requires FoundsPending(t, w.tables) && PlaceAll(w, idFor, p, children, now).Ok?
    ensures FoundsPending(t, PlaceAll(w, idFor, p, children, now).value.tables)
    decreases |children|
  {
    if children != [] { PlaceAllFounds(t, Place(w, idFor, p, children[0], now).value, idFor, p, children[1..], now); }
  }

  lemma {:induction false} ReplaceAllFounds(t: Tables, w: Work, idFor: string -> string, plan: seq<Planned>, now: nat)
    requires FoundsPending(t, w.tables) && ReplaceAll(w, idFor, plan, now).Ok?
    ensures FoundsPending(t, ReplaceAll(w, idFor, plan, now).value.tables)
    decreases |plan|
  {
    hide PlaceAll;
    if plan != [] {
      var p := plan[0];
      PlaceAllFounds(t, Work(w.tables.(members := w.tables.members - {p.id}), w.affected + Given(p.group)), idFor, p, p.children, now);
      ReplaceAllFounds(t, Replace(w, idFor, p, now).value, idFor, plan[1..], now);
    }
  }

  lemma FoundedPending(t: Tables, idFor: string -> string, plan: seq<Planned>, now: nat)
    requires ReplaceAll(Work(t, {}), idFor, plan, now).Ok?
    ensures FoundsPending(t, ReplaceAll(Work(t, {}), idFor, plan, now).value.tables)
  {
    ReplaceAllFounds(t, Work(t, {}), idFor, plan, now);
  }

  predicate IsFresh(t: Tables, p: Planned) {
    p.id in t.candidates && t.candidates[p.id].status == "pending" && t.candidates[p.id].version == p.version
  }

  lemma {:induction false} StaleIsRefused(w: Work, idFor: string -> string, plan: seq<Planned>, p: Planned, now: nat)
    requires Filed(w.tables) && "" !in w.tables.groups && Naming(idFor) && PlanFrom(w.tables, plan) && p in plan && !IsFresh(w.tables, p)
    ensures ReplaceAll(w, idFor, plan, now).Err?
    decreases |plan|
  {
    hide Replace, ReadFrom, Naming, Filed, At;
    if Replace(w, idFor, plan[0], now).Ok? {
      assert plan[0] in plan;
      FirstChildIsIt(w.tables, plan[0]);
      ReplaceWasFresh(w, idFor, plan[0], now);
      ReplacePlaces(w, idFor, plan[0], now);
      var m := Replace(w, idFor, plan[0], now).value;
      PlanRest(w.tables, m.tables, plan);
      assert p in plan[1..];
      LaterIsOther(w.tables, plan, p, Child(plan[0].id, "", Facts("", "", "", 0, "", "")));
      assert p.id in w.tables.candidates by { ReadExists(w.tables, p); }
      StaleIsRefused(m, idFor, plan[1..], p, now);
    }
  }

  lemma FirstChildIsIt(t: Tables, p: Planned)
    requires ReadFrom(t, p)
    ensures p.children != [] && p.children[0].id == p.id
  {
  }

  lemma ReadExists(t: Tables, p: Planned)
    requires ReadFrom(t, p)
    ensures p.id in t.candidates
  {
  }

  /** One planned candidate decided or changed since it was read: nothing at all is written. */
  lemma StaleChangesNothing(t: Tables, idFor: string -> string, plan: seq<Planned>, p: Planned, now: nat)
    requires Filed(t) && "" !in t.groups && Naming(idFor) && PlanFrom(t, plan) && p in plan && !IsFresh(t, p)
    ensures Repair(t, idFor, plan, now) == t
  {
    StaleIsRefused(Work(t, {}), idFor, plan, p, now);
  }

  ghost predicate Unplanned(plan: seq<Planned>, x: string) { forall p :: p in plan ==> p.id != x }

  ghost predicate IsChild(plan: seq<Planned>, x: string) { exists p :: p in plan && x in ChildIds(p.children) }

  /** Rows and memberships of candidates outside the plan stay, and only children of planned rows become members. */
  ghost predicate Untouched(t: Tables, u: Tables, plan: seq<Planned>) {
    && (forall x :: x in t.candidates && Unplanned(plan, x) ==> x in u.candidates && u.candidates[x] == t.candidates[x])
    && (forall x :: x in t.members && Unplanned(plan, x) ==> x in u.members && u.members[x] == t.members[x])
    && (forall x :: x in u.members && x !in t.members ==> IsChild(plan, x))
  }

  lemma FirstAndRest(plan: seq<Planned>, x: string)
    requires plan != []
    ensures Unplanned(plan, x) <==> x != plan[0].id && Unplanned(plan[1..], x)
    ensures IsChild(plan, x) <==> x in ChildIds(plan[0].children) || IsChild(plan[1..], x)
  {
    hide ChildIds;
    assert forall p :: p in plan <==> p == plan[0] || p in plan[1..];
  }

  lemma UntouchedThrough(t: Tables, m: Tables, u: Tables, plan: seq<Planned>)
    requires plan != [] && Others(t, m, plan[0]) && Untouched(m, u, plan[1..])
    ensures Untouched(t, u, plan)
  {
    hide ChildIds, Unplanned, IsChild;
    forall x ensures Unplanned(plan, x) <==> x != plan[0].id && Unplanned(plan[1..], x) { FirstAndRest(plan, x); }
    forall x ensures IsChild(plan, x) <==> x in ChildIds(plan[0].children) || IsChild(plan[1..], x) { FirstAndRest(plan, x); }
  }

  lemma {:induction false} ReplaceAllKeepsOthers(w: Work, idFor: string -> string, plan: seq<Planned>, now: nat)
    requires Filed(w.tables) && "" !in w.tables.groups && Naming(idFor) && PlanFrom(w.tables, plan) && ReplaceAll(w, idFor, plan, now).Ok?
    ensures Untouched(w.tables, ReplaceAll(w, idFor, plan, now).value.tables, plan)
    decreases |plan|
  {
    hide Replace, ReadFrom, Naming, Filed, At, Others, PlanFrom, Untouched;
    if plan == [] {
      UntouchedStill(w.tables, plan);
    } else {
      ReplacePlaces(w, idFor, plan[0], now);
      var m := Replace(w, idFor, plan[0], now).value;
      PlanRest(w.tables, m.tables, plan);
      ReplaceAllKeepsOthers(m, idFor, plan[1..], now);
      UntouchedThrough(w.tables, m.tables, ReplaceAll(w, idFor, plan, now).value.tables, plan);
    }
  }

  lemma UntouchedStill(t: Tables, plan: seq<Planned>)
    ensures Untouched(t, t, plan)
  {
  }

  /** Candidates outside the plan keep their row and their one group, and nobody but children joins a group. */
  lemma RepairKeepsOthers(t: Tables, idFor: string -> string, plan: seq<Planned>, now: nat)
    requires Filed(t) && "" !in t.groups && Naming(idFor) && PlanFrom(t, plan)
    ensures Untouched(t, Repair(t, idFor, plan, now), plan)
  {
    hide Naming, PlanFrom, ReplaceAll, Filed, ChildIds;
    if Repaired(t, idFor, plan, now).Ok? {
      var w := ReplaceAll(Work(t, {}), idFor, plan, now).value;
      ReplaceAllKeepsOthers(Work(t, {}), idFor, plan, now);
      FinishKeeps(w.tables, w.affected, plan, now);
    }
  }

  // ----- the repair as it runs -----

  function Part(m: Members, ids: seq<string>): Members { map c | c in ids && c in m :: m[c] }

  function Text(s: string): Option<string> { if s == "" then None else Some(s) }

  lemma PartGrows(m: Members, ids: seq<string>, id: string)
    requires id in m && id !in ids
    ensures var before, now := Part(m, ids), Part(m, ids + [id]);
            && now == before[id := m[id]]
            && SumOf(Occurrences(now)) == SumOf(Occurrences(before)) + m[id].occurrences
            && EntityKeys(now) == EntityKeys(before) + {EntityKey(m[id])}
  {
    hide EntityKey;
    var before, now := Part(m, ids), Part(m, ids + [id]);
    assert now == before[id := m[id]];
    assert Occurrences(now) == Occurrences(before)[id := m[id].occurrences];
    SumWith(Occurrences(before), id, m[id].occurrences);
    assert now[id] == m[id] && forall c :: c in before ==> c in now && now[c] == before[c];
  }

  lemma PartBounds(m: Members, ids: seq<string>, id: string)
    requires id in m && id !in ids
    ensures var before, now := Part(m, ids), Part(m, ids + [id]);
            && MinText(Firsts(now)) == LowerOf(MinText(Firsts(before)), Text(m[id].first))
            && MaxText(Lasts(now)) == UpperOf(MaxText(Lasts(before)), Text(m[id].last))
  {
    var before, now := Part(m, ids), Part(m, ids + [id]);
    assert now == before[id := m[id]];
    assert now[id] == m[id] && forall c :: c in before ==> c in now && now[c] == before[c];
    assert Firsts(now) == Firsts(before) + (if m[id].first != "" then {m[id].first} else {});
    assert Lasts(now) == Lasts(before) + (if m[id].last != "" then {m[id].last} else {});
    if m[id].first != "" { MinTextGrows(Firsts(before), m[id].first); } else { assert Firsts(now) == Firsts(before); }
    if m[id].last != "" { MaxTextGrows(Lasts(before), m[id].last); } else { assert Lasts(now) == Lasts(before); }
  }

  /** The figures of a group, in one pass over its member rows in id order. */
  method Compute(m: Members) returns (f: Figures)
    ensures f == FiguresOf(m)
  {
    hide EntityKey, EntityKeys, Occurrences, Firsts, Lasts, MinText, MaxText, SumOf, Part, FiguresOf, SortedTexts, LowerOf, UpperOf, Text;
    var ids := SortTexts(m.Keys);
    var entities, occurrences, first, last := {}, 0, None, None;
    ghost var part := Part(m, ids[..0]);
    PartEnds(m, ids);
    for i := 0 to |ids|
      invariant part == Part(m, ids[..i])
      invariant entities == EntityKeys(part) && occurrences == SumOf(Occurrences(part))
      invariant first == MinText(Firsts(part)) && last == MaxText(Lasts(part))
    {
      PartStep(m, ids, i);
      var row := m[ids[i]];
      entities, occurrences := entities + {EntityKey(row)}, occurrences + row.occurrences;
      first, last := LowerOf(first, Text(row.first)), UpperOf(last, Text(row.last));
      part := Part(m, ids[..i + 1]);
    }
    assert ids[..|ids|] == ids;
    var keys := SortTexts(entities);
    f := Figures(ids, keys, |ids|, |keys|, occurrences, first, last);
    SortedFigures(m, f);
  }

  lemma PartStep(m: Members, ids: seq<string>, i: nat)
    requires ids == SortedTexts(m.Keys) && i < |ids|
    ensures ids[i] in m
    ensures var row, before, now := m[ids[i]], Part(m, ids[..i]), Part(m, ids[..i + 1]);
            && SumOf(Occurrences(now)) == SumOf(Occurrences(before)) + row.occurrences
            && EntityKeys(now) == EntityKeys(before) + {EntityKey(row)}
            && MinText(Firsts(now)) == LowerOf(MinText(Firsts(before)), Text(row.first))
            && MaxText(Lasts(now)) == UpperOf(MaxText(Lasts(before)), Text(row.last))
  {
    hide EntityKey, EntityKeys, Occurrences, Firsts, Lasts, MinText, MaxText, SumOf, Part, SortedTexts, LowerOf, UpperOf, Text, Increasing;
    assert ids[..i + 1] == ids[..i] + [ids[i]];
    assert ids[i] in ids;
    Before(ids, i);
    PartGrows(m, ids[..i], ids[i]);
    PartBounds(m, ids[..i], ids[i]);
  }

  lemma SortedFigures(m: Members, f: Figures)
    requires f.ids == SortedTexts(m.Keys) && f.entities == SortedTexts(EntityKeys(m))
    requires f.candidates == |f.ids| && f.affected == |f.entities| && f.occurrences == SumOf(Occurrences(m))
    requires f.first == MinText(Firsts(m)) && f.last == MaxText(Lasts(m))
    ensures f == FiguresOf(m)
  {
    hide EntityKeys, Occurrences, Firsts, Lasts, MinText, MaxText, SumOf;
    SortedSize(m, f.ids, f.entities);
  }

  lemma Before(ids: seq<string>, i: nat)
    requires i < |ids| && Increasing(ids, TextLess)
    ensures ids[i] !in ids[..i]
  {
    TextOrder();
  }

  lemma SortedSize(m: Members, ids: seq<string>, keys: seq<string>)
    requires ids == SortedTexts(m.Keys) && keys == SortedTexts(EntityKeys(m))
    ensures |ids| == |m| && |keys| == |EntityKeys(m)|
  {
    assert |m.Keys| == |m|;
  }

  lemma PartEnds(m: Members, ids: seq<string>)
    requires ids == SortedTexts(m.Keys)
    ensures Part(m, ids) == m
    ensures var none := Part(m, ids[..0]);
            EntityKeys(none) == {} && SumOf(Occurrences(none)) == 0 && MinText(Firsts(none)) == None && MaxText(Lasts(none)) == None
  {
  }

  class ApprovalTables {
    var t: Tables

    constructor (t: Tables)
      ensures this.t == t
    {
      this.t := t;
    }

    /** Places the children of one planned row, until one is refused. */
    method ReplaceRow(idFor: string -> string, p: Planned, affected: set<string>, now: nat)
      returns (touched: set<string>, refused: Option<Refusal>)
      modifies this
      ensures match Replace(Work(old(t), affected), idFor, p, now)
              case Ok(w) => refused == None && Work(t, touched) == w
              case Err(e) => refused == Some(e)
    {
      hide Place;
      t := t.(members := t.members - {p.id});
      touched := affected + Given(p.group);
      ghost var start := Work(t, touched);
      for i := 0 to |p.children|
        invariant PlaceAll(start, idFor, p, p.children, now) == PlaceAll(Work(t, touched), idFor, p, p.children[i..], now)
      {
        assert p.children[i..][0] == p.children[i] && p.children[i..][1..] == p.children[i + 1..];
        var placed := Place(Work(t, touched), idFor, p, p.children[i], now);
        if placed.Err? {
          return touched, Some(placed.error);
        }
        t, touched := placed.value.tables, placed.value.affected;
      }
      refused := None;
    }

    method RecomputeGroups(affected: set<string>, now: nat)
      modifies this
      ensures t == RecomputeAll(old(t), affected, now)
    {
      hide *;
      var todo := affected * t.groups.Keys;
      RecomputeNone(t, affected - todo, now);
      while todo != {}
        invariant todo <= t.groups.Keys == old(t.groups).Keys && todo <= affected
        invariant t == RecomputeAll(old(t), affected - todo, now)
      {
        var id :| id in todo;
        RecomputeStep(old(t), affected - todo, id, now);
        var group := RecomputeGroup(t.groups[id], MembersOf(t, id), now);
        t := t.(groups := t.groups[id := group]);
        assert affected - (todo - {id}) == affected - todo + {id};
        todo := todo - {id};
      }
      assert affected - todo == affected;
    }

    method ExpandLists(plan: seq<Planned>)
      modifies this
      ensures t == ExpandAll(old(t), plan)
      ensures DistinctPlan(plan) ==> ListsExpanded(old(t), t, plan)
    {
      hide Expanded, PlannedJobs, DistinctPlan, ListsExpanded;
      if DistinctPlan(plan) { AllExpanded(t, plan); }
      var features := t.features;
      var todo := features.Keys;
      while todo != {}
        invariant todo <= features.Keys == t.features.Keys
        invariant forall k :: k in features ==>
                    features[k] == if k !in todo && k.0 in PlannedJobs(plan) then Expanded(plan, t.features[k]) else t.features[k]
      {
        var k :| k in todo;
        if k.0 in PlannedJobs(plan) {
          features := features[k := Expanded(plan, features[k])];
        }
        todo := todo - {k};
      }
      assert features == ExpandAll(t, plan).features;
      t := t.(features := features);
    }

    /** `repair_pending_candidates` with `apply`, as one transaction. */
    method RepairPending(idFor: string -> string, plan: seq<Planned>, now: nat) returns (refused: Option<Refusal>)
      modifies this
      ensures t == Repair(old(t), idFor, plan, now)
      ensures refused.None? <==> Repaired(old(t), idFor, plan, now).Ok?
    {
      hide Replace, RecomputeAll, ExpandAll;
      var before, affected := t, {};
      for i := 0 to |plan|
        invariant ReplaceAll(Work(before, {}), idFor, plan, now) == ReplaceAll(Work(t, affected), idFor, plan[i..], now)
      {
        assert plan[i..][0] == plan[i] && plan[i..][1..] == plan[i + 1..];
        affected, refused := ReplaceRow(idFor, plan[i], affected, now);
        if refused.Some? {
          t := before;
          return;
        }
      }
      RecomputeGroups(affected, now);
      ExpandLists(plan);
      refused := None;
    }
  }

  method RecomputeGroup(g: Group, m: Members, now: nat) returns (group: Group)
    ensures group == Recomputed(g, m, now)
  {
    var figures := Compute(m);
    var status := g.status;
    if m == map[] && status == "pending" {
      status := "superseded";
    }
    var primary := g.primary;
    if primary.None? || primary.value !in m {
      primary := if figures.ids == [] then None else Some(figures.ids[0]);
    }
    group := Group(g.key, status, figures, primary, now);
  }

  lemma RecomputeNone(t: Tables, missing: set<string>, now: nat)
    requires missing !! t.groups.Keys
    ensures RecomputeAll(t, missing, now) == t
  {
    assert RecomputeAll(t, missing, now).groups == t.groups;
  }

  lemma RecomputeStep(t: Tables, done: set<string>, id: string, now: nat)
    requires id in t.groups && id !in done
    ensures var r := RecomputeAll(t, done, now);
            && r.groups.Keys == t.groups.Keys && r.groups[id] == t.groups[id]
            && RecomputeAll(t, done + {id}, now) == r.(groups := r.groups[id := Recomputed(r.groups[id], MembersOf(r, id), now)])
  {
    hide Recomputed;
    var r := RecomputeAll(t, done, now);
    assert MembersOf(r, id) == MembersOf(t, id);
    assert RecomputeAll(t, done + {id}, now).groups == r.groups[id := Recomputed(r.groups[id], MembersOf(r, id), now)];
  }
}
