/** Which jobs the cache of live jobs gives up first: its order is the order in which jobs were last used. */
module JobRecency {
  import opened Prelude
  import opened JobCache

  // ----- uses -----

  /** The jobs one lock region uses, in order: those it asks for and finds or hydrates, and those it puts in. A refresh
      of a cached job is not a use. */
  function UsedBy(s: State, a: Action): seq<string> {
    match a
    case StartRun(_, id, stored, _) => if stored || id in Ids(s.cache) then [id] else []
    case StartWait(_, id, stored, _) => if stored || id in Ids(s.cache) then [id] else []
    case Use(id, stored) => if stored || id in Ids(s.cache) then [id] else []
    case Insert(_, id) => [id]
    case Refresh(id, stored, _) => if stored && id !in Ids(s.cache) && id !in s.active then [id] else []
    case FailedUnit(uses) => uses
    case _ => []
  }

  /** All uses of a run. */
  function Uses(budget: Option<nat>, s: State, turns: seq<Turn>): seq<string>
    decreases |turns|
  {
    if turns == [] then []
    else if Enabled(s, turns[0].action)
    then UsedBy(s, turns[0].action) + Uses(budget, Step(budget, s, turns[0]), turns[1..])
    else Uses(budget, s, turns[1..])
  }

  /** The number of the last use of a job, counted from one; zero if it was never used. */
  function LastUse(uses: seq<string>, id: string): (n: nat)
    ensures n <= |uses| && (n == 0 <==> id !in uses)
    ensures n > 0 ==> uses[n - 1] == id && forall i :: n <= i < |uses| ==> uses[i] != id
  {
    if uses == [] then 0
    else if uses[|uses| - 1] == id then |uses|
    else
      assert uses == uses[..|uses| - 1] + [uses[|uses| - 1]];
      LastUse(uses[..|uses| - 1], id)
  }

  /** Every cached job was used, and each before those behind it. */
  ghost predicate ByUse(cache: seq<Entry>, uses: seq<string>) {
    && (forall i :: 0 <= i < |cache| ==> LastUse(uses, cache[i].id) > 0)
    && forall i, j :: 0 <= i < j < |cache| ==> LastUse(uses, cache[i].id) < LastUse(uses, cache[j].id)
  }

  lemma OneMoreUse(uses: seq<string>, id: string)
    ensures LastUse(uses + [id], id) == |uses| + 1
    ensures forall x :: x != id ==> LastUse(uses + [id], x) == LastUse(uses, x)
  {
    assert (uses + [id])[..|uses|] == uses;
  }

  // ----- the order of the cache -----

  lemma FirstByUse(cache: seq<Entry>, uses: seq<string>)
    requires ByUse(cache, uses) && cache != []
    ensures ByUse(cache[1..], uses) && LastUse(uses, cache[0].id) > 0
    ensures forall e :: e in cache[1..] ==> LastUse(uses, cache[0].id) < LastUse(uses, e.id)
  {
    hide LastUse;
  }

  lemma PrependByUse(e: Entry, rest: seq<Entry>, uses: seq<string>)
    requires ByUse(rest, uses) && LastUse(uses, e.id) > 0 && forall x :: x in rest ==> LastUse(uses, e.id) < LastUse(uses, x.id)
    ensures ByUse([e] + rest, uses)
  {
    hide LastUse;
    assert forall i :: 0 <= i < |rest| ==> rest[i] in rest;
  }

  lemma {:induction false} WithoutByUse(cache: seq<Entry>, ids: set<string>, uses: seq<string>)
    requires ByUse(cache, uses)
    ensures ByUse(Without(cache, ids), uses)
  {
    hide LastUse, ByUse;
    if cache != [] {
      FirstByUse(cache, uses);
      WithoutByUse(cache[1..], ids, uses);
      PrependByUse(cache[0], Without(cache[1..], ids), uses);
    } else {
      NoneByUse(uses);
    }
  }

  lemma {:induction false} OnlyByUse(cache: seq<Entry>, ids: set<string>, uses: seq<string>)
    requires ByUse(cache, uses)
    ensures ByUse(Only(cache, ids), uses)
  {
    hide LastUse, ByUse;
    if cache != [] {
      FirstByUse(cache, uses);
      OnlyByUse(cache[1..], ids, uses);
      PrependByUse(cache[0], Only(cache[1..], ids), uses);
    } else {
      NoneByUse(uses);
    }
  }

  lemma NoneByUse(uses: seq<string>)
    ensures ByUse([], uses)
  {
  }

  /** A job put behind all others is the one used last. */
  lemma AppendByUse(cache: seq<Entry>, e: Entry, uses: seq<string>)
    requires ByUse(cache, uses) && forall x :: x in cache ==> x.id != e.id
    ensures ByUse(cache + [e], uses + [e.id])
  {
    OneMoreUse(uses, e.id);
    hide LastUse;
    assert forall i :: 0 <= i < |cache| ==> cache[i] in cache;
    assert forall x :: LastUse(uses, x) <= |uses| by { forall x ensures LastUse(uses, x) <= |uses| {} }
  }

  lemma FitByUse(budget: Option<nat>, cache: seq<Entry>, pinned: set<string>, size: nat -> nat, uses: seq<string>)
    requires ByUse(cache, uses)
    ensures ByUse(Fit(budget, cache, pinned, size), uses)
  {
    if budget.Some? { WithoutByUse(cache, Ids(Evicted(cache, pinned, size, budget.value)), uses); }
  }

  lemma MovedByUse(s: State, id: string, uses: seq<string>)
    requires ByUse(s.cache, uses)
    ensures ByUse(Moved(s, id).cache, uses + [id])
  {
    var m := Moved(s, id).cache;
    WithoutByUse(s.cache, {id}, uses);
    AppendByUse(Without(s.cache, {id}), m[|m| - 1], uses);
  }

  lemma AccessByUse(budget: Option<nat>, s: State, id: string, stored: bool, size: nat -> nat, uses: seq<string>)
    requires ByUse(s.cache, uses) && Access(budget, s, id, stored, size).Some?
    ensures ByUse(Access(budget, s, id, stored, size).value.cache, uses + [id])
  {
    hide Moved, Fit, ByUse;
    MovedByUse(s, id, uses);
    FitByUse(budget, Moved(s, id).cache, Pinned(Moved(s, id)) + {id}, size, uses + [id]);
  }

  lemma {:induction false} AccessAllByUse(budget: Option<nat>, s: State, ids: seq<string>, size: nat -> nat, uses: seq<string>)
    requires ByUse(s.cache, uses)
    ensures ByUse(AccessAll(budget, s, ids, size).cache, uses + ids)
    decreases |ids|
  {
    hide ByUse, Lookup, Moved, Trimmed;
    if ids == [] {
      assert uses + ids == uses;
    } else {
      AccessByUse(budget, s, ids[0], true, size, uses);
      AccessAllByUse(budget, Access(budget, s, ids[0], true, size).value, ids[1..], size, uses + [ids[0]]);
      assert uses + [ids[0]] + ids[1..] == uses + ids;
    }
  }

  lemma LookupFinds(cache: seq<Entry>, id: string)
    requires Unique(cache)
    ensures Lookup(cache, id).Some? <==> id in Ids(cache)
  {
    LookupIn(cache, id);
  }

  /** One lock region keeps the cache in order of last use, its own uses included. */
  lemma StepByUse(budget: Option<nat>, s: State, turn: Turn, uses: seq<string>)
    requires Unique(s.cache) && Enabled(s, turn.action) && ByUse(s.cache, uses)
    ensures ByUse(Step(budget, s, turn).cache, uses + UsedBy(s, turn.action))
  {
    hide ByUse, Lookup, Fit, Moved, Ids, Bump, Release, Unique;
    var size := turn.size;
    assert uses + [] == uses;
    match turn.action
    case StartRun(t, id, stored, complete) => UseByUse(budget, s, id, stored, size, uses);
    case StartWait(t, id, stored, behind) => UseByUse(budget, s, id, stored, size, uses);
    case Use(id, stored) => UseByUse(budget, s, id, stored, size, uses);
    case Insert(t, id) => AddedByUse(s, id, uses);
    case EndRun(t) => FitByUse(budget, s.cache, Pinned(s.(active := Release(s.active, s.holds[t].id), holds := s.holds - {t})) + {}, size, uses);
    case EndWait(t) => FitByUse(budget, s.cache, Pinned(s.(waiters := Release(s.waiters, s.holds[t].id), holds := s.holds - {t})) + {}, size, uses);
    case Refresh(id, stored, settled) =>
      LookupFinds(s.cache, id);
      if stored && Lookup(s.cache, id).None? && id !in s.active {
        var m := s.(cache := s.cache + [Entry(id, s.next)], next := s.next + 1);
        AddedByUse(s, id, uses);
        FitByUse(budget, m.cache, Pinned(m) + {id}, size, uses + [id]);
      } else {
        FitByUse(budget, s.cache, Pinned(s) + {id}, size, uses);
      }
    case FailedUnit(ids) =>
      AccessAllByUse(budget, s, ids, size, uses);
      OnlyByUse(AccessAll(budget, s, ids, size).cache, Ids(s.cache), uses + ids);
    case _ =>
  }

  lemma AddedByUse(s: State, id: string, uses: seq<string>)
    requires Unique(s.cache) && Lookup(s.cache, id).None? && ByUse(s.cache, uses)
    ensures ByUse(s.cache + [Entry(id, s.next)], uses + [id])
  {
    LookupIn(s.cache, id);
    AppendByUse(s.cache, Entry(id, s.next), uses);
  }

  lemma UseByUse(budget: Option<nat>, s: State, id: string, stored: bool, size: nat -> nat, uses: seq<string>)
    requires Unique(s.cache) && ByUse(s.cache, uses)
    ensures match Access(budget, s, id, stored, size)
            case Some(r) => ByUse(r.cache, uses + [id]) && (stored || id in Ids(s.cache))
            case None => !stored && id !in Ids(s.cache)
  {
    hide ByUse, Fit, Moved;
    LookupFinds(s.cache, id);
    if Access(budget, s, id, stored, size).Some? { AccessByUse(budget, s, id, stored, size, uses); }
  }

  /** Over every run the cache is in the order in which its jobs were last used. */
  lemma {:induction false} RunByUse(budget: Option<nat>, s: State, turns: seq<Turn>, past: seq<string>)
    requires Inv(s) && ByUse(s.cache, past)
    ensures ByUse(Run(budget, s, turns).cache, past + Uses(budget, s, turns))
    decreases |turns|
  {
    hide Inv, Step, ByUse, UsedBy, Enabled;
    if turns == [] {
      assert past + [] == past;
    } else if Enabled(s, turns[0].action) {
      assert Unique(s.cache) by { InvIsUnique(s); }
      StepByUse(budget, s, turns[0], past);
      StepKeepsInv(budget, s, turns[0]);
      var r := Step(budget, s, turns[0]);
      RunByUse(budget, r, turns[1..], past + UsedBy(s, turns[0].action));
      assert past + UsedBy(s, turns[0].action) + Uses(budget, r, turns[1..]) == past + Uses(budget, s, turns);
    } else {
      RunByUse(budget, s, turns[1..], past);
    }
  }

  // ----- what a trim gives up -----

  /** Of the jobs cached before, those no longer cached were last used before every unpinned job that is. */
  ghost predicate GaveUpOldest(before: set<string>, now: set<string>, pinned: set<string>, uses: seq<string>) {
    forall gone, kept :: gone in before && gone !in now && kept in now && kept !in pinned ==> LastUse(uses, gone) < LastUse(uses, kept)
  }

  lemma TrimGivesUpOldest(budget: Option<nat>, cache: seq<Entry>, pinned: set<string>, size: nat -> nat, uses: seq<string>)
    requires Unique(cache) && ByUse(cache, uses)
    ensures GaveUpOldest(Ids(cache), Ids(Fit(budget, cache, pinned, size)), pinned, uses)
  {
    if budget.Some? {
      TrimIsShortest(cache, pinned, size, budget.value);
      WithoutByUse(cache, pinned, uses);
      var history := Without(cache, pinned);
      var k := Excess(history, size, budget.value);
      var after := Trim(cache, pinned, size, budget.value);
      forall gone, kept | gone in Ids(cache) && gone !in Ids(after) && kept in Ids(after) && kept !in pinned
        ensures LastUse(uses, gone) < LastUse(uses, kept)
      {
        var g :| g in cache && g.id == gone;
        var h :| h in after && h.id == kept;
        assert g in history[..k] && h in Without(after, pinned) && h in history[k..];
      }
    }
  }

  /** One more use: what it protects is the job used last. */
  lemma OldestThrough(before: set<string>, was: set<string>, now: set<string>, pinned: set<string>, id: string, uses: seq<string>)
    requires GaveUpOldest(before, was, pinned, uses) && GaveUpOldest(was + {id}, now, pinned + {id}, uses + [id])
    requires id in now && now <= was + {id}
    ensures GaveUpOldest(before, now, pinned, uses + [id])
  {
    OneMoreUse(uses, id);
    assert forall x :: LastUse(uses, x) <= |uses|;
    hide LastUse;
    forall gone, kept | gone in before && gone !in now && kept in now && kept !in pinned
      ensures LastUse(uses + [id], gone) < LastUse(uses + [id], kept)
    {
      assert gone != id;
      if kept != id && gone !in was { assert LastUse(uses, gone) < LastUse(uses, kept); }
    }
  }

  lemma MovedHas(s: State, id: string)
    requires Unique(s.cache)
    ensures Unique(Moved(s, id).cache) && Ids(Moved(s, id).cache) == Ids(s.cache) + {id} && Pinned(Moved(s, id)) == Pinned(s)
  {
    var m := Moved(s, id).cache;
    UniqueWithout(s.cache, {id});
    hide Ids, Lookup;
    assert m == Without(s.cache, {id}) + [m[|m| - 1]] && m[|m| - 1].id == id;
    forall x ensures x in Ids(m) <==> x in Ids(s.cache) || x == id {
      IdsOf(s.cache);
      IdsOf(m);
      assert m[|m| - 1] in m && forall e :: e in s.cache && e.id != id ==> e in m;
    }
  }

  lemma IdsOf(cache: seq<Entry>)
    ensures forall e :: e in cache ==> e.id in Ids(cache)
    ensures forall id :: id in Ids(cache) ==> exists e :: e in cache && e.id == id
  {
  }

  lemma FitHas(budget: Option<nat>, cache: seq<Entry>, pinned: set<string>, size: nat -> nat)
    requires Unique(cache)
    ensures var now := Ids(Fit(budget, cache, pinned, size)); now <= Ids(cache) && Ids(cache) * pinned <= now
  {
    if budget.Some? {
      TrimIsShortest(cache, pinned, size, budget.value);
      assert forall e :: e in cache && e.id in pinned ==> e in Only(cache, pinned);
    }
  }

  lemma AccessGivesUpOldest(budget: Option<nat>, s: State, id: string, stored: bool, size: nat -> nat, before: set<string>, uses: seq<string>)
    requires Unique(s.cache) && ByUse(s.cache, uses) && Access(budget, s, id, stored, size).Some?
    requires GaveUpOldest(before, Ids(s.cache), Pinned(s), uses)
    ensures var r := Access(budget, s, id, stored, size).value; GaveUpOldest(before, Ids(r.cache), Pinned(s), uses + [id])
  {
    hide Moved, Fit, ByUse, GaveUpOldest, Unique, Ids, Pinned, Lookup;
    var m := Moved(s, id);
    MovedByUse(s, id, uses);
    MovedHas(s, id);
    FitHas(budget, m.cache, Pinned(s) + {id}, size);
    TrimGivesUpOldest(budget, m.cache, Pinned(s) + {id}, size, uses + [id]);
    OldestThrough(before, Ids(s.cache), Ids(Fit(budget, m.cache, Pinned(s) + {id}, size)), Pinned(s), id, uses);
  }

  lemma {:induction false} AccessAllGivesUpOldest(budget: Option<nat>, s: State, ids: seq<string>, size: nat -> nat, before: set<string>, uses: seq<string>)
    requires Unique(s.cache) && (forall e :: e in s.cache ==> e.obj < s.next) && ByUse(s.cache, uses)
    requires GaveUpOldest(before, Ids(s.cache), Pinned(s), uses)
    ensures var r := AccessAll(budget, s, ids, size); GaveUpOldest(before, Ids(r.cache), Pinned(s), uses + ids)
    decreases |ids|
  {
    hide ByUse, Lookup, Moved, Trimmed, GaveUpOldest;
    if ids == [] {
      assert uses + ids == uses;
    } else {
      var m := Access(budget, s, ids[0], true, size).value;
      AccessByUse(budget, s, ids[0], true, size, uses);
      AccessIsSteady(budget, s, ids[0], true, size);
      AccessGivesUpOldest(budget, s, ids[0], true, size, before, uses);
      AccessAllGivesUpOldest(budget, m, ids[1..], size, before, uses + [ids[0]]);
      assert uses + [ids[0]] + ids[1..] == uses + ids;
    }
  }

  /** A refresh spares its job from the trim it ends with, without using it. */
  function Spared(a: Action): set<string> { if a.Refresh? then {a.id} else {} }

  lemma StillCached(before: set<string>, now: set<string>, pinned: set<string>, uses: seq<string>)
    requires before <= now
    ensures GaveUpOldest(before, now, pinned, uses)
  {
  }

  lemma FewerKept(before: set<string>, now: set<string>, pinned: set<string>, fewer: set<string>, more: set<string>, uses: seq<string>)
    requires GaveUpOldest(before, now, pinned, uses) && fewer <= now && now * before <= fewer && pinned <= more
    ensures GaveUpOldest(before, fewer, more, uses)
  {
  }

  lemma StepGivesUpOldest(budget: Option<nat>, s: State, turn: Turn, uses: seq<string>)
    requires Inv(s) && Enabled(s, turn.action) && ByUse(s.cache, uses)
    ensures var r := Step(budget, s, turn);
            GaveUpOldest(Ids(s.cache), Ids(r.cache), Pinned(r) + Spared(turn.action), uses + UsedBy(s, turn.action))
  {
    hide Fit, Moved, Ids, Unique, Lookup, ByUse, GaveUpOldest, Bump, Release, Access, AccessAll, Counted, Served, Pinned;
    var size, before, r := turn.size, Ids(s.cache), Step(budget, s, turn);
    assert uses + [] == uses && Pinned(r) + {} == Pinned(r);
    StillCached(before, before, Pinned(r) + Spared(turn.action), uses);
    match turn.action
    case StartRun(t, id, stored, complete) =>
      UseGivesUpOldest(budget, s, id, stored, size, uses);
      if Access(budget, s, id, stored, size).Some? { EnterGivesUpOldest(s, Access(budget, s, id, stored, size).value, t, id, false, uses + [id]); }
    case StartWait(t, id, stored, behind) =>
      UseGivesUpOldest(budget, s, id, stored, size, uses);
      if Access(budget, s, id, stored, size).Some? { EnterGivesUpOldest(s, Access(budget, s, id, stored, size).value, t, id, true, uses + [id]); }
    case Use(id, stored) => UseGivesUpOldest(budget, s, id, stored, size, uses);
    case EndRun(t) => LeaveGivesUpOldest(budget, s.(active := Release(s.active, s.holds[t].id), holds := s.holds - {t}), size, uses);
    case EndWait(t) => LeaveGivesUpOldest(budget, s.(waiters := Release(s.waiters, s.holds[t].id), holds := s.holds - {t}), size, uses);
    case Insert(t, id) => AddedStays(s.cache, Entry(id, s.next), Pinned(r) + {}, uses + [id]);
    case Refresh(id, stored, settled) => RefreshGivesUpOldest(budget, s, id, stored, settled, size, uses);
    case FailedUnit(ids) =>
      UnitGivesUpOldest(budget, s, ids, size, uses);
    case _ =>
  }

  lemma UnitGivesUpOldest(budget: Option<nat>, s: State, ids: seq<string>, size: nat -> nat, uses: seq<string>)
    requires Unique(s.cache) && (forall e :: e in s.cache ==> e.obj < s.next) && ByUse(s.cache, uses)
    ensures var r := Step(budget, s, Turn(FailedUnit(ids), size)); GaveUpOldest(Ids(s.cache), Ids(r.cache), Pinned(r), uses + ids)
  {
    hide ByUse, GaveUpOldest, Ids;
    StillCached(Ids(s.cache), Ids(s.cache), Pinned(s), uses);
    AccessAllGivesUpOldest(budget, s, ids, size, Ids(s.cache), uses);
    AccessAllIsSteady(budget, s, ids, size);
    var m, r := AccessAll(budget, s, ids, size), Step(budget, s, Turn(FailedUnit(ids), size));
    OnlyIds(m.cache, Ids(s.cache));
    FewerKept(Ids(s.cache), Ids(m.cache), Pinned(s), Ids(r.cache), Pinned(r), uses + ids);
  }

  lemma LeaveGivesUpOldest(budget: Option<nat>, s: State, size: nat -> nat, uses: seq<string>)
    requires Unique(s.cache) && ByUse(s.cache, uses)
    ensures var r := Trimmed(budget, s, {}, size); GaveUpOldest(Ids(s.cache), Ids(r.cache), Pinned(r), uses)
  {
    hide GaveUpOldest, Ids, Fit;
    assert Pinned(s) + {} == Pinned(s);
    TrimGivesUpOldest(budget, s.cache, Pinned(s), size, uses);
  }

  lemma EnterGivesUpOldest(s: State, m: State, t: nat, id: string, waiting: bool, uses: seq<string>)
    requires GaveUpOldest(Ids(s.cache), Ids(m.cache), Pinned(m), uses)
    ensures Lookup(m.cache, id).Some? ==>
              var r := Entered(m, t, id, waiting); GaveUpOldest(Ids(s.cache), Ids(r.cache), Pinned(r), uses)
  {
    hide GaveUpOldest, Ids;
    if Lookup(m.cache, id).Some? { FewerKept(Ids(s.cache), Ids(m.cache), Pinned(m), Ids(m.cache), Pinned(Entered(m, t, id, waiting)), uses); }
  }

  lemma AddedStays(cache: seq<Entry>, e: Entry, pinned: set<string>, uses: seq<string>)
    ensures GaveUpOldest(Ids(cache), Ids(cache + [e]), pinned, uses)
  {
    hide GaveUpOldest;
    assert forall x :: x in cache ==> x in cache + [e];
    StillCached(Ids(cache), Ids(cache + [e]), pinned, uses);
  }

  lemma OnlyIds(cache: seq<Entry>, ids: set<string>)
    ensures Ids(Only(cache, ids)) == Ids(cache) * ids
  {
    hide Ids;
    IdsOf(cache);
    IdsOf(Only(cache, ids));
  }

  lemma RefreshGivesUpOldest(budget: Option<nat>, s: State, id: string, stored: bool, settled: bool, size: nat -> nat, uses: seq<string>)
    requires Unique(s.cache) && ByUse(s.cache, uses)
    ensures var a := Refresh(id, stored, settled); var r := Step(budget, s, Turn(a, size));
            Pinned(r) == Pinned(s) && GaveUpOldest(Ids(s.cache), Ids(r.cache), Pinned(s) + {id}, uses + UsedBy(s, a))
  {
    hide Fit, Ids, Lookup, ByUse, GaveUpOldest, Unique;
    var added := s.cache + [Entry(id, s.next)];
    var pinned := Pinned(s) + {id};
    assert uses + [] == uses;
    LookupFinds(s.cache, id);
    StillCached(Ids(s.cache), Ids(s.cache), pinned, uses);
    TrimGivesUpOldest(budget, s.cache, pinned, size, uses);
    if Lookup(s.cache, id).None? {
      AddedByUse(s, id, uses);
      AddedIsUnique(s, id);
      TrimGivesUpOldest(budget, added, pinned, size, uses + [id]);
      AddedIds(s.cache, Entry(id, s.next));
      FewerBefore(Ids(s.cache), Ids(added), Ids(Fit(budget, added, pinned, size)), pinned, uses + [id]);
    }
  }

  lemma AddedIsUnique(s: State, id: string)
    requires Unique(s.cache) && Lookup(s.cache, id).None?
    ensures Unique(s.cache + [Entry(id, s.next)])
  {
    LookupIn(s.cache, id);
  }

  lemma AddedIds(cache: seq<Entry>, e: Entry)
    ensures Ids(cache) <= Ids(cache + [e])
  {
    assert forall x :: x in cache ==> x in cache + [e];
  }

  lemma FewerBefore(fewer: set<string>, before: set<string>, now: set<string>, pinned: set<string>, uses: seq<string>)
    requires fewer <= before && GaveUpOldest(before, now, pinned, uses)
    ensures GaveUpOldest(fewer, now, pinned, uses)
  {
  }

  lemma UseGivesUpOldest(budget: Option<nat>, s: State, id: string, stored: bool, size: nat -> nat, uses: seq<string>)
    requires Unique(s.cache) && ByUse(s.cache, uses)
    ensures match Access(budget, s, id, stored, size)
            case Some(r) => GaveUpOldest(Ids(s.cache), Ids(r.cache), Pinned(s), uses + [id]) && (stored || id in Ids(s.cache)) && Pinned(r) == Pinned(s)
            case None => !stored && id !in Ids(s.cache)
  {
    hide ByUse, Fit, Moved, Ids, GaveUpOldest, Unique;
    UseByUse(budget, s, id, stored, size, uses);
    StillCached(Ids(s.cache), Ids(s.cache), Pinned(s), uses);
    if Access(budget, s, id, stored, size).Some? {
      AccessGivesUpOldest(budget, s, id, stored, size, Ids(s.cache), uses);
      MovedHas(s, id);
    }
  }

  /** In every run: a job a lock region drops from the cache was last used before every job it keeps, but for those in
      use by a thread and the one a refresh has just renewed. */
  lemma EvictsLeastRecentlyUsed(budget: Option<nat>, turns: seq<Turn>, turn: Turn, gone: string, kept: string)
    requires Enabled(Run(budget, COLD, turns), turn.action)
    requires var s := Run(budget, COLD, turns); var r := Step(budget, s, turn);
             && gone in Ids(s.cache) && gone !in Ids(r.cache)
             && kept in Ids(r.cache) && kept !in Pinned(r) && kept !in Spared(turn.action)
    ensures var s := Run(budget, COLD, turns); var uses := Uses(budget, COLD, turns) + UsedBy(s, turn.action);
            0 < LastUse(uses, gone) < LastUse(uses, kept)
  {
    hide Run, Step, UsedBy, Uses, Ids, Pinned, LastUse, ByUse;
    RunKeepsInv(budget, COLD, turns);
    var s := Run(budget, COLD, turns);
    ColdByUse();
    RunByUse(budget, COLD, turns, []);
    assert [] + Uses(budget, COLD, turns) == Uses(budget, COLD, turns);
    StepGivesUpOldest(budget, s, turn, Uses(budget, COLD, turns));
    CachedWasUsed(s.cache, gone, Uses(budget, COLD, turns), UsedBy(s, turn.action));
  }

  lemma ColdByUse()
    ensures ByUse(COLD.cache, [])
  {
  }

  lemma CachedWasUsed(cache: seq<Entry>, id: string, uses: seq<string>, more: seq<string>)
    requires ByUse(cache, uses) && id in Ids(cache)
    ensures LastUse(uses + more, id) > 0
  {
    assert id in uses;
  }

  /** And the cache lists its jobs in the order of their last use. */
  lemma OrderIsLastUse(budget: Option<nat>, turns: seq<Turn>)
    ensures var cache := Run(budget, COLD, turns).cache; var uses := Uses(budget, COLD, turns);
            forall i, j :: 0 <= i < j < |cache| ==> 0 < LastUse(uses, cache[i].id) < LastUse(uses, cache[j].id)
  {
    hide Run, Uses, LastUse;
    ColdByUse();
    RunByUse(budget, COLD, turns, []);
    assert [] + Uses(budget, COLD, turns) == Uses(budget, COLD, turns);
  }

  // ----- how much a lock region gives up -----

  /** `now` is what is left of `was` after dropping from the front until it fits. */
  ghost predicate ShortestFit(was: seq<Entry>, now: seq<Entry>, size: nat -> nat, budget: nat) {
    exists k: nat :: k <= |was| && DropsUntilFit(was, now, k, size, budget)
  }

  ghost predicate DropsUntilFit(was: seq<Entry>, now: seq<Entry>, k: nat, size: nat -> nat, budget: nat)
    requires k <= |was|
  {
    now == was[k..] && Total(now, size) <= budget && forall j :: 0 <= j < k ==> Total(was[j..], size) > budget
  }

  /** The job a lock region names. */
  function Named(a: Action): set<string> {
    match a
    case StartRun(_, id, _, _) => {id}
    case StartWait(_, id, _, _) => {id}
    case Use(id, _) => {id}
    case Refresh(id, _, _) => {id}
    case _ => {}
  }

  /** The lock region comes to a trim: it leaves a run or a wait, uses a job, or renews one nobody works on. */
  predicate Trims(s: State, a: Action) {
    match a
    case StartRun(_, id, stored, _) => stored || id in Ids(s.cache)
    case StartWait(_, id, stored, _) => stored || id in Ids(s.cache)
    case Use(id, stored) => stored || id in Ids(s.cache)
    case Refresh(id, stored, settled) => stored && id !in s.active && !(id in Ids(s.cache) && settled)
    case EndRun(_) => true
    case EndWait(_) => true
    case _ => false
  }

  lemma FitIsShortest(cache: seq<Entry>, pinned: set<string>, size: nat -> nat, budget: nat)
    requires Unique(cache)
    ensures ShortestFit(Without(cache, pinned), Without(Fit(Some(budget), cache, pinned, size), pinned), size, budget)
  {
    TrimIsShortest(cache, pinned, size, budget);
    var history := Without(cache, pinned);
    var k := Excess(history, size, budget);
    assert DropsUntilFit(history, Without(Fit(Some(budget), cache, pinned, size), pinned), k, size, budget);
  }

  lemma NamedIsProtected(cache: seq<Entry>, e: Entry, pinned: set<string>)
    requires e.id in pinned
    ensures Without(cache + [e], pinned) == Without(cache, pinned)
    ensures Without(Without(cache, {e.id}) + [e], pinned) == Without(cache, pinned)
  {
    WithoutGrows(cache, e, pinned);
    WithoutGrows(Without(cache, {e.id}), e, pinned);
    WithoutComposes(cache, {e.id}, pinned);
    assert {e.id} + pinned == pinned;
  }

  lemma AccessIsShortest(budget: nat, s: State, id: string, stored: bool, size: nat -> nat, pinned: set<string>)
    requires Unique(s.cache) && (stored || id in Ids(s.cache)) && pinned == Pinned(s) + {id}
    ensures Access(Some(budget), s, id, stored, size).Some?
    ensures var r := Access(Some(budget), s, id, stored, size).value;
            Pinned(r) == Pinned(s) && ShortestFit(Without(s.cache, pinned), Without(r.cache, pinned), size, budget)
  {
    hide Without, Ids, Fit, ShortestFit;
    AccessMakesLast(Some(budget), s, id, stored, size);
    MovedHas(s, id);
    var m := Moved(s, id).cache;
    NamedIsProtected(s.cache, m[|m| - 1], pinned);
    FitIsShortest(m, pinned, size, budget);
  }

  /** A lock region that comes to a trim drops the shortest run of least recently used jobs after which those fit that
      are neither in use nor named by it, measured at that moment. */
  lemma RegionTrimsToFit(budget: nat, s: State, turn: Turn)
    requires Inv(s) && Enabled(s, turn.action) && Trims(s, turn.action)
    ensures var r := Step(Some(budget), s, turn); var spared := Pinned(r) + Named(turn.action);
            ShortestFit(Without(s.cache, spared), Without(r.cache, spared), turn.size, budget)
  {
    hide Without, Ids, Fit, ShortestFit, Lookup, Bump, Release, Unique, Counted, Served, Access;
    var size, r := turn.size, Step(Some(budget), s, turn);
    match turn.action
    case StartRun(t, id, stored, complete) => StartTrimsToFit(budget, s, t, id, stored, size, false, complete);
    case StartWait(t, id, stored, behind) => StartTrimsToFit(budget, s, t, id, stored, size, true, behind);
    case Use(id, stored) => AccessIsShortest(budget, s, id, stored, size, Pinned(s) + {id});
    case EndRun(t) =>
      assert Pinned(r) + {} == Pinned(r);
      FitIsShortest(s.cache, Pinned(r), size, budget);
    case EndWait(t) =>
      assert Pinned(r) + {} == Pinned(r);
      FitIsShortest(s.cache, Pinned(r), size, budget);
    case Refresh(id, stored, settled) => RefreshTrimsToFit(budget, s, id, settled, size);
  }

  lemma StartTrimsToFit(budget: nat, s: State, t: nat, id: string, stored: bool, size: nat -> nat, waiting: bool, enters: bool)
    requires Unique(s.cache) && (stored || id in Ids(s.cache))
    ensures Access(Some(budget), s, id, stored, size).Some?
    ensures var m := Access(Some(budget), s, id, stored, size).value;
            var r := if enters && Lookup(m.cache, id).Some? then Entered(m, t, id, waiting) else m;
            ShortestFit(Without(s.cache, Pinned(r) + {id}), Without(r.cache, Pinned(r) + {id}), size, budget)
  {
    hide Without, Ids, ShortestFit, Lookup, Access;
    var pinned := Pinned(s) + {id};
    AccessIsShortest(budget, s, id, stored, size, pinned);
    var m := Access(Some(budget), s, id, stored, size).value;
    if enters && Lookup(m.cache, id).Some? { assert Pinned(Entered(m, t, id, waiting)) + {id} == pinned; }
  }

  lemma RefreshTrimsToFit(budget: nat, s: State, id: string, settled: bool, size: nat -> nat)
    requires Unique(s.cache) && id !in s.active && !(id in Ids(s.cache) && settled)
    ensures var r := Step(Some(budget), s, Turn(Refresh(id, true, settled), size)); var spared := Pinned(r) + {id};
            ShortestFit(Without(s.cache, spared), Without(r.cache, spared), size, budget)
  {
    hide Without, Ids, Fit, ShortestFit, Lookup;
    LookupFinds(s.cache, id);
    var pinned := Pinned(s) + {id};
    FitIsShortest(s.cache, pinned, size, budget);
    if Lookup(s.cache, id).None? {
      AddedIsUnique(s, id);
      NamedIsProtected(s.cache, Entry(id, s.next), pinned);
      FitIsShortest(s.cache + [Entry(id, s.next)], pinned, size, budget);
    }
  }

  /** Where nothing is persisted nothing is given up, but for a failed unit's own newcomers. */
  lemma WithoutPersistenceNothingGoes(s: State, turn: Turn)
    requires Inv(s) && Enabled(s, turn.action)
    ensures Ids(s.cache) <= Ids(Step(None, s, turn).cache)
  {
    hide Lookup, Bump, Release, Ids, Counted, Served, Unique, Moved;
    match turn.action
    case StartRun(t, id, stored, complete) => MovedHas(s, id);
    case StartWait(t, id, stored, behind) => MovedHas(s, id);
    case Use(id, stored) => MovedHas(s, id);
    case Insert(t, id) => AddedIds(s.cache, Entry(id, s.next));
    case Refresh(id, stored, settled) => AddedIds(s.cache, Entry(id, s.next));
    case FailedUnit(ids) =>
      AllStay(s, ids, turn.size);
      OnlyIds(AccessAll(None, s, ids, turn.size).cache, Ids(s.cache));
    case _ =>
  }

  lemma {:induction false} AllStay(s: State, ids: seq<string>, size: nat -> nat)
    requires Unique(s.cache)
    ensures Ids(s.cache) <= Ids(AccessAll(None, s, ids, size).cache)
    decreases |ids|
  {
    hide Ids, Unique;
    if ids != [] && Access(None, s, ids[0], true, size).Some? {
      MovedHas(s, ids[0]);
      AllStay(Access(None, s, ids[0], true, size).value, ids[1..], size);
    }
  }

  // ----- who is inside -----

  /** The hold under which a thread is inside for a job. */
  ghost predicate Inside(s: State, t: nat, id: string, waiting: bool) {
    && t in s.holds && s.holds[t].id == id && (if waiting then s.holds[t].Waiting? else s.holds[t].Running?)
    && Live(s, s.holds[t]) && (if waiting then id in s.waiters else id in s.active)
  }

  /** What an action does to the threads inside. */
  ghost predicate CameAndWent(s: State, a: Action, r: State) {
    match a
    case StartRun(t, id, stored, complete) =>
      if complete && (stored || id in Ids(s.cache)) then Inside(r, t, id, false) && r.holds == s.holds[t := r.holds[t]] else r.holds == s.holds
    case StartWait(t, id, stored, behind) =>
      if behind && (stored || id in Ids(s.cache)) then Inside(r, t, id, true) && r.holds == s.holds[t := r.holds[t]] else r.holds == s.holds
    case Insert(t, id) => t in r.holds && r.holds[t] == Inserted(id, s.next) && Live(r, r.holds[t]) && r.holds == s.holds[t := r.holds[t]]
    case PinBuild(t) => t in s.holds && t in r.holds && r.holds[t].Building? && s.holds[t].id in r.active && r.holds == s.holds[t := r.holds[t]]
    case EndRun(t) => r.holds == s.holds - {t}
    case EndBuild(t) => r.holds == s.holds - {t} && r.cache == s.cache
    case EndWait(t) => r.holds == s.holds - {t}
    case _ => r.holds == s.holds && r.active == s.active && r.waiters == s.waiters
  }

  /** A run of a job with a complete input, and a wait for events of a job behind its log, gets inside if and only if the
      job is cached or stored, with the cached object; leaving takes the thread out. Nobody else comes or goes. */
  lemma ComesAndGoes(budget: Option<nat>, s: State, turn: Turn)
    requires Inv(s) && Enabled(s, turn.action)
    ensures CameAndWent(s, turn.action, Step(budget, s, turn))
  {
    if turn.action.StartRun? || turn.action.StartWait? { Comes(budget, s, turn); } else { Goes(budget, s, turn); }
  }

  lemma Comes(budget: Option<nat>, s: State, turn: Turn)
    requires Inv(s) && Enabled(s, turn.action) && (turn.action.StartRun? || turn.action.StartWait?)
    ensures CameAndWent(s, turn.action, Step(budget, s, turn))
  {
    InvIsUnique(s);
    hide Lookup, Ids, Inv, Unique, Access, Inside, Entered;
    match turn.action
    case StartRun(t, id, stored, complete) => StartGetsInside(budget, s, t, id, stored, turn.size, false, complete);
    case StartWait(t, id, stored, behind) => StartGetsInside(budget, s, t, id, stored, turn.size, true, behind);
  }

  lemma Goes(budget: Option<nat>, s: State, turn: Turn)
    requires Inv(s) && Enabled(s, turn.action) && !turn.action.StartRun? && !turn.action.StartWait?
    ensures CameAndWent(s, turn.action, Step(budget, s, turn))
  {
    hide Lookup, Ids, Trimmed, Inv, Release, Moved, Inside, Pinned, Only;
    match turn.action
    case Use(id, stored) => UsesOnly(budget, s, [id], turn.size);
    case FailedUnit(ids) => UsesOnly(budget, s, ids, turn.size);
    case EndRun(t) => TrimmedKeepsRest(budget, s.(active := Release(s.active, s.holds[t].id), holds := s.holds - {t}), {}, turn.size);
    case EndWait(t) => TrimmedKeepsRest(budget, s.(waiters := Release(s.waiters, s.holds[t].id), holds := s.holds - {t}), {}, turn.size);
    case Refresh(id, stored, settled) =>
      TrimmedKeepsRest(budget, s, {id}, turn.size);
      TrimmedKeepsRest(budget, s.(cache := s.cache + [Entry(id, s.next)], next := s.next + 1), {id}, turn.size);
    case _ =>
  }

  lemma {:induction false} UsesOnly(budget: Option<nat>, s: State, ids: seq<string>, size: nat -> nat)
    ensures var r := AccessAll(budget, s, ids, size); r.holds == s.holds && r.active == s.active && r.waiters == s.waiters
    ensures forall id, stored :: var r := Access(budget, s, id, stored, size);
              r.Some? ==> r.value.holds == s.holds && r.value.active == s.active && r.value.waiters == s.waiters
    decreases |ids|
  {
    hide Lookup, Fit;
    if ids != [] && Access(budget, s, ids[0], true, size).Some? { UsesOnly(budget, Access(budget, s, ids[0], true, size).value, ids[1..], size); }
  }

  lemma TrimmedKeepsRest(budget: Option<nat>, s: State, keep: set<string>, size: nat -> nat)
    ensures var r := Trimmed(budget, s, keep, size); r == s.(cache := r.cache)
  {
  }

  lemma StartGetsInside(budget: Option<nat>, s: State, t: nat, id: string, stored: bool, size: nat -> nat, waiting: bool, enters: bool)
    requires Unique(s.cache) && (forall e :: e in s.cache ==> e.obj < s.next) && t !in s.holds
    ensures Access(budget, s, id, stored, size).Some? <==> stored || id in Ids(s.cache)
    ensures Access(budget, s, id, stored, size).Some? ==>
              var m := Access(budget, s, id, stored, size).value;
              && m.holds == s.holds && Lookup(m.cache, id).Some?
              && (enters ==> var r := Entered(m, t, id, waiting); Inside(r, t, id, waiting) && r.holds == s.holds[t := r.holds[t]])
  {
    hide Lookup, Ids, Fit, Moved, Unique;
    AccessMakesLast(budget, s, id, stored, size);
    if Access(budget, s, id, stored, size).Some? {
      AccessIsSteady(budget, s, id, stored, size);
      LookupIn(Access(budget, s, id, stored, size).value.cache, id);
    }
  }
}
